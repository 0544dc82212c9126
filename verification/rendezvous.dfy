/**
  How a server pairs UDP traffic with TCP handshakes. Each handshake stores a key and puts a token into the one-slot
  channel of the key's name; the UDP reader, on an unencrypted announcement, waits for that token, looks the key up
  and installs a codec for the sender's address. Only packets from addresses with a codec reach the read channel.
*/
module Rendezvous {
  import opened Wrappers
  import opened Handshake

  const PREFIX_LEN: nat := 4

  type Addr = string

  // A datagram on the wire: in the clear, or sealed under a key.
  datatype Wire = Clear(bytes: Bytes) | Sealed(key: EncryptKey, algo: Algo, bytes: Bytes)

  datatype Codec = Codec(key: EncryptKey, algo: Algo)

  function Encode(c: Codec, b: Bytes): Wire {
    if c.algo == NoEncryption then Clear(b) else Sealed(c.key, c.algo, b)
  }

  // Without a cipher, decoding copies whatever bytes arrive; `raw` is how a sealed datagram looks as bytes.
  function Decode(c: Codec, w: Wire, raw: Wire -> Bytes): Option<Bytes> {
    if c.algo == NoEncryption then Some(if w.Clear? then w.bytes else raw(w))
    else if w == Sealed(c.key, c.algo, if w.Sealed? then w.bytes else []) then Some(w.bytes)
    else None
  }

  datatype UDPError = ClosedPipe | DecodeFailed | Unsupported

  /** A UDP socket with a codec per peer address. */
  class EncryptUDPConn {
    var encoders: map<Addr, Codec>
    var decoders: map<Addr, Codec>
    var isClosed: bool

    ghost predicate Valid()
      reads this
    {
      encoders == decoders
    }

    constructor ()
      ensures Valid() && encoders == map[] && !isClosed
    {
      encoders, decoders, isClosed := map[], map[], false;
    }

    method AddCodec(addr: Addr, key: EncryptKey, algo: Algo) returns (r: Result<(), UDPError>)
      requires Valid()
      modifies this
      ensures Valid() && isClosed == old(isClosed)
      ensures match WithCodec(old(encoders), addr, key, algo)
              case Ok(codecs) => r.Ok? && encoders == codecs
              case Err(e) => r == Err(e) && encoders == old(encoders)
    {
      if algo == UnknownAlgo {
        return Err(Unsupported);
      }
      encoders := encoders[addr := Codec(key, algo)];
      decoders := decoders[addr := Codec(key, algo)];
      return Ok(());
    }

    // On a decoding failure the caller sees zero bytes and no encryption.
    method ReadFromUDPEncrypted(from: Addr, w: Wire, raw: Wire -> Bytes)
      returns (b: Bytes, encrypted: bool, err: Option<UDPError>)
      requires Valid()
      ensures isClosed ==> err == Some(ClosedPipe)
      ensures !isClosed ==> (b, encrypted) == Received(decoders, from, w, raw)
      ensures err.Some? <==> isClosed || (from in decoders && Decode(decoders[from], w, raw).None?)
    {
      if isClosed {
        return [], false, Some(ClosedPipe);
      }
      if from !in decoders {
        return if w.Clear? then w.bytes else raw(w), false, None;
      }
      var plain := Decode(decoders[from], w, raw);
      if plain.None? {
        return [], false, Some(DecodeFailed);
      }
      return plain.value, true, None;
    }

    method WriteMsgUDPEncrypted(b: Bytes, addr: Addr) returns (w: Option<Wire>, encrypted: bool)
      requires Valid()
      ensures w.None? <==> isClosed
      ensures !isClosed ==> (w.value, encrypted) == Written(encoders, addr, b)
    {
      if isClosed {
        return None, false;
      }
      if addr !in encoders {
        return Some(Clear(b)), false;
      }
      return Some(Encode(encoders[addr], b)), true;
    }

    method Close()
      modifies this`isClosed
      ensures isClosed
    {
      isClosed := true;
    }
  }

  function WithCodec(codecs: map<Addr, Codec>, addr: Addr, key: EncryptKey, algo: Algo): Result<map<Addr, Codec>, UDPError> {
    if algo == UnknownAlgo then Err(Unsupported) else Ok(codecs[addr := Codec(key, algo)])
  }

  // What a write puts on the wire, and whether a codec produced it.
  function Written(encoders: map<Addr, Codec>, addr: Addr, b: Bytes): (Wire, bool) {
    if addr in encoders then (Encode(encoders[addr], b), true) else (Clear(b), false)
  }

  // What a read hands to the caller: the bytes and whether a codec produced them.
  function Received(decoders: map<Addr, Codec>, from: Addr, w: Wire, raw: Wire -> Bytes): (Bytes, bool) {
    if from !in decoders then (if w.Clear? then w.bytes else raw(w), false)
    else
      match Decode(decoders[from], w, raw)
      case Some(plain) => (plain, true)
      case None => ([], false)
  }

  // Peers that added the same codec for each other read what the other wrote, marked as encrypted; with a cipher, a codec
  // accepts exactly the datagrams sealed under its own key and algorithm.
  lemma CodecRoundTrip(here: map<Addr, Codec>, there: map<Addr, Codec>, to: Addr, from: Addr, key: EncryptKey, algo: Algo,
                       b: Bytes, w: Wire, raw: Wire -> Bytes)
    requires algo != UnknownAlgo
    ensures var written := Written(WithCodec(here, to, key, algo).value, to, b);
            var decoders := WithCodec(there, from, key, algo).value;
            && written.1 && Received(decoders, from, written.0, raw) == (b, true)
            && (algo != NoEncryption ==> (Received(decoders, from, w, raw) == (b, true) <==> w == written.0))
  {
  }

  // From an address without a codec bytes are handed on as they are, not marked as encrypted; a datagram that the codec of
  // its address does not decode is handed on as nothing; and what is written without a codec goes out in the clear.
  lemma WithoutCodec(codecs: map<Addr, Codec>, from: Addr, w: Wire, b: Bytes, raw: Wire -> Bytes)
    ensures from !in codecs ==> Received(codecs, from, w, raw) == (if w.Clear? then w.bytes else raw(w), false)
    ensures from in codecs && Decode(codecs[from], w, raw).None? ==> Received(codecs, from, w, raw) == ([], false)
    ensures from !in codecs ==> Written(codecs, from, b) == (Clear(b), false)
  {
  }

  /* ----- The server as a step system ----- */

  // A TCP handshake that got as far as storing its key: the client's public key, the server's nonce, and the algorithm
  // that the client asked for.
  datatype Handshaken = Handshaken(publicKey: Bytes, nonce: Bytes, algo: Algo)

  // A goroutine serving one TCP connection, after its handshake stored the key.
  datatype TcpPc = Stored(h: Handshaken) | Signalled(h: Handshaken)

  datatype ReaderPc =
    | Idle
    | Waiting(from: Addr, metadata: Metadata)
    | Passed(from: Addr, metadata: Metadata)
    | Keyed(from: Addr, metadata: Metadata, key: EncryptKey)

  // `origin` is the announcement behind the codec that decoded the packet.
  datatype Packet = Packet(from: Addr, data: Bytes, wire: Wire, origin: Metadata)

  // `passes`, `origins` and `announced` are history: the names whose tokens were taken, the announcement behind each
  // codec, and the unencrypted announcements received from each address.
  datatype State = State(
    encryptKeys: map<Bytes, EncryptKey>, tokens: map<Bytes, nat>, tcp: seq<TcpPc>, reader: ReaderPc,
    decoders: map<Addr, Codec>, readChan: seq<Packet>, passes: seq<Bytes>, origins: map<Addr, Metadata>,
    announced: set<(Addr, Metadata)>)

  // The server's public key, and the library code it calls: which public keys lie on the curve, the metadata parser and
  // formatter, and how sealed datagrams look as bytes.
  datatype Env = Env(own: Bytes, isPoint: Bytes -> bool, parse: Bytes -> Option<Metadata>, format: Metadata -> Bytes,
                     raw: Wire -> Bytes)

  // Metadata with a public key survives formatting and takes up space, and sealing lengthens. Nothing is said of metadata
  // without a key: the formatter may leave out fields with default values, and then a default message is empty.
  ghost predicate EnvOk(env: Env) {
    && (forall m: Metadata :: m.publicKey != [] ==> env.format(m) != [] && env.parse(env.format(m)) == Some(m))
    && (forall key, algo, b :: |env.raw(Sealed(key, algo, b))| > |b|)
  }

  // How the server's side of a handshake ends.
  function Outcome(env: Env, h: Handshaken): Result<Session, Error> {
    Conclude(env.own, NoEncryption, [], h.nonce, Metadata(h.algo, h.publicKey, [], false), env.isPoint)
  }

  predicate Completed(env: Env, h: Handshaken) {
    Outcome(env, h).Ok?
  }

  // An unsupported algorithm is refused only after the key has been stored and announced.
  predicate Stores(env: Env, h: Handshaken) {
    Completed(env, h) || Outcome(env, h) == Err(UnsupportedAlgo)
  }

  // A greeting with a key of 32 bytes is answered to the end for a supported algorithm; one for an unsupported algorithm
  // leaves a key as well. In either case, and with any algorithm but none, the key has to lie on the curve.
  lemma StoresIff(env: Env, h: Handshaken)
    ensures Stores(env, h) <==> |h.publicKey| == 32 && (h.algo == NoEncryption || env.isPoint(h.publicKey))
    ensures Completed(env, h) <==> Stores(env, h) && h.algo != UnknownAlgo
  {
  }

  function KeyOf(env: Env, h: Handshaken): EncryptKey {
    KeyFor(h.algo, h.nonce, env.own, h.publicKey)
  }

  datatype Step =
    | StoreKey(h: Handshaken)
    | Signal(i: nat)
    | Receive(from: Addr, wire: Wire)
    | TakeToken
    | LoadKey
    | Install

  const INIT := State(map[], map[], [], Idle, map[], [], [], map[], {})

  function NameOf(m: Metadata): Bytes {
    KeyName(m.publicKey, m.nonce)
  }

  function HandshakeName(h: Handshaken): Bytes {
    KeyName(h.publicKey, h.nonce)
  }

  function Tokens(s: State, name: Bytes): nat {
    if name in s.tokens then s.tokens[name] else 0
  }

  predicate IsControl(b: Bytes) {
    |b| > PREFIX_LEN && b[..PREFIX_LEN] == [0, 0, 0, 0]
  }

  predicate Enabled(s: State, env: Env, step: Step) {
    match step
    case StoreKey(h) => Stores(env, h)
    case Signal(i) => i < |s.tcp| && s.tcp[i].Stored?
    case Receive(_, _) => s.reader.Idle?
    case TakeToken => s.reader.Waiting? && Tokens(s, NameOf(s.reader.metadata)) > 0
    case LoadKey => s.reader.Passed?
    case Install => s.reader.Keyed?
  }

  // What the reader does with one datagram.
  function Handle(s: State, env: Env, from: Addr, wire: Wire): State {
    var (b, encrypted) := Received(s.decoders, from, wire, env.raw);
    if IsControl(b) then
      match env.parse(b[PREFIX_LEN..])
      case None => s
      case Some(m) => if m.isPing || encrypted then s
        else s.(reader := Waiting(from, m), announced := s.announced + {(from, m)})
    else if !encrypted || b == [] || from !in s.origins then s // every address with a decoder has an origin
    else s.(readChan := s.readChan + [Packet(from, b, wire, s.origins[from])])
  }

  function Apply(s: State, env: Env, step: Step): State
    requires Enabled(s, env, step)
  {
    match step
    case StoreKey(h) => s.(encryptKeys := s.encryptKeys[HandshakeName(h) := KeyOf(env, h)], tcp := s.tcp + [Stored(h)])
    case Signal(i) =>
      var h := s.tcp[i].h;
      s.(tokens := s.tokens[HandshakeName(h) := 1], tcp := s.tcp[i := Signalled(h)])
    case Receive(from, wire) => Handle(s, env, from, wire)
    case TakeToken =>
      var name := NameOf(s.reader.metadata);
      s.(tokens := s.tokens[name := Tokens(s, name) - 1], reader := Passed(s.reader.from, s.reader.metadata),
         passes := s.passes + [name])
    case LoadKey =>
      var name := NameOf(s.reader.metadata);
      s.(reader := if name in s.encryptKeys then Keyed(s.reader.from, s.reader.metadata, s.encryptKeys[name]) else Idle)
    case Install =>
      var Keyed(from, m, key) := s.reader;
      match WithCodec(s.decoders, from, key, m.algo)
      case Ok(decoders) => s.(reader := Idle, decoders := decoders, origins := s.origins[from := m])
      case Err(_) => s.(reader := Idle)
  }

  predicate Legal(s: State, env: Env, steps: seq<Step>)
    decreases |steps|
  {
    steps == [] || (Enabled(s, env, steps[0]) && Legal(Apply(s, env, steps[0]), env, steps[1..]))
  }

  function Play(s: State, env: Env, steps: seq<Step>): State
    requires Legal(s, env, steps)
    decreases |steps|
  {
    if steps == [] then s else Play(Apply(s, env, steps[0]), env, steps[1..])
  }

  /* ----- Invariants ----- */

  // Some completed handshake has this name and this key.
  ghost predicate FromHandshake(s: State, env: Env, name: Bytes, key: EncryptKey) {
    exists i :: 0 <= i < |s.tcp| && HandshakeName(s.tcp[i].h) == name && KeyOf(env, s.tcp[i].h) == key
  }

  ghost predicate KeysOk(s: State, env: Env) {
    && (forall name :: name in s.encryptKeys ==> FromHandshake(s, env, name, s.encryptKeys[name]))
    && (forall i :: 0 <= i < |s.tcp| ==> HandshakeName(s.tcp[i].h) in s.encryptKeys)
    && (forall i :: 0 <= i < |s.tcp| ==> |s.tcp[i].h.publicKey| == PUBLIC_KEY_SIZE)
    && (forall name :: Tokens(s, name) > 0 ==> name in s.encryptKeys)
  }

  ghost predicate ReaderOk(s: State, env: Env) {
    match s.reader
    case Idle => true
    case Waiting(from, m) => (from, m) in s.announced
    case Passed(from, m) => (from, m) in s.announced && NameOf(m) in s.encryptKeys
    case Keyed(from, m, key) => (from, m) in s.announced && FromHandshake(s, env, NameOf(m), key)
  }

  // One installed codec matches its announcement and a handshake of that name.
  ghost predicate CodecOk(s: State, env: Env, a: Addr) {
    && a in s.decoders && a in s.origins
    && FromHandshake(s, env, NameOf(s.origins[a]), s.decoders[a].key)
    && s.decoders[a].algo == s.origins[a].algo != UnknownAlgo
    && (a, s.origins[a]) in s.announced
  }

  ghost predicate CodecsOk(s: State, env: Env) {
    s.decoders.Keys == s.origins.Keys && forall a :: a in s.decoders ==> CodecOk(s, env, a)
  }

  // A packet was decoded with a key that some handshake stored under the name its sender's address announced.
  ghost predicate PacketOk(s: State, env: Env, p: Packet) {
    && (p.from, p.origin) in s.announced && p.origin.algo != UnknownAlgo
    && exists key: EncryptKey ::
         FromHandshake(s, env, NameOf(p.origin), key) && Decode(Codec(key, p.origin.algo), p.wire, env.raw) == Some(p.data)
  }

  ghost predicate Inv(s: State, env: Env) {
    && KeysOk(s, env) && ReaderOk(s, env) && CodecsOk(s, env)
    && forall i :: 0 <= i < |s.readChan| ==> PacketOk(s, env, s.readChan[i])
  }

  lemma HandshakesStay(s: State, env: Env, step: Step, name: Bytes, key: EncryptKey)
    requires Enabled(s, env, step) && FromHandshake(s, env, name, key)
    ensures FromHandshake(Apply(s, env, step), env, name, key)
  {
    var i :| 0 <= i < |s.tcp| && HandshakeName(s.tcp[i].h) == name && KeyOf(env, s.tcp[i].h) == key;
    var s' := Apply(s, env, step);
    assert s'.tcp[i].h == s.tcp[i].h;
  }

  // What a datagram comes to: control messages are four zero bytes with metadata behind them, and only an unencrypted one
  // that is no ping makes the reader wait; any other datagram is queued exactly if it was decoded and is not empty.
  lemma HandleMeans(s: State, env: Env, from: Addr, wire: Wire)
    ensures var (b, encrypted) := Received(s.decoders, from, wire, env.raw);
            var control := |b| > 4 && b[0] == b[1] == b[2] == b[3] == 0;
            var s' := Handle(s, env, from, wire);
            && (control && env.parse(b[4..]).Some? && !env.parse(b[4..]).value.isPing && !encrypted ==>
                  s' == s.(reader := Waiting(from, env.parse(b[4..]).value), announced := s.announced + {(from, env.parse(b[4..]).value)}))
            && (control && (env.parse(b[4..]).None? || env.parse(b[4..]).value.isPing || encrypted) ==> s' == s)
            && (!control && (!encrypted || b == []) ==> s' == s)
            && (!control && encrypted && b != [] && from in s.origins ==>
                  s' == s.(readChan := s.readChan + [Packet(from, b, wire, s.origins[from])]))
  {
    var b := Received(s.decoders, from, wire, env.raw).0;
    if |b| > 4 && b[0] == b[1] == b[2] == b[3] == 0 {
      assert b[..4] == [0, 0, 0, 0];
    } else if |b| > 4 {
      assert b[..4][0] == b[0] && b[..4][1] == b[1] && b[..4][2] == b[2] && b[..4][3] == b[3];
    }
  }

  // Reading a datagram touches only the reader and the read channel.
  lemma HandleFacts(s: State, env: Env, from: Addr, wire: Wire)
    ensures var s' := Handle(s, env, from, wire);
            && s' == s.(reader := s'.reader, readChan := s'.readChan, announced := s'.announced)
            && s.announced <= s'.announced
            && (|| s'.reader == s.reader
                || (s'.reader.Waiting? && (s'.reader.from, s'.reader.metadata) in s'.announced))
            && (|| s'.readChan == s.readChan
                || (&& from in s.decoders && |s'.readChan| == |s.readChan| + 1
                    && s'.readChan[..|s.readChan|] == s.readChan
                    && var p := s'.readChan[|s.readChan|];
                       && from in s.origins && p == Packet(from, p.data, wire, s.origins[from])
                       && Decode(s.decoders[from], wire, env.raw) == Some(p.data)))
  {
  }

  // Installing ends the announcement: the address gets a codec with the key and the announced algorithm, if there is one.
  lemma InstallMeans(s: State, env: Env)
    requires Enabled(s, env, Install)
    ensures var Keyed(from, m, key) := s.reader;
            Apply(s, env, Install)
            == if m.algo == UnknownAlgo then s.(reader := Idle)
               else s.(reader := Idle, decoders := s.decoders[from := Codec(key, m.algo)], origins := s.origins[from := m])
  {
  }

  lemma StepKeepsProvenance(s: State, env: Env, step: Step)
    requires KeysOk(s, env) && Enabled(s, env, step)
    ensures var s' := Apply(s, env, step);
            forall name :: name in s'.encryptKeys ==> FromHandshake(s', env, name, s'.encryptKeys[name])
  {
    var s' := Apply(s, env, step);
    if step.Receive? {
      HandleFacts(s, env, step.from, step.wire);
    }
    forall name | name in s'.encryptKeys
      ensures FromHandshake(s', env, name, s'.encryptKeys[name])
    {
      if step.StoreKey? && name == HandshakeName(step.h) {
        assert s'.tcp[|s.tcp|].h == step.h;
      } else {
        HandshakesStay(s, env, step, name, s.encryptKeys[name]);
      }
    }
  }

  lemma StepKeepsNames(s: State, env: Env, step: Step)
    requires KeysOk(s, env) && Enabled(s, env, step)
    ensures var s' := Apply(s, env, step);
            && (forall i :: 0 <= i < |s'.tcp| ==> HandshakeName(s'.tcp[i].h) in s'.encryptKeys)
            && (forall i :: 0 <= i < |s'.tcp| ==> |s'.tcp[i].h.publicKey| == PUBLIC_KEY_SIZE)
            && s.encryptKeys.Keys <= s'.encryptKeys.Keys
  {
    if step.Receive? {
      HandleFacts(s, env, step.from, step.wire);
    }
    var s' := Apply(s, env, step);
    forall i | 0 <= i < |s'.tcp|
      ensures HandshakeName(s'.tcp[i].h) in s'.encryptKeys && |s'.tcp[i].h.publicKey| == PUBLIC_KEY_SIZE
    {
      if i < |s.tcp| {
        assert s'.tcp[i].h == s.tcp[i].h;
      }
    }
  }

  lemma StepKeepsKeys(s: State, env: Env, step: Step)
    requires KeysOk(s, env) && Enabled(s, env, step)
    ensures KeysOk(Apply(s, env, step), env)
  {
    StepKeepsProvenance(s, env, step);
    StepKeepsNames(s, env, step);
    var s' := Apply(s, env, step);
    forall name | Tokens(s', name) > 0
      ensures name in s'.encryptKeys
    {
      if step.Receive? {
        HandleFacts(s, env, step.from, step.wire);
      }
      if step.Signal? && name == HandshakeName(s.tcp[step.i].h) {
      } else {
        assert Tokens(s, name) > 0;
      }
    }
  }

  lemma StepKeepsReader(s: State, env: Env, step: Step)
    requires KeysOk(s, env) && ReaderOk(s, env) && Enabled(s, env, step)
    ensures ReaderOk(Apply(s, env, step), env)
  {
    if s.reader.Keyed? {
      HandshakesStay(s, env, step, NameOf(s.reader.metadata), s.reader.key);
    }
  }

  // Everything but installing leaves codecs and their origins alone.
  lemma CodecsStay(s: State, env: Env, step: Step)
    requires Enabled(s, env, step) && !step.Install?
    ensures var s' := Apply(s, env, step);
            s'.decoders == s.decoders && s'.origins == s.origins && s.announced <= s'.announced
  {
    if step.Receive? {
      HandleFacts(s, env, step.from, step.wire);
    }
  }

  lemma CodecStays(s: State, env: Env, step: Step, a: Addr)
    requires Enabled(s, env, step) && !step.Install? && CodecOk(s, env, a)
    ensures CodecOk(Apply(s, env, step), env, a)
  {
    CodecsStay(s, env, step);
    HandshakesStay(s, env, step, NameOf(s.origins[a]), s.decoders[a].key);
  }

  lemma InstalledCodecOk(s: State, env: Env)
    requires ReaderOk(s, env) && Enabled(s, env, Install) && s.reader.metadata.algo != UnknownAlgo
    ensures CodecOk(Apply(s, env, Install), env, s.reader.from)
  {
    HandshakesStay(s, env, Install, NameOf(s.reader.metadata), s.reader.key);
  }

  lemma OtherCodecStays(s: State, env: Env, a: Addr)
    requires Enabled(s, env, Install) && CodecOk(s, env, a) && (a != s.reader.from || s.reader.metadata.algo == UnknownAlgo)
    ensures CodecOk(Apply(s, env, Install), env, a)
  {
    HandshakesStay(s, env, Install, NameOf(s.origins[a]), s.decoders[a].key);
  }

  lemma InstallKeepsCodecs(s: State, env: Env)
    requires ReaderOk(s, env) && CodecsOk(s, env) && Enabled(s, env, Install)
    ensures CodecsOk(Apply(s, env, Install), env)
  {
    var s' := Apply(s, env, Install);
    forall a | a in s'.decoders
      ensures CodecOk(s', env, a)
    {
      if a == s.reader.from && s.reader.metadata.algo != UnknownAlgo {
        InstalledCodecOk(s, env);
      } else {
        OtherCodecStays(s, env, a);
      }
    }
  }

  lemma StepKeepsCodecs(s: State, env: Env, step: Step)
    requires ReaderOk(s, env) && CodecsOk(s, env) && Enabled(s, env, step)
    ensures CodecsOk(Apply(s, env, step), env)
  {
    if step.Install? {
      InstallKeepsCodecs(s, env);
    } else {
      CodecsStay(s, env, step);
      forall a | a in s.decoders
        ensures CodecOk(Apply(s, env, step), env, a)
      {
        assert CodecOk(s, env, a);
        CodecStays(s, env, step, a);
      }
    }
  }

  lemma PacketStays(s: State, env: Env, step: Step, p: Packet)
    requires Enabled(s, env, step) && PacketOk(s, env, p)
    ensures PacketOk(Apply(s, env, step), env, p)
  {
    var key :| FromHandshake(s, env, NameOf(p.origin), key)
               && Decode(Codec(key, p.origin.algo), p.wire, env.raw) == Some(p.data);
    HandshakesStay(s, env, step, NameOf(p.origin), key);
    if step.Receive? {
      HandleFacts(s, env, step.from, step.wire);
    }
  }

  lemma NewPacketOk(s: State, env: Env, p: Packet)
    requires CodecsOk(s, env) && p.from in s.decoders && p.origin == s.origins[p.from]
    requires Decode(s.decoders[p.from], p.wire, env.raw) == Some(p.data)
    ensures PacketOk(s, env, p)
  {
    assert CodecOk(s, env, p.from);
    assert s.decoders[p.from] == Codec(s.decoders[p.from].key, p.origin.algo);
    assert FromHandshake(s, env, NameOf(p.origin), s.decoders[p.from].key);
  }

  // A packet on the read channel after a step was there before, or has just been decoded.
  lemma PacketOrigin(s: State, env: Env, step: Step, i: nat)
    requires Enabled(s, env, step) && i < |Apply(s, env, step).readChan|
    ensures var p := Apply(s, env, step).readChan[i];
            || (i < |s.readChan| && p == s.readChan[i])
            || (&& p.from in s.decoders && p.from in s.origins && p.origin == s.origins[p.from]
                && Decode(s.decoders[p.from], p.wire, env.raw) == Some(p.data))
  {
    if step.Receive? {
      HandleFacts(s, env, step.from, step.wire);
      var s' := Apply(s, env, step);
      assert i < |s.readChan| ==> s'.readChan[i] == s.readChan[i];
    }
  }

  lemma StepKeepsPackets(s: State, env: Env, step: Step, i: nat)
    requires CodecsOk(s, env) && (forall j :: 0 <= j < |s.readChan| ==> PacketOk(s, env, s.readChan[j]))
    requires Enabled(s, env, step) && i < |Apply(s, env, step).readChan|
    ensures PacketOk(Apply(s, env, step), env, Apply(s, env, step).readChan[i])
  {
    var p := Apply(s, env, step).readChan[i];
    PacketOrigin(s, env, step, i);
    if !(i < |s.readChan| && p == s.readChan[i]) {
      NewPacketOk(s, env, p);
    }
    PacketStays(s, env, step, p);
  }

  lemma StepKeepsInv(s: State, env: Env, step: Step)
    requires Inv(s, env) && Enabled(s, env, step)
    ensures Inv(Apply(s, env, step), env)
  {
    StepKeepsKeys(s, env, step);
    StepKeepsReader(s, env, step);
    StepKeepsCodecs(s, env, step);
    forall i | 0 <= i < |Apply(s, env, step).readChan|
      ensures PacketOk(Apply(s, env, step), env, Apply(s, env, step).readChan[i])
    {
      StepKeepsPackets(s, env, step, i);
    }
  }

  lemma {:induction false} PlayKeepsInv(s: State, env: Env, steps: seq<Step>)
    requires Inv(s, env) && Legal(s, env, steps)
    ensures Inv(Play(s, env, steps), env)
    decreases |steps|
  {
    if steps != [] {
      StepKeepsInv(s, env, steps[0]);
      PlayKeepsInv(Apply(s, env, steps[0]), env, steps[1..]);
    }
  }

  // Passing the ready channel implies the key is stored, so the lookup that follows always succeeds.
  lemma PassedReaderFindsKey(env: Env, steps: seq<Step>)
    requires Legal(INIT, env, steps) && Play(INIT, env, steps).reader.Passed?
    ensures var s := Play(INIT, env, steps);
            NameOf(s.reader.metadata) in s.encryptKeys && Apply(s, env, LoadKey).reader.Keyed?
  {
    PlayKeepsInv(INIT, env, steps);
  }

  // The packet's announcement names this handshake, and its data came out of a codec with the handshake's key.
  predicate DeliveredFor(env: Env, h: Handshaken, p: Packet) {
    && NameOf(p.origin) == HandshakeName(h)
    && (|p.origin.publicKey| == PUBLIC_KEY_SIZE ==> p.origin.publicKey == h.publicKey && p.origin.nonce == h.nonce)
    && p.origin.algo != UnknownAlgo
    && Decode(Codec(KeyOf(env, h), p.origin.algo), p.wire, env.raw) == Some(p.data)
  }

  lemma PacketNamesHandshake(s: State, env: Env, p: Packet) returns (j: nat)
    requires KeysOk(s, env) && PacketOk(s, env, p)
    ensures j < |s.tcp| && DeliveredFor(env, s.tcp[j].h, p)
  {
    var m := p.origin;
    var key :| FromHandshake(s, env, NameOf(m), key) && Decode(Codec(key, m.algo), p.wire, env.raw) == Some(p.data);
    j :| 0 <= j < |s.tcp| && HandshakeName(s.tcp[j].h) == NameOf(m) && KeyOf(env, s.tcp[j].h) == key;
    NamesIdentify(m.publicKey, m.nonce, s.tcp[j].h.publicKey, s.tcp[j].h.nonce);
  }

  // Every packet on the read channel comes from an address that announced a public key and nonce for which a TCP handshake
  // stored a key, the same ones if the announced key has the regular size, and it was decoded with that handshake's key.
  lemma PacketsComeFromHandshakes(env: Env, steps: seq<Step>, i: nat) returns (j: nat)
    requires Legal(INIT, env, steps) && i < |Play(INIT, env, steps).readChan|
    ensures var s := Play(INIT, env, steps);
            && (s.readChan[i].from, s.readChan[i].origin) in s.announced
            && j < |s.tcp| && DeliveredFor(env, s.tcp[j].h, s.readChan[i])
  {
    PlayKeepsInv(INIT, env, steps);
    var s := Play(INIT, env, steps);
    assert PacketOk(s, env, s.readChan[i]);
    j := PacketNamesHandshake(s, env, s.readChan[i]);
  }

  /* ----- Refused handshakes and announced algorithms: what a client can get through ----- */

  // A client shakes hands over TCP, announces its key over UDP with an algorithm of its choice, and sends a packet.
  function Announcement(h: Handshaken, algo: Algo): Metadata {
    Metadata(algo, h.publicKey, h.nonce, false)
  }

  function ServedPacket(env: Env, h: Handshaken, algo: Algo, from: Addr, data: Bytes): Packet {
    Packet(from, data, Encode(Codec(KeyOf(env, h), algo), data), Announcement(h, algo))
  }

  function AnnouncementFrom(env: Env, from: Addr, m: Metadata): Step {
    Receive(from, Clear([0, 0, 0, 0] + env.format(m)))
  }

  function InstallRun(env: Env, h: Handshaken, algo: Algo, from: Addr): seq<Step> {
    [StoreKey(h), Signal(0), AnnouncementFrom(env, from, Announcement(h, algo))] + [TakeToken, LoadKey, Install]
  }

  function ServedRun(env: Env, h: Handshaken, algo: Algo, from: Addr, data: Bytes): seq<Step> {
    InstallRun(env, h, algo, from) + [Receive(from, ServedPacket(env, h, algo, from, data).wire)]
  }

  lemma LegalCons(s: State, env: Env, step: Step, rest: seq<Step>)
    requires Enabled(s, env, step) && Legal(Apply(s, env, step), env, rest)
    ensures Legal(s, env, [step] + rest) && Play(s, env, [step] + rest) == Play(Apply(s, env, step), env, rest)
  {
    assert ([step] + rest)[1..] == rest;
  }

  lemma {:induction false} PlayAppend(s: State, env: Env, steps: seq<Step>, more: seq<Step>)
    requires Legal(s, env, steps) && Legal(Play(s, env, steps), env, more)
    ensures Legal(s, env, steps + more) && Play(s, env, steps + more) == Play(Play(s, env, steps), env, more)
    decreases |steps|
  {
    if steps == [] {
      assert steps + more == more;
    } else {
      PlayAppend(Apply(s, env, steps[0]), env, steps[1..], more);
      assert (steps + more)[0] == steps[0] && (steps + more)[1..] == steps[1..] + more;
    }
  }

  lemma AnnouncementArrives(s: State, env: Env, from: Addr, m: Metadata)
    requires EnvOk(env) && from !in s.decoders && m.publicKey != [] && !m.isPing
    ensures Handle(s, env, from, Clear([0, 0, 0, 0] + env.format(m)))
         == s.(reader := Waiting(from, m), announced := s.announced + {(from, m)})
  {
    var b := [0, 0, 0, 0] + env.format(m);
    assert b[..PREFIX_LEN] == [0, 0, 0, 0] && b[PREFIX_LEN..] == env.format(m);
  }

  // The handshake is over and the announcement has arrived.
  function Announced(env: Env, h: Handshaken, algo: Algo, from: Addr): State {
    State(map[HandshakeName(h) := KeyOf(env, h)], map[HandshakeName(h) := 1], [Signalled(h)],
          Waiting(from, Announcement(h, algo)), map[], [], [], map[], {(from, Announcement(h, algo))})
  }

  // The reader has taken the token and installed a codec for the client's address.
  function Served(env: Env, h: Handshaken, algo: Algo, from: Addr): State {
    State(map[HandshakeName(h) := KeyOf(env, h)], map[HandshakeName(h) := 0], [Signalled(h)], Idle,
          map[from := Codec(KeyOf(env, h), algo)], [], [HandshakeName(h)], map[from := Announcement(h, algo)],
          {(from, Announcement(h, algo))})
  }

  lemma ClientIsAnnounced(env: Env, h: Handshaken, algo: Algo, from: Addr)
    requires EnvOk(env) && Stores(env, h)
    ensures var steps := [StoreKey(h), Signal(0), AnnouncementFrom(env, from, Announcement(h, algo))];
            Legal(INIT, env, steps) && Play(INIT, env, steps) == Announced(env, h, algo, from)
  {
    var step := AnnouncementFrom(env, from, Announcement(h, algo));
    var s1 := Apply(INIT, env, StoreKey(h));
    var s2 := Apply(s1, env, Signal(0));
    assert s2.tcp == [Signalled(h)];
    AnnouncementArrives(s2, env, from, Announcement(h, algo));
    LegalCons(s2, env, step, []);
    LegalCons(s1, env, Signal(0), [step]);
    LegalCons(INIT, env, StoreKey(h), [Signal(0), step]);
  }

  lemma CodecIsInstalled(env: Env, h: Handshaken, algo: Algo, from: Addr)
    requires algo != UnknownAlgo
    ensures var s := Announced(env, h, algo, from);
            Legal(s, env, [TakeToken, LoadKey, Install]) && Play(s, env, [TakeToken, LoadKey, Install]) == Served(env, h, algo, from)
  {
    var s := Announced(env, h, algo, from);
    var s1 := Apply(s, env, TakeToken);
    var s2 := Apply(s1, env, LoadKey);
    assert Apply(s2, env, Install) == Served(env, h, algo, from);
    LegalCons(s2, env, Install, []);
    LegalCons(s1, env, LoadKey, [Install]);
    LegalCons(s, env, TakeToken, [LoadKey, Install]);
  }

  lemma ClientIsInstalled(env: Env, h: Handshaken, algo: Algo, from: Addr)
    requires EnvOk(env) && Stores(env, h) && algo != UnknownAlgo
    ensures var steps := InstallRun(env, h, algo, from);
            Legal(INIT, env, steps) && Play(INIT, env, steps) == Served(env, h, algo, from)
  {
    ClientIsAnnounced(env, h, algo, from);
    CodecIsInstalled(env, h, algo, from);
    PlayAppend(INIT, env, [StoreKey(h), Signal(0), AnnouncementFrom(env, from, Announcement(h, algo))],
               [TakeToken, LoadKey, Install]);
  }

  // Whatever the greeting asked for, and whichever supported algorithm the announcement names, the packet is delivered.
  lemma ClientIsServed(env: Env, h: Handshaken, algo: Algo, from: Addr, data: Bytes)
    requires EnvOk(env) && Stores(env, h) && algo != UnknownAlgo && data != [] && !IsControl(data)
    ensures var steps := ServedRun(env, h, algo, from, data);
            && Legal(INIT, env, steps)
            && var s := Play(INIT, env, steps);
               && s.readChan == [ServedPacket(env, h, algo, from, data)]
               && s.tcp == [Signalled(h)] && s.announced == {(from, Announcement(h, algo))}
  {
    ClientIsInstalled(env, h, algo, from);
    var step := Receive(from, ServedPacket(env, h, algo, from, data).wire);
    LegalCons(Served(env, h, algo, from), env, step, []);
    PlayAppend(INIT, env, InstallRun(env, h, algo, from), [step]);
  }

  // All TCP handshakes of the run are of an allowed kind.
  ghost predicate Greets(steps: seq<Step>, allowed: Handshaken -> bool) {
    forall i :: 0 <= i < |steps| && steps[i].StoreKey? ==> allowed(steps[i].h)
  }

  ghost predicate TcpAllowed(s: State, allowed: Handshaken -> bool) {
    forall j :: 0 <= j < |s.tcp| ==> allowed(s.tcp[j].h)
  }

  lemma {:induction false} TcpStaysAllowed(s: State, env: Env, steps: seq<Step>, allowed: Handshaken -> bool)
    requires Legal(s, env, steps) && Greets(steps, allowed) && TcpAllowed(s, allowed)
    ensures TcpAllowed(Play(s, env, steps), allowed)
    decreases |steps|
  {
    if steps != [] {
      if steps[0].Receive? {
        HandleFacts(s, env, steps[0].from, steps[0].wire);
      }
      var s' := Apply(s, env, steps[0]);
      assert forall j :: 0 <= j < |s.tcp| ==> s'.tcp[j].h == s.tcp[j].h;
      TcpStaysAllowed(s', env, steps[1..], allowed);
    }
  }

  // The packet stems from a handshake that was completed.
  ghost predicate FromCompleted(s: State, env: Env, p: Packet) {
    exists j :: 0 <= j < |s.tcp| && Completed(env, s.tcp[j].h) && DeliveredFor(env, s.tcp[j].h, p)
  }

  // In all runs whose handshakes are allowed ones, every packet stems from a completed handshake.
  ghost predicate OnlyCompletedServed(env: Env, allowed: Handshaken -> bool) {
    forall steps :: Legal(INIT, env, steps) && Greets(steps, allowed) ==>
      var s := Play(INIT, env, steps);
      forall i :: 0 <= i < |s.readChan| ==> FromCompleted(s, env, s.readChan[i])
  }

  // A refused handshake serves its client all the same.
  lemma RefusedClientIsServed(env: Env, h: Handshaken, from: Addr)
    requires EnvOk(env) && Outcome(env, h) == Err(UnsupportedAlgo)
    ensures var steps := ServedRun(env, h, XSalsa20Poly1305, from, [1]);
            && Legal(INIT, env, steps) && Greets(steps, x => x == h)
            && var s := Play(INIT, env, steps);
               |s.readChan| == 1 && !FromCompleted(s, env, s.readChan[0])
  {
    ClientIsServed(env, h, XSalsa20Poly1305, from, [1]);
  }

  lemma CompletedServe(env: Env, steps: seq<Step>, allowed: Handshaken -> bool, i: nat)
    requires forall h :: Stores(env, h) && allowed(h) ==> Completed(env, h)
    requires Legal(INIT, env, steps) && Greets(steps, allowed) && i < |Play(INIT, env, steps).readChan|
    ensures FromCompleted(Play(INIT, env, steps), env, Play(INIT, env, steps).readChan[i])
  {
    var j := PacketsComeFromHandshakes(env, steps, i);
    TcpStaysAllowed(INIT, env, steps, allowed);
    TcpStores(INIT, env, steps);
    var h := Play(INIT, env, steps).tcp[j].h;
    assert Stores(env, h) && allowed(h);
  }

  lemma TcpStores(s: State, env: Env, steps: seq<Step>)
    requires Legal(s, env, steps) && TcpAllowed(s, h => Stores(env, h))
    ensures TcpAllowed(Play(s, env, steps), h => Stores(env, h))
  {
    LegalStores(s, env, steps);
    TcpStaysAllowed(s, env, steps, h => Stores(env, h));
  }

  lemma {:induction false} LegalStores(s: State, env: Env, steps: seq<Step>)
    requires Legal(s, env, steps)
    ensures Greets(steps, h => Stores(env, h))
    decreases |steps|
  {
    if steps != [] {
      LegalStores(Apply(s, env, steps[0]), env, steps[1..]);
      forall i | 0 <= i < |steps| && steps[i].StoreKey?
        ensures Stores(env, steps[i].h)
      {
        assert i > 0 ==> steps[i] == steps[1..][i - 1];
      }
    }
  }

  // Packets stem from completed handshakes only if no client may ask for an unsupported algorithm, and then they all do.
  lemma OnlyCompletedServedIff(env: Env, allowed: Handshaken -> bool)
    requires EnvOk(env)
    ensures OnlyCompletedServed(env, allowed) <==> forall h :: Stores(env, h) && allowed(h) ==> h.algo != UnknownAlgo
  {
    assert forall h :: Stores(env, h) ==> (Completed(env, h) <==> h.algo != UnknownAlgo);
    if forall h :: Stores(env, h) && allowed(h) ==> h.algo != UnknownAlgo {
      forall steps | Legal(INIT, env, steps) && Greets(steps, allowed)
        ensures var s := Play(INIT, env, steps);
                forall i :: 0 <= i < |s.readChan| ==> FromCompleted(s, env, s.readChan[i])
      {
        forall i | 0 <= i < |Play(INIT, env, steps).readChan|
          ensures FromCompleted(Play(INIT, env, steps), env, Play(INIT, env, steps).readChan[i])
        {
          CompletedServe(env, steps, allowed, i);
        }
      }
    } else {
      var h :| Stores(env, h) && allowed(h) && h.algo == UnknownAlgo;
      RefusedClientIsServed(env, h, "");
      var steps := ServedRun(env, h, XSalsa20Poly1305, "", [1]);
      assert Greets(steps, allowed);
    }
  }

  /* The algorithm of a codec is the announced one, not the one that the TCP handshake agreed. */

  predicate SealedAsAgreed(env: Env, h: Handshaken, p: Packet) {
    p.wire == Sealed(KeyOf(env, h), h.algo, p.data)
  }

  lemma SealedIfAnnounced(env: Env, h: Handshaken, p: Packet)
    requires EnvOk(env) && DeliveredFor(env, h, p) && h.algo != NoEncryption
    ensures SealedAsAgreed(env, h, p) <==> p.origin.algo == h.algo
  {
  }

  // Announcements of this handshake's name all name this algorithm.
  ghost predicate Announces(s: State, h: Handshaken, algo: Algo) {
    forall from, m :: (from, m) in s.announced && NameOf(m) == HandshakeName(h) ==> m.algo == algo
  }

  // In all runs with this one handshake, announced under this algorithm, packets are sealed as the handshake agreed.
  ghost predicate AlwaysSealed(env: Env, h: Handshaken, algo: Algo) {
    forall steps :: Legal(INIT, env, steps) && Greets(steps, x => x == h) && Announces(Play(INIT, env, steps), h, algo) ==>
      var s := Play(INIT, env, steps);
      forall i :: 0 <= i < |s.readChan| ==> SealedAsAgreed(env, h, s.readChan[i])
  }

  lemma AgreedIsSealed(env: Env, h: Handshaken, algo: Algo, steps: seq<Step>, i: nat)
    requires EnvOk(env) && h.algo != NoEncryption && (algo == h.algo || algo == UnknownAlgo)
    requires Legal(INIT, env, steps) && Greets(steps, x => x == h) && Announces(Play(INIT, env, steps), h, algo)
    requires i < |Play(INIT, env, steps).readChan|
    ensures SealedAsAgreed(env, h, Play(INIT, env, steps).readChan[i])
  {
    var j := PacketsComeFromHandshakes(env, steps, i);
    TcpStaysAllowed(INIT, env, steps, x => x == h);
    SealedIfAnnounced(env, h, Play(INIT, env, steps).readChan[i]);
  }

  // Packets under an encrypted handshake are sealed as it agreed exactly if the announcement repeats its algorithm (or
  // names one for which there is no codec, and nothing is delivered); any other choice, such as none, gets through.
  lemma AlwaysSealedIff(env: Env, h: Handshaken, algo: Algo)
    requires EnvOk(env) && Stores(env, h) && h.algo != NoEncryption
    ensures AlwaysSealed(env, h, algo) <==> algo == h.algo || algo == UnknownAlgo
  {
    if algo == h.algo || algo == UnknownAlgo {
      forall steps | Legal(INIT, env, steps) && Greets(steps, x => x == h) && Announces(Play(INIT, env, steps), h, algo)
        ensures var s := Play(INIT, env, steps);
                forall i :: 0 <= i < |s.readChan| ==> SealedAsAgreed(env, h, s.readChan[i])
      {
        forall i | 0 <= i < |Play(INIT, env, steps).readChan|
          ensures SealedAsAgreed(env, h, Play(INIT, env, steps).readChan[i])
        {
          AgreedIsSealed(env, h, algo, steps, i);
        }
      }
    } else {
      ClientIsServed(env, h, algo, "", [1]);
      var steps := ServedRun(env, h, algo, "", [1]);
      var s := Play(INIT, env, steps);
      SealedIfAnnounced(env, h, s.readChan[0]);
      assert Announces(s, h, algo);
      assert Greets(steps, x => x == h);
    }
  }

  /* ----- Tokens: an announcement gets through at most once per handshake ----- */

  function Passes(passes: seq<Bytes>, name: Bytes): nat {
    if passes == [] then 0 else Passes(passes[..|passes| - 1], name) + if passes[|passes| - 1] == name then 1 else 0
  }

  function Signals(tcp: seq<TcpPc>, name: Bytes): nat {
    if tcp == [] then 0
    else
      var t := tcp[|tcp| - 1];
      Signals(tcp[..|tcp| - 1], name) + if t.Signalled? && HandshakeName(t.h) == name then 1 else 0
  }

  lemma {:induction false} SignalCounts(tcp: seq<TcpPc>, i: nat, name: Bytes)
    requires i < |tcp| && tcp[i].Stored?
    ensures Signals(tcp[i := Signalled(tcp[i].h)], name)
         == Signals(tcp, name) + if HandshakeName(tcp[i].h) == name then 1 else 0
  {
    var tcp' := tcp[i := Signalled(tcp[i].h)];
    var n := |tcp| - 1;
    if i < n {
      SignalCounts(tcp[..n], i, name);
      assert tcp'[..n] == tcp[..n][i := Signalled(tcp[i].h)];
    } else {
      assert tcp'[..n] == tcp[..n];
    }
  }

  predicate TokensOk(s: State, name: Bytes) {
    Tokens(s, name) <= 1 && Passes(s.passes, name) + Tokens(s, name) <= Signals(s.tcp, name)
  }

  predicate Announcing(s: State, step: Step, name: Bytes) {
    step.Signal? && step.i < |s.tcp| && HandshakeName(s.tcp[step.i].h) == name
  }

  predicate Taking(s: State, step: Step, name: Bytes) {
    step.TakeToken? && s.reader.Waiting? && NameOf(s.reader.metadata) == name
  }

  lemma SignalsStep(s: State, env: Env, step: Step, name: Bytes)
    requires Enabled(s, env, step)
    ensures Signals(Apply(s, env, step).tcp, name) == Signals(s.tcp, name) + if Announcing(s, step, name) then 1 else 0
  {
    match step
    case StoreKey(h) => assert (s.tcp + [Stored(h)])[..|s.tcp|] == s.tcp;
    case Signal(i) => SignalCounts(s.tcp, i, name);
    case Receive(from, wire) => HandleFacts(s, env, from, wire);
    case _ =>
  }

  lemma PassesStep(s: State, env: Env, step: Step, name: Bytes)
    requires Enabled(s, env, step)
    ensures Passes(Apply(s, env, step).passes, name) == Passes(s.passes, name) + if Taking(s, step, name) then 1 else 0
  {
    match step
    case TakeToken => assert (s.passes + [NameOf(s.reader.metadata)])[..|s.passes|] == s.passes;
    case Receive(from, wire) => HandleFacts(s, env, from, wire);
    case _ =>
  }

  // A token put on top of another is dropped.
  lemma TokensStep(s: State, env: Env, step: Step, name: Bytes)
    requires Enabled(s, env, step)
    ensures Taking(s, step, name) ==> Tokens(s, name) > 0
    ensures Tokens(Apply(s, env, step), name)
         == if Announcing(s, step, name) then 1 else Tokens(s, name) - if Taking(s, step, name) then 1 else 0
  {
    if step.Receive? {
      HandleFacts(s, env, step.from, step.wire);
    }
  }

  lemma StepKeepsTokens(s: State, env: Env, step: Step, name: Bytes)
    requires Enabled(s, env, step) && TokensOk(s, name)
    ensures TokensOk(Apply(s, env, step), name)
  {
    SignalsStep(s, env, step, name);
    PassesStep(s, env, step, name);
    TokensStep(s, env, step, name);
  }

  lemma {:induction false} PlayKeepsTokens(s: State, env: Env, steps: seq<Step>, name: Bytes)
    requires Legal(s, env, steps) && TokensOk(s, name)
    ensures TokensOk(Play(s, env, steps), name)
    decreases |steps|
  {
    if steps != [] {
      StepKeepsTokens(s, env, steps[0], name);
      PlayKeepsTokens(Apply(s, env, steps[0]), env, steps[1..], name);
    }
  }

  // No name passes the ready channel more often than handshakes of that name announced it.
  lemma PassesNeedHandshakes(env: Env, steps: seq<Step>, name: Bytes)
    requires Legal(INIT, env, steps)
    ensures var s := Play(INIT, env, steps);
            var waiting := s.reader.Waiting? && NameOf(s.reader.metadata) == name;
            && Passes(s.passes, name) <= Signals(s.tcp, name)
            && (waiting && Passes(s.passes, name) == Signals(s.tcp, name) ==> !Enabled(s, env, TakeToken))
  {
    PlayKeepsTokens(INIT, env, steps, name);
  }

  // A name that is announced at most once, as fresh nonces make it, has its announcement in the channel or taken.
  predicate OnceExact(s: State, name: Bytes) {
    Signals(s.tcp, name) <= 1 ==> Passes(s.passes, name) + Tokens(s, name) == Signals(s.tcp, name)
  }

  lemma StepKeepsOnce(s: State, env: Env, step: Step, name: Bytes)
    requires Enabled(s, env, step) && OnceExact(s, name)
    ensures OnceExact(Apply(s, env, step), name)
  {
    SignalsStep(s, env, step, name);
    PassesStep(s, env, step, name);
    TokensStep(s, env, step, name);
  }

  lemma {:induction false} OneSignalOnePass(s: State, env: Env, steps: seq<Step>, name: Bytes)
    requires Legal(s, env, steps) && OnceExact(s, name)
    ensures OnceExact(Play(s, env, steps), name)
    decreases |steps|
  {
    if steps != [] {
      StepKeepsOnce(s, env, steps[0], name);
      OneSignalOnePass(Apply(s, env, steps[0]), env, steps[1..], name);
    }
  }

  // No step of the run announces this name.
  predicate NoSignalOf(s: State, env: Env, steps: seq<Step>, name: Bytes)
    requires Legal(s, env, steps)
    decreases |steps|
  {
    || steps == []
    || (&& !Announcing(s, steps[0], name)
        && NoSignalOf(Apply(s, env, steps[0]), env, steps[1..], name))
  }

  // Among such runs are all those without a handshake getting through.
  lemma {:induction false} NoSignalAtAll(s: State, env: Env, steps: seq<Step>, name: Bytes)
    requires Legal(s, env, steps) && forall i :: 0 <= i < |steps| ==> !steps[i].Signal?
    ensures NoSignalOf(s, env, steps, name)
    decreases |steps|
  {
    if steps != [] {
      assert !steps[0].Signal? && forall i :: 0 <= i < |steps[1..]| ==> steps[1..][i] == steps[i + 1];
      NoSignalAtAll(Apply(s, env, steps[0]), env, steps[1..], name);
    }
  }

  // While the channel of its name is empty, a waiting reader waits, and no packet is read, until the name is announced.
  lemma {:induction false} WaitingReaderStays(s: State, env: Env, steps: seq<Step>)
    requires Legal(s, env, steps) && s.reader.Waiting? && Tokens(s, NameOf(s.reader.metadata)) == 0
    requires NoSignalOf(s, env, steps, NameOf(s.reader.metadata))
    ensures var s' := Play(s, env, steps);
            s'.reader == s.reader && s'.readChan == s.readChan && s'.decoders == s.decoders
    decreases |steps|
  {
    if steps != [] {
      WaitingReaderStays(Apply(s, env, steps[0]), env, steps[1..]);
    }
  }

  // For a name handshaken at most once, a waiting reader can go on exactly if it has not passed that handshake yet.
  lemma CanPassIff(env: Env, steps: seq<Step>)
    requires Legal(INIT, env, steps) && Play(INIT, env, steps).reader.Waiting?
    requires var s := Play(INIT, env, steps); Signals(s.tcp, NameOf(s.reader.metadata)) <= 1
    ensures var s := Play(INIT, env, steps);
            var name := NameOf(s.reader.metadata);
            Enabled(s, env, TakeToken) <==> Passes(s.passes, name) < Signals(s.tcp, name)
  {
    OneSignalOnePass(INIT, env, steps, NameOf(Play(INIT, env, steps).reader.metadata));
  }

  // A second announcement of a key that was handshaken once stops the UDP reader until that name is handshaken again.
  lemma SecondAnnouncementBlocks(env: Env, steps: seq<Step>, more: seq<Step>)
    requires Legal(INIT, env, steps) && Legal(Play(INIT, env, steps), env, more)
    requires var s := Play(INIT, env, steps);
             && s.reader.Waiting?
             && var name := NameOf(s.reader.metadata);
                Signals(s.tcp, name) <= 1 && Passes(s.passes, name) == 1 && NoSignalOf(s, env, more, name)
    ensures var s := Play(INIT, env, steps);
            var s' := Play(s, env, more);
            s'.reader == s.reader && s'.readChan == s.readChan
  {
    OneSignalOnePass(INIT, env, steps, NameOf(Play(INIT, env, steps).reader.metadata));
    WaitingReaderStays(Play(INIT, env, steps), env, more);
  }

  // One announcement of a key that nobody has handshaken stops the UDP reader at once, for all clients, until somebody
  // handshakes that name.
  lemma StrangerStopsReader(env: Env, from: Addr, m: Metadata, more: seq<Step>)
    requires EnvOk(env) && m.publicKey != [] && !m.isPing
    ensures var steps := [AnnouncementFrom(env, from, m)];
            && Legal(INIT, env, steps)
            && var s := Play(INIT, env, steps);
               && s == INIT.(reader := Waiting(from, m), announced := {(from, m)})
               && (Legal(s, env, more) && NoSignalOf(s, env, more, NameOf(m)) ==>
                     var s' := Play(s, env, more); s'.reader == s.reader && s'.readChan == [])
  {
    AnnouncementArrives(INIT, env, from, m);
    var s := Apply(INIT, env, AnnouncementFrom(env, from, m));
    LegalCons(INIT, env, AnnouncementFrom(env, from, m), []);
    if Legal(s, env, more) && NoSignalOf(s, env, more, NameOf(m)) {
      WaitingReaderStays(s, env, more);
    }
  }

  // A served client that announces its key once more, from another address.
  function AnnouncedTwice(env: Env, h: Handshaken, algo: Algo, from: Addr, again: Addr): seq<Step> {
    InstallRun(env, h, algo, from) + [AnnouncementFrom(env, again, Announcement(h, algo))]
  }

  // That run reaches the state of SecondAnnouncementBlocks.
  lemma AnnouncedTwiceWaits(env: Env, h: Handshaken, algo: Algo, from: Addr, again: Addr)
    requires EnvOk(env) && Stores(env, h) && algo != UnknownAlgo && again != from
    ensures var steps := AnnouncedTwice(env, h, algo, from, again);
            && Legal(INIT, env, steps)
            && var s := Play(INIT, env, steps);
               && s.reader == Waiting(again, Announcement(h, algo))
               && Signals(s.tcp, HandshakeName(h)) == 1 == Passes(s.passes, HandshakeName(h))
  {
    var step := AnnouncementFrom(env, again, Announcement(h, algo));
    var s := Served(env, h, algo, from);
    ClientIsInstalled(env, h, algo, from);
    AnnouncementArrives(s, env, again, Announcement(h, algo));
    LegalCons(s, env, step, []);
    PlayAppend(INIT, env, InstallRun(env, h, algo, from), [step]);
    OneOfEach(s, HandshakeName(h));
  }

  lemma OneOfEach(s: State, name: Bytes)
    requires |s.tcp| == 1 && s.tcp[0].Signalled? && HandshakeName(s.tcp[0].h) == name && s.passes == [name]
    ensures Signals(s.tcp, name) == 1 == Passes(s.passes, name)
  {
    assert s.tcp[..0] == [] && s.passes[..0] == [];
    assert Signals(s.tcp[..0], name) == 0 && Passes(s.passes[..0], name) == 0;
  }
}
