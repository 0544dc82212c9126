/**
  The connection handshake: both ends send one metadata message and read the other's, then derive the key that
  encrypts the connection. Cryptography is symbolic: a shared key is known by the two public keys it belongs to.
*/
module Handshake {
  import opened Wrappers
  import opened Machine

  const PUBLIC_KEY_SIZE: nat := 32

  type Bytes = seq<Byte>

  datatype Algo = NoEncryption | XSalsa20Poly1305 | AesGcm | UnknownAlgo

  // The Diffie-Hellman result is the same whichever of the two owners computes it.
  datatype SharedKey = SharedKey(owners: set<Bytes>)

  // An unencrypted connection keeps the all-zero key; otherwise nonce and shared key are hashed together.
  datatype EncryptKey = ZeroKey | Derived(nonce: Bytes, shared: SharedKey)

  datatype Metadata = Metadata(algo: Algo, publicKey: Bytes, nonce: Bytes, isPing: bool)

  datatype Error = PublicKeyMismatch | BadPublicKeySize | InvalidPublicKey | UnsupportedAlgo

  // What a completed handshake leaves behind: the name and value of the stored key, and the algorithm in use.
  datatype Session = Session(name: Bytes, key: EncryptKey, algo: Algo, nonce: Bytes)

  function KeyName(publicKey: Bytes, nonce: Bytes): Bytes {
    publicKey + nonce
  }

  function KeyFor(algo: Algo, nonce: Bytes, own: Bytes, remote: Bytes): EncryptKey {
    if algo == NoEncryption then ZeroKey else Derived(nonce, SharedKey({own, remote}))
  }

  // The first message. Only the end that knows its peer's key proposes an algorithm; only the other chooses the nonce.
  function Greeting(own: Bytes, algo: Algo, expected: Bytes, freshNonce: Bytes): Metadata {
    if |expected| > 0 then Metadata(algo, own, [], false) else Metadata(NoEncryption, own, freshNonce, false)
  }

  // What the end makes of the message it receives; `isPoint` says which public keys lie on the curve.
  function Conclude(own: Bytes, algo: Algo, expected: Bytes, freshNonce: Bytes, received: Metadata,
                    isPoint: Bytes -> bool): Result<Session, Error> {
    if |expected| > 0 && received.publicKey != expected then Err(PublicKeyMismatch)
    else if |expected| == 0 && |received.publicKey| != PUBLIC_KEY_SIZE then Err(BadPublicKeySize)
    else
      var remote := received.publicKey;
      var nonce := if |expected| > 0 then received.nonce else freshNonce;
      var agreed := if |expected| > 0 then algo else received.algo;
      if agreed != NoEncryption && !isPoint(remote) then Err(InvalidPublicKey)
      else if agreed == UnknownAlgo then Err(UnsupportedAlgo)
      else Ok(Session(KeyName(remote, nonce), KeyFor(agreed, nonce, own, remote), agreed, nonce))
  }

  /** One end's key store. The key is stored before the algorithm is found unsupported, as the cipher is built last. */
  class Endpoint {
    const publicKey: Bytes
    const algo: Algo
    const isServer: bool
    var sharedKeys: map<Bytes, SharedKey>
    var encryptKeys: map<Bytes, EncryptKey>
    var tokens: map<Bytes, bool> // the one-slot channels on which a server announces stored keys

    ghost predicate Valid()
      reads this
    {
      forall pk :: pk in sharedKeys ==> sharedKeys[pk] == SharedKey({publicKey, pk})
    }

    constructor (publicKey: Bytes, algo: Algo, isServer: bool)
      ensures Valid() && encryptKeys == map[] && tokens == map[]
      ensures this.publicKey == publicKey && this.algo == algo && this.isServer == isServer
    {
      this.publicKey, this.algo, this.isServer := publicKey, algo, isServer;
      sharedKeys, encryptKeys, tokens := map[], map[], map[];
    }

    method GetOrComputeSharedKey(remote: Bytes, isPoint: Bytes -> bool) returns (r: Result<SharedKey, Error>)
      requires Valid() && (remote in sharedKeys ==> isPoint(remote))
      modifies this`sharedKeys
      ensures Valid()
      ensures r == if isPoint(remote) then Ok(SharedKey({publicKey, remote})) else Err(InvalidPublicKey)
      ensures sharedKeys.Keys == old(sharedKeys).Keys + if isPoint(remote) then {remote} else {}
    {
      if remote in sharedKeys {
        return Ok(sharedKeys[remote]);
      }
      if !isPoint(remote) {
        return Err(InvalidPublicKey);
      }
      var shared := SharedKey({publicKey, remote});
      sharedKeys := sharedKeys[remote := shared];
      return Ok(shared);
    }

    // The part after both messages have crossed. A server always leaves a token for the key's name.
    method WrapConn(expected: Bytes, freshNonce: Bytes, received: Metadata, isPoint: Bytes -> bool)
      returns (r: Result<Session, Error>)
      requires Valid() && forall pk :: pk in sharedKeys ==> isPoint(pk)
      modifies this
      ensures Valid() && forall pk :: pk in sharedKeys ==> isPoint(pk)
      ensures r == Conclude(publicKey, algo, expected, freshNonce, received, isPoint)
      ensures r.Ok? ==> encryptKeys == old(encryptKeys)[r.value.name := r.value.key]
      ensures r.Ok? ==> tokens == if isServer then old(tokens)[r.value.name := true] else old(tokens)
      ensures r.Err? && r.error != UnsupportedAlgo ==> encryptKeys == old(encryptKeys) && tokens == old(tokens)
      ensures r == Err(UnsupportedAlgo) ==>
        var nonce := if |expected| > 0 then received.nonce else freshNonce;
        var name := KeyName(received.publicKey, nonce);
        && encryptKeys == old(encryptKeys)[name := KeyFor(UnknownAlgo, nonce, publicKey, received.publicKey)]
        && tokens == if isServer then old(tokens)[name := true] else old(tokens)
    {
      var remote := received.publicKey;
      var nonce, agreed;
      if |expected| > 0 {
        if remote != expected {
          return Err(PublicKeyMismatch);
        }
        nonce, agreed := received.nonce, algo;
      } else {
        if |remote| != PUBLIC_KEY_SIZE {
          return Err(BadPublicKeySize);
        }
        nonce, agreed := freshNonce, received.algo;
      }
      var name := KeyName(remote, nonce);
      var key := ZeroKey;
      if agreed != NoEncryption {
        var shared := GetOrComputeSharedKey(remote, isPoint);
        if shared.Err? {
          return Err(shared.error);
        }
        key := Derived(nonce, shared.value);
      }
      encryptKeys := encryptKeys[name := key];
      if isServer {
        tokens := tokens[name := true];
      }
      if agreed == UnknownAlgo {
        return Err(UnsupportedAlgo);
      }
      return Ok(Session(name, key, agreed, nonce));
    }
  }

  // Both ends of one connection over an untampered channel; the initiator expects `expected` as its peer's key.
  datatype Exchange = Exchange(initiator: Bytes, algo: Algo, expected: Bytes, responder: Bytes, responderAlgo: Algo, nonce: Bytes)

  function InitiatorSide(x: Exchange, isPoint: Bytes -> bool): Result<Session, Error> {
    Conclude(x.initiator, x.algo, x.expected, [], Greeting(x.responder, x.responderAlgo, [], x.nonce), isPoint)
  }

  function ResponderSide(x: Exchange, isPoint: Bytes -> bool): Result<Session, Error> {
    Conclude(x.responder, x.responderAlgo, [], x.nonce, Greeting(x.initiator, x.algo, x.expected, []), isPoint)
  }

  // The handshake completes on both sides exactly for the expected peer, well-formed keys and a supported algorithm.
  lemma CompletesIff(x: Exchange, isPoint: Bytes -> bool)
    requires |x.expected| > 0
    ensures InitiatorSide(x, isPoint).Ok? && ResponderSide(x, isPoint).Ok?
       <==> && x.expected == x.responder
            && |x.initiator| == PUBLIC_KEY_SIZE
            && x.algo != UnknownAlgo
            && (x.algo == NoEncryption || (isPoint(x.initiator) && isPoint(x.responder)))
  {
  }

  // Completed handshakes agree on nonce, algorithm and key, though each side files the key under the other's name.
  lemma SidesAgree(x: Exchange, isPoint: Bytes -> bool)
    requires |x.expected| > 0
    requires InitiatorSide(x, isPoint).Ok? && ResponderSide(x, isPoint).Ok?
    ensures var a, b := InitiatorSide(x, isPoint).value, ResponderSide(x, isPoint).value;
            && a.nonce == b.nonce == x.nonce && a.algo == b.algo == x.algo && a.key == b.key
            && a.name == KeyName(x.responder, x.nonce) && b.name == KeyName(x.initiator, x.nonce)
  {
    assert {x.initiator, x.responder} == {x.responder, x.initiator};
  }

  // The announcement an initiator later sends over UDP names the key exactly as the responder stored it.
  lemma AnnouncementNamesStoredKey(x: Exchange, isPoint: Bytes -> bool)
    requires |x.expected| > 0
    requires InitiatorSide(x, isPoint).Ok? && ResponderSide(x, isPoint).Ok?
    ensures var announced := Metadata(x.algo, x.initiator, InitiatorSide(x, isPoint).value.nonce, false);
            KeyName(announced.publicKey, announced.nonce) == ResponderSide(x, isPoint).value.name
  {
    SidesAgree(x, isPoint);
  }

  // Names identify key and nonce among public keys of one length, and only then.
  lemma NamesIdentify(a: Bytes, n: Bytes, b: Bytes, m: Bytes)
    requires KeyName(a, n) == KeyName(b, m)
    ensures a == b && n == m <==> |a| == |b|
  {
    if |a| == |b| {
      assert a == (a + n)[..|a|] && b == (b + m)[..|b|];
      assert n == (a + n)[|a|..] && m == (b + m)[|b|..];
    }
  }

  // Only an unencrypted session has the zero key.
  lemma ZeroKeyIff(x: Exchange, isPoint: Bytes -> bool)
    requires |x.expected| > 0
    ensures InitiatorSide(x, isPoint).Ok? ==> (InitiatorSide(x, isPoint).value.key == ZeroKey <==> x.algo == NoEncryption)
    ensures ResponderSide(x, isPoint).Ok? ==> (ResponderSide(x, isPoint).value.key == ZeroKey <==> x.algo == NoEncryption)
  {
  }

  // Two completed encrypted exchanges have the same key exactly if they have the same nonce and are between the same ends.
  lemma SameKeyIff(x: Exchange, y: Exchange, isPoint: Bytes -> bool)
    requires |x.expected| > 0 && |y.expected| > 0 && x.algo != NoEncryption && y.algo != NoEncryption
    requires InitiatorSide(x, isPoint).Ok? && InitiatorSide(y, isPoint).Ok?
    ensures InitiatorSide(x, isPoint).value.key == InitiatorSide(y, isPoint).value.key
       <==> && x.nonce == y.nonce
            && ((x.initiator == y.initiator && x.responder == y.responder)
                || (x.initiator == y.responder && x.responder == y.initiator))
  {
    if x.initiator == y.responder && x.responder == y.initiator {
      assert {x.initiator, x.responder} == {y.initiator, y.responder};
    }
    if {x.initiator, x.responder} == {y.initiator, y.responder} {
      assert x.initiator in {y.initiator, y.responder} && x.responder in {y.initiator, y.responder};
      assert y.initiator in {x.initiator, x.responder} && y.responder in {x.initiator, x.responder};
    }
  }

  // Which check refuses a peer: the expected key first, else the size of the key, then the curve, then the algorithm.
  lemma RefusedFor(own: Bytes, algo: Algo, expected: Bytes, nonce: Bytes, received: Metadata, isPoint: Bytes -> bool)
    ensures var r := Conclude(own, algo, expected, nonce, received, isPoint);
            var trusted := if |expected| > 0 then received.publicKey == expected else |received.publicKey| == 32;
            var agreed := if |expected| > 0 then algo else received.algo;
            && (r == Err(PublicKeyMismatch) <==> !trusted && |expected| > 0)
            && (r == Err(BadPublicKeySize) <==> !trusted && |expected| == 0)
            && (r == Err(InvalidPublicKey) <==> trusted && agreed != NoEncryption && !isPoint(received.publicKey))
            && (r == Err(UnsupportedAlgo) <==> trusted && agreed == UnknownAlgo && isPoint(received.publicKey))
            && (r.Ok? ==> r.value.nonce == (if |expected| > 0 then received.nonce else nonce)
                          && r.value.algo == agreed && r.value.name == received.publicKey + r.value.nonce)
  {
  }
}
