/**
  One direction of a tunnelled connection: a pump copies from a local connection into the stream between
  entry and exit, a second pump copies from the stream to the other local connection, and each counts what it wrote.
*/
module Tunnel {
  import opened Wrappers
  import opened Machine

  const PIPE_BUFFER_SIZE: nat := 4096

  datatype ReadError = EOF | Broken

  // Where a pump stands in its read, write, count cycle.
  datatype Pc =
    | Reading
    | Holding(buf: seq<Byte>, readErr: Option<ReadError>)
    | Written(nr: nat, nw: nat, writeFailed: bool, pendingErr: Option<ReadError>)
    | Stopped(clean: bool)

  function Continue(err: Option<ReadError>): Pc {
    match err
    case None => Reading
    case Some(e) => Stopped(e == EOF)
  }

  function AfterRead(buf: seq<Byte>, err: Option<ReadError>): Pc {
    if buf == [] then Continue(err) else Holding(buf, err)
  }

  function AfterCount(nr: nat, nw: nat, writeFailed: bool, err: Option<ReadError>): Pc {
    if writeFailed || nr != nw then Stopped(false) else Continue(err)
  }

  /* ----- The copy loop by itself ----- */

  // One turn of the loop: what the read returns and what the write would do with it.
  datatype Exchange = Exchange(data: seq<Byte>, readErr: Option<ReadError>, nw: nat, writeFailed: bool)

  type Turn = t: Exchange | |t.data| <= PIPE_BUFFER_SIZE && t.nw <= |t.data| witness Exchange([], None, 0, false)

  function After(t: Turn): Pc {
    if t.data == [] then Continue(t.readErr) else AfterCount(|t.data|, t.nw, t.writeFailed, t.readErr)
  }

  // The bytes read in the turns from i on.
  function Offered(turns: seq<Turn>, i: nat): seq<Byte>
    requires i <= |turns|
    decreases |turns| - i
  {
    if i == |turns| then [] else turns[i].data + Offered(turns, i + 1)
  }

  // What reaches the destination in those turns, and how the loop stands afterwards.
  function Delivered(turns: seq<Turn>, i: nat): seq<Byte>
    requires i <= |turns|
    decreases |turns| - i
  {
    if i == |turns| then []
    else turns[i].data[..turns[i].nw] + if After(turns[i]).Reading? then Delivered(turns, i + 1) else []
  }

  function Outcome(turns: seq<Turn>, i: nat): Pc
    requires i <= |turns|
    decreases |turns| - i
  {
    if i == |turns| then Reading else if After(turns[i]).Reading? then Outcome(turns, i + 1) else After(turns[i])
  }

  class Sink {
    var received: seq<Byte>

    constructor ()
      ensures received == []
    {
      received := [];
    }
  }

  class Counter {
    var value: nat

    constructor ()
      ensures value == 0
    {
      value := 0;
    }
  }

  lemma Associate<T>(a: seq<T>, b: seq<T>, c: seq<T>)
    ensures a + (b + c) == (a + b) + c
    ensures (a + b) + [] == a + b
  {
  }

  // Turn i adds its written bytes; after a turn that ends the loop, nothing more is delivered.
  lemma TurnDelivers(turns: seq<Turn>, i: nat, out: seq<Byte>, received: seq<Byte>)
    requires i < |turns|
    ensures var chunk := turns[i].data[..turns[i].nw];
            && out + Delivered(turns, i)
               == (if After(turns[i]).Reading? then (out + chunk) + Delivered(turns, i + 1) else out + chunk)
            && (received + out) + chunk == received + (out + chunk)
            && (turns[i].data == [] ==> out + chunk == out)
  {
    var t := turns[i];
    Associate(out, t.data[..t.nw], if After(t).Reading? then Delivered(turns, i + 1) else []);
    Associate(received, out, t.data[..t.nw]);
  }

  // One turn: write what was read, count what was written, and see how to go on.
  method TakeTurn(dest: Sink, t: Turn, written: Counter?) returns (next: Pc)
    modifies dest, written
    ensures next == After(t)
    ensures dest.received == old(dest.received) + t.data[..t.nw]
    ensures written != null ==> written.value == old(written.value) + t.nw
  {
    if |t.data| > 0 {
      dest.received := dest.received + t.data[..t.nw];
      if t.nw > 0 && written != null {
        written.value := written.value + t.nw;
      }
      if t.writeFailed || |t.data| != t.nw {
        return Stopped(false);
      }
    }
    if t.readErr.Some? {
      return Stopped(t.readErr.value == EOF);
    }
    return Reading;
  }

  method CopyBuffer(dest: Sink, turns: seq<Turn>, written: Counter?) returns (outcome: Pc)
    modifies dest, written
    ensures outcome == Outcome(turns, 0)
    ensures dest.received == old(dest.received) + Delivered(turns, 0)
    ensures written != null ==> written.value == old(written.value) + |Delivered(turns, 0)|
  {
    var i := 0;
    ghost var out: seq<Byte> := [];
    while i < |turns|
      invariant 0 <= i <= |turns|
      invariant Outcome(turns, 0) == Outcome(turns, i)
      invariant Delivered(turns, 0) == out + Delivered(turns, i)
      invariant dest.received == old(dest.received) + out
      invariant written != null ==> written.value == old(written.value) + |out|
    {
      TurnDelivers(turns, i, out, old(dest.received));
      outcome := TakeTurn(dest, turns[i], written);
      out := out + turns[i].data[..turns[i].nw];
      if !outcome.Reading? {
        assert Delivered(turns, 0) == out;
        return;
      }
      i := i + 1;
    }
    assert Delivered(turns, 0) == out + [];
    return Reading;
  }

  // The destination receives a prefix of what was read, all of it unless the copy failed.
  lemma {:induction false} DeliveredPrefix(turns: seq<Turn>, i: nat)
    requires i <= |turns|
    ensures Delivered(turns, i) <= Offered(turns, i)
    ensures Outcome(turns, i).Reading? ==> Delivered(turns, i) == Offered(turns, i)
    decreases |turns| - i
  {
    if i < |turns| {
      var t := turns[i];
      assert t.data == t.data[..t.nw] + t.data[t.nw..];
      if After(t).Reading? {
        assert t.data[..t.nw] == t.data;
        DeliveredPrefix(turns, i + 1);
      }
    }
  }

  /* What the loop does, by the reads and writes themselves. */

  predicate WriteFails(t: Turn) {
    t.data != [] && (t.writeFailed || t.nw < |t.data|)
  }

  // This turn is the last: its write fails or is short, or its read reports an error or the end.
  predicate Ends(t: Turn) {
    WriteFails(t) || t.readErr.Some?
  }

  predicate FirstEnd(turns: seq<Turn>, k: nat) {
    k < |turns| && Ends(turns[k]) && forall j :: 0 <= j < k ==> !Ends(turns[j])
  }

  // The bytes read in the first k turns.
  function ReadIn(turns: seq<Turn>, k: nat): seq<Byte>
    requires k <= |turns|
  {
    if k == 0 then [] else ReadIn(turns, k - 1) + turns[k - 1].data
  }

  lemma {:induction false} OutcomeFrom(turns: seq<Turn>, i: nat, k: nat)
    requires i <= k <= |turns| && forall j :: i <= j < k ==> !Ends(turns[j])
    ensures k == |turns| ==> Outcome(turns, i) == Reading
    ensures k < |turns| && Ends(turns[k]) ==>
      Outcome(turns, i) == Stopped(!WriteFails(turns[k]) && turns[k].readErr == Some(EOF))
    decreases k - i
  {
    if i < k {
      OutcomeFrom(turns, i + 1, k);
    }
  }

  lemma {:induction false} DeliveredFrom(turns: seq<Turn>, i: nat, k: nat)
    requires i <= k <= |turns| && forall j :: i <= j < k ==> !Ends(turns[j])
    ensures k == |turns| ==> ReadIn(turns, i) + Delivered(turns, i) == ReadIn(turns, k)
    ensures k < |turns| && Ends(turns[k]) ==>
      ReadIn(turns, i) + Delivered(turns, i) == ReadIn(turns, k) + turns[k].data[..turns[k].nw]
    decreases k - i
  {
    if i < k {
      DeliveredFrom(turns, i + 1, k);
      assert turns[i].data[..turns[i].nw] == turns[i].data;
      assert (ReadIn(turns, i) + turns[i].data) + Delivered(turns, i + 1)
          == ReadIn(turns, i) + (turns[i].data + Delivered(turns, i + 1));
    }
  }

  lemma FirstEndIsUnique(turns: seq<Turn>, k: nat, m: nat)
    requires FirstEnd(turns, k) && FirstEnd(turns, m)
    ensures k == m
  {
  }

  predicate EndsCleanly(turns: seq<Turn>, k: nat) {
    FirstEnd(turns, k) && !WriteFails(turns[k]) && turns[k].readErr == Some(EOF)
  }

  predicate EndsBadly(turns: seq<Turn>, k: nat) {
    FirstEnd(turns, k) && (WriteFails(turns[k]) || turns[k].readErr == Some(Broken))
  }

  lemma EndDecides(turns: seq<Turn>, k: nat)
    requires FirstEnd(turns, k)
    ensures Outcome(turns, 0) == Stopped(true) <==> EndsCleanly(turns, k)
    ensures Outcome(turns, 0) == Stopped(false) <==> EndsBadly(turns, k)
    ensures Outcome(turns, 0).Stopped?
  {
    OutcomeFrom(turns, 0, k);
    ReadErrors(turns[k].readErr);
  }

  lemma ReadErrors(err: Option<ReadError>)
    ensures err == None || err == Some(EOF) || err == Some(Broken)
  {
    if err.Some? {
      match err.value
      case EOF =>
      case Broken =>
    }
  }

  // The loop goes on exactly if no turn ends it. It ends cleanly exactly if the first turn that ends it was written
  // completely and had read the end, and in a failure exactly if that turn's write failed or was short, or its read broke.
  lemma CopyOutcome(turns: seq<Turn>)
    ensures Outcome(turns, 0) == Reading <==> forall k :: 0 <= k < |turns| ==> !Ends(turns[k])
    ensures Outcome(turns, 0) == Stopped(true) <==> exists k: nat :: EndsCleanly(turns, k)
    ensures Outcome(turns, 0) == Stopped(false) <==> exists k: nat :: EndsBadly(turns, k)
  {
    var n := SearchEnd(turns, 0);
    if n < |turns| {
      EndDecides(turns, n);
      forall k: nat | FirstEnd(turns, k)
        ensures k == n
      {
        FirstEndIsUnique(turns, k, n);
      }
    } else {
      OutcomeFrom(turns, 0, n);
    }
  }

  // Everything read is delivered up to the first turn that ends the loop, and of that turn what its write took.
  lemma CopyDelivers(turns: seq<Turn>, k: nat)
    requires k <= |turns| && (k < |turns| ==> FirstEnd(turns, k)) && (k == |turns| ==> forall j :: 0 <= j < k ==> !Ends(turns[j]))
    ensures Delivered(turns, 0) == if k < |turns| then ReadIn(turns, k) + turns[k].data[..turns[k].nw] else ReadIn(turns, k)
  {
    DeliveredFrom(turns, 0, k);
    assert ReadIn(turns, 0) + Delivered(turns, 0) == Delivered(turns, 0);
  }

  lemma {:induction false} SearchEnd(turns: seq<Turn>, i: nat) returns (k: nat)
    requires i <= |turns| && forall j :: 0 <= j < i ==> !Ends(turns[j])
    ensures k <= |turns| && (forall j :: 0 <= j < k ==> !Ends(turns[j])) && (k < |turns| ==> Ends(turns[k]))
    decreases |turns| - i
  {
    if i == |turns| || Ends(turns[i]) {
      k := i;
    } else {
      k := SearchEnd(turns, i + 1);
    }
  }

  /* ----- Two pumps and the stream between them ----- */

  datatype Pump = Pump(pc: Pc, count: nat)

  // `lostA` and `lostB` hold what a pump had read but failed to write before it stopped. `cut` says that the pump of the
  // other direction has closed the stream at its upstream end, which it shares with pump a.
  datatype Chain = Chain(source: seq<Byte>, taken: nat, a: Pump, lostA: seq<Byte>, stream: seq<Byte>, cut: bool,
                         b: Pump, lostB: seq<Byte>, sink: seq<Byte>)

  datatype Move =
    | ReadA(n: nat, err: Option<ReadError>)
    | WriteA(n: nat, failed: bool)
    | CountA
    | ReadB(n: nat, err: Option<ReadError>)
    | WriteB(n: nat, failed: bool)
    | CountB
    | Cut

  function Open(source: seq<Byte>): Chain {
    Chain(source, 0, Pump(Reading, 0), [], [], false, Pump(Reading, 0), [], [])
  }

  // A reader reaches the end only after everything before it; the stream ends when its writer has stopped, or when it has
  // been cut, after which nothing more can be written to it.
  predicate Enabled(c: Chain, m: Move) {
    match m
    case ReadA(n, err) =>
      && c.a.pc.Reading? && n <= PIPE_BUFFER_SIZE && c.taken + n <= |c.source|
      && (err == Some(EOF) ==> c.taken + n == |c.source|)
    case WriteA(n, failed) => c.a.pc.Holding? && n <= |c.a.pc.buf| && (c.cut ==> n == 0 && failed)
    case CountA => c.a.pc.Written?
    case ReadB(n, err) =>
      && c.b.pc.Reading? && n <= PIPE_BUFFER_SIZE && n <= |c.stream|
      && (err == Some(EOF) ==> n == |c.stream| && (c.a.pc.Stopped? || c.cut))
    case WriteB(n, _) => c.b.pc.Holding? && n <= |c.b.pc.buf|
    case CountB => c.b.pc.Written?
    case Cut => true
  }

  function Counted(p: Pump): Pump
    requires p.pc.Written?
  {
    Pump(AfterCount(p.pc.nr, p.pc.nw, p.pc.writeFailed, p.pc.pendingErr), p.count + p.pc.nw)
  }

  function Apply(c: Chain, m: Move): Chain
    requires Enabled(c, m)
  {
    match m
    case ReadA(n, err) =>
      c.(taken := c.taken + n, a := c.a.(pc := AfterRead(c.source[c.taken..c.taken + n], err)))
    case WriteA(n, failed) =>
      var buf := c.a.pc.buf;
      c.(stream := c.stream + buf[..n], lostA := buf[n..], a := c.a.(pc := Written(|buf|, n, failed, c.a.pc.readErr)))
    case CountA => c.(a := Counted(c.a))
    case ReadB(n, err) =>
      c.(stream := c.stream[n..], b := c.b.(pc := AfterRead(c.stream[..n], err)))
    case WriteB(n, failed) =>
      var buf := c.b.pc.buf;
      c.(sink := c.sink + buf[..n], lostB := buf[n..], b := c.b.(pc := Written(|buf|, n, failed, c.b.pc.readErr)))
    case CountB => c.(b := Counted(c.b))
    case Cut => c.(cut := true)
  }

  predicate Legal(c: Chain, moves: seq<Move>)
    decreases |moves|
  {
    moves == [] || (Enabled(c, moves[0]) && Legal(Apply(c, moves[0]), moves[1..]))
  }

  function Play(c: Chain, moves: seq<Move>): Chain
    requires Legal(c, moves)
    decreases |moves|
  {
    if moves == [] then c else Play(Apply(c, moves[0]), moves[1..])
  }

  function Held(p: Pump): seq<Byte> {
    if p.pc.Holding? then p.pc.buf else []
  }

  // Written to the next hop, but not yet added to the counter.
  function Uncounted(p: Pump): nat {
    if p.pc.Written? then p.pc.nw else 0
  }

  predicate Failed(p: Pump) {
    p.pc == Stopped(false) || (p.pc.Written? && AfterCount(p.pc.nr, p.pc.nw, p.pc.writeFailed, p.pc.pendingErr) == Stopped(false))
  }

  predicate EndsClean(p: Pump) {
    || p.pc == Stopped(true)
    || (p.pc.Holding? && p.pc.readErr == Some(EOF))
    || (p.pc.Written? && p.pc.pendingErr == Some(EOF))
  }

  // All bytes taken from the source so far, from the most to the least advanced.
  function Line(c: Chain): seq<Byte> {
    c.sink + c.lostB + Held(c.b) + c.stream + c.lostA + Held(c.a)
  }

  predicate Inv(c: Chain) {
    && c.taken <= |c.source|
    && Line(c) == c.source[..c.taken]
    && (c.lostA != [] ==> Failed(c.a))
    && (c.lostB != [] ==> Failed(c.b))
    && c.a.count + Uncounted(c.a) == |c.sink| + |c.lostB| + |Held(c.b)| + |c.stream|
    && c.b.count + Uncounted(c.b) == |c.sink|
    && (EndsClean(c.a) ==> c.taken == |c.source|)
    && (EndsClean(c.b) ==> c.stream == [] && (c.a.pc.Stopped? || c.cut))
  }

  /* How each move regroups the line; x stands for what is further along, y for what is further back. */

  lemma TakeMore<T>(source: seq<T>, taken: nat, n: nat)
    requires taken + n <= |source|
    ensures source[..taken + n] == source[..taken] + source[taken..taken + n]
  {
  }

  lemma SplitBuffer<T>(x: seq<T>, buf: seq<T>, n: nat, y: seq<T>)
    requires n <= |buf|
    ensures x + buf + y == (x + buf[..n]) + buf[n..] + y
  {
    assert buf == buf[..n] + buf[n..];
  }

  lemma Regroup<T>(x: seq<T>, y: seq<T>, z: seq<T>)
    ensures x + y + z == x + (y + z)
    ensures x + [] == x
  {
  }

  lemma ReadAKeepsInv(c: Chain, n: nat, err: Option<ReadError>)
    requires Inv(c) && Enabled(c, ReadA(n, err))
    ensures Inv(Apply(c, ReadA(n, err)))
  {
    var c' := Apply(c, ReadA(n, err));
    TakeMore(c.source, c.taken, n);
    var before := c.sink + c.lostB + Held(c.b) + c.stream + c.lostA;
    Regroup(before, [], []);
    assert Held(c'.a) == c.source[c.taken..c.taken + n];
    assert Line(c') == before + Held(c'.a);
  }

  lemma WriteAKeepsInv(c: Chain, n: nat, failed: bool)
    requires Inv(c) && Enabled(c, WriteA(n, failed))
    ensures Inv(Apply(c, WriteA(n, failed)))
  {
    var buf := c.a.pc.buf;
    var c' := Apply(c, WriteA(n, failed));
    var x := c.sink + c.lostB + Held(c.b);
    assert Line(c) == x + c.stream + buf by {
      Regroup(x + c.stream, [], []);
    }
    SplitBuffer(x + c.stream, buf, n, []);
    Regroup(x + c.stream + buf, [], []);
    Regroup(x + c.stream + buf[..n] + buf[n..], [], []);
    Regroup(x, c.stream, buf[..n]);
    assert Line(c') == x + (c.stream + buf[..n]) + buf[n..] + [];
  }

  lemma ReadBKeepsInv(c: Chain, n: nat, err: Option<ReadError>)
    requires Inv(c) && Enabled(c, ReadB(n, err))
    ensures Inv(Apply(c, ReadB(n, err)))
  {
    var c' := Apply(c, ReadB(n, err));
    assert c.lostB == [] && Held(c.b) == [];
    var y := c.lostA + Held(c.a);
    SplitBuffer(c.sink, c.stream, n, y);
    Regroup(c.sink, [], []);
    Regroup(c.sink + c.stream, c.lostA, Held(c.a));
    Regroup(c.sink + c.stream[..n] + c.stream[n..], c.lostA, Held(c.a));
    assert Held(c'.b) == c.stream[..n];
    assert Line(c) == c.sink + c.stream + c.lostA + Held(c.a);
    assert Line(c') == c.sink + [] + c.stream[..n] + c.stream[n..] + c.lostA + Held(c.a);
  }

  lemma WriteBKeepsInv(c: Chain, n: nat, failed: bool)
    requires Inv(c) && Enabled(c, WriteB(n, failed))
    ensures Inv(Apply(c, WriteB(n, failed)))
  {
    var buf := c.b.pc.buf;
    var c' := Apply(c, WriteB(n, failed));
    assert c.lostB == [];
    var y := c.stream + c.lostA + Held(c.a);
    SplitBuffer(c.sink, buf, n, y);
    Regroup(c.sink, [], []);
    Regroup(c.sink + buf[..n] + buf[n..], [], []);
    Unfold4(c.sink + buf, c.stream, c.lostA, Held(c.a));
    Unfold4(c.sink + buf[..n] + buf[n..], c.stream, c.lostA, Held(c.a));
    assert Line(c) == c.sink + [] + buf + c.stream + c.lostA + Held(c.a);
    assert Line(c') == c.sink + buf[..n] + buf[n..] + [] + c.stream + c.lostA + Held(c.a);
  }

  lemma Unfold4<T>(x: seq<T>, a: seq<T>, b: seq<T>, c: seq<T>)
    ensures x + (a + b + c) == x + a + b + c
  {
  }

  lemma CountKeepsInv(c: Chain, m: Move)
    requires Inv(c) && Enabled(c, m) && (m.CountA? || m.CountB?)
    ensures Inv(Apply(c, m))
  {
    assert Line(Apply(c, m)) == Line(c);
  }

  lemma CutKeepsInv(c: Chain)
    requires Inv(c)
    ensures Inv(Apply(c, Cut))
  {
    assert Line(Apply(c, Cut)) == Line(c);
  }

  lemma MoveKeepsInv(c: Chain, m: Move)
    requires Inv(c) && Enabled(c, m)
    ensures Inv(Apply(c, m))
  {
    match m
    case ReadA(n, err) => ReadAKeepsInv(c, n, err);
    case WriteA(n, failed) => WriteAKeepsInv(c, n, failed);
    case CountA => CountKeepsInv(c, m);
    case ReadB(n, err) => ReadBKeepsInv(c, n, err);
    case WriteB(n, failed) => WriteBKeepsInv(c, n, failed);
    case CountB => CountKeepsInv(c, m);
    case Cut => CutKeepsInv(c);
  }

  lemma {:induction false} PlayKeepsInv(c: Chain, moves: seq<Move>)
    requires Inv(c) && Legal(c, moves)
    ensures Inv(Play(c, moves)) && Play(c, moves).source == c.source
    decreases |moves|
  {
    if moves != [] {
      MoveKeepsInv(c, moves[0]);
      PlayKeepsInv(Apply(c, moves[0]), moves[1..]);
    }
  }

  // In every run the delivered bytes are a prefix of the source, and the counters obey the conservation law.
  lemma ChainAccounting(source: seq<Byte>, moves: seq<Move>)
    requires Legal(Open(source), moves)
    ensures var c := Play(Open(source), moves);
            && c.sink <= source
            && c.b.count + Uncounted(c.b) == |c.sink|
            && (c.a.count + Uncounted(c.a)) - (c.b.count + Uncounted(c.b)) == |c.stream| + |Held(c.b)| + |c.lostB|
            && (!Failed(c.b) ==> c.lostB == [])
  {
    PlayKeepsInv(Open(source), moves);
    var c := Play(Open(source), moves);
    assert c.sink <= c.source[..c.taken];
  }

  // The downstream counter is at most the upstream one exactly when the upstream's uncounted write is matched downstream.
  lemma DownstreamBehind(source: seq<Byte>, moves: seq<Move>)
    requires Legal(Open(source), moves)
    ensures var c := Play(Open(source), moves);
            && (c.b.count <= c.a.count <==> Uncounted(c.a) <= |c.stream| + |Held(c.b)| + |c.lostB| + Uncounted(c.b))
            && (!c.a.pc.Written? ==> c.b.count <= c.a.count)
  {
    ChainAccounting(source, moves);
  }

  // Between its write and its counter update, the upstream pump can be overtaken by the downstream counter.
  lemma DownstreamCanOvertake()
    ensures var moves := [ReadA(1, None), WriteA(1, false), ReadB(1, None), WriteB(1, false), CountB];
            && Legal(Open([7]), moves)
            && Play(Open([7]), moves).b.count > Play(Open([7]), moves).a.count
  {
    var c0 := Open([7]);
    var c1 := Apply(c0, ReadA(1, None));
    var c2 := Apply(c1, WriteA(1, false));
    var c3 := Apply(c2, ReadB(1, None));
    var c4 := Apply(c3, WriteB(1, false));
    var c5 := Apply(c4, CountB);
    LegalStep(c4, CountB, []);
    LegalStep(c3, WriteB(1, false), [CountB]);
    LegalStep(c2, ReadB(1, None), [WriteB(1, false), CountB]);
    LegalStep(c1, WriteA(1, false), [ReadB(1, None), WriteB(1, false), CountB]);
    LegalStep(c0, ReadA(1, None), [WriteA(1, false), ReadB(1, None), WriteB(1, false), CountB]);
  }

  // A whole turn of a pump: on after a complete write without an error, a clean end after one that saw the end, else a
  // failure; and the same for a read that brought nothing.
  lemma UpstreamTurn(c: Chain, n: nat, err: Option<ReadError>, w: nat, failed: bool)
    requires Enabled(c, ReadA(n, err)) && 0 < n
    requires Enabled(Apply(c, ReadA(n, err)), WriteA(w, failed))
    ensures var c' := Apply(Apply(Apply(c, ReadA(n, err)), WriteA(w, failed)), CountA);
            && c'.a.pc == (if failed || w < n then Stopped(false) else if err == None then Reading else Stopped(err == Some(EOF)))
            && c'.a.count == c.a.count + w && c'.stream == c.stream + c.source[c.taken..c.taken + w]
  {
    assert c.source[c.taken..c.taken + n][..w] == c.source[c.taken..c.taken + w];
  }

  lemma DownstreamTurn(c: Chain, n: nat, err: Option<ReadError>, w: nat, failed: bool)
    requires Enabled(c, ReadB(n, err)) && 0 < n
    requires Enabled(Apply(c, ReadB(n, err)), WriteB(w, failed))
    ensures var c' := Apply(Apply(Apply(c, ReadB(n, err)), WriteB(w, failed)), CountB);
            && c'.b.pc == (if failed || w < n then Stopped(false) else if err == None then Reading else Stopped(err == Some(EOF)))
            && c'.b.count == c.b.count + w && c'.sink == c.sink + c.stream[..w] && c'.stream == c.stream[n..]
  {
    assert c.stream[..n][..w] == c.stream[..w];
  }

  lemma EmptyReads(c: Chain, err: Option<ReadError>)
    ensures Enabled(c, ReadA(0, err)) ==>
      Apply(c, ReadA(0, err)).a.pc == if err == None then Reading else Stopped(err == Some(EOF))
    ensures Enabled(c, ReadB(0, err)) ==>
      Apply(c, ReadB(0, err)).b.pc == if err == None then Reading else Stopped(err == Some(EOF))
  {
  }

  lemma LegalStep(c: Chain, m: Move, rest: seq<Move>)
    requires Enabled(c, m) && Legal(Apply(c, m), rest)
    ensures Legal(c, [m] + rest) && Play(c, [m] + rest) == Play(Apply(c, m), rest)
  {
    assert ([m] + rest)[1..] == rest;
  }

  // When both pumps end without failure, everything arrived and both sides counted all of it.
  lemma CleanEndDeliversAll(source: seq<Byte>, moves: seq<Move>)
    requires Legal(Open(source), moves)
    requires Play(Open(source), moves).a.pc == Stopped(true) && Play(Open(source), moves).b.pc == Stopped(true)
    ensures var c := Play(Open(source), moves);
            c.sink == source && c.a.count == c.b.count == |source|
  {
    PlayKeepsInv(Open(source), moves);
    var c := Play(Open(source), moves);
    assert c.lostA == [] && c.lostB == [];
    assert c.source[..c.taken] == c.source;
  }

  // Counters only grow.
  lemma MoveCounts(c: Chain, m: Move)
    requires Enabled(c, m)
    ensures c.a.count <= Apply(c, m).a.count && c.b.count <= Apply(c, m).b.count
  {
  }
}
