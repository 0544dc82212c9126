/**
  The datagrams of one direction of a session: the sender adds a datagram's size to its counter after writing it, the
  receiver after handing it on, and the network may lose, duplicate or reorder datagrams in between.
*/
module Datagrams {
  import opened Wrappers
  import opened Tallies

  const MAX_SIZE: nat := 65527

  // Where a datagram, or a copy of one, is; one that its receiver discards is lost.
  datatype Datagram = Flying(size: nat) | Arrived(size: nat) | Lost(size: nat)

  // `writing` and `reading` are the sizes that either side has not counted yet; `copied` counts duplicated bytes.
  datatype Flow = Flow(grams: seq<Datagram>, writing: Option<nat>, sent: nat, reading: Option<nat>, received: nat, copied: nat)

  datatype Move = Write(n: nat) | CountSent | Arrive(i: nat) | CountReceived | Lose(i: nat) | Copy(i: nat)

  const IDLE := Flow([], None, 0, None, 0, 0)

  predicate InFlight(f: Flow, i: nat) {
    i < |f.grams| && f.grams[i].Flying?
  }

  predicate Enabled(f: Flow, m: Move) {
    match m
    case Write(n) => f.writing.None? && n <= MAX_SIZE
    case CountSent => f.writing.Some?
    case Arrive(i) => InFlight(f, i) && f.reading.None?
    case CountReceived => f.reading.Some?
    case Lose(i) => InFlight(f, i)
    case Copy(i) => InFlight(f, i)
  }

  function Apply(f: Flow, m: Move): Flow
    requires Enabled(f, m)
  {
    match m
    case Write(n) => f.(grams := f.grams + [Flying(n)], writing := Some(n))
    case CountSent => f.(sent := f.sent + f.writing.value, writing := None)
    case Arrive(i) => f.(grams := f.grams[i := Arrived(f.grams[i].size)], reading := Some(f.grams[i].size))
    case CountReceived => f.(received := f.received + f.reading.value, reading := None)
    case Lose(i) => f.(grams := f.grams[i := Lost(f.grams[i].size)])
    case Copy(i) => f.(grams := f.grams + [f.grams[i]], copied := f.copied + f.grams[i].size)
  }

  function Size(g: Datagram): nat {
    g.size
  }

  function SizeFlying(g: Datagram): nat {
    if g.Flying? then g.size else 0
  }

  function SizeArrived(g: Datagram): nat {
    if g.Arrived? then g.size else 0
  }

  function SizeLost(g: Datagram): nat {
    if g.Lost? then g.size else 0
  }

  function Uncounted(size: Option<nat>): nat {
    match size
    case None => 0
    case Some(n) => n
  }

  // Bytes between the two counters that may still arrive, and bytes that never will.
  function Transit(f: Flow): nat {
    Tally(f.grams, SizeFlying) + Uncounted(f.reading)
  }

  function LostBytes(f: Flow): nat {
    Tally(f.grams, SizeLost)
  }

  predicate Inv(f: Flow) {
    && Tally(f.grams, Size) == f.sent + Uncounted(f.writing) + f.copied
    && Tally(f.grams, SizeArrived) == f.received + Uncounted(f.reading)
  }

  // Nothing has been counted, and nothing waits to be.
  predicate Unused(f: Flow) {
    f.writing.None? && f.sent == 0 && f.reading.None? && f.received == 0
  }

  predicate Untouched(f: Flow) {
    Unused(f) && f.grams == [] && f.copied == 0
  }

  lemma UntouchedInv(f: Flow)
    requires Untouched(f)
    ensures Inv(f)
  {
  }

  lemma GramsStep(f: Flow, m: Move, weight: Datagram -> nat)
    requires Enabled(f, m)
    ensures var f' := Apply(f, m);
            match m
            case Write(n) => Tally(f'.grams, weight) == Tally(f.grams, weight) + weight(Flying(n))
            case Copy(i) => Tally(f'.grams, weight) == Tally(f.grams, weight) + weight(f.grams[i])
            case Arrive(i) =>
              Tally(f'.grams, weight) + weight(f.grams[i]) == Tally(f.grams, weight) + weight(Arrived(f.grams[i].size))
            case Lose(i) =>
              Tally(f'.grams, weight) + weight(f.grams[i]) == Tally(f.grams, weight) + weight(Lost(f.grams[i].size))
            case _ => f'.grams == f.grams
  {
    match m
    case Write(n) => TallyAppend(f.grams, Flying(n), weight);
    case Copy(i) => TallyAppend(f.grams, f.grams[i], weight);
    case Arrive(i) => TallyUpdate(f.grams, i, Arrived(f.grams[i].size), weight);
    case Lose(i) => TallyUpdate(f.grams, i, Lost(f.grams[i].size), weight);
    case _ =>
  }

  lemma MoveKeepsInv(f: Flow, m: Move)
    requires Inv(f) && Enabled(f, m)
    ensures Inv(Apply(f, m))
  {
    GramsStep(f, m, Size);
    GramsStep(f, m, SizeArrived);
  }

  // Counters and losses only grow.
  lemma MoveCounts(f: Flow, m: Move)
    requires Enabled(f, m)
    ensures f.sent <= Apply(f, m).sent && f.received <= Apply(f, m).received
    ensures LostBytes(f) <= LostBytes(Apply(f, m))
  {
    GramsStep(f, m, SizeLost);
  }

  lemma {:induction false} SizesSplit(grams: seq<Datagram>)
    ensures Tally(grams, Size) == Tally(grams, SizeFlying) + Tally(grams, SizeArrived) + Tally(grams, SizeLost)
  {
    if grams != [] {
      SizesSplit(grams[..|grams| - 1]);
    }
  }

  // What was sent or duplicated has been received, is under way, or is lost.
  lemma Balance(f: Flow)
    requires Inv(f)
    ensures f.sent + Uncounted(f.writing) + f.copied == f.received + Transit(f) + LostBytes(f)
  {
    SizesSplit(f.grams);
  }
}
