/**
  Adds to the favourites that overlap, as the workers that measure bandwidth make them: the length is read, the store is
  scanned twice on snapshots, and the eviction and the store itself each happen under a lock of their own.
*/
module FavoriteRaces {
  import opened Favorites
  import opened Tallies

  // What a call does next: read the length, scan for the lowest bandwidth, scan for the first to expire, evict, store.
  datatype Pc =
    | Begun
    | AtCapacity
    | Faster
    | Chosen(victim: string)
    | Ready(evicted: bool)
    | Done(added: bool)

  // `disturbed` is history: the store has changed since this call read its length.
  datatype Add = Add(key: string, val: Node, pc: Pc, disturbed: bool)

  datatype State = State(data: Data, adds: seq<Add>)

  datatype Step =
    | Begin(key: string, val: Node)
    | ReadLength(i: nat)
    | ScanBandwidths(i: nat, order: seq<string>)
    | ScanExpiries(i: nat, order: seq<string>)
    | Evict(i: nat)
    | Store(i: nat)

  function Idle(data: Data): State {
    State(data, [])
  }

  ghost predicate Enabled(s: State, step: Step) {
    match step
    case Begin(_, _) => true
    case ReadLength(i) => i < |s.adds| && s.adds[i].pc == Begun
    case ScanBandwidths(i, order) => i < |s.adds| && s.adds[i].pc == AtCapacity && IsOrder(order, s.data)
    case ScanExpiries(i, order) => i < |s.adds| && s.adds[i].pc == Faster && IsOrder(order, s.data)
    case Evict(i) => i < |s.adds| && s.adds[i].pc.Chosen?
    case Store(i) => i < |s.adds| && s.adds[i].pc.Ready?
  }

  predicate Watches(pc: Pc) {
    !pc.Begun? && !pc.Done?
  }

  function Goto(s: State, i: nat, pc: Pc): State
    requires i < |s.adds|
  {
    s.(adds := s.adds[i := s.adds[i].(pc := pc)])
  }

  // Call i writes to the store; if that changes it, the other calls under way are disturbed.
  function Write(s: State, i: nat, data: Data, pc: Pc): State
    requires i < |s.adds|
  {
    State(data, seq(|s.adds|, j requires 0 <= j < |s.adds| =>
      var c := s.adds[j];
      if j == i then c.(pc := pc) else if data != s.data && Watches(c.pc) then c.(disturbed := true) else c))
  }

  ghost function Apply(s: State, step: Step): State
    requires Enabled(s, step)
  {
    match step
    case Begin(key, val) => s.(adds := s.adds + [Add(key, val, Begun, false)])
    case ReadLength(i) => Goto(s, i, if |s.data| < MAX_FAVORITE_LENGTH then Ready(false) else AtCapacity)
    case ScanBandwidths(i, order) =>
      Goto(s, i, if s.adds[i].val.minBandwidth > LowestBandwidth(s.data, order) then Faster else Done(false))
    case ScanExpiries(i, order) => Goto(s, i, Chosen(FirstToExpire(s.data, order).0))
    case Evict(i) => Write(s, i, s.data - {s.adds[i].pc.victim}, Ready(true))
    case Store(i) => Write(s, i, s.data[s.adds[i].key := s.adds[i].val], Done(true))
  }

  ghost predicate Legal(s: State, steps: seq<Step>)
    decreases |steps|
  {
    steps == [] || (Enabled(s, steps[0]) && Legal(Apply(s, steps[0]), steps[1..]))
  }

  ghost function Play(s: State, steps: seq<Step>): State
    requires Legal(s, steps)
    decreases |steps|
  {
    if steps == [] then s else Play(Apply(s, steps[0]), steps[1..])
  }

  // Every added node expires before MAX_INT32.
  predicate Perishable(steps: seq<Step>) {
    forall i :: 0 <= i < |steps| && steps[i].Begin? ==> steps[i].val.expiresAt < MAX_INT32
  }

  function IsOverlapped(c: Add): nat {
    if c.disturbed && c.pc == Done(true) then 1 else 0
  }

  // How many adds stored their node although the store had changed under them.
  function Overlapped(s: State): nat {
    Tally(s.adds, IsOverlapped)
  }

  /* ----- The size of the store in every interleaving ----- */

  // What a call that was not disturbed knows about the store.
  predicate KnowsOk(data: Data, c: Add, slack: int) {
    match c.pc
    case Begun => true
    case AtCapacity => |data| >= MAX_FAVORITE_LENGTH
    case Faster => |data| >= MAX_FAVORITE_LENGTH
    case Chosen(victim) => victim in data
    case Ready(evicted) => if evicted then slack >= 1 else |data| < MAX_FAVORITE_LENGTH
    case Done(_) => true
  }

  ghost predicate AddOk(s: State, c: Add, bound: nat) {
    && c.val.expiresAt < MAX_INT32
    && (!c.disturbed ==> KnowsOk(s.data, c, bound + Overlapped(s) - |s.data|))
  }

  ghost predicate Inv(s: State, bound: nat) {
    && bound >= MAX_FAVORITE_LENGTH
    && AllEvictable(s.data)
    && |s.data| <= bound + Overlapped(s)
    && forall i :: 0 <= i < |s.adds| ==> AddOk(s, s.adds[i], bound)
  }

  lemma GotoKeepsInv(s: State, i: nat, pc: Pc, bound: nat)
    requires Inv(s, bound) && i < |s.adds| && !s.adds[i].pc.Done? && pc != Done(true)
    requires !s.adds[i].disturbed ==> KnowsOk(s.data, s.adds[i].(pc := pc), bound + Overlapped(s) - |s.data|)
    ensures Inv(Goto(s, i, pc), bound)
  {
    TallyUpdate(s.adds, i, s.adds[i].(pc := pc), IsOverlapped);
  }

  // The writer's own weight is all that a write changes.
  lemma WriteOverlap(s: State, i: nat, data: Data, pc: Pc)
    requires i < |s.adds| && !s.adds[i].pc.Done?
    ensures Overlapped(Write(s, i, data, pc)) == Overlapped(s) + if s.adds[i].disturbed && pc == Done(true) then 1 else 0
  {
    TallyChange(s.adds, Write(s, i, data, pc).adds, i, IsOverlapped);
  }

  lemma WriteKeepsInv(s: State, i: nat, data: Data, pc: Pc, bound: nat)
    requires Inv(s, bound) && i < |s.adds| && !s.adds[i].pc.Done? && AllEvictable(data)
    requires var slack := bound + Overlapped(Write(s, i, data, pc)) - |data|;
             slack >= 0 && (!s.adds[i].disturbed ==> KnowsOk(data, s.adds[i].(pc := pc), slack))
    ensures Inv(Write(s, i, data, pc), bound)
  {
    WriteOverlap(s, i, data, pc);
    var s' := Write(s, i, data, pc);
    forall j | 0 <= j < |s'.adds|
      ensures AddOk(s', s'.adds[j], bound)
    {
      assert AddOk(s, s.adds[j], bound);
    }
  }

  lemma EvictKeepsInv(s: State, i: nat, bound: nat)
    requires Inv(s, bound) && Enabled(s, Evict(i))
    ensures Inv(Apply(s, Evict(i)), bound)
  {
    var c := s.adds[i];
    assert AddOk(s, c, bound);
    SizeAfterDelete(s.data, c.pc.victim);
    WriteOverlap(s, i, s.data - {c.pc.victim}, Ready(true));
    WriteKeepsInv(s, i, s.data - {c.pc.victim}, Ready(true), bound);
  }

  lemma StoreKeepsInv(s: State, i: nat, bound: nat)
    requires Inv(s, bound) && Enabled(s, Store(i))
    ensures Inv(Apply(s, Store(i)), bound)
  {
    var c := s.adds[i];
    assert AddOk(s, c, bound);
    SizeAfterPut(s.data, c.key, c.val);
    WriteOverlap(s, i, s.data[c.key := c.val], Done(true));
    WriteKeepsInv(s, i, s.data[c.key := c.val], Done(true), bound);
  }

  // A scan of a store that is not empty and holds only entries that expire finds one of them.
  lemma ScanFindsVictim(data: Data, order: seq<string>)
    requires IsOrder(order, data) && AllEvictable(data) && |data| > 0
    ensures FirstToExpire(data, order).0 in data
  {
    ScanFindsMinimum(data, order);
    var k :| k in data.Keys;
    var i :| 0 <= i < |order| && order[i] == k;
    assert Evictable(data, order[i]);
  }

  lemma BeginKeepsInv(s: State, key: string, val: Node, bound: nat)
    requires Inv(s, bound) && val.expiresAt < MAX_INT32
    ensures Inv(Apply(s, Begin(key, val)), bound)
  {
    TallyAppend(s.adds, Add(key, val, Begun, false), IsOverlapped);
  }

  lemma StepKeepsInv(s: State, step: Step, bound: nat)
    requires Inv(s, bound) && Enabled(s, step) && (step.Begin? ==> step.val.expiresAt < MAX_INT32)
    ensures Inv(Apply(s, step), bound)
  {
    match step
    case Begin(key, val) => BeginKeepsInv(s, key, val, bound);
    case ReadLength(i) => GotoKeepsInv(s, i, Apply(s, step).adds[i].pc, bound);
    case ScanBandwidths(i, _) =>
      assert AddOk(s, s.adds[i], bound);
      GotoKeepsInv(s, i, Apply(s, step).adds[i].pc, bound);
    case ScanExpiries(i, order) =>
      assert AddOk(s, s.adds[i], bound);
      if !s.adds[i].disturbed {
        ScanFindsVictim(s.data, order);
      }
      GotoKeepsInv(s, i, Chosen(FirstToExpire(s.data, order).0), bound);
    case Evict(i) => EvictKeepsInv(s, i, bound);
    case Store(i) => StoreKeepsInv(s, i, bound);
  }

  lemma {:induction false} PlayKeepsInv(s: State, steps: seq<Step>, bound: nat)
    requires Inv(s, bound) && Legal(s, steps) && Perishable(steps)
    ensures Inv(Play(s, steps), bound)
    decreases |steps|
  {
    if steps != [] {
      StepKeepsInv(s, steps[0], bound);
      PlayKeepsInv(Apply(s, steps[0]), steps[1..], bound);
    }
  }

  // In every interleaving the store outgrows its bound by at most the number of overlapped adds.
  lemma SizeIsBounded(data: Data, steps: seq<Step>)
    requires AllEvictable(data) && Legal(Idle(data), steps) && Perishable(steps)
    ensures var s := Play(Idle(data), steps);
            var bound := if |data| < MAX_FAVORITE_LENGTH then MAX_FAVORITE_LENGTH else |data|;
            |s.data| <= bound + Overlapped(s)
  {
    PlayKeepsInv(Idle(data), steps, if |data| < MAX_FAVORITE_LENGTH then MAX_FAVORITE_LENGTH else |data|);
  }

  /* ----- One call at a time ----- */

  function IsActive(c: Add): nat {
    if c.pc.Done? then 0 else 1
  }

  // No more than `width` calls are under way at any time.
  ghost predicate AtMost(s: State, steps: seq<Step>, width: nat)
    requires Legal(s, steps)
    decreases |steps|
  {
    && Tally(s.adds, IsActive) <= width
    && (steps == [] || AtMost(Apply(s, steps[0]), steps[1..], width))
  }

  ghost predicate Undisturbed(s: State) {
    forall i :: 0 <= i < |s.adds| ==> !s.adds[i].disturbed
  }

  lemma LoneStepDisturbsNobody(s: State, step: Step)
    requires Enabled(s, step) && Undisturbed(s) && Tally(s.adds, IsActive) <= 1
    ensures Undisturbed(Apply(s, step))
  {
    if step.Evict? || step.Store? {
      forall j | 0 <= j < |s.adds| && j != step.i
        ensures s.adds[j].pc.Done?
      {
        TallyAtLeastTwo(s.adds, if j < step.i then j else step.i, if j < step.i then step.i else j, IsActive);
      }
    }
  }

  lemma {:induction false} LoneCallsNeverOverlap(s: State, steps: seq<Step>)
    requires Legal(s, steps) && AtMost(s, steps, 1) && Undisturbed(s)
    ensures Overlapped(Play(s, steps)) == 0
    decreases |steps|
  {
    if steps == [] {
      NoneOverlapped(s.adds);
    } else {
      LoneStepDisturbsNobody(s, steps[0]);
      LoneCallsNeverOverlap(Apply(s, steps[0]), steps[1..]);
    }
  }

  lemma {:induction false} NoneOverlapped(adds: seq<Add>)
    requires forall i :: 0 <= i < |adds| ==> !adds[i].disturbed
    ensures Tally(adds, IsOverlapped) == 0
  {
    if adds != [] {
      NoneOverlapped(adds[..|adds| - 1]);
    }
  }

  // The steps of one call that nobody interrupts.
  function LoneRun(data: Data, key: string, val: Node, order1: seq<string>, order2: seq<string>): seq<Step>
    requires AllStored(order1, data)
  {
    [Begin(key, val), ReadLength(0)]
    + if |data| < MAX_FAVORITE_LENGTH then [Store(0)]
      else if val.minBandwidth > LowestBandwidth(data, order1)
      then [ScanBandwidths(0, order1), ScanExpiries(0, order2), Evict(0), Store(0)]
      else [ScanBandwidths(0, order1)]
  }

  lemma LegalCons(s: State, step: Step, rest: seq<Step>)
    requires Enabled(s, step) && Legal(Apply(s, step), rest)
    ensures Legal(s, [step] + rest) && Play(s, [step] + rest) == Play(Apply(s, step), rest)
  {
    assert ([step] + rest)[1..] == rest;
  }

  lemma LoneBegins(data: Data, key: string, val: Node, rest: seq<Step>, s: State)
    requires s == State(data, [Add(key, val, if |data| < MAX_FAVORITE_LENGTH then Ready(false) else AtCapacity, false)])
    requires Legal(s, rest)
    ensures var steps := [Begin(key, val), ReadLength(0)] + rest;
            Legal(Idle(data), steps) && Play(Idle(data), steps) == Play(s, rest)
  {
    var s1 := State(data, [Add(key, val, Begun, false)]);
    assert Apply(Idle(data), Begin(key, val)) == s1 && Apply(s1, ReadLength(0)) == s;
    LegalCons(s1, ReadLength(0), rest);
    LegalCons(Idle(data), Begin(key, val), [ReadLength(0)] + rest);
    assert [Begin(key, val)] + ([ReadLength(0)] + rest) == [Begin(key, val), ReadLength(0)] + rest;
  }

  lemma LoneStep(s: State, step: Step)
    requires Enabled(s, step)
    ensures Legal(s, [step]) && Play(s, [step]) == Apply(s, step)
  {
    assert [step][1..] == [];
  }

  // Such a call does what AddFavoriteNode does.
  lemma LoneRunIsAfterAdd(data: Data, key: string, val: Node, order1: seq<string>, order2: seq<string>)
    requires IsOrder(order1, data) && IsOrder(order2, data)
    ensures var steps := LoneRun(data, key, val, order1, order2);
            && Legal(Idle(data), steps)
            && Play(Idle(data), steps)
               == State(AfterAdd(data, key, val, order1, order2), [Add(key, val, Done(Accepts(data, val, order1)), false)])
  {
    var s := State(data, [Add(key, val, if |data| < MAX_FAVORITE_LENGTH then Ready(false) else AtCapacity, false)]);
    var rest := LoneRun(data, key, val, order1, order2)[2..];
    assert LoneRun(data, key, val, order1, order2) == [Begin(key, val), ReadLength(0)] + rest;
    if |data| < MAX_FAVORITE_LENGTH {
      LoneStep(s, Store(0));
    } else if Accepts(data, val, order1) {
      LoneEviction(s, order1, order2);
    } else {
      LoneStep(s, ScanBandwidths(0, order1));
    }
    LoneBegins(data, key, val, rest, s);
  }

  lemma LoneEviction(s: State, order1: seq<string>, order2: seq<string>)
    requires IsOrder(order1, s.data) && IsOrder(order2, s.data) && |s.adds| == 1 && s.adds[0].pc == AtCapacity
    requires s.adds[0].val.minBandwidth > LowestBandwidth(s.data, order1)
    ensures var steps := [ScanBandwidths(0, order1), ScanExpiries(0, order2), Evict(0), Store(0)];
            var c := s.adds[0];
            && Legal(s, steps)
            && Play(s, steps)
               == State((s.data - {FirstToExpire(s.data, order2).0})[c.key := c.val], [c.(pc := Done(true))])
  {
    var c := s.adds[0];
    var victim := FirstToExpire(s.data, order2).0;
    var s1 := State(s.data, [c.(pc := Faster)]);
    var s2 := State(s.data, [c.(pc := Chosen(victim))]);
    assert Apply(s, ScanBandwidths(0, order1)) == s1 && Apply(s1, ScanExpiries(0, order2)) == s2;
    LoneWrites(s2);
    LegalCons(s1, ScanExpiries(0, order2), [Evict(0), Store(0)]);
    LegalCons(s, ScanBandwidths(0, order1), [ScanExpiries(0, order2), Evict(0), Store(0)]);
  }

  lemma LoneWrites(s: State)
    requires |s.adds| == 1 && s.adds[0].pc.Chosen?
    ensures var c := s.adds[0];
            && Legal(s, [Evict(0), Store(0)])
            && Play(s, [Evict(0), Store(0)]) == State((s.data - {c.pc.victim})[c.key := c.val], [c.(pc := Done(true))])
  {
    var c := s.adds[0];
    var s1 := State(s.data - {c.pc.victim}, [c.(pc := Ready(true))]);
    assert Apply(s, Evict(0)) == s1;
    LegalCons(s1, Store(0), []);
    LegalCons(s, Evict(0), [Store(0)]);
  }

  /* ----- Two calls at a time: the bound is reached, and nothing limits the growth ----- */

  ghost predicate Quiet(adds: seq<Add>) {
    forall i :: 0 <= i < |adds| ==> adds[i].pc.Done?
  }

  function Pair(data: Data, base: seq<Add>, a: Add, b: Add): State {
    State(data, base + [a, b])
  }

  lemma {:induction false} QuietIsInactive(adds: seq<Add>)
    requires Quiet(adds)
    ensures Tally(adds, IsActive) == 0
  {
    if adds != [] {
      QuietIsInactive(adds[..|adds| - 1]);
    }
  }

  lemma PairTally(data: Data, base: seq<Add>, a: Add, b: Add, weight: Add -> nat)
    ensures Tally(Pair(data, base, a, b).adds, weight) == Tally(base, weight) + weight(a) + weight(b)
  {
    TallyAppend(base, a, weight);
    TallyAppend(base + [a], b, weight);
    assert (base + [a]) + [b] == base + [a, b];
  }

  // A run of a pair that goes on from its first step.
  lemma PairStep(s: State, step: Step, rest: seq<Step>)
    requires Enabled(s, step) && Tally(s.adds, IsActive) <= 2
    requires Legal(Apply(s, step), rest) && AtMost(Apply(s, step), rest, 2) && Perishable([step]) && Perishable(rest)
    ensures Legal(s, [step] + rest) && AtMost(s, [step] + rest, 2) && Perishable([step] + rest)
    ensures Play(s, [step] + rest) == Play(Apply(s, step), rest)
  {
    ConsKeeps(s, step, rest, 2);
    PerishableAppend([step], rest);
  }

  lemma PairMove(data: Data, base: seq<Add>, a: Add, b: Add, step: Step, data': Data, a': Add, b': Add, rest: seq<Step>)
    requires Quiet(base) && Enabled(Pair(data, base, a, b), step) && !step.Begin?
    requires Apply(Pair(data, base, a, b), step) == Pair(data', base, a', b')
    requires Legal(Pair(data', base, a', b'), rest) && AtMost(Pair(data', base, a', b'), rest, 2) && Perishable(rest)
    ensures var s := Pair(data, base, a, b);
            && Legal(s, [step] + rest) && AtMost(s, [step] + rest, 2) && Perishable([step] + rest)
            && Play(s, [step] + rest) == Play(Pair(data', base, a', b'), rest)
  {
    QuietIsInactive(base);
    PairTally(data, base, a, b, IsActive);
    PairStep(Pair(data, base, a, b), step, rest);
  }

  // Both stores, one after the other, on a store of entries that the second one has not seen.
  lemma PairStores(data: Data, base: seq<Add>, a: Add, b: Add) returns (steps: seq<Step>)
    requires Quiet(base) && a.pc.Ready? && b.pc.Ready? && !a.disturbed
    requires a.key !in data && b.key !in data && a.key != b.key
    ensures var s := Pair(data, base, a, b);
            && Legal(s, steps) && AtMost(s, steps, 2) && Perishable(steps)
            && Play(s, steps) == Pair(data[a.key := a.val][b.key := b.val], base, a.(pc := Done(true)),
                                      b.(pc := Done(true), disturbed := true))
  {
    var n := |base|;
    var a', b' := a.(pc := Done(true)), b.(disturbed := true);
    var data1 := data[a.key := a.val];
    var data2 := data1[b.key := b.val];
    var b'' := b'.(pc := Done(true));
    assert a.key in data1;
    assert Apply(Pair(data, base, a, b), Store(n)) == Pair(data1, base, a', b');
    assert Apply(Pair(data1, base, a', b'), Store(n + 1)) == Pair(data2, base, a', b'');
    QuietIsInactive(base);
    PairTally(data2, base, a', b'', IsActive);
    PairMove(data1, base, a', b', Store(n + 1), data2, a', b'', []);
    PairMove(data, base, a, b, Store(n), data1, a', b', [Store(n + 1)] + []);
    steps := [Store(n)] + ([Store(n + 1)] + []);
  }

  // Both calls chose the same entry: it is evicted once, and two nodes are stored.
  lemma PairEvicts(data: Data, base: seq<Add>, a: Add, b: Add) returns (steps: seq<Step>)
    requires Quiet(base) && a.pc.Chosen? && b.pc == a.pc && a.pc.victim in data && !a.disturbed
    requires a.key !in data && b.key !in data && a.key != b.key
    ensures var s := Pair(data, base, a, b);
            && Legal(s, steps) && AtMost(s, steps, 2) && Perishable(steps)
            && Play(s, steps) == Pair((data - {a.pc.victim})[a.key := a.val][b.key := b.val], base,
                                      a.(pc := Done(true)), b.(pc := Done(true), disturbed := true))
  {
    var n := |base|;
    var data1 := data - {a.pc.victim};
    var a', b', b'' := a.(pc := Ready(true)), b.(disturbed := true), b.(disturbed := true, pc := Ready(true));
    assert a.pc.victim !in data1;
    assert Apply(Pair(data, base, a, b), Evict(n)) == Pair(data1, base, a', b');
    assert data1 - {a.pc.victim} == data1;
    assert Apply(Pair(data1, base, a', b'), Evict(n + 1)) == Pair(data1, base, a', b'');
    steps := PairStores(data1, base, a', b'');
    PairMove(data1, base, a', b', Evict(n + 1), data1, a', b'', steps);
    PairMove(data, base, a, b, Evict(n), data1, a', b', [Evict(n + 1)] + steps);
    steps := [Evict(n)] + ([Evict(n + 1)] + steps);
  }

  lemma PairScans(data: Data, base: seq<Add>, a: Add, b: Add, order: seq<string>) returns (steps: seq<Step>)
    requires Quiet(base) && a.pc == AtCapacity && b.pc == AtCapacity && !a.disturbed && !b.disturbed
    requires IsOrder(order, data) && AllEvictable(data) && |data| > 0
    requires a.val.minBandwidth > LowestBandwidth(data, order) && b.val.minBandwidth > LowestBandwidth(data, order)
    requires a.key !in data && b.key !in data && a.key != b.key
    ensures var s := Pair(data, base, a, b);
            var victim := FirstToExpire(data, order).0;
            && victim in data
            && Legal(s, steps) && AtMost(s, steps, 2) && Perishable(steps)
            && Play(s, steps) == Pair((data - {victim})[a.key := a.val][b.key := b.val], base,
                                      a.(pc := Done(true)), b.(pc := Done(true), disturbed := true))
  {
    var n := |base|;
    var victim := FirstToExpire(data, order).0;
    ScanFindsVictim(data, order);
    var a1, b1 := a.(pc := Faster), b.(pc := Faster);
    var a2, b2 := a.(pc := Chosen(victim)), b.(pc := Chosen(victim));
    assert Apply(Pair(data, base, a, b), ScanBandwidths(n, order)) == Pair(data, base, a1, b);
    assert Apply(Pair(data, base, a1, b), ScanBandwidths(n + 1, order)) == Pair(data, base, a1, b1);
    assert Apply(Pair(data, base, a1, b1), ScanExpiries(n, order)) == Pair(data, base, a2, b1);
    assert Apply(Pair(data, base, a2, b1), ScanExpiries(n + 1, order)) == Pair(data, base, a2, b2);
    steps := PairEvicts(data, base, a2, b2);
    PairMove(data, base, a2, b1, ScanExpiries(n + 1, order), data, a2, b2, steps);
    steps := [ScanExpiries(n + 1, order)] + steps;
    PairMove(data, base, a1, b1, ScanExpiries(n, order), data, a2, b1, steps);
    steps := [ScanExpiries(n, order)] + steps;
    PairMove(data, base, a1, b, ScanBandwidths(n + 1, order), data, a1, b1, steps);
    steps := [ScanBandwidths(n + 1, order)] + steps;
    PairMove(data, base, a, b, ScanBandwidths(n, order), data, a1, b, steps);
    steps := [ScanBandwidths(n, order)] + steps;
  }

  // Two calls begin and read the length before anything else happens.
  lemma PairBegins(data: Data, base: seq<Add>, a: Add, b: Add, rest: seq<Step>) returns (steps: seq<Step>)
    requires Quiet(base) && !a.disturbed && !b.disturbed && a.pc == b.pc
    requires a.pc == if |data| < MAX_FAVORITE_LENGTH then Ready(false) else AtCapacity
    requires a.val.expiresAt < MAX_INT32 && b.val.expiresAt < MAX_INT32
    requires var s := Pair(data, base, a, b); Legal(s, rest) && AtMost(s, rest, 2) && Perishable(rest)
    ensures var s := State(data, base);
            && Legal(s, steps) && AtMost(s, steps, 2) && Perishable(steps)
            && Play(s, steps) == Play(Pair(data, base, a, b), rest)
  {
    var n := |base|;
    var a0, b0 := a.(pc := Begun), b.(pc := Begun);
    var s0, s1 := State(data, base), State(data, base + [a0]);
    QuietIsInactive(base);
    TallyAppend(base, a0, IsActive);
    assert Apply(s0, Begin(a.key, a.val)) == s1;
    assert Apply(s1, Begin(b.key, b.val)) == Pair(data, base, a0, b0);
    assert Apply(Pair(data, base, a0, b0), ReadLength(n)) == Pair(data, base, a, b0);
    assert Apply(Pair(data, base, a, b0), ReadLength(n + 1)) == Pair(data, base, a, b);
    PairMove(data, base, a, b0, ReadLength(n + 1), data, a, b, rest);
    steps := [ReadLength(n + 1)] + rest;
    PairMove(data, base, a0, b0, ReadLength(n), data, a, b0, steps);
    steps := [ReadLength(n)] + steps;
    PairStep(s1, Begin(b.key, b.val), steps);
    steps := [Begin(b.key, b.val)] + steps;
    PairStep(s0, Begin(a.key, a.val), steps);
    steps := [Begin(a.key, a.val)] + steps;
  }

  // Keys are shorter than `length` and bandwidths below `top`, so there are keys and bandwidths beyond.
  ghost predicate Within(data: Data, length: nat, top: real) {
    top > 0.0 && forall k :: k in data ==> |k| < length && data[k].minBandwidth < top
  }

  function Name(length: nat): string {
    seq(length, _ => 'x')
  }

  lemma {:induction false} Headroom(data: Data, order: seq<string>) returns (length: nat, top: real)
    requires AllStored(order, data)
    ensures top > 0.0 && forall i :: 0 <= i < |order| ==> |order[i]| < length && data[order[i]].minBandwidth < top
  {
    length, top := 0, 1.0;
    if order != [] {
      var last := order[|order| - 1];
      length, top := Headroom(data, order[..|order| - 1]);
      length := length + |last| + 1;
      if data[last].minBandwidth >= top {
        top := data[last].minBandwidth + 1.0;
      }
    }
  }

  lemma SomeOrder(data: Data) returns (order: seq<string>)
    ensures IsOrder(order, data)
  {
    order := Enumerate(data.Keys);
  }

  lemma SomeBounds(data: Data) returns (length: nat, top: real)
    ensures Within(data, length, top)
  {
    var order := SomeOrder(data);
    length, top := Headroom(data, order);
    forall k | k in data
      ensures |k| < length && data[k].minBandwidth < top
    {
      var i :| 0 <= i < |order| && order[i] == k;
    }
  }

  lemma BeatsAll(data: Data, order: seq<string>, length: nat, top: real)
    requires IsOrder(order, data) && Within(data, length, top)
    ensures AllStored(order, data) && top > LowestBandwidth(data, order)
  {
    LowestIsStoredOrZero(data, order);
  }

  lemma PairSize(data: Data, victim: string, key1: string, val1: Node, key2: string, val2: Node)
    requires victim in data && key1 !in data && key2 !in data && key1 != key2
    ensures |(data - {victim})[key1 := val1][key2 := val2]| == |data| + 1
  {
    SizeAfterDelete(data, victim);
    SizeAfterPut(data - {victim}, key1, val1);
    SizeAfterPut((data - {victim})[key1 := val1], key2, val2);
  }

  // Two overlapping calls on a full store make it grow by one.
  lemma PairGrows(s: State, length: nat, top: real) returns (steps: seq<Step>)
    requires Quiet(s.adds) && |s.data| >= MAX_FAVORITE_LENGTH && AllEvictable(s.data) && Within(s.data, length, top)
    ensures Legal(s, steps) && AtMost(s, steps, 2) && Perishable(steps)
    ensures var s' := Play(s, steps);
            && Quiet(s'.adds) && AllEvictable(s'.data) && Within(s'.data, length + 2, top + 1.0)
            && |s'.data| == |s.data| + 1 && Overlapped(s') == Overlapped(s) + 1
  {
    var val := Node("", "", 0.0, top, top, 1);
    var a, b := Add(Name(length), val, AtCapacity, false), Add(Name(length + 1), val, AtCapacity, false);
    assert |a.key| != |b.key|;
    var order := SomeOrder(s.data);
    BeatsAll(s.data, order, length, top);
    var scans := PairScans(s.data, s.adds, a, b, order);
    steps := PairBegins(s.data, s.adds, a, b, scans);
    assert State(s.data, s.adds) == s;
    PairResult(s, a, b, FirstToExpire(s.data, order).0, length, top);
  }

  lemma PairResult(s: State, a: Add, b: Add, victim: string, length: nat, top: real)
    requires Quiet(s.adds) && AllEvictable(s.data) && Within(s.data, length, top) && victim in s.data && !a.disturbed
    requires a.key == Name(length) && b.key == Name(length + 1) && a.val == b.val == Node("", "", 0.0, top, top, 1)
    ensures var s' := Pair((s.data - {victim})[a.key := a.val][b.key := b.val], s.adds,
                           a.(pc := Done(true)), b.(pc := Done(true), disturbed := true));
            && Quiet(s'.adds) && AllEvictable(s'.data) && Within(s'.data, length + 2, top + 1.0)
            && |s'.data| == |s.data| + 1 && Overlapped(s') == Overlapped(s) + 1
  {
    assert |a.key| != |b.key|;
    PairSize(s.data, victim, a.key, a.val, b.key, b.val);
    PairTally(s.data, s.adds, a.(pc := Done(true)), b.(pc := Done(true), disturbed := true), IsOverlapped);
  }

  lemma FirstStep(s: State, steps: seq<Step>, width: nat)
    requires steps != [] && Legal(s, steps) && AtMost(s, steps, width)
    ensures Enabled(s, steps[0]) && Legal(Apply(s, steps[0]), steps[1..]) && AtMost(Apply(s, steps[0]), steps[1..], width)
    ensures Tally(s.adds, IsActive) <= width && Play(s, steps) == Play(Apply(s, steps[0]), steps[1..])
    ensures steps == [steps[0]] + steps[1..]
  {
  }

  lemma ConsKeeps(s: State, step: Step, rest: seq<Step>, width: nat)
    requires Enabled(s, step) && Tally(s.adds, IsActive) <= width
    requires Legal(Apply(s, step), rest) && AtMost(Apply(s, step), rest, width)
    ensures Legal(s, [step] + rest) && AtMost(s, [step] + rest, width)
    ensures Play(s, [step] + rest) == Play(Apply(s, step), rest)
  {
    LegalCons(s, step, rest);
    assert ([step] + rest)[1..] == rest;
  }

  lemma Regroup<T>(xs: seq<T>, ys: seq<T>)
    requires xs != []
    ensures [xs[0]] + (xs[1..] + ys) == xs + ys
  {
  }

  lemma {:induction false} PlayAppend(s: State, steps: seq<Step>, more: seq<Step>, width: nat)
    requires Legal(s, steps) && AtMost(s, steps, width)
    requires Legal(Play(s, steps), more) && AtMost(Play(s, steps), more, width)
    ensures Legal(s, steps + more) && AtMost(s, steps + more, width)
    ensures Play(s, steps + more) == Play(Play(s, steps), more)
    decreases |steps|
  {
    if steps == [] {
      assert [] + more == more;
    } else {
      FirstStep(s, steps, width);
      var s' := Apply(s, steps[0]);
      PlayAppend(s', steps[1..], more, width);
      ConsKeeps(s, steps[0], steps[1..] + more, width);
      Regroup(steps, more);
    }
  }

  lemma PerishableAppend(steps: seq<Step>, more: seq<Step>)
    requires Perishable(steps) && Perishable(more)
    ensures Perishable(steps + more)
  {
  }

  lemma {:induction false} PairsGrow(s: State, n: nat, length: nat, top: real) returns (steps: seq<Step>)
    requires Quiet(s.adds) && |s.data| >= MAX_FAVORITE_LENGTH && AllEvictable(s.data) && Within(s.data, length, top)
    ensures Legal(s, steps) && AtMost(s, steps, 2) && Perishable(steps)
    ensures |Play(s, steps).data| == |s.data| + n && Overlapped(Play(s, steps)) == Overlapped(s) + n
    decreases n
  {
    if n == 0 {
      QuietIsInactive(s.adds);
      steps := [];
    } else {
      steps := PairGrows(s, length, top);
      var more := PairsGrow(Play(s, steps), n - 1, length + 2, top + 1.0);
      PlayAppend(s, steps, more, 2);
      PerishableAppend(steps, more);
      steps := steps + more;
    }
  }

  // SizeIsBounded is exact: from any full store, two calls at a time can overlap any number of times, and each overlap
  // makes the store grow by one.
  lemma OverlapsGrowWithoutLimit(data: Data, n: nat) returns (steps: seq<Step>)
    requires |data| >= MAX_FAVORITE_LENGTH && AllEvictable(data)
    ensures Legal(Idle(data), steps) && AtMost(Idle(data), steps, 2) && Perishable(steps)
    ensures |Play(Idle(data), steps).data| == |data| + n && Overlapped(Play(Idle(data), steps)) == n
  {
    var length, top := SomeBounds(data);
    steps := PairsGrow(Idle(data), n, length, top);
  }

  // Below capacity, two calls that both read the length before either stores go over the bound.
  lemma OverlappingAddsOverflow(data: Data, key1: string, val1: Node, key2: string, val2: Node) returns (steps: seq<Step>)
    requires |data| == MAX_FAVORITE_LENGTH - 1 && key1 != key2 && key1 !in data && key2 !in data
    requires val1.expiresAt < MAX_INT32 && val2.expiresAt < MAX_INT32
    ensures Legal(Idle(data), steps) && AtMost(Idle(data), steps, 2) && Perishable(steps)
    ensures Play(Idle(data), steps).data == data[key1 := val1][key2 := val2]
    ensures |Play(Idle(data), steps).data| == MAX_FAVORITE_LENGTH + 1
  {
    var a, b := Add(key1, val1, Ready(false), false), Add(key2, val2, Ready(false), false);
    var stores := PairStores(data, [], a, b);
    steps := PairBegins(data, [], a, b, stores);
    SizeAfterPut(data, key1, val1);
    SizeAfterPut(data[key1 := val1], key2, val2);
  }

  // With at most `width` calls under way at a time, no run from at most 8 favourites exceeds 8.
  ghost predicate Safe(width: nat) {
    forall data, steps :: |data| <= MAX_FAVORITE_LENGTH && AllEvictable(data) && Legal(Idle(data), steps)
                          && Perishable(steps) && AtMost(Idle(data), steps, width)
      ==> |Play(Idle(data), steps).data| <= 8
  }

  function FullStore(n: nat): (data: Data)
    ensures AllEvictable(data) && |data| == n && forall k :: k in data ==> |k| < n
  {
    if n == 0 then map[]
    else
      var front := FullStore(n - 1);
      SizeAfterPut(front, Name(n - 1), Node("", "", 0.0, 1.0, 1.0, 1));
      front[Name(n - 1) := Node("", "", 0.0, 1.0, 1.0, 1)]
  }

  lemma {:induction false} AtMostWidens(s: State, steps: seq<Step>, width: nat, wider: nat)
    requires Legal(s, steps) && AtMost(s, steps, width) && width <= wider
    ensures AtMost(s, steps, wider)
    decreases |steps|
  {
    if steps != [] {
      AtMostWidens(Apply(s, steps[0]), steps[1..], width, wider);
    }
  }

  // The bound of 8 survives exactly if calls never overlap: no limit on concurrency above one protects it.
  lemma SafeIff(width: nat)
    ensures Safe(width) <==> width <= 1
  {
    if width <= 1 {
      forall data, steps | |data| <= MAX_FAVORITE_LENGTH && AllEvictable(data) && Legal(Idle(data), steps)
                           && Perishable(steps) && AtMost(Idle(data), steps, width)
        ensures |Play(Idle(data), steps).data| <= MAX_FAVORITE_LENGTH
      {
        AtMostWidens(Idle(data), steps, width, 1);
        LoneCallsNeverOverlap(Idle(data), steps);
        SizeIsBounded(data, steps);
      }
    } else {
      var data := FullStore(MAX_FAVORITE_LENGTH);
      var steps := OverlapsGrowWithoutLimit(data, 1);
      AtMostWidens(Idle(data), steps, 2, width);
      assert !(|Play(Idle(data), steps).data| <= MAX_FAVORITE_LENGTH);
    }
  }
}
