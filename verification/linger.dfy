/**
  Closing a node while connections are being pumped: every pump counts itself in a wait group and in the number of
  active sessions, and a closer may first linger until the wait group is empty or a timeout strikes.
*/
module Linger {
  import opened Tallies

  // A pump around its copy phase.
  datatype PumpPc = Starting | Registered | Copying | Finishing | Gone

  // A call of Close: before reading the linger setting, waiting under it, about to take the lock, or returned.
  // `sawZero` is history: the wait group was observed empty while this call was waiting.
  datatype CloserPc = Called | Waiting(linger: int, sawZero: bool) | Through(linger: int, sawZero: bool) | Returned(closedNow: bool)

  datatype State = State(pumps: seq<PumpPc>, closers: seq<CloserPc>, waitGroup: int, activeSessions: int, linger: int,
                         isClosed: bool, closeChanClosed: nat, udpCloseChanClosed: nat)

  datatype Step =
    | SpawnPump
    | Register(p: nat)
    | BeginCopy(p: nat)
    | EndCopy(p: nat)
    | Leave(p: nat)
    | SetLinger(linger: int)
    | CallClose
    | ReadLinger(c: nat)
    | GroupEmpty(c: nat)
    | StopWaiting(c: nat)
    | CloseBody(c: nat)

  const INIT := State([], [], 0, 0, 0, false, 0, 0)

  predicate PumpAt(s: State, p: nat, pc: PumpPc) {
    p < |s.pumps| && s.pumps[p] == pc
  }

  predicate Enabled(s: State, step: Step) {
    match step
    case SpawnPump => true
    case Register(p) => PumpAt(s, p, Starting)
    case BeginCopy(p) => PumpAt(s, p, Registered)
    case EndCopy(p) => PumpAt(s, p, Copying)
    case Leave(p) => PumpAt(s, p, Finishing)
    case SetLinger(_) => true
    case CallClose => true
    case ReadLinger(c) => c < |s.closers| && s.closers[c].Called?
    case GroupEmpty(c) => c < |s.closers| && s.closers[c].Waiting? && s.waitGroup == 0
    // either the empty group was announced, or a positive linger ran out
    case StopWaiting(c) => c < |s.closers| && s.closers[c].Waiting? && (s.closers[c].sawZero || s.closers[c].linger > 0)
    case CloseBody(c) => c < |s.closers| && s.closers[c].Through?
  }

  function Apply(s: State, step: Step): State
    requires Enabled(s, step)
  {
    match step
    case SpawnPump => s.(pumps := s.pumps + [Starting])
    case Register(p) => s.(pumps := s.pumps[p := Registered], waitGroup := s.waitGroup + 1)
    case BeginCopy(p) => s.(pumps := s.pumps[p := Copying], activeSessions := s.activeSessions + 1)
    case EndCopy(p) => s.(pumps := s.pumps[p := Finishing], activeSessions := s.activeSessions - 1)
    case Leave(p) => s.(pumps := s.pumps[p := Gone], waitGroup := s.waitGroup - 1)
    case SetLinger(linger) => s.(linger := linger)
    case CallClose => s.(closers := s.closers + [Called])
    case ReadLinger(c) =>
      s.(closers := s.closers[c := if s.linger == 0 then Through(0, false) else Waiting(s.linger, false)])
    case GroupEmpty(c) => s.(closers := s.closers[c := Waiting(s.closers[c].linger, true)])
    case StopWaiting(c) => s.(closers := s.closers[c := Through(s.closers[c].linger, s.closers[c].sawZero)])
    case CloseBody(c) =>
      if s.isClosed then s.(closers := s.closers[c := Returned(false)])
      else s.(closers := s.closers[c := Returned(true)], isClosed := true,
              closeChanClosed := s.closeChanClosed + 1, udpCloseChanClosed := s.udpCloseChanClosed + 1)
  }

  predicate Legal(s: State, steps: seq<Step>)
    decreases |steps|
  {
    steps == [] || (Enabled(s, steps[0]) && Legal(Apply(s, steps[0]), steps[1..]))
  }

  function Play(s: State, steps: seq<Step>): State
    requires Legal(s, steps)
    decreases |steps|
  {
    if steps == [] then s else Play(Apply(s, steps[0]), steps[1..])
  }

  function IsCopying(pc: PumpPc): nat {
    if pc.Copying? then 1 else 0
  }

  function InGroup(pc: PumpPc): nat {
    if pc.Registered? || pc.Copying? || pc.Finishing? then 1 else 0
  }

  function ClosedIt(pc: CloserPc): nat {
    if pc == Returned(true) then 1 else 0
  }

  predicate CountsOk(s: State) {
    s.activeSessions == Tally(s.pumps, IsCopying) && s.waitGroup == Tally(s.pumps, InGroup)
  }

  predicate ClosesOk(s: State) {
    Tally(s.closers, ClosedIt) == s.closeChanClosed == s.udpCloseChanClosed == if s.isClosed then 1 else 0
  }

  predicate WaitsOk(s: State) {
    forall c :: 0 <= c < |s.closers| && s.closers[c].Through? && s.closers[c].linger < 0 ==> s.closers[c].sawZero
  }

  predicate Inv(s: State) {
    CountsOk(s) && ClosesOk(s) && WaitsOk(s)
  }

  lemma PumpStep(s: State, step: Step, weight: PumpPc -> nat)
    requires Enabled(s, step)
    ensures var s' := Apply(s, step);
            match step
            case SpawnPump => Tally(s'.pumps, weight) == Tally(s.pumps, weight) + weight(Starting)
            case Register(p) => Tally(s'.pumps, weight) + weight(Starting) == Tally(s.pumps, weight) + weight(Registered)
            case BeginCopy(p) => Tally(s'.pumps, weight) + weight(Registered) == Tally(s.pumps, weight) + weight(Copying)
            case EndCopy(p) => Tally(s'.pumps, weight) + weight(Copying) == Tally(s.pumps, weight) + weight(Finishing)
            case Leave(p) => Tally(s'.pumps, weight) + weight(Finishing) == Tally(s.pumps, weight) + weight(Gone)
            case _ => s'.pumps == s.pumps
  {
    match step
    case SpawnPump => TallyAppend(s.pumps, Starting, weight);
    case Register(p) => TallyUpdate(s.pumps, p, Registered, weight);
    case BeginCopy(p) => TallyUpdate(s.pumps, p, Copying, weight);
    case EndCopy(p) => TallyUpdate(s.pumps, p, Finishing, weight);
    case Leave(p) => TallyUpdate(s.pumps, p, Gone, weight);
    case _ =>
  }

  lemma CloserStep(s: State, step: Step)
    requires Enabled(s, step)
    ensures var s' := Apply(s, step);
            Tally(s'.closers, ClosedIt) == Tally(s.closers, ClosedIt) + if step.CloseBody? && !s.isClosed then 1 else 0
  {
    var s' := Apply(s, step);
    match step
    case CallClose => TallyAppend(s.closers, Called, ClosedIt);
    case ReadLinger(c) => TallyUpdate(s.closers, c, s'.closers[c], ClosedIt);
    case GroupEmpty(c) => TallyUpdate(s.closers, c, s'.closers[c], ClosedIt);
    case StopWaiting(c) => TallyUpdate(s.closers, c, s'.closers[c], ClosedIt);
    case CloseBody(c) => TallyUpdate(s.closers, c, s'.closers[c], ClosedIt);
    case _ =>
  }

  lemma StepKeepsCounts(s: State, step: Step)
    requires CountsOk(s) && Enabled(s, step)
    ensures CountsOk(Apply(s, step))
  {
    PumpStep(s, step, IsCopying);
    PumpStep(s, step, InGroup);
  }

  lemma StepKeepsCloses(s: State, step: Step)
    requires ClosesOk(s) && Enabled(s, step)
    ensures ClosesOk(Apply(s, step))
  {
    CloserStep(s, step);
  }

  lemma StepKeepsWaits(s: State, step: Step)
    requires WaitsOk(s) && Enabled(s, step)
    ensures WaitsOk(Apply(s, step))
  {
  }

  lemma StepKeepsInv(s: State, step: Step)
    requires Inv(s) && Enabled(s, step)
    ensures Inv(Apply(s, step))
  {
    StepKeepsCounts(s, step);
    StepKeepsCloses(s, step);
    StepKeepsWaits(s, step);
  }

  lemma {:induction false} PlayKeepsInv(s: State, steps: seq<Step>)
    requires Inv(s) && Legal(s, steps)
    ensures Inv(Play(s, steps))
    decreases |steps|
  {
    if steps != [] {
      StepKeepsInv(s, steps[0]);
      PlayKeepsInv(Apply(s, steps[0]), steps[1..]);
    }
  }

  // The number of active sessions is the number of copying pumps, and never exceeds the wait group.
  lemma ActiveSessionsAreCopying(steps: seq<Step>)
    requires Legal(INIT, steps)
    ensures var s := Play(INIT, steps);
            0 <= s.activeSessions == Tally(s.pumps, IsCopying) <= s.waitGroup
  {
    PlayKeepsInv(INIT, steps);
    TallyBelow(Play(INIT, steps).pumps, IsCopying, InGroup);
  }

  // However many calls race, each channel is closed at most once, and exactly once after some call got through.
  lemma ChannelsCloseOnce(steps: seq<Step>)
    requires Legal(INIT, steps)
    ensures var s := Play(INIT, steps);
            && s.closeChanClosed == s.udpCloseChanClosed == (if s.isClosed then 1 else 0)
            && Tally(s.closers, ClosedIt) == s.closeChanClosed
  {
    PlayKeepsInv(INIT, steps);
  }

  lemma {:induction false} PlaySplit(s: State, steps: seq<Step>, k: nat)
    requires Legal(s, steps) && k <= |steps|
    ensures Legal(s, steps[..k]) && Legal(Play(s, steps[..k]), steps[k..])
    ensures Play(s, steps) == Play(Play(s, steps[..k]), steps[k..])
    decreases |steps|
  {
    if k == 0 {
      assert steps[..k] == [] && steps[k..] == steps;
    } else {
      PlaySplit(Apply(s, steps[0]), steps[1..], k - 1);
      assert steps[..k][1..] == steps[1..][..k - 1] && steps[k..] == steps[1..][k - 1..];
    }
  }

  // Some earlier moment of the run: this call was waiting and the wait group was empty.
  ghost predicate WaitedUntilEmpty(steps: seq<Step>, c: nat) {
    exists k :: 0 <= k <= |steps| && Legal(INIT, steps[..k]) && EmptyWhileWaiting(Play(INIT, steps[..k]), c)
  }

  lemma WaitedMeans(steps: seq<Step>, c: nat)
    requires WaitedUntilEmpty(steps, c)
    ensures exists k :: 0 <= k <= |steps| && Legal(INIT, steps[..k]) && Play(INIT, steps[..k]).waitGroup == 0
                        && c < |Play(INIT, steps[..k]).closers| && Play(INIT, steps[..k]).closers[c].Waiting?
  {
    var k :| 0 <= k <= |steps| && Legal(INIT, steps[..k]) && EmptyWhileWaiting(Play(INIT, steps[..k]), c);
    assert Play(INIT, steps[..k]).waitGroup == 0;
  }

  predicate EmptyWhileWaiting(s: State, c: nat) {
    c < |s.closers| && s.closers[c].Waiting? && s.waitGroup == 0
  }

  lemma {:induction false} SawZeroIsTrue(steps: seq<Step>, c: nat)
    requires Legal(INIT, steps)
    requires var s := Play(INIT, steps);
             c < |s.closers| && (s.closers[c].Waiting? || s.closers[c].Through?) && s.closers[c].sawZero
    ensures WaitedUntilEmpty(steps, c)
    decreases |steps|
  {
    if steps != [] {
      var n := |steps| - 1;
      PlaySplit(INIT, steps, n);
      var before := Play(INIT, steps[..n]);
      var step := steps[n];
      assert steps[n..] == [step];
      assert Play(INIT, steps) == Apply(before, step);
      if step == GroupEmpty(c) {
        assert EmptyWhileWaiting(before, c);
      } else {
        assert c < |before.closers|;
        SawZeroIsTrue(steps[..n], c);
        var k :| 0 <= k <= n && Legal(INIT, steps[..n][..k]) && EmptyWhileWaiting(Play(INIT, steps[..n][..k]), c);
        assert steps[..n][..k] == steps[..k];
      }
    }
  }

  // With a negative linger, the body of Close runs only after the wait group was empty during the call.
  lemma NegativeLingerWaits(steps: seq<Step>, c: nat)
    requires Legal(INIT, steps) && Enabled(Play(INIT, steps), CloseBody(c))
    requires Play(INIT, steps).closers[c].linger < 0
    ensures WaitedUntilEmpty(steps, c)
  {
    PlayKeepsInv(INIT, steps);
    SawZeroIsTrue(steps, c);
  }

  // A call of Close goes on at once with a zero linger; under a positive one it may stop waiting at any time, and under a
  // negative one exactly after it saw the wait group empty, which it can as soon as the wait group is.
  lemma CloserGoesOn(s: State, c: nat)
    requires c < |s.closers|
    ensures s.closers[c].Called? ==>
      && Enabled(s, ReadLinger(c))
      && var s' := Apply(s, ReadLinger(c));
         && (s.linger == 0 <==> Enabled(s', CloseBody(c)))
         && (s.linger > 0 <==> Enabled(s', StopWaiting(c)))
         && (s.linger != 0 && s.waitGroup == 0 <==> Enabled(s', GroupEmpty(c)))
    ensures s.closers[c].Waiting? ==>
      && (Enabled(s, GroupEmpty(c)) <==> s.waitGroup == 0)
      && (Enabled(s, GroupEmpty(c)) ==> Enabled(Apply(s, GroupEmpty(c)), StopWaiting(c)))
      && (Enabled(s, StopWaiting(c)) <==> s.closers[c].linger > 0 || s.closers[c].sawZero)
      && (Enabled(s, StopWaiting(c)) ==> Enabled(Apply(s, StopWaiting(c)), CloseBody(c)))
  {
  }

  // The first call to get through closes, whatever it waited for, and every later one finds the node closed.
  lemma CloseBodyMeans(s: State, c: nat)
    requires Enabled(s, CloseBody(c))
    ensures var s' := Apply(s, CloseBody(c));
            && s'.isClosed && s'.closers[c] == Returned(!s.isClosed)
            && s'.closeChanClosed - s.closeChanClosed == s'.udpCloseChanClosed - s.udpCloseChanClosed == (if s.isClosed then 0 else 1)
  {
  }

  /* ----- A run in which a call waits for a pump ----- */

  function PumpedClose(linger: int): seq<Step> {
    [SetLinger(linger), SpawnPump, Register(0), BeginCopy(0), CallClose, ReadLinger(0), EndCopy(0), Leave(0), GroupEmpty(0),
     StopWaiting(0), CloseBody(0)]
  }

  lemma LegalCons(s: State, step: Step, rest: seq<Step>)
    requires Enabled(s, step) && Legal(Apply(s, step), rest)
    ensures Legal(s, [step] + rest) && Play(s, [step] + rest) == Play(Apply(s, step), rest)
  {
    assert ([step] + rest)[1..] == rest;
  }

  lemma PumpRuns(linger: int)
    ensures var steps := [SetLinger(linger), SpawnPump, Register(0), BeginCopy(0)];
            Legal(INIT, steps) && Play(INIT, steps) == State([Copying], [], 1, 1, linger, false, 0, 0)
  {
    var s1 := Apply(INIT, SetLinger(linger));
    var s2 := Apply(s1, SpawnPump);
    var s3 := Apply(s2, Register(0));
    assert Apply(s3, BeginCopy(0)) == State([Copying], [], 1, 1, linger, false, 0, 0);
    LegalCons(s3, BeginCopy(0), []);
    LegalCons(s2, Register(0), [BeginCopy(0)]);
    LegalCons(s1, SpawnPump, [Register(0), BeginCopy(0)]);
    LegalCons(INIT, SetLinger(linger), [SpawnPump, Register(0), BeginCopy(0)]);
  }

  lemma CallWaits(linger: int)
    requires linger != 0
    ensures var s := State([Copying], [], 1, 1, linger, false, 0, 0);
            var steps := [CallClose, ReadLinger(0), EndCopy(0), Leave(0)];
            Legal(s, steps) && Play(s, steps) == State([Gone], [Waiting(linger, false)], 0, 0, linger, false, 0, 0)
  {
    var s := State([Copying], [], 1, 1, linger, false, 0, 0);
    var s1 := Apply(s, CallClose);
    var s2 := Apply(s1, ReadLinger(0));
    var s3 := Apply(s2, EndCopy(0));
    assert Apply(s3, Leave(0)) == State([Gone], [Waiting(linger, false)], 0, 0, linger, false, 0, 0);
    LegalCons(s3, Leave(0), []);
    LegalCons(s2, EndCopy(0), [Leave(0)]);
    LegalCons(s1, ReadLinger(0), [EndCopy(0), Leave(0)]);
    LegalCons(s, CallClose, [ReadLinger(0), EndCopy(0), Leave(0)]);
  }

  lemma CallCloses(linger: int)
    ensures var s := State([Gone], [Waiting(linger, false)], 0, 0, linger, false, 0, 0);
            var steps := [GroupEmpty(0), StopWaiting(0), CloseBody(0)];
            Legal(s, steps) && Play(s, steps) == State([Gone], [Returned(true)], 0, 0, linger, true, 1, 1)
  {
    var s := State([Gone], [Waiting(linger, false)], 0, 0, linger, false, 0, 0);
    var s1 := Apply(s, GroupEmpty(0));
    var s2 := Apply(s1, StopWaiting(0));
    LegalCons(s2, CloseBody(0), []);
    LegalCons(s1, StopWaiting(0), [CloseBody(0)]);
    LegalCons(s, GroupEmpty(0), [StopWaiting(0), CloseBody(0)]);
  }

  lemma {:induction false} PlayAppend(s: State, steps: seq<Step>, more: seq<Step>)
    requires Legal(s, steps) && Legal(Play(s, steps), more)
    ensures Legal(s, steps + more) && Play(s, steps + more) == Play(Play(s, steps), more)
    decreases |steps|
  {
    if steps == [] {
      assert steps + more == more;
    } else {
      PlayAppend(Apply(s, steps[0]), steps[1..], more);
      assert (steps + more)[0] == steps[0] && (steps + more)[1..] == steps[1..] + more;
    }
  }

  // Under any linger but zero, a call of Close while a pump is copying can wait for it and then close the node.
  lemma CloseWaitsForPump(linger: int)
    requires linger != 0
    ensures Legal(INIT, PumpedClose(linger))
    ensures Play(INIT, PumpedClose(linger)) == State([Gone], [Returned(true)], 0, 0, linger, true, 1, 1)
  {
    var first := [SetLinger(linger), SpawnPump, Register(0), BeginCopy(0)];
    var second := [CallClose, ReadLinger(0), EndCopy(0), Leave(0)];
    var third := [GroupEmpty(0), StopWaiting(0), CloseBody(0)];
    PumpRuns(linger);
    CallWaits(linger);
    CallCloses(linger);
    PlayAppend(State([Copying], [], 1, 1, linger, false, 0, 0), second, third);
    PlayAppend(INIT, first, second + third);
    assert PumpedClose(linger) == first + (second + third);
  }
}
