/**
  Sessions whose provider is on time: it samples every second, publishes a sample after exactly ten seconds, looks every
  100 ms whether a check is due, and judges exactly at the end of the grace period.
*/
module Timing {
  import opened Billing
  import opened Session

  const SAMPLE_INTERVAL: int := 1000 // milliseconds
  const POLL_INTERVAL: int := 100

  // A state, and the time of the last sample.
  datatype Moment = Moment(s: State, last: int)

  // While the session is open, time may pass only up to the next thing that the provider does on its own.
  predicate MayTick(m: Moment, ms: nat) {
    && ms <= POLL_INTERVAL
    && m.s.clock + ms <= m.last + SAMPLE_INTERVAL
    && (forall i :: 0 <= i < |m.s.pending| ==> m.s.clock + ms <= m.s.pending[i].time + TRAFFIC_DELAY)
    && !Enabled(m.s, BeginGrace)
    && (m.s.check.Grace? ==> m.s.clock + ms <= m.s.check.until)
  }

  predicate OnTime(m: Moment, step: Step) {
    match step
    case Tick(ms) => m.s.books.isClosed || MayTick(m, ms)
    case TakeSample => m.s.clock == m.last + SAMPLE_INTERVAL
    case _ => true
  }

  function After(m: Moment, step: Step): Moment
    requires Enabled(m.s, step)
  {
    Moment(Apply(m.s, step), if step.TakeSample? then m.s.clock else m.last)
  }

  predicate Timely(m: Moment, steps: seq<Step>)
    requires Legal(m.s, steps)
    decreases |steps|
  {
    steps == [] || (OnTime(m, steps[0]) && Timely(After(m, steps[0]), steps[1..]))
  }

  // Every judgement of the run is made in such a state.
  predicate JudgedIn(s: State, steps: seq<Step>, ok: State -> bool)
    requires Legal(s, steps)
    decreases |steps|
  {
    steps == [] || ((steps[0].Judge? ==> ok(s)) && JudgedIn(Apply(s, steps[0]), steps[1..], ok))
  }

  function PaidAt(floor: nat): State -> bool {
    (s: State) => s.check.Grace? && PaidUp(s, s.check.sample, floor)
  }

  lemma {:induction false} JudgedPaidUp(s: State, steps: seq<Step>, floor: nat)
    requires Legal(s, steps) && JudgedIn(s, steps, PaidAt(floor))
    ensures AlwaysPaidUp(s, steps, floor)
    decreases |steps|
  {
    if steps != [] {
      JudgedPaidUp(Apply(s, steps[0]), steps[1..], floor);
    }
  }

  /* ----- Paths ----- */

  predicate CanDo(m: Moment, step: Step, ok: State -> bool) {
    Enabled(m.s, step) && OnTime(m, step) && (step.Judge? ==> ok(m.s))
  }

  predicate Path(m: Moment, steps: seq<Step>, m': Moment, ok: State -> bool)
    decreases |steps|
  {
    if steps == [] then m == m' else CanDo(m, steps[0], ok) && Path(After(m, steps[0]), steps[1..], m', ok)
  }

  ghost predicate Reaches(m: Moment, m': Moment, ok: State -> bool) {
    exists steps :: Path(m, steps, m', ok)
  }

  lemma {:induction false} PathIsRun(m: Moment, steps: seq<Step>, m': Moment, ok: State -> bool)
    requires Path(m, steps, m', ok)
    ensures Legal(m.s, steps) && Play(m.s, steps) == m'.s && Timely(m, steps) && JudgedIn(m.s, steps, ok)
    decreases |steps|
  {
    if steps != [] {
      PathIsRun(After(m, steps[0]), steps[1..], m', ok);
    }
  }

  lemma {:induction false} PathAppend(m: Moment, steps: seq<Step>, m': Moment, more: seq<Step>, m'': Moment, ok: State -> bool)
    requires Path(m, steps, m', ok) && Path(m', more, m'', ok)
    ensures Path(m, steps + more, m'', ok)
    decreases |steps|
  {
    if steps == [] {
      assert steps + more == more;
    } else {
      PathAppend(After(m, steps[0]), steps[1..], m', more, m'', ok);
      assert (steps + more)[0] == steps[0] && (steps + more)[1..] == steps[1..] + more;
    }
  }

  lemma Stays(m: Moment, ok: State -> bool)
    ensures Reaches(m, m, ok)
  {
    assert Path(m, [], m, ok);
  }

  lemma ReachesOn(m: Moment, m': Moment, m'': Moment, ok: State -> bool)
    requires Reaches(m, m', ok) && Reaches(m', m'', ok)
    ensures Reaches(m, m'', ok)
  {
    var steps :| Path(m, steps, m', ok);
    var more :| Path(m', more, m'', ok);
    PathAppend(m, steps, m', more, m'', ok);
  }

  lemma OneStep(m: Moment, steps: seq<Step>, ok: State -> bool)
    requires |steps| == 1 && CanDo(m, steps[0], ok)
    ensures Path(m, steps, After(m, steps[0]), ok)
  {
    assert steps[1..] == [];
  }

  lemma ReachesBy(m: Moment, step: Step, ok: State -> bool)
    requires CanDo(m, step, ok)
    ensures Reaches(m, After(m, step), ok)
  {
    var steps := [step];
    OneStep(m, steps, ok);
    assert Path(m, steps, After(m, step), ok);
  }

  lemma InvStays(s: State, step: Step)
    requires Inv(s) && Enabled(s, step)
    ensures Inv(Apply(s, step))
  {
    StepKeepsTraffic(s, step);
    StepKeepsBooks(s, step);
    StepKeepsPayments(s, step);
    StepKeepsSamples(s, step);
  }

  /* ----- A provider left to itself ----- */

  // Nothing but the clock and what the provider does on its own has changed.
  predicate Frame(s: State, s': State) {
    && s' == s.(clock := s'.clock, pending := s'.pending, delayed := s'.delayed, check := s'.check,
                books := s.books.(isClosed := s'.books.isClosed))
    && s.clock <= s'.clock
  }

  lemma FrameCounts(s: State, s': State, g: Gauge)
    requires Frame(s, s')
    ensures Count(s', g) == Count(s, g)
  {
  }

  lemma FrameNow(s: State, s': State)
    requires Frame(s, s')
    ensures Now(s').cost == Now(s).cost && Now(s').bytes == Now(s).bytes
  {
    FrameCounts(s, s', MeterUp);
    FrameCounts(s, s', MeterDown);
  }

  // However long the provider is left to itself, judgements stay of this kind.
  ghost predicate Tolerates(s: State, ok: State -> bool) {
    forall s' :: Frame(s, s') && s'.check.Grace? && SampleOk(s', s'.check.sample) ==> ok(s')
  }

  lemma StillTolerates(s: State, s': State, ok: State -> bool)
    requires Tolerates(s, ok) && Frame(s, s')
    ensures Tolerates(s', ok)
  {
    forall s'' | Frame(s', s'') && s''.check.Grace? && SampleOk(s'', s''.check.sample)
      ensures ok(s'')
    {
      assert Frame(s, s'');
    }
  }

  // The provider is not late with anything.
  predicate Prompt(m: Moment) {
    && m.last <= m.s.clock <= m.last + SAMPLE_INTERVAL
    && (forall i :: 0 <= i < |m.s.pending| ==> m.s.clock <= m.s.pending[i].time + TRAFFIC_DELAY)
    && (m.s.check.Grace? ==> m.s.clock <= m.s.check.until <= m.s.clock + MAX_NANO_PAY_DELAY)
  }

  ghost predicate Calm(m: Moment, ok: State -> bool) {
    Inv(m.s) && Prompt(m) && !m.s.books.isClosed && Tolerates(m.s, ok)
  }

  /* What the samples of an idle session come to: all that were taken after the time t0 show the present totals. */

  predicate IsFull(s: State, x: Sample) {
    x.up == Count(s, MeterUp) && x.down == Count(s, MeterDown)
  }

  predicate Arrived(m: Moment, t0: int) {
    m.s.delayed.Some? && m.s.delayed.value.time > t0
  }

  predicate OnItsWay(m: Moment, t0: int, i: nat) {
    i < |m.s.pending| && t0 < m.s.pending[i].time <= t0 + SAMPLE_INTERVAL
  }

  // `due` is a time by which a full sample has been published.
  ghost predicate Follows(m: Moment, t0: int, due: int) {
    && due > t0 + SAMPLE_INTERVAL + TRAFFIC_DELAY
    && (forall i :: 0 <= i < |m.s.pending| && m.s.pending[i].time > t0 ==> IsFull(m.s, m.s.pending[i]))
    && (Arrived(m, t0) ==> IsFull(m.s, m.s.delayed.value))
    && (m.last > t0 ==> Arrived(m, t0) || exists i: nat :: OnItsWay(m, t0, i))
    && (m.s.check.Grace? ==> IsFull(m.s, m.s.check.sample) || m.s.check.until <= due + MAX_NANO_PAY_DELAY)
  }

  lemma FullHasArrived(m: Moment, t0: int, due: int)
    requires Prompt(m) && Follows(m, t0, due) && m.s.clock >= due
    ensures Arrived(m, t0) && IsFull(m.s, m.s.delayed.value)
  {
  }

  /* One thing the provider does on its own, or a millisecond passing. */

  predicate OnItsOwn(m: Moment, step: Step) {
    && Enabled(m.s, step) && OnTime(m, step)
    && match step
       case Tick(ms) => true
       case Publish(j) => m.s.pending[j].time + TRAFFIC_DELAY == m.s.clock
       case Judge => true
       case BeginGrace => true
       case TakeSample => true
       case _ => false
  }

  lemma OwnStepFrames(m: Moment, step: Step)
    requires OnItsOwn(m, step)
    ensures Frame(m.s, Apply(m.s, step))
  {
  }

  lemma OwnStepIsPrompt(m: Moment, step: Step)
    requires OnItsOwn(m, step) && Prompt(m) && !m.s.books.isClosed
    ensures Prompt(After(m, step))
  {
  }

  lemma OwnStepKeepsCalm(m: Moment, step: Step, ok: State -> bool)
    requires OnItsOwn(m, step) && Calm(m, ok)
    ensures Reaches(m, After(m, step), ok) && Frame(m.s, After(m, step).s) && Inv(After(m, step).s)
    ensures After(m, step).s.books.isClosed || Calm(After(m, step), ok)
  {
    OwnStepFrames(m, step);
    OwnStepIsPrompt(m, step);
    InvStays(m.s, step);
    if step.Judge? {
      assert Frame(m.s, m.s) && SampleOk(m.s, m.s.check.sample);
    }
    ReachesBy(m, step, ok);
    StillTolerates(m.s, After(m, step).s, ok);
  }

  lemma PublishFollows(m: Moment, j: nat, t0: int, due: int)
    requires OnItsOwn(m, Publish(j)) && Prompt(m) && SamplesOk(m.s) && Follows(m, t0, due)
    ensures Follows(After(m, Publish(j)), t0, due)
  {
    var m' := After(m, Publish(j));
    FrameCounts(m.s, m'.s, MeterUp);
    FrameCounts(m.s, m'.s, MeterDown);
    forall i | 0 <= i < |m'.s.pending| && m'.s.pending[i].time > t0
      ensures IsFull(m'.s, m'.s.pending[i])
    {
      assert m'.s.pending[i] == m.s.pending[if i < j then i else i + 1];
    }
    if m.last > t0 && !Arrived(m, t0) {
      var i: nat :| OnItsWay(m, t0, i);
      if i != j {
        assert OnItsWay(m', t0, if i < j then i else i - 1);
      }
    }
  }

  lemma SampleFollows(m: Moment, t0: int, due: int)
    requires OnItsOwn(m, TakeSample) && Prompt(m) && Follows(m, t0, due)
    ensures Follows(After(m, TakeSample), t0, due)
  {
    var m' := After(m, TakeSample);
    FrameCounts(m.s, m'.s, MeterUp);
    FrameCounts(m.s, m'.s, MeterDown);
    if m.last > t0 && !Arrived(m, t0) {
      var i: nat :| OnItsWay(m, t0, i);
      assert OnItsWay(m', t0, i);
    } else if m.s.clock > t0 && m.last <= t0 {
      assert OnItsWay(m', t0, |m.s.pending|);
    }
  }

  lemma GraceFollows(m: Moment, t0: int, due: int)
    requires OnItsOwn(m, BeginGrace) && Prompt(m) && Follows(m, t0, due)
    ensures Follows(After(m, BeginGrace), t0, due)
  {
    var m' := After(m, BeginGrace);
    FrameCounts(m.s, m'.s, MeterUp);
    FrameCounts(m.s, m'.s, MeterDown);
    if m.s.clock >= due {
      FullHasArrived(m, t0, due);
    }
    if i: nat :| OnItsWay(m, t0, i) {
      assert OnItsWay(m', t0, i);
    }
  }

  lemma OtherFollows(m: Moment, step: Step, t0: int, due: int)
    requires OnItsOwn(m, step) && (step.Tick? || step.Judge?) && Follows(m, t0, due)
    ensures Follows(After(m, step), t0, due)
  {
    var m' := After(m, step);
    FrameCounts(m.s, m'.s, MeterUp);
    FrameCounts(m.s, m'.s, MeterDown);
    if i: nat :| OnItsWay(m, t0, i) {
      assert OnItsWay(m', t0, i);
    }
  }

  lemma OwnStepFollows(m: Moment, step: Step, t0: int, due: int)
    requires OnItsOwn(m, step) && Prompt(m) && SamplesOk(m.s) && Follows(m, t0, due)
    ensures Follows(After(m, step), t0, due)
  {
    match step
    case Publish(j) => PublishFollows(m, j, t0, due);
    case TakeSample => SampleFollows(m, t0, due);
    case BeginGrace => GraceFollows(m, t0, due);
    case _ => OtherFollows(m, step, t0, due);
  }

  /* Everything that is due now, and then a millisecond. */

  // From one moment to another by itself; the session may get closed on the way.
  ghost predicate Drifts(m: Moment, m': Moment, ok: State -> bool, t0: int, due: int) {
    && Reaches(m, m', ok) && Frame(m.s, m'.s)
    && (m'.s.books.isClosed || (Calm(m', ok) && Follows(m', t0, due)))
  }

  lemma FrameOn(s: State, s': State, s'': State)
    requires Frame(s, s') && Frame(s', s'')
    ensures Frame(s, s'')
  {
  }

  lemma DriftsOn(m: Moment, m': Moment, m'': Moment, ok: State -> bool, t0: int, due: int)
    requires Drifts(m, m', ok, t0, due) && Drifts(m', m'', ok, t0, due)
    ensures Drifts(m, m'', ok, t0, due)
  {
    ReachesOn(m, m', m'', ok);
    FrameOn(m.s, m'.s, m''.s);
  }

  lemma DriftsBy(m: Moment, step: Step, ok: State -> bool, t0: int, due: int)
    requires OnItsOwn(m, step) && Calm(m, ok) && Follows(m, t0, due)
    ensures Drifts(m, After(m, step), ok, t0, due)
  {
    OwnStepKeepsCalm(m, step, ok);
    OwnStepFollows(m, step, t0, due);
  }

  lemma DriftsHere(m: Moment, ok: State -> bool, t0: int, due: int)
    requires Calm(m, ok) && Follows(m, t0, due)
    ensures Drifts(m, m, ok, t0, due)
  {
    Stays(m, ok);
  }

  predicate AllPublished(m: Moment) {
    forall i :: 0 <= i < |m.s.pending| ==> m.s.clock < m.s.pending[i].time + TRAFFIC_DELAY
  }

  lemma {:induction false} PublishDue(m: Moment, ok: State -> bool, t0: int, due: int) returns (m': Moment)
    requires Calm(m, ok) && Follows(m, t0, due)
    ensures Drifts(m, m', ok, t0, due) && AllPublished(m') && !m'.s.books.isClosed
    ensures m'.last == m.last && m'.s.clock == m.s.clock && m'.s.check == m.s.check
    decreases |m.s.pending|
  {
    if AllPublished(m) {
      DriftsHere(m, ok, t0, due);
      m' := m;
    } else {
      var j :| 0 <= j < |m.s.pending| && m.s.clock >= m.s.pending[j].time + TRAFFIC_DELAY;
      var m1 := After(m, Publish(j));
      DriftsBy(m, Publish(j), ok, t0, due);
      m' := PublishDue(m1, ok, t0, due);
      DriftsOn(m, m1, m', ok, t0, due);
    }
  }

  predicate Judged(m: Moment) {
    m.s.check.Grace? ==> m.s.clock < m.s.check.until
  }

  // What the cut-off makes of a sample.
  predicate WouldClose(s: State, x: Sample) {
    x.bytes > 0 && Provider.Closes(s.books.lastPaymentAmount, x.cost, x.bytes)
  }

  lemma JudgeDue(m: Moment, ok: State -> bool, t0: int, due: int) returns (m': Moment)
    requires Calm(m, ok) && Follows(m, t0, due) && AllPublished(m)
    ensures Drifts(m, m', ok, t0, due) && AllPublished(m') && Judged(m')
    ensures m'.last == m.last && m'.s.clock == m.s.clock
    ensures Judged(m) ==> m' == m
    ensures !Judged(m) && WouldClose(m.s, m.s.check.sample) ==> m'.s.books.isClosed
  {
    if Judged(m) {
      DriftsHere(m, ok, t0, due);
      m' := m;
    } else {
      NoBytesNoCost(m.s.prices);
      DriftsBy(m, Judge, ok, t0, due);
      m' := After(m, Judge);
    }
  }

  predicate Checked(m: Moment) {
    !Enabled(m.s, BeginGrace)
  }

  lemma BeginDue(m: Moment, ok: State -> bool, t0: int, due: int) returns (m': Moment)
    requires Calm(m, ok) && Follows(m, t0, due) && AllPublished(m) && Judged(m)
    ensures Drifts(m, m', ok, t0, due) && !m'.s.books.isClosed && AllPublished(m') && Judged(m') && Checked(m')
    ensures m'.last == m.last && m'.s.clock == m.s.clock && (m.s.check.Grace? ==> m' == m)
  {
    if Checked(m) {
      DriftsHere(m, ok, t0, due);
      m' := m;
    } else {
      DriftsBy(m, BeginGrace, ok, t0, due);
      m' := After(m, BeginGrace);
    }
  }

  lemma SampleDue(m: Moment, ok: State -> bool, t0: int, due: int) returns (m': Moment)
    requires Calm(m, ok) && Follows(m, t0, due) && AllPublished(m) && Judged(m) && Checked(m)
    ensures Drifts(m, m', ok, t0, due) && !m'.s.books.isClosed && MayTick(m', 1)
    ensures m'.s.clock == m.s.clock && m'.s.check == m.s.check
  {
    if m.s.clock < m.last + SAMPLE_INTERVAL {
      DriftsHere(m, ok, t0, due);
      m' := m;
    } else {
      DriftsBy(m, TakeSample, ok, t0, due);
      m' := After(m, TakeSample);
    }
  }

  predicate Underpaid(s: State) {
    Now(s).cost > s.books.lastPaymentAmount
  }

  // A full sample has been published, the last payment is old, and the present totals are not paid for.
  predicate Watchful(m: Moment, due: int) {
    m.s.clock >= due && m.s.clock - m.s.books.lastPaymentTime > NANO_PAY_UPDATE_INTERVAL && Underpaid(m.s)
  }

  lemma WatchfulChecks(m: Moment, t0: int, due: int)
    requires Inv(m.s) && Prompt(m) && Follows(m, t0, due) && !m.s.books.isClosed && Checked(m) && Watchful(m, due)
    ensures m.s.check.Grace?
  {
    FullHasArrived(m, t0, due);
    FullIsNow(m.s, m.s.delayed.value);
  }

  // Publish and judge what is due, and begin a check that is due.
  lemma React(m: Moment, ok: State -> bool, t0: int, due: int) returns (m': Moment)
    requires Calm(m, ok) && Follows(m, t0, due)
    ensures Drifts(m, m', ok, t0, due) && m'.s.clock == m.s.clock
    ensures m'.s.books.isClosed || (AllPublished(m') && Judged(m') && Checked(m'))
    ensures !Judged(m) && WouldClose(m.s, m.s.check.sample) ==> m'.s.books.isClosed
    ensures Judged(m) && m.s.check.Grace? ==> !m'.s.books.isClosed && m'.s.check == m.s.check
  {
    var m1 := PublishDue(m, ok, t0, due);
    var m2 := JudgeDue(m1, ok, t0, due);
    DriftsOn(m, m1, m2, ok, t0, due);
    m' := m2;
    if !m2.s.books.isClosed {
      m' := BeginDue(m2, ok, t0, due);
      DriftsOn(m, m2, m', ok, t0, due);
    }
  }

  // Take a sample that is due, and let a millisecond pass.
  lemma SampleAndTick(m: Moment, ok: State -> bool, t0: int, due: int) returns (m': Moment)
    requires Calm(m, ok) && Follows(m, t0, due) && AllPublished(m) && Judged(m) && Checked(m)
    ensures Drifts(m, m', ok, t0, due) && !m'.s.books.isClosed
    ensures m'.s.clock == m.s.clock + 1 && m'.s.check == m.s.check
  {
    var m1 := SampleDue(m, ok, t0, due);
    DriftsBy(m1, Tick(1), ok, t0, due);
    m' := After(m1, Tick(1));
    DriftsOn(m, m1, m', ok, t0, due);
  }

  lemma Beat(m: Moment, ok: State -> bool, t0: int, due: int) returns (m': Moment)
    requires Calm(m, ok) && Follows(m, t0, due)
    ensures Drifts(m, m', ok, t0, due)
    ensures m'.s.books.isClosed || m'.s.clock == m.s.clock + 1
    ensures !Judged(m) && WouldClose(m.s, m.s.check.sample) ==> m'.s.books.isClosed
    ensures Judged(m) && m.s.check.Grace? ==> !m'.s.books.isClosed && m'.s.check == m.s.check
    ensures Watchful(m, due) && !m'.s.books.isClosed ==> m'.s.check.Grace?
  {
    var m1 := React(m, ok, t0, due);
    m' := m1;
    if !m1.s.books.isClosed {
      if Watchful(m, due) {
        FrameNow(m.s, m1.s);
        WatchfulChecks(m1, t0, due);
      }
      m' := SampleAndTick(m1, ok, t0, due);
      DriftsOn(m, m1, m', ok, t0, due);
    }
  }

  /* ----- The end of an underpaid session ----- */

  lemma {:induction false} Drift(m: Moment, ms: nat, ok: State -> bool, t0: int, due: int) returns (m': Moment)
    requires Calm(m, ok) && Follows(m, t0, due)
    ensures Drifts(m, m', ok, t0, due) && (m'.s.books.isClosed || m'.s.clock == m.s.clock + ms)
    decreases ms
  {
    if ms == 0 {
      DriftsHere(m, ok, t0, due);
      m' := m;
    } else {
      m' := Beat(m, ok, t0, due);
      if !m'.s.books.isClosed {
        var m1 := m';
        m' := Drift(m1, ms - 1, ok, t0, due);
        DriftsOn(m, m1, m', ok, t0, due);
      }
    }
  }

  // A full sample in its grace period is judged in time.
  lemma {:induction false} LastGrace(m: Moment, ok: State -> bool, t0: int, due: int) returns (m': Moment)
    requires Calm(m, ok) && Follows(m, t0, due) && m.s.check.Grace? && WouldClose(m.s, m.s.check.sample)
    ensures Drifts(m, m', ok, t0, due) && m'.s.books.isClosed
    decreases m.s.check.until - m.s.clock
  {
    m' := Beat(m, ok, t0, due);
    if !m'.s.books.isClosed {
      var m1 := m';
      m' := LastGrace(m1, ok, t0, due);
      DriftsOn(m, m1, m', ok, t0, due);
    }
  }

  lemma FollowsFrom(m: Moment, due: int)
    requires Inv(m.s) && Prompt(m) && due > m.s.clock + SAMPLE_INTERVAL + TRAFFIC_DELAY
    ensures Follows(m, m.s.clock, due)
  {
  }

  // An open session can be left alone for any time; it stays as it was, or gets closed.
  lemma Rest(m: Moment, ms: nat, ok: State -> bool) returns (m': Moment)
    requires Calm(m, ok)
    ensures Reaches(m, m', ok) && Frame(m.s, m'.s)
    ensures m'.s.books.isClosed || (Calm(m', ok) && m'.s.clock == m.s.clock + ms)
  {
    var due := m.s.clock + SAMPLE_INTERVAL + TRAFFIC_DELAY + 1;
    FollowsFrom(m, due);
    m' := Drift(m, ms, ok, m.s.clock, due);
  }

  lemma FullIsNow(s: State, x: Sample)
    requires SampleOk(s, x) && IsFull(s, x)
    ensures x.cost == Now(s).cost && x.bytes == Now(s).bytes
  {
  }

  // A session whose present totals do not stand up to the cut-off test, and which nobody uses or pays for any more, is
  // closed by a provider that is on time.
  lemma UnderpaidIsClosed(m: Moment, ok: State -> bool) returns (m': Moment)
    requires Calm(m, ok) && Underpaid(m.s) && WouldClose(m.s, Now(m.s))
    ensures Reaches(m, m', ok) && Frame(m.s, m'.s) && m'.s.books.isClosed
  {
    var t0 := m.s.clock;
    var soon, late := t0 + SAMPLE_INTERVAL + TRAFFIC_DELAY + 1, m.s.books.lastPaymentTime + NANO_PAY_UPDATE_INTERVAL + 1;
    var due := if soon < late then late else soon;
    FollowsFrom(m, due);
    var m1 := Drift(m, due + MAX_NANO_PAY_DELAY - t0, ok, t0, due);
    if m1.s.books.isClosed {
      return m1;
    }
    FrameNow(m.s, m1.s);
    var m2 := Beat(m1, ok, t0, due);
    DriftsOn(m, m1, m2, ok, t0, due);
    if m2.s.books.isClosed {
      return m2;
    }
    FrameNow(m.s, m2.s);
    FullIsNow(m2.s, m2.s.check.sample);
    m' := LastGrace(m2, ok, t0, due);
    DriftsOn(m, m2, m', ok, t0, due);
  }
}
