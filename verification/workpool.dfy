/**
  Measuring all candidate nodes with a pool of workers: the main goroutine feeds one job per node through a one-slot
  channel and a wait group, then sorts the nodes that answered by delay and keeps the fastest.
*/
module WorkPool {
  import opened Wrappers
  import opened Tallies

  // The result of dialling each node: its delay, or a failure.
  type Delays = seq<Option<real>>

  // The feeder is about to announce job `sent`, about to send it, waiting for all jobs, or through.
  datatype MainPc = Adding | Sending | WaitingAll | Finished

  datatype WorkerPc = Unstarted | Ready | Running(job: nat) | Finishing

  // `measured` is history: the jobs in the order they ran.
  datatype State = State(main: MainPc, sent: nat, waitGroup: int, slot: Option<nat>, workers: seq<WorkerPc>,
                         measured: seq<nat>, results: seq<nat>)

  datatype Step = Add | Send | StartWorker(w: nat) | Take(w: nat) | RunJob(w: nat) | Done(w: nat) | Wait

  function Init(jobs: nat, workers: nat): State {
    State(if jobs == 0 then WaitingAll else Adding, 0, 0, None, seq(workers, _ => Unstarted), [], [])
  }

  predicate Enabled(s: State, step: Step) {
    match step
    case Add => s.main == Adding
    case Send => s.main == Sending && s.slot == None
    case StartWorker(w) => w < |s.workers| && s.workers[w] == Unstarted
    case Take(w) => w < |s.workers| && s.workers[w] == Ready && s.slot.Some?
    case RunJob(w) => w < |s.workers| && s.workers[w].Running?
    case Done(w) => w < |s.workers| && s.workers[w] == Finishing
    case Wait => s.main == WaitingAll && s.waitGroup == 0
  }

  function Apply(d: Delays, s: State, step: Step): State
    requires Enabled(s, step)
  {
    match step
    case Add => s.(main := Sending, waitGroup := s.waitGroup + 1)
    case Send => s.(main := if s.sent + 1 < |d| then Adding else WaitingAll, sent := s.sent + 1, slot := Some(s.sent))
    case StartWorker(w) => s.(workers := s.workers[w := Ready])
    case Take(w) => s.(workers := s.workers[w := Running(s.slot.value)], slot := None)
    case RunJob(w) =>
      var job := s.workers[w].job;
      s.(workers := s.workers[w := Finishing], measured := s.measured + [job],
         results := if Succeeds(d, job) then s.results + [job] else s.results)
    case Done(w) => s.(workers := s.workers[w := Ready], waitGroup := s.waitGroup - 1)
    case Wait => s.(main := Finished)
  }

  predicate Succeeds(d: Delays, job: nat) {
    job < |d| && d[job].Some?
  }

  predicate Legal(d: Delays, s: State, steps: seq<Step>)
    decreases |steps|
  {
    steps == [] || (Enabled(s, steps[0]) && Legal(d, Apply(d, s, steps[0]), steps[1..]))
  }

  function Play(d: Delays, s: State, steps: seq<Step>): State
    requires Legal(d, s, steps)
    decreases |steps|
  {
    if steps == [] then s else Play(d, Apply(d, s, steps[0]), steps[1..])
  }

  /* ----- Tallies over the workers ----- */

  function IsRunning(pc: WorkerPc): nat {
    if pc.Running? then 1 else 0
  }

  function IsFinishing(pc: WorkerPc): nat {
    if pc.Finishing? then 1 else 0
  }

  function Runs(job: nat): WorkerPc -> nat {
    pc => if pc == Running(job) then 1 else 0
  }

  function Times(jobs: seq<nat>, job: nat): nat {
    if jobs == [] then 0 else Times(jobs[..|jobs| - 1], job) + if jobs[|jobs| - 1] == job then 1 else 0
  }

  // Where a job is: in the slot, on a worker, or measured.
  function Places(s: State, job: nat): nat {
    (if s.slot == Some(job) then 1 else 0) + Tally(s.workers, Runs(job)) + Times(s.measured, job)
  }

  function Successes(d: Delays, jobs: seq<nat>): seq<nat> {
    if jobs == [] then []
    else
      Successes(d, jobs[..|jobs| - 1]) + if Succeeds(d, jobs[|jobs| - 1]) then [jobs[|jobs| - 1]] else []
  }

  /* ----- Invariant ----- */

  predicate MainOk(d: Delays, s: State) {
    && (s.main.Adding? || s.main.Sending? ==> s.sent < |d|)
    && (s.main.WaitingAll? || s.main.Finished? ==> s.sent == |d|)
  }

  function Added(s: State): nat {
    if s.main.Sending? then s.sent + 1 else s.sent
  }

  function InSlot(s: State): nat {
    if s.slot.Some? then 1 else 0
  }

  predicate CountsOk(s: State) {
    && s.sent == InSlot(s) + Tally(s.workers, IsRunning) + |s.measured|
    && s.waitGroup == Added(s) - |s.measured| + Tally(s.workers, IsFinishing)
  }

  ghost predicate PlacesOk(s: State) {
    forall job: nat :: Places(s, job) == if job < s.sent then 1 else 0
  }

  ghost predicate Inv(d: Delays, s: State) {
    && MainOk(d, s) && CountsOk(s) && PlacesOk(s)
    && s.results == Successes(d, s.measured)
    && (s.main.Finished? ==> s.waitGroup == 0)
  }

  lemma {:induction false} InitTally(workers: nat, weight: WorkerPc -> nat)
    requires weight(Unstarted) == 0
    ensures Tally(seq(workers, _ => Unstarted), weight) == 0
  {
    if workers > 0 {
      InitTally(workers - 1, weight);
      var all := seq(workers, _ => Unstarted);
      assert all[..workers - 1] == seq(workers - 1, _ => Unstarted);
    }
  }

  lemma InitInv(d: Delays, workers: nat)
    ensures Inv(d, Init(|d|, workers))
  {
    InitTally(workers, IsRunning);
    InitTally(workers, IsFinishing);
    forall job: nat
      ensures Places(Init(|d|, workers), job) == 0
    {
      InitTally(workers, Runs(job));
    }
  }

  lemma StepTally(d: Delays, s: State, step: Step, weight: WorkerPc -> nat)
    requires Enabled(s, step)
    ensures var s' := Apply(d, s, step);
            match step
            case StartWorker(w) => Tally(s'.workers, weight) + weight(Unstarted) == Tally(s.workers, weight) + weight(Ready)
            case Take(w) =>
              Tally(s'.workers, weight) + weight(Ready) == Tally(s.workers, weight) + weight(Running(s.slot.value))
            case RunJob(w) => Tally(s'.workers, weight) + weight(s.workers[w]) == Tally(s.workers, weight) + weight(Finishing)
            case Done(w) => Tally(s'.workers, weight) + weight(Finishing) == Tally(s.workers, weight) + weight(Ready)
            case _ => s'.workers == s.workers
  {
    match step
    case StartWorker(w) => TallyUpdate(s.workers, w, Ready, weight);
    case Take(w) => TallyUpdate(s.workers, w, Running(s.slot.value), weight);
    case RunJob(w) => TallyUpdate(s.workers, w, Finishing, weight);
    case Done(w) => TallyUpdate(s.workers, w, Ready, weight);
    case _ =>
  }

  lemma StepKeepsCounts(d: Delays, s: State, step: Step)
    requires CountsOk(s) && Enabled(s, step)
    ensures CountsOk(Apply(d, s, step))
  {
    StepTally(d, s, step, IsRunning);
    StepTally(d, s, step, IsFinishing);
  }

  lemma StepKeepsPlaces(d: Delays, s: State, step: Step)
    requires PlacesOk(s) && Enabled(s, step)
    ensures PlacesOk(Apply(d, s, step))
  {
    var s' := Apply(d, s, step);
    forall job: nat
      ensures Places(s', job) == if job < s'.sent then 1 else 0
    {
      assert Places(s, job) == if job < s.sent then 1 else 0;
      StepTally(d, s, step, Runs(job));
      if step.RunJob? {
        assert s'.measured[..|s'.measured| - 1] == s.measured;
      }
    }
  }

  lemma StepKeepsResults(d: Delays, s: State, step: Step)
    requires s.results == Successes(d, s.measured) && Enabled(s, step)
    ensures Apply(d, s, step).results == Successes(d, Apply(d, s, step).measured)
  {
    if step.RunJob? {
      var job := s.workers[step.w].job;
      assert (s.measured + [job])[..|s.measured|] == s.measured;
    }
  }

  // After the feeder is through, the wait group stays empty.
  lemma StepKeepsGroupEmpty(d: Delays, s: State, step: Step)
    requires MainOk(d, s) && CountsOk(s) && s.main.Finished? && s.waitGroup == 0 && Enabled(s, step)
    ensures Apply(d, s, step).waitGroup == 0
  {
    AllDone(d, s);
    if step.Done? {
      TallyAtLeast(s.workers, step.w, IsFinishing);
    }
  }

  lemma StepKeepsInv(d: Delays, s: State, step: Step)
    requires Inv(d, s) && Enabled(s, step)
    ensures Inv(d, Apply(d, s, step))
  {
    StepKeepsCounts(d, s, step);
    StepKeepsPlaces(d, s, step);
    StepKeepsResults(d, s, step);
    if s.main.Finished? {
      StepKeepsGroupEmpty(d, s, step);
    }
  }

  // Once everything is sent, an empty wait group leaves nothing in the slot and nobody at work.
  lemma AllDone(d: Delays, s: State)
    requires CountsOk(s) && s.sent == |d| && !s.main.Sending? && s.waitGroup == 0
    ensures |s.measured| == |d| && s.slot == None
    ensures Tally(s.workers, IsRunning) == 0 && Tally(s.workers, IsFinishing) == 0
  {
  }

  lemma {:induction false} PlayKeepsInv(d: Delays, s: State, steps: seq<Step>)
    requires Inv(d, s) && Legal(d, s, steps)
    ensures Inv(d, Play(d, s, steps))
    decreases |steps|
  {
    if steps != [] {
      StepKeepsInv(d, s, steps[0]);
      PlayKeepsInv(d, Apply(d, s, steps[0]), steps[1..]);
    }
  }

  lemma {:induction false} NoRunnerNoRuns(workers: seq<WorkerPc>, job: nat)
    requires Tally(workers, IsRunning) == 0
    ensures Tally(workers, Runs(job)) == 0
  {
    if workers != [] {
      NoRunnerNoRuns(workers[..|workers| - 1], job);
    }
  }

  lemma {:induction false} TimesOfSuccesses(d: Delays, jobs: seq<nat>, job: nat)
    ensures Times(Successes(d, jobs), job) == if Succeeds(d, job) then Times(jobs, job) else 0
  {
    if jobs != [] {
      var front, last := jobs[..|jobs| - 1], jobs[|jobs| - 1];
      TimesOfSuccesses(d, front, job);
      if Succeeds(d, last) {
        assert (Successes(d, front) + [last])[..|Successes(d, front)|] == Successes(d, front);
      } else {
        assert Successes(d, front) + [] == Successes(d, front);
      }
    }
  }

  // When the feeder gets past the wait group, each node was measured exactly once and each success recorded exactly once.
  lemma FinishedMeasuresAll(d: Delays, workers: nat, steps: seq<Step>, job: nat)
    requires Legal(d, Init(|d|, workers), steps) && Play(d, Init(|d|, workers), steps).main.Finished?
    ensures var s := Play(d, Init(|d|, workers), steps);
            && Times(s.measured, job) == (if job < |d| then 1 else 0)
            && Times(s.results, job) == (if job < |d| && d[job].Some? then 1 else 0)
  {
    InitInv(d, workers);
    PlayKeepsInv(d, Init(|d|, workers), steps);
    var s := Play(d, Init(|d|, workers), steps);
    AllDone(d, s);
    NoRunnerNoRuns(s.workers, job);
    assert Places(s, job) == if job < s.sent then 1 else 0;
    TimesOfSuccesses(d, s.measured, job);
  }

  /* ----- Sorting and truncation ----- */

  ghost predicate InDelayOrder(d: Delays, jobs: seq<nat>) {
    forall i, j :: 0 <= i < j < |jobs| && Succeeds(d, jobs[i]) && Succeeds(d, jobs[j]) ==>
      d[jobs[i]].value <= d[jobs[j]].value
  }

  // What an in-place sort by a less-than on delays may leave behind.
  ghost predicate SortedFrom(d: Delays, before: seq<nat>, after: seq<nat>) {
    multiset(after) == multiset(before) && InDelayOrder(d, after)
  }

  function Kept(sorted: seq<nat>, limit: nat): seq<nat> {
    if |sorted| > limit then sorted[..limit] else sorted
  }

  lemma {:induction false} TimesIsMultiplicity(jobs: seq<nat>, job: nat)
    ensures Times(jobs, job) == multiset(jobs)[job]
  {
    if jobs != [] {
      TimesIsMultiplicity(jobs[..|jobs| - 1], job);
      assert jobs == jobs[..|jobs| - 1] + [jobs[|jobs| - 1]];
    }
  }

  // Sorting keeps each success exactly once.
  lemma SortedHoldsSuccesses(d: Delays, workers: nat, steps: seq<Step>, sorted: seq<nat>, job: nat)
    requires Legal(d, Init(|d|, workers), steps) && Play(d, Init(|d|, workers), steps).main.Finished?
    requires SortedFrom(d, Play(d, Init(|d|, workers), steps).results, sorted)
    ensures multiset(sorted)[job] == if Succeeds(d, job) then 1 else 0
  {
    FinishedMeasuresAll(d, workers, steps, job);
    TimesIsMultiplicity(Play(d, Init(|d|, workers), steps).results, job);
  }

  // Distinct successful nodes.
  ghost predicate SuccessesOnce(d: Delays, kept: seq<nat>) {
    forall i :: 0 <= i < |kept| ==> Succeeds(d, kept[i]) && multiset(kept)[kept[i]] == 1
  }

  // No successful node left out is faster than one that was kept.
  ghost predicate NoneFasterLeftOut(d: Delays, kept: seq<nat>) {
    forall i, job: nat :: 0 <= i < |kept| && Succeeds(d, kept[i]) && Succeeds(d, job) && job !in kept ==>
      d[kept[i]].value <= d[job].value
  }

  ghost predicate CompleteUnlessFull(d: Delays, kept: seq<nat>, limit: nat) {
    && |kept| <= limit
    && (|kept| < limit ==> forall job :: Succeeds(d, job) ==> job in kept)
  }

  ghost predicate FastestOf(d: Delays, kept: seq<nat>, limit: nat) {
    SuccessesOnce(d, kept) && InDelayOrder(d, kept) && NoneFasterLeftOut(d, kept) && CompleteUnlessFull(d, kept, limit)
  }

  ghost predicate OnceEach(d: Delays, sorted: seq<nat>) {
    forall job: nat :: multiset(sorted)[job] == if Succeeds(d, job) then 1 else 0
  }

  lemma KeptOnce(d: Delays, sorted: seq<nat>, limit: nat, i: nat)
    requires OnceEach(d, sorted) && i < |Kept(sorted, limit)|
    ensures Succeeds(d, Kept(sorted, limit)[i]) && multiset(Kept(sorted, limit))[Kept(sorted, limit)[i]] == 1
  {
    var kept := Kept(sorted, limit);
    assert sorted == kept + sorted[|kept|..];
    assert multiset(sorted) == multiset(kept) + multiset(sorted[|kept|..]);
    assert kept[i] in multiset(kept);
  }

  lemma LeftOut(d: Delays, sorted: seq<nat>, limit: nat, job: nat) returns (j: nat)
    requires OnceEach(d, sorted) && Succeeds(d, job) && job !in Kept(sorted, limit)
    ensures |Kept(sorted, limit)| <= j < |sorted| && sorted[j] == job
  {
    var kept := Kept(sorted, limit);
    var cut := sorted[|kept|..];
    assert sorted == kept + cut;
    assert job in multiset(sorted);
    var k :| 0 <= k < |cut| && cut[k] == job;
    j := |kept| + k;
  }

  lemma KeptAreOnce(d: Delays, sorted: seq<nat>, limit: nat)
    requires OnceEach(d, sorted)
    ensures SuccessesOnce(d, Kept(sorted, limit))
  {
    forall i | 0 <= i < |Kept(sorted, limit)|
      ensures Succeeds(d, Kept(sorted, limit)[i]) && multiset(Kept(sorted, limit))[Kept(sorted, limit)[i]] == 1
    {
      KeptOnce(d, sorted, limit, i);
    }
  }

  lemma KeptBeatsLeftOut(d: Delays, sorted: seq<nat>, limit: nat, i: nat, job: nat)
    requires InDelayOrder(d, sorted) && OnceEach(d, sorted)
    requires i < |Kept(sorted, limit)| && Succeeds(d, Kept(sorted, limit)[i]) && Succeeds(d, job) && job !in Kept(sorted, limit)
    ensures d[Kept(sorted, limit)[i]].value <= d[job].value
  {
    var j := LeftOut(d, sorted, limit, job);
    assert sorted[i] == Kept(sorted, limit)[i];
  }

  lemma KeptIsComplete(d: Delays, sorted: seq<nat>, limit: nat)
    requires OnceEach(d, sorted)
    ensures CompleteUnlessFull(d, Kept(sorted, limit), limit)
  {
    if |Kept(sorted, limit)| < limit {
      forall job | Succeeds(d, job)
        ensures job in Kept(sorted, limit)
      {
        if job !in Kept(sorted, limit) {
          var j := LeftOut(d, sorted, limit, job);
        }
      }
    }
  }

  lemma KeptInOrder(d: Delays, sorted: seq<nat>, limit: nat)
    requires InDelayOrder(d, sorted)
    ensures InDelayOrder(d, Kept(sorted, limit))
  {
  }

  lemma KeptAreFastest(d: Delays, sorted: seq<nat>, limit: nat)
    requires InDelayOrder(d, sorted) && OnceEach(d, sorted)
    ensures FastestOf(d, Kept(sorted, limit), limit)
  {
    KeptAreOnce(d, sorted, limit);
    KeptInOrder(d, sorted, limit);
    KeptIsComplete(d, sorted, limit);
    KeptLeavesNoneFaster(d, sorted, limit);
  }

  lemma KeptLeavesNoneFaster(d: Delays, sorted: seq<nat>, limit: nat)
    requires InDelayOrder(d, sorted) && OnceEach(d, sorted)
    ensures NoneFasterLeftOut(d, Kept(sorted, limit))
  {
    var kept := Kept(sorted, limit);
    forall i, job: nat | 0 <= i < |kept| && Succeeds(d, kept[i]) && Succeeds(d, job) && job !in kept
      ensures d[kept[i]].value <= d[job].value
    {
      KeptBeatsLeftOut(d, sorted, limit, i, job);
    }
  }

  // The outcome of every finished run, whatever the sort did with equal delays.
  lemma FastestAreKept(d: Delays, workers: nat, steps: seq<Step>, sorted: seq<nat>, limit: nat)
    requires Legal(d, Init(|d|, workers), steps) && Play(d, Init(|d|, workers), steps).main.Finished?
    requires SortedFrom(d, Play(d, Init(|d|, workers), steps).results, sorted)
    ensures FastestOf(d, Kept(sorted, limit), limit)
  {
    forall job: nat
      ensures multiset(sorted)[job] == if Succeeds(d, job) then 1 else 0
    {
      SortedHoldsSuccesses(d, workers, steps, sorted, job);
    }
    KeptAreFastest(d, sorted, limit);
  }

  /* ----- Progress ----- */

  function Load(pc: WorkerPc): nat {
    match pc
    case Unstarted => 1
    case Ready => 0
    case Running(_) => 2
    case Finishing => 1
  }

  // Steps still to come.
  function Rank(d: Delays, s: State): int {
    5 * (|d| - s.sent) - (if s.main.Sending? then 1 else 0) + 3 * InSlot(s) + Tally(s.workers, Load)
    + if s.main.Finished? then 0 else 1
  }

  lemma StepTakesOne(d: Delays, s: State, step: Step)
    requires MainOk(d, s) && Enabled(s, step)
    ensures Rank(d, Apply(d, s, step)) == Rank(d, s) - 1
  {
    StepTally(d, s, step, Load);
  }

  lemma {:induction false} SomeWorkerIs(workers: seq<WorkerPc>, weight: WorkerPc -> nat) returns (w: nat)
    requires Tally(workers, weight) > 0
    ensures w < |workers| && weight(workers[w]) > 0
  {
    var n := |workers| - 1;
    if weight(workers[n]) > 0 {
      w := n;
    } else {
      w := SomeWorkerIs(workers[..n], weight);
    }
  }

  // With at least one worker nothing gets stuck before the end.
  lemma NeverStuck(d: Delays, s: State)
    requires Inv(d, s) && !s.main.Finished? && |s.workers| >= 1
    ensures exists step :: Enabled(s, step)
  {
    if s.main.Adding? {
      assert Enabled(s, Add);
    } else if Tally(s.workers, Load) > 0 {
      var w := SomeWorkerIs(s.workers, Load);
      match s.workers[w]
      case Unstarted => assert Enabled(s, StartWorker(w));
      case Running(_) => assert Enabled(s, RunJob(w));
      case Finishing => assert Enabled(s, Done(w));
    } else {
      IdlePool(s.workers);
      assert s.workers[0] == Ready by {
        TallyAtLeast(s.workers, 0, Load);
      }
      if s.slot.Some? {
        assert Enabled(s, Take(0));
      } else if s.main.Sending? {
        assert Enabled(s, Send);
      } else {
        assert Enabled(s, Wait);
      }
    }
  }

  lemma {:induction false} IdlePool(workers: seq<WorkerPc>)
    requires Tally(workers, Load) == 0
    ensures Tally(workers, IsRunning) == 0 && Tally(workers, IsFinishing) == 0
  {
    if workers != [] {
      IdlePool(workers[..|workers| - 1]);
    }
  }

  lemma {:induction false} FreshPool(workers: nat)
    ensures Tally(seq(workers, _ => Unstarted), Load) == workers
  {
    if workers > 0 {
      FreshPool(workers - 1);
      assert seq(workers, _ => Unstarted)[..workers - 1] == seq(workers - 1, _ => Unstarted);
    }
  }

  lemma {:induction false} PlayTakesAll(d: Delays, s: State, steps: seq<Step>)
    requires Inv(d, s) && Legal(d, s, steps)
    ensures |steps| + Rank(d, Play(d, s, steps)) == Rank(d, s)
    ensures |Play(d, s, steps).workers| == |s.workers|
    decreases |steps|
  {
    if steps != [] {
      StepTakesOne(d, s, steps[0]);
      StepKeepsInv(d, s, steps[0]);
      PlayTakesAll(d, Apply(d, s, steps[0]), steps[1..]);
    }
  }

  lemma RunsAreBounded(d: Delays, workers: nat, steps: seq<Step>)
    requires Legal(d, Init(|d|, workers), steps)
    ensures |steps| <= 5 * |d| + workers + 1
  {
    InitInv(d, workers);
    FreshPool(workers);
    PlayKeepsInv(d, Init(|d|, workers), steps);
    PlayTakesAll(d, Init(|d|, workers), steps);
  }

  // With at least one worker, every interleaving that runs until nothing is left to do gets past the wait group, and it
  // takes the same number of steps: five per node, one per worker, and the final wait.
  lemma EveryRunEnds(d: Delays, workers: nat, steps: seq<Step>)
    requires workers >= 1 && Legal(d, Init(|d|, workers), steps)
    requires !exists step :: Enabled(Play(d, Init(|d|, workers), steps), step)
    ensures Play(d, Init(|d|, workers), steps).main.Finished?
    ensures |steps| == 5 * |d| + workers + 1
  {
    var s := Play(d, Init(|d|, workers), steps);
    InitInv(d, workers);
    FreshPool(workers);
    PlayKeepsInv(d, Init(|d|, workers), steps);
    PlayTakesAll(d, Init(|d|, workers), steps);
    if !s.main.Finished? {
      NeverStuck(d, s);
    }
    AllDone(d, s);
    if Tally(s.workers, Load) > 0 {
      var w := SomeWorkerIs(s.workers, Load);
      match s.workers[w]
      case Unstarted => assert Enabled(s, StartWorker(w));
      case Running(_) => assert Enabled(s, RunJob(w));
      case Finishing => assert Enabled(s, Done(w));
    }
  }

  // Without workers no job ever runs, and the feeder never gets past the wait group.
  lemma {:induction false} NoWorkersNoEnd(d: Delays, s: State, steps: seq<Step>)
    requires Legal(d, s, steps) && Inv(d, s) && s.workers == [] && !s.main.Finished? && s.measured == [] && d != []
    ensures !Play(d, s, steps).main.Finished?
    decreases |steps|
  {
    if steps != [] {
      if steps[0].Wait? {
        AllDone(d, s);
      }
      StepKeepsInv(d, s, steps[0]);
      NoWorkersNoEnd(d, Apply(d, s, steps[0]), steps[1..]);
    }
  }

  lemma {:induction false} RunToTheEnd(d: Delays, s: State) returns (steps: seq<Step>)
    requires Inv(d, s) && |s.workers| >= 1
    ensures Legal(d, s, steps) && Play(d, s, steps).main.Finished?
    decreases RankAt(d, s)
  {
    steps := [];
    if !s.main.Finished? {
      NeverStuck(d, s);
      var step :| Enabled(s, step);
      StepTakesOne(d, s, step);
      StepKeepsInv(d, s, step);
      var rest := RunToTheEnd(d, Apply(d, s, step));
      assert ([step] + rest)[1..] == rest;
      steps := [step] + rest;
    }
  }

  // The rank as a natural number, for states of a run that is not finished.
  function RankAt(d: Delays, s: State): nat {
    if Rank(d, s) < 0 then 0 else Rank(d, s) + 1
  }

  // With at least one worker there is a run that gets past the wait group.
  lemma SomeRunFinishes(d: Delays, workers: nat) returns (steps: seq<Step>)
    requires workers >= 1
    ensures Legal(d, Init(|d|, workers), steps) && Play(d, Init(|d|, workers), steps).main.Finished?
  {
    InitInv(d, workers);
    steps := RunToTheEnd(d, Init(|d|, workers));
  }
}
