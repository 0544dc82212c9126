/**
  How the session's step system relates to the code of either side: its payer steps are rounds of the payment loop in
  64-bit arithmetic, and its running total is what the provider's meter computes.
*/
module Refinement {
  import opened Wrappers
  import opened Machine
  import opened Billing
  import Payer
  import Provider
  import Session

  // Traffic that can be counted and priced in 64 bits.
  predicate Fits(p: Prices, up: nat, down: nat) {
    p.up < TWO63 && p.down < TWO63 && up + down < TWO64 && p.up * up < TWO63 && p.down * down < TWO63
  }

  lemma FitsBelow(p: Prices, up: nat, down: nat, up': nat, down': nat)
    requires Fits(p, up', down') && up <= up' && down <= down'
    ensures Fits(p, up, down)
  {
    MulMono(p.up, up, up');
    MulMono(p.down, down, down');
  }

  function Used(s: Session.State): (nat, nat) {
    (Session.Count(s, Session.UsedUp), Session.Count(s, Session.UsedDown))
  }

  // The payment loop's variables as the session has them.
  predicate SamePayer(s: Session.State, p: Payer.State) {
    && p.prices == s.prices && p.ledger == s.ledger
    && p.paidUp == s.paidUp && p.paidDown == s.paidDown
    && p.lastCost == s.lastCost && p.lastPaymentTime == s.lastPaidAt
    && (p.stopped <==> s.payer.Halted?)
  }

  predicate PollOk(s: Session.State, p: Payer.State, poll: Session.Poll) {
    && p.bytesUp <= poll.up <= Used(s).0 && p.bytesDown <= poll.down <= Used(s).1
    && (|| poll.up + poll.down - (s.paidUp + s.paidDown) > TRAFFIC_PAYMENT_THRESHOLD * TRAFFIC_UNIT
        || poll.time - s.lastPaidAt > NANO_PAY_UPDATE_INTERVAL)
  }

  // The loop stands at the beginning of a round.
  ghost predicate Standing(s: Session.State, p: Payer.State) {
    && SamePayer(s, p) && Payer.CountersOk(p)
    && p.bytesUp <= Used(s).0 && p.bytesDown <= Used(s).1
  }

  predicate PricedOk(s: Session.State, poll: Session.Poll, up: nat, down: nat, cost: nat) {
    && poll.up <= up <= Used(s).0 && poll.down <= down <= Used(s).1
    && s.paidUp <= up && s.paidDown <= down
    && cost == Cost(s.prices, up - s.paidUp, down - s.paidDown) && cost > 0 && cost != s.lastCost
  }

  // A round under way in the session can still be completed.
  predicate RoundOk(s: Session.State, p: Payer.State) {
    match s.payer
    case Woken(poll) => PollOk(s, p, poll)
    case Paying(poll, up, down, _, cost) => PollOk(s, p, poll) && PricedOk(s, poll, up, down, cost)
    case _ => true
  }

  ghost predicate LoopOk(s: Session.State, p: Payer.State) {
    Standing(s, p) && RoundOk(s, p)
  }

  /* How a round of the session looks to the loop. */

  datatype Ending = Sent | NoStream | SendFails

  // How a round with something to pay ends, by what the stream, the wallet and the sending come to.
  function OutcomeOf(p: Payer.State, w: Payer.Wake): Ending {
    if w.stream.StreamError? || w.stream.address == "" || (p.nanoPay != Some(w.stream.address) && !w.nanoPayOk) then NoStream
    else if (!p.feeKnown && !w.feeOk) || !w.sendOk then SendFails
    else Sent
  }

  predicate LooksLike(p: Payer.State, w: Payer.Wake, poll: Session.Poll, ending: Ending) {
    && !w.closed && w.now == poll.time && w.polledUp == poll.up && w.polledDown == poll.down
    && ending == OutcomeOf(p, w)
  }

  function WakeOf(p: Payer.State, poll: Session.Poll, up: Word, down: Word, stamp: int, ending: Ending): (w: Payer.Wake)
    requires poll.up < TWO64 && poll.down < TWO64
    ensures LooksLike(p, w, poll, ending)
  {
    Payer.Wake(false, poll.time, poll.up, poll.down, up, down, stamp,
               if ending.NoStream? then Payer.StreamError else Payer.Recipient("payee"), true, true, !ending.SendFails?)
  }

  lemma PollIsDue(s: Session.State, p: Payer.State, poll: Session.Poll)
    requires Standing(s, p) && PollOk(s, p, poll) && Fits(s.prices, Used(s).0, Used(s).1)
    ensures poll.up < TWO64 && poll.down < TWO64
    ensures Payer.Due(p.(bytesUp := poll.up, bytesDown := poll.down), poll.time)
  {
    Payer.NoUnsignedWrap(p.(bytesUp := poll.up, bytesDown := poll.down));
  }

  lemma WakeIsOk(s: Session.State, p: Payer.State, w: Payer.Wake)
    requires Standing(s, p) && Fits(s.prices, Used(s).0, Used(s).1)
    requires p.bytesUp <= w.polledUp <= w.loadedUp <= Used(s).0 && p.bytesDown <= w.polledDown <= w.loadedDown <= Used(s).1
    ensures Payer.WakeOk(p, w)
  {
    FitsBelow(s.prices, w.loadedUp - p.paidUp, w.loadedDown - p.paidDown, Used(s).0, Used(s).1);
  }

  // What the loop makes of a round, by what the round finds and how it ends.
  predicate RoundResult(p: Payer.State, p': Payer.State, up: nat, down: nat, stamp: int, cost: nat, ending: Ending) {
    && p'.bytesUp == up && p'.bytesDown == down && p'.prices == p.prices
    && if cost == 0 || cost == p.lastCost || ending.NoStream? then Payer.Keeps(p, p') && !p'.stopped
       else if ending.SendFails? then Payer.Keeps(p, p') && p'.stopped
       else && p'.ledger == p.ledger + [Bill(p.paidUp, up, p.paidDown, down, cost)] && !p'.stopped
            && p'.paidUp == up && p'.paidDown == down && p'.lastCost == cost && p'.lastPaymentTime == stamp
  }

  lemma DueRound(p: Payer.State, w: Payer.Wake)
    requires !w.closed && Payer.Due(p.(bytesUp := w.polledUp, bytesDown := w.polledDown), w.now)
    ensures Payer.Step(p, w) == Payer.Round(p.(bytesUp := w.loadedUp, bytesDown := w.loadedDown), w)
  {
  }

  lemma RoundBySending(p: Payer.State, w: Payer.Wake, cost: nat, ending: Ending)
    requires ending == OutcomeOf(p, w) && !p.stopped
    requires Payer.UnpaidCost(p.(bytesUp := w.loadedUp, bytesDown := w.loadedDown)) == cost
    ensures RoundResult(p, Payer.Round(p.(bytesUp := w.loadedUp, bytesDown := w.loadedDown), w),
                        w.loadedUp, w.loadedDown, w.stamp, cost, ending)
  {
  }

  lemma RoundOfWake(p: Payer.State, w: Payer.Wake, poll: Session.Poll, ending: Ending)
    requires Payer.CountersOk(p) && Payer.WakeOk(p, w) && !p.stopped && LooksLike(p, w, poll, ending)
    requires Payer.Due(p.(bytesUp := w.polledUp, bytesDown := w.polledDown), w.now)
    ensures Payer.CountersOk(Payer.Step(p, w))
    ensures RoundResult(p, Payer.Step(p, w), w.loadedUp, w.loadedDown, w.stamp, Payer.UnpaidBill(p, w).cost, ending)
  {
    Payer.UnpaidCostExact(p, w);
    Payer.StepPaysOrKeeps(p, w);
    DueRound(p, w);
    RoundBySending(p, w, Payer.UnpaidBill(p, w).cost, ending);
  }

  lemma Words(s: Session.State, poll: Session.Poll, up: nat, down: nat)
    requires Fits(s.prices, Used(s).0, Used(s).1)
    requires poll.up <= up <= Used(s).0 && poll.down <= down <= Used(s).1
    ensures up < TWO64 && down < TWO64 && poll.up < TWO64 && poll.down < TWO64
  {
  }

  lemma WakeFits(s: Session.State, p: Payer.State, poll: Session.Poll, w: Payer.Wake, ending: Ending)
    requires Standing(s, p) && PollOk(s, p, poll) && Fits(s.prices, Used(s).0, Used(s).1) && LooksLike(p, w, poll, ending)
    requires poll.up <= w.loadedUp <= Used(s).0 && poll.down <= w.loadedDown <= Used(s).1
    ensures Payer.CountersOk(p) && Payer.WakeOk(p, w)
    ensures Payer.Due(p.(bytesUp := w.polledUp, bytesDown := w.polledDown), w.now)
  {
    PollIsDue(s, p, poll);
    WakeIsOk(s, p, w);
  }

  lemma SameBill(s: Session.State, p: Payer.State, w: Payer.Wake)
    requires SamePayer(s, p) && s.paidUp <= w.loadedUp && s.paidDown <= w.loadedDown
    ensures Payer.UnpaidBill(p, w).cost == Cost(s.prices, w.loadedUp - s.paidUp, w.loadedDown - s.paidDown)
  {
  }

  lemma RoundMatches(s: Session.State, p: Payer.State, poll: Session.Poll, w: Payer.Wake, cost: nat, ending: Ending)
    requires Standing(s, p) && PollOk(s, p, poll) && Fits(s.prices, Used(s).0, Used(s).1) && LooksLike(p, w, poll, ending)
    requires poll.up <= w.loadedUp <= Used(s).0 && poll.down <= w.loadedDown <= Used(s).1
    requires cost == Cost(s.prices, w.loadedUp - s.paidUp, w.loadedDown - s.paidDown) && !p.stopped
    ensures Payer.WakeOk(p, w) && Payer.CountersOk(Payer.Step(p, w))
    ensures RoundResult(p, Payer.Step(p, w), w.loadedUp, w.loadedDown, w.stamp, cost, ending)
  {
    WakeFits(s, p, poll, w, ending);
    SameBill(s, p, w);
    RoundOfWake(p, w, poll, ending);
  }

  /* One step of the session is no round, or one round, of the loop. */

  lemma OneWake(p: Payer.State, w: Payer.Wake)
    requires !p.stopped && Payer.WakeOk(p, w)
    ensures Payer.RunOk(p, [w]) && Payer.Run(p, [w]) == Payer.Step(p, w)
  {
    assert [w][1..] == [];
  }

  function EndingOf(step: Session.Step): Ending {
    if step.Send? then Sent else if step.Skip? then NoStream else SendFails
  }

  // The session's own view of how a round ends.
  lemma EndOfRound(s: Session.State, step: Session.Step)
    requires Session.Enabled(s, step) && s.payer.Paying? && (step.Send? || step.Skip? || step.Halt?)
    ensures var Paying(_, up, down, stamp, cost) := s.payer;
            var s' := Session.Apply(s, step);
            && s'.conns == s.conns && s'.udpUp == s.udpUp && s'.udpDown == s.udpDown && s'.prices == s.prices
            && (if step.Halt? then s'.payer.Halted? else s'.payer.Asleep?)
            && if step.Send?
               then s'.ledger == s.ledger + [Bill(s.paidUp, up, s.paidDown, down, cost)] && s'.paidUp == up
                    && s'.paidDown == down && s'.lastCost == cost && s'.lastPaidAt == stamp
               else s'.ledger == s.ledger && s'.paidUp == s.paidUp && s'.paidDown == s.paidDown
                    && s'.lastCost == s.lastCost && s'.lastPaidAt == s.lastPaidAt
  {
  }

  lemma RoundEnds(s: Session.State, s': Session.State, p: Payer.State, p': Payer.State, step: Session.Step)
    requires LoopOk(s, p) && Session.Enabled(s, step) && s' == Session.Apply(s, step) && Payer.CountersOk(p')
    requires s.payer.Paying? && (step.Send? || step.Skip? || step.Halt?)
    requires RoundResult(p, p', s.payer.up, s.payer.down, s.payer.stamp, s.payer.cost, EndingOf(step))
    ensures LoopOk(s', p')
  {
    EndOfRound(s, step);
  }

  lemma RoundStep(s: Session.State, p: Payer.State, step: Session.Step) returns (script: seq<Payer.Wake>)
    requires LoopOk(s, p) && Session.Enabled(s, step) && Fits(s.prices, Used(s).0, Used(s).1)
    requires s.payer.Paying? && (step.Send? || step.Skip? || step.Halt?)
    ensures |script| <= 1 && Payer.RunOk(p, script) && LoopOk(Session.Apply(s, step), Payer.Run(p, script))
  {
    var Paying(poll, up, down, stamp, cost) := s.payer;
    Words(s, poll, up, down);
    var w := WakeOf(p, poll, up, down, stamp, EndingOf(step));
    RoundMatches(s, p, poll, w, cost, EndingOf(step));
    OneWake(p, w);
    RoundEnds(s, Session.Apply(s, step), p, Payer.Step(p, w), step);
    script := [w];
  }

  lemma LoadPrices(s: Session.State)
    requires Session.Enabled(s, Session.Load)
    ensures var (up, down) := Used(s);
            var cost := Cost(s.prices, up - s.paidUp, down - s.paidDown);
            Session.Apply(s, Session.Load)
            == s.(payer := if cost == s.lastCost || cost == 0 then Session.Asleep
                           else Session.Paying(s.payer.poll, up, down, s.clock, cost))
  {
  }

  lemma LoadedOk(s: Session.State, p: Payer.State, cost: nat)
    requires LoopOk(s, p) && s.payer.Woken? && s.paidUp <= Used(s).0 && s.paidDown <= Used(s).1
    requires cost == Cost(s.prices, Used(s).0 - s.paidUp, Used(s).1 - s.paidDown) && cost > 0 && cost != s.lastCost
    ensures LoopOk(s.(payer := Session.Paying(s.payer.poll, Used(s).0, Used(s).1, s.clock, cost)), p)
  {
  }

  lemma NothingToPay(s: Session.State, p: Payer.State, p': Payer.State, cost: nat, ending: Ending)
    requires LoopOk(s, p) && s.payer.Woken? && Payer.CountersOk(p') && (cost == 0 || cost == s.lastCost)
    requires RoundResult(p, p', Used(s).0, Used(s).1, s.clock, cost, ending)
    ensures LoopOk(s.(payer := Session.Asleep), p')
  {
  }

  lemma LoadStep(s: Session.State, p: Payer.State) returns (script: seq<Payer.Wake>)
    requires LoopOk(s, p) && Session.Enabled(s, Session.Load) && Fits(s.prices, Used(s).0, Used(s).1)
    ensures |script| <= 1 && Payer.RunOk(p, script) && LoopOk(Session.Apply(s, Session.Load), Payer.Run(p, script))
  {
    var poll := s.payer.poll;
    var (up, down) := Used(s);
    var cost := Cost(s.prices, up - s.paidUp, down - s.paidDown);
    LoadPrices(s);
    if cost == s.lastCost || cost == 0 {
      Words(s, poll, up, down);
      var w := WakeOf(p, poll, up, down, s.clock, Sent);
      RoundMatches(s, p, poll, w, cost, Sent);
      OneWake(p, w);
      NothingToPay(s, p, Payer.Step(p, w), cost, Sent);
      script := [w];
    } else {
      LoadedOk(s, p, cost);
      script := [];
    }
  }

  lemma CloseStep(s: Session.State, p: Payer.State) returns (script: seq<Payer.Wake>)
    requires LoopOk(s, p) && s.payer.Asleep? && Fits(s.prices, Used(s).0, Used(s).1)
    ensures |script| <= 1 && Payer.RunOk(p, script) && LoopOk(Session.Apply(s, Session.Halt), Payer.Run(p, script))
  {
    var w := Payer.Wake(true, s.clock, p.bytesUp, p.bytesDown, p.bytesUp, p.bytesDown, s.clock, Payer.StreamError,
                        false, false, false);
    WakeIsOk(s, p, w);
    OneWake(p, w);
    script := [w];
  }

  // Traffic, time, and whatever the provider does leave the loop where it is.
  lemma LoopStays(s: Session.State, p: Payer.State, s': Session.State)
    requires LoopOk(s, p) && SamePayer(s', p) && s'.payer == s.payer
    requires Used(s).0 <= Used(s').0 && Used(s).1 <= Used(s').1
    ensures LoopOk(s', p)
  {
  }

  lemma OtherStep(s: Session.State, step: Session.Step)
    requires Session.Enabled(s, step) && !step.Wake? && !step.Load? && !step.Send? && !step.Skip? && !step.Halt?
    ensures var s' := Session.Apply(s, step);
            && s'.payer == s.payer && s'.prices == s.prices && s'.ledger == s.ledger && s'.paidUp == s.paidUp
            && s'.paidDown == s.paidDown && s'.lastCost == s.lastCost && s'.lastPaidAt == s.lastPaidAt
            && Used(s).0 <= Used(s').0 && Used(s).1 <= Used(s').1
  {
    Session.CountersGrow(s, step, Session.UsedUp);
    Session.CountersGrow(s, step, Session.UsedDown);
  }

  lemma WakeStep(s: Session.State, p: Payer.State)
    requires LoopOk(s, p) && Session.Enabled(s, Session.Wake)
    ensures LoopOk(Session.Apply(s, Session.Wake), p)
  {
    assert Used(Session.Apply(s, Session.Wake)) == Used(s);
  }

  lemma StepRefines(s: Session.State, p: Payer.State, step: Session.Step) returns (script: seq<Payer.Wake>)
    requires Session.Inv(s) && LoopOk(s, p) && Session.Enabled(s, step) && Fits(s.prices, Used(s).0, Used(s).1)
    ensures |script| <= 1 && Payer.RunOk(p, script) && LoopOk(Session.Apply(s, step), Payer.Run(p, script))
  {
    if step.Load? {
      script := LoadStep(s, p);
    } else if step.Halt? && s.payer.Asleep? {
      script := CloseStep(s, p);
    } else if step.Send? || step.Skip? || step.Halt? {
      script := RoundStep(s, p, step);
    } else if step.Wake? {
      WakeStep(s, p);
      script := [];
    } else {
      OtherStep(s, step);
      LoopStays(s, p, Session.Apply(s, step));
      script := [];
    }
  }

  lemma RunAppend(p: Payer.State, first: seq<Payer.Wake>, rest: seq<Payer.Wake>)
    requires |first| <= 1 && Payer.RunOk(p, first) && Payer.RunOk(Payer.Run(p, first), rest)
    ensures Payer.RunOk(p, first + rest) && Payer.Run(p, first + rest) == Payer.Run(Payer.Run(p, first), rest)
  {
    if first == [] {
      assert first + rest == rest;
    } else {
      assert (first + rest)[0] == first[0] && (first + rest)[1..] == rest && first[1..] == [];
      if !p.stopped {
        assert Payer.Run(p, first) == Payer.Step(p, first[0]);
      }
    }
  }

  lemma {:induction false} UsedGrows(s: Session.State, steps: seq<Session.Step>)
    requires Session.Legal(s, steps)
    ensures Used(s).0 <= Used(Session.Play(s, steps)).0 && Used(s).1 <= Used(Session.Play(s, steps)).1
    decreases |steps|
  {
    if steps != [] {
      Session.CountersGrow(s, steps[0], Session.UsedUp);
      Session.CountersGrow(s, steps[0], Session.UsedDown);
      UsedGrows(Session.Apply(s, steps[0]), steps[1..]);
    }
  }

  lemma {:induction false} RunRefines(s: Session.State, p: Payer.State, steps: seq<Session.Step>)
    returns (script: seq<Payer.Wake>)
    requires Session.Inv(s) && LoopOk(s, p) && Session.Legal(s, steps)
    requires var end := Session.Play(s, steps); Fits(s.prices, Used(end).0, Used(end).1)
    ensures Payer.RunOk(p, script) && LoopOk(Session.Play(s, steps), Payer.Run(p, script))
    decreases |steps|
  {
    if steps == [] {
      script := [];
    } else {
      var end := Session.Play(s, steps);
      UsedGrows(s, steps);
      FitsBelow(s.prices, Used(s).0, Used(s).1, Used(end).0, Used(end).1);
      Session.PlayKeepsInv(s, steps[..1]);
      var first := StepRefines(s, p, steps[0]);
      var rest := RunRefines(Session.Apply(s, steps[0]), Payer.Run(p, first), steps[1..]);
      RunAppend(p, first, rest);
      script := first + rest;
    }
  }

  lemma StartTogether(prices: Prices, now: int, feeKnown: bool)
    requires prices.up < TWO63 && prices.down < TWO63
    ensures LoopOk(Session.Init(prices, now), Payer.Start(prices, feeKnown, now))
  {
  }

  // Every session whose traffic fits 64 bits pays exactly as some run of the payment loop does, bill by bill.
  lemma SessionRefinesPayer(prices: Prices, now: int, steps: seq<Session.Step>, feeKnown: bool)
    returns (script: seq<Payer.Wake>)
    requires Session.Legal(Session.Init(prices, now), steps)
    requires var end := Session.Play(Session.Init(prices, now), steps); Fits(prices, Used(end).0, Used(end).1)
    ensures var start := Payer.Start(prices, feeKnown, now);
            Payer.RunOk(start, script) && SamePayer(Session.Play(Session.Init(prices, now), steps), Payer.Run(start, script))
  {
    Session.InitInv(prices, now);
    StartTogether(prices, now, feeKnown);
    script := RunRefines(Session.Init(prices, now), Payer.Start(prices, feeKnown, now), steps);
  }

  /* ----- The other way: every run of the loop, over what a session lets it see, is matched by the session ----- */

  // One wake-up of the loop, and what else happens in the session before it polls and before it prices the traffic.
  datatype Round = Round(before: seq<Session.Step>, wake: Payer.Wake, between: seq<Session.Step>)

  predicate IsPayers(step: Session.Step) {
    step.Wake? || step.Load? || step.Send? || step.Skip? || step.Halt?
  }

  predicate Elsewhere(s: Session.State, steps: seq<Session.Step>) {
    Session.Legal(s, steps) && forall i :: 0 <= i < |steps| ==> !IsPayers(steps[i])
  }

  predicate SeesPoll(s: Session.State, w: Payer.Wake) {
    Used(s) == (w.polledUp, w.polledDown) && w.now == s.clock
  }

  predicate SeesTraffic(s: Session.State, w: Payer.Wake) {
    Used(s) == (w.loadedUp, w.loadedDown) && w.stamp == s.clock
  }

  // The payer's part of a round that is due, after the poll and the steps in between.
  function Finish(p: Payer.State, w: Payer.Wake, cost: nat): seq<Session.Step> {
    if cost == 0 || cost == p.lastCost then [Session.Load]
    else
      match OutcomeOf(p, w)
      case NoStream => [Session.Load, Session.Skip]
      case SendFails => [Session.Load, Session.Halt]
      case Sent => [Session.Load, Session.Send]
  }

  predicate IsDue(p: Payer.State, w: Payer.Wake) {
    Payer.Due(p.(bytesUp := w.polledUp, bytesDown := w.polledDown), w.now)
  }

  function CostAt(s: Session.State): nat {
    if s.paidUp <= Used(s).0 && s.paidDown <= Used(s).1
    then Cost(s.prices, Used(s).0 - s.paidUp, Used(s).1 - s.paidDown) else 0
  }

  // What the session does for a round.
  function Matching(s: Session.State, p: Payer.State, r: Round): seq<Session.Step>
    requires Fed(s, p, r)
  {
    var s1 := Session.Play(s, r.before);
    if r.wake.closed then r.before + [Session.Halt]
    else if !IsDue(p, r.wake) then r.before
    else r.before + ([Session.Wake] + (r.between + Finish(p, r.wake, CostAt(Session.Play(s1, r.between)))))
  }

  // The wake-up sees the session as it is then.
  predicate Fed(s: Session.State, p: Payer.State, r: Round) {
    && Elsewhere(s, r.before)
    && var s1 := Session.Play(s, r.before);
       && Fits(s1.prices, Used(s1).0, Used(s1).1)
       && (r.wake.closed ||
            (&& SeesPoll(s1, r.wake)
             && (IsDue(p, r.wake) ==>
                   && Elsewhere(s1, r.between)
                   && var s2 := Session.Play(s1, r.between);
                      SeesTraffic(s2, r.wake) && Fits(s2.prices, Used(s2).0, Used(s2).1))))
  }

  lemma {:induction false} PlayAppend(s: Session.State, steps: seq<Session.Step>, more: seq<Session.Step>)
    requires Session.Legal(s, steps) && Session.Legal(Session.Play(s, steps), more)
    ensures Session.Legal(s, steps + more)
    ensures Session.Play(s, steps + more) == Session.Play(Session.Play(s, steps), more)
    decreases |steps|
  {
    if steps == [] {
      assert steps + more == more;
    } else {
      PlayAppend(Session.Apply(s, steps[0]), steps[1..], more);
      assert (steps + more)[0] == steps[0] && (steps + more)[1..] == steps[1..] + more;
    }
  }

  lemma PlayOne(s: Session.State, step: Session.Step)
    requires Session.Enabled(s, step)
    ensures Session.Legal(s, [step]) && Session.Play(s, [step]) == Session.Apply(s, step)
  {
    assert [step][1..] == [];
  }

  lemma {:induction false} ElsewhereKeepsLoop(s: Session.State, p: Payer.State, steps: seq<Session.Step>)
    requires LoopOk(s, p) && Elsewhere(s, steps)
    ensures LoopOk(Session.Play(s, steps), p) && Session.Play(s, steps).payer == s.payer
    decreases |steps|
  {
    if steps != [] {
      assert !IsPayers(steps[0]);
      OtherStep(s, steps[0]);
      LoopStays(s, p, Session.Apply(s, steps[0]));
      assert forall i :: 0 <= i < |steps[1..]| ==> steps[1..][i] == steps[i + 1];
      ElsewhereKeepsLoop(Session.Apply(s, steps[0]), p, steps[1..]);
    }
  }

  // What happens elsewhere does not depend on where the payer is.
  lemma StepAside(s: Session.State, step: Session.Step, pc: Session.PayerPc)
    requires Session.Enabled(s, step) && !IsPayers(step)
    ensures Session.Enabled(s.(payer := pc), step)
    ensures Session.Apply(s.(payer := pc), step) == Session.Apply(s, step).(payer := pc)
  {
    assert forall g :: Session.Count(s.(payer := pc), g) == Session.Count(s, g);
  }

  lemma {:induction false} PlayAside(s: Session.State, steps: seq<Session.Step>, pc: Session.PayerPc)
    requires Elsewhere(s, steps)
    ensures Elsewhere(s.(payer := pc), steps)
    ensures Session.Play(s.(payer := pc), steps) == Session.Play(s, steps).(payer := pc)
    decreases |steps|
  {
    if steps != [] {
      assert !IsPayers(steps[0]);
      StepAside(s, steps[0], pc);
      assert forall i :: 0 <= i < |steps[1..]| ==> steps[1..][i] == steps[i + 1];
      PlayAside(Session.Apply(s, steps[0]), steps[1..], pc);
    }
  }

  // The round is over: the payer sleeps, or has stopped.
  ghost predicate Between(s: Session.State, p: Payer.State) {
    LoopOk(s, p) && (s.payer.Asleep? || s.payer.Halted?)
  }

  lemma FinishPaying(s: Session.State, p: Payer.State, w: Payer.Wake, step: Session.Step)
    requires LoopOk(s, p) && s.payer.Paying? && Payer.CountersOk(Payer.Step(p, w))
    requires step == match OutcomeOf(p, w) case NoStream => Session.Skip case SendFails => Session.Halt case Sent => Session.Send
    requires RoundResult(p, Payer.Step(p, w), s.payer.up, s.payer.down, s.payer.stamp, s.payer.cost, OutcomeOf(p, w))
    ensures Session.Enabled(s, step) && Between(Session.Apply(s, step), Payer.Step(p, w))
  {
    EndOfRound(s, step);
    RoundEnds(s, Session.Apply(s, step), p, Payer.Step(p, w), step);
  }

  lemma FinishMatches(s: Session.State, p: Payer.State, w: Payer.Wake)
    requires LoopOk(s, p) && s.payer.Woken? && !p.stopped && SeesTraffic(s, w) && Fits(s.prices, Used(s).0, Used(s).1)
    requires LooksLike(p, w, s.payer.poll, OutcomeOf(p, w))
    ensures Session.Legal(s, Finish(p, w, CostAt(s)))
    ensures Between(Session.Play(s, Finish(p, w, CostAt(s))), Payer.Step(p, w))
  {
    var cost := CostAt(s);
    LoadPrices(s);
    RoundMatches(s, p, s.payer.poll, w, cost, OutcomeOf(p, w));
    var s1 := Session.Apply(s, Session.Load);
    if cost == 0 || cost == p.lastCost {
      NothingToPay(s, p, Payer.Step(p, w), cost, OutcomeOf(p, w));
      PlayOne(s, Session.Load);
    } else {
      LoadedOk(s, p, cost);
      var step := match OutcomeOf(p, w) case NoStream => Session.Skip case SendFails => Session.Halt case Sent => Session.Send;
      FinishPaying(s1, p, w, step);
      PlayOne(s, Session.Load);
      PlayOne(s1, step);
      PlayAppend(s, [Session.Load], [step]);
    }
  }

  // A round that is due: wake up, let the session go on, finish.
  lemma DueRoundMatches(s: Session.State, p: Payer.State, w: Payer.Wake, between: seq<Session.Step>)
    requires LoopOk(s, p) && s.payer.Asleep? && !p.stopped && !w.closed && SeesPoll(s, w) && IsDue(p, w)
    requires Elsewhere(s, between) && SeesTraffic(Session.Play(s, between), w)
    requires Fits(s.prices, Used(s).0, Used(s).1)
    requires var s2 := Session.Play(s, between); Fits(s2.prices, Used(s2).0, Used(s2).1)
    ensures var steps := [Session.Wake] + (between + Finish(p, w, CostAt(Session.Play(s, between))));
            Session.Legal(s, steps) && Between(Session.Play(s, steps), Payer.Step(p, w))
  {
    WakesUp(s, p, w);
    WakeStep(s, p);
    var woken := Session.Woken(Session.Poll(w.polledUp, w.polledDown, w.now));
    PlayAside(s, between, woken);
    var s1 := s.(payer := woken);
    ElsewhereKeepsLoop(s1, p, between);
    var s2 := Session.Play(s1, between);
    SameUsed(Session.Play(s, between), woken);
    FinishMatches(s2, p, w);
    PlayAppend(s1, between, Finish(p, w, CostAt(s2)));
    PlayOne(s, Session.Wake);
    PlayAppend(s, [Session.Wake], between + Finish(p, w, CostAt(s2)));
  }

  lemma SameUsed(s: Session.State, pc: Session.PayerPc)
    ensures Used(s.(payer := pc)) == Used(s) && CostAt(s.(payer := pc)) == CostAt(s)
  {
  }

  lemma WakesUp(s: Session.State, p: Payer.State, w: Payer.Wake)
    requires Standing(s, p) && s.payer.Asleep? && SeesPoll(s, w) && IsDue(p, w) && Fits(s.prices, Used(s).0, Used(s).1)
    ensures Session.Enabled(s, Session.Wake)
    ensures Session.Apply(s, Session.Wake) == s.(payer := Session.Woken(Session.Poll(w.polledUp, w.polledDown, w.now)))
  {
    Payer.NoUnsignedWrap(p.(bytesUp := w.polledUp, bytesDown := w.polledDown));
  }

  lemma IdleWakeMatches(s: Session.State, p: Payer.State, w: Payer.Wake)
    requires LoopOk(s, p) && s.payer.Asleep? && !p.stopped && Fits(s.prices, Used(s).0, Used(s).1)
    requires w.closed || (SeesPoll(s, w) && !IsDue(p, w))
    ensures w.closed ==> Between(Session.Apply(s, Session.Halt), Payer.Step(p, w))
    ensures !w.closed ==> Between(s, Payer.Step(p, w))
  {
  }

  lemma RoundIsMatched(s: Session.State, p: Payer.State, r: Round)
    requires LoopOk(s, p) && s.payer.Asleep? && !p.stopped && Fed(s, p, r)
    ensures Session.Legal(s, Matching(s, p, r)) && Between(Session.Play(s, Matching(s, p, r)), Payer.Step(p, r.wake))
  {
    ElsewhereKeepsLoop(s, p, r.before);
    var s1 := Session.Play(s, r.before);
    if r.wake.closed || !IsDue(p, r.wake) {
      IdleWakeMatches(s1, p, r.wake);
      if r.wake.closed {
        PlayOne(s1, Session.Halt);
        PlayAppend(s, r.before, [Session.Halt]);
      }
    } else {
      DueRoundMatches(s1, p, r.wake, r.between);
      PlayAppend(s, r.before, [Session.Wake] + (r.between + Finish(p, r.wake, CostAt(Session.Play(s1, r.between)))));
    }
  }

  // Every wake-up, until the loop stops, sees the session that the rounds before have led to.
  predicate AllFed(s: Session.State, p: Payer.State, rounds: seq<Round>)
    decreases |rounds|
  {
    || rounds == []
    || p.stopped
    || (&& Fed(s, p, rounds[0])
        && (Session.Legal(s, Matching(s, p, rounds[0])) ==>
              AllFed(Session.Play(s, Matching(s, p, rounds[0])), Payer.Step(p, rounds[0].wake), rounds[1..])))
  }

  function Wakes(rounds: seq<Round>): seq<Payer.Wake> {
    seq(|rounds|, i requires 0 <= i < |rounds| => rounds[i].wake)
  }

  lemma {:induction false} LoopIsMatched(s: Session.State, p: Payer.State, rounds: seq<Round>)
    returns (steps: seq<Session.Step>)
    requires Between(s, p) && AllFed(s, p, rounds)
    ensures Session.Legal(s, steps) && Between(Session.Play(s, steps), Payer.Run(p, Wakes(rounds)))
    decreases |rounds|
  {
    steps := [];
    if rounds != [] && !p.stopped {
      RoundIsMatched(s, p, rounds[0]);
      var first := Matching(s, p, rounds[0]);
      var rest := LoopIsMatched(Session.Play(s, first), Payer.Step(p, rounds[0].wake), rounds[1..]);
      PlayAppend(s, first, rest);
      assert Wakes(rounds)[0] == rounds[0].wake && Wakes(rounds)[1..] == Wakes(rounds[1..]);
      steps := first + rest;
    }
  }

  // Every run of the payment loop over the counters and the clock of a session, with whatever comes of its calls, is a run
  // of that session, bill by bill.
  lemma PayerRefinesSession(prices: Prices, now: int, feeKnown: bool, rounds: seq<Round>) returns (steps: seq<Session.Step>)
    requires prices.up < TWO63 && prices.down < TWO63
    requires AllFed(Session.Init(prices, now), Payer.Start(prices, feeKnown, now), rounds)
    ensures Session.Legal(Session.Init(prices, now), steps)
    ensures SamePayer(Session.Play(Session.Init(prices, now), steps), Payer.Run(Payer.Start(prices, feeKnown, now), Wakes(rounds)))
  {
    StartTogether(prices, now, feeKnown);
    steps := LoopIsMatched(Session.Init(prices, now), Payer.Start(prices, feeKnown, now), rounds);
  }

  /* ----- The provider's total ----- */

  // The counters of the one service that the session uses.
  predicate CountersOf(s: Session.State, id: nat, up: seq<Word>, down: seq<Word>) {
    && |up| == |down| == Provider.SERVICES && id < Provider.SERVICES
    && up[id] == Session.Count(s, Session.MeterUp) && down[id] == Session.Count(s, Session.MeterDown)
    && forall i :: 0 <= i < Provider.SERVICES && i != id ==> up[i] == 0 && down[i] == 0
  }

  lemma {:induction false} SumOfOne(xs: seq<nat>, id: nat, n: nat)
    requires n <= |xs| && forall i :: 0 <= i < n && i != id ==> xs[i] == 0
    ensures Provider.SumTo(xs, n) == if id < n then xs[id] else 0
  {
    if n > 0 {
      SumOfOne(xs, id, n - 1);
    }
  }

  // The session's running total is the meter's total, and the meter computes it in 64 bits if the traffic fits.
  lemma NowIsMeterTotal(s: Session.State, prices: Provider.PriceTable, id: nat, up: seq<Word>, down: seq<Word>)
    requires CountersOf(s, id, up, down) && id < |prices| && prices[id] == Some(s.prices)
    ensures Session.Now(s).cost == Provider.TotalCost(prices, up, down, Provider.SERVICES)
    ensures Session.Now(s).bytes == Provider.TotalBytes(prices, up, down, Provider.SERVICES)
    ensures Fits(s.prices, up[id], down[id]) && Session.Now(s).bytes < TWO63
            && (forall i :: 0 <= i < |prices| && prices[i].Some? ==> prices[i].value.up < TWO63 && prices[i].value.down < TWO63)
      ==> Provider.MachineTotal(prices, up, down, Provider.SERVICES) == (Session.Now(s).cost, Session.Now(s).bytes)
  {
    Provider.SingleServiceTotal(prices, up, down, id, Provider.SERVICES);
    if Fits(s.prices, up[id], down[id]) && Session.Now(s).bytes < TWO63
       && (forall i :: 0 <= i < |prices| && prices[i].Some? ==> prices[i].value.up < TWO63 && prices[i].value.down < TWO63)
    {
      SumOfOne(up, id, Provider.SERVICES);
      SumOfOne(down, id, Provider.SERVICES);
      forall i | 0 <= i < Provider.SERVICES
        ensures Provider.ServiceFits(Provider.PriceOf(prices, i), up[i], down[i])
      {
        if i != id && Provider.PriceOf(prices, i).Some? {
          var p := Provider.PriceOf(prices, i).value;
          assert p.up * 0 == 0 && p.down * 0 == 0;
        }
      }
      Provider.MachineTotalExact(prices, up, down, Provider.SERVICES);
    }
  }
}
