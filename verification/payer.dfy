/**
  The paying side: the loop that wakes every 100 ms, and every 32 MiB or every minute bills the unpaid traffic.
  Each wake-up carries what the loop observes of its environment at that moment.
*/
module Payer {
  import opened Wrappers
  import opened Machine
  import opened Billing


  datatype Stream = StreamError | Recipient(address: string)

  // One wake-up: the close flag, the clock, the two loads of the traffic counters, and the outcome of each external call.
  datatype Wake = Wake(closed: bool, now: int, polledUp: Word, polledDown: Word, loadedUp: Word, loadedDown: Word,
                       stamp: int, stream: Stream, nanoPayOk: bool, feeOk: bool, sendOk: bool)

  datatype State = State(prices: Prices, bytesUp: Word, bytesDown: Word, paidUp: Word, paidDown: Word,
                         lastCost: Fixed64, lastPaymentTime: int, nanoPay: Option<string>, feeKnown: bool,
                         ledger: seq<Bill>, payees: seq<string>, stopped: bool)

  function Start(prices: Prices, feeKnown: bool, now: int): State {
    State(prices, 0, 0, 0, 0, 0, now, None, feeKnown, [], [], false)
  }

  predicate OverThreshold(up: Word, down: Word, paidUp: Word, paidDown: Word) {
    U64(U64(up + down) - U64(paidUp + paidDown)) > TRAFFIC_PAYMENT_THRESHOLD * TRAFFIC_UNIT
  }

  predicate Due(s: State, now: int) {
    || OverThreshold(s.bytesUp, s.bytesDown, s.paidUp, s.paidDown)
    || now - s.lastPaymentTime > NANO_PAY_UPDATE_INTERVAL
  }

  function UnpaidCost(s: State): Fixed64 {
    MachineCost(s.prices, s.bytesUp, s.bytesDown, s.paidUp, s.paidDown)
  }

  // The part of a round that talks to the wallet and the provider.
  function Pay(s: State, w: Wake, cost: Fixed64): State
    requires cost > 0
  {
    match w.stream
    case StreamError => s
    case Recipient(address) =>
      if address == "" then s
      else if s.nanoPay != Some(address) && !w.nanoPayOk then s.(nanoPay := None)
      else if !s.feeKnown && !w.feeOk then s.(nanoPay := Some(address), stopped := true)
      else if !w.sendOk then s.(nanoPay := Some(address), feeKnown := true, stopped := true)
      else s.(nanoPay := Some(address), feeKnown := true,
              paidUp := s.bytesUp, paidDown := s.bytesDown, lastCost := cost, lastPaymentTime := w.stamp,
              ledger := s.ledger + [Bill(s.paidUp, s.bytesUp, s.paidDown, s.bytesDown, cost)],
              payees := s.payees + [address])
  }

  function Round(s: State, w: Wake): State {
    var cost := UnpaidCost(s);
    if cost == s.lastCost || cost <= 0 then s else Pay(s, w, cost)
  }

  function Step(s: State, w: Wake): State {
    if w.closed then s.(stopped := true)
    else
      var polled := s.(bytesUp := w.polledUp, bytesDown := w.polledDown);
      if Due(polled, w.now) then Round(polled.(bytesUp := w.loadedUp, bytesDown := w.loadedDown), w) else polled
  }

  function Run(s: State, script: seq<Wake>): State
    decreases |script|
  {
    if script == [] || s.stopped then s else Run(Step(s, script[0]), script[1..])
  }

  /** The loop itself, over its local variables and the shared paid counters. */
  class PaymentLoop {
    const prices: Prices
    var bytesUp: Word
    var bytesDown: Word
    var paidUp: Word
    var paidDown: Word
    var lastCost: Fixed64
    var lastPaymentTime: int
    var nanoPay: Option<string>
    var feeKnown: bool
    var ledger: seq<Bill>
    var payees: seq<string>
    var stopped: bool

    function Abs(): State
      reads this
    {
      State(prices, bytesUp, bytesDown, paidUp, paidDown, lastCost, lastPaymentTime, nanoPay, feeKnown,
            ledger, payees, stopped)
    }

    constructor (prices: Prices, feeKnown: bool, now: int)
      ensures Abs() == Start(prices, feeKnown, now)
    {
      this.prices := prices;
      bytesUp, bytesDown, paidUp, paidDown := 0, 0, 0, 0;
      lastCost, lastPaymentTime := 0, now;
      nanoPay, this.feeKnown := None, feeKnown;
      ledger, payees, stopped := [], [], false;
    }

    method StartPayment(script: seq<Wake>)
      requires !stopped
      modifies this
      ensures Abs() == Run(old(Abs()), script)
    {
      var i := 0;
      while i < |script| && !stopped
        invariant 0 <= i <= |script|
        invariant Run(Abs(), script[i..]) == Run(old(Abs()), script)
      {
        var due;
        i, due := AwaitDue(script, i);
        if !due {
          return;
        }
        BillTraffic(script[i]);
        i := i + 1;
      }
    }

    // The inner loop: sleep and poll until a payment is due, the node closes, or nothing more happens.
    method AwaitDue(script: seq<Wake>, start: nat) returns (i: nat, due: bool)
      requires !stopped && start <= |script|
      modifies this
      ensures start <= i <= |script|
      ensures due ==> i < |script| && Run(AfterRound(script[i]), script[i + 1..]) == Run(old(Abs()), script[start..])
      ensures !due ==> Abs() == Run(old(Abs()), script[start..])
    {
      i := start;
      while i < |script|
        invariant start <= i <= |script| && !stopped
        invariant Run(Abs(), script[i..]) == Run(old(Abs()), script[start..])
      {
        var w := script[i];
        assert script[i..][1..] == script[i + 1..];
        if w.closed {
          stopped := true;
          return i, false;
        }
        bytesUp, bytesDown := w.polledUp, w.polledDown;
        if OverThreshold(bytesUp, bytesDown, paidUp, paidDown) || w.now - lastPaymentTime > NANO_PAY_UPDATE_INTERVAL {
          return i, true;
        }
        i := i + 1;
      }
      return i, false;
    }

    // The round that a due wake-up leads to, from the present state.
    ghost function AfterRound(w: Wake): State
      reads this
    {
      Round(Abs().(bytesUp := w.loadedUp, bytesDown := w.loadedDown), w)
    }

    method BillTraffic(w: Wake)
      modifies this
      ensures Abs() == old(AfterRound(w))
    {
      bytesUp, bytesDown := w.loadedUp, w.loadedDown;
      var cost := MachineCost(prices, bytesUp, bytesDown, paidUp, paidDown);
      if cost == lastCost || cost <= 0 {
        return;
      }
      PayCost(w, cost);
    }

    // The stream, the nano-payment channel, the fee and the sending, each of which may end the round or the loop.
    method PayCost(w: Wake, cost: Fixed64)
      requires cost > 0
      modifies this
      ensures Abs() == Pay(old(Abs()), w, cost)
    {
      if w.stream.StreamError? || w.stream.address == "" {
        return;
      }
      var receiver := w.stream.address;
      if nanoPay != Some(receiver) {
        if !w.nanoPayOk {
          nanoPay := None;
          return;
        }
        nanoPay := Some(receiver);
      }
      if !feeKnown {
        if !w.feeOk {
          stopped := true;
          return;
        }
        feeKnown := true;
      }
      if !w.sendOk {
        stopped := true;
        return;
      }
      ledger := ledger + [Bill(paidUp, bytesUp, paidDown, bytesDown, cost)];
      payees := payees + [receiver];
      paidUp, paidDown := bytesUp, bytesDown;
      lastCost, lastPaymentTime := cost, w.stamp;
    }
  }

  /* ----- What every run keeps ----- */

  // The environment's guarantees at one wake-up: counters only grow, and pricing the unpaid traffic fits 64 bits.
  predicate WakeOk(s: State, w: Wake) {
    && s.bytesUp <= w.polledUp <= w.loadedUp
    && s.bytesDown <= w.polledDown <= w.loadedDown
    && w.loadedUp + w.loadedDown < TWO64
    && (s.paidUp <= w.loadedUp ==> s.prices.up * (w.loadedUp - s.paidUp) < TWO63)
    && (s.paidDown <= w.loadedDown ==> s.prices.down * (w.loadedDown - s.paidDown) < TWO63)
  }

  predicate RunOk(s: State, script: seq<Wake>)
    decreases |script|
  {
    script == [] || s.stopped || (WakeOk(s, script[0]) && RunOk(Step(s, script[0]), script[1..]))
  }

  // Consecutive increments differ and none is zero.
  ghost predicate Distinct(ledger: seq<Bill>) {
    && (forall i :: 0 <= i < |ledger| ==> ledger[i].cost > 0)
    && (forall i :: 0 < i < |ledger| ==> ledger[i].cost != ledger[i - 1].cost)
  }

  ghost predicate CountersOk(s: State) {
    && s.prices.up < TWO63 && s.prices.down < TWO63
    && s.paidUp <= s.bytesUp && s.paidDown <= s.bytesDown
    && s.bytesUp + s.bytesDown < TWO64
  }

  ghost predicate BooksOk(s: State) {
    && LedgerOk(s.prices, s.ledger, s.paidUp, s.paidDown)
    && |s.payees| == |s.ledger|
    && s.lastCost == (if s.ledger == [] then 0 else s.ledger[|s.ledger| - 1].cost)
    && Distinct(s.ledger)
  }

  ghost predicate Inv(s: State) {
    CountersOk(s) && BooksOk(s)
  }

  // The bill for everything that is unpaid at a wake-up.
  function UnpaidBill(s: State, w: Wake): Bill
    requires s.paidUp <= w.loadedUp && s.paidDown <= w.loadedDown
  {
    Bill(s.paidUp, w.loadedUp, s.paidDown, w.loadedDown, Cost(s.prices, w.loadedUp - s.paidUp, w.loadedDown - s.paidDown))
  }

  predicate Keeps(s: State, s': State) {
    && s'.prices == s.prices && s'.ledger == s.ledger && s'.payees == s.payees
    && s'.paidUp == s.paidUp && s'.paidDown == s.paidDown && s'.lastCost == s.lastCost
    && s'.lastPaymentTime == s.lastPaymentTime
  }

  predicate Pays(s: State, w: Wake, s': State)
    requires s.paidUp <= w.loadedUp && s.paidDown <= w.loadedDown
  {
    var b := UnpaidBill(s, w);
    && w.stream.Recipient? && w.stream.address != "" && w.sendOk && !s'.stopped
    && s'.prices == s.prices && s'.ledger == s.ledger + [b] && s'.payees == s.payees + [w.stream.address]
    && s'.paidUp == w.loadedUp == s'.bytesUp && s'.paidDown == w.loadedDown == s'.bytesDown
    && s'.lastCost == b.cost > 0 && b.cost != s.lastCost
    && s'.lastPaymentTime == w.stamp
  }

  // The 64-bit cost of the unpaid traffic is the intended one.
  lemma UnpaidCostExact(s: State, w: Wake)
    requires CountersOk(s) && WakeOk(s, w)
    ensures UnpaidCost(s.(bytesUp := w.loadedUp, bytesDown := w.loadedDown)) == UnpaidBill(s, w).cost
  {
    MachineCostExact(s.prices, w.loadedUp, w.loadedDown, s.paidUp, s.paidDown);
  }

  lemma RoundPaysOrKeeps(s: State, w: Wake, cost: nat)
    requires s.paidUp <= w.loadedUp == s.bytesUp && s.paidDown <= w.loadedDown == s.bytesDown
    requires UnpaidCost(s) == cost == UnpaidBill(s, w).cost && !s.stopped
    ensures Keeps(s, Round(s, w)) || Pays(s, w, Round(s, w))
    ensures Round(s, w).bytesUp == s.bytesUp && Round(s, w).bytesDown == s.bytesDown
  {
  }

  // A wake-up either leaves the paid counters and the ledger alone, or pays exactly the unpaid ranges in one bill.
  lemma StepPaysOrKeeps(s: State, w: Wake)
    requires CountersOk(s) && WakeOk(s, w) && !s.stopped
    ensures Keeps(s, Step(s, w)) || Pays(s, w, Step(s, w))
    ensures CountersOk(Step(s, w))
  {
    UnpaidCostExact(s, w);
    RoundPaysOrKeeps(s.(bytesUp := w.loadedUp, bytesDown := w.loadedDown), w, UnpaidBill(s, w).cost);
  }

  lemma StepKeepsInv(s: State, w: Wake)
    requires Inv(s) && WakeOk(s, w) && !s.stopped
    ensures Inv(Step(s, w))
  {
    StepPaysOrKeeps(s, w);
    if !Keeps(s, Step(s, w)) {
      PayingKeepsBooks(s, w, Step(s, w));
    }
  }

  lemma PayingKeepsBooks(s: State, w: Wake, s': State)
    requires BooksOk(s) && s.paidUp <= w.loadedUp && s.paidDown <= w.loadedDown && Pays(s, w, s')
    ensures BooksOk(s')
  {
    assert s'.ledger[..|s'.ledger| - 1] == s.ledger;
    assert BillOk(s.prices, UnpaidBill(s, w));
  }

  // In every run the paid counters stay at or below the used ones, and the ledger stays exact.
  lemma {:induction false} RunKeepsInv(s: State, script: seq<Wake>)
    requires Inv(s) && RunOk(s, script)
    ensures Inv(Run(s, script)) && Run(s, script).prices == s.prices
    decreases |script|
  {
    if script != [] && !s.stopped {
      StepKeepsInv(s, script[0]);
      StepPaysOrKeeps(s, script[0]);
      RunKeepsInv(Step(s, script[0]), script[1..]);
    }
  }

  // Neither unsigned subtraction wraps, so the trigger compares the true amount of unpaid traffic.
  lemma NoUnsignedWrap(s: State)
    requires CountersOk(s)
    ensures U64(s.bytesUp - s.paidUp) == s.bytesUp - s.paidUp
    ensures U64(s.bytesDown - s.paidDown) == s.bytesDown - s.paidDown
    ensures OverThreshold(s.bytesUp, s.bytesDown, s.paidUp, s.paidDown)
       <==> (s.bytesUp - s.paidUp) + (s.bytesDown - s.paidDown) > 33_554_432
  {
    Word64(s.bytesUp - s.paidUp);
    Word64(s.bytesDown - s.paidDown);
    Word64(s.bytesUp + s.bytesDown);
    Word64(s.paidUp + s.paidDown);
    Word64(s.bytesUp + s.bytesDown - (s.paidUp + s.paidDown));
  }

  // Whole-run accounting: rounding drift, distinct consecutive increments, and every paid byte billed exactly once.
  lemma RunAccounting(prices: Prices, feeKnown: bool, now: int, script: seq<Wake>)
    requires prices.up < TWO63 && prices.down < TWO63
    requires RunOk(Start(prices, feeKnown, now), script)
    ensures var s := Run(Start(prices, feeKnown, now), script);
            var total := Cost(prices, s.paidUp, s.paidDown);
            && s.paidUp <= s.bytesUp && s.paidDown <= s.bytesDown
            && Claimable(s.ledger) <= total
            && total <= Claimable(s.ledger) + (if s.ledger == [] then 0 else 2 * (|s.ledger| - 1))
            && Distinct(s.ledger)
            && (forall x: nat :: TimesBilled(s.ledger, Up, x) == if x < s.paidUp then 1 else 0)
            && (forall x: nat :: TimesBilled(s.ledger, Down, x) == if x < s.paidDown then 1 else 0)
  {
    var s := Run(Start(prices, feeKnown, now), script);
    RunKeepsInv(Start(prices, feeKnown, now), script);
    DriftBound(prices, s.ledger, s.paidUp, s.paidDown);
    forall x: nat
      ensures TimesBilled(s.ledger, Up, x) == if x < s.paidUp then 1 else 0
      ensures TimesBilled(s.ledger, Down, x) == if x < s.paidDown then 1 else 0
    {
      BilledOnce(prices, s.ledger, s.paidUp, s.paidDown, Up, x);
      BilledOnce(prices, s.ledger, s.paidUp, s.paidDown, Down, x);
    }
  }

  // No wake-up comes so late that the timer, rather than the threshold, makes a payment due.
  predicate TimerNeverFires(s: State, script: seq<Wake>)
    decreases |script|
  {
    || script == []
    || s.stopped
    || (script[0].now - s.lastPaymentTime <= NANO_PAY_UPDATE_INTERVAL && TimerNeverFires(Step(s, script[0]), script[1..]))
  }

  lemma ThresholdPays(s: State, w: Wake)
    requires CountersOk(s) && WakeOk(s, w) && !s.stopped && s.prices.up >= 1 && s.prices.down >= 1
    requires w.now - s.lastPaymentTime <= NANO_PAY_UPDATE_INTERVAL && !Keeps(s, Step(s, w))
    ensures UnpaidBill(s, w).cost >= 31
  {
    NoUnsignedWrap(s.(bytesUp := w.polledUp, bytesDown := w.polledDown));
    ThresholdRoundCost(s.prices, w.loadedUp - s.paidUp, w.loadedDown - s.paidDown);
  }

  lemma {:induction false} ThresholdRunCosts(s: State, script: seq<Wake>)
    requires Inv(s) && RunOk(s, script) && TimerNeverFires(s, script)
    requires s.prices.up >= 1 && s.prices.down >= 1 && EachAtLeast(s.ledger, 31)
    ensures EachAtLeast(Run(s, script).ledger, 31)
    decreases |script|
  {
    if script != [] && !s.stopped {
      var w := script[0];
      StepKeepsInv(s, w);
      StepPaysOrKeeps(s, w);
      if !Keeps(s, Step(s, w)) {
        ThresholdPays(s, w);
      }
      ThresholdRunCosts(Step(s, w), script[1..]);
    }
  }

  /* ----- What a wake-up comes to: the channel, the fee, the bill ----- */

  // A payment to this address is due at this wake-up, with a new and positive cost.
  predicate Payable(s: State, w: Wake, address: string) {
    && !s.stopped && !w.closed && w.stream == Recipient(address) && address != ""
    && Due(s.(bytesUp := w.polledUp, bytesDown := w.polledDown), w.now)
    && s.lastCost != UnpaidCost(s.(bytesUp := w.loadedUp, bytesDown := w.loadedDown)) > 0
  }

  // The channel to the address exists already, or is created now.
  predicate HasChannel(s: State, w: Wake, address: string) {
    s.nanoPay == Some(address) || w.nanoPayOk
  }

  predicate HasFee(s: State, w: Wake) {
    s.feeKnown || w.feeOk
  }

  // A wake-up at which nothing is payable changes neither channel nor fee nor ledger, and only the close flag stops it.
  lemma NothingPayable(s: State, w: Wake)
    requires !s.stopped && forall address :: !Payable(s, w, address)
    ensures var s' := Step(s, w);
            && s'.nanoPay == s.nanoPay && s'.feeKnown == s.feeKnown && s'.ledger == s.ledger && s'.payees == s.payees
            && (s'.stopped <==> w.closed)
  {
    if w.stream.Recipient? {
      assert !Payable(s, w, w.stream.address);
    }
  }

  // Otherwise: without a channel the channel is gone and the loop goes on; with one but without the fee, or if sending
  // fails, the loop stops; with both and a successful sending, and only then, one bill goes to the address.
  lemma PayableWake(s: State, w: Wake, address: string)
    requires Payable(s, w, address)
    ensures var s' := Step(s, w);
            && s'.nanoPay == (if HasChannel(s, w, address) then Some(address) else None)
            && (s'.feeKnown <==> s.feeKnown || (HasChannel(s, w, address) && w.feeOk))
            && (s'.stopped <==> HasChannel(s, w, address) && !(HasFee(s, w) && w.sendOk))
            && (if HasChannel(s, w, address) && HasFee(s, w) && w.sendOk
                then |s'.ledger| == |s.ledger| + 1 && s'.payees == s.payees + [address]
                else s'.ledger == s.ledger && s'.payees == s.payees)
  {
  }

  /* ----- Channels and fees over whole runs ----- */

  lemma {:induction false} RunSnoc(s: State, script: seq<Wake>)
    requires script != []
    ensures var front := Run(s, script[..|script| - 1]);
            Run(s, script) == if front.stopped then front else Step(front, script[|script| - 1])
    decreases |script|
  {
    var n := |script| - 1;
    if n == 0 {
      assert script[..0] == [] && script[1..] == [];
    } else if !s.stopped {
      RunSnoc(Step(s, script[0]), script[1..]);
      assert script[..n][1..] == script[1..][..n - 1];
      assert script[1..][n - 1] == script[n] && script[..n][0] == script[0];
    }
  }

  // At wake-up i of the run a payment to the address was due, and creating a channel would have worked.
  ghost predicate OpensChannel(s: State, script: seq<Wake>, i: nat, address: string) {
    i < |script| && Payable(Run(s, script[..i]), script[i], address) && script[i].nanoPayOk
  }

  ghost predicate FixesFee(s: State, script: seq<Wake>, i: nat) {
    i < |script| && script[i].feeOk && exists address :: Payable(Run(s, script[..i]), script[i], address)
  }

  // Bill b is paid at wake-up j, to an address for which some wake-up up to j could create a channel, and with a fee that
  // was given or could be computed at some wake-up up to j.
  ghost predicate BillFounded(s: State, script: seq<Wake>, b: nat, j: nat, payee: string) {
    && j < |script| && Payable(Run(s, script[..j]), script[j], payee) && script[j].sendOk
    && |Run(s, script[..j]).ledger| == b
    && (exists i: nat :: i <= j && OpensChannel(s, script, i, payee))
    && (s.feeKnown || exists i: nat :: i <= j && FixesFee(s, script, i))
  }

  ghost predicate IsFounded(s: State, script: seq<Wake>, b: nat, payee: string) {
    exists j: nat :: BillFounded(s, script, b, j, payee)
  }

  // What the loop holds on to was obtained at some wake-up of the run.
  ghost predicate HoldingsFounded(s: State, script: seq<Wake>, s': State) {
    && (s'.nanoPay.Some? ==> exists i: nat :: OpensChannel(s, script, i, s'.nanoPay.value))
    && (s'.feeKnown ==> s.feeKnown || exists i: nat :: FixesFee(s, script, i))
  }

  ghost predicate BillsFounded(s: State, script: seq<Wake>, s': State) {
    && |s'.payees| == |s'.ledger|
    && forall b: nat :: b < |s'.payees| ==> IsFounded(s, script, b, s'.payees[b])
  }

  lemma FoundedEarlier(s: State, script: seq<Wake>, n: nat, i: nat, address: string)
    requires n <= |script| && i < n
    ensures OpensChannel(s, script[..n], i, address) <==> OpensChannel(s, script, i, address)
    ensures FixesFee(s, script[..n], i) <==> FixesFee(s, script, i)
  {
    assert script[..n][..i] == script[..i];
  }

  lemma BillFoundedEarlier(s: State, script: seq<Wake>, n: nat, b: nat, j: nat, payee: string)
    requires n <= |script| && BillFounded(s, script[..n], b, j, payee)
    ensures BillFounded(s, script, b, j, payee)
  {
    assert script[..n][..j] == script[..j];
    var i: nat :| i <= j && OpensChannel(s, script[..n], i, payee);
    FoundedEarlier(s, script, n, i, payee);
    if !s.feeKnown {
      var k: nat :| k <= j && FixesFee(s, script[..n], k);
      FoundedEarlier(s, script, n, k, payee);
    }
  }

  // The last wake-up keeps what was founded, or founds something itself.
  lemma LastWakeFounds(s: State, script: seq<Wake>, before: State)
    requires script != [] && before == Run(s, script[..|script| - 1]) && !before.stopped
    requires HoldingsFounded(s, script[..|script| - 1], before)
    ensures HoldingsFounded(s, script, Step(before, script[|script| - 1]))
  {
    var n := |script| - 1;
    var w := script[n];
    HoldingsStay(s, script, before);
    if address :| Payable(before, w, address) {
      PayableWake(before, w, address);
      assert w.nanoPayOk ==> OpensChannel(s, script, n, address);
      assert w.feeOk ==> FixesFee(s, script, n);
    } else {
      NothingPayable(before, w);
    }
  }

  lemma HoldingsStay(s: State, script: seq<Wake>, before: State)
    requires script != [] && HoldingsFounded(s, script[..|script| - 1], before)
    ensures HoldingsFounded(s, script, before)
  {
    var n := |script| - 1;
    if before.nanoPay.Some? {
      var i: nat :| OpensChannel(s, script[..n], i, before.nanoPay.value);
      FoundedEarlier(s, script, n, i, before.nanoPay.value);
    }
    if before.feeKnown && !s.feeKnown {
      var i: nat :| FixesFee(s, script[..n], i);
      FoundedEarlier(s, script, n, i, "");
    }
  }

  lemma LastBillFounded(s: State, script: seq<Wake>, before: State, address: string)
    requires script != [] && before == Run(s, script[..|script| - 1])
    requires HoldingsFounded(s, script[..|script| - 1], before)
    requires var w := script[|script| - 1];
             Payable(before, w, address) && w.sendOk && HasChannel(before, w, address) && HasFee(before, w)
    ensures BillFounded(s, script, |before.ledger|, |script| - 1, address)
  {
    var n := |script| - 1;
    var w := script[n];
    if w.nanoPayOk {
      assert OpensChannel(s, script, n, address);
    } else {
      var i: nat :| OpensChannel(s, script[..n], i, address);
      FoundedEarlier(s, script, n, i, address);
      assert i <= n && OpensChannel(s, script, i, address);
    }
    if !s.feeKnown {
      if w.feeOk {
        assert FixesFee(s, script, n);
      } else {
        var k: nat :| FixesFee(s, script[..n], k);
        FoundedEarlier(s, script, n, k, "");
        assert k <= n && FixesFee(s, script, k);
      }
    }
  }

  lemma IsFoundedLater(s: State, script: seq<Wake>, b: nat, payee: string)
    requires script != [] && IsFounded(s, script[..|script| - 1], b, payee)
    ensures IsFounded(s, script, b, payee)
  {
    var j: nat :| BillFounded(s, script[..|script| - 1], b, j, payee);
    BillFoundedEarlier(s, script, |script| - 1, b, j, payee);
  }

  // At most one bill is new, and it is founded.
  lemma LastWakeBills(s: State, script: seq<Wake>, before: State)
    requires script != [] && before == Run(s, script[..|script| - 1]) && !before.stopped
    requires HoldingsFounded(s, script[..|script| - 1], before) && BillsFounded(s, script[..|script| - 1], before)
    ensures BillsFounded(s, script, Step(before, script[|script| - 1]))
  {
    var w := script[|script| - 1];
    var s' := Step(before, w);
    if address :| Payable(before, w, address) {
      PayableWake(before, w, address);
      if HasChannel(before, w, address) && HasFee(before, w) && w.sendOk {
        LastBillFounded(s, script, before, address);
        assert IsFounded(s, script, |before.payees|, address);
      }
    } else {
      NothingPayable(before, w);
    }
    forall b: nat | b < |s'.payees|
      ensures IsFounded(s, script, b, s'.payees[b])
    {
      if b < |before.payees| {
        IsFoundedLater(s, script, b, before.payees[b]);
      }
    }
  }

  lemma BillsStay(s: State, script: seq<Wake>, before: State)
    requires script != [] && BillsFounded(s, script[..|script| - 1], before)
    ensures BillsFounded(s, script, before)
  {
    forall b: nat | b < |before.payees|
      ensures IsFounded(s, script, b, before.payees[b])
    {
      IsFoundedLater(s, script, b, before.payees[b]);
    }
  }

  lemma {:induction false} RunIsFounded(s: State, script: seq<Wake>)
    requires Begins(s)
    ensures HoldingsFounded(s, script, Run(s, script)) && BillsFounded(s, script, Run(s, script))
    decreases |script|
  {
    if script != [] {
      var front := script[..|script| - 1];
      RunIsFounded(s, front);
      RunSnoc(s, script);
      var before := Run(s, front);
      if before.stopped {
        HoldingsStay(s, script, before);
        BillsStay(s, script, before);
      } else {
        LastWakeFounds(s, script, before);
        LastWakeBills(s, script, before);
      }
    }
  }

  // The loop has just begun.
  predicate Begins(s: State) {
    !s.stopped && s.nanoPay.None? && s.ledger == [] && s.payees == []
  }

  lemma StartBegins(prices: Prices, feeKnown: bool, now: int)
    ensures Begins(Start(prices, feeKnown, now)) && Start(prices, feeKnown, now).feeKnown == feeKnown
  {
  }

  // In every run of the loop, each bill goes to an address for which a channel could be created when a payment to it was
  // due, and carries a fee that was given or could be computed.
  lemma EveryBillHasChannel(s: State, script: seq<Wake>, b: nat)
    requires Begins(s) && b < |Run(s, script).ledger|
    ensures |Run(s, script).payees| == |Run(s, script).ledger|
    ensures IsFounded(s, script, b, Run(s, script).payees[b])
  {
    RunIsFounded(s, script);
  }

  lemma FoundedNeeds(s: State, script: seq<Wake>, b: nat, payee: string)
    requires IsFounded(s, script, b, payee)
    ensures exists i :: 0 <= i < |script| && script[i].nanoPayOk
    ensures s.feeKnown || exists i :: 0 <= i < |script| && script[i].feeOk
  {
  }

  // If no channel could ever be created, or no fee is given and none could ever be computed, nothing is ever paid.
  lemma NoChannelNoPayment(s: State, script: seq<Wake>)
    requires Begins(s)
    requires || (forall i :: 0 <= i < |script| ==> !script[i].nanoPayOk)
             || (!s.feeKnown && forall i :: 0 <= i < |script| ==> !script[i].feeOk)
    ensures Run(s, script).ledger == []
  {
    var s' := Run(s, script);
    RunIsFounded(s, script);
    if |s'.ledger| > 0 {
      FoundedNeeds(s, script, 0, s'.payees[0]);
      assert false;
    }
  }

  // At none of these wake-ups is anything payable.
  ghost predicate Unpayable(s: State, script: seq<Wake>)
    decreases |script|
  {
    || script == []
    || (&& (forall address :: !Payable(s, script[0], address)) && !script[0].closed
        && Unpayable(Step(s, script[0]), script[1..]))
  }

  lemma {:induction false} UnpayableKeeps(s: State, script: seq<Wake>)
    requires !s.stopped && Unpayable(s, script)
    ensures var s' := Run(s, script);
            !s'.stopped && s'.nanoPay == s.nanoPay && s'.feeKnown == s.feeKnown && s'.ledger == s.ledger
    decreases |script|
  {
    if script != [] {
      NothingPayable(s, script[0]);
      UnpayableKeeps(Step(s, script[0]), script[1..]);
    }
  }

  // After a payment to an address, the next payable wake-up, if it is for that address, needs neither a new channel nor a
  // new fee.
  lemma NextPaymentNeedsNothing(s: State, w: Wake, idle: seq<Wake>, next: Wake, address: string)
    requires Payable(s, w, address) && |Step(s, w).ledger| > |s.ledger| && Unpayable(Step(s, w), idle)
    requires Payable(Run(Step(s, w), idle), next, address) && next.sendOk
    ensures var s' := Step(Run(Step(s, w), idle), next);
            |s'.ledger| == |s.ledger| + 2 && !s'.stopped
  {
    PayableWake(s, w, address);
    UnpayableKeeps(Step(s, w), idle);
    PayableWake(Run(Step(s, w), idle), next, address);
  }
}
