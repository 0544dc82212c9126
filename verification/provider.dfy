/**
  The paid side: totals recomputed from per-service traffic counters, credit for received payments,
  and the test that closes a session which has not been paid enough.
*/
module Provider {
  import opened Wrappers
  import opened Machine
  import opened Billing

  const SERVICES: nat := 256

  /* ----- Totals ----- */

  // The price of a service id, if the service exists and its price parses.
  type PriceTable = seq<Option<Prices>>

  function PriceOf(prices: PriceTable, id: nat): Option<Prices> {
    if id < |prices| then prices[id] else None
  }

  predicate Billable(prices: PriceTable, up: seq<nat>, down: seq<nat>, id: nat)
    requires id < |up| == |down|
  {
    (up[id] != 0 || down[id] != 0) && PriceOf(prices, id).Some?
  }

  function TotalCost(prices: PriceTable, up: seq<nat>, down: seq<nat>, n: nat): nat
    requires n <= |up| == |down|
  {
    if n == 0 then 0
    else
      TotalCost(prices, up, down, n - 1)
      + if Billable(prices, up, down, n - 1) then Cost(PriceOf(prices, n - 1).value, up[n - 1], down[n - 1]) else 0
  }

  function TotalBytes(prices: PriceTable, up: seq<nat>, down: seq<nat>, n: nat): nat
    requires n <= |up| == |down|
  {
    if n == 0 then 0
    else
      TotalBytes(prices, up, down, n - 1)
      + if Billable(prices, up, down, n - 1) then up[n - 1] + down[n - 1] else 0
  }

  // One iteration of the summing loop in 64-bit arithmetic, on the running (cost, bytes).
  function AddService(sum: (Fixed64, Fixed64), price: Option<Prices>, up: Word, down: Word): (Fixed64, Fixed64) {
    if (I64(up) == 0 && I64(down) == 0) || price.None? then sum
    else (I64(sum.0 + MachineCost(price.value, up, down, 0, 0)), I64(sum.1 + I64(I64(up) + I64(down))))
  }

  function MachineTotal(prices: PriceTable, up: seq<Word>, down: seq<Word>, n: nat): (Fixed64, Fixed64)
    requires n <= |up| == |down|
  {
    if n == 0 then (0, 0)
    else AddService(MachineTotal(prices, up, down, n - 1), PriceOf(prices, n - 1), up[n - 1], down[n - 1])
  }

  // Every priced product fits a signed 64-bit value, and so does the traffic counted so far.
  ghost predicate TotalsFit(prices: PriceTable, up: seq<Word>, down: seq<Word>, n: nat)
    requires n <= |up| == |down|
  {
    && SumTo(up, n) + SumTo(down, n) < TWO63
    && forall i :: 0 <= i < n ==> ServiceFits(PriceOf(prices, i), up[i], down[i])
  }

  function SumTo(xs: seq<nat>, n: nat): nat
    requires n <= |xs|
  {
    if n == 0 then 0 else SumTo(xs, n - 1) + xs[n - 1]
  }

  lemma CostSmall(p: Prices, up: nat, down: nat)
    requires p.up * up < TWO63 && p.down * down < TWO63
    ensures Cost(p, up, down) <= 0x1000_0000_0000
  {
    ChargeBounds(p.up, up);
    ChargeBounds(p.down, down);
  }

  lemma MachineServiceCost(p: Prices, up: Word, down: Word)
    requires p.up < TWO63 && p.down < TWO63 && p.up * up < TWO63 && p.down * down < TWO63
    ensures MachineCost(p, up, down, 0, 0) == Cost(p, up, down) <= 0x1000_0000_0000
  {
    MachineCostExact(p, up, down, 0, 0);
    CostSmall(p, up, down);
  }

  lemma MachineAdd(total: nat, bytes: nat, cost: nat, up: nat, down: nat)
    requires total + cost < TWO63 && bytes + up + down < TWO63
    ensures I64(total + cost) == total + cost
    ensures I64(up) == up && I64(down) == down && I64(bytes + I64(I64(up) + I64(down))) == bytes + up + down
  {
    Unwrapped(total + cost);
    Unwrapped(up);
    Unwrapped(down);
    Unwrapped(up + down);
    Unwrapped(bytes + up + down);
  }

  predicate ServiceFits(price: Option<Prices>, up: nat, down: nat) {
    price.Some? ==>
      var p := price.value;
      p.up < TWO63 && p.down < TWO63 && p.up * up < TWO63 && p.down * down < TWO63
  }

  lemma AddServiceExact(cost: nat, bytes: nat, price: Option<Prices>, up: Word, down: Word)
    requires ServiceFits(price, up, down) && bytes + up + down < TWO63 && cost <= 0x1000_0000_0000_0000
    ensures var billable := (up != 0 || down != 0) && price.Some?;
            && AddService((cost, bytes), price, up, down)
               == (cost + (if billable then Cost(price.value, up, down) else 0), bytes + if billable then up + down else 0)
            && (billable ==> Cost(price.value, up, down) <= 0x1000_0000_0000)
  {
    MachineAdd(0, bytes, 0, up, down);
    if price.Some? {
      var c := Cost(price.value, up, down);
      MachineServiceCost(price.value, up, down);
      Unwrapped(cost + c);
      assert AddService((cost, bytes), price, up, down)
          == if up == 0 && down == 0 then (cost, bytes) else (cost + c, bytes + up + down);
    }
  }

  // As long as the priced traffic fits, the 64-bit totals are the intended ones.
  lemma {:induction false} MachineTotalExact(prices: PriceTable, up: seq<Word>, down: seq<Word>, n: nat)
    requires n <= |up| == |down| && n <= SERVICES
    requires TotalsFit(prices, up, down, n)
    ensures MachineTotal(prices, up, down, n) == (TotalCost(prices, up, down, n), TotalBytes(prices, up, down, n))
    ensures TotalCost(prices, up, down, n) <= n * 0x1000_0000_0000
    ensures TotalBytes(prices, up, down, n) <= SumTo(up, n) + SumTo(down, n)
  {
    if n > 0 {
      var i := n - 1;
      MachineTotalExact(prices, up, down, i);
      AddServiceExact(TotalCost(prices, up, down, i), TotalBytes(prices, up, down, i), PriceOf(prices, i), up[i], down[i]);
    }
  }

  /** The traffic counters of one client session, indexed by service id. */
  class SessionMeter {
    const prices: PriceTable
    const entryToExit: array<Word>
    const exitToEntry: array<Word>

    ghost predicate Valid() {
      entryToExit.Length == exitToEntry.Length == SERVICES
    }

    constructor (prices: PriceTable)
      ensures Valid() && fresh(entryToExit) && fresh(exitToEntry) && this.prices == prices
      ensures forall i :: 0 <= i < SERVICES ==> entryToExit[i] == 0 && exitToEntry[i] == 0
    {
      this.prices := prices;
      entryToExit := new Word[SERVICES](_ => 0);
      exitToEntry := new Word[SERVICES](_ => 0);
    }

    method GetTotalCost() returns (cost: Fixed64, totalBytes: Fixed64)
      requires Valid()
      ensures (cost, totalBytes) == MachineTotal(prices, entryToExit[..], exitToEntry[..], SERVICES)
    {
      var sum := (0, 0);
      for i := 0 to SERVICES
        invariant sum == MachineTotal(prices, entryToExit[..], exitToEntry[..], i)
      {
        sum := AddService(sum, PriceOf(prices, i), entryToExit[i], exitToEntry[i]);
      }
      cost, totalBytes := sum.0, sum.1;
    }
  }

  /* The totals on the table itself: each priced service adds its own traffic at its own price. */

  function TableCost(prices: PriceTable, up: seq<nat>, down: seq<nat>, n: nat): nat
    requires n <= |up| == |down|
  {
    if n == 0 then 0
    else
      TableCost(prices, up, down, n - 1)
      + if n - 1 < |prices| && prices[n - 1].Some? then Cost(prices[n - 1].value, up[n - 1], down[n - 1]) else 0
  }

  function TableBytes(prices: PriceTable, up: seq<nat>, down: seq<nat>, n: nat): nat
    requires n <= |up| == |down|
  {
    if n == 0 then 0
    else
      TableBytes(prices, up, down, n - 1)
      + if n - 1 < |prices| && prices[n - 1].Some? then up[n - 1] + down[n - 1] else 0
  }

  // Looking prices up and skipping idle services changes neither sum.
  lemma {:induction false} SkippingIdleIsHarmless(prices: PriceTable, up: seq<nat>, down: seq<nat>, n: nat)
    requires n <= |up| == |down|
    ensures TotalCost(prices, up, down, n) == TableCost(prices, up, down, n)
    ensures TotalBytes(prices, up, down, n) == TableBytes(prices, up, down, n)
  {
    if n > 0 {
      SkippingIdleIsHarmless(prices, up, down, n - 1);
      if up[n - 1] == 0 && down[n - 1] == 0 && n - 1 < |prices| && prices[n - 1].Some? {
        var p := prices[n - 1].value;
        assert p.up * 0 == 0 && p.down * 0 == 0;
      }
    }
  }

  // The service has a price in the table.
  predicate Priced(prices: PriceTable, id: nat) {
    id < |prices| && prices[id].Some?
  }

  // Services without a price add nothing, whatever their traffic.
  lemma {:induction false} UnpricedAddNothing(prices: PriceTable, up: seq<nat>, down: seq<nat>, n: nat)
    requires n <= |up| == |down| && forall i :: 0 <= i < n && Priced(prices, i) ==> up[i] == 0 && down[i] == 0
    ensures TotalCost(prices, up, down, n) == 0 && TotalBytes(prices, up, down, n) == 0
  {
    if n > 0 {
      UnpricedAddNothing(prices, up, down, n - 1);
      SkippingIdleIsHarmless(prices, up, down, n - 1);
      SkippingIdleIsHarmless(prices, up, down, n);
      if Priced(prices, n - 1) {
        var p := prices[n - 1].value;
        assert p.up * 0 == 0 && p.down * 0 == 0;
      }
    }
  }

  // Two priced services in use add up, each at its own price.
  lemma {:induction false} TwoServicesTotal(prices: PriceTable, up: seq<nat>, down: seq<nat>, a: nat, b: nat, n: nat)
    requires n <= |up| == |down| && a < b < n && Priced(prices, a) && Priced(prices, b)
    requires forall i :: 0 <= i < n && i != a && i != b ==> up[i] == 0 && down[i] == 0
    ensures TotalCost(prices, up, down, n)
         == Cost(prices[a].value, up[a], down[a]) + Cost(prices[b].value, up[b], down[b])
    ensures TotalBytes(prices, up, down, n) == up[a] + down[a] + up[b] + down[b]
  {
    SkippingIdleIsHarmless(prices, up, down, n - 1);
    SkippingIdleIsHarmless(prices, up, down, n);
    if b == n - 1 {
      SingleServiceTotal(prices, up, down, a, n - 1);
    } else {
      TwoServicesTotal(prices, up, down, a, b, n - 1);
      if Priced(prices, n - 1) {
        var p := prices[n - 1].value;
        assert p.up * 0 == 0 && p.down * 0 == 0;
      }
    }
  }

  lemma {:induction false} TotalsMonotone(prices: PriceTable, up: seq<nat>, down: seq<nat>, up': seq<nat>, down': seq<nat>, n: nat)
    requires n <= |up| == |down| == |up'| == |down'|
    requires forall i :: 0 <= i < n ==> up[i] <= up'[i] && down[i] <= down'[i]
    ensures TotalCost(prices, up, down, n) <= TotalCost(prices, up', down', n)
    ensures TotalBytes(prices, up, down, n) <= TotalBytes(prices, up', down', n)
  {
    if n > 0 {
      TotalsMonotone(prices, up, down, up', down', n - 1);
      if Billable(prices, up, down, n - 1) {
        CostMono(PriceOf(prices, n - 1).value, up[n - 1], down[n - 1], up'[n - 1], down'[n - 1]);
      }
    }
  }

  // Whatever costs something has moved bytes, so an average price is defined.
  lemma {:induction false} CostNeedsBytes(prices: PriceTable, up: seq<nat>, down: seq<nat>, n: nat)
    requires n <= |up| == |down|
    ensures TotalCost(prices, up, down, n) > 0 ==> TotalBytes(prices, up, down, n) > 0
  {
    if n > 0 {
      CostNeedsBytes(prices, up, down, n - 1);
    }
  }

  // With one price for all services, the provider's total never exceeds the cost of the same traffic billed at once.
  lemma {:induction false} TotalBelowOneShot(p: Prices, prices: PriceTable, up: seq<nat>, down: seq<nat>, n: nat)
    requires n <= |up| == |down|
    requires forall i :: 0 <= i < n && PriceOf(prices, i).Some? ==> PriceOf(prices, i).value == p
    ensures TotalCost(prices, up, down, n) <= Cost(p, SumTo(up, n), SumTo(down, n))
  {
    if n > 0 {
      TotalBelowOneShot(p, prices, up, down, n - 1);
      ChargeSplit(p.up, SumTo(up, n - 1), up[n - 1]);
      ChargeSplit(p.down, SumTo(down, n - 1), down[n - 1]);
    }
  }

  // A client that uses a single priced service is charged the plain cost of that service's two counters at its own price.
  lemma {:induction false} SingleServiceTotal(prices: PriceTable, up: seq<nat>, down: seq<nat>, id: nat, n: nat)
    requires n <= |up| == |down| && Priced(prices, id)
    requires forall i :: 0 <= i < n && i != id ==> up[i] == 0 && down[i] == 0
    ensures TotalCost(prices, up, down, n) == if id < n then Cost(prices[id].value, up[id], down[id]) else 0
    ensures TotalBytes(prices, up, down, n) == if id < n then up[id] + down[id] else 0
  {
    if n > 0 {
      SingleServiceTotal(prices, up, down, id, n - 1);
      SkippingIdleIsHarmless(prices, up, down, n - 1);
      SkippingIdleIsHarmless(prices, up, down, n);
      if Priced(prices, n - 1) {
        var p := prices[n - 1].value;
        assert p.up * 0 == 0 && p.down * 0 == 0;
      }
    }
  }

  /* ----- The reverse entry: one price pair, per-service UDP counters plus two TCP counters ----- */

  function Uniform(p: Prices): PriceTable {
    seq(SERVICES, _ => Some(p))
  }

  function ReverseTotalCost(p: Prices, up: seq<nat>, down: seq<nat>, tcpUp: nat, tcpDown: nat): nat
    requires |up| == |down| == SERVICES
  {
    TotalCost(Uniform(p), up, down, SERVICES) + Cost(p, tcpUp, tcpDown)
  }

  function ReverseTotalBytes(p: Prices, up: seq<nat>, down: seq<nat>, tcpUp: nat, tcpDown: nat): nat
    requires |up| == |down| == SERVICES
  {
    TotalBytes(Uniform(p), up, down, SERVICES) + tcpUp + tcpDown
  }

  lemma {:induction false} TotalDrift(p: Prices, prices: PriceTable, up: seq<nat>, down: seq<nat>, n: nat)
    requires n <= |up| == |down| && forall i :: 0 <= i < n ==> Priced(prices, i) && prices[i].value == p
    ensures Cost(p, SumTo(up, n), SumTo(down, n)) <= TotalCost(prices, up, down, n) + 2 * n
    ensures TotalBytes(prices, up, down, n) == SumTo(up, n) + SumTo(down, n)
  {
    SkippingIdleIsHarmless(prices, up, down, n);
    if n == 0 {
      assert p.up * 0 == 0 && p.down * 0 == 0;
    } else {
      TotalDrift(p, prices, up, down, n - 1);
      SkippingIdleIsHarmless(prices, up, down, n - 1);
      ChargeSplit(p.up, SumTo(up, n - 1), up[n - 1]);
      ChargeSplit(p.down, SumTo(down, n - 1), down[n - 1]);
    }
  }

  // The reverse entry counts all bytes, and its total falls short of billing them at once by at most two units a service.
  lemma ReverseTotalDrift(p: Prices, up: seq<nat>, down: seq<nat>, tcpUp: nat, tcpDown: nat)
    requires |up| == |down| == SERVICES
    ensures Cost(p, SumTo(up, SERVICES) + tcpUp, SumTo(down, SERVICES) + tcpDown)
         <= ReverseTotalCost(p, up, down, tcpUp, tcpDown) + 2 * 257
    ensures ReverseTotalBytes(p, up, down, tcpUp, tcpDown) == SumTo(up, SERVICES) + SumTo(down, SERVICES) + tcpUp + tcpDown
  {
    TotalDrift(p, Uniform(p), up, down, SERVICES);
    ChargeSplit(p.up, SumTo(up, SERVICES), tcpUp);
    ChargeSplit(p.down, SumTo(down, SERVICES), tcpDown);
  }

  lemma ReverseTotalBelowOneShot(p: Prices, up: seq<nat>, down: seq<nat>, tcpUp: nat, tcpDown: nat)
    requires |up| == |down| == SERVICES
    ensures ReverseTotalCost(p, up, down, tcpUp, tcpDown)
         <= Cost(p, SumTo(up, SERVICES) + tcpUp, SumTo(down, SERVICES) + tcpDown)
  {
    TotalBelowOneShot(p, Uniform(p), up, down, SERVICES);
    ChargeSplit(p.up, SumTo(up, SERVICES), tcpUp);
    ChargeSplit(p.down, SumTo(down, SERVICES), tcpDown);
  }

  /* ----- Credit and cut-off ----- */

  function Credit(totalBytes: nat, amount: nat, totalCost: nat): nat
    requires totalCost > 0
  {
    totalBytes * (amount / totalCost)
  }

  // Not covered to nine tenths, and more than one unit of traffic at the average price unpaid.
  predicate Closes(lastPaymentAmount: nat, totalCost: nat, totalBytes: nat)
    requires totalBytes > 0
  {
    && lastPaymentAmount < 9 * totalCost / 10
    && totalCost - lastPaymentAmount > TRAFFIC_UNIT * totalCost / totalBytes
  }


  // The cut-off without divisions: at least one whole unit short of 90%, and the unpaid cost above one MiB's share.
  lemma ClosesRule(lastPaymentAmount: nat, totalCost: nat, totalBytes: nat)
    requires totalBytes > 0
    ensures Closes(lastPaymentAmount, totalCost, totalBytes)
       <==> && 10 * (lastPaymentAmount + 1) <= 9 * totalCost
            && (totalCost - lastPaymentAmount) * totalBytes > TRAFFIC_UNIT * totalCost
  {
    var unpaid := totalCost - lastPaymentAmount;
    var share := TRAFFIC_UNIT * totalCost / totalBytes;
    DivBounds(TRAFFIC_UNIT * totalCost, totalBytes);
    if unpaid > share {
      MulMono(totalBytes, share + 1, unpaid);
      assert totalBytes * unpaid == unpaid * totalBytes;
    } else {
      MulMono(totalBytes, unpaid, share);
      assert totalBytes * unpaid == unpaid * totalBytes;
    }
  }

  // The credited bytes never exceed the proportional share, and equal it exactly when the division leaves nothing.
  lemma CreditBelowShare(totalBytes: nat, amount: nat, totalCost: nat)
    requires totalCost > 0
    ensures totalCost * Credit(totalBytes, amount, totalCost) <= totalBytes * amount
    ensures totalCost * Credit(totalBytes, amount, totalCost) == totalBytes * amount
       <==> totalBytes == 0 || amount % totalCost == 0
  {
    var q, r := amount / totalCost, amount % totalCost;
    assert amount == totalCost * q + r;
    assert totalBytes * amount == totalBytes * (totalCost * q) + totalBytes * r;
    assert totalBytes * (totalCost * q) == totalCost * (totalBytes * q) by {
      MulSwap(totalBytes, totalCost, q);
    }
    if totalBytes > 0 && r > 0 {
      MulMono(totalBytes, 1, r);
    }
  }

  lemma MulSwap(a: nat, b: nat, c: nat)
    ensures a * (b * c) == b * (a * c)
  {
  }

  // Whenever exact proportional accounting has more than 32 MiB unpaid, so does the truncated credit.
  lemma CreditTriggersNoLater(totalBytes: nat, amount: nat, totalCost: nat, bytesNow: nat)
    requires totalCost > 0
    requires totalCost * (bytesNow - TRAFFIC_PAYMENT_THRESHOLD * TRAFFIC_UNIT) > totalBytes * amount
    ensures bytesNow - Credit(totalBytes, amount, totalCost) > TRAFFIC_PAYMENT_THRESHOLD * TRAFFIC_UNIT
  {
    CreditBelowShare(totalBytes, amount, totalCost);
    var slack := bytesNow - TRAFFIC_PAYMENT_THRESHOLD * TRAFFIC_UNIT;
    if slack <= Credit(totalBytes, amount, totalCost) {
      MulMono(totalCost, slack, Credit(totalBytes, amount, totalCost));
    }
  }

  // A sample whose bytes are all paid for in increments of at least 18 units never closes the session.
  lemma CoveredSampleNeverCloses(p: Prices, ledger: seq<Bill>, up: nat, down: nat, sampleUp: nat, sampleDown: nat,
                                 sampleCost: nat, sampleBytes: nat)
    requires LedgerOk(p, ledger, up, down) && EachAtLeast(ledger, 18)
    requires sampleUp <= up && sampleDown <= down && sampleCost <= Cost(p, sampleUp, sampleDown) && sampleBytes > 0
    ensures !Closes(Claimable(ledger), sampleCost, sampleBytes)
  {
    CoverageNineTenths(p, ledger, up, down);
    CostMono(p, sampleUp, sampleDown, up, down);
  }

  /* 18 cannot be lowered to 17: a run whose increments alternate 17, 18 pays for everything and is still cut off. */

  const UNIT_PRICES := Prices(1, 1)

  function LeanLedger(rounds: nat): seq<Bill> {
    if rounds == 0 then []
    else
      var up, down := (rounds - 1) * (19 * TRAFFIC_UNIT - 2), (rounds - 1) * (20 * TRAFFIC_UNIT - 2);
      LeanLedger(rounds - 1) + [
        Bill(up, up + 9 * TRAFFIC_UNIT - 1, down, down + 10 * TRAFFIC_UNIT - 1, 17),
        Bill(up + 9 * TRAFFIC_UNIT - 1, up + 19 * TRAFFIC_UNIT - 2, down + 10 * TRAFFIC_UNIT - 1, down + 20 * TRAFFIC_UNIT - 2, 18)]
  }

  lemma {:induction false} LeanLedgerOk(rounds: nat)
    ensures LedgerOk(UNIT_PRICES, LeanLedger(rounds), rounds * (19 * TRAFFIC_UNIT - 2), rounds * (20 * TRAFFIC_UNIT - 2))
    ensures EachAtLeast(LeanLedger(rounds), 17)
    ensures Claimable(LeanLedger(rounds)) == 35 * rounds
  {
    if rounds > 0 {
      LeanLedgerOk(rounds - 1);
      var ledger, before := LeanLedger(rounds), LeanLedger(rounds - 1);
      var half := ledger[..|ledger| - 1];
      assert half[..|half| - 1] == before;
    }
  }

  lemma EighteenIsSharp()
    ensures var up, down := 28 * (19 * TRAFFIC_UNIT - 2), 28 * (20 * TRAFFIC_UNIT - 2);
            && LedgerOk(UNIT_PRICES, LeanLedger(28), up, down)
            && EachAtLeast(LeanLedger(28), 17)
            && Closes(Claimable(LeanLedger(28)), Cost(UNIT_PRICES, up, down), up + down)
  {
    LeanLedgerOk(28);
  }

  /* ----- What the provider keeps about one paying client ----- */

  datatype Books = Books(lastPaymentAmount: nat, lastPaymentTime: int, bytesPaid: nat, isClosed: bool)

  // The outcomes of up to three claims of one payment; the first success counts.
  type Claims = claims: seq<Option<nat>> | |claims| == 3 witness [None, None, None]

  function FirstClaim(claims: seq<Option<nat>>): Option<nat> {
    if claims == [] then None else if claims[0].Some? then claims[0] else FirstClaim(claims[1..])
  }

  // The delayed sample calls for a check.
  predicate CheckDue(b: Books, now: int, totalCost: nat, totalBytes: nat) {
    && totalCost > b.lastPaymentAmount
    && (|| now - b.lastPaymentTime > NANO_PAY_UPDATE_INTERVAL
        || totalBytes - b.bytesPaid > TRAFFIC_PAYMENT_THRESHOLD * TRAFFIC_UNIT)
  }

  // One message on the payment stream: without a cost yet it is ignored.
  function AfterPayment(b: Books, claims: Claims, now: int, totalCost: nat, totalBytes: nat): Books {
    if totalCost == 0 then b
    else
      match FirstClaim(claims)
      case None => b
      case Some(amount) => b.(lastPaymentAmount := amount, lastPaymentTime := now,
                              bytesPaid := Credit(totalBytes, amount, totalCost))
  }

  // The verdict at the end of the grace period, on the sample taken when it began.
  function AfterJudgement(b: Books, totalCost: nat, totalBytes: nat): Books
    requires totalBytes > 0
  {
    b.(isClosed := b.isClosed || Closes(b.lastPaymentAmount, totalCost, totalBytes))
  }

  lemma {:induction false} FirstClaimCounts(claims: seq<Option<nat>>)
    ensures match FirstClaim(claims)
            case None => forall i :: 0 <= i < |claims| ==> claims[i].None?
            case Some(amount) => exists i :: 0 <= i < |claims| && claims[i] == Some(amount)
                                             && forall j :: 0 <= j < i ==> claims[j].None?
  {
    if claims != [] && claims[0].None? {
      FirstClaimCounts(claims[1..]);
      if FirstClaim(claims).Some? {
        var k :| 0 <= k < |claims[1..]| && claims[1..][k] == FirstClaim(claims)
                 && forall j :: 0 <= j < k ==> claims[1..][j].None?;
        assert claims[k + 1] == FirstClaim(claims);
        assert forall j :: 0 < j < k + 1 ==> claims[j] == claims[1..][j - 1];
      } else {
        assert forall j :: 0 < j < |claims| ==> claims[j] == claims[1..][j - 1];
      }
    }
  }

  // A payment changes the books exactly if there is a cost and some claim succeeds; then the first claim that succeeds is
  // booked, and the credit is the sample's bytes once for every whole time that the amount covers the cost.
  lemma PaymentSettles(b: Books, claims: Claims, now: int, totalCost: nat, totalBytes: nat)
    ensures var b' := AfterPayment(b, claims, now, totalCost, totalBytes);
            var paid := totalCost > 0 && exists i :: 0 <= i < 3 && claims[i].Some?;
            && b'.isClosed == b.isClosed
            && (!paid ==> b' == b)
            && (paid ==>
                  && b'.lastPaymentTime == now
                  && (exists i :: 0 <= i < 3 && claims[i] == Some(b'.lastPaymentAmount)
                                  && forall j :: 0 <= j < i ==> claims[j].None?)
                  && exists times: nat ::
                       && totalCost * times <= b'.lastPaymentAmount < totalCost * (times + 1)
                       && b'.bytesPaid == totalBytes * times)
  {
    FirstClaimCounts(claims);
    if totalCost > 0 && FirstClaim(claims).Some? {
      var amount := FirstClaim(claims).value;
      DivBounds(amount, totalCost);
      var times := amount / totalCost;
      assert totalCost * (times + 1) == totalCost * times + totalCost;
      assert totalCost * times <= amount < totalCost * (times + 1);
    }
  }

  // A check is due if the sample is not paid for and either the last payment is more than a minute old or more than 32 MiB
  // are not credited; so it is due at the latest when exact proportional accounting of the last payment sees that much.
  lemma CheckDueIff(b: Books, now: int, totalCost: nat, totalBytes: nat)
    ensures CheckDue(b, now, totalCost, totalBytes)
       <==> totalCost > b.lastPaymentAmount && (now > b.lastPaymentTime + 60_000 || totalBytes > b.bytesPaid + 0x200_0000)
  {
  }

  lemma CheckFollowsShare(b: Books, claims: Claims, paidAt: int, cost: nat, bytes: nat, now: int, totalCost: nat, totalBytes: nat)
    requires cost > 0 && exists i :: 0 <= i < 3 && claims[i].Some?
    requires var b' := AfterPayment(b, claims, paidAt, cost, bytes);
             totalCost > b'.lastPaymentAmount && cost * (totalBytes - 0x200_0000) > bytes * b'.lastPaymentAmount
    ensures CheckDue(AfterPayment(b, claims, paidAt, cost, bytes), now, totalCost, totalBytes)
  {
    FirstClaimCounts(claims);
    CreditTriggersNoLater(bytes, FirstClaim(claims).value, cost, totalBytes);
  }

  lemma JudgementRule(b: Books, totalCost: nat, totalBytes: nat)
    requires totalBytes > 0
    ensures AfterJudgement(b, totalCost, totalBytes).isClosed
       <==> || b.isClosed
            || (&& 10 * (b.lastPaymentAmount + 1) <= 9 * totalCost
                && (totalCost - b.lastPaymentAmount) * totalBytes > TRAFFIC_UNIT * totalCost)
  {
    ClosesRule(b.lastPaymentAmount, totalCost, totalBytes);
  }

  class Account {
    var lastPaymentAmount: nat
    var lastPaymentTime: int
    var bytesPaid: nat
    var isClosed: bool

    function Abs(): Books
      reads this
    {
      Books(lastPaymentAmount, lastPaymentTime, bytesPaid, isClosed)
    }

    constructor (now: int)
      ensures Abs() == Books(0, now, 0, false)
    {
      lastPaymentAmount, lastPaymentTime, bytesPaid, isClosed := 0, now, 0, false;
    }

    method HandlePayment(claims: Claims, now: int, totalCost: nat, totalBytes: nat)
      modifies this
      ensures Abs() == AfterPayment(old(Abs()), claims, now, totalCost, totalBytes)
    {
      if totalCost == 0 {
        return;
      }
      var i := 0;
      while i < 3 && claims[i].None?
        invariant 0 <= i <= 3
        invariant FirstClaim(claims) == FirstClaim(claims[i..])
      {
        assert claims[i..][1..] == claims[i + 1..];
        i := i + 1;
      }
      if i == 3 {
        return;
      }
      lastPaymentAmount := claims[i].value;
      lastPaymentTime := now;
      bytesPaid := totalBytes * (lastPaymentAmount / totalCost);
    }

    method Judge(totalCost: nat, totalBytes: nat)
      requires totalBytes > 0
      modifies this`isClosed
      ensures Abs() == AfterJudgement(old(Abs()), totalCost, totalBytes)
    {
      if lastPaymentAmount < 9 * totalCost / 10
         && totalCost - lastPaymentAmount > TRAFFIC_UNIT * totalCost / totalBytes {
        isClosed := true;
      }
    }
  }
}
