/**
  The arithmetic of pay-per-traffic: prices are per 1 MiB, costs are truncated to whole base units,
  and the payer bills increments that are truncated one at a time.
*/
module Billing {
  import opened Machine

  const TRAFFIC_UNIT: int := 1024 * 1024
  const TRAFFIC_PAYMENT_THRESHOLD: int := 32
  const NANO_PAY_UPDATE_INTERVAL: int := 60_000 // milliseconds

  // Base units per TRAFFIC_UNIT, entry-to-exit ("up") and exit-to-entry ("down").
  datatype Prices = Prices(up: nat, down: nat)

  function Charge(price: nat, bytes: nat): nat {
    price * bytes / TRAFFIC_UNIT
  }

  function Cost(p: Prices, up: nat, down: nat): nat {
    Charge(p.up, up) + Charge(p.down, down)
  }

  // The same cost as 64-bit code computes it: unsigned subtraction, signed product, truncating division.
  function MachineCharge(price: nat, used: Word, paid: Word): Fixed64 {
    var product := I64(price * I64(U64(used - paid)));
    QuoBelow(product, TRAFFIC_UNIT);
    Quo(product, TRAFFIC_UNIT)
  }

  function MachineCost(p: Prices, up: Word, down: Word, paidUp: Word, paidDown: Word): Fixed64 {
    I64(MachineCharge(p.up, up, paidUp) + MachineCharge(p.down, down, paidDown))
  }

  // A base unit is charged per price and MiB, rounded down, in each direction for itself.
  lemma CostMeans(p: Prices, up: nat, down: nat)
    ensures Cost(p, up, down) == p.up * up / 1_048_576 + p.down * down / 1_048_576
  {
  }

  lemma ChargeBounds(price: nat, bytes: nat)
    ensures TRAFFIC_UNIT * Charge(price, bytes) <= price * bytes
    ensures price * bytes < TRAFFIC_UNIT * Charge(price, bytes) + TRAFFIC_UNIT
    ensures price * bytes == TRAFFIC_UNIT * Charge(price, bytes) + price * bytes % TRAFFIC_UNIT
  {
    DivBounds(price * bytes, TRAFFIC_UNIT);
  }

  lemma ChargeMono(price: nat, a: nat, b: nat)
    requires a <= b
    ensures Charge(price, a) <= Charge(price, b)
  {
    MulMono(price, a, b);
    DivMono(price * a, price * b, TRAFFIC_UNIT);
  }

  lemma CostMono(p: Prices, up: nat, down: nat, up': nat, down': nat)
    requires up <= up' && down <= down'
    ensures Cost(p, up, down) <= Cost(p, up', down')
  {
    ChargeMono(p.up, up, up');
    ChargeMono(p.down, down, down');
  }

  // Charging two amounts separately loses at most one base unit against charging them together.
  lemma ChargeSplit(price: nat, a: nat, b: nat)
    ensures Charge(price, a) + Charge(price, b) <= Charge(price, a + b) <= Charge(price, a) + Charge(price, b) + 1
  {
    ChargeBounds(price, a);
    ChargeBounds(price, b);
    ChargeBounds(price, a + b);
    assert price * (a + b) == price * a + price * b;
  }

  // A product that overflows turns into something smaller, never back into itself.
  lemma ProductWraps(price: nat, d: Word)
    requires price < TWO63
    ensures var product := I64(price * I64(d));
            && (price * d < TWO63 ==> product == price * d)
            && (price * d >= TWO63 ==> product < TWO63 <= price * d)
  {
    if price > 0 && price * d < TWO63 {
      MulMono(d, 1, price);
      assert I64(d) == d;
    } else if price == 0 {
      assert price * I64(d) == 0;
    }
  }

  lemma QuoAgainst(product: Fixed64, whole: nat)
    requires product == whole || product < TWO63 <= whole
    ensures Quo(product, TRAFFIC_UNIT) <= whole / TRAFFIC_UNIT
    ensures Quo(product, TRAFFIC_UNIT) == whole / TRAFFIC_UNIT <==> product == whole
    ensures -TWO63 / TRAFFIC_UNIT - 1 <= Quo(product, TRAFFIC_UNIT) <= TWO63 / TRAFFIC_UNIT
  {
    QuoBelow(product, TRAFFIC_UNIT);
    if product != whole {
      DivMono(TWO63, whole, TRAFFIC_UNIT);
    }
  }

  lemma MachineChargeExact(price: nat, used: Word, paid: Word)
    requires price < TWO63 && paid <= used
    ensures MachineCharge(price, used, paid) <= Charge(price, used - paid)
    ensures MachineCharge(price, used, paid) == Charge(price, used - paid) <==> price * (used - paid) < TWO63
    ensures -TWO63 / TRAFFIC_UNIT - 1 <= MachineCharge(price, used, paid) <= TWO63 / TRAFFIC_UNIT
  {
    var d: Word := used - paid;
    Word64(d);
    ProductWraps(price, d);
    QuoAgainst(I64(price * I64(d)), price * d);
  }

  lemma Unwrapped(x: int)
    requires -TWO63 <= x < TWO63
    ensures I64(x) == x
  {
  }

  // The payer's 64-bit cost is the intended one exactly when neither priced product overflows.
  lemma MachineCostExact(p: Prices, up: Word, down: Word, paidUp: Word, paidDown: Word)
    requires p.up < TWO63 && p.down < TWO63
    requires paidUp <= up && paidDown <= down
    ensures MachineCost(p, up, down, paidUp, paidDown) == Cost(p, up - paidUp, down - paidDown)
       <==> p.up * (up - paidUp) < TWO63 && p.down * (down - paidDown) < TWO63
  {
    MachineChargeExact(p.up, up, paidUp);
    MachineChargeExact(p.down, down, paidDown);
    Unwrapped(MachineCharge(p.up, up, paidUp) + MachineCharge(p.down, down, paidDown));
  }

  /* ----- The ledger of increments ----- */

  // One payment: the byte ranges it covers and the increment it carried.
  datatype Bill = Bill(fromUp: nat, toUp: nat, fromDown: nat, toDown: nat, cost: nat)

  predicate BillOk(p: Prices, b: Bill) {
    && b.fromUp <= b.toUp
    && b.fromDown <= b.toDown
    && b.cost == Cost(p, b.toUp - b.fromUp, b.toDown - b.fromDown)
  }

  // The bills tile [0, up) and [0, down) in order.
  predicate LedgerOk(p: Prices, ledger: seq<Bill>, up: nat, down: nat) {
    if ledger == [] then up == 0 && down == 0
    else
      var b := ledger[|ledger| - 1];
      && BillOk(p, b)
      && b.toUp == up
      && b.toDown == down
      && LedgerOk(p, ledger[..|ledger| - 1], b.fromUp, b.fromDown)
  }

  function Claimable(ledger: seq<Bill>): nat {
    if ledger == [] then 0 else Claimable(ledger[..|ledger| - 1]) + ledger[|ledger| - 1].cost
  }

  predicate EachAtLeast(ledger: seq<Bill>, floor: nat) {
    forall i :: 0 <= i < |ledger| ==> ledger[i].cost >= floor
  }

  /* One direction of a ledger at a time. */

  datatype Side = Up | Down

  function Rate(p: Prices, side: Side): nat {
    if side.Up? then p.up else p.down
  }

  function From(b: Bill, side: Side): nat {
    if side.Up? then b.fromUp else b.fromDown
  }

  function To(b: Bill, side: Side): nat {
    if side.Up? then b.toUp else b.toDown
  }

  // What the increments charged in one direction.
  function Charged(p: Prices, ledger: seq<Bill>, side: Side): nat {
    if ledger == [] then 0
    else
      var b := ledger[|ledger| - 1];
      Charged(p, ledger[..|ledger| - 1], side)
      + (if From(b, side) <= To(b, side) then Charge(Rate(p, side), To(b, side) - From(b, side)) else 0)
  }

  // What truncation discarded in one direction, in units of 1/TRAFFIC_UNIT.
  function Lost(p: Prices, ledger: seq<Bill>, side: Side): nat {
    if ledger == [] then 0
    else
      var b := ledger[|ledger| - 1];
      Lost(p, ledger[..|ledger| - 1], side)
      + (if From(b, side) <= To(b, side) then Rate(p, side) * (To(b, side) - From(b, side)) % TRAFFIC_UNIT else 0)
  }

  // The paid counter after the last bill.
  function Paid(ledger: seq<Bill>, side: Side): nat {
    if ledger == [] then 0 else To(ledger[|ledger| - 1], side)
  }

  lemma TotalStep(rate: nat, from: nat, to: nat, charged: nat, lost: nat)
    requires from <= to && rate * from == TRAFFIC_UNIT * charged + lost
    ensures rate * to == TRAFFIC_UNIT * (charged + Charge(rate, to - from)) + lost + rate * (to - from) % TRAFFIC_UNIT
    ensures rate * (to - from) % TRAFFIC_UNIT <= TRAFFIC_UNIT - 1
  {
    ChargeBounds(rate, to - from);
    assert rate * to == rate * from + rate * (to - from);
  }

  lemma {:induction false} SideTotal(p: Prices, ledger: seq<Bill>, up: nat, down: nat, side: Side)
    requires LedgerOk(p, ledger, up, down)
    ensures Rate(p, side) * Paid(ledger, side) == TRAFFIC_UNIT * Charged(p, ledger, side) + Lost(p, ledger, side)
    ensures Lost(p, ledger, side) <= (TRAFFIC_UNIT - 1) * |ledger|
  {
    if ledger != [] {
      var b, front := ledger[|ledger| - 1], ledger[..|ledger| - 1];
      SideTotal(p, front, b.fromUp, b.fromDown, side);
      LedgerPaid(p, front, b.fromUp, b.fromDown);
      TotalStep(Rate(p, side), From(b, side), To(b, side), Charged(p, front, side), Lost(p, front, side));
    }
  }

  lemma {:induction false} LedgerPaid(p: Prices, ledger: seq<Bill>, up: nat, down: nat)
    requires LedgerOk(p, ledger, up, down)
    ensures Paid(ledger, Up) == up && Paid(ledger, Down) == down
    ensures Claimable(ledger) == Charged(p, ledger, Up) + Charged(p, ledger, Down)
  {
    if ledger != [] {
      var b, front := ledger[|ledger| - 1], ledger[..|ledger| - 1];
      LedgerPaid(p, front, b.fromUp, b.fromDown);
    }
  }

  // One division of the whole against the sum of the parts: q whole units were charged, r was discarded.
  lemma SplitDivision(whole: nat, q: nat, r: nat)
    requires whole == TRAFFIC_UNIT * q + r
    ensures whole / TRAFFIC_UNIT == q + r / TRAFFIC_UNIT
  {
    DivBounds(r, TRAFFIC_UNIT);
    DivUnique(whole, TRAFFIC_UNIT, q + r / TRAFFIC_UNIT);
  }

  lemma SideDrift(p: Prices, ledger: seq<Bill>, up: nat, down: nat, side: Side)
    requires LedgerOk(p, ledger, up, down)
    ensures Charge(Rate(p, side), Paid(ledger, side))
         == Charged(p, ledger, side) + Lost(p, ledger, side) / TRAFFIC_UNIT
  {
    SideTotal(p, ledger, up, down, side);
    SplitDivision(Rate(p, side) * Paid(ledger, side), Charged(p, ledger, side), Lost(p, ledger, side));
  }

  // Exact drift: the one-shot cost exceeds the sum of increments by the whole units among the discarded parts.
  lemma ExactDrift(p: Prices, ledger: seq<Bill>, up: nat, down: nat)
    requires LedgerOk(p, ledger, up, down)
    ensures Cost(p, up, down)
         == Claimable(ledger) + Lost(p, ledger, Up) / TRAFFIC_UNIT + Lost(p, ledger, Down) / TRAFFIC_UNIT
  {
    LedgerPaid(p, ledger, up, down);
    SideDrift(p, ledger, up, down, Up);
    SideDrift(p, ledger, up, down, Down);
  }

  // The most whole units that k truncated parts can discard in one direction: each discards less than one.
  function MostLost(k: nat): (units: nat)
    ensures 0 < k <= TRAFFIC_UNIT ==> units == k - 1
    ensures k > 0 ==> units <= k - 1
  {
    DivBounds((TRAFFIC_UNIT - 1) * k, TRAFFIC_UNIT);
    (TRAFFIC_UNIT - 1) * k / TRAFFIC_UNIT
  }

  lemma LostUnits(p: Prices, ledger: seq<Bill>, up: nat, down: nat, side: Side)
    requires LedgerOk(p, ledger, up, down)
    ensures Lost(p, ledger, side) / TRAFFIC_UNIT <= MostLost(|ledger|)
  {
    SideTotal(p, ledger, up, down, side);
    DivMono(Lost(p, ledger, side), (TRAFFIC_UNIT - 1) * |ledger|, TRAFFIC_UNIT);
  }

  // The sum of k increments falls short of the one-shot cost by at most MostLost(k) in each direction.
  lemma SharpDrift(p: Prices, ledger: seq<Bill>, up: nat, down: nat)
    requires LedgerOk(p, ledger, up, down)
    ensures Claimable(ledger) <= Cost(p, up, down) <= Claimable(ledger) + 2 * MostLost(|ledger|)
  {
    ExactDrift(p, ledger, up, down);
    LostUnits(p, ledger, up, down, Up);
    LostUnits(p, ledger, up, down, Down);
    DivBounds(Lost(p, ledger, Up), TRAFFIC_UNIT);
    DivBounds(Lost(p, ledger, Down), TRAFFIC_UNIT);
  }

  lemma DriftBound(p: Prices, ledger: seq<Bill>, up: nat, down: nat)
    requires LedgerOk(p, ledger, up, down)
    ensures Claimable(ledger) <= Cost(p, up, down)
    ensures Cost(p, up, down) <= Claimable(ledger) + if ledger == [] then 0 else 2 * (|ledger| - 1)
  {
    SharpDrift(p, ledger, up, down);
  }

  /* SharpDrift cannot be improved: for every k some k payments, no two in a row alike, lose that much. */

  const LOSSY_PRICE: nat := 2 * TRAFFIC_UNIT - 1
  const LOSSY_PRICES := Prices(LOSSY_PRICE, LOSSY_PRICE)

  // Bytes and cost of the last of k payments: both sizes discard all but one part of a unit in each direction.
  function LossyBytes(k: nat): nat {
    if k % 2 == 1 then 1 else TRAFFIC_UNIT + 1
  }

  function LossyCost(k: nat): nat {
    if k % 2 == 1 then 2 else 4 * TRAFFIC_UNIT
  }

  function LossyTotal(k: nat): nat {
    if k == 0 then 0 else LossyTotal(k - 1) + LossyBytes(k)
  }

  function LossyLedger(k: nat): seq<Bill> {
    if k == 0 then []
    else LossyLedger(k - 1) + [Bill(LossyTotal(k - 1), LossyTotal(k), LossyTotal(k - 1), LossyTotal(k), LossyCost(k))]
  }

  lemma LossyBill(k: nat)
    ensures Charge(LOSSY_PRICE, LossyBytes(k)) * 2 == LossyCost(k)
    ensures LOSSY_PRICE * LossyBytes(k) % TRAFFIC_UNIT == TRAFFIC_UNIT - 1
  {
  }

  lemma {:induction false} LossyLedgerOk(k: nat)
    ensures LedgerOk(LOSSY_PRICES, LossyLedger(k), LossyTotal(k), LossyTotal(k)) && |LossyLedger(k)| == k
    ensures forall side :: Lost(LOSSY_PRICES, LossyLedger(k), side) == (TRAFFIC_UNIT - 1) * k
    ensures forall i :: 0 <= i < k ==> LossyLedger(k)[i].cost == LossyCost(i + 1)
  {
    if k > 0 {
      LossyLedgerOk(k - 1);
      LossyBill(k);
      assert LossyLedger(k)[..k - 1] == LossyLedger(k - 1);
    }
  }

  lemma LossyCostsDiffer(k: nat, i: nat)
    requires 0 < i < k
    ensures |LossyLedger(k)| == k && LossyLedger(k)[i].cost != LossyLedger(k)[i - 1].cost
  {
    LossyLedgerOk(k);
    assert LossyCost(i + 1) != LossyCost(i);
  }

  lemma LossyDrift(k: nat)
    ensures LedgerOk(LOSSY_PRICES, LossyLedger(k), LossyTotal(k), LossyTotal(k))
    ensures Cost(LOSSY_PRICES, LossyTotal(k), LossyTotal(k)) == Claimable(LossyLedger(k)) + 2 * MostLost(k)
  {
    LossyLedgerOk(k);
    ExactDrift(LOSSY_PRICES, LossyLedger(k), LossyTotal(k), LossyTotal(k));
  }

  lemma DriftBoundAttained(k: nat)
    ensures var ledger, total := LossyLedger(k), LossyTotal(k);
            && |ledger| == k && LedgerOk(LOSSY_PRICES, ledger, total, total)
            && (forall i :: 0 < i < k ==> ledger[i].cost != ledger[i - 1].cost)
            && Cost(LOSSY_PRICES, total, total) == Claimable(ledger) + 2 * MostLost(k)
  {
    LossyLedgerOk(k);
    LossyDrift(k);
    forall i | 0 < i < k
      ensures LossyLedger(k)[i].cost != LossyLedger(k)[i - 1].cost
    {
      LossyCostsDiffer(k, i);
    }
  }

  // How many bills cover a byte, by its position in the direction's traffic.
  function TimesBilled(ledger: seq<Bill>, side: Side, x: nat): nat {
    if ledger == [] then 0
    else
      var b := ledger[|ledger| - 1];
      TimesBilled(ledger[..|ledger| - 1], side, x) + (if From(b, side) <= x < To(b, side) then 1 else 0)
  }

  // Every paid byte is in exactly one bill and no other byte is in any.
  lemma {:induction false} BilledOnce(p: Prices, ledger: seq<Bill>, up: nat, down: nat, side: Side, x: nat)
    requires LedgerOk(p, ledger, up, down)
    ensures TimesBilled(ledger, side, x) == if x < (if side.Up? then up else down) then 1 else 0
  {
    if ledger != [] {
      var b := ledger[|ledger| - 1];
      BilledOnce(p, ledger[..|ledger| - 1], b.fromUp, b.fromDown, side, x);
    }
  }

  lemma {:induction false} AtLeastTotal(ledger: seq<Bill>, floor: nat)
    requires EachAtLeast(ledger, floor)
    ensures floor * |ledger| <= Claimable(ledger)
  {
    if ledger != [] {
      AtLeastTotal(ledger[..|ledger| - 1], floor);
      assert floor * |ledger| == floor * (|ledger| - 1) + floor;
    }
  }

  // With increments of at least 18 units, what was claimed is at least nine tenths of the one-shot cost.
  lemma CoverageNineTenths(p: Prices, ledger: seq<Bill>, up: nat, down: nat)
    requires LedgerOk(p, ledger, up, down) && EachAtLeast(ledger, 18)
    ensures 10 * Claimable(ledger) >= 9 * Cost(p, up, down)
  {
    DriftBound(p, ledger, up, down);
    AtLeastTotal(ledger, 18);
  }

  // A round entered because more than 32 MiB are unpaid costs at least 31 units at any non-zero prices.
  lemma ThresholdRoundCost(p: Prices, up: nat, down: nat)
    requires p.up >= 1 && p.down >= 1
    requires up + down > 33_554_432
    ensures Cost(p, up, down) >= 31
  {
    ChargeBounds(1, up);
    ChargeBounds(1, down);
    MulMono(up, 1, p.up);
    MulMono(down, 1, p.down);
    DivMono(up, p.up * up, TRAFFIC_UNIT);
    DivMono(down, p.down * down, TRAFFIC_UNIT);
  }

  // Any prefix of a ledger is itself the ledger of the bytes it covers.
  lemma {:induction false} LedgerPrefix(p: Prices, ledger: seq<Bill>, up: nat, down: nat, n: nat)
    requires LedgerOk(p, ledger, up, down) && n <= |ledger|
    ensures LedgerOk(p, ledger[..n], Paid(ledger[..n], Up), Paid(ledger[..n], Down))
    ensures Paid(ledger[..n], Up) <= up && Paid(ledger[..n], Down) <= down
    ensures Claimable(ledger[..n]) <= Claimable(ledger)
  {
    if n == |ledger| {
      assert ledger[..n] == ledger;
      LedgerPaid(p, ledger, up, down);
    } else {
      var b, front := ledger[|ledger| - 1], ledger[..|ledger| - 1];
      LedgerPrefix(p, front, b.fromUp, b.fromDown, n);
      assert front[..n] == ledger[..n];
    }
  }
}
