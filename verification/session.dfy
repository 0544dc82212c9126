/**
  A whole paid session as one step system: any number of tunnelled connections and datagrams, the payer's billing loop, the payment
  stream, the provider's payment handler, its delayed sampling of the running cost, and the check that cuts the session off.
*/
module Session {
  import opened Wrappers
  import opened Billing
  import Machine
  import Datagrams
  import Tunnel
  import Provider

  const TRAFFIC_DELAY: int := 10_000 // milliseconds
  const MAX_NANO_PAY_DELAY: int := 30_000

  // Entry-to-exit traffic is pumped out by the payer, exit-to-entry traffic by the provider.
  datatype Conn = Conn(up: Tunnel.Chain, down: Tunnel.Chain)

  // The counters on either side, and what separates them. Connections and datagrams add to the same counters.
  datatype Gauge = UsedUp | UsedDown | MeterUp | MeterDown | UncountedUp | UncountedDown | TransitUp | TransitDown

  function Transit(c: Tunnel.Chain): nat {
    |c.stream| + |Tunnel.Held(c.b)| + |c.lostB| + Tunnel.Uncounted(c.b)
  }

  function Reading(c: Conn, g: Gauge): nat {
    match g
    case UsedUp => c.up.a.count
    case UsedDown => c.down.b.count
    case MeterUp => c.up.b.count
    case MeterDown => c.down.a.count
    case UncountedUp => Tunnel.Uncounted(c.up.a)
    case UncountedDown => Tunnel.Uncounted(c.down.a)
    case TransitUp => Transit(c.up)
    case TransitDown => Transit(c.down)
  }

  function Total(conns: seq<Conn>, g: Gauge): nat {
    if conns == [] then 0 else Total(conns[..|conns| - 1], g) + Reading(conns[|conns| - 1], g)
  }

  function FlowReading(up: Datagrams.Flow, down: Datagrams.Flow, g: Gauge): nat {
    match g
    case UsedUp => up.sent
    case UsedDown => down.received
    case MeterUp => up.received
    case MeterDown => down.sent
    case UncountedUp => Datagrams.Uncounted(up.writing)
    case UncountedDown => Datagrams.Uncounted(down.writing)
    case TransitUp => Datagrams.Transit(up)
    case TransitDown => Datagrams.Transit(down)
  }

  // A running total as the provider saw it: the counters, what they cost, and when.
  datatype Sample = Sample(time: int, up: nat, down: nat, cost: nat, bytes: nat)

  // A payment transaction is cumulative: the n-th carries the sum of the first n increments.
  datatype Payment = Payment(n: nat, amount: nat)

  // What the payer saw when it woke up, and then when it priced the unpaid traffic.
  datatype Poll = Poll(up: nat, down: nat, time: int)

  datatype PayerPc = Asleep | Woken(poll: Poll) | Paying(poll: Poll, up: nat, down: nat, stamp: int, cost: nat) | Halted
  datatype HandlerPc = Idle | Claiming(payment: Payment, cost: nat, bytes: nat)
  datatype CheckPc = Watching | Grace(sample: Sample, until: int)

  datatype State = State(
    prices: Prices, conns: seq<Conn>, udpUp: Datagrams.Flow, udpDown: Datagrams.Flow, clock: int,
    payer: PayerPc, paidUp: nat, paidDown: nat, lastCost: nat, lastPaidAt: int, ledger: seq<Bill>,
    wire: seq<Payment>,
    handler: HandlerPc, claimed: nat, books: Provider.Books,
    pending: seq<Sample>, delayed: Option<Sample>, check: CheckPc)

  // Whether each of the three attempts to claim a payment would succeed.
  type Tries = tries: seq<bool> | |tries| == 3 witness [true, true, true]

  datatype Step =
    | Connect(sourceUp: seq<Machine.Byte>, sourceDown: seq<Machine.Byte>)
    | Traffic(i: nat, isUp: bool, move: Tunnel.Move)
    | Udp(isUp: bool, datagram: Datagrams.Move)
    | Tick(ms: nat)
    | Wake
    | Load
    | Send
    | Skip
    | Halt
    | Receive
    | Claim(tries: Tries)
    | TakeSample
    | Publish(j: nat)
    | BeginGrace
    | Judge

  function Init(prices: Prices, now: int): State {
    State(prices, [], Datagrams.IDLE, Datagrams.IDLE, now, Asleep, 0, 0, 0, now, [], [],
          Idle, 0, Provider.Books(0, now, 0, false), [], None, Watching)
  }

  function Count(s: State, g: Gauge): nat {
    Total(s.conns, g) + FlowReading(s.udpUp, s.udpDown, g)
  }

  function Outcomes(tries: Tries, amount: nat): Provider.Claims {
    [if tries[0] then Some(amount) else None, if tries[1] then Some(amount) else None, if tries[2] then Some(amount) else None]
  }

  function Now(s: State): Sample {
    var up, down := Count(s, MeterUp), Count(s, MeterDown);
    Sample(s.clock, up, down, Cost(s.prices, up, down), up + down)
  }

  // Two guards only make the arithmetic of their steps defined and hold whenever their step is reached: Load's, by
  // NeverOverpaid, and Judge's byte count, by JudgedSampleIsReal.
  predicate Enabled(s: State, step: Step) {
    match step
    case Connect(_, _) => true
    case Traffic(i, isUp, move) =>
      i < |s.conns| && Tunnel.Enabled(if isUp then s.conns[i].up else s.conns[i].down, move)
    case Udp(isUp, m) => Datagrams.Enabled(if isUp then s.udpUp else s.udpDown, m)
    case Tick(_) => true
    case Wake =>
      && s.payer.Asleep?
      && (|| Count(s, UsedUp) + Count(s, UsedDown) - (s.paidUp + s.paidDown) > TRAFFIC_PAYMENT_THRESHOLD * TRAFFIC_UNIT
          || s.clock - s.lastPaidAt > NANO_PAY_UPDATE_INTERVAL)
    case Load => s.payer.Woken? && s.paidUp <= Count(s, UsedUp) && s.paidDown <= Count(s, UsedDown)
    case Send => s.payer.Paying?
    case Skip => s.payer.Paying?
    case Halt => s.payer.Paying? || s.payer.Asleep?
    case Receive => s.handler.Idle? && s.wire != []
    case Claim(_) => s.handler.Claiming?
    case TakeSample => !s.books.isClosed
    case Publish(j) => j < |s.pending| && s.pending[j].time + TRAFFIC_DELAY <= s.clock
    case BeginGrace =>
      && !s.books.isClosed && s.check.Watching? && s.delayed.Some?
      && Provider.CheckDue(s.books, s.clock, s.delayed.value.cost, s.delayed.value.bytes)
    case Judge => !s.books.isClosed && s.check.Grace? && s.check.until <= s.clock && s.check.sample.bytes > 0
  }

  function Apply(s: State, step: Step): State
    requires Enabled(s, step)
  {
    match step
    case Connect(sourceUp, sourceDown) =>
      s.(conns := s.conns + [Conn(Tunnel.Open(sourceUp), Tunnel.Open(sourceDown))])
    case Traffic(i, isUp, move) =>
      var c := s.conns[i];
      s.(conns := s.conns[i := if isUp then c.(up := Tunnel.Apply(c.up, move)) else c.(down := Tunnel.Apply(c.down, move))])
    case Udp(isUp, m) =>
      if isUp then s.(udpUp := Datagrams.Apply(s.udpUp, m)) else s.(udpDown := Datagrams.Apply(s.udpDown, m))
    case Tick(ms) => s.(clock := s.clock + ms)
    case Wake => s.(payer := Woken(Poll(Count(s, UsedUp), Count(s, UsedDown), s.clock)))
    case Load =>
      var up, down := Count(s, UsedUp), Count(s, UsedDown);
      var cost := Cost(s.prices, up - s.paidUp, down - s.paidDown);
      s.(payer := if cost == s.lastCost || cost == 0 then Asleep
                  else Paying(s.payer.poll, up, down, s.clock, cost))
    case Send =>
      var Paying(_, up, down, stamp, cost) := s.payer;
      var ledger := s.ledger + [Bill(s.paidUp, up, s.paidDown, down, cost)];
      s.(payer := Asleep, paidUp := up, paidDown := down, lastCost := cost, lastPaidAt := stamp, ledger := ledger,
         wire := s.wire + [Payment(|ledger|, Claimable(ledger))])
    case Skip => s.(payer := Asleep)
    case Halt => s.(payer := Halted)
    case Receive =>
      var total := Now(s);
      s.(wire := s.wire[1..],
         handler := if total.cost == 0 then Idle else Claiming(s.wire[0], total.cost, total.bytes))
    case Claim(tries) =>
      var Claiming(payment, cost, bytes) := s.handler;
      var claims := Outcomes(tries, payment.amount);
      s.(handler := Idle, claimed := if Provider.FirstClaim(claims).Some? then payment.n else s.claimed,
         books := Provider.AfterPayment(s.books, claims, s.clock, cost, bytes))
    case TakeSample => s.(pending := s.pending + [Now(s)])
    case Publish(j) => s.(delayed := Some(s.pending[j]), pending := s.pending[..j] + s.pending[j + 1..])
    case BeginGrace => s.(check := Grace(s.delayed.value, s.clock + MAX_NANO_PAY_DELAY))
    case Judge =>
      s.(check := Watching, books := Provider.AfterJudgement(s.books, s.check.sample.cost, s.check.sample.bytes))
  }

  predicate Legal(s: State, steps: seq<Step>)
    decreases |steps|
  {
    steps == [] || (Enabled(s, steps[0]) && Legal(Apply(s, steps[0]), steps[1..]))
  }

  function Play(s: State, steps: seq<Step>): State
    requires Legal(s, steps)
    decreases |steps|
  {
    if steps == [] then s else Play(Apply(s, steps[0]), steps[1..])
  }

  /* ----- The invariant ----- */

  predicate ConnOk(conns: seq<Conn>, i: nat)
    requires i < |conns|
  {
    Tunnel.Inv(conns[i].up) && Tunnel.Inv(conns[i].down)
  }

  predicate AllOk(conns: seq<Conn>) {
    forall i :: 0 <= i < |conns| ==> ConnOk(conns, i)
  }

  predicate FlowOk(s: State, isUp: bool) {
    Datagrams.Inv(if isUp then s.udpUp else s.udpDown)
  }

  predicate TrafficOk(s: State) {
    AllOk(s.conns) && forall isUp :: FlowOk(s, isUp)
  }

  predicate BooksOk(s: State) {
    && LedgerOk(s.prices, s.ledger, s.paidUp, s.paidDown)
    && s.paidUp <= Count(s, UsedUp) && s.paidDown <= Count(s, UsedDown)
    && (s.payer.Paying? ==>
          && s.paidUp <= s.payer.up <= Count(s, UsedUp)
          && s.paidDown <= s.payer.down <= Count(s, UsedDown)
          && s.payer.cost == Cost(s.prices, s.payer.up - s.paidUp, s.payer.down - s.paidDown))
  }

  // A payment in flight carries a prefix sum of the ledger.
  predicate PaymentOk(s: State, payment: Payment) {
    payment.n <= |s.ledger| && payment.amount == Claimable(s.ledger[..payment.n])
  }

  predicate PaymentsOk(s: State) {
    && (forall i :: 0 <= i < |s.wire| ==> PaymentOk(s, s.wire[i]))
    && (s.handler.Claiming? ==> PaymentOk(s, s.handler.payment) && s.handler.cost > 0)
    && PaymentOk(s, Payment(s.claimed, s.books.lastPaymentAmount))
  }

  // A sample was a real total at its time, so it never exceeds the present one.
  predicate SampleOk(s: State, x: Sample) {
    && x.time <= s.clock
    && x.up <= Count(s, MeterUp) && x.down <= Count(s, MeterDown)
    && x.cost == Cost(s.prices, x.up, x.down) && x.bytes == x.up + x.down
  }

  predicate SamplesOk(s: State) {
    && (forall i :: 0 <= i < |s.pending| ==> SampleOk(s, s.pending[i]))
    && (s.delayed.Some? ==> SampleOk(s, s.delayed.value) && s.delayed.value.time + TRAFFIC_DELAY <= s.clock)
    && (s.check.Grace? ==>
          && SampleOk(s, s.check.sample)
          && s.check.sample.time + TRAFFIC_DELAY <= s.clock
          && s.check.sample.cost > 0)
  }

  predicate Inv(s: State) {
    TrafficOk(s) && BooksOk(s) && PaymentsOk(s) && SamplesOk(s)
  }

  /* Totals grow with every counter. */

  predicate Grows(conns: seq<Conn>, conns': seq<Conn>, g: Gauge) {
    |conns| <= |conns'| && forall i :: 0 <= i < |conns| ==> Reading(conns[i], g) <= Reading(conns'[i], g)
  }

  lemma {:induction false} TotalGrows(conns: seq<Conn>, conns': seq<Conn>, g: Gauge)
    requires Grows(conns, conns', g)
    ensures Total(conns, g) <= Total(conns', g)
    decreases |conns'|
  {
    if |conns| < |conns'| {
      TotalGrows(conns, conns'[..|conns'| - 1], g);
    } else if conns != [] {
      TotalGrows(conns[..|conns| - 1], conns'[..|conns'| - 1], g);
    }
  }

  predicate IsCounter(g: Gauge) {
    g == UsedUp || g == UsedDown || g == MeterUp || g == MeterDown
  }

  lemma CountersGrow(s: State, step: Step, g: Gauge)
    requires Enabled(s, step) && IsCounter(g)
    ensures Count(s, g) <= Count(Apply(s, step), g)
  {
    var s' := Apply(s, step);
    match step
    case Traffic(i, isUp, move) =>
      Tunnel.MoveCounts(if isUp then s.conns[i].up else s.conns[i].down, move);
      assert Grows(s.conns, s'.conns, g);
      TotalGrows(s.conns, s'.conns, g);
    case Connect(_, _) =>
      assert Grows(s.conns, s'.conns, g);
      TotalGrows(s.conns, s'.conns, g);
    case Udp(isUp, m) => Datagrams.MoveCounts(if isUp then s.udpUp else s.udpDown, m);
    case _ =>
  }

  lemma MoveKeepsConns(s: State, i: nat, isUp: bool, move: Tunnel.Move)
    requires AllOk(s.conns) && Enabled(s, Traffic(i, isUp, move))
    ensures AllOk(Apply(s, Traffic(i, isUp, move)).conns)
  {
    var conns := Apply(s, Traffic(i, isUp, move)).conns;
    forall k | 0 <= k < |conns|
      ensures ConnOk(conns, k)
    {
      assert ConnOk(s.conns, k);
      if k == i {
        Tunnel.MoveKeepsInv(if isUp then s.conns[i].up else s.conns[i].down, move);
      }
    }
  }

  lemma ConnectKeepsConns(conns: seq<Conn>, c: Conn)
    requires AllOk(conns) && Tunnel.Inv(c.up) && Tunnel.Inv(c.down)
    ensures AllOk(conns + [c])
  {
    forall k | 0 <= k < |conns + [c]|
      ensures ConnOk(conns + [c], k)
    {
      if k < |conns| {
        assert ConnOk(conns, k);
      }
    }
  }

  lemma FlowsStay(s: State, s': State)
    requires s'.udpUp == s.udpUp && s'.udpDown == s.udpDown && forall isUp :: FlowOk(s, isUp)
    ensures forall isUp :: FlowOk(s', isUp)
  {
    forall isUp
      ensures FlowOk(s', isUp)
    {
      assert FlowOk(s, isUp);
    }
  }

  lemma UdpKeepsFlows(s: State, isUp: bool, m: Datagrams.Move)
    requires TrafficOk(s) && Enabled(s, Udp(isUp, m))
    ensures TrafficOk(Apply(s, Udp(isUp, m)))
  {
    assert FlowOk(s, isUp) && FlowOk(s, !isUp);
    Datagrams.MoveKeepsInv(if isUp then s.udpUp else s.udpDown, m);
    forall other
      ensures FlowOk(Apply(s, Udp(isUp, m)), other)
    {
    }
  }

  lemma StepKeepsTraffic(s: State, step: Step)
    requires TrafficOk(s) && Enabled(s, step)
    ensures TrafficOk(Apply(s, step))
  {
    match step
    case Udp(isUp, m) => UdpKeepsFlows(s, isUp, m);
    case Traffic(i, isUp, move) =>
      MoveKeepsConns(s, i, isUp, move);
      FlowsStay(s, Apply(s, step));
    case Connect(sourceUp, sourceDown) =>
      ConnectKeepsConns(s.conns, Conn(Tunnel.Open(sourceUp), Tunnel.Open(sourceDown)));
      FlowsStay(s, Apply(s, step));
    case _ => FlowsStay(s, Apply(s, step));
  }

  // The books survive any growth of the counters.
  lemma BooksStay(s: State, s': State)
    requires BooksOk(s)
    requires s'.prices == s.prices && s'.ledger == s.ledger && s'.paidUp == s.paidUp && s'.paidDown == s.paidDown
    requires s'.payer == s.payer || !s'.payer.Paying?
    requires Count(s, UsedUp) <= Count(s', UsedUp) && Count(s, UsedDown) <= Count(s', UsedDown)
    ensures BooksOk(s')
  {
  }

  lemma SendKeepsBooks(s: State)
    requires BooksOk(s) && Enabled(s, Send)
    ensures BooksOk(Apply(s, Send))
  {
    var s' := Apply(s, Send);
    assert s'.ledger[..|s'.ledger| - 1] == s.ledger;
  }

  lemma StepKeepsBooks(s: State, step: Step)
    requires BooksOk(s) && Enabled(s, step)
    ensures BooksOk(Apply(s, step))
  {
    if step.Send? {
      SendKeepsBooks(s);
    } else if step.Load? {
    } else {
      CountersGrow(s, step, UsedUp);
      CountersGrow(s, step, UsedDown);
      BooksStay(s, Apply(s, step));
    }
  }

  lemma PaymentStays(s: State, s': State, payment: Payment)
    requires PaymentOk(s, payment) && s.ledger <= s'.ledger
    ensures PaymentOk(s', payment)
  {
    assert s'.ledger[..payment.n] == s.ledger[..payment.n];
  }

  // A claim that succeeds has the payment's amount.
  lemma OutcomesAgree(tries: Tries, amount: nat)
    ensures Provider.FirstClaim(Outcomes(tries, amount)) == if tries[0] || tries[1] || tries[2] then Some(amount) else None
  {
    var claims := Outcomes(tries, amount);
    Provider.FirstClaimCounts(claims);
    assert claims[0].Some? <==> tries[0];
    assert claims[1].Some? <==> tries[1];
    assert claims[2].Some? <==> tries[2];
  }

  lemma StepKeepsPayments(s: State, step: Step)
    requires PaymentsOk(s) && Enabled(s, step)
    ensures PaymentsOk(Apply(s, step))
  {
    var s' := Apply(s, step);
    PaymentStays(s, s', Payment(s.claimed, s.books.lastPaymentAmount));
    if s.handler.Claiming? {
      PaymentStays(s, s', s.handler.payment);
    }
    if step.Claim? {
      OutcomesAgree(step.tries, s.handler.payment.amount);
    }
    forall i | 0 <= i < |s.wire|
      ensures PaymentOk(s', s.wire[i])
    {
      PaymentStays(s, s', s.wire[i]);
    }
    if step.Send? {
      assert s'.ledger[..|s'.ledger|] == s'.ledger;
    }
  }

  lemma SampleStays(s: State, step: Step, x: Sample)
    requires SampleOk(s, x) && Enabled(s, step)
    ensures SampleOk(Apply(s, step), x)
  {
    CountersGrow(s, step, MeterUp);
    CountersGrow(s, step, MeterDown);
  }

  lemma StepKeepsSamples(s: State, step: Step)
    requires SamplesOk(s) && Enabled(s, step)
    ensures SamplesOk(Apply(s, step))
  {
    var s' := Apply(s, step);
    forall i | 0 <= i < |s.pending|
      ensures SampleOk(s', s.pending[i])
    {
      SampleStays(s, step, s.pending[i]);
    }
    if s.delayed.Some? {
      SampleStays(s, step, s.delayed.value);
    }
    if s.check.Grace? {
      SampleStays(s, step, s.check.sample);
    }
  }

  lemma {:induction false} PlayKeepsInv(s: State, steps: seq<Step>)
    requires Inv(s) && Legal(s, steps)
    ensures Inv(Play(s, steps)) && Play(s, steps).prices == s.prices
    decreases |steps|
  {
    if steps != [] {
      StepKeepsTraffic(s, steps[0]);
      StepKeepsBooks(s, steps[0]);
      StepKeepsPayments(s, steps[0]);
      StepKeepsSamples(s, steps[0]);
      PlayKeepsInv(Apply(s, steps[0]), steps[1..]);
    }
  }

  // A session in which nothing has happened.
  predicate Fresh(s: State) {
    && s.conns == [] && Datagrams.Untouched(s.udpUp) && Datagrams.Untouched(s.udpDown) && s.payer.Asleep? && s.handler.Idle? && s.check.Watching?
    && s.paidUp == 0 && s.paidDown == 0 && s.ledger == [] && s.wire == [] && s.pending == [] && s.delayed.None?
    && s.claimed == 0 && s.books.lastPaymentAmount == 0 && !s.books.isClosed
  }

  lemma NoConnsOk()
    ensures AllOk([])
  {
  }

  lemma FreshFlow(s: State, isUp: bool)
    requires Datagrams.Untouched(s.udpUp) && Datagrams.Untouched(s.udpDown)
    ensures FlowOk(s, isUp)
  {
    Datagrams.UntouchedInv(s.udpUp);
    Datagrams.UntouchedInv(s.udpDown);
  }

  lemma FreshTraffic(s: State)
    requires Fresh(s)
    ensures TrafficOk(s)
  {
    NoConnsOk();
    forall isUp
      ensures FlowOk(s, isUp)
    {
      FreshFlow(s, isUp);
    }
  }

  lemma FreshSamples(s: State)
    requires Fresh(s)
    ensures SamplesOk(s)
  {
  }

  lemma FreshBooks(s: State)
    requires Fresh(s)
    ensures BooksOk(s) && PaymentsOk(s)
  {
    assert s.ledger[..0] == [];
  }

  lemma FreshRounds(s: State)
    requires Fresh(s)
    ensures RoundsAreLarge(s) && !s.books.isClosed
  {
  }

  lemma FreshInv(s: State)
    requires Fresh(s)
    ensures Inv(s)
  {
    FreshTraffic(s);
    FreshSamples(s);
    FreshBooks(s);
  }

  lemma InitIsFresh(prices: Prices, now: int)
    ensures Fresh(Init(prices, now)) && Init(prices, now).prices == prices
  {
  }

  lemma InitInv(prices: Prices, now: int)
    ensures Inv(Init(prices, now)) && RoundsAreLarge(Init(prices, now)) && Init(prices, now).prices == prices
  {
    InitIsFresh(prices, now);
    FreshInv(Init(prices, now));
    FreshRounds(Init(prices, now));
  }

  lemma ReachableInv(prices: Prices, now: int, steps: seq<Step>)
    requires Legal(Init(prices, now), steps)
    ensures Inv(Play(Init(prices, now), steps)) && Play(Init(prices, now), steps).prices == prices
  {
    InitInv(prices, now);
    PlayKeepsInv(Init(prices, now), steps);
  }

  /* ----- What holds in every reachable state ----- */

  lemma ConnBalance(c: Conn)
    requires Tunnel.Inv(c.up) && Tunnel.Inv(c.down)
    ensures Reading(c, UsedUp) + Reading(c, UncountedUp) == Reading(c, MeterUp) + Reading(c, TransitUp)
    ensures Reading(c, MeterDown) + Reading(c, UncountedDown) == Reading(c, UsedDown) + Reading(c, TransitDown)
  {
  }

  lemma {:induction false} MetersBalance(conns: seq<Conn>)
    requires AllOk(conns)
    ensures Total(conns, UsedUp) + Total(conns, UncountedUp) == Total(conns, MeterUp) + Total(conns, TransitUp)
    ensures Total(conns, MeterDown) + Total(conns, UncountedDown) == Total(conns, UsedDown) + Total(conns, TransitDown)
  {
    if conns != [] {
      var front := conns[..|conns| - 1];
      assert ConnOk(conns, |conns| - 1);
      ConnBalance(conns[|conns| - 1]);
      assert forall i :: 0 <= i < |front| ==> ConnOk(conns, i) ==> ConnOk(front, i);
      MetersBalance(front);
    }
  }

  // What was sent, plus duplicated datagrams, has been metered, is on its way, or was lost in datagrams.
  predicate Balanced(s: State) {
    && Count(s, UsedUp) + Count(s, UncountedUp) + s.udpUp.copied
       == Count(s, MeterUp) + Count(s, TransitUp) + Datagrams.LostBytes(s.udpUp)
    && Count(s, MeterDown) + Count(s, UncountedDown) + s.udpDown.copied
       == Count(s, UsedDown) + Count(s, TransitDown) + Datagrams.LostBytes(s.udpDown)
  }

  lemma FlowsBalance(up: Datagrams.Flow, down: Datagrams.Flow)
    requires Datagrams.Inv(up) && Datagrams.Inv(down)
    ensures FlowReading(up, down, UsedUp) + FlowReading(up, down, UncountedUp) + up.copied
         == FlowReading(up, down, MeterUp) + FlowReading(up, down, TransitUp) + Datagrams.LostBytes(up)
    ensures FlowReading(up, down, MeterDown) + FlowReading(up, down, UncountedDown) + down.copied
         == FlowReading(up, down, UsedDown) + FlowReading(up, down, TransitDown) + Datagrams.LostBytes(down)
  {
    Datagrams.Balance(up);
    Datagrams.Balance(down);
  }

  lemma TrafficBalances(s: State)
    requires TrafficOk(s)
    ensures Balanced(s)
  {
    MetersBalance(s.conns);
    assert FlowOk(s, true) && FlowOk(s, false);
    FlowsBalance(s.udpUp, s.udpDown);
  }

  // The two sides' counters differ by the bytes on their way and the datagrams lost, up to writes not yet counted and
  // datagrams that arrive twice.
  lemma SidesAgree(prices: Prices, now: int, steps: seq<Step>)
    requires Legal(Init(prices, now), steps)
    ensures Balanced(Play(Init(prices, now), steps))
  {
    ReachableInv(prices, now, steps);
    TrafficBalances(Play(Init(prices, now), steps));
  }

  // No more exit-to-entry bytes are lost or under way than arrived twice or are uncounted, and no more entry-to-exit
  // bytes arrived twice or are uncounted than are lost or under way: the payer's counters are ahead in both directions.
  predicate PayerIsAhead(s: State) {
    && Count(s, TransitDown) + Datagrams.LostBytes(s.udpDown) <= Count(s, UncountedDown) + s.udpDown.copied
    && Count(s, UncountedUp) + s.udpUp.copied <= Count(s, TransitUp) + Datagrams.LostBytes(s.udpUp)
  }

  lemma AheadIff(s: State)
    requires Balanced(s)
    ensures PayerIsAhead(s) <==> Count(s, MeterUp) <= Count(s, UsedUp) && Count(s, MeterDown) <= Count(s, UsedDown)
  {
  }

  // The payer has paid for everything it counted, and all its payments have been claimed.
  predicate Settled(s: State) {
    s.claimed == |s.ledger| && s.paidUp == Count(s, UsedUp) && s.paidDown == Count(s, UsedDown)
  }

  lemma ClaimedIsPaid(s: State)
    requires Inv(s)
    ensures Paid(s.ledger[..s.claimed], Up) <= s.paidUp && Paid(s.ledger[..s.claimed], Down) <= s.paidDown
    ensures s.claimed == |s.ledger| ==>
      Paid(s.ledger[..s.claimed], Up) == s.paidUp && Paid(s.ledger[..s.claimed], Down) == s.paidDown
  {
    LedgerPrefix(s.prices, s.ledger, s.paidUp, s.paidDown, s.claimed);
    LedgerPaid(s.prices, s.ledger, s.paidUp, s.paidDown);
    assert s.ledger[..|s.ledger|] == s.ledger;
  }

  // A payer that has paid for everything it counted covers the provider's present total exactly if its counters are
  // ahead; without that, no payments cover it.
  predicate CoverageRule(s: State) {
    && s.claimed <= |s.ledger|
    && (Covers(s, Now(s)) ==> PayerIsAhead(s))
    && (Settled(s) ==> (Covers(s, Now(s)) <==> PayerIsAhead(s)))
  }

  lemma CoverageAt(s: State)
    requires Inv(s)
    ensures CoverageRule(s)
  {
    TrafficBalances(s);
    AheadIff(s);
    ClaimedIsPaid(s);
  }

  lemma CoverageIff(prices: Prices, now: int, steps: seq<Step>)
    requires Legal(Init(prices, now), steps)
    ensures CoverageRule(Play(Init(prices, now), steps))
  {
    ReachableInv(prices, now, steps);
    CoverageAt(Play(Init(prices, now), steps));
  }

  // The provider never holds more money than the traffic the payer itself counted costs.
  predicate NotOverpaid(s: State) {
    && s.paidUp <= Count(s, UsedUp) && s.paidDown <= Count(s, UsedDown)
    && s.books.lastPaymentAmount <= Claimable(s.ledger) <= Cost(s.prices, Count(s, UsedUp), Count(s, UsedDown))
  }

  lemma InvNotOverpaid(s: State)
    requires Inv(s)
    ensures NotOverpaid(s)
  {
    LedgerPrefix(s.prices, s.ledger, s.paidUp, s.paidDown, s.claimed);
    DriftBound(s.prices, s.ledger, s.paidUp, s.paidDown);
    CostMono(s.prices, s.paidUp, s.paidDown, Count(s, UsedUp), Count(s, UsedDown));
  }

  lemma NeverOverpaid(prices: Prices, now: int, steps: seq<Step>)
    requires Legal(Init(prices, now), steps)
    ensures NotOverpaid(Play(Init(prices, now), steps)) && Play(Init(prices, now), steps).prices == prices
  {
    ReachableInv(prices, now, steps);
    InvNotOverpaid(Play(Init(prices, now), steps));
  }

  // The sample under judgement is a real total at least 10 s old, below the present total, and has moved bytes.
  lemma JudgedSampleIsReal(prices: Prices, now: int, steps: seq<Step>)
    requires Legal(Init(prices, now), steps) && Play(Init(prices, now), steps).check.Grace?
    ensures var s := Play(Init(prices, now), steps);
            var x := s.check.sample;
            && x.time + 10_000 <= s.clock
            && x.cost == Cost(prices, x.up, x.down) <= Now(s).cost
            && 0 < x.bytes <= Now(s).bytes
  {
    ReachableInv(prices, now, steps);
    var s := Play(Init(prices, now), steps);
    var x := s.check.sample;
    CostMono(prices, x.up, x.down, Count(s, MeterUp), Count(s, MeterDown));
    NoBytesNoCost(prices);
  }

  // A check takes the sample as it is when it begins, and judges it not before half a minute later.
  lemma GraceMeans(s: State, ms: nat)
    requires Enabled(s, BeginGrace) && s.delayed.value.bytes > 0
    ensures var s' := Apply(Apply(s, BeginGrace), Tick(ms));
            && s'.check.Grace? && s'.check.sample == s.delayed.value
            && (Enabled(s', Judge) <==> ms >= 30_000)
  {
  }

  lemma NoBytesNoCost(p: Prices)
    ensures Cost(p, 0, 0) == 0
  {
    assert p.up * 0 == 0 && p.down * 0 == 0;
  }

  // The payments claimed so far cover the sample's bytes in both directions.
  predicate Covers(s: State, x: Sample)
    requires s.claimed <= |s.ledger|
  {
    var paid := s.ledger[..s.claimed];
    x.up <= Paid(paid, Up) && x.down <= Paid(paid, Down)
  }

  // The claimed increments are all at least `floor` units and cover the sample.
  predicate PaidUp(s: State, x: Sample, floor: nat) {
    s.claimed <= |s.ledger| && EachAtLeast(s.ledger[..s.claimed], floor) && Covers(s, x)
  }

  // Judging a sample that is paid up in increments of at least 18 units does not cut the session off.
  lemma JudgementSparesPaid(s: State, floor: nat)
    requires Inv(s) && Enabled(s, Judge) && floor >= 18 && PaidUp(s, s.check.sample, floor)
    ensures !Apply(s, Judge).books.isClosed
  {
    var x, paid := s.check.sample, s.ledger[..s.claimed];
    LedgerPrefix(s.prices, s.ledger, s.paidUp, s.paidDown, s.claimed);
    Provider.CoveredSampleNeverCloses(s.prices, paid, Paid(paid, Up), Paid(paid, Down), x.up, x.down, x.cost, x.bytes);
  }

  // Whenever a sample is judged, it is paid up.
  predicate AlwaysPaidUp(s: State, steps: seq<Step>, floor: nat)
    requires Legal(s, steps)
    decreases |steps|
  {
    || steps == []
    || (&& (steps[0].Judge? ==> PaidUp(s, s.check.sample, floor))
        && AlwaysPaidUp(Apply(s, steps[0]), steps[1..], floor))
  }

  // A session that is paid up at every judgement is still open at the end, in every interleaving of traffic, payments,
  // samples and checks: the rounding of the increments alone never cuts it off.
  lemma {:induction false} PaidSessionStaysOpen(s: State, steps: seq<Step>, floor: nat)
    requires Inv(s) && !s.books.isClosed && Legal(s, steps) && floor >= 18 && AlwaysPaidUp(s, steps, floor)
    ensures !Play(s, steps).books.isClosed
    decreases |steps|
  {
    if steps != [] {
      if steps[0].Judge? {
        JudgementSparesPaid(s, floor);
      }
      PlayKeepsInv(s, steps[..1]);
      PaidSessionStaysOpen(Apply(s, steps[0]), steps[1..], floor);
    }
  }

  /* ----- Payments due by the threshold only ----- */

  // The payer never wakes up because a minute has passed.
  predicate TimerNeverFires(s: State, steps: seq<Step>)
    requires Legal(s, steps)
    decreases |steps|
  {
    || steps == []
    || (&& (steps[0].Wake? ==> s.clock - s.lastPaidAt <= NANO_PAY_UPDATE_INTERVAL)
        && TimerNeverFires(Apply(s, steps[0]), steps[1..]))
  }

  // Whenever a sample is judged, the claimed payments cover its bytes.
  predicate AlwaysCovered(s: State, steps: seq<Step>)
    requires Legal(s, steps)
    decreases |steps|
  {
    || steps == []
    || (&& (steps[0].Judge? ==> s.claimed <= |s.ledger| && Covers(s, s.check.sample))
        && AlwaysCovered(Apply(s, steps[0]), steps[1..]))
  }

  // Every increment so far, and the one in preparation, comes from a round with more than 32 MiB unpaid.
  predicate RoundsAreLarge(s: State) {
    && EachAtLeast(s.ledger, 31)
    && (s.payer.Woken? ==>
          && s.payer.poll.up <= Count(s, UsedUp) && s.payer.poll.down <= Count(s, UsedDown)
          && s.payer.poll.up + s.payer.poll.down - (s.paidUp + s.paidDown) > TRAFFIC_PAYMENT_THRESHOLD * TRAFFIC_UNIT)
    && (s.payer.Paying? ==> s.payer.cost >= 31)
  }

  lemma StepKeepsRoundsLarge(s: State, step: Step)
    requires RoundsAreLarge(s) && Enabled(s, step) && s.prices.up >= 1 && s.prices.down >= 1
    requires step.Wake? ==> s.clock - s.lastPaidAt <= NANO_PAY_UPDATE_INTERVAL
    ensures RoundsAreLarge(Apply(s, step))
  {
    CountersGrow(s, step, UsedUp);
    CountersGrow(s, step, UsedDown);
    if step.Load? {
      ThresholdRoundCost(s.prices, Count(s, UsedUp) - s.paidUp, Count(s, UsedDown) - s.paidDown);
    }
  }

  lemma {:induction false} ThresholdIncrementsSuffice(s: State, steps: seq<Step>)
    requires Inv(s) && RoundsAreLarge(s) && s.prices.up >= 1 && s.prices.down >= 1
    requires Legal(s, steps) && TimerNeverFires(s, steps) && AlwaysCovered(s, steps)
    ensures AlwaysPaidUp(s, steps, 31)
    decreases |steps|
  {
    if steps != [] {
      PlayKeepsInv(s, steps[..1]);
      StepKeepsRoundsLarge(s, steps[0]);
      ThresholdIncrementsSuffice(Apply(s, steps[0]), steps[1..]);
    }
  }

  // From the start, or any state whose increments so far are large, and with both prices at least 1: as long as no payment
  // is due by the timer, coverage of the judged samples is all that a session needs to stay open.
  lemma CoveredSessionStaysOpen(s: State, steps: seq<Step>)
    requires Inv(s) && RoundsAreLarge(s) && !s.books.isClosed && s.prices.up >= 1 && s.prices.down >= 1
    requires Legal(s, steps) && TimerNeverFires(s, steps) && AlwaysCovered(s, steps)
    ensures !Play(s, steps).books.isClosed
  {
    ThresholdIncrementsSuffice(s, steps);
    PaidSessionStaysOpen(s, steps, 31);
  }
}
