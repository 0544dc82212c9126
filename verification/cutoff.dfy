/**
  Sessions that a provider cuts off although the payer has paid: for all its traffic, in increments of 17 and 18 units, which
  makes 18 units the least increment that is safe; or for everything it counted, while datagrams got lost or duplicated.
*/
module CutOff {
  import opened Wrappers
  import opened Machine
  import opened Billing
  import opened Session
  import opened Timing

  /* ----- Moving bytes through one connection ----- */

  // Both pumps are between turns, and n bytes have gone all the way.
  function Carried(source: seq<Byte>, n: nat): Tunnel.Chain
    requires n <= |source|
  {
    Tunnel.Chain(source, n, Tunnel.Pump(Tunnel.Reading, n), [], [], false, Tunnel.Pump(Tunnel.Reading, n), [], source[..n])
  }

  lemma FirstHop(source: seq<Byte>, n: nat, k: nat)
    requires 0 < k <= Tunnel.PIPE_BUFFER_SIZE && n + k <= |source|
    ensures var c := Carried(source, n);
            var moves := [Tunnel.ReadA(k, None), Tunnel.WriteA(k, false), Tunnel.CountA];
            && Tunnel.Legal(c, moves)
            && Tunnel.Play(c, moves)
               == c.(taken := n + k, a := Tunnel.Pump(Tunnel.Reading, n + k), stream := source[n..n + k])
  {
    var c := Carried(source, n);
    var chunk := source[n..n + k];
    var c1 := Tunnel.Apply(c, Tunnel.ReadA(k, None));
    assert c1.a.pc.buf == chunk && chunk[..k] == chunk && chunk[k..] == [];
    var c2 := Tunnel.Apply(c1, Tunnel.WriteA(k, false));
    assert c2.stream == chunk;
    Tunnel.LegalStep(c2, Tunnel.CountA, []);
    Tunnel.LegalStep(c1, Tunnel.WriteA(k, false), [Tunnel.CountA]);
    Tunnel.LegalStep(c, Tunnel.ReadA(k, None), [Tunnel.WriteA(k, false), Tunnel.CountA]);
  }

  lemma SecondHop(c: Tunnel.Chain, k: nat)
    requires 0 < k == |c.stream| <= Tunnel.PIPE_BUFFER_SIZE && c.b.pc == Tunnel.Reading && c.lostB == []
    ensures var moves := [Tunnel.ReadB(k, None), Tunnel.WriteB(k, false), Tunnel.CountB];
            && Tunnel.Legal(c, moves)
            && Tunnel.Play(c, moves)
               == c.(stream := [], b := Tunnel.Pump(Tunnel.Reading, c.b.count + k), sink := c.sink + c.stream)
  {
    var c1 := Tunnel.Apply(c, Tunnel.ReadB(k, None));
    assert c1.b.pc.buf == c.stream && c.stream[..k] == c.stream && c.stream[k..] == [];
    var c2 := Tunnel.Apply(c1, Tunnel.WriteB(k, false));
    assert c2.sink == c.sink + c.stream;
    Tunnel.LegalStep(c2, Tunnel.CountB, []);
    Tunnel.LegalStep(c1, Tunnel.WriteB(k, false), [Tunnel.CountB]);
    Tunnel.LegalStep(c, Tunnel.ReadB(k, None), [Tunnel.WriteB(k, false), Tunnel.CountB]);
  }

  predicate Moves(c: Tunnel.Chain, moves: seq<Tunnel.Move>, c': Tunnel.Chain) {
    Tunnel.Legal(c, moves) && Tunnel.Play(c, moves) == c'
  }

  lemma {:induction false} MovesAppend(c: Tunnel.Chain, moves: seq<Tunnel.Move>, c': Tunnel.Chain, more: seq<Tunnel.Move>,
                                       c'': Tunnel.Chain)
    requires Moves(c, moves, c') && Moves(c', more, c'')
    ensures Moves(c, moves + more, c'')
    decreases |moves|
  {
    if moves == [] {
      assert moves + more == more;
    } else {
      MovesAppend(Tunnel.Apply(c, moves[0]), moves[1..], c', more, c'');
      assert (moves + more)[0] == moves[0] && (moves + more)[1..] == moves[1..] + more;
    }
  }

  lemma CarryTurn(source: seq<Byte>, n: nat, k: nat) returns (moves: seq<Tunnel.Move>)
    requires 0 < k <= Tunnel.PIPE_BUFFER_SIZE && n + k <= |source|
    ensures Moves(Carried(source, n), moves, Carried(source, n + k))
  {
    var first := [Tunnel.ReadA(k, None), Tunnel.WriteA(k, false), Tunnel.CountA];
    var second := [Tunnel.ReadB(k, None), Tunnel.WriteB(k, false), Tunnel.CountB];
    FirstHop(source, n, k);
    var c := Tunnel.Play(Carried(source, n), first);
    SecondHop(c, k);
    Tunnel.TakeMore(source, n, k);
    MovesAppend(Carried(source, n), first, c, second, Carried(source, n + k));
    moves := first + second;
  }

  lemma {:induction false} Carry(source: seq<Byte>, n: nat, k: nat) returns (moves: seq<Tunnel.Move>)
    requires n + k <= |source|
    ensures Moves(Carried(source, n), moves, Carried(source, n + k))
    decreases k
  {
    if k == 0 {
      moves := [];
    } else {
      var turn := if k <= Tunnel.PIPE_BUFFER_SIZE then k else Tunnel.PIPE_BUFFER_SIZE;
      var first := CarryTurn(source, n, turn);
      var more := Carry(source, n + turn, k - turn);
      var c, c', c'' := Carried(source, n), Carried(source, n + turn), Carried(source, n + k);
      MovesAppend(c, first, c', more, c'');
      moves := first + more;
    }
  }

  function OnlyConn(s: State, isUp: bool, c: Tunnel.Chain): State
    requires |s.conns| == 1
  {
    s.(conns := [if isUp then s.conns[0].(up := c) else s.conns[0].(down := c)])
  }

  // What one direction of the only connection does, the session does.
  lemma {:induction false} MovesReach(m: Moment, isUp: bool, moves: seq<Tunnel.Move>, ok: State -> bool)
    requires |m.s.conns| == 1
    requires var c := if isUp then m.s.conns[0].up else m.s.conns[0].down; Tunnel.Legal(c, moves)
    ensures var c := if isUp then m.s.conns[0].up else m.s.conns[0].down;
            Reaches(m, m.(s := OnlyConn(m.s, isUp, Tunnel.Play(c, moves))), ok)
    decreases |moves|
  {
    var c := if isUp then m.s.conns[0].up else m.s.conns[0].down;
    assert m.s.conns == [m.s.conns[0]];
    if moves == [] {
      assert OnlyConn(m.s, isUp, c) == m.s;
      Stays(m, ok);
    } else {
      var m1 := m.(s := OnlyConn(m.s, isUp, Tunnel.Apply(c, moves[0])));
      assert After(m, Traffic(0, isUp, moves[0])) == m1 by {
        assert Apply(m.s, Traffic(0, isUp, moves[0])).conns == m1.s.conns;
      }
      ReachesBy(m, Traffic(0, isUp, moves[0]), ok);
      MovesReach(m1, isUp, moves[1..], ok);
      assert OnlyConn(m1.s, isUp, Tunnel.Play(c, moves)) == OnlyConn(m.s, isUp, Tunnel.Play(c, moves));
      ReachesOn(m, m1, m.(s := OnlyConn(m.s, isUp, Tunnel.Play(c, moves))), ok);
    }
  }

  /* ----- Traffic and payments that take no time ----- */

  predicate Carries(s: State, up: nat, down: nat) {
    && |s.conns| == 1 && Datagrams.Unused(s.udpUp) && Datagrams.Unused(s.udpDown)
    && up <= |s.conns[0].up.source| && down <= |s.conns[0].down.source|
    && s.conns[0] == Conn(Carried(s.conns[0].up.source, up), Carried(s.conns[0].down.source, down))
  }

  function WithTraffic(s: State, up: nat, down: nat): State
    requires |s.conns| == 1 && up <= |s.conns[0].up.source| && down <= |s.conns[0].down.source|
  {
    s.(conns := [Conn(Carried(s.conns[0].up.source, up), Carried(s.conns[0].down.source, down))])
  }

  lemma TotalOfOne(conns: seq<Conn>, g: Gauge)
    requires |conns| == 1
    ensures Total(conns, g) == Reading(conns[0], g)
  {
    assert conns[..0] == [];
    assert Total(conns[..0], g) == 0;
  }

  lemma CountsOfOne(s: State, up: nat, down: nat)
    requires Carries(s, up, down)
    ensures Count(s, UsedUp) == up == Count(s, MeterUp) && Count(s, UsedDown) == down == Count(s, MeterDown)
  {
    TotalOfOne(s.conns, UsedUp);
    TotalOfOne(s.conns, UsedDown);
    TotalOfOne(s.conns, MeterUp);
    TotalOfOne(s.conns, MeterDown);
  }

  lemma TrafficReaches(m: Moment, up: nat, down: nat, up': nat, down': nat, ok: State -> bool)
    requires Carries(m.s, up, down) && up <= up' <= |m.s.conns[0].up.source| && down <= down' <= |m.s.conns[0].down.source|
    ensures Reaches(m, m.(s := WithTraffic(m.s, up', down')), ok) && Carries(WithTraffic(m.s, up', down'), up', down')
  {
    var moves := Carry(m.s.conns[0].up.source, up, up' - up);
    MovesReach(m, true, moves, ok);
    var m1 := m.(s := OnlyConn(m.s, true, Carried(m.s.conns[0].up.source, up')));
    var moves' := Carry(m.s.conns[0].down.source, down, down' - down);
    MovesReach(m1, false, moves', ok);
    ReachesOn(m, m1, m.(s := WithTraffic(m.s, up', down')), ok);
  }

  const MINUTE: nat := NANO_PAY_UPDATE_INTERVAL + 1
  const SUCCEEDS: Tries := [true, true, true]

  lemma ReachesStep(m: Moment, m': Moment, step: Step, ok: State -> bool)
    requires Reaches(m, m', ok) && CanDo(m', step, ok)
    ensures Reaches(m, After(m', step), ok)
  {
    ReachesBy(m', step, ok);
    ReachesOn(m, m', After(m', step), ok);
  }

  // The payer's half of a round that the timer makes due: wake up, price the unpaid traffic, send.
  lemma PayReaches(m: Moment, up: nat, down: nat, ok: State -> bool) returns (m': Moment)
    requires up == Count(m.s, UsedUp) && down == Count(m.s, UsedDown) && m.s.payer.Asleep?
    requires m.s.paidUp <= up && m.s.paidDown <= down && m.s.clock - m.s.lastPaidAt > NANO_PAY_UPDATE_INTERVAL
    requires var cost := Cost(m.s.prices, up - m.s.paidUp, down - m.s.paidDown); cost > 0 && cost != m.s.lastCost
    ensures var s, cost := m.s, Cost(m.s.prices, up - m.s.paidUp, down - m.s.paidDown);
            var ledger := s.ledger + [Bill(s.paidUp, up, s.paidDown, down, cost)];
            && Reaches(m, m', ok) && m'.last == m.last
            && m'.s == s.(paidUp := up, paidDown := down, lastCost := cost, lastPaidAt := s.clock, ledger := ledger,
                          wire := s.wire + [Payment(|ledger|, Claimable(ledger))])
  {
    var s, cost := m.s, Cost(m.s.prices, up - m.s.paidUp, down - m.s.paidDown);
    var m1 := m.(s := s.(payer := Woken(Poll(up, down, s.clock))));
    ReachesBy(m, Wake, ok);
    var m2 := m.(s := s.(payer := Paying(Poll(up, down, s.clock), up, down, s.clock, cost)));
    assert After(m1, Load) == m2;
    ReachesStep(m, m1, Load, ok);
    m' := After(m2, Send);
    ReachesStep(m, m2, Send, ok);
  }

  // The provider's half: receive the only payment and claim it.
  lemma ClaimReaches(m: Moment, ok: State -> bool) returns (m': Moment)
    requires m.s.handler.Idle? && |m.s.wire| == 1 && Now(m.s).cost > 0
    ensures Reaches(m, m', ok) && m'.last == m.last && exists credit: nat ::
      m'.s == m.s.(wire := [], claimed := m.s.wire[0].n,
                   books := Provider.Books(m.s.wire[0].amount, m.s.clock, credit, m.s.books.isClosed))
  {
    var s, payment, x := m.s, m.s.wire[0], Now(m.s);
    assert s.wire[1..] == [];
    var m1 := m.(s := s.(wire := [], handler := Claiming(payment, x.cost, x.bytes)));
    ReachesBy(m, Receive, ok);
    OutcomesAgree(SUCCEEDS, payment.amount);
    m' := After(m1, Claim(SUCCEEDS));
    ReachesStep(m, m1, Claim(SUCCEEDS), ok);
    assert m'.s == s.(wire := [], claimed := payment.n,
                      books := Provider.Books(payment.amount, s.clock, Provider.Credit(x.bytes, payment.amount, x.cost), s.books.isClosed));
  }

  // Everything that has been counted is paid and claimed.
  predicate AllPaid(s: State) {
    && s.payer.Asleep? && s.wire == [] && s.handler.Idle?
    && Settled(s) && s.books.lastPaymentAmount == Claimable(s.ledger) && s.lastPaidAt <= s.clock
  }

  lemma {:induction false} PathKeepsInv(m: Moment, steps: seq<Step>, m': Moment, ok: State -> bool)
    requires Inv(m.s) && Path(m, steps, m', ok)
    ensures Inv(m'.s)
    decreases |steps|
  {
    if steps != [] {
      InvStays(m.s, steps[0]);
      PathKeepsInv(After(m, steps[0]), steps[1..], m', ok);
    }
  }

  lemma ReachesKeepsInv(m: Moment, m': Moment, ok: State -> bool)
    requires Inv(m.s) && Reaches(m, m', ok)
    ensures Inv(m'.s)
  {
    var steps :| Path(m, steps, m', ok);
    PathKeepsInv(m, steps, m', ok);
  }

  // One payment for everything unpaid, and its claim, in no time.
  lemma SettleReaches(m: Moment, ok: State -> bool) returns (m': Moment)
    requires Inv(m.s) && m.s.payer.Asleep? && m.s.wire == [] && m.s.handler.Idle?
    requires m.s.clock - m.s.lastPaidAt > NANO_PAY_UPDATE_INTERVAL && Now(m.s).cost > 0
    requires var cost := Cost(m.s.prices, Count(m.s, UsedUp) - m.s.paidUp, Count(m.s, UsedDown) - m.s.paidDown);
             cost > 0 && cost != m.s.lastCost
    ensures Reaches(m, m', ok) && m'.last == m.last && AllPaid(m'.s) && Inv(m'.s)
    ensures var s, s', up, down := m.s, m'.s, Count(m.s, UsedUp), Count(m.s, UsedDown);
            var cost := Cost(s.prices, up - s.paidUp, down - s.paidDown);
            && s' == s.(paidUp := up, paidDown := down, lastCost := cost, lastPaidAt := s.clock, claimed := s'.claimed,
                        ledger := s.ledger + [Bill(s.paidUp, up, s.paidDown, down, cost)], books := s'.books)
            && s'.books.isClosed == s.books.isClosed
  {
    var m1 := PayReaches(m, Count(m.s, UsedUp), Count(m.s, UsedDown), ok);
    assert Now(m1.s).cost == Now(m.s).cost;
    m' := ClaimReaches(m1, ok);
    ReachesOn(m, m1, m', ok);
    ReachesKeepsInv(m, m', ok);
  }

  /* ----- A session that pays for every byte ----- */

  // All bytes are through, and paid in increments of at least 17 units.
  predicate AtRest(s: State, up: nat, down: nat) {
    Carries(s, up, down) && AllPaid(s) && EachAtLeast(s.ledger, 17)
  }

  lemma RestTolerates(s: State, up: nat, down: nat)
    requires Inv(s) && AtRest(s, up, down)
    ensures Tolerates(s, PaidAt(17))
  {
    CountsOfOne(s, up, down);
    ClaimedIsPaid(s);
    assert s.ledger[..|s.ledger|] == s.ledger;
    forall s' | Frame(s, s') && s'.check.Grace? && SampleOk(s', s'.check.sample)
      ensures PaidAt(17)(s')
    {
      FrameCounts(s, s', MeterUp);
      FrameCounts(s, s', MeterDown);
    }
  }

  lemma RestStays(s: State, s': State, up: nat, down: nat)
    requires AtRest(s, up, down) && Frame(s, s')
    ensures AtRest(s', up, down)
  {
    FrameCounts(s, s', UsedUp);
    FrameCounts(s, s', UsedDown);
  }

  lemma SameMomentCalm(m: Moment, m': Moment, up: nat, down: nat)
    requires Prompt(m) && Inv(m'.s) && AtRest(m'.s, up, down) && !m'.s.books.isClosed
    requires m'.last == m.last && m'.s.clock == m.s.clock && m'.s.pending == m.s.pending && m'.s.check == m.s.check
    ensures Calm(m', PaidAt(17))
  {
    RestTolerates(m'.s, up, down);
  }

  lemma TrafficKeeps(m: Moment, up: nat, down: nat, up': nat, down': nat)
    requires Inv(m.s) && Carries(m.s, up, down)
    requires up <= up' <= |m.s.conns[0].up.source| && down <= down' <= |m.s.conns[0].down.source|
    ensures var m' := m.(s := WithTraffic(m.s, up', down'));
            && Reaches(m, m', PaidAt(17)) && Inv(m'.s) && Carries(m'.s, up', down')
            && Count(m'.s, UsedUp) == up' && Count(m'.s, UsedDown) == down' && Now(m'.s).cost == Cost(m.s.prices, up', down')
  {
    TrafficReaches(m, up, down, up', down', PaidAt(17));
    var m' := m.(s := WithTraffic(m.s, up', down'));
    ReachesKeepsInv(m, m', PaidAt(17));
    CountsOfOne(m'.s, up', down');
  }

  // A burst of traffic and one payment for all of it.
  lemma BurstReaches(m: Moment, up: nat, down: nat, up': nat, down': nat) returns (m': Moment)
    requires Calm(m, PaidAt(17)) && AtRest(m.s, up, down) && m.s.clock - m.s.lastPaidAt > NANO_PAY_UPDATE_INTERVAL
    requires up <= up' <= |m.s.conns[0].up.source| && down <= down' <= |m.s.conns[0].down.source|
    requires var cost := Cost(m.s.prices, up' - up, down' - down); cost >= 17 && cost != m.s.lastCost
    ensures Reaches(m, m', PaidAt(17))
    ensures Calm(m', PaidAt(17)) && AtRest(m'.s, up', down') && Extends(m.s, m'.s, up, down, up', down')
  {
    CountsOfOne(m.s, up, down);
    TrafficKeeps(m, up, down, up', down');
    var m1 := m.(s := WithTraffic(m.s, up', down'));
    CostMono(m.s.prices, up' - up, down' - down, up', down');
    m' := SettleReaches(m1, PaidAt(17));
    ReachesOn(m, m1, m', PaidAt(17));
    SameMomentCalm(m, m', up', down');
  }

  // A minute's rest, in which the session may get closed, and then a burst.
  lemma RoundReaches(m: Moment, up: nat, down: nat, up': nat, down': nat) returns (m': Moment)
    requires Calm(m, PaidAt(17)) && AtRest(m.s, up, down)
    requires up <= up' <= |m.s.conns[0].up.source| && down <= down' <= |m.s.conns[0].down.source|
    requires var cost := Cost(m.s.prices, up' - up, down' - down); cost >= 17 && cost != m.s.lastCost
    ensures Reaches(m, m', PaidAt(17))
    ensures m'.s.books.isClosed || (Calm(m', PaidAt(17)) && AtRest(m'.s, up', down') && Extends(m.s, m'.s, up, down, up', down'))
  {
    var m1 := Rest(m, MINUTE, PaidAt(17));
    if m1.s.books.isClosed {
      return m1;
    }
    RestStays(m.s, m1.s, up, down);
    m' := BurstReaches(m1, up, down, up', down');
    ReachesOn(m, m1, m', PaidAt(17));
  }

  // One more bill, for the traffic in between.
  predicate Extends(s: State, s': State, up: nat, down: nat, up': nat, down': nat)
    requires |s.conns| == 1 && up <= up' && down <= down'
  {
    var cost := Cost(s.prices, up' - up, down' - down);
    && SameSession(s, s') && s'.lastCost == cost && s'.ledger == s.ledger + [Bill(up, up', down, down', cost)]
  }

  predicate SameSession(s: State, s': State)
    requires |s.conns| == 1
  {
    && s'.prices == s.prices && |s'.conns| == 1
    && s'.conns[0].up.source == s.conns[0].up.source && s'.conns[0].down.source == s.conns[0].down.source
  }

  /* ----- 17 is not enough ----- */

  const UP_PER_PAIR: nat := 19 * TRAFFIC_UNIT - 2
  const DOWN_PER_PAIR: nat := 20 * TRAFFIC_UNIT - 2

  lemma LeanCosts()
    ensures Cost(Provider.UNIT_PRICES, 9 * TRAFFIC_UNIT - 1, 10 * TRAFFIC_UNIT - 1) == 17
    ensures Cost(Provider.UNIT_PRICES, 10 * TRAFFIC_UNIT - 1, 10 * TRAFFIC_UNIT - 1) == 18
  {
  }

  // The bills of a pair of payments.
  function PairBills(up: nat, down: nat): seq<Bill> {
    [Bill(up, up + 9 * TRAFFIC_UNIT - 1, down, down + 10 * TRAFFIC_UNIT - 1, 17),
     Bill(up + 9 * TRAFFIC_UNIT - 1, up + UP_PER_PAIR, down + 10 * TRAFFIC_UNIT - 1, down + DOWN_PER_PAIR, 18)]
  }

  lemma LeanLedgerGrows(n: nat)
    ensures Provider.LeanLedger(n + 1) == Provider.LeanLedger(n) + PairBills(n * UP_PER_PAIR, n * DOWN_PER_PAIR)
  {
  }

  predicate AfterPairs(s: State, n: nat) {
    && AtRest(s, n * UP_PER_PAIR, n * DOWN_PER_PAIR) && s.prices == Provider.UNIT_PRICES && s.lastCost != 17
    && s.ledger == Provider.LeanLedger(n)
  }

  lemma PairSums(n: nat)
    ensures (n + 1) * UP_PER_PAIR == n * UP_PER_PAIR + UP_PER_PAIR && (n + 1) * DOWN_PER_PAIR == n * DOWN_PER_PAIR + DOWN_PER_PAIR
  {
  }

  // The first payment of a pair, and the second one.
  lemma HalfPairReaches(m: Moment, up: nat, down: nat) returns (m': Moment)
    requires Calm(m, PaidAt(17)) && AtRest(m.s, up, down) && m.s.prices == Provider.UNIT_PRICES && m.s.lastCost != 17
    requires up + UP_PER_PAIR <= |m.s.conns[0].up.source| && down + DOWN_PER_PAIR <= |m.s.conns[0].down.source|
    ensures Reaches(m, m', PaidAt(17))
    ensures m'.s.books.isClosed ||
      (Calm(m', PaidAt(17)) && AtRest(m'.s, up + 9 * TRAFFIC_UNIT - 1, down + 10 * TRAFFIC_UNIT - 1)
       && SameSession(m.s, m'.s) && m'.s.lastCost == 17
       && m'.s.ledger == m.s.ledger + [Bill(up, up + 9 * TRAFFIC_UNIT - 1, down, down + 10 * TRAFFIC_UNIT - 1, 17)])
  {
    LeanCosts();
    m' := RoundReaches(m, up, down, up + 9 * TRAFFIC_UNIT - 1, down + 10 * TRAFFIC_UNIT - 1);
  }

  lemma OtherHalfReaches(m: Moment, up: nat, down: nat) returns (m': Moment)
    requires Calm(m, PaidAt(17)) && m.s.prices == Provider.UNIT_PRICES && m.s.lastCost == 17
    requires AtRest(m.s, up + 9 * TRAFFIC_UNIT - 1, down + 10 * TRAFFIC_UNIT - 1)
    requires up + UP_PER_PAIR <= |m.s.conns[0].up.source| && down + DOWN_PER_PAIR <= |m.s.conns[0].down.source|
    ensures Reaches(m, m', PaidAt(17))
    ensures m'.s.books.isClosed ||
      (Calm(m', PaidAt(17)) && AtRest(m'.s, up + UP_PER_PAIR, down + DOWN_PER_PAIR)
       && SameSession(m.s, m'.s) && m'.s.lastCost == 18
       && m'.s.ledger == m.s.ledger + [Bill(up + 9 * TRAFFIC_UNIT - 1, up + UP_PER_PAIR, down + 10 * TRAFFIC_UNIT - 1,
                                            down + DOWN_PER_PAIR, 18)])
  {
    LeanCosts();
    m' := RoundReaches(m, up + 9 * TRAFFIC_UNIT - 1, down + 10 * TRAFFIC_UNIT - 1, up + UP_PER_PAIR, down + DOWN_PER_PAIR);
  }

  lemma WholePairReaches(m: Moment, up: nat, down: nat) returns (m': Moment)
    requires Calm(m, PaidAt(17)) && AtRest(m.s, up, down) && m.s.prices == Provider.UNIT_PRICES && m.s.lastCost != 17
    requires up + UP_PER_PAIR <= |m.s.conns[0].up.source| && down + DOWN_PER_PAIR <= |m.s.conns[0].down.source|
    ensures Reaches(m, m', PaidAt(17))
    ensures m'.s.books.isClosed ||
      (Calm(m', PaidAt(17)) && AtRest(m'.s, up + UP_PER_PAIR, down + DOWN_PER_PAIR)
       && SameSession(m.s, m'.s) && m'.s.lastCost == 18 && m'.s.ledger == m.s.ledger + PairBills(up, down))
  {
    var m1 := HalfPairReaches(m, up, down);
    if m1.s.books.isClosed {
      return m1;
    }
    m' := OtherHalfReaches(m1, up, down);
    ReachesOn(m, m1, m', PaidAt(17));
  }

  lemma PairCompletes(s: State, s': State, n: nat)
    requires AfterPairs(s, n) && SameSession(s, s') && s'.lastCost == 18
    requires AtRest(s', n * UP_PER_PAIR + UP_PER_PAIR, n * DOWN_PER_PAIR + DOWN_PER_PAIR)
    requires s'.ledger == s.ledger + PairBills(n * UP_PER_PAIR, n * DOWN_PER_PAIR)
    ensures AfterPairs(s', n + 1)
  {
    PairSums(n);
    LeanLedgerGrows(n);
  }

  lemma PairReaches(m: Moment, n: nat) returns (m': Moment)
    requires Calm(m, PaidAt(17)) && AfterPairs(m.s, n)
    requires (n + 1) * UP_PER_PAIR <= |m.s.conns[0].up.source| && (n + 1) * DOWN_PER_PAIR <= |m.s.conns[0].down.source|
    ensures Reaches(m, m', PaidAt(17))
    ensures m'.s.books.isClosed || (Calm(m', PaidAt(17)) && AfterPairs(m'.s, n + 1) && SameSession(m.s, m'.s))
  {
    PairSums(n);
    m' := WholePairReaches(m, n * UP_PER_PAIR, n * DOWN_PER_PAIR);
    if !m'.s.books.isClosed {
      PairCompletes(m.s, m'.s, n);
    }
  }

  lemma {:induction false} PairsReach(m: Moment, n: nat) returns (m': Moment)
    requires Calm(m, PaidAt(17)) && AfterPairs(m.s, 0)
    requires n * UP_PER_PAIR <= |m.s.conns[0].up.source| && n * DOWN_PER_PAIR <= |m.s.conns[0].down.source|
    ensures Reaches(m, m', PaidAt(17))
    ensures m'.s.books.isClosed || (Calm(m', PaidAt(17)) && AfterPairs(m'.s, n) && SameSession(m.s, m'.s))
    decreases n
  {
    if n == 0 {
      Stays(m, PaidAt(17));
      m' := m;
    } else {
      var m1 := PairsReach(m, n - 1);
      if m1.s.books.isClosed {
        return m1;
      }
      m' := PairReaches(m1, n - 1);
      ReachesOn(m, m1, m', PaidAt(17));
    }
  }

  function Start(now: int): Moment {
    Moment(Init(Provider.UNIT_PRICES, now), now)
  }

  lemma OpenReaches(now: int, sourceUp: seq<Byte>, sourceDown: seq<Byte>) returns (m: Moment)
    ensures Reaches(Start(now), m, PaidAt(17)) && Calm(m, PaidAt(17)) && AfterPairs(m.s, 0)
    ensures m.s.conns[0].up.source == sourceUp && m.s.conns[0].down.source == sourceDown
  {
    m := After(Start(now), Connect(sourceUp, sourceDown));
    ReachesBy(Start(now), Connect(sourceUp, sourceDown), PaidAt(17));
    assert sourceUp[..0] == [] && sourceDown[..0] == [];
    InitInv(Provider.UNIT_PRICES, now);
    ReachesKeepsInv(Start(now), m, PaidAt(17));
    assert Carries(m.s, 0, 0);
    CountsOfOne(m.s, 0, 0);
    SameMomentCalm(Start(now), m, 0, 0);
  }

  const PAIRS: nat := 28
  const ALL_UP: nat := PAIRS * UP_PER_PAIR
  const ALL_DOWN: nat := PAIRS * DOWN_PER_PAIR

  lemma LeanCloses()
    ensures EachAtLeast(Provider.LeanLedger(PAIRS), 17)
    ensures Paid(Provider.LeanLedger(PAIRS), Up) == ALL_UP && Paid(Provider.LeanLedger(PAIRS), Down) == ALL_DOWN
    ensures Provider.Closes(Claimable(Provider.LeanLedger(PAIRS)), Cost(Provider.UNIT_PRICES, ALL_UP, ALL_DOWN), ALL_UP + ALL_DOWN)
    ensures Cost(Provider.UNIT_PRICES, ALL_UP, ALL_DOWN) > Claimable(Provider.LeanLedger(PAIRS))
  {
    Provider.EighteenIsSharp();
    Provider.LeanLedgerOk(PAIRS);
    LedgerPaid(Provider.UNIT_PRICES, Provider.LeanLedger(PAIRS), ALL_UP, ALL_DOWN);
  }

  lemma LeanIsUnderpaid(s: State)
    requires AfterPairs(s, PAIRS)
    ensures Underpaid(s) && WouldClose(s, Now(s))
  {
    CountsOfOne(s, ALL_UP, ALL_DOWN);
    LeanCloses();
  }

  lemma LeanSession(now: int) returns (m: Moment)
    ensures Reaches(Start(now), m, PaidAt(17)) && m.s.books.isClosed
  {
    var m0 := OpenReaches(now, seq(ALL_UP, _ => 0), seq(ALL_DOWN, _ => 0));
    var m1 := PairsReach(m0, PAIRS);
    ReachesOn(Start(now), m0, m1, PaidAt(17));
    if m1.s.books.isClosed {
      return m1;
    }
    LeanIsUnderpaid(m1.s);
    m := UnderpaidIsClosed(m1, PaidAt(17));
    ReachesOn(Start(now), m1, m, PaidAt(17));
  }

  // With a provider that is on time, a session whose every judged sample is covered by increments of at least 17 units can
  // be cut off.
  lemma SeventeenIsCutOff(now: int) returns (steps: seq<Step>)
    ensures Legal(Start(now).s, steps) && Timely(Start(now), steps) && AlwaysPaidUp(Start(now).s, steps, 17)
    ensures Play(Start(now).s, steps).books.isClosed
  {
    var m := LeanSession(now);
    steps :| Path(Start(now), steps, m, PaidAt(17));
    PathIsRun(Start(now), steps, m, PaidAt(17));
    JudgedPaidUp(Start(now).s, steps, 17);
  }

  lemma {:induction false} PaidUpToLess(s: State, steps: seq<Step>, floor: nat, lower: nat)
    requires Legal(s, steps) && AlwaysPaidUp(s, steps, floor) && lower <= floor
    ensures AlwaysPaidUp(s, steps, lower)
    decreases |steps|
  {
    if steps != [] {
      PaidUpToLess(Apply(s, steps[0]), steps[1..], floor, lower);
    }
  }

  // Sessions that cover every judged sample in increments of at least `floor` units are never cut off.
  ghost predicate RoundingIsHarmless(floor: nat) {
    forall prices, now, steps :: Legal(Init(prices, now), steps) && AlwaysPaidUp(Init(prices, now), steps, floor) ==>
      !Play(Init(prices, now), steps).books.isClosed
  }

  // Nor are they if the provider is on time.
  ghost predicate RoundingIsHarmlessOnTime(floor: nat) {
    forall prices, now, steps :: Legal(Init(prices, now), steps) && Timely(Moment(Init(prices, now), now), steps)
                                 && AlwaysPaidUp(Init(prices, now), steps, floor) ==>
      !Play(Init(prices, now), steps).books.isClosed
  }

  lemma HarmlessIff(floor: nat)
    ensures RoundingIsHarmless(floor) <==> floor >= 18
    ensures RoundingIsHarmlessOnTime(floor) <==> floor >= 18
  {
    if floor >= 18 {
      forall prices, now, steps | Legal(Init(prices, now), steps) && AlwaysPaidUp(Init(prices, now), steps, floor)
        ensures !Play(Init(prices, now), steps).books.isClosed
      {
        InitInv(prices, now);
        PaidSessionStaysOpen(Init(prices, now), steps, floor);
      }
    } else {
      var steps := SeventeenIsCutOff(0);
      PaidUpToLess(Start(0).s, steps, 17, floor);
    }
  }

  /* ----- Datagrams that get lost, or arrive twice ----- */

  function IsSettled(): State -> bool {
    (s: State) => Settled(s)
  }

  lemma SettledTolerates(s: State)
    requires Settled(s)
    ensures Tolerates(s, IsSettled())
  {
    forall s' | Frame(s, s') && s'.check.Grace? && SampleOk(s', s'.check.sample)
      ensures IsSettled()(s')
    {
      FrameCounts(s, s', UsedUp);
      FrameCounts(s, s', UsedDown);
    }
  }

  // Only these datagram counters have changed.
  predicate Flowed(f: Datagrams.Flow, f': Datagrams.Flow, sent: nat, received: nat) {
    && f'.sent == f.sent + sent && f'.received == f.received + received
    && f'.writing.None? && f'.reading.None?
  }

  lemma LoseOne(m: Moment, ok: State -> bool) returns (m': Moment)
    requires m.s.udpDown.writing.None? && m.s.udpDown.reading.None?
    ensures Reaches(m, m', ok) && m' == m.(s := m.s.(udpDown := m'.s.udpDown))
    ensures Flowed(m.s.udpDown, m'.s.udpDown, Datagrams.MAX_SIZE, 0)
  {
    var i := |m.s.udpDown.grams|;
    var m1 := After(m, Udp(false, Datagrams.Write(Datagrams.MAX_SIZE)));
    ReachesBy(m, Udp(false, Datagrams.Write(Datagrams.MAX_SIZE)), ok);
    var m2 := After(m1, Udp(false, Datagrams.CountSent));
    ReachesStep(m, m1, Udp(false, Datagrams.CountSent), ok);
    m' := After(m2, Udp(false, Datagrams.Lose(i)));
    ReachesStep(m, m2, Udp(false, Datagrams.Lose(i)), ok);
  }

  lemma {:induction false} LoseMany(m: Moment, n: nat, ok: State -> bool) returns (m': Moment)
    requires m.s.udpDown.writing.None? && m.s.udpDown.reading.None?
    ensures Reaches(m, m', ok) && m' == m.(s := m.s.(udpDown := m'.s.udpDown))
    ensures Flowed(m.s.udpDown, m'.s.udpDown, n * Datagrams.MAX_SIZE, 0)
    decreases n
  {
    if n == 0 {
      Stays(m, ok);
      m' := m;
    } else {
      var m1 := LoseMany(m, n - 1, ok);
      m' := LoseOne(m1, ok);
      ReachesOn(m, m1, m', ok);
    }
  }

  lemma DoubleOne(m: Moment, ok: State -> bool) returns (m': Moment)
    requires m.s.udpUp.writing.None? && m.s.udpUp.reading.None?
    ensures Reaches(m, m', ok) && m' == m.(s := m.s.(udpUp := m'.s.udpUp))
    ensures Flowed(m.s.udpUp, m'.s.udpUp, Datagrams.MAX_SIZE, 2 * Datagrams.MAX_SIZE)
  {
    var i := |m.s.udpUp.grams|;
    var m1 := After(m, Udp(true, Datagrams.Write(Datagrams.MAX_SIZE)));
    ReachesBy(m, Udp(true, Datagrams.Write(Datagrams.MAX_SIZE)), ok);
    var m2 := After(m1, Udp(true, Datagrams.CountSent));
    ReachesStep(m, m1, Udp(true, Datagrams.CountSent), ok);
    var m3 := After(m2, Udp(true, Datagrams.Copy(i)));
    ReachesStep(m, m2, Udp(true, Datagrams.Copy(i)), ok);
    var m4 := ArriveOne(m3, i, ok);
    ReachesOn(m, m3, m4, ok);
    m' := ArriveOne(m4, i + 1, ok);
    ReachesOn(m, m4, m', ok);
  }

  lemma ArriveOne(m: Moment, i: nat, ok: State -> bool) returns (m': Moment)
    requires Datagrams.InFlight(m.s.udpUp, i) && m.s.udpUp.writing.None? && m.s.udpUp.reading.None?
    ensures Reaches(m, m', ok) && m' == m.(s := m.s.(udpUp := m'.s.udpUp))
    ensures Flowed(m.s.udpUp, m'.s.udpUp, 0, m.s.udpUp.grams[i].size)
    ensures m'.s.udpUp.grams == m.s.udpUp.grams[i := Datagrams.Arrived(m.s.udpUp.grams[i].size)]
  {
    var m1 := After(m, Udp(true, Datagrams.Arrive(i)));
    ReachesBy(m, Udp(true, Datagrams.Arrive(i)), ok);
    m' := After(m1, Udp(true, Datagrams.CountReceived));
    ReachesStep(m, m1, Udp(true, Datagrams.CountReceived), ok);
  }

  lemma {:induction false} DoubleMany(m: Moment, n: nat, ok: State -> bool) returns (m': Moment)
    requires m.s.udpUp.writing.None? && m.s.udpUp.reading.None?
    ensures Reaches(m, m', ok) && m' == m.(s := m.s.(udpUp := m'.s.udpUp))
    ensures Flowed(m.s.udpUp, m'.s.udpUp, n * Datagrams.MAX_SIZE, 2 * n * Datagrams.MAX_SIZE)
    decreases n
  {
    if n == 0 {
      Stays(m, ok);
      m' := m;
    } else {
      var m1 := DoubleMany(m, n - 1, ok);
      m' := DoubleOne(m1, ok);
      ReachesOn(m, m1, m', ok);
    }
  }

  const DATAGRAMS: nat := 33

  lemma StartIsCalm(now: int)
    ensures Calm(Start(now), IsSettled()) && Fresh(Start(now).s)
    ensures Count(Start(now).s, UsedUp) == 0 == Count(Start(now).s, MeterUp)
    ensures Count(Start(now).s, UsedDown) == 0 == Count(Start(now).s, MeterDown)
  {
    InitIsFresh(Provider.UNIT_PRICES, now);
    InitInv(Provider.UNIT_PRICES, now);
    SettledTolerates(Start(now).s);
  }

  // The provider has sent 33 full datagrams, of which the payer has seen none.
  lemma LossIsUnderpaid(s: State)
    requires s.prices == Provider.UNIT_PRICES && s.books.lastPaymentAmount == 0
    requires Count(s, MeterUp) == 0 && Count(s, MeterDown) == DATAGRAMS * Datagrams.MAX_SIZE
    ensures Underpaid(s) && WouldClose(s, Now(s))
  {
  }

  // With a provider that is on time, a payer that never has anything left to pay can be cut off because datagrams to it
  // got lost.
  lemma LostDatagramsCutOff(now: int) returns (steps: seq<Step>)
    ensures Legal(Start(now).s, steps) && Timely(Start(now), steps) && JudgedIn(Start(now).s, steps, IsSettled())
    ensures var s := Play(Start(now).s, steps);
            s.books.isClosed && Settled(s) && s.ledger == [] && Count(s, UsedUp) == 0 == Count(s, UsedDown)
  {
    var ok, m0 := IsSettled(), Start(now);
    StartIsCalm(now);
    var m1 := LoseMany(m0, DATAGRAMS, ok);
    ReachesKeepsInv(m0, m1, ok);
    SettledTolerates(m1.s);
    LossIsUnderpaid(m1.s);
    var m2 := UnderpaidIsClosed(m1, ok);
    FrameCounts(m1.s, m2.s, UsedUp);
    FrameCounts(m1.s, m2.s, UsedDown);
    ReachesOn(m0, m1, m2, ok);
    steps :| Path(m0, steps, m2, ok);
    PathIsRun(m0, steps, m2, ok);
  }

  // The payer has paid for 33 full datagrams, of which the provider has seen 66.
  lemma DoublingIsUnderpaid(s: State)
    requires s.prices == Provider.UNIT_PRICES && s.books.lastPaymentAmount == 2
    requires Count(s, MeterUp) == 2 * DATAGRAMS * Datagrams.MAX_SIZE && Count(s, MeterDown) == 0
    ensures Underpaid(s) && WouldClose(s, Now(s))
  {
  }

  // Likewise because datagrams from it arrived twice.
  lemma DoubledDatagramsCutOff(now: int) returns (steps: seq<Step>)
    ensures Legal(Start(now).s, steps) && Timely(Start(now), steps) && JudgedIn(Start(now).s, steps, IsSettled())
    ensures Play(Start(now).s, steps).books.isClosed
  {
    var ok, m0 := IsSettled(), Start(now);
    StartIsCalm(now);
    var m := DoubledSession(now);
    steps :| Path(m0, steps, m, ok);
    PathIsRun(m0, steps, m, ok);
  }

  // Nothing has happened in the session but time.
  predicate Unspent(s: State) {
    && s.payer.Asleep? && s.wire == [] && s.handler.Idle? && s.prices == Provider.UNIT_PRICES && s.lastCost == 0
    && s.ledger == [] && s.paidUp == 0 && s.paidDown == 0 && Datagrams.Unused(s.udpUp)
    && Count(s, UsedUp) == 0 == Count(s, MeterUp) && Count(s, UsedDown) == 0 == Count(s, MeterDown)
  }

  lemma StartUnspent(now: int)
    ensures Unspent(Start(now).s) && Start(now).s.lastPaidAt == now
  {
    StartIsCalm(now);
  }

  lemma UnspentStays(s: State, s': State)
    requires Unspent(s) && Frame(s, s')
    ensures Unspent(s')
  {
    FrameCounts(s, s', UsedUp);
    FrameCounts(s, s', UsedDown);
    FrameCounts(s, s', MeterUp);
    FrameCounts(s, s', MeterDown);
  }

  lemma DoubledTraffic(m: Moment) returns (m': Moment)
    requires Inv(m.s) && Unspent(m.s)
    ensures Reaches(m, m', IsSettled()) && Inv(m'.s) && m' == m.(s := m.s.(udpUp := m'.s.udpUp))
    ensures Count(m'.s, UsedUp) == DATAGRAMS * Datagrams.MAX_SIZE && Count(m'.s, UsedDown) == 0
    ensures Count(m'.s, MeterUp) == 2 * DATAGRAMS * Datagrams.MAX_SIZE && Count(m'.s, MeterDown) == 0
  {
    m' := DoubleMany(m, DATAGRAMS, IsSettled());
    ReachesKeepsInv(m, m', IsSettled());
  }

  lemma SettledCalm(m: Moment, m': Moment)
    requires Prompt(m) && Inv(m'.s) && Settled(m'.s) && !m'.s.books.isClosed
    requires m'.last == m.last && m'.s.clock == m.s.clock && m'.s.pending == m.s.pending && m'.s.check == m.s.check
    ensures Calm(m', IsSettled())
  {
    SettledTolerates(m'.s);
  }

  const HALF: nat := DATAGRAMS * Datagrams.MAX_SIZE

  lemma HalfCosts()
    ensures Cost(Provider.UNIT_PRICES, HALF, 0) == 2 && Cost(Provider.UNIT_PRICES, 2 * HALF, 0) == 4
  {
  }

  lemma OneBill(ledger: seq<Bill>, b: Bill)
    requires ledger == [b]
    ensures Claimable(ledger) == b.cost
  {
    assert ledger[..0] == [];
    assert Claimable(ledger[..0]) == 0;
  }

  lemma DoubledSettles(m: Moment) returns (m': Moment)
    requires Inv(m.s) && m.s.payer.Asleep? && m.s.wire == [] && m.s.handler.Idle? && m.s.prices == Provider.UNIT_PRICES
    requires m.s.lastCost == 0 && m.s.ledger == [] && m.s.paidUp == 0 && m.s.paidDown == 0
    requires m.s.clock - m.s.lastPaidAt > NANO_PAY_UPDATE_INTERVAL
    requires Count(m.s, UsedUp) == HALF && Count(m.s, UsedDown) == 0
    requires Count(m.s, MeterUp) == 2 * HALF && Count(m.s, MeterDown) == 0
    ensures Reaches(m, m', IsSettled()) && Inv(m'.s) && Settled(m'.s) && m'.s.books.lastPaymentAmount == 2
    ensures m'.s.prices == m.s.prices && m'.s.books.isClosed == m.s.books.isClosed
    ensures m'.last == m.last && m'.s.clock == m.s.clock && m'.s.pending == m.s.pending && m'.s.check == m.s.check
    ensures Count(m'.s, MeterUp) == 2 * HALF && Count(m'.s, MeterDown) == 0
  {
    HalfCosts();
    m' := SettleReaches(m, IsSettled());
    OneBill(m'.s.ledger, Bill(0, HALF, 0, 0, 2));
  }

  lemma DoubledBurst(m: Moment) returns (m': Moment)
    requires Calm(m, IsSettled()) && Unspent(m.s) && m.s.clock - m.s.lastPaidAt > NANO_PAY_UPDATE_INTERVAL
    ensures Reaches(m, m', IsSettled()) && Calm(m', IsSettled()) && Underpaid(m'.s) && WouldClose(m'.s, Now(m'.s))
  {
    var m1 := DoubledTraffic(m);
    m' := DoubledSettles(m1);
    ReachesOn(m, m1, m', IsSettled());
    SettledCalm(m, m');
    DoublingIsUnderpaid(m'.s);
  }

  lemma DoubledSession(now: int) returns (m: Moment)
    ensures Reaches(Start(now), m, IsSettled()) && m.s.books.isClosed
  {
    StartIsCalm(now);
    StartUnspent(now);
    var m1 := Rest(Start(now), MINUTE, IsSettled());
    if m1.s.books.isClosed {
      return m1;
    }
    UnspentStays(Start(now).s, m1.s);
    var m2 := DoubledBurst(m1);
    ReachesOn(Start(now), m1, m2, IsSettled());
    m := UnderpaidIsClosed(m2, IsSettled());
    ReachesOn(Start(now), m2, m, IsSettled());
  }
}
