/**
  Collecting a batch of service providers: query subscriber pages prefix by prefix in random order until enough are
  known, or give up on prefixes and ask once for the whole topic when that promises to be cheaper.
*/
module Sampling {
  import opened Wrappers
  import opened Machine

  const MAX_RPC_REQUESTS: nat := 8

  // The subscribers whose identifier starts with a byte, or all of them.
  datatype Prefix = Starting(first: Byte) | WholeTopic

  type Subscribers = map<string, string>

  // What the network would answer to a query: the count call may fail, and so may the page call after it.
  datatype Reply = CountFailed | Counted(count: int, roll: nat, page: Option<Subscribers>)

  // A query as sent; the page call is only made for a positive count.
  datatype Query = Query(prefix: Prefix, count: Option<int>, offset: Option<int>)

  // The queries sent so far, what is known, whether the whole-topic query was chosen, and whether all calls succeeded.
  datatype Outcome = Outcome(queries: seq<Query>, known: Subscribers, jumped: bool, ok: bool)

  function PageOffset(count: int, roll: nat, batch: nat): int
    requires count > 0 && batch > 0
  {
    roll % ((count - 1) / batch + 1) * batch
  }

  // New subscribers are added, known ones keep their metadata.
  function Merge<K, V>(known: map<K, V>, page: map<K, V>): map<K, V> {
    page + known
  }

  function Ask(reply: Reply, prefix: Prefix, known: Subscribers, batch: nat): Outcome
    requires batch > 0
  {
    match reply
    case CountFailed => Outcome([Query(prefix, None, None)], known, false, false)
    case Counted(count, roll, page) =>
      if count <= 0 then Outcome([Query(prefix, Some(count), None)], known, false, true)
      else
        var q := Query(prefix, Some(count), Some(PageOffset(count, roll, batch)));
        if page.None? then Outcome([q], known, false, false) else Outcome([q], Merge(known, page.value), false, true)
  }

  predicate Enough(reply: Reply, known: Subscribers, batch: nat) {
    reply.Counted? && reply.count > 0 && |known| >= batch
  }

  // The estimated number of further requests, (batch - n) / ((n + 1) / (i + 1)), exceeds the limit.
  predicate TooManyLeft(i: nat, prefixes: nat, batch: nat, n: nat) {
    i + MAX_RPC_REQUESTS < prefixes && (batch - n) * (i + 1) > MAX_RPC_REQUESTS * (n + 1)
  }

  // The plain form of the search: prefix after prefix, or one last query for everything.
  function Walk(env: nat -> Reply, prefixes: seq<Prefix>, batch: nat, i: nat, known: Subscribers): Outcome
    requires batch > 0 && i <= |prefixes|
    decreases |prefixes| - i
  {
    if i == |prefixes| then Outcome([], known, false, true)
    else
      var asked := Ask(env(i), prefixes[i], known, batch);
      if !asked.ok || Enough(env(i), asked.known, batch) then asked
      else if TooManyLeft(i, |prefixes|, batch, |asked.known|) then
        var last := Ask(env(i + 1), WholeTopic, asked.known, batch);
        Outcome(asked.queries + last.queries, last.known, true, last.ok)
      else
        var rest := Walk(env, prefixes, batch, i + 1, asked.known);
        rest.(queries := asked.queries + rest.queries)
  }

  method AddPage<K(==), V>(known: map<K, V>, count: nat, page: map<K, V>) returns (known': map<K, V>, count': nat)
    requires count == |known|
    ensures known' == Merge(known, page) && count' == |known'|
    ensures forall k :: k in known' <==> k in known || k in page
    ensures forall k :: k in known' ==> known'[k] == if k in known then known[k] else page[k]
  {
    known', count' := known, count;
    var todo := page.Keys;
    while todo != {}
      invariant todo <= page.Keys && count' == |known'|
      invariant forall k :: k in known ==> k in known' && known'[k] == known[k]
      invariant forall k :: k in known' ==> k in known || (k in page && known'[k] == page[k])
      invariant forall k :: k in page ==> k in todo || k in known'
      decreases |todo|
    {
      var subscriber :| subscriber in todo;
      todo := todo - {subscriber};
      if subscriber !in known' {
        known' := known'[subscriber := page[subscriber]];
        count' := count' + 1;
      }
    }
  }

  // The count call and, for a positive count, the page call at a random page.
  method AskServer(reply: Reply, prefix: Prefix, known: Subscribers, n: nat, batch: nat)
    returns (q: Query, known': Subscribers, n': nat, ok: bool)
    requires batch > 0 && n == |known|
    ensures Outcome([q], known', false, ok) == Ask(reply, prefix, known, batch) && n' == |known'|
  {
    if reply.CountFailed? {
      return Query(prefix, None, None), known, n, false;
    }
    if reply.count <= 0 {
      return Query(prefix, Some(reply.count), None), known, n, true;
    }
    q := Query(prefix, Some(reply.count), Some(PageOffset(reply.count, reply.roll, batch)));
    if reply.page.None? {
      return q, known, n, false;
    }
    known', n' := AddPage(known, n, reply.page.value);
    ok := true;
  }

  function Prepend(queries: seq<Query>, o: Outcome): Outcome {
    o.(queries := queries + o.queries)
  }

  lemma PrependNothing(o: Outcome)
    ensures Prepend([], o) == o
  {
  }

  lemma PrependOne(queries: seq<Query>, q: Query, o: Outcome)
    ensures Prepend(queries, Prepend([q], o)) == Prepend(queries + [q], o)
    ensures o.queries == [] ==> Prepend(queries, o).queries == queries
  {
  }

  // What remains of the plain search when the loop is at index i.
  ghost function Remaining(env: nat -> Reply, shuffled: seq<Prefix>, batch: nat, i: nat, asked: nat, known: Subscribers,
                           jumped: bool): Outcome
    requires batch > 0 && i <= |shuffled| + (if jumped then 1 else 0)
  {
    if !jumped then Walk(env, shuffled, batch, i, known)
    else if i <= |shuffled| then Ask(env(asked), WholeTopic, known, batch).(jumped := true)
    else Outcome([], known, true, true)
  }

  // The query that the loop sends at index i, and whether it is the last.
  function AskAt(env: nat -> Reply, shuffled: seq<Prefix>, batch: nat, i: nat, asked: nat, known: Subscribers, jumped: bool): Outcome
    requires batch > 0 && (jumped || i < |shuffled|)
  {
    Ask(env(asked), if jumped then WholeTopic else shuffled[i], known, batch)
  }

  // One pass of the loop either stops with what this query gave, or goes on from the next index.
  lemma LastPass(env: nat -> Reply, shuffled: seq<Prefix>, batch: nat, i: nat, asked: nat, known: Subscribers, jumped: bool)
    requires batch > 0
    requires if jumped then i == |shuffled| else i == asked < |shuffled|
    requires var a := AskAt(env, shuffled, batch, i, asked, known, jumped);
             !a.ok || Enough(env(asked), a.known, batch)
    ensures Remaining(env, shuffled, batch, i, asked, known, jumped)
         == AskAt(env, shuffled, batch, i, asked, known, jumped).(jumped := jumped)
  {
  }

  lemma FinalPass(env: nat -> Reply, shuffled: seq<Prefix>, batch: nat, asked: nat, known: Subscribers)
    requires batch > 0 && AskAt(env, shuffled, batch, |shuffled|, asked, known, true).ok
    ensures var a := AskAt(env, shuffled, batch, |shuffled|, asked, known, true);
            Remaining(env, shuffled, batch, |shuffled|, asked, known, true)
            == Prepend(a.queries, Remaining(env, shuffled, batch, |shuffled| + 1, asked + 1, a.known, true))
  {
  }

  lemma JumpPass(env: nat -> Reply, shuffled: seq<Prefix>, batch: nat, i: nat, known: Subscribers)
    requires batch > 0 && i < |shuffled|
    requires var a := AskAt(env, shuffled, batch, i, i, known, false);
             a.ok && !Enough(env(i), a.known, batch) && TooManyLeft(i, |shuffled|, batch, |a.known|)
    ensures var a := AskAt(env, shuffled, batch, i, i, known, false);
            Remaining(env, shuffled, batch, i, i, known, false)
            == Prepend(a.queries, Remaining(env, shuffled, batch, |shuffled|, i + 1, a.known, true))
  {
  }

  lemma PlainPass(env: nat -> Reply, shuffled: seq<Prefix>, batch: nat, i: nat, known: Subscribers)
    requires batch > 0 && i < |shuffled|
    requires var a := AskAt(env, shuffled, batch, i, i, known, false);
             a.ok && !Enough(env(i), a.known, batch) && !TooManyLeft(i, |shuffled|, batch, |a.known|)
    ensures var a := AskAt(env, shuffled, batch, i, i, known, false);
            Remaining(env, shuffled, batch, i, i, known, false)
            == Prepend(a.queries, Remaining(env, shuffled, batch, i + 1, i + 1, a.known, false))
  {
  }

  // The loop's variables.
  datatype Loop = Loop(i: nat, allPrefix: seq<Prefix>, jumped: bool, queries: seq<Query>, known: Subscribers, count: nat)

  ghost predicate LoopOk(shuffled: seq<Prefix>, v: Loop) {
    && v.i <= |v.allPrefix| && v.count == |v.known|
    && v.allPrefix == (if v.jumped then shuffled + [WholeTopic] else shuffled)
    && (if v.jumped then v.i >= |shuffled| else |v.queries| == v.i)
  }

  // What is still to come at the loop's variables.
  ghost function ToCome(env: nat -> Reply, shuffled: seq<Prefix>, batch: nat, v: Loop): Outcome
    requires batch > 0 && LoopOk(shuffled, v)
  {
    Remaining(env, shuffled, batch, v.i, |v.queries|, v.known, v.jumped)
  }

  ghost function Completed(env: nat -> Reply, shuffled: seq<Prefix>, batch: nat, v: Loop): Outcome
    requires batch > 0 && LoopOk(shuffled, v)
  {
    Prepend(v.queries, ToCome(env, shuffled, batch, v))
  }

  // Where the loop stands after a query that did not end it.
  function Advance(v: Loop, q: Query, known: Subscribers, batch: nat): Loop {
    if TooManyLeft(v.i, |v.allPrefix|, batch, |known|)
    then Loop(|v.allPrefix|, v.allPrefix + [WholeTopic], true, v.queries + [q], known, |known|)
    else Loop(v.i + 1, v.allPrefix, v.jumped, v.queries + [q], known, |known|)
  }

  lemma AdvanceKeepsLoop(shuffled: seq<Prefix>, v: Loop, q: Query, known: Subscribers, batch: nat)
    requires LoopOk(shuffled, v) && v.i < |v.allPrefix|
    ensures LoopOk(shuffled, Advance(v, q, known, batch))
    ensures v.jumped ==> v.i == |shuffled| && !TooManyLeft(v.i, |v.allPrefix|, batch, |known|)
  {
  }

  lemma AdvanceSplits(env: nat -> Reply, shuffled: seq<Prefix>, batch: nat, v: Loop, a: Outcome)
    requires batch > 0 && LoopOk(shuffled, v) && v.i < |v.allPrefix|
    requires a == AskAt(env, shuffled, batch, v.i, |v.queries|, v.known, v.jumped) && a.ok && |a.queries| == 1
    requires !Enough(env(|v.queries|), a.known, batch)
    requires LoopOk(shuffled, Advance(v, a.queries[0], a.known, batch))
    requires v.jumped ==> v.i == |shuffled| && !TooManyLeft(v.i, |v.allPrefix|, batch, |a.known|)
    ensures ToCome(env, shuffled, batch, v)
         == Prepend(a.queries, ToCome(env, shuffled, batch, Advance(v, a.queries[0], a.known, batch)))
  {
    if v.jumped {
      FinalPass(env, shuffled, batch, |v.queries|, v.known);
    } else if TooManyLeft(v.i, |v.allPrefix|, batch, |a.known|) {
      JumpPass(env, shuffled, batch, v.i, v.known);
    } else {
      PlainPass(env, shuffled, batch, v.i, v.known);
    }
  }

  lemma AdvanceKeepsPlan(env: nat -> Reply, shuffled: seq<Prefix>, batch: nat, v: Loop, q: Query, known: Subscribers)
    requires batch > 0 && LoopOk(shuffled, v) && v.i < |v.allPrefix|
    requires Outcome([q], known, false, true) == AskAt(env, shuffled, batch, v.i, |v.queries|, v.known, v.jumped)
    requires !Enough(env(|v.queries|), known, batch)
    ensures var v' := Advance(v, q, known, batch);
            LoopOk(shuffled, v') && Completed(env, shuffled, batch, v) == Completed(env, shuffled, batch, v')
  {
    AdvanceKeepsLoop(shuffled, v, q, known, batch);
    AdvanceSplits(env, shuffled, batch, v, Outcome([q], known, false, true));
    PrependOne(v.queries, q, ToCome(env, shuffled, batch, Advance(v, q, known, batch)));
  }

  // The loop's body and increment: one query, then stop, jump to the end of a longer list, or move on.
  method Pass(env: nat -> Reply, ghost shuffled: seq<Prefix>, batch: nat, v: Loop) returns (v': Loop, stop: bool, ok: bool)
    requires batch > 0 && LoopOk(shuffled, v) && v.i < |v.allPrefix|
    ensures stop ==> Completed(env, shuffled, batch, v) == Outcome(v'.queries, v'.known, v'.jumped, ok)
    ensures !stop ==> LoopOk(shuffled, v') && Completed(env, shuffled, batch, v) == Completed(env, shuffled, batch, v')
    ensures !stop ==> |v'.allPrefix| - v'.i < |v.allPrefix| - v.i
  {
    var reply := env(|v.queries|);
    var q, known, count;
    q, known, count, ok := AskServer(reply, v.allPrefix[v.i], v.known, v.count, batch);
    if !ok || (reply.count > 0 && count >= batch) {
      LastPass(env, shuffled, batch, v.i, |v.queries|, v.known, v.jumped);
      return Loop(v.i, v.allPrefix, v.jumped, v.queries + [q], known, count), true, ok;
    }
    AdvanceKeepsPlan(env, shuffled, batch, v, q, known);
    var i, allPrefix, jumped := v.i, v.allPrefix, v.jumped;
    if TooManyLeft(i, |allPrefix|, batch, count) {
      i := |allPrefix| - 1;
      allPrefix := allPrefix + [WholeTopic];
      jumped := true;
    }
    i := i + 1;
    v' := Loop(i, allPrefix, jumped, v.queries + [q], known, count);
    stop := false;
  }

  // The search as written: the index jumps to the end while the prefix list grows by one.
  method Sample(env: nat -> Reply, shuffled: seq<Prefix>, batch: nat) returns (r: Outcome)
    requires batch > 0
    ensures r == Walk(env, shuffled, batch, 0, map[])
  {
    var v := Loop(0, shuffled, false, [], map[], 0);
    PrependNothing(Walk(env, shuffled, batch, 0, map[]));
    ghost var whole := Completed(env, shuffled, batch, v);
    while v.i < |v.allPrefix|
      invariant LoopOk(shuffled, v) && Completed(env, shuffled, batch, v) == whole
      decreases |v.allPrefix| - v.i
    {
      var stop, ok;
      v, stop, ok := Pass(env, shuffled, batch, v);
      if stop {
        return Outcome(v.queries, v.known, v.jumped, ok);
      }
    }
    PrependOne(v.queries, Query(WholeTopic, None, None), Outcome([], v.known, v.jumped, true));
    r := Outcome(v.queries, v.known, v.jumped, true);
  }

  /* ----- Properties of every search ----- */

  // The prefixes asked for: the leading ones of the shuffled list in order, then possibly the whole topic.
  ghost predicate AsksInOrder(o: Outcome, prefixes: seq<Prefix>, i: nat)
    requires i <= |prefixes|
  {
    var k := |o.queries| - if o.jumped then 1 else 0;
    && 0 <= k <= |prefixes| - i
    && (forall j :: 0 <= j < k ==> o.queries[j].prefix == prefixes[i + j])
    && (o.jumped ==> k >= 1 && o.queries[k].prefix == WholeTopic && i + k + MAX_RPC_REQUESTS <= |prefixes|)
  }

  predicate OffsetOk(q: Query, batch: nat) {
    q.offset.Some? ==>
      && q.count.Some? && 0 <= q.offset.value < q.count.value
      && batch > 0 && q.offset.value % batch == 0
  }

  predicate OffsetsOk(queries: seq<Query>, batch: nat) {
    forall j :: 0 <= j < |queries| ==> OffsetOk(queries[j], batch)
  }

  lemma PageOffsetOk(count: int, roll: nat, batch: nat)
    requires count > 0 && batch > 0
    ensures 0 <= PageOffset(count, roll, batch) < count
    ensures PageOffset(count, roll, batch) % batch == 0
  {
    var pages := (count - 1) / batch;
    DivBounds(count - 1, batch);
    var page := roll % (pages + 1);
    MulMono(batch, page, pages);
    MulMono(batch, 0, page);
    assert page * batch == batch * page;
    MultipleOf(page, batch);
  }

  lemma MultipleOf(k: nat, m: nat)
    requires m > 0
    ensures (k * m) % m == 0
  {
    DivUnique(k * m, m, k);
    assert k * m == m * ((k * m) / m) + (k * m) % m;
  }

  lemma OrderPrepend(q: Query, o: Outcome, prefixes: seq<Prefix>, i: nat)
    requires i < |prefixes| && q.prefix == prefixes[i] && AsksInOrder(o, prefixes, i + 1)
    ensures AsksInOrder(Prepend([q], o).(jumped := o.jumped), prefixes, i)
  {
  }

  lemma OrderSingle(asked: Outcome, prefixes: seq<Prefix>, i: nat)
    requires i < |prefixes| && |asked.queries| == 1 && asked.queries[0].prefix == prefixes[i] && !asked.jumped
    ensures AsksInOrder(asked, prefixes, i)
  {
  }

  lemma OrderJump(asked: Outcome, last: Outcome, prefixes: seq<Prefix>, i: nat)
    requires i + MAX_RPC_REQUESTS < |prefixes|
    requires |asked.queries| == 1 && asked.queries[0].prefix == prefixes[i]
    requires |last.queries| == 1 && last.queries[0].prefix == WholeTopic
    ensures AsksInOrder(Outcome(asked.queries + last.queries, last.known, true, last.ok), prefixes, i)
  {
  }

  lemma {:induction false} WalkAsksInOrder(env: nat -> Reply, prefixes: seq<Prefix>, batch: nat, i: nat, known: Subscribers)
    requires batch > 0 && i <= |prefixes|
    ensures AsksInOrder(Walk(env, prefixes, batch, i, known), prefixes, i)
    decreases |prefixes| - i
  {
    if i < |prefixes| {
      var asked := Ask(env(i), prefixes[i], known, batch);
      AskProperties(env(i), prefixes[i], known, batch);
      if !asked.ok || Enough(env(i), asked.known, batch) {
        OrderSingle(asked, prefixes, i);
      } else if TooManyLeft(i, |prefixes|, batch, |asked.known|) {
        AskProperties(env(i + 1), WholeTopic, asked.known, batch);
        OrderJump(asked, Ask(env(i + 1), WholeTopic, asked.known, batch), prefixes, i);
      } else {
        WalkAsksInOrder(env, prefixes, batch, i + 1, asked.known);
        var rest := Walk(env, prefixes, batch, i + 1, asked.known);
        OrderPrepend(asked.queries[0], rest, prefixes, i);
        assert Walk(env, prefixes, batch, i, known) == Prepend([asked.queries[0]], rest);
      }
    }
  }

  lemma {:induction false} WalkOffsets(env: nat -> Reply, prefixes: seq<Prefix>, batch: nat, i: nat, known: Subscribers)
    requires batch > 0 && i <= |prefixes|
    ensures OffsetsOk(Walk(env, prefixes, batch, i, known).queries, batch)
    decreases |prefixes| - i
  {
    if i < |prefixes| {
      var asked := Ask(env(i), prefixes[i], known, batch);
      AskProperties(env(i), prefixes[i], known, batch);
      AskProperties(env(i + 1), WholeTopic, asked.known, batch);
      if !asked.ok || Enough(env(i), asked.known, batch) {
      } else if TooManyLeft(i, |prefixes|, batch, |asked.known|) {
      } else {
        WalkOffsets(env, prefixes, batch, i + 1, asked.known);
      }
    }
  }

  // A successful search that stops early has a full batch.
  lemma {:induction false} WalkIsThorough(env: nat -> Reply, prefixes: seq<Prefix>, batch: nat, i: nat, known: Subscribers)
    requires batch > 0 && i <= |prefixes|
    ensures var o := Walk(env, prefixes, batch, i, known);
            o.ok && !o.jumped && |o.queries| < |prefixes| - i ==> |o.known| >= batch
    decreases |prefixes| - i
  {
    if i < |prefixes| {
      var asked := Ask(env(i), prefixes[i], known, batch);
      AskProperties(env(i), prefixes[i], known, batch);
      WalkIsThorough(env, prefixes, batch, i + 1, asked.known);
    }
  }

  /* What a search finds and when it stops, by the replies alone. */

  // The page that reply j brought, if any.
  function Page(env: nat -> Reply, j: nat): Subscribers {
    if env(j).Counted? && env(j).count > 0 && env(j).page.Some? then env(j).page.value else map[]
  }

  // All that the first n replies brought; the first answer for a subscriber counts.
  function Collected(env: nat -> Reply, n: nat): Subscribers {
    if n == 0 then map[] else Page(env, n - 1) + Collected(env, n - 1)
  }

  lemma {:induction false} CollectedMeans(env: nat -> Reply, n: nat, subscriber: string)
    ensures subscriber in Collected(env, n) <==> exists j: nat :: j < n && subscriber in Page(env, j)
    ensures forall j: nat :: j < n && subscriber in Page(env, j) && (forall k: nat :: k < j ==> subscriber !in Page(env, k)) ==>
      subscriber in Collected(env, n) && Collected(env, n)[subscriber] == Page(env, j)[subscriber]
  {
    if n > 0 {
      CollectedMeans(env, n - 1, subscriber);
    }
  }

  // Neither call of query j failed.
  predicate Succeeds(env: nat -> Reply, j: nat) {
    env(j).Counted? && (env(j).count <= 0 || env(j).page.Some?)
  }

  // Query j completed a batch.
  predicate Completes(env: nat -> Reply, batch: nat, j: nat) {
    env(j).Counted? && env(j).count > 0 && |Collected(env, j + 1)| >= batch
  }

  // More than 8 prefixes are left after query j, and at the rate at which n subscribers were found so far a batch would
  // take more than 8 further queries.
  predicate TooSlowAt(prefixes: nat, batch: nat, n: nat, j: nat) {
    j + 8 < prefixes && (batch - n) as real / ((n + 1) as real / (j + 1) as real) > 8.0
  }

  predicate TooSlow(env: nat -> Reply, prefixes: nat, batch: nat, j: nat) {
    TooSlowAt(prefixes, batch, |Collected(env, j + 1)|, j)
  }

  lemma QuotientOver(a: real, d: real)
    requires d > 0.0
    ensures a / d > 8.0 <==> a > 8.0 * d
  {
    assert a / d * d == a;
  }

  lemma TimesOver(a: real, x: real, c: real)
    requires c > 0.0
    ensures a > x <==> a * c > x * c
  {
  }

  lemma SlowIsTooMany(batch: int, n: nat, i: nat)
    ensures (batch - n) as real / ((n + 1) as real / (i + 1) as real) > 8.0 <==> (batch - n) * (i + 1) > 8 * (n + 1)
  {
    var a, b, c := (batch - n) as real, (n + 1) as real, (i + 1) as real;
    var rate := b / c;
    assert rate * c == b;
    QuotientOver(a, rate);
    TimesOver(a, 8.0 * rate, c);
    assert 8.0 * rate * c == 8.0 * b;
    assert a * c == ((batch - n) * (i + 1)) as real;
    assert 8.0 * b == (8 * (n + 1)) as real;
  }

  lemma SlowAtMeans(prefixes: nat, batch: nat, n: nat, j: nat)
    ensures TooSlowAt(prefixes, batch, n, j) <==> TooManyLeft(j, prefixes, batch, n)
  {
    SlowIsTooMany(batch, n, j);
  }

  // What a query comes to, by its number.
  datatype Rules = Rules(succeeds: nat -> bool, completes: nat -> bool, tooSlow: nat -> bool)

  function RulesOf(env: nat -> Reply, prefixes: nat, batch: nat): Rules {
    Rules((j: nat) => Succeeds(env, j), (j: nat) => Completes(env, batch, j), (j: nat) => TooSlow(env, prefixes, batch, j))
  }

  predicate GoesOn(r: Rules, j: nat) {
    r.succeeds(j) && !r.completes(j) && !r.tooSlow(j)
  }

  // From prefix i on: how many prefixes are queried, whether the whole topic is asked for after them, and the success.
  ghost predicate SearchIs(r: Rules, prefixes: nat, i: nat, o: Outcome) {
    var n := i + |o.queries| - if o.jumped then 1 else 0;
    && i <= n <= prefixes
    && (forall j: nat :: i <= j < n - 1 ==> GoesOn(r, j))
    && (n < prefixes ==> i < n && !GoesOn(r, n - 1))
    && (o.jumped <==> i < n && r.succeeds(n - 1) && !r.completes(n - 1) && r.tooSlow(n - 1))
    && (o.ok <==> forall j: nat :: i <= j < i + |o.queries| ==> r.succeeds(j))
  }

  lemma AskCollects(env: nat -> Reply, prefix: Prefix, batch: nat, i: nat)
    requires batch > 0
    ensures var asked := Ask(env(i), prefix, Collected(env, i), batch);
            asked.known == Collected(env, i + 1) && (asked.ok <==> Succeeds(env, i)) && |asked.queries| == 1 && !asked.jumped
  {
  }

  lemma SearchEnds(r: Rules, prefixes: nat, i: nat, o: Outcome)
    requires i < prefixes && |o.queries| == 1 && !o.jumped && (o.ok <==> r.succeeds(i))
    requires !r.succeeds(i) || r.completes(i)
    ensures SearchIs(r, prefixes, i, o)
  {
  }

  lemma SearchJumps(r: Rules, prefixes: nat, i: nat, o: Outcome)
    requires i < prefixes && |o.queries| == 2 && o.jumped && (o.ok <==> r.succeeds(i + 1))
    requires r.succeeds(i) && !r.completes(i) && r.tooSlow(i)
    ensures SearchIs(r, prefixes, i, o)
  {
  }

  lemma SearchContinues(r: Rules, prefixes: nat, i: nat, rest: Outcome, o: Outcome)
    requires i < prefixes && SearchIs(r, prefixes, i + 1, rest) && GoesOn(r, i)
    requires |o.queries| == |rest.queries| + 1 && o.jumped == rest.jumped && o.ok == rest.ok
    ensures SearchIs(r, prefixes, i, o)
  {
  }

  // The rules say of query j what the walk tests.
  predicate RuleIs(r: Rules, env: nat -> Reply, prefixes: nat, batch: nat, j: nat) {
    && (r.succeeds(j) <==> Succeeds(env, j)) && (r.completes(j) <==> Completes(env, batch, j))
    && (r.tooSlow(j) <==> TooManyLeft(j, prefixes, batch, |Collected(env, j + 1)|))
  }

  lemma RulesAre(env: nat -> Reply, prefixes: nat, batch: nat, j: nat)
    ensures RuleIs(RulesOf(env, prefixes, batch), env, prefixes, batch, j)
  {
    SlowAtMeans(prefixes, batch, |Collected(env, j + 1)|, j);
  }

  ghost predicate RulesFit(r: Rules, env: nat -> Reply, prefixes: nat, batch: nat) {
    forall j: nat :: RuleIs(r, env, prefixes, batch, j)
  }

  // One query of the search, by the rules; `rest` is the search from the next prefix on.
  predicate OneQuery(r: Rules, env: nat -> Reply, i: nat, o: Outcome, rest: Outcome) {
    if !r.succeeds(i) || r.completes(i)
    then |o.queries| == 1 && !o.jumped && o.ok == r.succeeds(i) && KnowsUpTo(env, i + 1, o.known)
    else if r.tooSlow(i)
    then |o.queries| == 2 && o.jumped && o.ok == r.succeeds(i + 1) && KnowsUpTo(env, i + 2, o.known)
    else |o.queries| == |rest.queries| + 1 && o.jumped == rest.jumped && o.ok == rest.ok && o.known == rest.known
  }

  lemma WalkByRules(r: Rules, env: nat -> Reply, prefixes: seq<Prefix>, batch: nat, i: nat)
    requires batch > 0 && i < |prefixes| && RulesFit(r, env, |prefixes|, batch)
    ensures OneQuery(r, env, i, Walk(env, prefixes, batch, i, Collected(env, i)),
                     Walk(env, prefixes, batch, i + 1, Collected(env, i + 1)))
  {
    assert RuleIs(r, env, |prefixes|, batch, i) && RuleIs(r, env, |prefixes|, batch, i + 1);
    AskCollects(env, prefixes[i], batch, i);
    AskCollects(env, WholeTopic, batch, i + 1);
  }

  // The search from prefix i on obeys the rules, and has found what the replies up to its last query brought.
  ghost predicate Obeys(r: Rules, env: nat -> Reply, prefixes: nat, i: nat, o: Outcome) {
    SearchIs(r, prefixes, i, o) && KnowsUpTo(env, i + |o.queries|, o.known)
  }

  predicate KnowsUpTo(env: nat -> Reply, n: nat, known: Subscribers) {
    known == Collected(env, n)
  }

  lemma OneQueryObeys(r: Rules, env: nat -> Reply, prefixes: nat, i: nat, o: Outcome, rest: Outcome)
    requires i < prefixes && OneQuery(r, env, i, o, rest)
    requires GoesOn(r, i) ==> Obeys(r, env, prefixes, i + 1, rest)
    ensures Obeys(r, env, prefixes, i, o)
  {
    if !r.succeeds(i) || r.completes(i) {
      SearchEnds(r, prefixes, i, o);
    } else if r.tooSlow(i) {
      SearchJumps(r, prefixes, i, o);
    } else {
      SearchContinues(r, prefixes, i, rest, o);
      assert i + |o.queries| == i + 1 + |rest.queries|;
    }
  }

  lemma NoQueryObeys(r: Rules, env: nat -> Reply, prefixes: nat, o: Outcome)
    requires o.queries == [] && !o.jumped && o.ok && KnowsUpTo(env, prefixes, o.known)
    ensures Obeys(r, env, prefixes, prefixes, o)
  {
  }

  lemma WalkEnds(env: nat -> Reply, prefixes: seq<Prefix>, batch: nat, known: Subscribers)
    requires batch > 0
    ensures Walk(env, prefixes, batch, |prefixes|, known) == Outcome([], known, false, true)
  {
  }

  lemma {:induction false} WalkIsSearch(r: Rules, env: nat -> Reply, prefixes: seq<Prefix>, batch: nat, i: nat)
    requires batch > 0 && i <= |prefixes| && RulesFit(r, env, |prefixes|, batch)
    ensures Obeys(r, env, |prefixes|, i, Walk(env, prefixes, batch, i, Collected(env, i)))
    decreases |prefixes| - i
  {
    if i == |prefixes| {
      WalkEnds(env, prefixes, batch, Collected(env, i));
      NoQueryObeys(r, env, |prefixes|, Outcome([], Collected(env, i), false, true));
    } else {
      WalkByRules(r, env, prefixes, batch, i);
      WalkIsSearch(r, env, prefixes, batch, i + 1);
      OneQueryObeys(r, env, |prefixes|, i, Walk(env, prefixes, batch, i, Collected(env, i)),
                    Walk(env, prefixes, batch, i + 1, Collected(env, i + 1)));
    }
  }

  // Prefixes are queried as long as the calls succeed, the batch is not complete and the rate is good enough; only when
  // it is not, the whole topic is asked for instead. What is known at the end is what all those queries brought.
  lemma SearchFinds(env: nat -> Reply, shuffled: seq<Prefix>, batch: nat)
    requires batch > 0
    ensures var o := Walk(env, shuffled, batch, 0, map[]);
            Obeys(RulesOf(env, |shuffled|, batch), env, |shuffled|, 0, o) && o.known == Collected(env, |o.queries|)
  {
    var r := RulesOf(env, |shuffled|, batch);
    forall j: nat
      ensures RuleIs(r, env, |shuffled|, batch, j)
    {
      RulesAre(env, |shuffled|, batch, j);
    }
    WalkIsSearch(r, env, shuffled, batch, 0);
  }

  // A random page is the one of that number, wrapped around the number of pages; every page may be asked for.
  lemma PageIsDrawn(count: int, batch: nat, page: nat, turns: nat)
    requires count > 0 && batch > 0 && page * batch < count
    ensures PageOffset(count, page, batch) == page * batch
    ensures PageOffset(count, page + turns * ((count - 1) / batch + 1), batch) == page * batch
  {
    var pages := (count - 1) / batch + 1;
    PageExists(count, batch, page);
    WrapsAround(page, turns, pages);
    WrapsAround(page, 0, pages);
    assert page + 0 * pages == page;
  }

  lemma WrapsAround(page: nat, turns: nat, pages: nat)
    requires page < pages
    ensures (page + turns * pages) % pages == page
  {
    var roll := page + turns * pages;
    assert turns * pages == pages * turns;
    DivUnique(roll, pages, turns);
    assert roll == pages * (roll / pages) + roll % pages;
  }

  lemma PageExists(count: int, batch: nat, page: nat)
    requires count > 0 && batch > 0 && page * batch < count
    ensures page < (count - 1) / batch + 1
  {
    assert page * batch == batch * page;
    DivBounds(batch * page, batch);
    DivUnique(batch * page, batch, page);
    DivMono(batch * page, count - 1, batch);
  }

  // The offset sent is that of a drawn page, and is sent exactly for a positive count.
  lemma AskSends(reply: Reply, prefix: Prefix, known: Subscribers, batch: nat)
    requires batch > 0
    ensures var q := Ask(reply, prefix, known, batch).queries[0];
            && q.prefix == prefix && q.count == (if reply.Counted? then Some(reply.count) else None)
            && (q.offset.Some? <==> reply.Counted? && reply.count > 0)
            && (q.offset.Some? ==> q.offset.value == PageOffset(reply.count, reply.roll, batch))
  {
  }

  // Below a batch there is one query, for the whole topic; else one for every first byte, in the given order.
  lemma PrefixesMean(first: nat, batch: nat, order: seq<Byte>)
    ensures first < batch ==> InitialPrefixes(first, batch, order) == [WholeTopic]
    ensures first >= batch ==>
      |InitialPrefixes(first, batch, order)| == |order|
      && forall i :: 0 <= i < |order| ==> InitialPrefixes(first, batch, order)[i] == Starting(order[i])
  {
  }

  lemma AskProperties(reply: Reply, prefix: Prefix, known: Subscribers, batch: nat)
    requires batch > 0
    ensures var o := Ask(reply, prefix, known, batch);
            |o.queries| == 1 && o.queries[0].prefix == prefix && OffsetOk(o.queries[0], batch) && known.Keys <= o.known.Keys
  {
    if reply.Counted? && reply.count > 0 {
      PageOffsetOk(reply.count, reply.roll, batch);
    }
  }

  // Never more queries than prefixes to begin with; the whole topic is asked for at most once, and last; pages exist;
  // and a successful search that found less than a batch has asked for every prefix or for the whole topic.
  lemma SearchProperties(env: nat -> Reply, shuffled: seq<Prefix>, batch: nat)
    requires batch > 0
    ensures var o := Walk(env, shuffled, batch, 0, map[]);
            && |o.queries| <= |shuffled|
            && AsksInOrder(o, shuffled, 0)
            && OffsetsOk(o.queries, batch)
            && (o.ok && |o.known| < batch ==> o.jumped || |o.queries| == |shuffled|)
  {
    WalkAsksInOrder(env, shuffled, batch, 0, map[]);
    WalkOffsets(env, shuffled, batch, 0, map[]);
    WalkIsThorough(env, shuffled, batch, 0, map[]);
  }

  lemma InOrderNeverTwice(o: Outcome, prefixes: seq<Prefix>, j: nat, k: nat)
    requires AsksInOrder(o, prefixes, 0) && j < k < |o.queries|
    requires forall a, b :: 0 <= a < b < |prefixes| ==> prefixes[a] != prefixes[b]
    requires |prefixes| > 1 ==> WholeTopic !in prefixes
    ensures o.queries[j].prefix != o.queries[k].prefix
  {
    assert o.queries[j].prefix == prefixes[j];
    if k == |o.queries| - 1 && o.jumped {
      assert prefixes[j] in prefixes;
    }
  }

  // No prefix is asked for twice.
  lemma NoPrefixTwice(env: nat -> Reply, shuffled: seq<Prefix>, batch: nat, j: nat, k: nat)
    requires batch > 0
    requires forall a, b :: 0 <= a < b < |shuffled| ==> shuffled[a] != shuffled[b]
    requires |shuffled| > 1 ==> WholeTopic !in shuffled
    requires j < k < |Walk(env, shuffled, batch, 0, map[]).queries|
    ensures var o := Walk(env, shuffled, batch, 0, map[]);
            o.queries[j].prefix != o.queries[k].prefix
  {
    WalkAsksInOrder(env, shuffled, batch, 0, map[]);
    InOrderNeverTwice(Walk(env, shuffled, batch, 0, map[]), shuffled, j, k);
  }

  /* ----- The whole collection ----- */

  datatype Failure = NetworkError | NoProviders | NoneAllowed

  function InitialPrefixes(first: nat, batch: nat, order: seq<Byte>): seq<Prefix> {
    if first < batch then [WholeTopic] else seq(|order|, i requires 0 <= i < |order| => Starting(order[i]))
  }

  // `first` is the size of the first page, `order` the shuffled byte values; favourites override collected metadata.
  method CollectFromTopic(first: Option<nat>, order: seq<Byte>, env: nat -> Reply, batch: nat, favorites: Subscribers)
    returns (r: Result<(seq<string>, Subscribers), Failure>)
    requires batch > 0
    ensures r == Err(NoProviders) <==> first == Some(0)
    ensures r.Err? ==> r == Err(NoProviders) || r == Err(NetworkError)
    ensures r.Ok? <==> && first.Some? && first.value > 0
                       && Walk(env, InitialPrefixes(first.value, batch, order), batch, 0, map[]).ok
    ensures r.Ok? ==>
      var (addresses, metadata) := r.value;
      && metadata == Walk(env, InitialPrefixes(first.value, batch, order), batch, 0, map[]).known + favorites
      && (forall a :: a in addresses <==> a in metadata)
      && (forall i, j :: 0 <= i < j < |addresses| ==> addresses[i] != addresses[j])
  {
    if first.None? {
      return Err(NetworkError);
    }
    if first.value == 0 {
      return Err(NoProviders);
    }
    var sampled := Sample(env, InitialPrefixes(first.value, batch, order), batch);
    if !sampled.ok {
      return Err(NetworkError);
    }
    var metadata := sampled.known + favorites;
    var addresses := ListKeys(metadata.Keys);
    r := Ok((addresses, metadata));
  }

  // An address of the allow list, with its metadata unless that has to be asked for.
  datatype Allowed = Allowed(address: string, metadata: string)

  // The metadata of the i-th address; `ask` is the network's answer, should it be needed.
  function Answer(allow: seq<Allowed>, ask: nat -> Option<string>, i: nat): Option<string>
    requires i < |allow|
  {
    if allow[i].metadata != "" then Some(allow[i].metadata) else ask(i)
  }

  // Of the first n addresses, in order, those with metadata.
  function Answered(allow: seq<Allowed>, ask: nat -> Option<string>, n: nat): seq<string>
    requires n <= |allow|
  {
    if n == 0 then []
    else Answered(allow, ask, n - 1) + if Answer(allow, ask, n - 1).Some? then [allow[n - 1].address] else []
  }

  // What is known of the first n addresses; a repeated address keeps the last answer.
  function AnsweredMetadata(allow: seq<Allowed>, ask: nat -> Option<string>, n: nat): Subscribers
    requires n <= |allow|
  {
    if n == 0 then map[]
    else
      var known := AnsweredMetadata(allow, ask, n - 1);
      match Answer(allow, ask, n - 1)
      case Some(metadata) => known[allow[n - 1].address := metadata]
      case None => known
  }

  // The i-th address has metadata, in the list or from the network.
  predicate HasMetadata(allow: seq<Allowed>, ask: nat -> Option<string>, i: nat) {
    i < |allow| && (allow[i].metadata != "" || ask(i).Some?)
  }

  // The network is asked exactly for metadata that the list does not give.
  lemma AnswerMeans(allow: seq<Allowed>, ask: nat -> Option<string>, i: nat)
    requires i < |allow|
    ensures Answer(allow, ask, i).Some? <==> HasMetadata(allow, ask, i)
    ensures HasMetadata(allow, ask, i) ==>
      Answer(allow, ask, i).value == if |allow[i].metadata| > 0 then allow[i].metadata else ask(i).value
  {
  }

  // How many of the first n addresses have metadata.
  function Listed(allow: seq<Allowed>, ask: nat -> Option<string>, n: nat): nat
    requires n <= |allow|
  {
    if n == 0 then 0 else Listed(allow, ask, n - 1) + if HasMetadata(allow, ask, n - 1) then 1 else 0
  }

  // Each address with metadata is listed, in order and once for every time it occurs, and no others are.
  lemma {:induction false} AnsweredInOrder(allow: seq<Allowed>, ask: nat -> Option<string>, n: nat, i: nat)
    requires n <= |allow|
    ensures |Answered(allow, ask, n)| == Listed(allow, ask, n)
    ensures i < n && HasMetadata(allow, ask, i) ==>
      && Listed(allow, ask, i) < Listed(allow, ask, n)
      && Answered(allow, ask, n)[Listed(allow, ask, i)] == allow[i].address
  {
    if n > 0 {
      AnsweredInOrder(allow, ask, n - 1, i);
      AnswerMeans(allow, ask, n - 1);
    }
  }

  // The i-th of the first n addresses has metadata, and none after it is the same address with metadata.
  predicate IsLastAnswer(allow: seq<Allowed>, ask: nat -> Option<string>, i: nat, n: nat)
    requires n <= |allow|
  {
    && i < n && HasMetadata(allow, ask, i)
    && forall j :: i < j < n && allow[j].address == allow[i].address ==> !HasMetadata(allow, ask, j)
  }

  // The listed addresses are those with metadata, and each has its last answer.
  lemma {:induction false} LastAnswerCounts(allow: seq<Allowed>, ask: nat -> Option<string>, n: nat, i: nat)
    requires n <= |allow|
    ensures var metadata := AnsweredMetadata(allow, ask, n);
            && (forall a :: a in Answered(allow, ask, n) <==> a in metadata)
            && (IsLastAnswer(allow, ask, i, n) ==>
                  && allow[i].address in metadata
                  && metadata[allow[i].address] == if |allow[i].metadata| > 0 then allow[i].metadata else ask(i).value)
  {
    if n > 0 {
      AnswerMeans(allow, ask, n - 1);
      LastAnswerCounts(allow, ask, n - 1, i);
      if i < n - 1 && IsLastAnswer(allow, ask, i, n) {
        assert IsLastAnswer(allow, ask, i, n - 1);
      }
    }
  }

  // With an allow list only its addresses are taken, those without metadata excepted; an address may occur twice.
  method CollectAllowed(allow: seq<Allowed>, ask: nat -> Option<string>)
    returns (r: Result<(seq<string>, Subscribers), Failure>)
    ensures r == if forall i :: 0 <= i < |allow| ==> Answer(allow, ask, i).None? then Err(NoneAllowed)
                 else Ok((Answered(allow, ask, |allow|), AnsweredMetadata(allow, ask, |allow|)))
  {
    var addresses: seq<string>, metadata: Subscribers := [], map[];
    for i := 0 to |allow|
      invariant addresses == Answered(allow, ask, i) && metadata == AnsweredMetadata(allow, ask, i)
      invariant addresses == [] <==> forall j :: 0 <= j < i ==> Answer(allow, ask, j).None?
    {
      var answer := if allow[i].metadata != "" then Some(allow[i].metadata) else ask(i);
      if answer.Some? {
        metadata := metadata[allow[i].address := answer.value];
        addresses := addresses + [allow[i].address];
      }
    }
    r := if addresses == [] then Err(NoneAllowed) else Ok((addresses, metadata));
  }

  method ListKeys<K(==)>(keys: set<K>) returns (list: seq<K>)
    ensures forall k :: k in list <==> k in keys
    ensures forall i, j :: 0 <= i < j < |list| ==> list[i] != list[j]
  {
    list := [];
    var todo := keys;
    while todo != {}
      invariant todo <= keys
      invariant forall k :: k in list <==> k in keys && k !in todo
      invariant forall i, j :: 0 <= i < j < |list| ==> list[i] != list[j]
      decreases |todo|
    {
      var k :| k in todo;
      todo := todo - {k};
      list := list + [k];
    }
  }
}
