/**
  The bounded store of favourite nodes: at capacity a faster newcomer replaces the entry that expires first. Both scans
  go over a map, whose order is up to the runtime; here the orders are given.
*/
module Favorites {
  const MAX_FAVORITE_LENGTH: nat := 8
  const FAVORITE_EXPIRED: int := 365 * 24 * 3600 // seconds
  const MAX_INT32: int := 0x7fff_ffff

  datatype Node = Node(address: string, metadata: string, delay: real, minBandwidth: real, maxBandwidth: real, expiresAt: int)

  type Data = map<string, Node>

  // One enumeration of a store's keys.
  ghost predicate IsOrder(order: seq<string>, data: Data) {
    && (forall k :: k in order <==> k in data)
    && (forall i, j :: 0 <= i < j < |order| ==> order[i] != order[j])
  }

  predicate AllStored(order: seq<string>, data: Data) {
    forall i :: 0 <= i < |order| ==> order[i] in data
  }

  // The first scan: zero stands for "nothing seen yet".
  function LowestBandwidth(data: Data, order: seq<string>): real
    requires AllStored(order, data)
  {
    if order == [] then 0.0
    else
      var lowest := LowestBandwidth(data, order[..|order| - 1]);
      var bandwidth := data[order[|order| - 1]].minBandwidth;
      if bandwidth < lowest || lowest == 0.0 then bandwidth else lowest
  }

  // The second scan: only expiries below MAX_INT32 are candidates; the empty key stands for "none".
  function FirstToExpire(data: Data, order: seq<string>): (string, int)
    requires AllStored(order, data)
  {
    if order == [] then ("", MAX_INT32)
    else
      var (key, expiry) := FirstToExpire(data, order[..|order| - 1]);
      var last := order[|order| - 1];
      if data[last].expiresAt < expiry then (last, data[last].expiresAt) else (key, expiry)
  }

  function WithExpiry(val: Node, now: int): Node {
    if val.expiresAt == 0 then val.(expiresAt := now + FAVORITE_EXPIRED) else val
  }

  // An expiry of 0 means a year from now; nothing else is changed.
  lemma ExpiryMeans(val: Node, now: int)
    ensures var node := WithExpiry(val, now);
            && (val.expiresAt != 0 ==> node == val)
            && (val.expiresAt == 0 ==> node.expiresAt == now + 31_536_000 && node.(expiresAt := 0) == val)
  {
  }

  predicate Accepts(data: Data, val: Node, order: seq<string>)
    requires AllStored(order, data)
  {
    |data| < MAX_FAVORITE_LENGTH || val.minBandwidth > LowestBandwidth(data, order)
  }

  function AfterAdd(data: Data, key: string, val: Node, order1: seq<string>, order2: seq<string>): Data
    requires AllStored(order1, data) && AllStored(order2, data)
  {
    if !Accepts(data, val, order1) then data
    else if |data| < MAX_FAVORITE_LENGTH then data[key := val]
    else (data - {FirstToExpire(data, order2).0})[key := val]
  }

  /** A string-keyed store. */
  class Storage {
    var data: Data

    constructor ()
      ensures data == map[]
    {
      data := map[];
    }

    method GetData() returns (snapshot: Data)
      ensures snapshot == data
    {
      snapshot := data;
    }

    method Add(key: string, val: Node)
      modifies this
      ensures data == old(data)[key := val]
    {
      data := data[key := val];
    }

    method Delete(key: string)
      modifies this
      ensures data == old(data) - {key}
    {
      data := data - {key};
    }

    method Len() returns (n: nat)
      ensures n == |data|
    {
      n := |data|;
    }
  }

  method AddFavoriteNode(favorites: Storage, key: string, val: Node, now: int, order1: seq<string>, order2: seq<string>)
    returns (updated: bool)
    requires IsOrder(order1, favorites.data) && IsOrder(order2, favorites.data)
    modifies favorites
    ensures updated == Accepts(old(favorites.data), WithExpiry(val, now), order1)
    ensures favorites.data == AfterAdd(old(favorites.data), key, WithExpiry(val, now), order1, order2)
  {
    var node := WithExpiry(val, now);
    var length := favorites.Len();
    if length < MAX_FAVORITE_LENGTH {
      favorites.Add(key, node);
      return true;
    }
    var snapshot := favorites.GetData();
    var minBandwidth := 0.0;
    for i := 0 to |order1|
      invariant minBandwidth == LowestBandwidth(snapshot, order1[..i])
    {
      assert order1[..i + 1][..i] == order1[..i];
      var bandwidth := snapshot[order1[i]].minBandwidth;
      if bandwidth < minBandwidth || minBandwidth == 0.0 {
        minBandwidth := bandwidth;
      }
    }
    assert order1[..|order1|] == order1;
    if node.minBandwidth <= minBandwidth {
      return false;
    }
    var deleteKey, minExpire := "", MAX_INT32;
    for i := 0 to |order2|
      invariant (deleteKey, minExpire) == FirstToExpire(snapshot, order2[..i])
    {
      assert order2[..i + 1][..i] == order2[..i];
      if snapshot[order2[i]].expiresAt < minExpire {
        deleteKey, minExpire := order2[i], snapshot[order2[i]].expiresAt;
      }
    }
    assert order2[..|order2|] == order2;
    favorites.Delete(deleteKey);
    favorites.Add(key, node);
    return true;
  }

  method ClearFavoriteExpired(favorites: Storage, now: int)
    modifies favorites
    ensures favorites.data == map k | k in old(favorites.data) && now <= old(favorites.data)[k].expiresAt
                                   :: old(favorites.data)[k]
  {
    var snapshot := favorites.GetData();
    var todo := snapshot.Keys;
    while todo != {}
      invariant todo <= snapshot.Keys
      invariant forall k :: k in favorites.data <==> k in snapshot && (k in todo || now <= snapshot[k].expiresAt)
      invariant forall k :: k in favorites.data ==> favorites.data[k] == snapshot[k]
      decreases |todo|
    {
      var k :| k in todo;
      todo := todo - {k};
      if now > snapshot[k].expiresAt {
        favorites.Delete(k);
      }
    }
  }

  /* ----- Acceptance ----- */

  lemma {:induction false} LowestIsMinimum(data: Data, order: seq<string>)
    requires AllStored(order, data) && order != []
    requires forall k :: k in data ==> data[k].minBandwidth > 0.0
    ensures var lowest := LowestBandwidth(data, order);
            && (forall i :: 0 <= i < |order| ==> lowest <= data[order[i]].minBandwidth)
            && exists i :: 0 <= i < |order| && lowest == data[order[i]].minBandwidth
  {
    var last := |order| - 1;
    var front := order[..last];
    if front == [] {
      assert LowestBandwidth(data, order) == data[order[last]].minBandwidth;
    } else {
      LowestIsMinimum(data, front);
      var i :| 0 <= i < |front| && LowestBandwidth(data, front) == data[front[i]].minBandwidth;
      var witness' := if LowestBandwidth(data, order) == data[order[last]].minBandwidth then last else i;
      assert LowestBandwidth(data, order) == data[order[witness']].minBandwidth;
    }
  }

  // At capacity, with positive bandwidths stored, a node is accepted exactly when it beats some stored bandwidth,
  // whatever the order of the scan.
  lemma AcceptedIfFaster(data: Data, val: Node, order: seq<string>)
    requires IsOrder(order, data) && |data| >= MAX_FAVORITE_LENGTH
    requires forall k :: k in data ==> data[k].minBandwidth > 0.0
    ensures Accepts(data, val, order) <==> exists k :: k in data && data[k].minBandwidth < val.minBandwidth
  {
    var some :| some in data.Keys;
    assert some in order;
    LowestIsMinimum(data, order);
    var i :| 0 <= i < |order| && LowestBandwidth(data, order) == data[order[i]].minBandwidth;
    assert order[i] in data;
    if k :| k in data && data[k].minBandwidth < val.minBandwidth {
      assert k in order;
    }
  }

  // Without a positive minimum the scan still ends on zero or on a stored bandwidth.
  lemma {:induction false} LowestIsStoredOrZero(data: Data, order: seq<string>)
    requires AllStored(order, data)
    ensures var lowest := LowestBandwidth(data, order);
            lowest == 0.0 || exists k :: k in data && lowest == data[k].minBandwidth
  {
    if order != [] {
      LowestIsStoredOrZero(data, order[..|order| - 1]);
      assert order[|order| - 1] in data;
    }
  }

  ghost predicate OrderFree(data: Data, val: Node) {
    forall o1, o2 :: IsOrder(o1, data) && IsOrder(o2, data) ==> (Accepts(data, val, o1) <==> Accepts(data, val, o2))
  }

  ghost function Enumerate(keys: set<string>): (order: seq<string>)
    ensures forall k :: k in order <==> k in keys
    ensures forall i, j :: 0 <= i < j < |order| ==> order[i] != order[j]
  {
    if keys == {} then []
    else
      var k :| k in keys;
      Enumerate(keys - {k}) + [k]
  }

  // Any list of stored keys without repetition followed by the remaining ones is an order.
  lemma ExtendsToOrder(data: Data, front: seq<string>, back: seq<string>)
    requires forall k :: k in front <==> k in data && k !in back
    requires forall i, j :: 0 <= i < j < |front| ==> front[i] != front[j]
    requires forall i :: 0 <= i < |back| ==> back[i] in data
    requires forall i, j :: 0 <= i < j < |back| ==> back[i] != back[j]
    ensures IsOrder(front + back, data) && AllStored(front, data)
  {
    forall k
      ensures k in front + back <==> k in data
    {
    }
    forall i | 0 <= i < |front|
      ensures front[i] in data
    {
      assert front[i] in front;
    }
  }

  lemma EndsOnZero(data: Data, z: string)
    requires z in data && data[z].minBandwidth == 0.0
    requires forall k :: k in data ==> data[k].minBandwidth >= 0.0
    ensures exists order :: IsOrder(order, data) && LowestBandwidth(data, order) == 0.0
  {
    var front := Enumerate(data.Keys - {z});
    var order := front + [z];
    ExtendsToOrder(data, front, [z]);
    assert order[..|order| - 1] == front;
    LowestIsStoredOrZero(data, front);
    assert LowestBandwidth(data, order) == 0.0;
  }

  lemma EndsOnPositive(data: Data, z: string, p: string)
    requires z in data && p in data && data[z].minBandwidth == 0.0 < data[p].minBandwidth
    requires forall k :: k in data ==> data[k].minBandwidth >= 0.0
    ensures exists order :: IsOrder(order, data) && LowestBandwidth(data, order) == data[p].minBandwidth
  {
    var rest := Enumerate(data.Keys - {z, p});
    ExtendsToOrder(data, rest, [z, p]);
    ScanOfTwoMore(data, rest, z, p);
    var order := rest + [z, p];
    assert IsOrder(order, data) && LowestBandwidth(data, order) == data[p].minBandwidth;
  }

  // A zero resets the scan, so the last of [..., zero, positive] wins.
  lemma ScanOfTwoMore(data: Data, rest: seq<string>, z: string, p: string)
    requires AllStored(rest, data) && z in data && p in data && data[z].minBandwidth == 0.0 < data[p].minBandwidth
    requires forall k :: k in data ==> data[k].minBandwidth >= 0.0
    ensures AllStored(rest + [z, p], data) && LowestBandwidth(data, rest + [z, p]) == data[p].minBandwidth
  {
    var front := rest + [z];
    var order := rest + [z, p];
    assert order[..|order| - 1] == front && front[..|front| - 1] == rest;
    LowestIsStoredOrZero(data, rest);
    assert LowestBandwidth(data, front) == 0.0;
  }

  lemma PositiveIsOrderFree(data: Data, val: Node)
    requires |data| >= MAX_FAVORITE_LENGTH && forall k :: k in data ==> data[k].minBandwidth > 0.0
    ensures OrderFree(data, val)
  {
    forall o1, o2 | IsOrder(o1, data) && IsOrder(o2, data)
      ensures Accepts(data, val, o1) <==> Accepts(data, val, o2)
    {
      AcceptedIfFaster(data, val, o1);
      AcceptedIfFaster(data, val, o2);
    }
  }

  lemma ExtremeIsOrderFree(data: Data, val: Node)
    requires |data| >= MAX_FAVORITE_LENGTH && forall k :: k in data ==> data[k].minBandwidth >= 0.0
    requires val.minBandwidth <= 0.0 || forall k :: k in data ==> val.minBandwidth > data[k].minBandwidth
    ensures OrderFree(data, val)
  {
    var some :| some in data.Keys;
    forall o | IsOrder(o, data)
      ensures Accepts(data, val, o) <==> val.minBandwidth > 0.0
    {
      LowestIsStoredOrZero(data, o);
    }
  }

  lemma MixedIsOrderBound(data: Data, val: Node, z: string, p: string)
    requires |data| >= MAX_FAVORITE_LENGTH && forall k :: k in data ==> data[k].minBandwidth >= 0.0
    requires z in data && data[z].minBandwidth == 0.0
    requires p in data && 0.0 < val.minBandwidth <= data[p].minBandwidth
    ensures !OrderFree(data, val)
  {
    EndsOnZero(data, z);
    EndsOnPositive(data, z, p);
    var o1 :| IsOrder(o1, data) && LowestBandwidth(data, o1) == 0.0;
    var o2 :| IsOrder(o2, data) && LowestBandwidth(data, o2) == data[p].minBandwidth;
    assert Accepts(data, val, o1) && !Accepts(data, val, o2);
  }

  // Acceptance at capacity does not depend on the order of the scan exactly when no stored bandwidth is zero, or the
  // newcomer's is not positive, or it beats them all.
  lemma OrderFreeIff(data: Data, val: Node)
    requires |data| >= MAX_FAVORITE_LENGTH
    requires forall k :: k in data ==> data[k].minBandwidth >= 0.0
    ensures OrderFree(data, val)
       <==> || (forall k :: k in data ==> data[k].minBandwidth > 0.0)
            || val.minBandwidth <= 0.0
            || (forall k :: k in data ==> val.minBandwidth > data[k].minBandwidth)
  {
    if forall k :: k in data ==> data[k].minBandwidth > 0.0 {
      PositiveIsOrderFree(data, val);
    } else if val.minBandwidth <= 0.0 || forall k :: k in data ==> val.minBandwidth > data[k].minBandwidth {
      ExtremeIsOrderFree(data, val);
    } else {
      var z :| z in data && data[z].minBandwidth <= 0.0;
      var p :| p in data && val.minBandwidth <= data[p].minBandwidth;
      MixedIsOrderBound(data, val, z, p);
    }
  }

  /* ----- Eviction and capacity ----- */

  predicate Evictable(data: Data, k: string)
    requires k in data
  {
    data[k].expiresAt < MAX_INT32
  }

  lemma {:induction false} ScanFindsMinimum(data: Data, order: seq<string>)
    requires AllStored(order, data)
    ensures var (key, expiry) := FirstToExpire(data, order);
            && expiry <= MAX_INT32
            && (forall i :: 0 <= i < |order| ==> expiry <= data[order[i]].expiresAt || expiry == MAX_INT32)
            && (if exists i :: 0 <= i < |order| && Evictable(data, order[i])
                then key in data && expiry == data[key].expiresAt && Evictable(data, key)
                else key == "" && expiry == MAX_INT32)
  {
    if order != [] {
      var front := order[..|order| - 1];
      ScanFindsMinimum(data, front);
      if i :| 0 <= i < |order| && Evictable(data, order[i]) {
        assert i < |front| ==> front[i] == order[i];
      }
      if i :| 0 <= i < |front| && Evictable(data, front[i]) {
        assert order[i] == front[i];
      }
    }
  }

  // An accepted node at capacity replaces an entry no other entry expires before, if any expires below MAX_INT32.
  lemma EvictsFirstToExpire(data: Data, key: string, val: Node, order1: seq<string>, order2: seq<string>)
    requires IsOrder(order1, data) && IsOrder(order2, data)
    requires |data| >= MAX_FAVORITE_LENGTH && Accepts(data, val, order1)
    requires exists k :: k in data && Evictable(data, k)
    ensures exists evicted :: evicted in data
                              && (forall k :: k in data ==> data[evicted].expiresAt <= data[k].expiresAt)
                              && AfterAdd(data, key, val, order1, order2) == (data - {evicted})[key := val]
  {
    ScanFindsMinimum(data, order2);
    var k :| k in data && Evictable(data, k);
    var i :| 0 <= i < |order2| && order2[i] == k;
    assert Evictable(data, order2[i]);
    var evicted := FirstToExpire(data, order2).0;
    forall other | other in data
      ensures data[evicted].expiresAt <= data[other].expiresAt
    {
      var j :| 0 <= j < |order2| && order2[j] == other;
    }
  }

  lemma SizeAfterPut(data: Data, key: string, val: Node)
    ensures |data[key := val]| == |data| + if key in data then 0 else 1
  {
    assert data[key := val].Keys == data.Keys + {key};
  }

  lemma SizeAfterDelete(data: Data, key: string)
    ensures |data - {key}| == |data| - if key in data then 1 else 0
  {
    assert (data - {key}).Keys == data.Keys - {key};
  }

  // One add keeps the bound exactly when there is room, the node is refused, something can be evicted, or the key is
  // stored already (also when the empty key, which stands for "none", happens to be stored).
  lemma BoundKeptIff(data: Data, key: string, val: Node, order1: seq<string>, order2: seq<string>)
    requires IsOrder(order1, data) && IsOrder(order2, data) && |data| <= MAX_FAVORITE_LENGTH
    ensures |AfterAdd(data, key, val, order1, order2)| <= MAX_FAVORITE_LENGTH
       <==> || |data| < MAX_FAVORITE_LENGTH
            || !Accepts(data, val, order1)
            || (exists k :: k in data && Evictable(data, k))
            || key in data || "" in data
  {
    ScanFindsMinimum(data, order2);
    SizeAfterPut(data, key, val);
    var evicted := FirstToExpire(data, order2).0;
    SizeAfterDelete(data, evicted);
    SizeAfterPut(data - {evicted}, key, val);
    if k :| k in data && Evictable(data, k) {
      var i :| 0 <= i < |order2| && order2[i] == k;
      assert Evictable(data, order2[i]);
    }
  }

  // A call to AddFavoriteNode, with the scan orders it meets.
  datatype Call = Call(key: string, val: Node, now: int, order1: seq<string>, order2: seq<string>)

  ghost predicate CallsOk(data: Data, calls: seq<Call>)
    decreases |calls|
  {
    calls == [] ||
    (var c := calls[0];
     && IsOrder(c.order1, data) && IsOrder(c.order2, data)
     && WithExpiry(c.val, c.now).expiresAt < MAX_INT32
     && CallsOk(AfterAdd(data, c.key, WithExpiry(c.val, c.now), c.order1, c.order2), calls[1..]))
  }

  ghost function AfterCalls(data: Data, calls: seq<Call>): Data
    requires CallsOk(data, calls)
    decreases |calls|
  {
    if calls == [] then data
    else
      var c := calls[0];
      AfterCalls(AfterAdd(data, c.key, WithExpiry(c.val, c.now), c.order1, c.order2), calls[1..])
  }

  predicate AllEvictable(data: Data) {
    forall k :: k in data ==> Evictable(data, k)
  }

  lemma AddKeepsBound(data: Data, key: string, val: Node, order1: seq<string>, order2: seq<string>)
    requires IsOrder(order1, data) && IsOrder(order2, data) && |data| <= MAX_FAVORITE_LENGTH
    requires AllEvictable(data) && val.expiresAt < MAX_INT32
    ensures |AfterAdd(data, key, val, order1, order2)| <= MAX_FAVORITE_LENGTH
    ensures AllEvictable(AfterAdd(data, key, val, order1, order2))
  {
    BoundKeptIff(data, key, val, order1, order2);
    if |data| == MAX_FAVORITE_LENGTH {
      var k :| k in data.Keys;
      assert Evictable(data, k);
    }
  }

  // From at most 8 favourites expiring below MAX_INT32, every sequence of adds that do so too, one after another, keeps
  // at most 8.
  lemma {:induction false} NeverOverCapacity(data: Data, calls: seq<Call>)
    requires |data| <= MAX_FAVORITE_LENGTH && AllEvictable(data) && CallsOk(data, calls)
    ensures |AfterCalls(data, calls)| <= 8 && AllEvictable(AfterCalls(data, calls))
    decreases |calls|
  {
    if calls != [] {
      var c := calls[0];
      var val := WithExpiry(c.val, c.now);
      AddKeepsBound(data, c.key, val, c.order1, c.order2);
      NeverOverCapacity(AfterAdd(data, c.key, val, c.order1, c.order2), calls[1..]);
    }
  }
}
