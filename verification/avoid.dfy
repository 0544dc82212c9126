/**
  The index of nodes to avoid, grouped by subnet: nodes are added under their IP, expire, and a subnet is reported
  once it holds more than three of them. IPv4 prefixes are those of section 3.1 of RFC 4632.
*/
module Avoid {
  import opened Wrappers
  import opened Machine

  const MASK_SIZE: nat := 16
  const AVOID_EXPIRED: int := 7 * 24 * 3600 // seconds
  const AVOID_CIDR_MIN_IP: nat := 3

  // The text of an address: a dotted IPv4 address, or something that does not parse as one.
  datatype Host = V4(addr: nat) | Unparsable(text: string)

  datatype Subnet = Subnet(network: nat, mask: nat)

  datatype AvoidNode = AvoidNode(ip: Host, maskSize: int, address: string, expiresAt: int)

  type Bucket = map<Host, AvoidNode>
  type Index = map<Subnet, Bucket>

  function Pow2(n: nat): (p: nat)
    ensures p > 0
  {
    if n == 0 then 1 else 2 * Pow2(n - 1)
  }

  function NetworkOf(addr: nat, mask: nat): nat
    requires mask <= 32
  {
    var size := Pow2(32 - mask);
    ModBounds(addr, size);
    addr - addr % size
  }

  // The subnet of "host/mask", if that is a valid CIDR.
  function SubnetOf(host: Host, mask: int): Option<Subnet> {
    if host.V4? && host.addr < Pow2(32) && 0 <= mask <= 32 then Some(Subnet(NetworkOf(host.addr, mask), mask)) else None
  }

  function WithDefaults(node: AvoidNode, now: int): AvoidNode {
    var timed := if node.expiresAt == 0 then node.(expiresAt := now + AVOID_EXPIRED) else node;
    if timed.maskSize == 0 then timed.(maskSize := MASK_SIZE) else timed
  }

  function AddTo(index: Index, key: Host, node: AvoidNode): Index {
    match SubnetOf(key, node.maskSize)
    case None => index
    case Some(subnet) =>
      index[subnet := if subnet in index then index[subnet][key := node] else map[node.ip := node]]
  }

  predicate Expired(node: AvoidNode, now: int) {
    now > node.expiresAt
  }

  function Unexpired(bucket: Bucket, now: int): Bucket {
    map k | k in bucket && !Expired(bucket[k], now) :: bucket[k]
  }

  function Sweep(index: Index, now: int): Index {
    map s | s in index && Unexpired(index[s], now) != map[] :: Unexpired(index[s], now)
  }

  function Reported(index: Index): set<Subnet> {
    set s | s in index && |index[s]| > AVOID_CIDR_MIN_IP
  }

  /** The index as the program keeps it. */
  class AvoidStorage {
    var avoidNodes: Index

    constructor ()
      ensures avoidNodes == map[]
    {
      avoidNodes := map[];
    }

    method AddAvoidNode(key: Host, val: AvoidNode, now: int)
      modifies this
      ensures avoidNodes == AddTo(old(avoidNodes), key, WithDefaults(val, now))
    {
      var node := val;
      if node.expiresAt == 0 {
        node := node.(expiresAt := now + AVOID_EXPIRED);
      }
      if node.maskSize == 0 {
        node := node.(maskSize := MASK_SIZE);
      }
      var subnet := SubnetOf(key, node.maskSize);
      if subnet.None? {
        return;
      }
      if subnet.value in avoidNodes {
        avoidNodes := avoidNodes[subnet.value := avoidNodes[subnet.value][key := node]];
      } else {
        avoidNodes := avoidNodes[subnet.value := map[node.ip := node]];
      }
    }

    method ClearAvoidExpired(now: int)
      modifies this
      ensures avoidNodes == Sweep(old(avoidNodes), now)
    {
      var todo := avoidNodes.Keys;
      while todo != {}
        invariant todo <= old(avoidNodes).Keys
        invariant forall s :: s in todo ==> s in avoidNodes && avoidNodes[s] == old(avoidNodes)[s]
        invariant forall s :: s in avoidNodes && s !in todo ==>
                    s in old(avoidNodes) && avoidNodes[s] == Unexpired(old(avoidNodes)[s], now) != map[]
        invariant forall s :: s in old(avoidNodes) && s !in avoidNodes ==> Unexpired(old(avoidNodes)[s], now) == map[]
        decreases |todo|
      {
        var s :| s in todo;
        todo := todo - {s};
        var bucket := ClearBucket(avoidNodes[s], now);
        avoidNodes := if bucket == map[] then avoidNodes - {s} else avoidNodes[s := bucket];
      }
    }

    method GetAvoidCIDR() returns (results: seq<Subnet>)
      ensures forall s :: s in results <==> s in Reported(avoidNodes)
      ensures forall i, j :: 0 <= i < j < |results| ==> results[i] != results[j]
    {
      results := [];
      var todo := avoidNodes.Keys;
      while todo != {}
        invariant todo <= avoidNodes.Keys
        invariant forall s :: s in results <==> s in Reported(avoidNodes) && s !in todo
        invariant forall i, j :: 0 <= i < j < |results| ==> results[i] != results[j]
        decreases |todo|
      {
        var s :| s in todo;
        todo := todo - {s};
        if |avoidNodes[s]| > AVOID_CIDR_MIN_IP {
          results := results + [s];
        }
      }
    }
  }

  method ClearBucket(bucket: Bucket, now: int) returns (left: Bucket)
    ensures left == Unexpired(bucket, now)
  {
    left := bucket;
    var todo := bucket.Keys;
    while todo != {}
      invariant todo <= bucket.Keys
      invariant forall k :: k in left <==> k in bucket && (k in todo || !Expired(bucket[k], now))
      invariant forall k :: k in left ==> left[k] == bucket[k]
      decreases |todo|
    {
      var k :| k in todo;
      todo := todo - {k};
      if Expired(left[k], now) {
        left := left - {k};
      }
    }
  }

  /* ----- The flat log that the index stands for ----- */

  datatype Event = Added(key: Host, node: AvoidNode, now: int) | Swept(now: int)

  function Run(log: seq<Event>): Index {
    if log == [] then map[]
    else
      var before := Run(log[..|log| - 1]);
      match log[|log| - 1]
      case Added(key, node, now) => AddTo(before, key, WithDefaults(node, now))
      case Swept(now) => Sweep(before, now)
  }

  /* What a log says, in its own terms: a mask of 0 means 16, an expiry of 0 means a week from now. */

  function MaskIn(e: Event): int
    requires e.Added?
  {
    if e.node.maskSize == 0 then 16 else e.node.maskSize
  }

  function NodeIn(e: Event): AvoidNode
    requires e.Added?
  {
    AvoidNode(e.node.ip, MaskIn(e), e.node.address, if e.node.expiresAt == 0 then e.now + 604_800 else e.node.expiresAt)
  }

  // The subnet is the aligned block of 2^(32 - mask) addresses around this one.
  predicate InBlock(addr: nat, subnet: Subnet) {
    && subnet.mask <= 32 && subnet.network % Pow2(32 - subnet.mask) == 0
    && subnet.network <= addr < subnet.network + Pow2(32 - subnet.mask)
  }

  // The event files a node under this address, in this subnet.
  predicate Files(e: Event, subnet: Subnet, ip: Host) {
    && e.Added? && e.key == ip && ip.V4? && ip.addr < 0x1_0000_0000
    && MaskIn(e) == subnet.mask && InBlock(ip.addr, subnet)
  }

  // The node was filed by event i, not filed again later, and not past its expiry at any later sweep.
  predicate SurvivesFrom(log: seq<Event>, i: nat, subnet: Subnet, ip: Host, node: AvoidNode) {
    && i < |log|
    && Files(log[i], subnet, ip) && node == NodeIn(log[i])
    && forall j :: i < j < |log| ==> !Files(log[j], subnet, ip) && !(log[j].Swept? && log[j].now > node.expiresAt)
  }

  ghost predicate Survives(log: seq<Event>, subnet: Subnet, ip: Host, node: AvoidNode) {
    exists i :: 0 <= i < |log| && SurvivesFrom(log, i, subnet, ip, node)
  }

  // A node is filed under its own IP, or under a key that makes no valid subnet and is ignored.
  predicate KeyOk(key: Host, node: AvoidNode) {
    key == node.ip || key.Unparsable? || key.addr >= 0x1_0000_0000 || !(0 <= node.maskSize <= 32)
  }

  lemma Pow2Four()
    ensures Pow2(32) == 0x1_0000_0000
  {
    assert Pow2(8) == 0x100;
    assert Pow2(16) == 0x1_0000;
    assert Pow2(24) == 0x100_0000;
  }

  lemma {:induction false} Pow2Doubles(n: nat)
    ensures Pow2(0) == 1 && Pow2(n + 1) == Pow2(n) + Pow2(n)
  {
  }

  // The subnet of a host is the aligned block around it; there is one exactly for an address and a mask of 32 bits at most.
  lemma SubnetMeans(host: Host, mask: int, subnet: Subnet)
    ensures SubnetOf(host, mask) == Some(subnet)
       <==> host.V4? && host.addr < 0x1_0000_0000 && subnet.mask == mask && InBlock(host.addr, subnet)
    ensures SubnetOf(host, mask).None? <==> host.Unparsable? || host.addr >= 0x1_0000_0000 || !(0 <= mask <= 32)
  {
    Pow2Four();
    if host.V4? && host.addr < 0x1_0000_0000 && 0 <= mask <= 32 {
      if subnet.mask == mask && subnet.network % Pow2(32 - mask) == 0 {
        SubnetIsAlignedBlock(host.addr, mask, subnet.network);
      }
      NetworkIsAligned(host.addr, mask);
    }
  }

  lemma NetworkIsAligned(addr: nat, mask: nat)
    requires mask <= 32
    ensures NetworkOf(addr, mask) % Pow2(32 - mask) == 0
  {
    var size := Pow2(32 - mask);
    ModBounds(addr, size);
    DivUnique(size * (addr / size), size, addr / size);
    ModBounds(size * (addr / size), size);
  }

  lemma FilesMeans(e: Event, subnet: Subnet, ip: Host)
    ensures Files(e, subnet, ip) <==> e.Added? && e.key == ip && SubnetOf(ip, WithDefaults(e.node, e.now).maskSize) == Some(subnet)
    ensures e.Added? ==> NodeIn(e) == WithDefaults(e.node, e.now)
  {
    if e.Added? {
      SubnetMeans(ip, MaskIn(e), subnet);
    }
  }

  predicate KeysOk(log: seq<Event>) {
    forall i :: 0 <= i < |log| && log[i].Added? ==> KeyOk(log[i].key, log[i].node)
  }

  predicate Holds(index: Index, subnet: Subnet, ip: Host, node: AvoidNode) {
    subnet in index && ip in index[subnet] && index[subnet][ip] == node
  }

  lemma SurvivesStep(log: seq<Event>, subnet: Subnet, ip: Host, node: AvoidNode)
    requires log != []
    ensures var front, e := log[..|log| - 1], log[|log| - 1];
            Survives(log, subnet, ip, node)
            <==> if Files(e, subnet, ip) then node == NodeIn(e)
                 else Survives(front, subnet, ip, node) && !(e.Swept? && e.now > node.expiresAt)
  {
    var front, e := log[..|log| - 1], log[|log| - 1];
    if Survives(log, subnet, ip, node) {
      var i :| 0 <= i < |log| && SurvivesFrom(log, i, subnet, ip, node);
      if i < |front| {
        assert SurvivesFrom(front, i, subnet, ip, node);
      }
    }
    if Files(e, subnet, ip) && node == NodeIn(e) {
      assert SurvivesFrom(log, |log| - 1, subnet, ip, node);
    }
    if !Files(e, subnet, ip) && Survives(front, subnet, ip, node) && !(e.Swept? && e.now > node.expiresAt) {
      var i :| 0 <= i < |front| && SurvivesFrom(front, i, subnet, ip, node);
      assert SurvivesFrom(log, i, subnet, ip, node);
    }
  }

  lemma AddHolds(index: Index, key: Host, node: AvoidNode, subnet: Subnet, ip: Host, other: AvoidNode)
    requires key == node.ip || SubnetOf(key, node.maskSize).None?
    ensures Holds(AddTo(index, key, node), subnet, ip, other)
       <==> if key == ip && SubnetOf(ip, node.maskSize) == Some(subnet) then other == node else Holds(index, subnet, ip, other)
  {
  }

  lemma SweepHolds(index: Index, now: int, subnet: Subnet, ip: Host, node: AvoidNode)
    ensures Holds(Sweep(index, now), subnet, ip, node) <==> Holds(index, subnet, ip, node) && !Expired(node, now)
  {
    if Holds(index, subnet, ip, node) && !Expired(node, now) {
      assert ip in Unexpired(index[subnet], now);
    }
  }

  // After any adds and sweeps, the index holds exactly the surviving nodes of the log, each in its own subnet's bucket.
  lemma {:induction false} IndexRefinesLog(log: seq<Event>, subnet: Subnet, ip: Host, node: AvoidNode)
    requires KeysOk(log)
    ensures Holds(Run(log), subnet, ip, node) <==> Survives(log, subnet, ip, node)
  {
    if log != [] {
      var front, e := log[..|log| - 1], log[|log| - 1];
      IndexRefinesLog(front, subnet, ip, node);
      SurvivesStep(log, subnet, ip, node);
      FilesMeans(e, subnet, ip);
      match e
      case Added(key, n, now) =>
        SubnetMeans(key, WithDefaults(n, now).maskSize, subnet);
        AddHolds(Run(front), key, WithDefaults(n, now), subnet, ip, node);
      case Swept(now) => SweepHolds(Run(front), now, subnet, ip, node);
    }
  }

  lemma {:induction false} NoEmptyBucket(log: seq<Event>, subnet: Subnet)
    ensures subnet in Run(log) ==> Run(log)[subnet] != map[]
  {
    if log != [] {
      var e := log[|log| - 1];
      NoEmptyBucket(log[..|log| - 1], subnet);
      if subnet in Run(log) && e.Added? && SubnetOf(e.key, WithDefaults(e.node, e.now).maskSize) == Some(subnet) {
        var n := WithDefaults(e.node, e.now);
        assert n.ip in Run(log)[subnet] || e.key in Run(log)[subnet];
      }
    }
  }

  // A subnet is reported exactly when more than three distinct addresses survive in it.
  lemma ReportedExactly(log: seq<Event>, subnet: Subnet, survivors: set<Host>)
    requires KeysOk(log)
    requires forall ip :: ip in survivors <==> exists node :: Survives(log, subnet, ip, node)
    ensures subnet in Reported(Run(log)) <==> |survivors| > 3
  {
    var index := Run(log);
    var held := if subnet in index then index[subnet].Keys else {};
    forall ip
      ensures ip in held <==> ip in survivors
    {
      if ip in held {
        IndexRefinesLog(log, subnet, ip, index[subnet][ip]);
      }
      if ip in survivors {
        var node :| Survives(log, subnet, ip, node);
        IndexRefinesLog(log, subnet, ip, node);
      }
    }
    assert held == survivors;
    assert subnet in index ==> |index[subnet]| == |index[subnet].Keys|;
  }

  // Filing under a key other than the node's IP breaks this: the first such node of a bucket is kept under its IP.
  lemma ForeignKeyMisfiles(key: Host, node: AvoidNode)
    requires key != node.ip && SubnetOf(key, WithDefaults(node, 0).maskSize).Some?
    ensures var log := [Added(key, node, 0)];
            var subnet := SubnetOf(key, WithDefaults(node, 0).maskSize).value;
            Survives(log, subnet, key, WithDefaults(node, 0)) && !Holds(Run(log), subnet, key, WithDefaults(node, 0))
  {
    var log := [Added(key, node, 0)];
    var subnet := SubnetOf(key, WithDefaults(node, 0).maskSize).value;
    assert log[..0] == [];
    FilesMeans(log[0], subnet, key);
    assert SurvivesFrom(log, 0, subnet, key, WithDefaults(node, 0));
  }

  // The index stands for the log, for every log whose nodes are filed under allowed keys.
  ghost predicate AlwaysRefines(allowed: (Host, AvoidNode) -> bool) {
    forall log :: AllAllowed(log, allowed) ==>
      forall subnet, ip, node :: Holds(Run(log), subnet, ip, node) <==> Survives(log, subnet, ip, node)
  }

  predicate AllAllowed(log: seq<Event>, allowed: (Host, AvoidNode) -> bool) {
    forall i :: 0 <= i < |log| && log[i].Added? ==> allowed(log[i].key, log[i].node)
  }

  // It does exactly if every allowed key is the node's IP or is ignored.
  lemma AlwaysRefinesIff(allowed: (Host, AvoidNode) -> bool)
    ensures AlwaysRefines(allowed) <==> forall key, node :: allowed(key, node) ==> KeyOk(key, node)
  {
    if forall key, node :: allowed(key, node) ==> KeyOk(key, node) {
      forall log | AllAllowed(log, allowed)
        ensures forall subnet, ip, node :: Holds(Run(log), subnet, ip, node) <==> Survives(log, subnet, ip, node)
      {
        forall subnet, ip, node
          ensures Holds(Run(log), subnet, ip, node) <==> Survives(log, subnet, ip, node)
        {
          IndexRefinesLog(log, subnet, ip, node);
        }
      }
    } else {
      var key, node :| allowed(key, node) && !KeyOk(key, node);
      SubnetMeans(key, WithDefaults(node, 0).maskSize, Subnet(0, 0));
      ForeignKeyMisfiles(key, node);
      var log := [Added(key, node, 0)];
      assert AllAllowed(log, allowed);
      assert !(Holds(Run(log), SubnetOf(key, WithDefaults(node, 0).maskSize).value, key, WithDefaults(node, 0))
               <==> Survives(log, SubnetOf(key, WithDefaults(node, 0).maskSize).value, key, WithDefaults(node, 0)));
    }
  }

  lemma AlignedBlock(addr: nat, size: nat, network: nat)
    requires size > 0 && network % size == 0
    ensures addr - addr % size == network <==> network <= addr < network + size
  {
    ModBounds(addr, size);
    ModBounds(network, size);
    if network <= addr < network + size {
      DivUnique(addr, size, network / size);
    }
  }

  // The subnet of an address is the aligned block of 2^(32 - mask) addresses around it.
  lemma SubnetIsAlignedBlock(addr: nat, mask: nat, network: nat)
    requires mask <= 32 && network % Pow2(32 - mask) == 0
    ensures NetworkOf(addr, mask) == network <==> network <= addr < network + Pow2(32 - mask)
  {
    AlignedBlock(addr, Pow2(32 - mask), network);
  }
}
