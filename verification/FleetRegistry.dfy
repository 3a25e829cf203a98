/** Operator inventory: address pools, the inventory check, and what an update may change. */
module FleetRegistry {
  import opened FleetTypes
  import opened Options

  // ---------------------------------------------------------------- address pools

  predicate Within(p: Pool, base: nat, size: nat) {
    base <= p.base && p.base + p.size <= base + size
  }

  /** A /16 to /29 network, aligned, inside one of the private IPv4 ranges. */
  predicate ValidPool(p: Pool) {
    && p.size in {8, 16, 32, 64, 128, 256, 512, 1024, 2048, 4096, 8192, 16384, 32768, 65536}
    && p.base % p.size == 0
    && (|| Within(p, 0x0A00_0000, 0x100_0000)
        || Within(p, 0xAC10_0000, 0x10_0000)
        || Within(p, 0xC0A8_0000, 0x1_0000))
  }

  predicate Contains(p: Pool, a: Address) {
    p.base <= a < p.base + p.size
  }

  predicate Overlaps(p: Pool, q: Pool) {
    p.base < q.base + q.size && q.base < p.base + p.size
  }

  /** Neither the network, the gateway nor the broadcast address of the pool. */
  predicate HostAddress(p: Pool, a: Address) {
    Contains(p, a) && a != p.base && a != p.base + 1 && a != p.base + p.size - 1
  }

  predicate ValidGateway(g: Gateway) {
    && ValidPool(g.pool)
    && 1 <= g.maxDevices <= g.pool.size - 3
    && 1 <= |g.endpoints| <= 8
    && g.egress > 0.0
    && forall e | e in g.endpoints :: VersionMatches(e.transport, e.version)
  }

  /** The set of integers from `lo` below `hi`, with its size. */
  function Span(lo: nat, hi: nat): (s: set<nat>)
    ensures forall n: nat :: n in s <==> lo <= n < hi
    ensures |s| == if lo <= hi then hi - lo else 0
    decreases hi
  {
    if hi <= lo then {} else Span(lo, hi - 1) + {hi - 1}
  }

  lemma SubsetSize<T>(small: set<T>, big: set<T>)
    requires small <= big
    ensures |small| <= |big|
  {
    assert big == small + (big - small);
  }

  /** The pigeonhole step: fewer used addresses than hosts leaves a host over. */
  lemma FreeAddressExists(p: Pool, used: set<Address>)
    requires p.size >= 3 && |used| < p.size - 3
    ensures exists a: Address :: p.base + 2 <= a < p.base + p.size - 1 && a !in used
  {
    var hosts := Span(p.base + 2, p.base + p.size - 1);
    if hosts <= used {
      SubsetSize(hosts, used);
    }
    var a :| a in hosts && a !in used;
  }

  /** The address search of a reservation: the lowest host address not in use, if any. */
  method FirstFreeAddress(p: Pool, used: set<Address>) returns (r: Option<Address>)
    requires p.size >= 3
    ensures r.Some? ==> HostAddress(p, r.value) && r.value !in used
                        && forall a: Address | HostAddress(p, a) && a < r.value :: a in used
    ensures r.None? ==> forall a: Address | HostAddress(p, a) :: a in used
    ensures |used| < p.size - 3 ==> r.Some?
    ensures r == FirstFree(p, used)
  {
    var n := p.base + 2;
    while n < p.base + p.size - 1
      invariant p.base + 2 <= n <= p.base + p.size - 1
      invariant forall a: Address | HostAddress(p, a) && a < n :: a in used
      invariant FirstFree(p, used) == FirstFreeFrom(n, p.base + p.size - 1, used)
    {
      if n !in used {
        return Some(n);
      }
      n := n + 1;
    }
    if |used| < p.size - 3 {
      FreeAddressExists(p, used);
    }
    return None;
  }

  function FirstFreeFrom(n: nat, end: nat, used: set<Address>): Option<Address>
    decreases end - n
  {
    if n >= end then None else if n !in used then Some(n) else FirstFreeFrom(n + 1, end, used)
  }

  function FirstFree(p: Pool, used: set<Address>): Option<Address>
    requires p.size >= 3
  {
    FirstFreeFrom(p.base + 2, p.base + p.size - 1, used)
  }

  lemma {:induction false} FirstFreeFromSound(n: nat, end: nat, used: set<Address>)
    ensures var r := FirstFreeFrom(n, end, used);
            (r.Some? ==> n <= r.value < end && r.value !in used)
            && (r.None? ==> forall a: nat | n <= a < end :: a in used)
    decreases end - n
  {
    if n < end && n in used {
      FirstFreeFromSound(n + 1, end, used);
    }
  }

  // ---------------------------------------------------------------- the inventory check

  datatype Socket = Socket(tcp: bool, address: IP, port: nat)

  function EndpointSocket(e: Endpoint): Socket {
    Socket(e.transport.VlessReality?, e.address, e.port)
  }

  function EndpointSockets(es: seq<Endpoint>): (s: seq<Socket>)
    ensures |s| == |es|
    ensures forall i | 0 <= i < |es| :: s[i] == EndpointSocket(es[i])
  {
    seq(|es|, i requires 0 <= i < |es| => EndpointSocket(es[i]))
  }

  function GatewaySockets(gs: seq<Gateway>): seq<Socket> {
    if gs == [] then [] else GatewaySockets(gs[..|gs| - 1]) + EndpointSockets(gs[|gs| - 1].endpoints)
  }

  function IngressSockets(ins: seq<Ingress>): (s: seq<Socket>)
    ensures |s| == |ins|
    ensures forall i | 0 <= i < |ins| :: s[i] == Socket(true, ins[i].address, ins[i].port)
  {
    seq(|ins|, i requires 0 <= i < |ins| => Socket(true, ins[i].address, ins[i].port))
  }

  predicate Distinct<T(==)>(s: seq<T>) {
    forall i, j | 0 <= i < j < |s| :: s[i] != s[j]
  }

  predicate DistinctGateways(gs: seq<Gateway>) {
    forall i, j | 0 <= i < j < |gs| :: gs[i].id != gs[j].id
  }

  predicate DisjointPools(gs: seq<Gateway>) {
    forall i, j | 0 <= i < j < |gs| :: !Overlaps(gs[i].pool, gs[j].pool)
  }

  /** Every node has its own ID, pool and listening sockets. */
  predicate UniqueInventory(r: Registry) {
    && DistinctGateways(r.gateways)
    && (forall i, j | 0 <= i < j < |r.ingresses| :: r.ingresses[i].id != r.ingresses[j].id)
    && DisjointPools(r.gateways)
    && Distinct(GatewaySockets(r.gateways) + IngressSockets(r.ingresses))
  }

  predicate ValidRegistry(r: Registry) {
    && r.revision >= 1
    && 1 <= |r.gateways| <= 256
    && 1 <= |r.ingresses| <= 16
    && (forall g | g in r.gateways :: ValidGateway(g))
    && UniqueInventory(r)
  }

  function Elements<T(!new)>(s: seq<T>): (e: set<T>)
    ensures forall x :: x in e <==> x in s
  {
    set x | x in s
  }

  lemma {:induction false} DistinctSize<T(!new)>(s: seq<T>)
    ensures |Elements(s)| <= |s|
    ensures |Elements(s)| == |s| <==> Distinct(s)
  {
    if s != [] {
      var t := s[..|s| - 1];
      var x := s[|s| - 1];
      DistinctSize(t);
      assert s == t + [x];
      assert Elements(s) == Elements(t) + {x};
      DistinctPush(t, x);
    }
  }

  /** Adding a value to a set exactly when it is new keeps the list behind it distinct. */
  lemma DistinctPush<T>(s: seq<T>, x: T)
    ensures Distinct(s + [x]) <==> Distinct(s) && x !in s
  {
    var t := s + [x];
    if Distinct(t) {
      forall i, j | 0 <= i < j < |s| ensures s[i] != s[j] { assert t[i] != t[j]; }
      forall i | 0 <= i < |s| ensures s[i] != x { assert t[i] != t[|s|]; }
    }
  }

  lemma DistinctPrefix<T>(s: seq<T>, t: seq<T>)
    requires !Distinct(s)
    ensures !Distinct(s + t)
  {
    var i, j :| 0 <= i < j < |s| && s[i] == s[j];
    assert (s + t)[i] == (s + t)[j];
  }

  function GatewayIds(gs: seq<Gateway>): (ids: seq<GatewayId>)
    ensures |ids| == |gs| && forall i | 0 <= i < |gs| :: ids[i] == gs[i].id
  {
    seq(|gs|, i requires 0 <= i < |gs| => gs[i].id)
  }

  function IngressIds(ins: seq<Ingress>): (ids: seq<nat>)
    ensures |ids| == |ins| && forall i | 0 <= i < |ins| :: ids[i] == ins[i].id
  {
    seq(|ins|, i requires 0 <= i < |ins| => ins[i].id)
  }

  /** Adds a list of sockets to the seen set; fails on the first one already there. */
  method AddSockets(seen: seq<Socket>, known: set<Socket>, more: seq<Socket>)
    returns (ok: bool, all: set<Socket>)
    requires known == Elements(seen) && Distinct(seen)
    ensures ok <==> Distinct(seen + more)
    ensures ok ==> all == Elements(seen + more)
  {
    all := known;
    assert seen + more[..0] == seen;
    for i := 0 to |more|
      invariant Distinct(seen + more[..i])
      invariant all == Elements(seen + more[..i])
    {
      var upTo := seen + more[..i];
      assert seen + more[..i + 1] == upTo + [more[i]];
      DistinctPush(upTo, more[i]);
      if more[i] in all {
        assert seen + more == (upTo + [more[i]]) + more[i + 1..];
        DistinctPrefix(upTo + [more[i]], more[i + 1..]);
        return false, all;
      }
      all := all + {more[i]};
    }
    assert more[..|more|] == more;
    ok := true;
  }

  predicate Clear(p: Pool, pools: seq<Pool>) {
    forall k | 0 <= k < |pools| :: !Overlaps(p, pools[k])
  }

  function PoolsOf(gs: seq<Gateway>): (ps: seq<Pool>)
    ensures |ps| == |gs| && forall i | 0 <= i < |gs| :: ps[i] == gs[i].pool
  {
    seq(|gs|, i requires 0 <= i < |gs| => gs[i].pool)
  }

  lemma PushPool(gs: seq<Gateway>, n: nat)
    requires n < |gs| && DisjointPools(gs[..n])
    ensures DisjointPools(gs[..n + 1]) <==> Clear(gs[n].pool, PoolsOf(gs[..n]))
    ensures DisjointPools(gs) ==> DisjointPools(gs[..n + 1])
    ensures PoolsOf(gs[..n]) + [gs[n].pool] == PoolsOf(gs[..n + 1])
  {
    var gs', ps := gs[..n + 1], PoolsOf(gs[..n]);
    if DisjointPools(gs') {
      forall k | 0 <= k < n ensures !Overlaps(gs[n].pool, ps[k]) {
        assert !Overlaps(gs'[k].pool, gs'[n].pool);
      }
    }
    if Clear(gs[n].pool, ps) {
      forall i, j | 0 <= i < j < n + 1 ensures !Overlaps(gs'[i].pool, gs'[j].pool) {
        assert j < n ==> !Overlaps(gs[..n][i].pool, gs[..n][j].pool);
        assert !Overlaps(gs[n].pool, ps[i]);
      }
    }
  }

  lemma PushGateway(gs: seq<Gateway>, n: nat)
    requires n < |gs|
    ensures GatewaySockets(gs[..n + 1]) == GatewaySockets(gs[..n]) + EndpointSockets(gs[n].endpoints)
    ensures GatewaySockets(gs[..n + 1]) <= GatewaySockets(gs)
  {
    assert gs[..n + 1][..n] == gs[..n];
    SocketsPrefix(gs, n + 1);
  }

  /** One pass over the gateways, collecting their pools and sockets. */
  method CheckGateways(gs: seq<Gateway>) returns (ok: bool, known: set<Socket>)
    ensures ok <==> DisjointPools(gs) && Distinct(GatewaySockets(gs))
    ensures ok ==> known == Elements(GatewaySockets(gs))
  {
    var pools: seq<Pool> := [];
    known := {};
    for i := 0 to |gs|
      invariant pools == PoolsOf(gs[..i])
      invariant DisjointPools(gs[..i])
      invariant Distinct(GatewaySockets(gs[..i])) && known == Elements(GatewaySockets(gs[..i]))
    {
      PushPool(gs, i);
      if !Clear(gs[i].pool, pools) {
        return false, known;
      }
      pools := pools + [gs[i].pool];
      PushGateway(gs, i);
      var unseen, all := AddSockets(GatewaySockets(gs[..i]), known, EndpointSockets(gs[i].endpoints));
      if !unseen {
        DistinctSplit(GatewaySockets(gs[..i + 1]), GatewaySockets(gs));
        return false, known;
      }
      known := all;
    }
    assert gs[..|gs|] == gs;
    ok := true;
  }

  lemma DistinctSplit<T>(s: seq<T>, t: seq<T>)
    requires !Distinct(s) && s <= t
    ensures !Distinct(t)
  {
    assert t == s + t[|s|..];
    DistinctPrefix(s, t[|s|..]);
  }

  /** The model validator of a registry: set sizes for the IDs, then one pass over the gateways
      and one over the ingresses that share the set of sockets seen so far. */
  method CheckInventory(r: Registry) returns (ok: bool)
    ensures ok <==> UniqueInventory(r)
  {
    var gatewayIds, ingressIds := GatewayIds(r.gateways), IngressIds(r.ingresses);
    DistinctSize(gatewayIds);
    DistinctSize(ingressIds);
    assert Distinct(gatewayIds) <==> DistinctGateways(r.gateways);
    if |Elements(gatewayIds)| != |r.gateways| || |Elements(ingressIds)| != |r.ingresses| {
      return false;
    }
    var known;
    ok, known := CheckGateways(r.gateways);
    if ok {
      ok, known := AddSockets(GatewaySockets(r.gateways), known, IngressSockets(r.ingresses));
    } else if !Distinct(GatewaySockets(r.gateways)) {
      DistinctPrefix(GatewaySockets(r.gateways), IngressSockets(r.ingresses));
    }
  }

  lemma {:induction false} SocketsPrefix(gs: seq<Gateway>, n: nat)
    requires n <= |gs|
    ensures GatewaySockets(gs[..n]) <= GatewaySockets(gs)
    decreases |gs|
  {
    if n < |gs| {
      SocketsPrefix(gs[..|gs| - 1], n);
      assert gs[..|gs| - 1][..n] == gs[..n];
    } else {
      assert gs[..n] == gs;
    }
  }

  // ---------------------------------------------------------------- lookup and updates

  predicate Has(r: Registry, g: GatewayId) {
    exists i :: 0 <= i < |r.gateways| && r.gateways[i].id == g
  }

  function Find(r: Registry, g: GatewayId): (n: Gateway)
    requires Has(r, g)
    ensures n in r.gateways && n.id == g
  {
    FirstWith(r.gateways, g)
  }

  function FirstWith(gs: seq<Gateway>, g: GatewayId): (n: Gateway)
    requires exists i :: 0 <= i < |gs| && gs[i].id == g
    ensures n in gs && n.id == g
  {
    if gs[0].id == g then gs[0] else
      assert exists i :: 0 <= i < |gs[1..]| && gs[1..][i].id == g by {
        var i :| 0 <= i < |gs| && gs[i].id == g;
        assert gs[1..][i - 1] == gs[i];
      }
      FirstWith(gs[1..], g)
  }

  predicate IngressOverlap(before: Registry, after: Registry) {
    exists a, b :: a in before.ingresses && b in after.ingresses
                   && a.address == b.address && a.port == b.port && a.provider == b.provider
  }

  /** What an update must keep: every known gateway with its pool and failure domain, a higher
      revision, and one control ingress pin. */
  predicate ValidUpdate(before: Registry, after: Registry) {
    && before.revision < after.revision
    && (forall g | g in before.gateways ::
          Has(after, g.id) && Find(after, g.id).pool == g.pool && Find(after, g.id).domain == g.domain)
    && IngressOverlap(before, after)
  }

  /** Hosts of different gateways of one registry never coincide. */
  lemma HostsDisjoint(r: Registry, g: GatewayId, h: GatewayId, a: Address)
    requires ValidRegistry(r) && Has(r, g) && Has(r, h)
    requires Contains(Find(r, g).pool, a) && Contains(Find(r, h).pool, a)
    ensures g == h
  {
    var p, q := Find(r, g), Find(r, h);
    var i :| 0 <= i < |r.gateways| && r.gateways[i] == p;
    var j :| 0 <= j < |r.gateways| && r.gateways[j] == q;
    assert Overlaps(p.pool, q.pool) && Overlaps(q.pool, p.pool);
  }

  // ---------------------------------------------------------------- admission

  datatype Observation = Observation(
    gateway: GatewayId, registryRevision: nat, observedAt: int, ready: set<Transport>,
    devices: nat, cpu: real, memory: real, tx: real)

  datatype Admission = Admission(
    country: nat, transport: Transport, version: Version, families: set<nat>, now: int)

  predicate Serves(g: Gateway, q: Admission) {
    exists e | e in g.endpoints ::
      e.transport == q.transport && e.version == q.version && Family(e.address) in q.families
  }

  /** A gateway that may take a new device: right country and endpoint, a fresh observation of
      the same registry revision with the transport ready, active, with room, under 85% load. */
  predicate Admissible(r: Registry, g: Gateway, o: Observation, q: Admission)
    requires g.egress > 0.0
  {
    && g.country == q.country && Serves(g, q)
    && o.gateway == g.id && o.registryRevision == r.revision
    && 0 <= q.now - o.observedAt <= 45
    && q.transport in o.ready
    && g.phase.Active?
    && o.devices < g.maxDevices
    && o.cpu / 100.0 < 0.85 && o.memory / 100.0 < 0.85 && o.tx / g.egress < 0.85
  }
}
