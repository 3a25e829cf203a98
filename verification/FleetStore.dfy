/** The controller's lease database: its tables, and every transaction as a step on them.

    A transaction either commits the state it describes or, on a rejection, leaves the tables
    as they were.  `now` is the clock reading of the transaction; a reading behind the last
    committed one is rejected.
 */
module FleetStore {
  import opened FleetTypes
  import opened FleetRegistry
  import opened Options

  datatype Access = Access(
    identity: nat, key: Key, revision: nat, expires: int, maxLeases: nat, revoked: bool)

  /** What a reservation asks for; its digest is the request fingerprint. */
  datatype Scope = Scope(
    country: nat, transport: Transport, version: Version, lifetime: int, families: set<nat>)

  datatype Ticket = Ticket(scope: Scope, lease: LeaseId)

  datatype Store = Store(
    now: int, latest: nat, registries: map<nat, Registry>, access: map<DeviceId, Access>,
    leases: map<LeaseId, Lease>, requests: map<(DeviceId, nat), Ticket>)

  /** A fenced worker's view of one lease: the lease, its own registry snapshot and its key. */
  datatype Work = Work(lease: Lease, gateway: Gateway, key: Key)

  predicate Live(l: Lease) { l.state.Reserved? || l.state.Ready? }
  predicate Unreleased(l: Lease) { !l.state.Released? }

  function Current(s: Store): Registry
    requires s.latest in s.registries
  {
    s.registries[s.latest]
  }

  function Retired(l: Lease): Lease {
    if Live(l) then l.(state := Retiring, generation := l.generation + 1) else l
  }

  function RetireIn(leases: map<LeaseId, Lease>, rows: set<LeaseId>): (r: map<LeaseId, Lease>)
    ensures r.Keys == leases.Keys
    ensures forall l | l in leases :: r[l] == if l in rows then Retired(leases[l]) else leases[l]
  {
    map l | l in leases :: if l in rows then Retired(leases[l]) else leases[l]
  }

  predicate Authorized(s: Store, d: DeviceId, now: int) {
    d in s.access && !s.access[d].revoked && s.access[d].expires > now
  }

  function UnreleasedOn(s: Store, g: GatewayId): set<LeaseId> {
    set l | l in s.leases && s.leases[l].gateway == g && Unreleased(s.leases[l])
  }

  function UnreleasedOf(s: Store, d: DeviceId): set<LeaseId> {
    set l | l in s.leases && s.leases[l].device == d && Unreleased(s.leases[l])
  }

  function UsedAddresses(s: Store, g: GatewayId): set<Address> {
    set l | l in UnreleasedOn(s, g) :: s.leases[l].address
  }

  // ---------------------------------------------------------------- transactions

  predicate EndpointsPinned(s: Store, prev: Registry, node: Gateway) {
    Has(prev, node.id) && node.endpoints != Find(prev, node.id).endpoints ==> UnreleasedOn(s, node.id) == {}
  }

  predicate Halts(prev: Registry, node: Gateway) {
    Has(prev, node.id) && (node.phase.Disabled? || node.phase.Provisioning?)
  }

  /** The leases a new registry retires: those on a gateway it disables or sends back to provisioning. */
  function Halted(s: Store, prev: Registry, nodes: seq<Gateway>): set<LeaseId> {
    set l | l in s.leases && exists i :: 0 <= i < |nodes| && nodes[i].id == s.leases[l].gateway && Halts(prev, nodes[i])
  }

  function InstallRegistry(s: Store, now: int, candidate: Registry): Result<Store>
    requires s.latest in s.registries
  {
    var prev := Current(s);
    if !ValidRegistry(candidate) then Err(RegistryUpdate)
    else if now < s.now then Err(StateOrClock)
    else if candidate == prev then Ok(s.(now := now))
    else if !ValidUpdate(prev, candidate) then Err(RegistryUpdate)
    else if exists i :: 0 <= i < |candidate.gateways| && !EndpointsPinned(s, prev, candidate.gateways[i]) then
      Err(EndpointMigrationRequired)
    else Ok(s.(now := now, latest := candidate.revision,
               registries := s.registries[candidate.revision := candidate],
               leases := RetireIn(s.leases, Halted(s, prev, candidate.gateways))))
  }

  /** The leases a new grant retires: all of a revoked device, or those outliving the grant. */
  function Curtailed(s: Store, d: DeviceId, a: Access): set<LeaseId> {
    set l | l in s.leases && s.leases[l].device == d && (a.revoked || s.leases[l].expires > a.expires)
  }

  function SetAccess(s: Store, now: int, d: DeviceId, a: Access): Result<Store> {
    if !(1 <= a.revision && 1 <= a.expires && 1 <= a.maxLeases <= 8) then Err(InvalidInteger)
    else if now < s.now then Err(StateOrClock)
    else if d in s.access && s.access[d] == a then Ok(s.(now := now))
    else if d in s.access && (s.access[d].identity != a.identity || s.access[d].key != a.key
                              || a.revision <= s.access[d].revision) then Err(AccessRevisionOrBinding)
    else if a.expires <= now && !a.revoked then Err(ExpiredAccess)
    else if exists e | e in s.access :: e != d && (s.access[e].key == a.key || s.access[e].identity == a.identity) then
      Err(IntegrityError)
    else Ok(s.(now := now, access := s.access[d := a], leases := RetireIn(s.leases, Curtailed(s, d, a))))
  }

  /** Whether gateway `g` has a free slot for this device; `Some` is the address it would get. */
  function Slot(s: Store, d: DeviceId, g: GatewayId): Option<Address>
    requires s.latest in s.registries && ValidRegistry(Current(s))
  {
    if !Has(Current(s), g) then None
    else
      var node := Find(Current(s), g);
      assert ValidGateway(node);
      if (exists l | l in s.leases :: s.leases[l].device == d && s.leases[l].gateway == g && Unreleased(s.leases[l]))
         || |UnreleasedOn(s, g)| >= node.maxDevices
      then None
      else FirstFree(node.pool, UsedAddresses(s, g))
  }

  /** The first ranked gateway with a slot. */
  function Pick(s: Store, d: DeviceId, ranked: seq<GatewayId>): Option<(GatewayId, Address)>
    requires s.latest in s.registries && ValidRegistry(Current(s))
  {
    if ranked == [] then None
    else if Slot(s, d, ranked[0]).Some? then Some((ranked[0], Slot(s, d, ranked[0]).value))
    else Pick(s, d, ranked[1..])
  }

  predicate ValidScope(q: Scope) {
    1 <= q.lifetime <= 86400 && VersionMatches(q.transport, q.version) && q.families != {} && q.families <= {4, 6}
  }

  /** The device holds an unreleased lease on the gateway. */
  ghost predicate ServesDevice(s: Store, d: DeviceId, g: GatewayId) {
    exists l | l in s.leases :: s.leases[l].device == d && s.leases[l].gateway == g && Unreleased(s.leases[l])
  }

  predicate HasAssignment(s: Store, d: DeviceId, q: Scope) {
    exists l | l in s.leases ::
      && s.leases[l].device == d && Unreleased(s.leases[l]) && s.leases[l].country == q.country
      && s.leases[l].transport == q.transport && s.leases[l].version == q.version
  }

  function Min(a: int, b: int): int { if a <= b then a else b }

  function NewLease(s: Store, now: int, d: DeviceId, q: Scope, g: GatewayId, a: Address): Lease
    requires d in s.access
  {
    Lease(d, g, q.country, q.transport, q.version, a, s.latest, s.access[d].revision, now,
          Min(now + q.lifetime, s.access[d].expires), Reserved, 1)
  }

  /** The gateways ranked are those that pass the admission filter on an observation whose device count
      is at least the store's own. */
  predicate Ranking(s: Store, now: int, q: Scope, ranked: seq<GatewayId>, samples: seq<Observation>)
    requires s.latest in s.registries && ValidRegistry(Current(s))
  {
    && (forall g | g in ranked :: Has(Current(s), g) && Admitted(s, now, q, samples, Find(Current(s), g)))
    && (forall g | g in Current(s).gateways && Admitted(s, now, q, samples, g) :: g.id in ranked)
  }

  /** Some observation admits the gateway. */
  predicate Admitted(s: Store, now: int, q: Scope, samples: seq<Observation>, g: Gateway)
    requires s.latest in s.registries
  {
    g.egress > 0.0 && exists o | o in samples ::
      |UnreleasedOn(s, g.id)| <= o.devices
      && Admissible(Current(s), g, o, Admission(q.country, q.transport, q.version, q.families, now))
  }

  /** A reservation.  `ranked` is the answer of the gateway ranking, `unused` the new lease ID. */
  function Reserve(s: Store, now: int, d: DeviceId, requestId: nat, revision: nat, q: Scope,
                   ranked: seq<GatewayId>, unused: LeaseId): Result<(Store, LeaseId)>
    requires s.latest in s.registries && ValidRegistry(Current(s))
  {
    if now < s.now then Err(StateOrClock)
    else if !ValidScope(q) then Err(InvalidRequest)
    else if !Authorized(s, d, now) then Err(AccessDenied)
    else if (d, requestId) in s.requests then
      var t := s.requests[(d, requestId)];
      if t.scope != q then Err(RequestConflict)
      else if t.lease !in s.leases then Err(LeaseMissing)
      else Ok((s.(now := now), t.lease))
    else if revision != s.latest then Err(RegistryStale)
    else if HasAssignment(s, d, q) then Err(AssignmentExists)
    else if |UnreleasedOf(s, d)| >= s.access[d].maxLeases then Err(DeviceLimit)
    else match Pick(s, d, ranked)
      case None => Err(NoCapacity)
      case Some((g, a)) =>
        Ok((s.(now := now, leases := s.leases[unused := NewLease(s, now, d, q, g, a)],
               requests := s.requests[(d, requestId) := Ticket(q, unused)]), unused))
  }

  function WorkItem(s: Store, now: int, l: LeaseId, generation: nat): Result<Work> {
    if now < s.now then Err(StateOrClock)
    else if l !in s.leases then Err(LeaseMissing)
    else
      var lease := s.leases[l];
      if lease.generation != generation || !(lease.state.Reserved? || lease.state.Retiring?) then Err(StaleWork)
      else if lease.state.Reserved? && !Authorized(s, lease.device, now) then Err(AccessDenied)
      else if lease.state.Reserved? && lease.expires <= now then Err(ExpiredWork)
      else if lease.device !in s.access || lease.registryRevision !in s.registries
              || !Has(s.registries[lease.registryRevision], lease.gateway) then Err(LeaseMissing)
      else Ok(Work(lease, Find(s.registries[lease.registryRevision], lease.gateway), s.access[lease.device].key))
  }

  function MarkReady(s: Store, now: int, l: LeaseId, generation: nat): Result<Store> {
    if now < s.now then Err(StateOrClock)
    else if l !in s.leases then Err(LeaseMissing)
    else if !Authorized(s, s.leases[l].device, now) then Err(AccessDenied)
    else if s.leases[l].generation != generation || !Live(s.leases[l])
      || s.leases[l].expires <= now then Err(StaleReady)
    else Ok(s.(now := now, leases := s.leases[l := s.leases[l].(state := Ready)]))
  }

  function Retire(s: Store, now: int, l: LeaseId): Result<Store> {
    if now < s.now then Err(StateOrClock)
    else if l !in s.leases then Err(LeaseMissing)
    else Ok(s.(now := now, leases := RetireIn(s.leases, {l})))
  }

  /** Live leases past their own or their grant's expiry, or of a revoked device. */
  function Overdue(s: Store, now: int): set<LeaseId> {
    set l | l in s.leases && Live(s.leases[l]) && s.leases[l].device in s.access
            && (s.leases[l].expires <= now || s.access[s.leases[l].device].expires <= now
                || s.access[s.leases[l].device].revoked)
  }

  /** Expiry of one batch of overdue leases. */
  function Expire(s: Store, now: int, batch: set<LeaseId>): Result<Store> {
    if now < s.now then Err(StateOrClock)
    else Ok(s.(now := now, leases := RetireIn(s.leases, batch * Overdue(s, now))))
  }

  function ConfirmRemoved(s: Store, now: int, l: LeaseId, generation: nat): Result<Store> {
    if now < s.now then Err(StateOrClock)
    else if l !in s.leases then Err(LeaseMissing)
    else if s.leases[l].generation != generation || Live(s.leases[l]) then Err(StaleRemoval)
    else Ok(s.(now := now, leases := s.leases[l := s.leases[l].(state := Released)]))
  }

  // ---------------------------------------------------------------- the invariant

  /** A lease starts at generation 1, and its retirement is its only step to generation 2. */
  ghost predicate Lifecycle(leases: map<LeaseId, Lease>) {
    forall l | l in leases :: leases[l].generation == if Live(leases[l]) then 1 else 2
  }

  /** Two unreleased leases share no gateway address, no device on a gateway, and no
      device-country-transport-version assignment. */
  ghost predicate Compatible(a: Lease, b: Lease) {
    Unreleased(a) && Unreleased(b) ==>
      && !(a.gateway == b.gateway && a.address == b.address)
      && !(a.device == b.device && a.gateway == b.gateway)
      && !(a.device == b.device && a.country == b.country && a.transport == b.transport && a.version == b.version)
  }

  /** The three partial unique indexes. */
  ghost predicate UniqueIndexes(leases: map<LeaseId, Lease>) {
    forall l, m | l in leases && m in leases && l != m :: Compatible(leases[l], leases[m])
  }

  /** Keys and identities belong to one device each, and every grant is within the limits. */
  ghost predicate GrantsSound(access: map<DeviceId, Access>) {
    && (forall d, e | d in access && e in access && d != e ::
          access[d].key != access[e].key && access[d].identity != access[e].identity)
    && (forall d | d in access :: 1 <= access[d].revision && 1 <= access[d].maxLeases <= 8)
  }

  /** Nothing an update may not touch has changed between two registries. */
  ghost predicate Retains(a: Registry, b: Registry) {
    forall g | Has(a, g) :: Has(b, g) && Find(b, g).pool == Find(a, g).pool && Find(b, g).domain == Find(a, g).domain
  }

  ghost predicate RegistryHistory(s: Store) {
    && s.latest in s.registries
    && forall r | r in s.registries ::
         && r <= s.latest && s.registries[r].revision == r && ValidRegistry(s.registries[r])
         && Retains(s.registries[r], Current(s))
  }

  /** The gateway has an endpoint of that transport and version. */
  predicate Offers(g: Gateway, t: Transport, v: Version) {
    exists e | e in g.endpoints :: e.transport == t && e.version == v
  }

  /** Where one lease sits: a host of its gateway's pool, which serves its transport; endpoints as in
      its own snapshot until it is released; and, while live, an operating gateway and a grant that covers it. */
  ghost predicate Placed(s: Store, l: Lease)
    requires RegistryHistory(s)
  {
    && l.device in s.access
    && l.registryRevision in s.registries
    && Has(s.registries[l.registryRevision], l.gateway)
    && Offers(Find(s.registries[l.registryRevision], l.gateway), l.transport, l.version)
    && Has(Current(s), l.gateway)
    && HostAddress(Find(Current(s), l.gateway).pool, l.address)
    && (Unreleased(l) ==>
          Find(Current(s), l.gateway).endpoints == Find(s.registries[l.registryRevision], l.gateway).endpoints)
    && (Live(l) ==>
          && (Find(Current(s), l.gateway).phase.Active? || Find(Current(s), l.gateway).phase.Draining?)
          && !s.access[l.device].revoked
          && l.expires <= s.access[l.device].expires)
  }

  ghost predicate Tickets(s: Store) {
    forall k | k in s.requests :: s.requests[k].lease in s.leases && s.leases[s.requests[k].lease].device == k.0
  }

  ghost predicate Inv(s: Store) {
    && RegistryHistory(s)
    && Lifecycle(s.leases)
    && UniqueIndexes(s.leases)
    && GrantsSound(s.access)
    && (forall l | l in s.leases :: Placed(s, s.leases[l]))
    && Tickets(s)
  }

  /** What a transaction needs of the store in order to read the current registry. */
  ghost predicate Readable(s: Store) { s.latest in s.registries && ValidRegistry(Current(s)) }

  lemma LatestIsKnown(s: Store)
    requires Inv(s)
    ensures Readable(s)
  {
    hide ValidRegistry, Retains;
  }

  ghost predicate SameTerms(a: Lease, b: Lease) {
    a.(state := b.state, generation := b.generation) == b
  }

  /** A lease after some steps: the same terms, never back to an earlier state. */
  ghost predicate Later(a: Lease, b: Lease) {
    && SameTerms(a, b) && a.generation <= b.generation
    && (Unreleased(b) ==> Unreleased(a)) && (Live(b) ==> Live(a))
  }

  ghost predicate Advances(a: map<LeaseId, Lease>, b: map<LeaseId, Lease>) {
    a.Keys <= b.Keys && forall l | l in a :: Later(a[l], b[l])
  }

  ghost predicate KeysStay(a: map<DeviceId, Access>, b: map<DeviceId, Access>) {
    a.Keys <= b.Keys && forall d | d in a :: b[d].key == a[d].key
  }

  /** What no transaction undoes: leases keep their terms and only move forward, keys stay bound,
      a new lease starts reserved. */
  ghost predicate Evolves(s: Store, t: Store) {
    && s.now <= t.now
    && KeysStay(s.access, t.access)
    && Advances(s.leases, t.leases)
    && (forall l | l in t.leases && l !in s.leases :: t.leases[l].state.Reserved?)
  }

  // ---------------------------------------------------------------- preservation

  lemma AdvanceUnique(a: map<LeaseId, Lease>, b: map<LeaseId, Lease>)
    requires UniqueIndexes(a) && Advances(a, b) && a.Keys == b.Keys
    ensures UniqueIndexes(b)
  {
    forall l, m | l in b && m in b && l != m ensures Compatible(b[l], b[m]) {
      assert Compatible(a[l], a[m]) && Later(a[l], b[l]) && Later(a[m], b[m]);
    }
  }

  lemma RetireAdvances(leases: map<LeaseId, Lease>, rows: set<LeaseId>)
    requires Lifecycle(leases)
    ensures Lifecycle(RetireIn(leases, rows)) && Advances(leases, RetireIn(leases, rows))
    ensures forall l | l in leases :: Live(RetireIn(leases, rows)[l]) ==> l !in rows
  {
  }

  /** Leases that only move forward keep the whole invariant. */
  lemma AdvanceKeeps(s: Store, now: int, leases: map<LeaseId, Lease>)
    requires Inv(s) && s.now <= now
    requires Lifecycle(leases) && Advances(s.leases, leases) && leases.Keys == s.leases.Keys
    ensures var t := s.(now := now, leases := leases); Inv(t) && Evolves(s, t)
  {
    hide ValidRegistry, Retains, HostAddress, Offers, Find, Has;
    var t := s.(now := now, leases := leases);
    AdvanceUnique(s.leases, leases);
    assert RegistryHistory(t);
    forall l | l in leases ensures Placed(t, leases[l]) {
      assert Placed(s, s.leases[l]) && Later(s.leases[l], leases[l]);
    }
  }

  /** Only the clock moves. */
  lemma ClockKeeps(s: Store, now: int)
    requires Inv(s) && s.now <= now
    ensures Inv(s.(now := now)) && Evolves(s, s.(now := now))
  {
    hide Placed, UniqueIndexes, RegistryHistory;
    assert Advances(s.leases, s.leases);
    AdvanceKeeps(s, now, s.leases);
  }

  lemma UpdateRetains(a: Registry, b: Registry)
    requires ValidUpdate(a, b)
    ensures Retains(a, b)
  {
    forall g | Has(a, g)
      ensures Has(b, g) && Find(b, g).pool == Find(a, g).pool && Find(b, g).domain == Find(a, g).domain
    {
      assert Find(a, g) in a.gateways;
    }
  }

  /** A registry update keeps every pool, endpoint pin and live placement. */
  lemma InstallRegistryKeeps(s: Store, now: int, c: Registry)
    requires Inv(s) && InstallRegistry(s, now, c).Ok?
    ensures var t := InstallRegistry(s, now, c).value; Inv(t) && Evolves(s, t)
  {
    hide Inv, Evolves, ValidRegistry, EndpointsPinned, Halted, RetireIn;
    LatestIsKnown(s);
    var prev := Current(s);
    if c == prev {
      ClockKeeps(s, now);
    } else {
      UpdateRetains(prev, c);
      RegistryAppended(s, now, c);
    }
  }

  lemma RegistryAppended(s: Store, now: int, c: Registry)
    requires Inv(s) && InstallRegistry(s, now, c).Ok? && c != Current(s)
    requires Current(s).revision < c.revision && Retains(Current(s), c)
    ensures var t := InstallRegistry(s, now, c).value; Inv(t) && Evolves(s, t)
  {
    hide ValidRegistry, Retains, ValidUpdate, Halted, Placed, UniqueIndexes, RegistryHistory, EndpointsPinned;
    LatestIsKnown(s);
    var t, prev := InstallRegistry(s, now, c).value, Current(s);
    RetireAdvances(s.leases, Halted(s, prev, c.gateways));
    AdvanceUnique(s.leases, t.leases);
    HistoryAppended(s, c, t);
    forall l | l in t.leases ensures Placed(t, t.leases[l]) {
      InstallRegistryPlaces(s, t, c, l);
    }
  }

  lemma HistoryAppended(s: Store, c: Registry, t: Store)
    requires RegistryHistory(s) && ValidRegistry(c) && Current(s).revision < c.revision && Retains(Current(s), c)
    requires t.latest == c.revision && t.registries == s.registries[c.revision := c]
    ensures RegistryHistory(t) && c.revision !in s.registries
  {
    hide ValidRegistry, Retains;
    forall r | r in t.registries ensures Retains(t.registries[r], c) {
      if r != c.revision {
        RetainsTransitive(s.registries[r], Current(s), c);
      } else {
        RetainsReflexive(c);
      }
    }
  }

  lemma RetainsTransitive(a: Registry, b: Registry, c: Registry)
    requires Retains(a, b) && Retains(b, c)
    ensures Retains(a, c)
  {
  }

  lemma RetainsReflexive(a: Registry)
    ensures Retains(a, a)
  {
  }

  lemma InstallRegistryPlaces(s: Store, t: Store, c: Registry, l: LeaseId)
    requires RegistryHistory(s) && RegistryHistory(t) && l in s.leases && Placed(s, s.leases[l])
    requires t.access == s.access && t.latest == c.revision && c.revision !in s.registries
    requires t.registries == s.registries[c.revision := c] && Retains(Current(s), c)
    requires t.leases == RetireIn(s.leases, Halted(s, Current(s), c.gateways))
    requires forall i | 0 <= i < |c.gateways| :: EndpointsPinned(s, Current(s), c.gateways[i])
    ensures Placed(t, t.leases[l])
  {
    hide ValidRegistry, HostAddress;
    var prev, g := Current(s), s.leases[l].gateway;
    assert Has(c, g);
    var node := Find(c, g);
    var i :| 0 <= i < |c.gateways| && c.gateways[i] == node;
    assert EndpointsPinned(s, prev, c.gateways[i]);
    assert Unreleased(s.leases[l]) ==> l in UnreleasedOn(s, g);
    assert Live(t.leases[l]) ==> !Halts(prev, c.gateways[i]);
  }

  lemma SetAccessKeeps(s: Store, now: int, d: DeviceId, a: Access)
    requires Inv(s) && SetAccess(s, now, d, a).Ok?
    ensures var t := SetAccess(s, now, d, a).value; Inv(t) && Evolves(s, t)
  {
    hide Placed, UniqueIndexes, RegistryHistory, Curtailed, Lifecycle, Tickets, GrantsSound, RetireIn, Later;
    var t := SetAccess(s, now, d, a).value;
    if d in s.access && s.access[d] == a {
      ClockKeeps(s, now);
    } else {
      RetireAdvances(s.leases, Curtailed(s, d, a));
      AdvanceUnique(s.leases, t.leases);
      SameHistory(s, t);
      forall l | l in t.leases ensures Placed(t, t.leases[l]) {
        SetAccessPlaces(s, t, d, a, l);
      }
      SetAccessGrants(s, now, d, a);
      RetirementKeepsTickets(s, t, Curtailed(s, d, a));
    }
  }

  lemma SetAccessGrants(s: Store, now: int, d: DeviceId, a: Access)
    requires GrantsSound(s.access) && SetAccess(s, now, d, a).Ok?
    ensures GrantsSound(SetAccess(s, now, d, a).value.access)
    ensures KeysStay(s.access, SetAccess(s, now, d, a).value.access)
  {
    hide RetireIn, Curtailed;
  }

  lemma RetirementKeepsTickets(s: Store, t: Store, rows: set<LeaseId>)
    requires Tickets(s) && t.requests == s.requests && t.leases == RetireIn(s.leases, rows)
    ensures Tickets(t)
  {
  }

  lemma SameHistory(s: Store, t: Store)
    requires RegistryHistory(s) && t.latest == s.latest && t.registries == s.registries
    ensures RegistryHistory(t)
  {
    hide ValidRegistry, Retains;
  }

  lemma SetAccessPlaces(s: Store, t: Store, d: DeviceId, a: Access, l: LeaseId)
    requires RegistryHistory(s) && RegistryHistory(t) && l in s.leases && Placed(s, s.leases[l])
    requires t.latest == s.latest && t.registries == s.registries && t.access == s.access[d := a]
    requires t.leases == RetireIn(s.leases, Curtailed(s, d, a))
    ensures Placed(t, t.leases[l])
  {
    hide ValidRegistry, Retains, HostAddress;
  }

  lemma {:induction false} PickFits(s: Store, d: DeviceId, ranked: seq<GatewayId>)
    requires s.latest in s.registries && ValidRegistry(Current(s)) && Pick(s, d, ranked).Some?
    ensures var (g, a) := Pick(s, d, ranked).value; g in ranked && Slot(s, d, g) == Some(a)
  {
    if Slot(s, d, ranked[0]).None? {
      PickFits(s, d, ranked[1..]);
    }
  }

  /** A slot is an unused host address of the gateway's pool. */
  lemma SlotFits(s: Store, d: DeviceId, g: GatewayId)
    requires s.latest in s.registries && ValidRegistry(Current(s)) && Slot(s, d, g).Some?
    ensures var a := Slot(s, d, g).value;
            && Has(Current(s), g) && HostAddress(Find(Current(s), g).pool, a)
            && forall l | l in s.leases && Unreleased(s.leases[l]) && s.leases[l].gateway == g ::
                 s.leases[l].device != d && s.leases[l].address != a
  {
    var node := Find(Current(s), g);
    assert ValidGateway(node);
    FirstFreeFromSound(node.pool.base + 2, node.pool.base + node.pool.size - 1, UsedAddresses(s, g));
    forall l | l in s.leases && Unreleased(s.leases[l]) && s.leases[l].gateway == g
      ensures s.leases[l].address != Slot(s, d, g).value
    {
      assert l in UnreleasedOn(s, g);
      assert s.leases[l].address in UsedAddresses(s, g);
    }
  }

  lemma ReserveKeeps(s: Store, now: int, d: DeviceId, requestId: nat, revision: nat, q: Scope,
                     ranked: seq<GatewayId>, samples: seq<Observation>, unused: LeaseId)
    requires Inv(s) && unused !in s.leases && Ranking(s, now, q, ranked, samples)
    requires Reserve(s, now, d, requestId, revision, q, ranked, unused).Ok?
    ensures var t := Reserve(s, now, d, requestId, revision, q, ranked, unused).value.0; Inv(t) && Evolves(s, t)
  {
    hide Inv, Evolves, ValidRegistry, Placed, Compatible, Slot;
    LatestIsKnown(s);
    var t := Reserve(s, now, d, requestId, revision, q, ranked, unused).value.0;
    if (d, requestId) in s.requests {
      ClockKeeps(s, now);
    } else {
      PickFits(s, d, ranked);
      var (g, a) := Pick(s, d, ranked).value;
      SlotFits(s, d, g);
      NewLeaseFits(s, now, d, q, g, a);
      NewLeaseKeeps(s, t, unused, (d, requestId), q);
    }
  }

  /** A fresh lease is well placed and clashes with no unreleased one. */
  lemma NewLeaseFits(s: Store, now: int, d: DeviceId, q: Scope, g: GatewayId, a: Address)
    requires Inv(s) && Authorized(s, d, now) && !HasAssignment(s, d, q)
    requires Has(Current(s), g) && HostAddress(Find(Current(s), g).pool, a) && Find(Current(s), g).phase.Active?
    requires Offers(Find(Current(s), g), q.transport, q.version)
    requires forall l | l in s.leases && Unreleased(s.leases[l]) && s.leases[l].gateway == g ::
               s.leases[l].device != d && s.leases[l].address != a
    ensures Placed(s, NewLease(s, now, d, q, g, a))
    ensures forall l | l in s.leases :: Compatible(s.leases[l], NewLease(s, now, d, q, g, a))
  {
    hide UniqueIndexes, ValidRegistry, HostAddress, Tickets, Lifecycle;
  }

  lemma NewLeaseKeeps(s: Store, t: Store, unused: LeaseId, k: (DeviceId, nat), q: Scope)
    requires Inv(s) && unused !in s.leases && s.now <= t.now && k !in s.requests
    requires unused in t.leases && t.leases == s.leases[unused := t.leases[unused]]
    requires t == s.(now := t.now, leases := t.leases, requests := s.requests[k := Ticket(q, unused)])
    requires Placed(s, t.leases[unused]) && t.leases[unused].device == k.0
    requires t.leases[unused].state.Reserved? && t.leases[unused].generation == 1
    requires forall l | l in s.leases :: Compatible(s.leases[l], t.leases[unused])
    ensures Inv(t) && Evolves(s, t)
  {
    hide Placed, UniqueIndexes, Compatible, ValidRegistry, Retains, Lifecycle, Tickets, Later;
    NewLeasePlaced(s, t, unused);
    NewLeaseUnique(s.leases, t.leases, unused);
    NewLeaseAdvances(s, t, unused, k, q);
  }

  lemma NewLeaseAdvances(s: Store, t: Store, unused: LeaseId, k: (DeviceId, nat), q: Scope)
    requires Lifecycle(s.leases) && Tickets(s) && unused !in s.leases && k !in s.requests
    requires unused in t.leases && t.leases == s.leases[unused := t.leases[unused]]
    requires t.requests == s.requests[k := Ticket(q, unused)]
    requires t.leases[unused].device == k.0
    requires t.leases[unused].state.Reserved? && t.leases[unused].generation == 1
    ensures Lifecycle(t.leases) && Tickets(t) && Advances(s.leases, t.leases)
  {
  }

  lemma NewLeasePlaced(s: Store, t: Store, unused: LeaseId)
    requires RegistryHistory(s)
    requires t.latest == s.latest && t.registries == s.registries && t.access == s.access
    requires unused in t.leases && t.leases == s.leases[unused := t.leases[unused]]
    requires forall l | l in s.leases :: Placed(s, s.leases[l])
    requires Placed(s, t.leases[unused])
    ensures RegistryHistory(t)
    ensures forall l | l in t.leases :: Placed(t, t.leases[l])
  {
    hide ValidRegistry, Retains, HostAddress;
    forall l | l in t.leases ensures Placed(t, t.leases[l]) {
      assert l != unused ==> Placed(s, s.leases[l]);
    }
  }

  lemma NewLeaseUnique(a: map<LeaseId, Lease>, b: map<LeaseId, Lease>, unused: LeaseId)
    requires UniqueIndexes(a) && unused !in a && unused in b && b == a[unused := b[unused]]
    requires forall l | l in a :: Compatible(a[l], b[unused])
    ensures UniqueIndexes(b)
  {
    forall l, m | l in b && m in b && l != m ensures Compatible(b[l], b[m]) {
      if l != unused && m != unused {
        assert Compatible(a[l], a[m]);
      }
    }
  }

  lemma MoveAdvances(leases: map<LeaseId, Lease>, l: LeaseId, to: LeaseState)
    requires Lifecycle(leases) && l in leases
    requires if Live(leases[l]) then to.Ready? else to.Released?
    ensures var after := leases[l := leases[l].(state := to)];
            Lifecycle(after) && Advances(leases, after) && after.Keys == leases.Keys
  {
  }

  lemma MarkReadyKeeps(s: Store, now: int, l: LeaseId, generation: nat)
    requires Inv(s) && MarkReady(s, now, l, generation).Ok?
    ensures var t := MarkReady(s, now, l, generation).value; Inv(t) && Evolves(s, t)
  {
    MoveAdvances(s.leases, l, Ready);
    AdvanceKeeps(s, now, MarkReady(s, now, l, generation).value.leases);
  }

  lemma ConfirmRemovedKeeps(s: Store, now: int, l: LeaseId, generation: nat)
    requires Inv(s) && ConfirmRemoved(s, now, l, generation).Ok?
    ensures var t := ConfirmRemoved(s, now, l, generation).value; Inv(t) && Evolves(s, t)
  {
    MoveAdvances(s.leases, l, Released);
    AdvanceKeeps(s, now, ConfirmRemoved(s, now, l, generation).value.leases);
  }

  /** Explicit retirement and expiry. */
  lemma RetirementKeeps(s: Store, now: int, rows: set<LeaseId>)
    requires Inv(s) && s.now <= now
    ensures var t := s.(now := now, leases := RetireIn(s.leases, rows)); Inv(t) && Evolves(s, t)
  {
    RetireAdvances(s.leases, rows);
    AdvanceKeeps(s, now, RetireIn(s.leases, rows));
  }
}
