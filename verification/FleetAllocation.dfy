/** What holds of the lease tables after every sequence of transactions: addresses, capacity,
    placement, grants and retried requests. */
module FleetAllocation {
  import opened FleetTypes
  import opened FleetRegistry
  import opened FleetStore
  import opened Options

  /** One transaction, with the clock reading it runs at. */
  datatype Op =
    | DoInstall(now: int, candidate: Registry)
    | DoAccess(now: int, device: DeviceId, access: Access)
    | DoReserve(now: int, device: DeviceId, requestId: nat, revision: nat, scope: Scope,
                ranked: seq<GatewayId>, samples: seq<Observation>, unused: LeaseId)
    | DoReady(now: int, lease: LeaseId, generation: nat)
    | DoRetire(now: int, lease: LeaseId)
    | DoExpire(now: int, batch: set<LeaseId>)
    | DoRemoved(now: int, lease: LeaseId, generation: nat)

  /** A reservation is handed a ranking of the current registry and an unused lease ID. */
  ghost predicate Enabled(s: Store, op: Op)
    requires Readable(s)
  {
    op.DoReserve? ==> op.unused !in s.leases && Ranking(s, op.now, op.scope, op.ranked, op.samples)
  }

  ghost function Outcome(s: Store, op: Op): Result<Store>
    requires Readable(s)
  {
    match op
    case DoInstall(now, c) => InstallRegistry(s, now, c)
    case DoAccess(now, d, a) => SetAccess(s, now, d, a)
    case DoReserve(now, d, id, rev, q, ranked, samples, unused) =>
      (match Reserve(s, now, d, id, rev, q, ranked, unused)
       case Ok((t, _)) => Ok(t)
       case Err(e) => Err(e))
    case DoReady(now, l, gen) => MarkReady(s, now, l, gen)
    case DoRetire(now, l) => Retire(s, now, l)
    case DoExpire(now, batch) => Expire(s, now, batch)
    case DoRemoved(now, l, gen) => ConfirmRemoved(s, now, l, gen)
  }

  /** A rejected transaction leaves the tables alone. */
  ghost function After(s: Store, op: Op): Store
    requires Readable(s)
  {
    match Outcome(s, op) case Ok(t) => t case Err(_) => s
  }

  lemma EvolvesReflexive(s: Store)
    ensures Evolves(s, s)
  {
  }

  /** Every transaction, accepted or rejected, keeps the invariant and only moves leases forward. */
  lemma AnyStepKeeps(s: Store, op: Op)
    requires Inv(s) && Enabled(s, op)
    ensures Inv(After(s, op)) && Evolves(s, After(s, op))
  {
    hide Placed, UniqueIndexes, Lifecycle, Evolves, RegistryHistory, InstallRegistry, SetAccess, Reserve, MarkReady,
      ConfirmRemoved;
    LatestIsKnown(s);
    if Outcome(s, op).Err? {
      EvolvesReflexive(s);
    } else {
      match op
      case DoInstall(now, c) => InstallRegistryKeeps(s, now, c);
      case DoAccess(now, d, a) => SetAccessKeeps(s, now, d, a);
      case DoReserve(now, d, id, rev, q, ranked, samples, unused) =>
        ReserveKeeps(s, now, d, id, rev, q, ranked, samples, unused);
      case DoReady(now, l, gen) => MarkReadyKeeps(s, now, l, gen);
      case DoRetire(now, l) => RetirementKeeps(s, now, {l});
      case DoExpire(now, batch) => RetirementKeeps(s, now, batch * Overdue(s, now));
      case DoRemoved(now, l, gen) => ConfirmRemovedKeeps(s, now, l, gen);
    }
  }

  function Initial(now: int, r: Registry): Store {
    Store(now, r.revision, map[r.revision := r], map[], map[], map[])
  }

  /** A history of the store: each state is the previous one after some enabled transaction. */
  ghost predicate Run(states: seq<Store>, ops: seq<Op>) {
    && |states| == |ops| + 1
    && (exists now, r :: ValidRegistry(r) && states[0] == Initial(now, r))
    && forall i | 0 <= i < |ops| ::
         Readable(states[i]) && Enabled(states[i], ops[i]) && states[i + 1] == After(states[i], ops[i])
  }

  lemma {:induction false} RunKeeps(states: seq<Store>, ops: seq<Op>, n: nat)
    requires Run(states, ops) && n < |states|
    ensures Inv(states[n])
  {
    if n == 0 {
      var now, r :| ValidRegistry(r) && states[0] == Initial(now, r);
      RetainsReflexive(r);
      hide ValidRegistry, Retains;
    } else {
      RunKeeps(states, ops, n - 1);
      hide Inv, Enabled, After;
      AnyStepKeeps(states[n - 1], ops[n - 1]);
    }
  }

  // ---------------------------------------------------------------- addresses

  /** In every reachable state two unreleased leases, on whatever gateways, have different
      addresses, and every address is a host of its gateway's pool. */
  lemma AddressesNeverShared(states: seq<Store>, ops: seq<Op>, n: nat, l: LeaseId, m: LeaseId)
    requires Run(states, ops) && n < |states|
    requires l in states[n].leases && m in states[n].leases && l != m
    requires Unreleased(states[n].leases[l]) && Unreleased(states[n].leases[m])
    ensures RegistryHistory(states[n]) && Has(Current(states[n]), states[n].leases[l].gateway)
    ensures HostAddress(Find(Current(states[n]), states[n].leases[l].gateway).pool, states[n].leases[l].address)
    ensures states[n].leases[l].address != states[n].leases[m].address
  {
    RunKeeps(states, ops, n);
    AddressesApart(states[n], l, m);
  }

  lemma AddressesApart(s: Store, l: LeaseId, m: LeaseId)
    requires Inv(s) && l in s.leases && m in s.leases && l != m && Unreleased(s.leases[l]) && Unreleased(s.leases[m])
    ensures Has(Current(s), s.leases[l].gateway)
    ensures HostAddress(Find(Current(s), s.leases[l].gateway).pool, s.leases[l].address)
    ensures s.leases[l].address != s.leases[m].address
  {
    hide ValidRegistry, Retains;
    var a, b := s.leases[l], s.leases[m];
    assert Placed(s, a) && Placed(s, b) && Compatible(a, b);
    if a.address == b.address {
      HostsDisjoint(Current(s), a.gateway, b.gateway, a.address);
    }
  }

  lemma ImageSize(ids: set<LeaseId>, leases: map<LeaseId, Lease>)
    requires ids <= leases.Keys
    ensures |set l | l in ids :: leases[l].address| <= |ids|
    decreases |ids|
  {
    if ids != {} {
      var x :| x in ids;
      var rest := ids - {x};
      ImageSize(rest, leases);
      var image := set l | l in rest :: leases[l].address;
      assert (set l | l in ids :: leases[l].address) == image + {leases[x].address};
      assert |image + {leases[x].address}| <= |image| + 1;
    }
  }

  /** A gateway below its device limit always has an address left for a device it does not serve:
      the search cannot come back empty. */
  lemma CapacityMeansAddress(s: Store, d: DeviceId, g: GatewayId)
    requires s.latest in s.registries && ValidRegistry(Current(s)) && Has(Current(s), g)
    ensures Slot(s, d, g).Some? <==>
              && |UnreleasedOn(s, g)| < Find(Current(s), g).maxDevices
              && !ServesDevice(s, d, g)
  {
    var node := Find(Current(s), g);
    assert ValidGateway(node);
    var used := UsedAddresses(s, g);
    if |UnreleasedOn(s, g)| < node.maxDevices {
      ImageSize(UnreleasedOn(s, g), s.leases);
      FreeAddressExists(node.pool, used);
      FirstFreeFromSound(node.pool.base + 2, node.pool.base + node.pool.size - 1, used);
      assert FirstFree(node.pool, used).Some?;
    }
  }

  lemma {:induction false} PickNothing(s: Store, d: DeviceId, ranked: seq<GatewayId>)
    requires s.latest in s.registries && ValidRegistry(Current(s))
    ensures Pick(s, d, ranked).None? <==> forall g | g in ranked :: Slot(s, d, g).None?
  {
    if ranked != [] {
      assert ranked == [ranked[0]] + ranked[1..];
      PickNothing(s, d, ranked[1..]);
    }
  }

  /** A new, well-formed, authorised request for a free assignment is refused for capacity
      exactly when every ranked gateway is full or already serves the device. */
  lemma NoCapacityExactly(s: Store, now: int, d: DeviceId, requestId: nat, q: Scope,
                          ranked: seq<GatewayId>, unused: LeaseId)
    requires Inv(s) && s.now <= now && ValidScope(q) && Authorized(s, d, now) && (d, requestId) !in s.requests
    requires !HasAssignment(s, d, q) && |UnreleasedOf(s, d)| < s.access[d].maxLeases
    requires forall g | g in ranked :: Has(Current(s), g)
    ensures Reserve(s, now, d, requestId, s.latest, q, ranked, unused) == Err(NoCapacity) <==>
              forall g | g in ranked ::
                || |UnreleasedOn(s, g)| >= Find(Current(s), g).maxDevices
                || ServesDevice(s, d, g)
  {
    hide Placed, UniqueIndexes, Retains;
    PickNothing(s, d, ranked);
    forall g | g in ranked
      ensures Slot(s, d, g).None? <==>
                || |UnreleasedOn(s, g)| >= Find(Current(s), g).maxDevices
                || ServesDevice(s, d, g)
    {
      CapacityMeansAddress(s, d, g);
    }
  }

  // ---------------------------------------------------------------- grants and placement

  /** Every reachable reserved or ready lease has a grant that is not revoked and lasts at least as
      long, on a gateway that is active or draining; and until a lease is released its gateway's
      endpoints are those of the lease's own registry snapshot. */
  lemma LeasesStayCovered(states: seq<Store>, ops: seq<Op>, n: nat, l: LeaseId)
    requires Run(states, ops) && n < |states| && l in states[n].leases
    ensures var s := states[n];
            var x := s.leases[l];
            && RegistryHistory(s)
            && x.registryRevision in s.registries && Has(s.registries[x.registryRevision], x.gateway)
            && Has(Current(s), x.gateway)
            && (Live(x) ==> && x.device in s.access && !s.access[x.device].revoked
                            && x.expires <= s.access[x.device].expires
                            && Find(Current(s), x.gateway).phase in {Active, Draining})
            && (Unreleased(x) ==> Find(Current(s), x.gateway).endpoints
                                  == Find(s.registries[x.registryRevision], x.gateway).endpoints)
  {
    hide ValidRegistry, Retains, HostAddress, Compatible;
    RunKeeps(states, ops, n);
    assert Placed(states[n], states[n].leases[l]);
  }

  /** Asking again with the same request returns the same lease, whatever has happened to it
      since, and changes no lease: a retired lease is never renewed or revived. */
  lemma RetriedRequestIsHistorical(s: Store, now: int, d: DeviceId, requestId: nat, revision: nat, q: Scope,
                                   ranked: seq<GatewayId>, unused: LeaseId)
    requires Inv(s) && s.now <= now && Authorized(s, d, now) && ValidScope(q)
    requires (d, requestId) in s.requests
    ensures var r := Reserve(s, now, d, requestId, revision, q, ranked, unused);
            if s.requests[(d, requestId)].scope == q
            then r.Ok? && r.value.1 == s.requests[(d, requestId)].lease && r.value.0 == s.(now := now)
                 && r.value.1 in s.leases && s.leases[r.value.1].device == d
            else r == Err(RequestConflict)
  {
    hide ValidRegistry, Retains, Placed, UniqueIndexes;
  }
}
