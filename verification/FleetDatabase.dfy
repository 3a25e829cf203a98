/** The lease store as the object its callers use: tables in fields, one method per transaction. */
module FleetDatabase {
  import opened FleetTypes
  import opened FleetRegistry
  import opened FleetStore
  import opened FleetAllocation
  import opened Options

  /** The order in which leases expire. */
  ghost predicate Sooner(rows: map<LeaseId, Lease>, l: LeaseId, m: LeaseId)
    requires l in rows && m in rows
  {
    rows[l].expires < rows[m].expires || (rows[l].expires == rows[m].expires && l < m)
  }

  /** The batch is the rows that end first, all of them when they are within the limit. */
  ghost predicate FirstOf(leases: map<LeaseId, Lease>, rows: set<LeaseId>, limit: nat, batch: set<LeaseId>)
    requires rows <= leases.Keys
  {
    && batch <= rows && |batch| <= limit && (|batch| < limit ==> batch == rows)
    && forall l, m | l in batch && m in rows && m !in batch :: Sooner(leases, l, m)
  }

  class LeaseDatabase {
    var now: int
    var latest: nat
    var registries: map<nat, Registry>
    var access: map<DeviceId, Access>
    var leases: map<LeaseId, Lease>
    var requests: map<(DeviceId, nat), Ticket>

    ghost function View(): Store
      reads this
    {
      Store(now, latest, registries, access, leases, requests)
    }

    constructor (registry: Registry, clock: int)
      requires ValidRegistry(registry)
      ensures View() == Initial(clock, registry) && Inv(View())
    {
      now, latest, registries := clock, registry.revision, map[registry.revision := registry];
      access, leases, requests := map[], map[], map[];
      new;
      RetainsReflexive(registry);
    }

    /** Retires the selected rows one by one. */
    method RetireRows(rows: set<LeaseId>)
      modifies this`leases
      ensures leases == RetireIn(old(leases), rows)
    {
      var rest := rows;
      while rest != {}
        invariant rest <= rows
        invariant leases == RetireIn(old(leases), rows - rest)
        decreases |rest|
      {
        var l :| l in rest;
        if l in leases && Live(leases[l]) {
          leases := leases[l := leases[l].(state := Retiring, generation := leases[l].generation + 1)];
        }
        rest := rest - {l};
        assert leases.Keys == RetireIn(old(leases), rows - rest).Keys;
      }
    }

    /** Walks the candidate's gateways: an endpoint change under an unreleased lease rejects the
        whole update, a halted gateway retires its live leases. */
    method InstallRegistry(candidate: Registry, clock: int) returns (r: Result<()>)
      requires Inv(View())
      modifies this
      ensures Inv(View()) && Evolves(old(View()), View())
      ensures match FleetStore.InstallRegistry(old(View()), clock, candidate)
              case Ok(t) => r.Ok? && View() == t
              case Err(e) => r == Err(e) && View() == old(View())
    {
      hide Inv, Evolves, ValidRegistry, ValidUpdate, EndpointsPinned, Halted, RetireIn;
      ghost var before := View();
      EvolvesReflexive(before);
      LatestIsKnown(before);
      var prev := registries[latest];
      if !ValidRegistry(candidate) {
        return Err(RegistryUpdate);
      }
      if clock < now {
        return Err(StateOrClock);
      }
      if candidate != prev && !ValidUpdate(prev, candidate) {
        return Err(RegistryUpdate);
      }
      if candidate != prev {
        var rejected, doomed := PlanUpdate(prev, candidate);
        if rejected {
          return Err(EndpointMigrationRequired);
        }
        RetireRows(doomed);
        latest, registries := candidate.revision, registries[candidate.revision := candidate];
      }
      now := clock;
      r := Ok(());
      InstallRegistryKeeps(before, clock, candidate);
    }

    method PlanUpdate(prev: Registry, candidate: Registry) returns (rejected: bool, doomed: set<LeaseId>)
      ensures rejected <==>
        exists i :: 0 <= i < |candidate.gateways| && !EndpointsPinned(View(), prev, candidate.gateways[i])
      ensures !rejected ==> doomed == Halted(View(), prev, candidate.gateways)
    {
      doomed := {};
      for n := 0 to |candidate.gateways|
        invariant forall i | 0 <= i < n :: EndpointsPinned(View(), prev, candidate.gateways[i])
        invariant doomed == Halted(View(), prev, candidate.gateways[..n])
      {
        var node := candidate.gateways[n];
        var held := set l | l in leases && leases[l].gateway == node.id && !leases[l].state.Released?;
        assert held == UnreleasedOn(View(), node.id);
        if Has(prev, node.id) && node.endpoints != Find(prev, node.id).endpoints && held != {} {
          assert !EndpointsPinned(View(), prev, candidate.gateways[n]);
          return true, {};
        }
        if Has(prev, node.id) && (node.phase.Disabled? || node.phase.Provisioning?) {
          doomed := doomed + set l | l in leases && leases[l].gateway == node.id;
        }
        HaltedPush(View(), prev, candidate.gateways, n);
      }
      assert candidate.gateways[..|candidate.gateways|] == candidate.gateways;
      rejected := false;
    }

    method SetAccess(d: DeviceId, a: Access, clock: int) returns (r: Result<()>)
      requires Inv(View())
      modifies this
      ensures Inv(View()) && Evolves(old(View()), View())
      ensures match FleetStore.SetAccess(old(View()), clock, d, a)
              case Ok(t) => r.Ok? && View() == t
              case Err(e) => r == Err(e) && View() == old(View())
    {
      hide Inv, Evolves;
      ghost var before := View();
      EvolvesReflexive(before);
      if !(1 <= a.revision && 1 <= a.expires && 1 <= a.maxLeases <= 8) {
        return Err(InvalidInteger);
      }
      if clock < now {
        return Err(StateOrClock);
      }
      if d !in access || access[d] != a {
        if d in access && (access[d].identity != a.identity || access[d].key != a.key
          || a.revision <= access[d].revision) {
          return Err(AccessRevisionOrBinding);
        }
        if a.expires <= clock && !a.revoked {
          return Err(ExpiredAccess);
        }
        if exists e | e in access :: e != d && (access[e].key == a.key || access[e].identity == a.identity) {
          return Err(IntegrityError);
        }
        var rows := set l | l in leases && leases[l].device == d && (a.revoked || leases[l].expires > a.expires);
        assert rows == Curtailed(before, d, a);
        access := access[d := a];
        RetireRows(rows);
      }
      now := clock;
      r := Ok(());
      SetAccessKeeps(before, clock, d, a);
    }

    /** Tries the ranked gateways in order; the first with room and an unserved device wins. */
    method Allocate(d: DeviceId, ranked: seq<GatewayId>) returns (r: Option<(GatewayId, Address)>)
      requires latest in registries && ValidRegistry(registries[latest])
      ensures r == Pick(View(), d, ranked)
    {
      ghost var s := View();
      for i := 0 to |ranked|
        invariant Pick(s, d, ranked) == Pick(s, d, ranked[i..])
      {
        var g := ranked[i];
        assert ranked[i..][0] == g && ranked[i..][1..] == ranked[i + 1..];
        if Has(registries[latest], g) {
          var node := Find(registries[latest], g);
          assert ValidGateway(node);
          var ids := set l | l in leases && leases[l].gateway == g && !leases[l].state.Released?;
          assert ids == UnreleasedOn(s, g);
          var used := set l | l in ids :: leases[l].address;
          var serves :=
            exists l | l in leases :: leases[l].device == d && leases[l].gateway == g && Unreleased(leases[l]);
          if !serves && |ids| < node.maxDevices {
            var address := FirstFreeAddress(node.pool, used);
            assert used == UsedAddresses(s, g);
            if address.Some? {
              return Some((g, address.value));
            }
          }
        }
      }
      return None;
    }

    method Reserve(d: DeviceId, requestId: nat, revision: nat, q: Scope, ranked: seq<GatewayId>,
                   ghost samples: seq<Observation>, unused: LeaseId, clock: int) returns (r: Result<LeaseId>)
      requires Inv(View()) && unused !in leases && Ranking(View(), clock, q, ranked, samples)
      modifies this
      ensures Inv(View()) && Evolves(old(View()), View())
      ensures match FleetStore.Reserve(old(View()), clock, d, requestId, revision, q, ranked, unused)
              case Ok((t, l)) => r == Ok(l) && View() == t
              case Err(e) => r == Err(e) && View() == old(View())
    {
      hide Inv, Evolves, Ranking, ValidRegistry;
      ghost var before := View();
      LatestIsKnown(before);
      EvolvesReflexive(before);
      if clock < now {
        return Err(StateOrClock);
      }
      if !ValidScope(q) {
        return Err(InvalidRequest);
      }
      if d !in access || access[d].revoked || access[d].expires <= clock {
        return Err(AccessDenied);
      }
      if (d, requestId) in requests {
        if requests[(d, requestId)].scope != q {
          return Err(RequestConflict);
        }
        if requests[(d, requestId)].lease !in leases {
          return Err(LeaseMissing);
        }
        r := Ok(requests[(d, requestId)].lease);
      } else if revision != latest {
        return Err(RegistryStale);
      } else {
        var existing := set l | l in leases && leases[l].device == d && !leases[l].state.Released?;
        assert existing == UnreleasedOf(before, d);
        if exists l | l in existing :: leases[l].country == q.country && leases[l].transport == q.transport
                                       && leases[l].version == q.version {
          return Err(AssignmentExists);
        }
        if |existing| >= access[d].maxLeases {
          return Err(DeviceLimit);
        }
        var choice := Allocate(d, ranked);
        if choice.None? {
          return Err(NoCapacity);
        }
        var (g, a) := choice.value;
        leases := leases[unused := Lease(d, g, q.country, q.transport, q.version, a, latest, access[d].revision, clock,
                                         Min(clock + q.lifetime, access[d].expires), Reserved, 1)];
        requests := requests[(d, requestId) := Ticket(q, unused)];
        r := Ok(unused);
      }
      now := clock;
      ReserveKeeps(before, clock, d, requestId, revision, q, ranked, samples, unused);
    }

    method FetchWork(l: LeaseId, generation: nat, clock: int) returns (r: Result<Work>)
      requires Inv(View())
      modifies this`now
      ensures Inv(View()) && Evolves(old(View()), View())
      ensures r == WorkItem(old(View()), clock, l, generation)
      ensures View() == if r.Ok? then old(View()).(now := clock) else old(View())
    {
      hide UniqueIndexes, ValidRegistry, Retains, HostAddress;
      EvolvesReflexive(View());
      if clock < now {
        return Err(StateOrClock);
      }
      if l !in leases {
        return Err(LeaseMissing);
      }
      var lease := leases[l];
      if lease.generation != generation || !(lease.state.Reserved? || lease.state.Retiring?) {
        return Err(StaleWork);
      }
      assert Placed(View(), lease);
      if lease.state.Reserved? {
        if access[lease.device].revoked || access[lease.device].expires <= clock {
          return Err(AccessDenied);
        }
        if lease.expires <= clock {
          return Err(ExpiredWork);
        }
      }
      assert Advances(leases, leases);
      AdvanceKeeps(View(), clock, leases);
      now := clock;
      return Ok(Work(lease, Find(registries[lease.registryRevision], lease.gateway), access[lease.device].key));
    }

    method MarkReady(l: LeaseId, generation: nat, clock: int) returns (r: Result<()>)
      requires Inv(View())
      modifies this
      ensures Inv(View()) && Evolves(old(View()), View())
      ensures match FleetStore.MarkReady(old(View()), clock, l, generation)
              case Ok(t) => r.Ok? && View() == t
              case Err(e) => r == Err(e) && View() == old(View())
    {
      hide Inv, Evolves;
      ghost var before := View();
      EvolvesReflexive(before);
      if clock < now {
        return Err(StateOrClock);
      }
      if l !in leases {
        return Err(LeaseMissing);
      }
      var d := leases[l].device;
      if d !in access || access[d].revoked || access[d].expires <= clock {
        return Err(AccessDenied);
      }
      if leases[l].generation != generation || !Live(leases[l]) || leases[l].expires <= clock {
        return Err(StaleReady);
      }
      if !leases[l].state.Ready? {
        leases := leases[l := leases[l].(state := Ready)];
      }
      now := clock;
      assert View().leases == before.leases[l := before.leases[l].(state := Ready)];
      r := Ok(());
      MarkReadyKeeps(before, clock, l, generation);
    }

    method RetireLease(l: LeaseId, clock: int) returns (r: Result<()>)
      requires Inv(View())
      modifies this
      ensures Inv(View()) && Evolves(old(View()), View())
      ensures match Retire(old(View()), clock, l)
              case Ok(t) => r.Ok? && View() == t
              case Err(e) => r == Err(e) && View() == old(View())
    {
      hide Inv, Evolves;
      ghost var before := View();
      EvolvesReflexive(before);
      if clock < now {
        return Err(StateOrClock);
      }
      if l !in leases {
        return Err(LeaseMissing);
      }
      RetireRows({l});
      now := clock;
      r := Ok(());
      RetirementKeeps(before, clock, {l});
    }

    /** The selected row that ends first. */
    static method Soonest(rows: map<LeaseId, Lease>, rest: set<LeaseId>) returns (first: LeaseId)
      requires rest <= rows.Keys && rest != {}
      ensures first in rest && forall m | m in rest && m != first :: Sooner(rows, first, m)
    {
      first :| first in rest;
      var others := rest - {first};
      while others != {}
        invariant others <= rest && first in rest
        invariant forall m | m in rest && m !in others && m != first :: Sooner(rows, first, m)
        decreases |others|
      {
        var m :| m in others;
        if rows[m].expires < rows[first].expires || (rows[m].expires == rows[first].expires && m < first) {
          first := m;
        }
        others := others - {m};
      }
    }

    /** The selected rows that end first, as many as the limit allows. */
    static method TakeUpTo(leases: map<LeaseId, Lease>, rows: set<LeaseId>, limit: nat) returns (batch: set<LeaseId>)
      requires rows <= leases.Keys
      ensures FirstOf(leases, rows, limit, batch)
    {
      hide Sooner;
      batch := {};
      var rest := rows;
      while rest != {} && |batch| < limit
        invariant batch !! rest && batch + rest == rows && |batch| <= limit
        invariant forall l, m | l in batch && m in rest :: Sooner(leases, l, m)
        decreases |rest|
      {
        var l := Soonest(leases, rest);
        batch, rest := batch + {l}, rest - {l};
      }
    }

    method OverdueRows(clock: int) returns (rows: set<LeaseId>)
      ensures rows == Overdue(View(), clock) && rows <= leases.Keys
    {
      rows := set l | l in leases && Live(leases[l]) && leases[l].device in access
                      && (leases[l].expires <= clock || access[leases[l].device].expires <= clock
                          || access[leases[l].device].revoked);
    }

    /** Retires up to `limit` overdue leases, those that end first; frees no address. */
    method ExpireLeases(limit: nat, clock: int) returns (r: Result<set<LeaseId>>)
      requires Inv(View())
      modifies this
      ensures Inv(View()) && Evolves(old(View()), View())
      ensures r.Err? <==> clock < old(now)
      ensures r.Err? ==> View() == old(View())
      ensures r.Ok? ==> FirstOf(old(leases), Overdue(old(View()), clock), limit, r.value)
      ensures r.Ok? ==> FleetStore.Expire(old(View()), clock, r.value) == Ok(View())
    {
      hide Inv, Evolves, RetireIn, Overdue;
      ghost var before := View();
      EvolvesReflexive(before);
      if clock < now {
        return Err(StateOrClock);
      }
      var rest := OverdueRows(clock);
      var batch := TakeUpTo(leases, rest, limit);
      assert batch * Overdue(before, clock) == batch;
      RetireRows(batch);
      now := clock;
      r := Ok(batch);
      RetirementKeeps(before, clock, batch);
    }

    method ConfirmRemoved(l: LeaseId, generation: nat, clock: int) returns (r: Result<()>)
      requires Inv(View())
      modifies this
      ensures Inv(View()) && Evolves(old(View()), View())
      ensures match FleetStore.ConfirmRemoved(old(View()), clock, l, generation)
              case Ok(t) => r.Ok? && View() == t
              case Err(e) => r == Err(e) && View() == old(View())
    {
      hide Inv, Evolves;
      ghost var before := View();
      EvolvesReflexive(before);
      if clock < now {
        return Err(StateOrClock);
      }
      if l !in leases {
        return Err(LeaseMissing);
      }
      if leases[l].generation != generation || Live(leases[l]) {
        return Err(StaleRemoval);
      }
      if leases[l].state.Retiring? {
        leases := leases[l := leases[l].(state := Released)];
      }
      now := clock;
      assert View().leases == before.leases[l := before.leases[l].(state := Released)];
      r := Ok(());
      ConfirmRemovedKeeps(before, clock, l, generation);
    }
  }

  lemma HaltedPush(s: Store, prev: Registry, nodes: seq<Gateway>, n: nat)
    requires n < |nodes|
    ensures Halted(s, prev, nodes[..n + 1]) == Halted(s, prev, nodes[..n])
              + (if Halts(prev, nodes[n]) then set l | l in s.leases && s.leases[l].gateway == nodes[n].id else {})
  {
    var a, b := nodes[..n], nodes[..n + 1];
    forall l | l in Halted(s, prev, a) ensures l in Halted(s, prev, b) {
      var i :| 0 <= i < |a| && a[i].id == s.leases[l].gateway && Halts(prev, a[i]);
      assert b[i] == a[i];
    }
    forall l | l in Halted(s, prev, b)
      ensures l in Halted(s, prev, a) || (Halts(prev, nodes[n]) && s.leases[l].gateway == nodes[n].id)
    {
      var i :| 0 <= i < |b| && b[i].id == s.leases[l].gateway && Halts(prev, b[i]);
      assert i < n ==> a[i] == b[i];
    }
    if Halts(prev, nodes[n]) {
      assert b[n] == nodes[n];
    }
  }
}
