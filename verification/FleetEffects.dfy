/** When each transaction of the lease database is accepted, and what it does to the tables, field by field. */
module FleetEffects {
  import opened FleetTypes
  import opened FleetRegistry
  import opened FleetStore
  import opened FleetAllocation
  import opened Options

  /** The grant is in force. */
  ghost predicate InForce(s: Store, d: DeviceId, now: int) {
    d in s.access && !s.access[d].revoked && now < s.access[d].expires
  }

  /** A lease ends with its lifetime or with its grant, whichever is first. */
  ghost predicate EndsInTime(x: Lease, now: int, lifetime: int, grantEnds: int) {
    if now + lifetime <= grantEnds then x.expires == now + lifetime else x.expires == grantEnds
  }

  // ---------------------------------------------------------------- reservations

  /** A fresh reservation adds exactly one lease, with the terms asked for. */
  lemma ReservationAdds(s: Store, now: int, d: DeviceId, id: nat, revision: nat, q: Scope,
                        ranked: seq<GatewayId>, unused: LeaseId)
    requires Inv(s) && Readable(s) && unused !in s.leases && (d, id) !in s.requests
    requires Reserve(s, now, d, id, revision, q, ranked, unused).Ok?
    ensures var (t, l) := Reserve(s, now, d, id, revision, q, ranked, unused).value;
      && l == unused && t.leases.Keys == s.leases.Keys + {l} && (forall m | m in s.leases :: t.leases[m] == s.leases[m])
      && d in s.access
      && var x := t.leases[l];
      && x.device == d && x.country == q.country && x.transport == q.transport && x.version == q.version
      && x.registryRevision == s.latest && x.accessRevision == s.access[d].revision && x.created == now
      && x.state.Reserved? && x.generation == 1
      && EndsInTime(x, now, q.lifetime, s.access[d].expires)
    ensures var t := Reserve(s, now, d, id, revision, q, ranked, unused).value.0;
      && t.now == now && t.latest == s.latest && t.registries == s.registries && t.access == s.access
      && t.requests == s.requests[(d, id) := Ticket(q, unused)]
  {
    hide Inv, Readable, Pick, HasAssignment;
  }

  /** The gateway has room and does not serve the device yet. */
  ghost predicate CanTake(s: Store, d: DeviceId, g: GatewayId)
    requires Readable(s) && Has(Current(s), g)
  {
    |UnreleasedOn(s, g)| < Find(Current(s), g).maxDevices && !ServesDevice(s, d, g)
  }

  /** An unreleased lease of the gateway has the address. */
  ghost predicate Occupied(s: Store, g: GatewayId, a: Address) {
    exists l | l in s.leases :: s.leases[l].gateway == g && Unreleased(s.leases[l]) && s.leases[l].address == a
  }

  /** The lease has the lowest host address of its gateway that is not occupied. */
  ghost predicate LowestFree(s: Store, x: Lease) {
    && Readable(s) && Has(Current(s), x.gateway) && HostAddress(Find(Current(s), x.gateway).pool, x.address)
    && !Occupied(s, x.gateway, x.address)
    && forall a: Address | HostAddress(Find(Current(s), x.gateway).pool, a) && a < x.address ::
         Occupied(s, x.gateway, a)
  }

  /** Of the ranked gateways, the one at `i` is the first that can take the device; the lease is there, at the lowest
      address left. */
  ghost predicate FirstFit(s: Store, d: DeviceId, ranked: seq<GatewayId>, i: nat, leases: map<LeaseId, Lease>,
                           l: LeaseId)
    requires Readable(s) && forall g | g in ranked :: Has(Current(s), g)
  {
    && i < |ranked| && CanTake(s, d, ranked[i]) && (forall j | 0 <= j < i :: !CanTake(s, d, ranked[j]))
    && l in leases && leases[l].gateway == ranked[i] && LowestFree(s, leases[l])
  }

  /** The new lease is on the first ranked gateway that can take the device, at its lowest free host address. */
  lemma ReservationIsFirstFit(s: Store, now: int, d: DeviceId, id: nat, revision: nat, q: Scope,
                              ranked: seq<GatewayId>, unused: LeaseId) returns (i: nat)
    requires Inv(s) && Readable(s) && (d, id) !in s.requests && forall g | g in ranked :: Has(Current(s), g)
    requires Reserve(s, now, d, id, revision, q, ranked, unused).Ok?
    ensures FirstFit(s, d, ranked, i, Reserve(s, now, d, id, revision, q, ranked, unused).value.0.leases, unused)
  {
    hide Inv, HasAssignment, Slot, HostAddress;
    i := FirstPick(s, d, ranked);
    SlotFits(s, d, ranked[i]);
    SlotIsLowest(s, d, ranked[i]);
    forall j | 0 <= j <= i ensures CanTake(s, d, ranked[j]) <==> Slot(s, d, ranked[j]).Some? {
      CapacityMeansAddress(s, d, ranked[j]);
    }
  }

  lemma {:induction false} FirstPick(s: Store, d: DeviceId, ranked: seq<GatewayId>) returns (i: nat)
    requires Readable(s) && Pick(s, d, ranked).Some?
    ensures i < |ranked| && Slot(s, d, ranked[i]).Some?
      && Pick(s, d, ranked).value == (ranked[i], Slot(s, d, ranked[i]).value)
    ensures forall j | 0 <= j < i :: Slot(s, d, ranked[j]).None?
  {
    hide ValidRegistry, Slot;
    if Slot(s, d, ranked[0]).Some? {
      i := 0;
    } else {
      var k := FirstPick(s, d, ranked[1..]);
      i := k + 1;
      forall j | 0 <= j < i ensures Slot(s, d, ranked[j]).None? {
        if j > 0 {
          assert ranked[j] == ranked[1..][j - 1];
        }
      }
    }
  }

  lemma {:induction false} FirstFreeIsLowest(n: nat, end: nat, used: set<Address>)
    requires FirstFreeFrom(n, end, used).Some?
    ensures forall a | n <= a < FirstFreeFrom(n, end, used).value :: a in used
    decreases end - n
  {
    if n in used {
      FirstFreeIsLowest(n + 1, end, used);
    }
  }

  lemma SlotIsLowest(s: Store, d: DeviceId, g: GatewayId)
    requires Readable(s) && Slot(s, d, g).Some?
    ensures Has(Current(s), g)
    ensures forall a: Address | HostAddress(Find(Current(s), g).pool, a) && a < Slot(s, d, g).value :: Occupied(s, g, a)
  {
    var node := Find(Current(s), g);
    FirstFreeIsLowest(node.pool.base + 2, node.pool.base + node.pool.size - 1, UsedAddresses(s, g));
    forall a: Address | HostAddress(node.pool, a) && a < Slot(s, d, g).value
      ensures Occupied(s, g, a)
    {
      assert a in UsedAddresses(s, g);
      var l :| l in UnreleasedOn(s, g) && s.leases[l].address == a;
    }
  }

  /** A request is well-formed. */
  ghost predicate WellFormed(q: Scope) {
    && 1 <= q.lifetime <= 86400
    && (if q.transport.AmneziaWG? then q.version in {V2_0, V3_1} else q.version.V1?)
    && q.families != {} && forall f | f in q.families :: f == 4 || f == 6
  }

  /** A fresh request is granted exactly when it is well-formed and current, its grant is in force and not used up,
      the assignment is free, and some gateway that passes admission can take the device. */
  lemma ReservationExactly(s: Store, now: int, d: DeviceId, id: nat, revision: nat, q: Scope,
                           ranked: seq<GatewayId>, samples: seq<Observation>, unused: LeaseId)
    requires Inv(s) && Readable(s) && (d, id) !in s.requests && Ranking(s, now, q, ranked, samples)
    ensures Reserve(s, now, d, id, revision, q, ranked, unused).Ok? <==>
      && s.now <= now && WellFormed(q) && revision == s.latest && InForce(s, d, now)
      && |UnreleasedOf(s, d)| < s.access[d].maxLeases
      && (forall l | l in s.leases && s.leases[l].device == d && Unreleased(s.leases[l]) ::
            (s.leases[l].country, s.leases[l].transport, s.leases[l].version) != (q.country, q.transport, q.version))
      && (exists g | g in Current(s).gateways ::
            Has(Current(s), g.id) && Admitted(s, now, q, samples, g) && CanTake(s, d, g.id))
  {
    hide Inv, Slot, Pick, Admitted;
    PickNothing(s, d, ranked);
    forall g | g in ranked ensures Slot(s, d, g).Some? <==> CanTake(s, d, g) {
      CapacityMeansAddress(s, d, g);
    }
    FormsAgree(q);
    RankedAgree(s, now, d, q, ranked, samples);
  }

  lemma FormsAgree(q: Scope)
    ensures ValidScope(q) <==> WellFormed(q)
  {
  }

  lemma RankedAgree(s: Store, now: int, d: DeviceId, q: Scope, ranked: seq<GatewayId>, samples: seq<Observation>)
    requires Readable(s) && Ranking(s, now, q, ranked, samples)
    ensures (exists g | g in ranked :: CanTake(s, d, g)) <==>
      (exists g | g in Current(s).gateways ::
         Has(Current(s), g.id) && Admitted(s, now, q, samples, g) && CanTake(s, d, g.id))
  {
    hide Admitted, CanTake;
    if g :| g in ranked && CanTake(s, d, g) {
      var node := Find(Current(s), g);
      assert node in Current(s).gateways && node.id == g;
    }
    if g :| && g in Current(s).gateways && Has(Current(s), g.id) && Admitted(s, now, q, samples, g)
            && CanTake(s, d, g.id) {
      assert g.id in ranked;
    }
  }

  // ---------------------------------------------------------------- grants and registries

  /** A grant is recorded exactly when it is within limits and in order, and then retires what it no longer covers. */
  lemma AccessExactly(s: Store, now: int, d: DeviceId, a: Access)
    requires Inv(s)
    ensures SetAccess(s, now, d, a).Ok? <==>
      && 1 <= a.revision && 1 <= a.expires && 1 <= a.maxLeases <= 8 && s.now <= now
      && (|| (d in s.access && s.access[d] == a)
          || (&& (d in s.access ==> && s.access[d].identity == a.identity && s.access[d].key == a.key
                                    && s.access[d].revision < a.revision)
              && (now < a.expires || a.revoked)
              && forall e | e in s.access && e != d :: s.access[e].key != a.key && s.access[e].identity != a.identity))
    ensures SetAccess(s, now, d, a).Ok? ==>
      var t := SetAccess(s, now, d, a).value;
      && t.now == now && t.access == s.access[d := a] && t.registries == s.registries && t.requests == s.requests
      && t.leases.Keys == s.leases.Keys
      && forall l | l in s.leases ::
           var cut := s.leases[l].device == d && Live(s.leases[l]) && (a.revoked || a.expires < s.leases[l].expires);
           t.leases[l] == if cut then s.leases[l].(state := Retiring, generation := 2) else s.leases[l]
  {
    hide RegistryHistory, UniqueIndexes, Tickets, GrantsSound, HostAddress, Offers, Find, Has;
    if SetAccess(s, now, d, a).Ok? {
      forall l | l in s.leases && s.leases[l].device == d ensures Placed(s, s.leases[l]) {}
    }
  }

  /** The new registry disables the gateway or sends it back to provisioning. */
  ghost predicate HaltedBy(before: Registry, c: Registry, id: GatewayId) {
    Has(before, id) && exists g | g in c.gateways :: g.id == id && (g.phase.Disabled? || g.phase.Provisioning?)
  }

  /** A registry is installed exactly when it is valid, newer and pins every endpoint in use, and then it retires
      the live leases of the gateways it halts. */
  lemma RegistryExactly(s: Store, now: int, c: Registry)
    requires Inv(s) && Readable(s)
    ensures InstallRegistry(s, now, c).Ok? <==>
      && ValidRegistry(c) && s.now <= now
      && (c == Current(s)
          || (ValidUpdate(Current(s), c) && forall g, l | g in c.gateways && l in s.leases ::
                g.id == s.leases[l].gateway && Has(Current(s), g.id) && Unreleased(s.leases[l]) ==>
                  g.endpoints == Find(Current(s), g.id).endpoints))
    ensures InstallRegistry(s, now, c).Ok? && c != Current(s) ==>
      var t := InstallRegistry(s, now, c).value;
      && t.now == now && t.latest == c.revision && t.registries == s.registries[c.revision := c]
      && t.access == s.access && t.requests == s.requests && t.leases.Keys == s.leases.Keys
      && forall l | l in s.leases ::
           var halted := Live(s.leases[l]) && HaltedBy(Current(s), c, s.leases[l].gateway);
           t.leases[l] == if halted then s.leases[l].(state := Retiring, generation := 2) else s.leases[l]
  {
    hide RegistryHistory, UniqueIndexes, Tickets, GrantsSound, Placed, ValidRegistry, ValidUpdate;
    PinsAgree(s, c);
    HaltsAgree(s, c);
  }

  lemma PinsAgree(s: Store, c: Registry)
    requires s.latest in s.registries
    ensures (forall i | 0 <= i < |c.gateways| :: EndpointsPinned(s, Current(s), c.gateways[i])) <==>
      forall g, l | g in c.gateways && l in s.leases ::
        g.id == s.leases[l].gateway && Has(Current(s), g.id) && Unreleased(s.leases[l]) ==>
          g.endpoints == Find(Current(s), g.id).endpoints
  {
    if forall i | 0 <= i < |c.gateways| :: EndpointsPinned(s, Current(s), c.gateways[i]) {
      forall g, l | g in c.gateways && l in s.leases && g.id == s.leases[l].gateway && Has(Current(s), g.id)
        && Unreleased(s.leases[l])
        ensures g.endpoints == Find(Current(s), g.id).endpoints
      {
        var i :| 0 <= i < |c.gateways| && c.gateways[i] == g;
        assert EndpointsPinned(s, Current(s), c.gateways[i]) && l in UnreleasedOn(s, g.id);
      }
    }
  }

  lemma HaltsAgree(s: Store, c: Registry)
    requires s.latest in s.registries
    ensures forall l | l in s.leases ::
      l in Halted(s, Current(s), c.gateways) <==> HaltedBy(Current(s), c, s.leases[l].gateway)
  {
    forall l, g | l in s.leases && g in c.gateways && g.id == s.leases[l].gateway && Has(Current(s), g.id)
      && (g.phase.Disabled? || g.phase.Provisioning?)
      ensures l in Halted(s, Current(s), c.gateways)
    {
      var i :| 0 <= i < |c.gateways| && c.gateways[i] == g;
      assert Halts(Current(s), c.gateways[i]);
    }
  }

  // ---------------------------------------------------------------- the life of a lease

  /** The same tables at a later time, but for one lease. */
  ghost predicate OnlyLease(s: Store, now: int, l: LeaseId, x: Lease, t: Store) {
    t == s.(now := now, leases := s.leases[l := x])
  }

  /** Work is given exactly for the current generation of a lease to install or remove; an install needs its grant
      in force and its own time left, a removal nothing.  It names the lease's own gateway snapshot and key. */
  lemma WorkExactly(s: Store, now: int, l: LeaseId, generation: nat)
    requires Inv(s)
    ensures WorkItem(s, now, l, generation).Ok? <==>
      && s.now <= now && l in s.leases && s.leases[l].generation == generation
      && (|| s.leases[l].state.Retiring?
          || (s.leases[l].state.Reserved? && InForce(s, s.leases[l].device, now) && now < s.leases[l].expires))
    ensures WorkItem(s, now, l, generation).Ok? ==>
      var w, x := WorkItem(s, now, l, generation).value, s.leases[l];
      && x.device in s.access && x.registryRevision in s.registries
      && w.lease == x && w.key == s.access[x.device].key
      && w.gateway in s.registries[x.registryRevision].gateways && w.gateway.id == x.gateway
  {
    hide UniqueIndexes, Tickets, GrantsSound, Lifecycle, ValidRegistry, Retains, HostAddress, Offers;
    if l in s.leases {
      assert Placed(s, s.leases[l]);
    }
  }

  lemma ReadyExactly(s: Store, now: int, l: LeaseId, generation: nat)
    requires Inv(s)
    ensures MarkReady(s, now, l, generation).Ok? <==>
      && s.now <= now && l in s.leases && s.leases[l].generation == generation && Live(s.leases[l])
      && InForce(s, s.leases[l].device, now) && now < s.leases[l].expires
    ensures MarkReady(s, now, l, generation).Ok? ==>
      OnlyLease(s, now, l, s.leases[l].(state := Ready), MarkReady(s, now, l, generation).value)
  {
    hide Inv;
  }

  lemma RetireExactly(s: Store, now: int, l: LeaseId)
    requires Inv(s)
    ensures Retire(s, now, l).Ok? <==> s.now <= now && l in s.leases
    ensures Retire(s, now, l).Ok? ==>
      var x := s.leases[l];
      OnlyLease(s, now, l, if Live(x) then x.(state := Retiring, generation := 2) else x, Retire(s, now, l).value)
  {
    hide RegistryHistory, UniqueIndexes, Tickets, GrantsSound, Placed;
  }

  lemma RemovalExactly(s: Store, now: int, l: LeaseId, generation: nat)
    requires Inv(s)
    ensures ConfirmRemoved(s, now, l, generation).Ok? <==>
      s.now <= now && l in s.leases && s.leases[l].generation == generation && !Live(s.leases[l])
    ensures ConfirmRemoved(s, now, l, generation).Ok? ==>
      OnlyLease(s, now, l, s.leases[l].(state := Released), ConfirmRemoved(s, now, l, generation).value)
  {
    hide Inv;
  }

  /** A batch that takes every overdue lease leaves no live lease past its end or outside its grant. */
  lemma ExpiryLeavesNoneOverdue(s: Store, now: int, batch: set<LeaseId>)
    requires Inv(s) && s.now <= now && Overdue(s, now) <= batch
    ensures Expire(s, now, batch).Ok?
    ensures var t := Expire(s, now, batch).value;
      forall l | l in t.leases && Live(t.leases[l]) ::
        now < t.leases[l].expires && InForce(t, t.leases[l].device, now) && t.leases[l] == s.leases[l]
    ensures var t := Expire(s, now, batch).value;
      && t.leases.Keys == s.leases.Keys
      && forall l | l in s.leases && s.leases[l].device in s.access && now < s.leases[l].expires
           && InForce(s, s.leases[l].device, now) :: t.leases[l] == s.leases[l]
  {
    hide RegistryHistory, UniqueIndexes, Tickets, GrantsSound, HostAddress, Offers, Find, Has;
    forall l | l in s.leases && Live(s.leases[l]) ensures s.leases[l].device in s.access {
      assert Placed(s, s.leases[l]);
    }
  }
}
