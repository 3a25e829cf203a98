/** Issuing signed configurations for ready leases: the per-device counter and the publication table. */
module FleetPublish {
  import opened FleetTypes
  import opened FleetRegistry
  import opened FleetStore
  import opened FleetAllocation
  import opened FleetDatabase
  import opened Options

  const MAX_REVISION: nat := 0x7FFF_FFFF_FFFF_FFFF

  /** What the signed bytes say; equal contents mean equal bytes. */
  datatype Envelope = Envelope(
    lease: LeaseId, revision: nat, device: DeviceId, key: Key, previousHash: nat, signer: nat, policy: nat,
    issuedAt: int, expiresAt: int, gateway: GatewayId, endpoint: Endpoint, address: Address)

  /** A row of the publication table; its key is the lease and the access revision. */
  datatype Publication = Publication(revision: nat, signer: nat, policy: nat, previousHash: nat, envelope: Envelope)

  type Entry = (LeaseId, nat)

  datatype Issued = Issued(authority: Option<nat>, counters: map<DeviceId, nat>, table: map<Entry, Publication>)

  /** A request to publish: `policy` is the digest of the profile and the minimum client version. */
  datatype Ask = Ask(lease: LeaseId, device: DeviceId, previousHash: nat, signer: nat, policy: nat)

  predicate Publishable(s: Store, q: Ask, now: int) {
    && s.now <= now && q.lease in s.leases && Authorized(s, q.device, now)
    && s.leases[q.lease].device == q.device && s.leases[q.lease].state.Ready? && s.leases[q.lease].expires > now
  }

  function Counter(p: Issued, d: DeviceId): nat {
    if d in p.counters then p.counters[d] else 0
  }

  /** A publication stored for the lease, with none of a higher revision. */
  predicate NewestOf(p: Issued, l: LeaseId, k: Entry) {
    k.0 == l && k in p.table && forall m | m in p.table && m.0 == l :: p.table[m].revision <= p.table[k].revision
  }

  predicate NoneOf(p: Issued, l: LeaseId) {
    forall m | m in p.table :: m.0 != l
  }

  /** The row a first publication under the current access revision adds. */
  ghost predicate NewRow(s: Store, p: Issued, q: Ask, now: int, row: Publication)
    requires q.lease in s.leases && q.device in s.access
  {
    var lease, access := s.leases[q.lease], s.access[q.device];
    && row.revision == Counter(p, q.device) + 1 <= MAX_REVISION
    && row.signer == q.signer && row.policy == q.policy && row.previousHash == q.previousHash
    && row.envelope.lease == q.lease && row.envelope.revision == row.revision && row.envelope.device == q.device
    && row.envelope.key == access.key && row.envelope.previousHash == q.previousHash
    && row.envelope.signer == q.signer && row.envelope.policy == q.policy
    && row.envelope.issuedAt == now && row.envelope.expiresAt == Min(lease.expires, access.expires)
    && row.envelope.gateway == lease.gateway && row.envelope.address == lease.address
    && row.envelope.endpoint.transport == lease.transport && row.envelope.endpoint.version == lease.version
    && lease.registryRevision in s.registries && Has(s.registries[lease.registryRevision], lease.gateway)
    && row.envelope.endpoint in Find(s.registries[lease.registryRevision], lease.gateway).endpoints
  }

  /** A successful publish: the stored bytes again, or one new row under the next revision. */
  ghost predicate Publishes(s: Store, p: Issued, q: Ask, now: int, p': Issued, e: Envelope) {
    && Publishable(s, q, now) && p.authority == Some(q.signer)
    && var k := (q.lease, s.access[q.device].revision);
       || (&& NewestOf(p, q.lease, k) && p.table[k].previousHash == q.previousHash && p.table[k].policy == q.policy
           && p.table[k].signer == q.signer && p' == p && e == p.table[k].envelope)
       || (&& !NewestOf(p, q.lease, k)
           && (forall m | NewestOf(p, q.lease, m) :: p.table[m].policy == q.policy && p.table[m].signer == q.signer)
           && exists row :: NewRow(s, p, q, now, row) && e == row.envelope
                && p' == p.(counters := p.counters[q.device := row.revision], table := p.table[k := row]))
  }

  // ---------------------------------------------------------------- invariant

  ghost predicate RowSound(s: Store, p: Issued, k: Entry)
    requires k in p.table
  {
    && k.0 in s.leases && s.leases[k.0].device in s.access
    && var lease, access, row := s.leases[k.0], s.access[s.leases[k.0].device], p.table[k];
       && row.envelope.lease == k.0 && row.envelope.device == lease.device && row.envelope.revision == row.revision
       && row.envelope.key == access.key && row.envelope.gateway == lease.gateway
       && row.envelope.address == lease.address && row.envelope.endpoint.transport == lease.transport
       && row.envelope.endpoint.version == lease.version
       && row.revision <= Counter(p, lease.device)
       && k.1 <= access.revision
       && row.envelope.expiresAt <= lease.expires
       && (k.1 == access.revision ==> row.envelope.expiresAt <= access.expires)
  }

  /** Revisions of one device are all different, and those of one lease follow its access revisions. */
  ghost predicate Ordered(s: Store, p: Issued, k: Entry, m: Entry)
    requires k in p.table && m in p.table
  {
    && (k != m && p.table[k].envelope.device == p.table[m].envelope.device ==>
       p.table[k].revision != p.table[m].revision)
    && (k.0 == m.0 && k.1 < m.1 ==> p.table[k].revision < p.table[m].revision)
  }

  ghost predicate IssuedInv(s: Store, p: Issued) {
    && (forall k | k in p.table :: RowSound(s, p, k))
    && (forall k, m | k in p.table && m in p.table :: Ordered(s, p, k, m))
  }

  /** Grants only move to higher revisions, one revision is one grant, and a device keeps its key. */
  ghost predicate GrantsMove(a: map<DeviceId, Access>, b: map<DeviceId, Access>) {
    forall d | d in a :: d in b && b[d].key == a[d].key && (b[d] == a[d] || a[d].revision < b[d].revision)
  }

  lemma StoreStepGrants(s: Store, op: Op)
    requires Readable(s) && Enabled(s, op)
    ensures GrantsMove(s.access, After(s, op).access)
  {
    hide RegistryHistory, Pick, ValidUpdate, RetireIn, Halted, Curtailed;
  }

  /** Store transactions never disturb what has been published. */
  lemma StoreStepKeepsIssued(s: Store, op: Op, p: Issued)
    requires Inv(s) && Enabled(s, op) && IssuedInv(s, p)
    ensures IssuedInv(After(s, op), p)
  {
    hide Placed, UniqueIndexes, RegistryHistory, After;
    LatestIsKnown(s);
    AnyStepKeeps(s, op);
    StoreStepGrants(s, op);
    forall k | k in p.table ensures RowSound(After(s, op), p, k) {
      assert RowSound(s, p, k) && Later(s.leases[k.0], After(s, op).leases[k.0]);
    }
    forall k, m | k in p.table && m in p.table ensures Ordered(After(s, op), p, k, m) {
      assert Ordered(s, p, k, m);
    }
  }

  /** A stored publication of the current access revision is the newest of its lease, so a new row
      never meets an existing key. */
  lemma KeyNeverCollides(s: Store, p: Issued, l: LeaseId)
    requires IssuedInv(s, p) && l in s.leases && s.leases[l].device in s.access
    ensures var k := (l, s.access[s.leases[l].device].revision); k in p.table <==> NewestOf(p, l, k)
  {
    var k := (l, s.access[s.leases[l].device].revision);
    if k in p.table {
      forall m | m in p.table && m.0 == l ensures p.table[m].revision <= p.table[k].revision {
        assert RowSound(s, p, m) && Ordered(s, p, m, k);
      }
    }
  }

  lemma PublishKeepsIssued(s: Store, p: Issued, q: Ask, now: int, p': Issued, e: Envelope)
    requires IssuedInv(s, p) && Publishes(s, p, q, now, p', e)
    ensures IssuedInv(s, p') && Appended(p, p')
  {
    hide NewestOf, Has, Find, Readable;
    KeyNeverCollides(s, p, q.lease);
    var k := (q.lease, s.access[q.device].revision);
    if p' != p {
      assert k !in p.table;
      forall m | m in p'.table ensures RowSound(s, p', m) {
        assert m != k ==> RowSound(s, p, m);
      }
      forall m | m in p.table ensures Ordered(s, p', m, k) && Ordered(s, p', k, m) {
        assert RowSound(s, p, m);
      }
      forall m, n | m in p'.table && n in p'.table ensures Ordered(s, p', m, n) {
        assert m != k && n != k ==> Ordered(s, p, m, n);
      }
    }
  }

  /** Rows are only ever added and counters only grow. */
  ghost predicate Appended(p: Issued, p': Issued) {
    && (forall k | k in p.table :: k in p'.table && p'.table[k] == p.table[k])
    && (forall d :: Counter(p, d) <= Counter(p', d))
  }

  // ---------------------------------------------------------------- histories

  datatype Event = Transaction(op: Op) | Publish(ask: Ask, now: int, envelope: Envelope)

  datatype Office = Office(store: Store, issued: Issued)

  ghost predicate Happens(a: Office, e: Event, b: Office) {
    && Readable(a.store)
    && match e
       case Transaction(op) => Enabled(a.store, op) && b == Office(After(a.store, op), a.issued)
       case Publish(q, now, envelope) =>
         && Publishes(a.store, a.issued, q, now, b.issued, envelope)
         && now <= b.store.now && b.store == a.store.(now := b.store.now)
  }

  ghost predicate History(offices: seq<Office>, events: seq<Event>) {
    && |offices| == |events| + 1
    && Inv(offices[0].store) && IssuedInv(offices[0].store, offices[0].issued)
    && forall i | 0 <= i < |events| :: Happens(offices[i], events[i], offices[i + 1])
  }

  lemma EventKeeps(a: Office, e: Event, b: Office)
    requires Inv(a.store) && IssuedInv(a.store, a.issued) && Happens(a, e, b)
    ensures Inv(b.store) && IssuedInv(b.store, b.issued)
    ensures Appended(a.issued, b.issued) && GrantsMove(a.store.access, b.store.access)
  {
    hide Placed, UniqueIndexes, RegistryHistory, After, Lifecycle, Enabled;
    match e
    case Transaction(op) =>
      AnyStepKeeps(a.store, op);
      StoreStepKeepsIssued(a.store, op, a.issued);
      StoreStepGrants(a.store, op);
    case Publish(q, now, envelope) =>
      PublishKeepsIssued(a.store, a.issued, q, now, b.issued, envelope);
      ClockKeeps(a.store, b.store.now);
      NowOnly(a.store, b.store.now, b.issued);
  }

  lemma NowOnly(s: Store, now: int, p: Issued)
    requires IssuedInv(s, p)
    ensures IssuedInv(s.(now := now), p)
  {
    var t := s.(now := now);
    forall k | k in p.table ensures RowSound(t, p, k) { assert RowSound(s, p, k); }
    forall k, m | k in p.table && m in p.table ensures Ordered(t, p, k, m) { assert Ordered(s, p, k, m); }
  }

  lemma {:induction false} HistoryKeeps(offices: seq<Office>, events: seq<Event>, i: nat, j: nat)
    requires History(offices, events) && i <= j < |offices|
    ensures Inv(offices[j].store) && IssuedInv(offices[j].store, offices[j].issued)
    ensures Appended(offices[i].issued, offices[j].issued)
    decreases j
  {
    hide Inv, IssuedInv, Happens;
    if i < j {
      HistoryKeeps(offices, events, i, j - 1);
      EventKeeps(offices[j - 1], events[j - 1], offices[j]);
    } else if j > 0 {
      HistoryKeeps(offices, events, j - 1, j - 1);
      EventKeeps(offices[j - 1], events[j - 1], offices[j]);
    }
  }

  /** The revision a publish answers with is either already in the table, or above every revision
      its device had before; so later new publications of a device always rank higher. */
  lemma RevisionsStrictlyIncrease(offices: seq<Office>, events: seq<Event>, i: nat, j: nat)
    requires History(offices, events) && i < j < |events|
    requires events[i].Publish? && events[j].Publish? && events[i].ask.device == events[j].ask.device
    requires offices[j + 1].issued != offices[j].issued
    ensures events[i].envelope.revision < events[j].envelope.revision
  {
    hide Inv, RowSound, NewestOf;
    HistoryKeeps(offices, events, i + 1, j);
    HistoryKeeps(offices, events, 0, i);
    RevisionCounted(offices, events, i);
    assert Happens(offices[j], events[j], offices[j + 1]);
  }

  lemma RevisionCounted(offices: seq<Office>, events: seq<Event>, i: nat)
    requires History(offices, events) && i < |events| && events[i].Publish?
    ensures events[i].envelope.revision <= Counter(offices[i + 1].issued, events[i].ask.device)
  {
    HistoryKeeps(offices, events, 0, i);
    var s, p, q := offices[i].store, offices[i].issued, events[i].ask;
    assert Happens(offices[i], events[i], offices[i + 1]);
    var k := (q.lease, s.access[q.device].revision);
    if NewestOf(p, q.lease, k) {
      assert RowSound(s, p, k);
    }
  }

  /** Publishing again for the same lease under the same access revision returns the same bytes. */
  lemma RepublishIsIdentical(offices: seq<Office>, events: seq<Event>, i: nat, j: nat)
    requires History(offices, events) && i < j < |events|
    requires events[i].Publish? && events[j].Publish? && events[i].ask.lease == events[j].ask.lease
    requires Publishable(offices[i].store, events[i].ask, events[i].now)
    requires Publishable(offices[j].store, events[j].ask, events[j].now)
    requires offices[i].store.access[events[i].ask.device].revision
      == offices[j].store.access[events[j].ask.device].revision
    ensures events[j].envelope == events[i].envelope && offices[j + 1].issued == offices[j].issued
  {
    hide Inv, IssuedInv, NewRow;
    HistoryKeeps(offices, events, i + 1, j);
    var q := events[i].ask;
    var k := (q.lease, offices[i].store.access[q.device].revision);
    assert Happens(offices[i], events[i], offices[i + 1]);
    assert k in offices[i + 1].issued.table && offices[i + 1].issued.table[k].envelope == events[i].envelope;
    assert Happens(offices[j], events[j], offices[j + 1]);
    KeyNeverCollides(offices[j].store, offices[j].issued, q.lease);
  }

  /** No publication outlives its lease.  It stays within the device's current grant as long as the
      lease is live or the grant is the one it was issued under. */
  lemma PublicationWithinLease(offices: seq<Office>, events: seq<Event>, n: nat, k: Entry)
    requires History(offices, events) && n < |offices| && k in offices[n].issued.table
    ensures var s, row := offices[n].store, offices[n].issued.table[k];
            && k.0 in s.leases && s.leases[k.0].device in s.access
            && row.envelope.expiresAt <= s.leases[k.0].expires
            && (Live(s.leases[k.0]) || k.1 == s.access[s.leases[k.0].device].revision ==>
                  row.envelope.expiresAt <= s.access[s.leases[k.0].device].expires)
  {
    hide UniqueIndexes, ValidRegistry, Retains, HostAddress;
    HistoryKeeps(offices, events, 0, n);
    assert RowSound(offices[n].store, offices[n].issued, k);
    assert Placed(offices[n].store, offices[n].store.leases[k.0]);
  }

  /** What a device can fetch without a new signature: the row of its current grant, while the lease is ready. */
  function Retrieve(s: Store, p: Issued, l: LeaseId, d: DeviceId, now: int): Option<Envelope> {
    if now < s.now || !Authorized(s, d, now) || l !in s.leases then None
    else if s.leases[l].device != d || !s.leases[l].state.Ready? || s.leases[l].expires <= now then None
    else
      var k := (l, s.access[d].revision);
      if k in p.table && p.authority == Some(p.table[k].signer) then Some(p.table[k].envelope) else None
  }

  /** In every history, what can be fetched was made for that lease and device, carries its key, gateway, address and
      transport, and ends with its lease and its grant. */
  lemma RetrievedIsInForce(offices: seq<Office>, events: seq<Event>, n: nat, l: LeaseId, d: DeviceId, now: int)
    requires History(offices, events) && n < |offices|
    requires Retrieve(offices[n].store, offices[n].issued, l, d, now).Some?
    ensures var s := offices[n].store;
            var e := Retrieve(s, offices[n].issued, l, d, now).value;
            && l in s.leases && s.leases[l].device == d && d in s.access
            && e.lease == l && e.device == d && e.key == s.access[d].key
            && e.gateway == s.leases[l].gateway && e.address == s.leases[l].address
            && e.endpoint.transport == s.leases[l].transport && e.endpoint.version == s.leases[l].version
            && e.expiresAt <= s.leases[l].expires && e.expiresAt <= s.access[d].expires
  {
    hide Inv;
    HistoryKeeps(offices, events, 0, n);
    assert RowSound(offices[n].store, offices[n].issued, (l, offices[n].store.access[d].revision));
  }

  /** In every history, what was published can be fetched, byte for byte, as long as the lease is ready and the grant
      it was published under is in force. */
  lemma PublishedCanBeFetched(offices: seq<Office>, events: seq<Event>, i: nat, j: nat, now: int)
    requires History(offices, events) && i < |events| && events[i].Publish? && i < j < |offices|
    requires var s, q := offices[j].store, events[i].ask;
      && s.now <= now && q.lease in s.leases && s.leases[q.lease].state.Ready? && now < s.leases[q.lease].expires
      && q.device in s.access && !s.access[q.device].revoked && now < s.access[q.device].expires
      && q.device in offices[i].store.access
      && s.access[q.device].revision == offices[i].store.access[q.device].revision
    ensures Retrieve(offices[j].store, offices[j].issued, events[i].ask.lease, events[i].ask.device, now) ==
            Some(events[i].envelope)
  {
    hide Inv, IssuedInv;
    HistoryKeeps(offices, events, i + 1, j);
    AuthorityStays(offices, events, i, j);
    var q := events[i].ask;
    var k := (q.lease, offices[i].store.access[q.device].revision);
    assert Happens(offices[i], events[i], offices[i + 1]);
    assert k in offices[i + 1].issued.table && offices[i + 1].issued.table[k].envelope == events[i].envelope
           && offices[i + 1].issued.table[k].signer == q.signer;
    DeviceOf(offices[j].store, offices[j].issued, k);
    HistoryKeeps(offices, events, 0, i + 1);
    DeviceOf(offices[i + 1].store, offices[i + 1].issued, k);
  }

  lemma DeviceOf(s: Store, p: Issued, k: Entry)
    requires IssuedInv(s, p) && k in p.table
    ensures k.0 in s.leases && s.leases[k.0].device == p.table[k].envelope.device
  {
    assert RowSound(s, p, k);
  }

  lemma {:induction false} AuthorityStays(offices: seq<Office>, events: seq<Event>, i: nat, j: nat)
    requires History(offices, events) && i <= j < |offices|
    ensures offices[j].issued.authority == offices[i].issued.authority
  {
    if i < j {
      AuthorityStays(offices, events, i, j - 1);
      assert Happens(offices[j - 1], events[j - 1], offices[j]);
    }
  }

  /** The stored row lasts longer than the device's current grant. */
  ghost predicate Outlives(o: Office, k: Entry) {
    && k in o.issued.table && k.0 in o.store.leases && o.store.leases[k.0].device in o.store.access
    && o.store.access[o.store.leases[k.0].device].expires < o.issued.table[k].envelope.expiresAt
  }

  /** A row outlives the grant only under a later grant than its own, when its lease is no longer live; and from
      then on nothing of its lease can be fetched by anyone. */
  lemma OutlivingIsWithdrawn(offices: seq<Office>, events: seq<Event>, i: nat, j: nat, k: Entry, d: DeviceId, now: int)
    requires History(offices, events) && i <= j < |offices| && Outlives(offices[i], k)
    ensures k.1 < offices[i].store.access[offices[i].store.leases[k.0].device].revision
    ensures !Live(offices[i].store.leases[k.0])
    ensures Retrieve(offices[j].store, offices[j].issued, k.0, d, now).None?
  {
    hide History, Inv, IssuedInv, Live;
    PublicationWithinLease(offices, events, i, k);
    SupersededBy(offices, events, i, k);
    DeadStays(offices, events, i, j, k.0);
    if offices[j].store.leases[k.0].state.Ready? {
      ReadyIsLive(offices[j].store, k.0);
    }
  }

  lemma ReadyIsLive(s: Store, l: LeaseId)
    requires l in s.leases && s.leases[l].state.Ready?
    ensures Live(s.leases[l])
  {
  }

  lemma SupersededBy(offices: seq<Office>, events: seq<Event>, n: nat, k: Entry)
    requires History(offices, events) && n < |offices| && k in offices[n].issued.table
    ensures var s := offices[n].store;
      k.0 in s.leases && s.leases[k.0].device in s.access && k.1 <= s.access[s.leases[k.0].device].revision
  {
    hide Inv;
    HistoryKeeps(offices, events, 0, n);
    assert RowSound(offices[n].store, offices[n].issued, k);
  }

  /** A lease that is not live never is again. */
  lemma {:induction false} DeadStays(offices: seq<Office>, events: seq<Event>, i: nat, j: nat, l: LeaseId)
    requires History(offices, events) && i <= j < |offices| && l in offices[i].store.leases
    requires !Live(offices[i].store.leases[l])
    ensures l in offices[j].store.leases && !Live(offices[j].store.leases[l])
  {
    hide Inv, IssuedInv, Happens;
    if i < j {
      DeadStays(offices, events, i, j - 1, l);
      HistoryKeeps(offices, events, 0, j - 1);
      LeasesMove(offices[j - 1], events[j - 1], offices[j]);
      assert Later(offices[j - 1].store.leases[l], offices[j].store.leases[l]);
    }
  }

  lemma LeasesMove(a: Office, e: Event, b: Office)
    requires Inv(a.store) && Happens(a, e, b)
    ensures Advances(a.store.leases, b.store.leases)
  {
    hide Inv, Readable, After, Enabled, Publishes;
    if e.Transaction? {
      AnyStepKeeps(a.store, e.op);
    }
  }

  /** The same grant under the next revision, ending one second from now. */
  function CutShort(a: Access, clock: int): Access { a.(revision := a.revision + 1, expires := clock + 1) }

  /** It happens: after any history with a row that still lasts, cutting its device's grant short is accepted, and
      the row stays stored and outlives the grant. */
  lemma PublicationCanOutliveGrant(offices: seq<Office>, events: seq<Event>, k: Entry, clock: int)
    requires History(offices, events) && k in offices[|events|].issued.table
    requires offices[|events|].store.now <= clock && 0 <= clock
    requires clock + 1 < offices[|events|].issued.table[k].envelope.expiresAt
    ensures var o := offices[|events|];
      && k.0 in o.store.leases && o.store.leases[k.0].device in o.store.access && Readable(o.store)
      && var d := o.store.leases[k.0].device;
         var e := Transaction(DoAccess(clock, d, CutShort(o.store.access[d], clock)));
         var after := Office(After(o.store, e.op), o.issued);
         History(offices + [after], events + [e]) && Outlives(after, k)
  {
    hide Inv, IssuedInv, After;
    var n := |events|;
    var o := offices[n];
    HistoryKeeps(offices, events, 0, n);
    SupersededBy(offices, events, n, k);
    LatestIsKnown(o.store);
    var d := o.store.leases[k.0].device;
    var a := CutShort(o.store.access[d], clock);
    var e := Transaction(DoAccess(clock, d, a));
    var after := Office(After(o.store, e.op), o.issued);
    CuttingShortIsAccepted(o.store, d, clock);
    assert Happens(o, e, after);
    HistoryGrows(offices, events, e, after);
  }

  lemma HistoryGrows(offices: seq<Office>, events: seq<Event>, e: Event, after: Office)
    requires History(offices, events) && Happens(offices[|events|], e, after)
    ensures History(offices + [after], events + [e])
  {
    hide Happens, Inv, IssuedInv;
    var os, es := offices + [after], events + [e];
    forall i | 0 <= i < |es| ensures Happens(os[i], es[i], os[i + 1]) {
      if i < |events| {
        assert os[i] == offices[i] && os[i + 1] == offices[i + 1];
      }
    }
  }

  lemma CuttingShortIsAccepted(s: Store, d: DeviceId, clock: int)
    requires Inv(s) && Readable(s) && d in s.access && s.now <= clock && 0 <= clock
    ensures var t := After(s, DoAccess(clock, d, CutShort(s.access[d], clock)));
      && t.leases.Keys == s.leases.Keys && (forall l | l in s.leases :: t.leases[l].device == s.leases[l].device)
      && d in t.access && t.access[d].expires == clock + 1
  {
    hide Readable, RegistryHistory, Placed, UniqueIndexes, Tickets, Lifecycle, Curtailed;
  }

  // ---------------------------------------------------------------- the publisher

  function Matching(es: seq<Endpoint>, t: Transport, v: Version): seq<Endpoint> {
    if es == [] then []
    else Matching(es[..|es| - 1], t, v)
         + (if es[|es| - 1].transport == t && es[|es| - 1].version == v then [es[|es| - 1]] else [])
  }

  lemma {:induction false} MatchingSound(es: seq<Endpoint>, t: Transport, v: Version)
    ensures forall e | e in Matching(es, t, v) :: e in es && e.transport == t && e.version == v
  {
    if es != [] {
      MatchingSound(es[..|es| - 1], t, v);
    }
  }

  /** A new envelope can be issued: one endpoint of the lease's snapshot fits, the counter has
      room, and signing ends before the envelope would expire. */
  ghost predicate Fresh(s: Store, p: Issued, q: Ask, now: int, after: int, slow: bool)
    requires q.lease in s.leases && q.device in s.access
  {
    var lease, access := s.leases[q.lease], s.access[q.device];
    && lease.registryRevision in s.registries && Has(s.registries[lease.registryRevision], lease.gateway)
    && var endpoints := Find(s.registries[lease.registryRevision], lease.gateway).endpoints;
    && |Matching(endpoints, lease.transport, lease.version)| == 1
    && Counter(p, q.device) < MAX_REVISION
    && now <= after < Min(lease.expires, access.expires) && !slow
  }

  /** The conditions a publish meets, in the order it checks them. */
  ghost predicate Accepts(s: Store, p: Issued, q: Ask, now: int, after: int, slow: bool) {
    && Publishable(s, q, now) && p.authority == Some(q.signer)
    && (forall k | NewestOf(p, q.lease, k) :: p.table[k].policy == q.policy && p.table[k].signer == q.signer)
    && var k := (q.lease, s.access[q.device].revision);
       if NewestOf(p, q.lease, k) then p.table[k].previousHash == q.previousHash
       else Fresh(s, p, q, now, after, slow)
  }

  lemma {:induction false} MatchingOne(es: seq<Endpoint>, t: Transport, v: Version, i: nat)
    requires i < |es| && es[i].transport == t && es[i].version == v
    requires forall j | 0 <= j < |es| && j != i :: es[j].transport != t || es[j].version != v
    ensures Matching(es, t, v) == [es[i]]
  {
    var n := |es| - 1;
    if i < n {
      MatchingOne(es[..n], t, v, i);
    } else {
      MatchingNone(es[..n], t, v);
    }
  }

  lemma {:induction false} MatchingNone(es: seq<Endpoint>, t: Transport, v: Version)
    requires forall j | 0 <= j < |es| :: es[j].transport != t || es[j].version != v
    ensures Matching(es, t, v) == []
  {
    if es != [] {
      MatchingNone(es[..|es| - 1], t, v);
    }
  }

  /** One endpoint of the lease's own snapshot, and no other, has its transport and version. */
  ghost predicate OneEndpoint(s: Store, l: LeaseId, i: nat)
    requires l in s.leases
  {
    var x := s.leases[l];
    && x.registryRevision in s.registries && Has(s.registries[x.registryRevision], x.gateway)
    && var es := Find(s.registries[x.registryRevision], x.gateway).endpoints;
    && i < |es| && es[i].transport == x.transport && es[i].version == x.version
    && forall j | 0 <= j < |es| && j != i :: es[j].transport != x.transport || es[j].version != x.version
  }

  /** In every history, a ready lease in force that has not been published can be: signed in time by the authority, it
      is accepted, and what it leaves can be fetched. */
  lemma ReadyCanBePublished(offices: seq<Office>, events: seq<Event>, q: Ask, now: int, after: int, i: nat)
    returns (next: Office, e: Envelope)
    requires History(offices, events)
    requires var s, p := offices[|events|].store, offices[|events|].issued;
      && q.lease in s.leases && s.leases[q.lease].device == q.device && s.leases[q.lease].state.Ready?
      && q.device in s.access && !s.access[q.device].revoked && s.now <= now <= after
      && after < s.leases[q.lease].expires && after < s.access[q.device].expires
      && p.authority == Some(q.signer) && (forall k | k in p.table :: k.0 != q.lease)
      && Counter(p, q.device) < MAX_REVISION && OneEndpoint(s, q.lease, i)
    ensures Accepts(offices[|events|].store, offices[|events|].issued, q, now, after, false)
    ensures History(offices + [next], events + [Event.Publish(q, now, e)])
    ensures Retrieve(next.store, next.issued, q.lease, q.device, after) == Some(e)
  {
    hide Inv, IssuedInv, Readable, Has, Find;
    var o := offices[|events|];
    var s, p := o.store, o.issued;
    HistoryKeeps(offices, events, 0, |events|);
    LatestIsKnown(s);
    var x, a := s.leases[q.lease], s.access[q.device];
    var es := Find(s.registries[x.registryRevision], x.gateway).endpoints;
    MatchingOne(es, x.transport, x.version, i);
    var revision := Counter(p, q.device) + 1;
    e := Envelope(q.lease, revision, q.device, a.key, q.previousHash, q.signer, q.policy, now,
                  Min(x.expires, a.expires), x.gateway, es[i], x.address);
    var row := Publication(revision, q.signer, q.policy, q.previousHash, e);
    assert NewRow(s, p, q, now, row);
    var k := (q.lease, a.revision);
    next := Office(s.(now := after),
                   p.(counters := p.counters[q.device := revision], table := p.table[k := row]));
    assert Publishes(s, p, q, now, next.issued, e);
    assert Happens(o, Event.Publish(q, now, e), next);
    HistoryGrows(offices, events, Event.Publish(q, now, e), next);
  }

  class Publisher {
    const store: LeaseDatabase
    var authority: Option<nat>
    var counters: map<DeviceId, nat>
    var table: map<Entry, Publication>

    constructor (store: LeaseDatabase, authority: Option<nat>)
      ensures this.store == store && View() == Issued(authority, map[], map[])
    {
      this.store, this.authority, counters, table := store, authority, map[], map[];
    }

    ghost function View(): Issued
      reads this
    {
      Issued(authority, counters, table)
    }

    /** The lease's publication of the highest revision. */
    method Newest(l: LeaseId) returns (r: Option<Entry>)
      ensures r.None? <==> NoneOf(View(), l)
      ensures r.Some? ==> NewestOf(View(), l, r.value)
    {
      r := None;
      var rest := table.Keys;
      while rest != {}
        invariant rest <= table.Keys
        invariant r.None? ==> forall m | m in table && m !in rest :: m.0 != l
        invariant r.Some? ==> r.value in table && r.value.0 == l
                              && forall m | m in table && m !in rest && m.0 == l ::
                                   table[m].revision <= table[r.value].revision
        decreases |rest|
      {
        var m :| m in rest;
        if m.0 == l && (r.None? || table[r.value].revision < table[m].revision) {
          r := Some(m);
        }
        rest := rest - {m};
      }
    }

    static method Endpoints(es: seq<Endpoint>, t: Transport, v: Version) returns (found: seq<Endpoint>)
      ensures found == Matching(es, t, v)
    {
      found := [];
      for i := 0 to |es|
        invariant found == Matching(es[..i], t, v)
      {
        assert es[..i + 1][..i] == es[..i];
        if es[i].transport == t && es[i].version == v {
          found := found + [es[i]];
        }
      }
      assert es[..|es|] == es;
    }

    /** The row for a first publication under the current access revision, if it can be signed in time. */
    method Compose(q: Ask, now: int, after: int, slow: bool) returns (r: Option<Publication>)
      requires Inv(store.View()) && Publishable(store.View(), q, now)
      ensures r.Some? <==> Fresh(store.View(), View(), q, now, after, slow)
      ensures r.Some? ==> NewRow(store.View(), View(), q, now, r.value)
    {
      hide UniqueIndexes, ValidRegistry, Retains, HostAddress, Compatible;
      var lease, access := store.leases[q.lease], store.access[q.device];
      assert Placed(store.View(), lease);
      var endpoints := Find(store.registries[lease.registryRevision], lease.gateway).endpoints;
      var found := Endpoints(endpoints, lease.transport, lease.version);
      var last := if q.device in counters then counters[q.device] else 0;
      var expires := Min(lease.expires, access.expires);
      if |found| != 1 || last >= MAX_REVISION || !(now <= after < expires) || slow {
        return None;
      }
      MatchingSound(endpoints, lease.transport, lease.version);
      return Some(Publication(last + 1, q.signer, q.policy, q.previousHash,
        Envelope(q.lease, last + 1, q.device, access.key, q.previousHash, q.signer, q.policy, now, expires,
                 lease.gateway, found[0], lease.address)));
    }

    /** Publish for a ready lease: the stored envelope when this access revision already has one,
        else a new one under the device's next revision.  `after` is the clock after signing. */
    method Publish(q: Ask, now: int, after: int, slow: bool) returns (r: Option<Envelope>)
      requires Inv(store.View()) && IssuedInv(store.View(), View())
      modifies this, store`now
      ensures Inv(store.View()) && IssuedInv(store.View(), View())
      ensures r.Some? <==> Accepts(old(store.View()), old(View()), q, now, after, slow)
      ensures r.Some? ==>
        Happens(Office(old(store.View()), old(View())), Event.Publish(q, now, r.value), Office(store.View(), View()))
      ensures r.None? ==> View() == old(View()) && store.View() == old(store.View())
    {
      hide Inv, IssuedInv, NewestOf, Fresh, NewRow, RegistryHistory;
      ghost var s, p := store.View(), View();
      if now < store.now || q.lease !in store.leases || q.device !in store.access || store.access[q.device].revoked
         || store.access[q.device].expires <= now {
        return None;
      }
      var lease, access := store.leases[q.lease], store.access[q.device];
      if lease.device != q.device || !lease.state.Ready? || lease.expires <= now || authority != Some(q.signer) {
        return None;
      }
      var k := (q.lease, access.revision);
      var newest := Newest(q.lease);
      NewestAgree(s, p, q.lease, newest);
      if newest.Some? && (table[newest.value].policy != q.policy || table[newest.value].signer != q.signer) {
        return None;
      }
      var stamp := now;
      if newest.Some? && newest.value.1 == access.revision {
        assert newest.value == k && NewestOf(p, q.lease, k);
        if table[k].previousHash != q.previousHash {
          return None;
        }
        r := Some(table[k].envelope);
      } else {
        assert !NewestOf(p, q.lease, k);
        var row := Compose(q, now, after, slow);
        if row.None? {
          return None;
        }
        counters, table := counters[q.device := row.value.revision], table[k := row.value];
        r, stamp := Some(row.value.envelope), after;
        FreshIsLater(s, p, q, now, after, slow);
      }
      CommitKeeps(s, p, q, now, View(), r.value, stamp);
      LatestIsKnown(s);
      store.now := stamp;
    }
  }

  lemma FreshIsLater(s: Store, p: Issued, q: Ask, now: int, after: int, slow: bool)
    requires Publishable(s, q, now) && Fresh(s, p, q, now, after, slow)
    ensures now <= after
  {
  }

  lemma CommitKeeps(s: Store, p: Issued, q: Ask, now: int, p': Issued, e: Envelope, stamp: int)
    requires Inv(s) && IssuedInv(s, p) && Publishes(s, p, q, now, p', e) && now <= stamp
    ensures Inv(s.(now := stamp)) && IssuedInv(s.(now := stamp), p')
  {
    hide Inv, RowSound, Ordered, NewRow;
    PublishKeepsIssued(s, p, q, now, p', e);
    ClockKeeps(s, stamp);
    NowOnly(s, stamp, p');
  }

  lemma NewestAgree(s: Store, p: Issued, l: LeaseId, r: Option<Entry>)
    requires IssuedInv(s, p) && (r.None? <==> NoneOf(p, l)) && (r.Some? ==> NewestOf(p, l, r.value))
    ensures forall k :: NewestOf(p, l, k) <==> r == Some(k)
  {
    forall k | NewestOf(p, l, k) ensures r == Some(k) {
      if r.Some? {
        assert RowSound(s, p, k) && RowSound(s, p, r.value) && Ordered(s, p, k, r.value) && Ordered(s, p, r.value, k);
      }
    }
  }
}
