/** One reconciliation step: from a pending lease through the gateway's fence back to the store. */
module FleetWorker {
  import opened FleetTypes
  import opened FleetStore
  import opened FleetAllocation
  import opened FleetPeers
  import opened FleetGateway
  import opened FleetProtocol
  import opened FleetDatabase
  import opened Options

  datatype WorkResult = Readied | Removed | StateChanged | Retry

  /** The gateway's journal shows the lease installed with exactly its address and key. */
  ghost predicate Installed(journal: map<LeaseId, Row>, l: LeaseId, lease: Lease, key: Key) {
    && l in journal && journal[l].done && journal[l].held && journal[l].command.operation.Present?
    && journal[l].command.address == lease.address && journal[l].command.key == key
  }

  /** The work can be fetched, the gateway answers it with a receipt, and the store then takes the confirmation. */
  ghost predicate Settles(s: Store, self: Gateway, n: Node, l: LeaseId, x: Lease, fetchAt: int, runAt: Readings,
      confirmAt: int, fault: Fault)
    requires l in s.leases
  {
    var work, later := WorkItem(s, fetchAt, l, x.generation), s.(now := fetchAt);
    && work.Ok?
    && var c := CommandFor(l, x, work.value);
       var verdict := Admit(self, n, c, false, runAt);
    && (verdict.Replay? || verdict.Fence? || (verdict.Proceed? && fault.Clean? && Conflicts(n.peers, c).None?))
    && if c.operation.Present? then MarkReady(later, confirmAt, l, x.generation).Ok?
       else ConfirmRemoved(later, confirmAt, l, x.generation).Ok?
  }

  class Worker {
    const store: LeaseDatabase
    const gateway: FencedGateway

    constructor (store: LeaseDatabase, gateway: FencedGateway)
      ensures this.store == store && this.gateway == gateway
    {
      this.store, this.gateway := store, gateway;
    }

    /** Fetch the work, send the command to the gateway, and tell the store what the receipt
        proves.  `lost` is a reply that never arrives.  The store only learns `ready` when the
        journal shows the install, and `released` when the journal shows the finished removal;
        with any other result no lease has changed. */
    method Process(l: LeaseId, snapshot: Lease, fetchAt: int, runAt: Readings, confirmAt: int, fault: Fault, lost: bool)
      returns (result: WorkResult)
      requires Inv(store.View()) && JournalInv(gateway.journal)
      requires l in store.leases && EarlierRead(snapshot, store.leases[l]) && snapshot.gateway == gateway.self.id
      modifies store, gateway, gateway.backend
      ensures Inv(store.View()) && JournalInv(gateway.journal) && Evolves(old(store.View()), store.View())
      ensures result.Readied? ==>
                && store.leases == old(store.leases)[l := old(store.leases[l]).(state := Ready)]
                && snapshot.device in store.access
                && Installed(gateway.journal, l, snapshot, store.access[snapshot.device].key)
      ensures result.Removed? ==>
                && store.leases == old(store.leases)[l := old(store.leases[l]).(state := Released)]
                && Fenced(gateway.journal, l) && !gateway.journal[l].held
      ensures !result.Readied? && !result.Removed? ==> store.leases == old(store.leases)
      ensures (result.Readied? || result.Removed?) <==>
        && !lost
        && Settles(old(store.View()), gateway.self, old(gateway.View()), l, snapshot, fetchAt, runAt, confirmAt, fault)
      ensures store.access == old(store.access)
    {
      hide Inv, Evolves, Admit, JournalInv;
      ghost var start := store.View();
      EvolvesReflexive(start);
      var fetched := store.FetchWork(l, snapshot.generation, fetchAt);
      if fetched.Err? {
        return StateChanged;
      }
      ghost var mid := store.View();
      var c := CommandFor(l, snapshot, fetched.value);
      var answer := gateway.Execute(c, false, runAt, fault);
      if lost || answer != Receipt(c) {
        return Retry;
      }
      var confirmed;
      if c.operation.Present? {
        confirmed := store.MarkReady(l, snapshot.generation, confirmAt);
        result := Readied;
      } else {
        confirmed := store.ConfirmRemoved(l, snapshot.generation, confirmAt);
        result := Removed;
      }
      Chained(start, mid, store.View());
      if confirmed.Err? {
        return StateChanged;
      }
    }
  }

  /** No lease appears while a work item is processed, so the two halves chain. */
  lemma Chained(a: Store, b: Store, c: Store)
    requires Evolves(a, b) && Evolves(b, c) && a.leases.Keys == b.leases.Keys == c.leases.Keys && Inv(c)
    ensures Evolves(a, c)
  {
    hide Placed, UniqueIndexes, RegistryHistory;
    forall l | l in a.leases ensures Later(a.leases[l], c.leases[l]) {
      assert Later(a.leases[l], b.leases[l]) && Later(b.leases[l], c.leases[l]);
    }
  }
}
