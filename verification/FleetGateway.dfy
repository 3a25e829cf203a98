/** The gateway-side fence: a durable journal that commits what is intended before the peer table
    is touched, and what recovery restores from it. */
module FleetGateway {
  import opened FleetTypes
  import opened FleetRegistry
  import opened FleetPeers
  import opened Options

  /** A journal row: the last command admitted for a lease, whether it holds its address and key,
      and whether its effect has been confirmed. */
  datatype Row = Row(command: Command, held: bool, done: bool)

  datatype Node = Node(lastNow: int, journal: map<LeaseId, Row>, peers: Table)

  predicate ValidCommand(c: Command) {
    && c.generation == (if c.operation.Present? then 1 else 2)
    && !c.transport.VlessReality? && VersionMatches(c.transport, c.version)
  }

  /** Everything but the generation and operation. */
  predicate SameBinding(a: Command, b: Command) {
    a.(generation := b.generation, operation := b.operation) == b
  }

  predicate ForGateway(self: Gateway, c: Command) {
    && c.gateway == self.id && HostAddress(self.pool, c.address)
    && exists e | e in self.endpoints :: e.transport == c.transport && e.version == c.version
  }

  predicate Clashes(row: Row, c: Command) {
    row.held && row.command.lease != c.lease && (row.command.address == c.address || row.command.key == c.key)
  }

  /** The partial unique indexes on held addresses and held keys would be violated. */
  predicate ResourceHeld(journal: map<LeaseId, Row>, c: Command) {
    exists l | l in journal :: Clashes(journal[l], c)
  }

  /** The clock as an execution reads it: at the gate, against the expiry, and for the journal. */
  datatype Readings = Readings(gate: int, expiry: int, stamp: int)

  /** How the fence answers a command before anything external happens. */
  datatype Verdict =
    | Refuse(code: Code)     // nothing changes
    | Replay                 // already done: the receipt again, nothing changes
    | Fence                  // a removal of something never installed: recorded as done
    | Proceed(held: bool)    // intent recorded; the peer effect follows

  function Admit(self: Gateway, n: Node, c: Command, restore: bool, clock: Readings): Verdict {
    var known := c.lease in n.journal;
    if !ValidCommand(c) then Refuse(InvalidRequest)
    else if !ForGateway(self, c) then Refuse(GatewayBinding)
    else if clock.gate < n.lastNow then Refuse(GatewayState)
    else if known && (!SameBinding(n.journal[c.lease].command, c)
                      || n.journal[c.lease].command.generation > c.generation) then Refuse(StaleOrConflicting)
    else if c.operation.Present? && c.expires <= clock.expiry then Refuse(ExpiredCommand)
    else if known && n.journal[c.lease].command.generation == c.generation && n.journal[c.lease].command != c then
      Refuse(CommandConflict)
    else if known && n.journal[c.lease].command == c && n.journal[c.lease].done
            && !(restore && c.operation.Present?) then Replay
    else if !known && c.operation.Present? && Preflight(n.peers, c).Some? then Refuse(Preflight(n.peers, c).value)
    else
      var held := c.operation.Present? || (known && n.journal[c.lease].held);
      if held && ResourceHeld(n.journal, c) then Refuse(ResourceOwned)
      else if !known && c.operation.Absent? then Fence
      else Proceed(held)
  }

  function WithIntent(n: Node, c: Command, held: bool, done: bool, clock: Readings): Node {
    n.(lastNow := clock.stamp, journal := n.journal[c.lease := Row(c, held, done)])
  }

  function WithEffect(n: Node, c: Command): Node {
    n.(peers := Applied(n.peers, c))
  }

  function WithDone(n: Node, c: Command): Node {
    n.(journal := n.journal[c.lease := Row(c, c.operation.Present?, true)])
  }

  /** A lease's row holds its address and key from the first install until a removal is done. */
  ghost predicate RowInv(l: LeaseId, row: Row) {
    && row.command.lease == l && ValidCommand(row.command)
    && row.held == (row.command.operation.Present? || !row.done)
  }

  ghost predicate HeldApart(journal: map<LeaseId, Row>) {
    forall l, m | l in journal && m in journal && l != m && journal[l].held && journal[m].held ::
      journal[l].command.address != journal[m].command.address && journal[l].command.key != journal[m].command.key
  }

  ghost predicate JournalInv(journal: map<LeaseId, Row>) {
    (forall l | l in journal :: RowInv(l, journal[l])) && HeldApart(journal)
  }

  /** Whatever a command's fate, and wherever the execution stops, the journal stays sound. */
  lemma AdmittedKeepsJournal(self: Gateway, n: Node, c: Command, restore: bool, clock: Readings)
    requires JournalInv(n.journal)
    ensures var v := Admit(self, n, c, restore, clock);
            && (v.Fence? ==> JournalInv(WithIntent(n, c, false, true, clock).journal))
            && (v.Proceed? ==> v.held && JournalInv(WithIntent(n, c, v.held, false, clock).journal)
                               && JournalInv(WithDone(WithIntent(n, c, v.held, false, clock), c).journal))
  {
    var v := Admit(self, n, c, restore, clock);
    if c.lease in n.journal {
      assert RowInv(c.lease, n.journal[c.lease]);
    }
    if v.Proceed? {
      forall l | l in n.journal && l != c.lease && n.journal[l].held
        ensures n.journal[l].command.address != c.address && n.journal[l].command.key != c.key
      {
        assert RowInv(l, n.journal[l]);
        assert !Clashes(n.journal[l], c);
      }
    }
  }

  datatype Answer = Receipt(command: Command) | Rejected(code: Code) | Broken

  /** Rows that recovery must redo. */
  predicate Pending(row: Row) { row.held || !row.done }

  /** Removals first, then by lease. */
  predicate Before(a: Command, b: Command) {
    a.generation > b.generation || (a.generation == b.generation && a.lease < b.lease)
  }

  /** A row after recovery: its effect is confirmed, and only an install still holds resources. */
  function Settled(row: Row): Row {
    Row(row.command, row.command.operation.Present?, true)
  }

  /** The journal with the listed rows settled. */
  ghost predicate SettledRows(before: map<LeaseId, Row>, after: map<LeaseId, Row>, ids: seq<LeaseId>) {
    && after.Keys == before.Keys
    && forall l | l in before :: after[l] == if l in ids then Settled(before[l]) else before[l]
  }

  /** One peer entry after the listed rows have been redone on table `before`. */
  ghost predicate SettledPeer(journal: map<LeaseId, Row>, before: Table, after: Table, ids: seq<LeaseId>, p: Peer)
    requires forall l | l in ids :: l in journal
  {
    && (forall l | l in ids && PeerOf(journal[l].command) == p ::
          if journal[l].command.operation.Present? then p in after && after[p] == {HostRoute(journal[l].command)}
          else p !in after)
    && ((forall l | l in ids :: PeerOf(journal[l].command) != p) ==>
          (p in after <==> p in before) && (p in after ==> after[p] == before[p]))
  }

  /** Redoing one more pending row extends what recovery has settled. */
  lemma SettleOne(j0: map<LeaseId, Row>, t0: Table, j: map<LeaseId, Row>, t: Table, ids: seq<LeaseId>, l: LeaseId)
    requires JournalInv(j0) && l in j0 && l !in ids && Pending(j0[l])
    requires forall m | m in ids :: m in j0 && Pending(j0[m])
    requires SettledRows(j0, j, ids) && Conflicts(t, j0[l].command).None?
    requires forall p :: SettledPeer(j0, t0, t, ids, p)
    ensures SettledRows(j0, j[l := Settled(j0[l])], ids + [l])
    ensures forall p :: SettledPeer(j0, t0, Applied(t, j0[l].command), ids + [l], p)
  {
    var c := j0[l].command;
    forall p ensures SettledPeer(j0, t0, Applied(t, c), ids + [l], p) {
      assert SettledPeer(j0, t0, t, ids, p);
      assert l in ids + [l];
      forall m | m in ids ensures m in ids + [l] && PeerOf(j0[m].command) != PeerOf(c) {
        assert RowInv(m, j0[m]) && RowInv(l, j0[l]);
      }
      forall m | m in ids + [l] ensures m in ids || m == l {}
    }
  }

  /** What a finished recovery promises of the journal and of every peer entry. */
  ghost predicate Recovered(j0: map<LeaseId, Row>, t0: Table, j: map<LeaseId, Row>, t: Table) {
    && j.Keys == j0.Keys
    && (forall l | l in j0 :: j[l] == if Pending(j0[l]) then Settled(j0[l]) else j0[l])
    && (forall l | l in j0 && j0[l].command.operation.Present? ::
          PeerOf(j0[l].command) in t && t[PeerOf(j0[l].command)] == {HostRoute(j0[l].command)})
    && (forall l | l in j0 && j0[l].held && j0[l].command.operation.Absent? :: PeerOf(j0[l].command) !in t)
    && (forall p | forall l | l in j0 && j0[l].held :: PeerOf(j0[l].command) != p ::
          (p in t <==> p in t0) && (p in t ==> t[p] == t0[p]))
  }

  lemma AllSettled(j0: map<LeaseId, Row>, t0: Table, j: map<LeaseId, Row>, t: Table, ids: seq<LeaseId>)
    requires JournalInv(j0)
    requires forall l :: l in ids <==> l in j0 && Pending(j0[l])
    requires SettledRows(j0, j, ids)
    requires forall p :: SettledPeer(j0, t0, t, ids, p)
    ensures Recovered(j0, t0, j, t)
  {
    forall l | l in j0 ensures Pending(j0[l]) <==> j0[l].held {
      assert RowInv(l, j0[l]);
    }
    forall l | l in j0 && j0[l].held ensures l in ids && SettledPeer(j0, t0, t, ids, PeerOf(j0[l].command)) {}
    forall l | l in j0 && j0[l].command.operation.Present? ensures j0[l].held {
      assert RowInv(l, j0[l]);
    }
    forall p | forall l | l in j0 && j0[l].held :: PeerOf(j0[l].command) != p
      ensures (p in t <==> p in t0) && (p in t ==> t[p] == t0[p])
    {
      assert SettledPeer(j0, t0, t, ids, p);
    }
  }

  class FencedGateway {
    const self: Gateway
    const backend: WGPeerBackend
    var lastNow: int
    var journal: map<LeaseId, Row>

    constructor (gateway: Gateway, backend: WGPeerBackend, now: int)
      ensures this.self == gateway && this.backend == backend
      ensures lastNow == now && journal == map[] && JournalInv(journal)
    {
      self, this.backend, lastNow, journal := gateway, backend, now, map[];
    }

    ghost function View(): Node
      reads this, backend
    {
      Node(lastNow, journal, backend.peers)
    }

    /** One execution under the gate.  The intent is committed before the peer table is touched;
        an execution that stops half-way leaves the intent, and at most this command's effect. */
    method Execute(c: Command, restore: bool, clock: Readings, fault: Fault) returns (r: Answer)
      requires JournalInv(journal)
      modifies this, backend
      ensures JournalInv(journal)
      ensures match Admit(self, old(View()), c, restore, clock)
              case Refuse(code) => r == Rejected(code) && View() == old(View())
              case Replay => r == Receipt(c) && View() == old(View())
              case Fence => r == Receipt(c) && View() == WithIntent(old(View()), c, false, true, clock)
              case Proceed(held) =>
                var intended := WithIntent(old(View()), c, held, false, clock);
                if fault.Clean? && Conflicts(old(backend.peers), c).None?
                then r == Receipt(c) && View() == WithDone(WithEffect(intended, c), c)
                else r.Broken? && (View() == intended || View() == WithEffect(intended, c))
      ensures r.Receipt? ==> r.command == c && c.lease in journal && journal[c.lease].done
                             && journal[c.lease].command == c && journal[c.lease].held == c.operation.Present?
    {
      var seen := c.lease in journal;
      AdmittedKeepsJournal(self, View(), c, restore, clock);
      if !ValidCommand(c) {
        return Rejected(InvalidRequest);
      }
      if !ForGateway(self, c) {
        return Rejected(GatewayBinding);
      }
      if clock.gate < lastNow {
        return Rejected(GatewayState);
      }
      if seen && (!SameBinding(journal[c.lease].command, c) || journal[c.lease].command.generation > c.generation) {
        return Rejected(StaleOrConflicting);
      }
      if c.operation.Present? && c.expires <= clock.expiry {
        return Rejected(ExpiredCommand);
      }
      if seen && journal[c.lease].command.generation == c.generation {
        if journal[c.lease].command != c {
          return Rejected(CommandConflict);
        }
        if journal[c.lease].done && !(restore && c.operation.Present?) {
          assert RowInv(c.lease, journal[c.lease]);
          return Receipt(c);
        }
      }
      var neverInstalled := !seen && c.operation.Absent?;
      if !seen && c.operation.Present? {
        var refusal := Preflight(backend.peers, c);
        if refusal.Some? {
          return Rejected(refusal.value);
        }
      }
      var held := c.operation.Present? || (seen && journal[c.lease].held);
      if held && ResourceHeld(journal, c) {
        return Rejected(ResourceOwned);
      }
      lastNow, journal := clock.stamp, journal[c.lease := Row(c, held, neverInstalled)];
      if neverInstalled {
        return Receipt(c);
      }
      var ok := backend.Ensure(c, fault);
      if !ok {
        return Broken;
      }
      journal := journal[c.lease := Row(c, c.operation.Present?, true)];
      return Receipt(c);
    }

    /** The row to redo first among `rest`. */
    static method Foremost(rows: map<LeaseId, Row>, rest: set<LeaseId>) returns (first: LeaseId)
      requires JournalInv(rows) && rest <= rows.Keys && rest != {}
      ensures first in rest && forall m | m in rest && m != first :: Before(rows[first].command, rows[m].command)
    {
      hide HeldApart, ValidCommand;
      first :| first in rest;
      var others := rest - {first};
      while others != {}
        invariant others <= rest && first in rest
        invariant forall m | m in rest && m !in others && m != first :: Before(rows[first].command, rows[m].command)
        decreases |others|
      {
        var m :| m in others;
        assert RowInv(m, rows[m]) && RowInv(first, rows[first]);
        if Before(rows[m].command, rows[first].command) {
          first := m;
        }
        others := others - {m};
      }
    }

    /** The pending rows, removals before installs and then by lease. */
    static method RecoveryOrder(rows: map<LeaseId, Row>) returns (order: seq<LeaseId>)
      requires JournalInv(rows)
      ensures forall l :: l in order <==> l in rows && Pending(rows[l])
      ensures forall i, j | 0 <= i < j < |order| :: Before(rows[order[i]].command, rows[order[j]].command)
    {
      hide JournalInv, Pending, Before;
      order := [];
      var rest := set l | l in rows && Pending(rows[l]);
      while rest != {}
        invariant forall l :: l in order || l in rest <==> l in rows && Pending(rows[l])
        invariant forall i | 0 <= i < |order| :: order[i] in rows
        invariant forall i, j | 0 <= i < j < |order| :: Before(rows[order[i]].command, rows[order[j]].command)
        invariant forall i, m | 0 <= i < |order| && m in rest :: Before(rows[order[i]].command, rows[m].command)
        decreases |rest|
      {
        var first := Foremost(rows, rest);
        order := order + [first];
        rest := rest - {first};
      }
    }

    /** Executes one pending row again, as part of a recovery that has settled the rows `ids`. */
    method Redo(l: LeaseId, clock: Readings, fault: Fault,
                ghost j0: map<LeaseId, Row>, ghost t0: Table, ghost ids: seq<LeaseId>)
      returns (ok: bool)
      requires JournalInv(journal) && JournalInv(j0) && l in j0 && l !in ids && Pending(j0[l])
      requires forall m | m in ids :: m in j0 && Pending(j0[m])
      requires SettledRows(j0, journal, ids) && forall p :: SettledPeer(j0, t0, backend.peers, ids, p)
      modifies this, backend
      ensures JournalInv(journal)
      ensures ok ==> SettledRows(j0, journal, ids + [l]) && forall p :: SettledPeer(j0, t0, backend.peers, ids + [l], p)
      ensures ok ==> lastNow == clock.stamp && backend.peers == Applied(old(backend.peers), j0[l].command)
      ensures ok <==> fault.Clean? && CanRedo(self, old(View()), j0[l].command, clock)
    {
      hide SettledPeer, JournalInv, Admit, Pending, Conflicts, Applied;
      ghost var j, t := journal, backend.peers;
      PendingProceeds(self, View(), l, clock);
      var answer := Execute(journal[l].command, true, clock, fault);
      ok := answer.Receipt?;
      if ok {
        SettleOne(j0, t0, j, t, ids, l);
      }
    }

    /** Redo every pending row.  A normal return means the managed peers are exactly those of the
        install rows, every pending removal is done and unheld, and no other peer moved. */
    method Recover(now: int, clocks: nat -> Readings, faults: nat -> Fault) returns (ok: bool)
      requires JournalInv(journal)
      modifies this, backend
      ensures JournalInv(journal)
      ensures ok ==> Recovered(old(journal), old(backend.peers), journal, backend.peers)
      ensures (&& old(lastNow) <= now && Steady(now, clocks) && (forall i: nat :: faults(i).Clean?)
               && Recoverable(self, old(journal), old(backend.peers), clocks)) ==> ok
      ensures now < old(lastNow) ==> !ok && View() == old(View())
    {
      hide JournalInv, Admit, CanRedo, Conflicts, Applied, ForGateway, Pending, Recovered;
      if now < lastNow {
        return false;
      }
      var order := RecoveryOrder(journal);
      ghost var j0, t0 := journal, backend.peers;
      ghost var good := Steady(now, clocks) && Recoverable(self, j0, t0, clocks) && forall i: nat :: faults(i).Clean?;
      for i := 0 to |order|
        invariant JournalInv(journal)
        invariant SettledRows(j0, journal, order[..i])
        invariant forall p :: SettledPeer(j0, t0, backend.peers, order[..i], p)
        invariant good ==> lastNow <= clocks(i).gate
        invariant good ==> forall k | i <= k < |order| :: Conflicts(backend.peers, j0[order[k]].command).None?
      {
        assert order[i] in order && order[..i] + [order[i]] == order[..i + 1];
        ghost var t := backend.peers;
        if good {
          RedoCan(self, View(), order[i], clocks(i));
        }
        ok := Redo(order[i], clocks(i), faults(i), j0, t0, order[..i]);
        if !ok {
          return;
        }
        forall k | good && i < k < |order| ensures Conflicts(backend.peers, j0[order[k]].command).None? {
          StillNoConflict(j0, t, order[i], order[k]);
        }
      }
      assert order[..|order|] == order;
      AllSettled(j0, t0, journal, backend.peers, order);
      return true;
    }
  }

  /** The fence lets the row be redone, and nothing live is in its way. */
  ghost predicate CanRedo(self: Gateway, n: Node, c: Command, clock: Readings) {
    Admit(self, n, c, true, clock).Proceed? && Conflicts(n.peers, c).None?
  }

  /** The clock does not go back between the readings of a recovery. */
  ghost predicate Steady(now: int, clocks: nat -> Readings) {
    now <= clocks(0).gate && forall i: nat :: clocks(i).stamp <= clocks(i + 1).gate
  }

  /** Every pending row is this gateway's, meets no live conflict, and, if an install, has not expired. */
  ghost predicate Recoverable(self: Gateway, j: map<LeaseId, Row>, t: Table, clocks: nat -> Readings) {
    forall l | l in j && Pending(j[l]) ::
      && ForGateway(self, j[l].command) && Conflicts(t, j[l].command).None?
      && (j[l].command.operation.Present? ==> forall i: nat :: clocks(i).expiry < j[l].command.expires)
  }

  lemma RedoCan(self: Gateway, n: Node, l: LeaseId, clock: Readings)
    requires JournalInv(n.journal) && l in n.journal && Pending(n.journal[l]) && n.lastNow <= clock.gate
    requires ForGateway(self, n.journal[l].command) && Conflicts(n.peers, n.journal[l].command).None?
    requires n.journal[l].command.operation.Present? ==> clock.expiry < n.journal[l].command.expires
    ensures CanRedo(self, n, n.journal[l].command, clock)
  {
    hide ForGateway, Conflicts, ValidCommand;
    assert RowInv(l, n.journal[l]);
    forall m | m in n.journal ensures !Clashes(n.journal[m], n.journal[l].command) {
      assert RowInv(m, n.journal[m]);
    }
  }

  /** Redoing one pending row puts nothing in the way of another. */
  lemma StillNoConflict(j: map<LeaseId, Row>, t: Table, l: LeaseId, m: LeaseId)
    requires JournalInv(j) && l in j && m in j && l != m && Pending(j[l]) && Pending(j[m])
    requires Conflicts(t, j[m].command).None?
    ensures Conflicts(Applied(t, j[l].command), j[m].command).None?
  {
    hide ValidCommand;
    assert RowInv(l, j[l]) && RowInv(m, j[m]);
    var after, c := Applied(t, j[l].command), j[m].command;
    forall p | p in after ensures !Owns(after, p, c) {
      assert p in t ==> !Owns(t, p, c);
    }
  }

  /** Recovery never takes a pending row for done, and never for one it has not seen. */
  lemma PendingProceeds(self: Gateway, n: Node, l: LeaseId, clock: Readings)
    requires JournalInv(n.journal) && l in n.journal && Pending(n.journal[l])
    ensures n.journal[l].command.lease == l
    ensures var v := Admit(self, n, n.journal[l].command, true, clock); v.Refuse? || v.Proceed?
  {
    hide HeldApart, ResourceHeld, Preflight;
    assert RowInv(l, n.journal[l]);
  }
}
