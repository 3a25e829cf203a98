/** What the fleet gets done: commands that arrive in time are carried out, and leases reach ready and released.

    Safety says what never happens; these are the runs that do.
 */
module FleetProgress {
  import opened FleetTypes
  import opened FleetRegistry
  import opened FleetStore
  import opened FleetAllocation
  import opened FleetEffects
  import opened FleetPeers
  import opened FleetGateway
  import opened FleetProtocol
  import opened Options

  // ---------------------------------------------------------------- installs are timely

  /** The step began an install of the command before its expiry, by a clock not behind the gateway's. */
  ghost predicate TimelyBegin(s: System, step: Step, g: GatewayId, c: Command) {
    && step.Begin? && step.gateway == g && step.command == c && g in s.agents
    && s.agents[g].node.lastNow <= step.clock.gate && step.clock.expiry < c.expires
  }

  /** An install is journalled as intended only by a step that read the clock before its expiry. */
  lemma InstallIntentIsTimely(s: System, step: Step, t: System, g: GatewayId, l: LeaseId)
    requires Next(s, step, t) && g in s.agents && g in t.agents && l in t.agents[g].node.journal
    requires var row := t.agents[g].node.journal[l]; row.command.operation.Present? && !row.done
    requires l in s.agents[g].node.journal ==> s.agents[g].node.journal[l] != t.agents[g].node.journal[l]
    ensures TimelyBegin(s, step, g, t.agents[g].node.journal[l].command)
  {
    hide ForGateway, SameBinding, Preflight, ResourceHeld, Enabled, After, WorkItem, Conflicts, Readable;
  }

  /** In every run, behind every live peer is a step that began its install before the expiry. */
  lemma {:induction false} LivePeerWasTimely(states: seq<System>, steps: seq<Step>, n: nat, g: GatewayId, p: Peer)
    returns (k: nat)
    requires Execution(states, steps) && n < |states| && g in states[n].agents && p in states[n].agents[g].owners
    ensures k < n && steps[k].Begin? && TimelyBegin(states[k], steps[k], g, steps[k].command)
    ensures steps[k].command.operation.Present? && steps[k].command.lease == states[n].agents[g].owners[p]
    ensures PeerOf(steps[k].command) == p
  {
    hide Next;
    assert n > 0 ==> Next(states[n - 1], steps[n - 1], states[n]);
    OwnerStep(states[n - 1], steps[n - 1], states[n], g, p);
    if steps[n - 1].Effect? && steps[n - 1].gateway == g && PeerOf(states[n - 1].agents[g].phase.command) == p {
      k := IntentWasTimely(states, steps, n - 1, g);
    } else {
      k := LivePeerWasTimely(states, steps, n - 1, g, p);
    }
  }

  lemma OwnerStep(s: System, step: Step, t: System, g: GatewayId, p: Peer)
    requires Next(s, step, t) && g in t.agents && p in t.agents[g].owners
    ensures g in s.agents
    ensures var a, b := s.agents[g], t.agents[g];
      if step.Effect? && step.gateway == g && a.phase.Intended? && PeerOf(a.phase.command) == p
      then a.phase.command.operation.Present? && b.owners[p] == a.phase.command.lease
      else p in a.owners && a.owners[p] == b.owners[p]
    ensures step.Effect? && step.gateway == g ==> s.agents[g].phase.Intended?
  {
    hide Admit, Enabled, After, WorkItem, Conflicts, Readable, Applied;
  }

  lemma {:induction false} IntentWasTimely(states: seq<System>, steps: seq<Step>, n: nat, g: GatewayId) returns (k: nat)
    requires Execution(states, steps) && n < |states| && g in states[n].agents && states[n].agents[g].phase.Intended?
    requires states[n].agents[g].phase.command.operation.Present?
    ensures k < n && steps[k].Begin? && steps[k].command == states[n].agents[g].phase.command
    ensures TimelyBegin(states[k], steps[k], g, steps[k].command)
  {
    hide Next;
    assert n > 0 ==> Next(states[n - 1], steps[n - 1], states[n]);
    IntentStep(states[n - 1], steps[n - 1], states[n], g);
    if steps[n - 1].Begin? && TimelyBegin(states[n - 1], steps[n - 1], g, states[n].agents[g].phase.command) {
      k := n - 1;
    } else {
      k := IntentWasTimely(states, steps, n - 1, g);
    }
  }

  lemma IntentStep(s: System, step: Step, t: System, g: GatewayId)
    requires Next(s, step, t) && g in t.agents && t.agents[g].phase.Intended?
    requires t.agents[g].phase.command.operation.Present?
    ensures g in s.agents
    ensures || TimelyBegin(s, step, g, t.agents[g].phase.command)
            || s.agents[g].phase == t.agents[g].phase
  {
    hide ForGateway, SameBinding, Preflight, ResourceHeld, Enabled, After, WorkItem, Conflicts, Readable;
  }

  // ---------------------------------------------------------------- a command that arrives is carried out

  /** The gateway runs the pool and endpoints of the lease's own registry snapshot. */
  ghost predicate OwnGateway(s: System, l: LeaseId) {
    && l in s.store.leases
    && var x := s.store.leases[l];
    && x.gateway in s.agents && x.registryRevision in s.store.registries
    && Has(s.store.registries[x.registryRevision], x.gateway)
    && var node := Find(s.store.registries[x.registryRevision], x.gateway);
    && s.agents[x.gateway].self.pool == node.pool && s.agents[x.gateway].self.endpoints == node.endpoints
  }

  /** No foreign entry of the interface is on the command's key or over its address. */
  ghost predicate Unobstructed(a: Agent, c: Command) {
    forall p | p in a.foreign && p in a.node.peers && p.interface == PeerOf(c).interface ::
      p.key != c.key && forall r | r in a.node.peers[p] :: !Covers(r, c.address)
  }

  /** The journal knows no later command of the lease. */
  ghost predicate NotOvertaken(a: Agent, c: Command) {
    c.lease in a.node.journal ==> a.node.journal[c.lease].command.generation <= c.generation
  }

  lemma CommandIsForItsGateway(s: System, c: Command)
    requires SystemInv(s) && c in s.sent && OwnGateway(s, c.lease)
    ensures c.gateway in s.agents && ValidCommand(c) && ForGateway(s.agents[c.gateway].self, c)
  {
    hide UniqueIndexes, Tickets, GrantsSound, Lifecycle, ReceiptsInv, LeasesInv, ValidRegistry, HostAddress;
    assert Truthful(s.store, c);
    var x := s.store.leases[c.lease];
    assert Placed(s.store, x);
    assert Retains(s.store.registries[x.registryRevision], Current(s.store));
    AgentOf(s, c.gateway);
  }

  /** What stands in the way of a command is foreign: every managed entry is of the same lease or apart from it. */
  lemma NothingManagedConflicts(s: System, c: Command)
    requires SystemInv(s) && c in s.sent && c.gateway in s.agents && Unobstructed(s.agents[c.gateway], c)
    requires !Fenced(s.agents[c.gateway].node.journal, c.lease)
    ensures Conflicts(s.agents[c.gateway].node.peers, c).None?
    ensures c.lease !in s.agents[c.gateway].node.journal ==> PeerOf(c) !in s.agents[c.gateway].node.peers
  {
    hide Inv, ReceiptsInv, LeasesInv, Truthful;
    var a := s.agents[c.gateway];
    AgentOf(s, c.gateway);
    HeldElsewhereIsApart(s, c);
    SameLeaseSameBinding(s, c);
    forall p | p in a.node.peers ensures !Owns(a.node.peers, p, c) {
      ManagedIsApart(a, c.gateway, s.sent, c, p);
    }
    if PeerOf(c) in a.node.peers {
      ManagedIsApart(a, c.gateway, s.sent, c, PeerOf(c));
    }
  }

  lemma ManagedIsApart(a: Agent, g: GatewayId, sent: set<Command>, c: Command, p: Peer)
    requires AgentInv(a, g, sent) && !ResourceHeld(a.node.journal, c) && Unobstructed(a, c) && p in a.node.peers
    requires c.lease in a.node.journal ==> SameBinding(a.node.journal[c.lease].command, c)
    ensures !Owns(a.node.peers, p, c)
    ensures p == PeerOf(c) ==> a.node.peers[p] == {HostRoute(c)} && c.lease in a.node.journal
  {
    hide HeldApart, PhaseInv;
    if p in a.owners {
      var l := a.owners[p];
      assert l in a.node.journal && a.node.journal[l].held;
      assert RowInv(l, a.node.journal[l]);
      assert !Clashes(a.node.journal[l], c);
    } else {
      assert p in a.foreign;
    }
  }

  ghost function Begun(s: System, c: Command, restore: bool, clock: Readings): System
    requires c.gateway in s.agents
  {
    var (a, answered) := BeginOn(s.agents[c.gateway], c, restore, clock);
    WithAgent(s, c.gateway, a).(receipts := if answered then s.receipts + {c} else s.receipts)
  }

  ghost function Carried(s: System, c: Command): System
    requires c.gateway in s.agents && s.agents[c.gateway].phase.Intended?
  {
    WithAgent(s, c.gateway, EffectOn(s.agents[c.gateway]))
  }

  ghost function Concluded(s: System, c: Command): System
    requires c.gateway in s.agents && s.agents[c.gateway].phase.Confirmed?
  {
    var a := s.agents[c.gateway];
    WithAgent(s, c.gateway, FinishOn(a)).(receipts := s.receipts + {a.phase.command})
  }

  /** The gateway is free, and its clock and the command's time allow the command. */
  ghost predicate Deliverable(s: System, c: Command, clock: Readings) {
    && c in s.sent && OwnGateway(s, c.lease) && c.gateway in s.agents
    && var a := s.agents[c.gateway];
    && a.phase.Idle? && a.node.lastNow <= clock.gate && (c.operation.Present? ==> clock.expiry < c.expires)
    && NotOvertaken(a, c) && Unobstructed(a, c)
  }

  /** The command was carried out before: the receipt comes again at once. */
  ghost predicate AlreadyDone(a: Agent, c: Command, restore: bool) {
    && c.lease in a.node.journal && a.node.journal[c.lease].command == c && a.node.journal[c.lease].done
    && !(restore && c.operation.Present?)
  }

  lemma DeliveredVerdict(s: System, c: Command, restore: bool, clock: Readings)
    requires SystemInv(s) && Deliverable(s, c, clock)
    ensures var a := s.agents[c.gateway];
      Admit(a.self, a.node, c, restore, clock) ==
        if AlreadyDone(a, c, restore) then Replay
        else if c.lease !in a.node.journal && c.operation.Absent? then Fence
        else Proceed(true)
    ensures !AlreadyDone(s.agents[c.gateway], c, restore) ==> Conflicts(s.agents[c.gateway].node.peers, c).None?
  {
    hide Inv, ReceiptsInv, LeasesInv, Truthful, OwnGateway, Unobstructed, ForGateway, Conflicts, ResourceHeld, OwnerInv,
         HeldApart, PhaseInv, TableInv, Journalled;
    var a := s.agents[c.gateway];
    CommandIsForItsGateway(s, c);
    SameLeaseSameBinding(s, c);
    AgentOf(s, c.gateway);
    if c.lease in a.node.journal {
      assert RowInv(c.lease, a.node.journal[c.lease]);
    }
    if !AlreadyDone(a, c, restore) {
      assert !Fenced(a.node.journal, c.lease);
      HeldElsewhereIsApart(s, c);
      NothingManagedConflicts(s, c);
    }
  }

  /** An issued command that arrives at its own gateway in time, not overtaken and not obstructed, is answered with
      a receipt, and the table is then as it asks: an install's peer is live with the lease's key and address. */
  lemma DeliveredIsCarriedOut(s: System, c: Command, restore: bool, clock: Readings) returns (t: System)
    requires SystemInv(s) && Deliverable(s, c, clock)
    ensures c in t.receipts && t.store == s.store && s.sent == t.sent && SystemInv(t)
    ensures var a, b := s.agents[c.gateway], Begun(s, c, restore, clock);
      Next(s, Begin(c.gateway, c, restore, clock), b) &&
      if AlreadyDone(a, c, restore) || (c.lease !in a.node.journal && c.operation.Absent?) then t == b
      else
        && b.agents[c.gateway].phase == Intended(c) && Next(b, Effect(c.gateway), Carried(b, c))
        && Next(Carried(b, c), Finish(c.gateway), Concluded(Carried(b, c), c)) && t == Concluded(Carried(b, c), c)
    ensures c.gateway in t.agents && (c.operation.Absent? ==> Fenced(t.agents[c.gateway].node.journal, c.lease))
    ensures c.operation.Present? && !AlreadyDone(s.agents[c.gateway], c, restore) ==>
      && LivePeerOf(t, c.gateway, PeerOf(c), c.lease) && PeerOf(c) in t.agents[c.gateway].node.peers
      && t.agents[c.gateway].node.peers[PeerOf(c)] == {HostRoute(c)}
  {
    hide SystemInv, Conflicts, Admit, OwnGateway, Unobstructed, Readable, AgentInv, Applied;
    StoreIsReadable(s);
    DeliveredVerdict(s, c, restore, clock);
    var a, b := s.agents[c.gateway], Begun(s, c, restore, clock);
    assert Next(s, Begin(c.gateway, c, restore, clock), b);
    StepKeeps(s, Begin(c.gateway, c, restore, clock), b);
    if AlreadyDone(a, c, restore) || (c.lease !in a.node.journal && c.operation.Absent?) {
      t := b;
    } else {
      var e := Carried(b, c);
      assert Next(b, Effect(c.gateway), e);
      StepKeeps(b, Effect(c.gateway), e);
      t := Concluded(e, c);
      assert Next(e, Finish(c.gateway), t);
      StepKeeps(e, Finish(c.gateway), t);
      if c.operation.Present? {
        CarriedIsLive(a.node, c);
      }
    }
    if c.operation.Absent? {
      FencedAfter(t, c);
    }
  }

  lemma StoreIsReadable(s: System)
    requires SystemInv(s)
    ensures Readable(s.store)
  {
    hide Inv;
    LatestIsKnown(s.store);
  }

  /** Whatever conflicts there are not, carrying out an install leaves its peer with its one route. */
  lemma CarriedIsLive(n: Node, c: Command)
    requires Conflicts(n.peers, c).None? && c.operation.Present?
    ensures PeerOf(c) in Applied(n.peers, c) && Applied(n.peers, c)[PeerOf(c)] == {HostRoute(c)}
  {
  }

  lemma FencedAfter(t: System, c: Command)
    requires SystemInv(t) && c in t.receipts && c.operation.Absent?
    ensures c.gateway in t.agents && Fenced(t.agents[c.gateway].node.journal, c.lease)
  {
    hide Inv, AgentInv, LeasesInv;
  }

  // ---------------------------------------------------------------- runs that get there

  /** The second run continues the first. */
  ghost predicate Continues(states: seq<System>, steps: seq<Step>, states': seq<System>, steps': seq<Step>) {
    && Execution(states, steps) && Execution(states', steps')
    && states <= states' && steps <= steps'
  }

  ghost function End(states: seq<System>): System
    requires states != []
  {
    states[|states| - 1]
  }

  lemma StepContinues(states: seq<System>, steps: seq<Step>, step: Step, t: System)
    requires Execution(states, steps) && Next(End(states), step, t)
    ensures Continues(states, steps, states + [t], steps + [step])
  {
    hide Next, Init;
    var ss, ps := states + [t], steps + [step];
    forall i | 0 <= i < |ps| ensures Next(ss[i], ps[i], ss[i + 1]) {
      if i < |steps| {
        assert ss[i] == states[i] && ss[i + 1] == states[i + 1];
      }
    }
  }

  /** In every reachable state, an issued command that can be delivered has a run that carries it out. */
  lemma DeliveryContinues(states: seq<System>, steps: seq<Step>, c: Command, restore: bool, clock: Readings)
    returns (states': seq<System>, steps': seq<Step>)
    requires Execution(states, steps) && Deliverable(End(states), c, clock)
    ensures Continues(states, steps, states', steps')
    ensures var s, t := End(states), End(states');
      && c in t.receipts && t.store == s.store && c.gateway in t.agents
      && (c.operation.Present? && !AlreadyDone(s.agents[c.gateway], c, restore) ==>
            && LivePeerOf(t, c.gateway, PeerOf(c), c.lease) && PeerOf(c) in t.agents[c.gateway].node.peers
            && t.agents[c.gateway].node.peers[PeerOf(c)] == {HostRoute(c)})
      && (c.operation.Absent? ==> Fenced(t.agents[c.gateway].node.journal, c.lease))
  {
    hide Execution, SystemInv, Next, BeginOn, Carried, Concluded, AlreadyDone, Init;
    RunShape(states, steps);
    ReachableInv(states, steps, |states| - 1);
    var s := End(states);
    var t := DeliveredIsCarriedOut(s, c, restore, clock);
    var b := Begun(s, c, restore, clock);
    StepContinues(states, steps, Begin(c.gateway, c, restore, clock), b);
    states', steps' := states + [b], steps + [Begin(c.gateway, c, restore, clock)];
    if b.agents[c.gateway].phase.Intended? && t != b {
      var e := Carried(b, c);
      StepContinues(states', steps', Effect(c.gateway), e);
      states', steps' := states' + [e], steps' + [Effect(c.gateway)];
      StepContinues(states', steps', Finish(c.gateway), t);
      states', steps' := states' + [t], steps' + [Finish(c.gateway)];
    }
  }

  lemma RunShape(states: seq<System>, steps: seq<Step>)
    requires Execution(states, steps)
    ensures |states| == |steps| + 1
  {
  }

  /** The command that the store's row of the lease calls for. */
  ghost function DueCommand(s: Store, l: LeaseId): Command
    requires l in s.leases && s.leases[l].device in s.access
  {
    var x := s.leases[l];
    Command(l, x.gateway, x.device, s.access[x.device].key, x.address, x.transport, x.version, x.expires,
            if x.state.Reserved? then 1 else 2, if x.state.Reserved? then Present else Absent)
  }

  /** The worker issues the due command whenever the store gives out the work. */
  lemma DueIsIssued(s: System, l: LeaseId, now: int) returns (t: System)
    requires SystemInv(s) && l in s.store.leases && s.store.now <= now
    requires var x := s.store.leases[l];
      x.state.Retiring? || (x.state.Reserved? && InForce(s.store, x.device, now) && now < x.expires)
    requires !s.store.leases[l].transport.VlessReality?
      && VersionMatches(s.store.leases[l].transport, s.store.leases[l].version)
    ensures s.store.leases[l].device in s.store.access
    ensures Next(s, Issue(l, s.store.leases[l], now), t)
    ensures t == s.(store := s.store.(now := now), sent := s.sent + {DueCommand(s.store, l)})
  {
    hide AgentInv, ReceiptsInv, LeasesInv, Truthful, RegistryHistory, Placed, UniqueIndexes, Tickets, GrantsSound;
    var x := s.store.leases[l];
    StoreIsReadable(s);
    WorkExactly(s.store, now, l, x.generation);
    t := s.(store := s.store.(now := now), sent := s.sent + {DueCommand(s.store, l)});
    assert CommandFor(l, x, WorkItem(s.store, now, l, x.generation).value) == DueCommand(s.store, l);
  }

  lemma DueIsNotOvertaken(s: System, l: LeaseId)
    requires SystemInv(s) && l in s.store.leases && s.store.leases[l].device in s.store.access
    requires (s.store.leases[l].state.Reserved? || s.store.leases[l].state.Retiring?)
      && s.store.leases[l].gateway in s.agents
    ensures NotOvertaken(s.agents[s.store.leases[l].gateway], DueCommand(s.store, l))
  {
    hide RegistryHistory, Placed, UniqueIndexes, Tickets, GrantsSound, ReceiptsInv, LeasesInv, OwnerInv, PhaseInv,
      TableInv;
    var a := s.agents[s.store.leases[l].gateway];
    AgentOf(s, s.store.leases[l].gateway);
    if l in a.node.journal {
      assert RowInv(l, a.node.journal[l]);
      assert Truthful(s.store, a.node.journal[l].command);
    }
  }

  /** The gateway of the lease is the one configured for it, free, not ahead of the clock and not obstructed. */
  ghost predicate Reachable(s: System, l: LeaseId, clock: Readings) {
    && OwnGateway(s, l) && s.store.leases[l].device in s.store.access
    && !s.store.leases[l].transport.VlessReality?
    && VersionMatches(s.store.leases[l].transport, s.store.leases[l].version)
    && var a := s.agents[s.store.leases[l].gateway];
    && a.phase.Idle? && a.node.lastNow <= clock.gate && Unobstructed(a, DueCommand(s.store, l))
  }

  /** The run continues by issuing and delivering the due command of a pending lease. */
  lemma DueIsCarriedOut(states: seq<System>, steps: seq<Step>, l: LeaseId, now: int, clock: Readings)
    returns (states': seq<System>, steps': seq<Step>)
    requires Execution(states, steps) && Reachable(End(states), l, clock) && End(states).store.now <= now
    requires var x := End(states).store.leases[l];
      || x.state.Retiring?
      || (&& x.state.Reserved? && InForce(End(states).store, x.device, now) && now < x.expires
          && clock.expiry < x.expires)
    ensures Continues(states, steps, states', steps')
    ensures var s, t := End(states), End(states');
      && t.store == s.store.(now := now) && DueCommand(s.store, l) in t.receipts
      && s.store.leases[l].gateway in t.agents
  {
    hide SystemInv, Next, Init, Unobstructed, AgentInv;
    var s := End(states);
    ReachableInv(states, steps, |states| - 1);
    var c := DueCommand(s.store, l);
    var t := DueIsIssued(s, l, now);
    DueIsNotOvertaken(s, l);
    StepContinues(states, steps, Issue(l, s.store.leases[l], now), t);
    SameGateway(s, t, l);
    states', steps' := DeliveryContinues(states + [t], steps + [Issue(l, s.store.leases[l], now)], c, false, clock);
  }

  lemma SameGateway(s: System, t: System, l: LeaseId)
    requires OwnGateway(s, l) && t.agents == s.agents && t.store == s.store.(now := t.store.now)
    ensures OwnGateway(t, l)
  {
  }

  /** In every reachable state, a reserved lease whose grant and own time last, on a gateway that can be reached,
      has a run that makes it ready. */
  lemma ReservedCanBecomeReady(states: seq<System>, steps: seq<Step>, l: LeaseId, now: int, clock: Readings, later: int)
    returns (states': seq<System>, steps': seq<Step>)
    requires Execution(states, steps) && Reachable(End(states), l, clock) && End(states).store.now <= now <= later
    requires var s, x := End(states).store, End(states).store.leases[l];
      x.state.Reserved? && InForce(s, x.device, later) && later < x.expires && clock.expiry < x.expires
    ensures Continues(states, steps, states', steps')
    ensures End(states').store ==
      End(states).store.(now := later,
                         leases := End(states).store.leases[l := End(states).store.leases[l].(state := Ready)])
  {
    hide SystemInv, Next, Init, Unobstructed;
    states', steps' := DueIsCarriedOut(states, steps, l, now, clock);
    var s, c := End(states'), DueCommand(End(states).store, l);
    ReachableInv(states', steps', |states'| - 1);
    var t := ReceiptIsAccepted(s, c, l, later);
    var step := AcceptReady(c, later);
    StepContinues(states', steps', step, t);
    states', steps' := states' + [t], steps' + [step];
  }

  lemma ReceiptIsAccepted(s: System, c: Command, l: LeaseId, later: int) returns (t: System)
    requires SystemInv(s) && c in s.receipts && c.operation.Present? && c.lease == l && c.generation == 1
    requires l in s.store.leases && s.store.leases[l].state.Reserved? && s.store.now <= later
    requires InForce(s.store, s.store.leases[l].device, later) && later < s.store.leases[l].expires
    ensures Next(s, AcceptReady(c, later), t)
    ensures t.store == s.store.(now := later, leases := s.store.leases[l := s.store.leases[l].(state := Ready)])
  {
    hide AgentInv, ReceiptsInv, LeasesInv, Truthful, RegistryHistory, Placed, UniqueIndexes, Tickets, GrantsSound;
    StoreIsReadable(s);
    ReadyExactly(s.store, later, l, 1);
    t := s.(store := After(s.store, DoReady(later, l, 1)));
  }

  /** In every reachable state, a retiring lease on a gateway that can be reached has a run that releases it: no
      grant and no expiry stands in its way. */
  lemma RetiringCanBeReleased(states: seq<System>, steps: seq<Step>, l: LeaseId, now: int, clock: Readings, later: int)
    returns (states': seq<System>, steps': seq<Step>)
    requires Execution(states, steps) && Reachable(End(states), l, clock) && End(states).store.now <= now <= later
    requires End(states).store.leases[l].state.Retiring?
    ensures Continues(states, steps, states', steps')
    ensures End(states').store ==
      End(states).store.(now := later,
                         leases := End(states).store.leases[l := End(states).store.leases[l].(state := Released)])
  {
    hide SystemInv, Next, Init, Unobstructed;
    states', steps' := DueIsCarriedOut(states, steps, l, now, clock);
    var s, c := End(states'), DueCommand(End(states).store, l);
    ReachableInv(states', steps', |states'| - 1);
    var t := RemovalIsAccepted(s, c, l, later);
    var step := AcceptRemoved(c, later);
    StepContinues(states', steps', step, t);
    states', steps' := states' + [t], steps' + [step];
  }

  lemma RemovalIsAccepted(s: System, c: Command, l: LeaseId, later: int) returns (t: System)
    requires SystemInv(s) && c in s.receipts && c.operation.Absent? && c.lease == l && c.generation == 2
    requires l in s.store.leases && s.store.leases[l].state.Retiring? && s.store.now <= later
    ensures Next(s, AcceptRemoved(c, later), t)
    ensures t.store == s.store.(now := later, leases := s.store.leases[l := s.store.leases[l].(state := Released)])
  {
    hide AgentInv, ReceiptsInv, LeasesInv, Truthful, RegistryHistory, Placed, UniqueIndexes, Tickets, GrantsSound;
    StoreIsReadable(s);
    RemovalExactly(s.store, later, l, 2);
    t := s.(store := After(s.store, DoRemoved(later, l, 2)));
  }
}
