/** The whole fleet as a transition system: the lease store, every gateway's fence and live peer
    table, and a network that may delay, repeat, reorder or lose commands and receipts.

    `sent` and `receipts` only grow, and any member may be delivered at any time, any number of
    times.  An execution on a gateway is split where it can be interrupted: the committed intent,
    the peer effect, and the committed completion.  The effects lock admits one at a time.
    `owners` and `foreign` are history variables that split the peer table: which lease's install
    put an entry there, and which entries were there at the start or were written by others.
 */
module FleetProtocol {
  import opened FleetTypes
  import opened FleetRegistry
  import opened FleetStore
  import opened FleetAllocation
  import opened FleetPeers
  import opened FleetGateway
  import opened Options

  datatype Phase = Idle | Intended(command: Command) | Confirmed(command: Command)

  datatype Agent = Agent(self: Gateway, node: Node, phase: Phase, owners: map<Peer, LeaseId>, foreign: set<Peer>)

  datatype System = System(
    store: Store, agents: map<GatewayId, Agent>, sent: set<Command>, receipts: set<Command>)

  /** The command a worker derives from its snapshot of a lease and the work item it fetched. */
  function CommandFor(l: LeaseId, snapshot: Lease, work: Work): Command {
    Command(l, snapshot.gateway, snapshot.device, work.key, snapshot.address, snapshot.transport, snapshot.version,
            snapshot.expires, snapshot.generation, if snapshot.state.Reserved? then Present else Absent)
  }

  /** A lease as some earlier read of the store returned it. */
  ghost predicate EarlierRead(snapshot: Lease, current: Lease) {
    && (snapshot.state.Reserved? || snapshot.state.Retiring?)
    && snapshot.generation == (if Live(snapshot) then 1 else 2)
    && Later(snapshot, current)
  }

  datatype Step =
    | Transact(op: Op)
    | Issue(lease: LeaseId, snapshot: Lease, now: int)
    | Begin(gateway: GatewayId, command: Command, restore: bool, clock: Readings)
    | Effect(gateway: GatewayId)
    | Finish(gateway: GatewayId)
    | Crash(gateway: GatewayId)
    | Lose(gateway: GatewayId, keep: set<Peer>)
    | Foreign(gateway: GatewayId, peer: Peer, routes: Option<set<Route>>)
    | AcceptReady(command: Command, now: int)
    | AcceptRemoved(command: Command, now: int)

  // ---------------------------------------------------------------- steps of one gateway

  function Owned(a: Agent, c: Command): map<Peer, LeaseId> {
    if c.operation.Present? then a.owners[PeerOf(c) := c.lease] else a.owners - {PeerOf(c)}
  }

  /** Starting an execution; `true` when it already answers with a receipt. */
  function BeginOn(a: Agent, c: Command, restore: bool, clock: Readings): (Agent, bool) {
    match Admit(a.self, a.node, c, restore, clock)
    case Refuse(_) => (a, false)
    case Replay => (a, true)
    case Fence => (a.(node := WithIntent(a.node, c, false, true, clock)), true)
    case Proceed(held) => (a.(node := WithIntent(a.node, c, held, false, clock), phase := Intended(c)), false)
  }

  function EffectOn(a: Agent): Agent
    requires a.phase.Intended?
  {
    var c := a.phase.command;
    a.(node := WithEffect(a.node, c), phase := Confirmed(c), owners := Owned(a, c), foreign := a.foreign - {PeerOf(c)})
  }

  function FinishOn(a: Agent): Agent
    requires a.phase.Confirmed?
  {
    a.(node := WithDone(a.node, a.phase.command), phase := Idle)
  }

  /** An engine restart: entries vanish, and whatever ran is gone. */
  function LoseOn(a: Agent, keep: set<Peer>): Agent {
    a.(node := a.node.(peers := map p | p in a.node.peers && p in keep :: a.node.peers[p]),
       owners := map p | p in a.owners && p in keep :: a.owners[p], foreign := a.foreign * keep, phase := Idle)
  }

  /** Someone else edits a peer whose key no journal row holds. */
  function ForeignOn(a: Agent, p: Peer, routes: Option<set<Route>>): Agent {
    a.(node := a.node.(peers := if routes.Some? then a.node.peers[p := routes.value] else a.node.peers - {p}),
       foreign := if routes.Some? then a.foreign + {p} else a.foreign - {p})
  }

  predicate Unheld(a: Agent, p: Peer) {
    forall l | l in a.node.journal && a.node.journal[l].held :: a.node.journal[l].command.key != p.key
  }

  function WithAgent(s: System, g: GatewayId, a: Agent): System {
    s.(agents := s.agents[g := a])
  }

  ghost predicate Next(s: System, step: Step, t: System) {
    && Readable(s.store)
    && match step
       case Transact(op) =>
         !op.DoReady? && !op.DoRemoved? && Enabled(s.store, op) && t == s.(store := After(s.store, op))
       case Issue(l, snapshot, now) =>
         && l in s.store.leases && EarlierRead(snapshot, s.store.leases[l])
         && (match WorkItem(s.store, now, l, snapshot.generation)
             case Err(_) => t == s
             case Ok(work) =>
               var c := CommandFor(l, snapshot, work);
               t == s.(store := s.store.(now := now), sent := if ValidCommand(c) then s.sent + {c} else s.sent))
       case Begin(g, c, restore, clock) =>
         && g in s.agents && s.agents[g].phase.Idle? && c in s.sent
         && var (a, answered) := BeginOn(s.agents[g], c, restore, clock);
            t == WithAgent(s, g, a).(receipts := if answered then s.receipts + {c} else s.receipts)
       case Effect(g) =>
         && g in s.agents && s.agents[g].phase.Intended?
         && Conflicts(s.agents[g].node.peers, s.agents[g].phase.command).None?
         && t == WithAgent(s, g, EffectOn(s.agents[g]))
       case Finish(g) =>
         && g in s.agents && s.agents[g].phase.Confirmed?
         && t == WithAgent(s, g, FinishOn(s.agents[g])).(receipts := s.receipts + {s.agents[g].phase.command})
       case Crash(g) => g in s.agents && t == WithAgent(s, g, s.agents[g].(phase := Idle))
       case Lose(g, keep) => g in s.agents && t == WithAgent(s, g, LoseOn(s.agents[g], keep))
       case Foreign(g, p, routes) =>
         g in s.agents && Unheld(s.agents[g], p) && t == WithAgent(s, g, ForeignOn(s.agents[g], p, routes))
       case AcceptReady(c, now) =>
         && c in s.receipts && c.operation.Present?
         && t == s.(store := After(s.store, DoReady(now, c.lease, c.generation)))
       case AcceptRemoved(c, now) =>
         && c in s.receipts && c.operation.Absent?
         && t == s.(store := After(s.store, DoRemoved(now, c.lease, c.generation)))
  }

  ghost predicate Init(s: System) {
    && (exists now, r :: ValidRegistry(r) && s.store == Initial(now, r))
    && (forall g | g in s.agents ::
          && s.agents[g].self.id == g && s.agents[g].phase.Idle?
          && s.agents[g].owners == map[] && s.agents[g].foreign == s.agents[g].node.peers.Keys
          && s.agents[g].node.journal == map[])
    && s.sent == {} && s.receipts == {}
  }

  ghost predicate Execution(states: seq<System>, steps: seq<Step>) {
    && |states| == |steps| + 1
    && Init(states[0])
    && forall i | 0 <= i < |steps| :: Next(states[i], steps[i], states[i + 1])
  }

  // ---------------------------------------------------------------- the joint invariant

  /** A command on the network says exactly what the store's lease says, and a removal exists
      only for a lease already retired. */
  ghost predicate Truthful(s: Store, c: Command) {
    && ValidCommand(c) && c.lease in s.leases
    && var l := s.leases[c.lease];
       && c.gateway == l.gateway && c.device == l.device && c.address == l.address
       && c.transport == l.transport && c.version == l.version && c.expires == l.expires
       && l.device in s.access && c.key == s.access[l.device].key
       && (c.operation.Absent? ==> l.generation == 2)
  }

  ghost predicate PhaseInv(a: Agent) {
    a.phase.Idle? ||
    var c := a.phase.command;
    && c.lease in a.node.journal && a.node.journal[c.lease] == Row(c, true, false)
    && (a.phase.Confirmed? ==>
          if c.operation.Present? then PeerOf(c) in a.owners && a.owners[PeerOf(c)] == c.lease
          else PeerOf(c) !in a.node.peers)
  }

  /** A peer is owned only through the held row of its lease, exactly as that row says. */
  ghost predicate OwnerInv(a: Agent) {
    && (forall p | p in a.owners ::
          && a.owners[p] in a.node.journal
          && a.node.journal[a.owners[p]].held && PeerOf(a.node.journal[a.owners[p]].command) == p
          && p in a.node.peers && a.node.peers[p] == {HostRoute(a.node.journal[a.owners[p]].command)})
    && (forall l | l in a.node.journal && a.node.journal[l].held && PeerOf(a.node.journal[l].command) in a.node.peers ::
          PeerOf(a.node.journal[l].command) in a.owners && a.owners[PeerOf(a.node.journal[l].command)] == l)
  }

  /** Every entry of the table is some lease's install or foreign, and not both. */
  ghost predicate TableInv(a: Agent) {
    a.node.peers.Keys == a.owners.Keys + a.foreign && a.owners.Keys !! a.foreign
  }

  ghost predicate Journalled(a: Agent, g: GatewayId, sent: set<Command>) {
    forall l | l in a.node.journal :: a.node.journal[l].command in sent && a.node.journal[l].command.gateway == g
  }

  ghost predicate AgentInv(a: Agent, g: GatewayId, sent: set<Command>) {
    && a.self.id == g
    && JournalInv(a.node.journal)
    && Journalled(a, g, sent)
    && OwnerInv(a)
    && TableInv(a)
    && PhaseInv(a)
  }

  ghost predicate Fenced(j: map<LeaseId, Row>, l: LeaseId) {
    l in j && j[l].command.operation.Absent? && j[l].done
  }

  /** What a receipt, or a store state reached through one, tells about the gateway's journal. */
  ghost predicate Known(s: System, g: GatewayId, l: LeaseId) {
    g in s.agents && l in s.agents[g].node.journal
  }

  ghost predicate KnownFenced(s: System, g: GatewayId, l: LeaseId) {
    g in s.agents && Fenced(s.agents[g].node.journal, l)
  }

  ghost predicate ReceiptsInv(s: System) {
    forall c | c in s.receipts ::
      && c in s.sent && Known(s, c.gateway, c.lease)
      && (c.operation.Absent? ==> KnownFenced(s, c.gateway, c.lease))
  }

  ghost predicate LeasesInv(s: System) {
    forall l | l in s.store.leases ::
      && (s.store.leases[l].state.Ready? ==> Known(s, s.store.leases[l].gateway, l))
      && (s.store.leases[l].state.Released? ==> KnownFenced(s, s.store.leases[l].gateway, l))
  }

  ghost predicate SystemInv(s: System) {
    && Inv(s.store)
    && (forall c | c in s.sent :: Truthful(s.store, c))
    && (forall g | g in s.agents :: AgentInv(s.agents[g], g, s.sent))
    && ReceiptsInv(s)
    && LeasesInv(s)
  }

  // ---------------------------------------------------------------- gateway steps keep the invariant

  /** A journal never forgets a lease, and a fence, once done, is final. */
  ghost predicate JournalGrows(j: map<LeaseId, Row>, k: map<LeaseId, Row>) {
    j.Keys <= k.Keys && forall l | l in j && Fenced(j, l) :: k[l] == j[l]
  }

  lemma BeginKeepsAgent(a: Agent, g: GatewayId, sent: set<Command>, c: Command, restore: bool, clock: Readings)
    requires AgentInv(a, g, sent) && a.phase.Idle? && c in sent
    ensures var (b, answered) := BeginOn(a, c, restore, clock);
            && AgentInv(b, g, sent)
            && JournalGrows(a.node.journal, b.node.journal)
            && (answered ==> c.gateway == g && c.lease in b.node.journal
                             && (c.operation.Absent? ==> Fenced(b.node.journal, c.lease)))
  {
    hide OwnerInv, HeldApart, Preflight, ResourceHeld, HostAddress;
    AdmittedKeepsJournal(a.self, a.node, c, restore, clock);
    var (b, answered) := BeginOn(a, c, restore, clock);
    if c.lease in a.node.journal {
      assert RowInv(c.lease, a.node.journal[c.lease]);
    }
    BeginKeepsOwners(a, c, restore, clock);
  }

  lemma BeginKeepsOwners(a: Agent, c: Command, restore: bool, clock: Readings)
    requires JournalInv(a.node.journal) && OwnerInv(a) && a.phase.Idle?
    ensures OwnerInv(BeginOn(a, c, restore, clock).0)
  {
    hide HeldApart, ResourceHeld, ForGateway;
    var b := BeginOn(a, c, restore, clock).0;
    forall p | p in b.owners
      ensures && b.owners[p] in b.node.journal && b.node.journal[b.owners[p]].held
              && PeerOf(b.node.journal[b.owners[p]].command) == p
              && b.node.peers[p] == {HostRoute(b.node.journal[b.owners[p]].command)}
    {
      assert a.owners[p] in a.node.journal;
    }
    if c.lease in a.node.journal {
      assert RowInv(c.lease, a.node.journal[c.lease]);
    }
  }

  lemma EffectKeepsAgent(a: Agent, g: GatewayId, sent: set<Command>)
    requires AgentInv(a, g, sent) && a.phase.Intended? && Conflicts(a.node.peers, a.phase.command).None?
    ensures AgentInv(EffectOn(a), g, sent)
  {
    var c, b := a.phase.command, EffectOn(a);
    forall l | l in a.node.journal && l != c.lease && a.node.journal[l].held
      ensures PeerOf(a.node.journal[l].command) != PeerOf(c)
    {
    }
    assert OwnerInv(b);
    EffectKeepsTable(a);
  }

  lemma EffectKeepsTable(a: Agent)
    requires TableInv(a) && a.phase.Intended?
    ensures TableInv(EffectOn(a))
  {
    var p, b := PeerOf(a.phase.command), EffectOn(a);
    assert b.node.peers.Keys == if a.phase.command.operation.Present? then a.node.peers.Keys + {p}
      else a.node.peers.Keys - {p};
    assert b.owners.Keys == if a.phase.command.operation.Present? then a.owners.Keys + {p} else a.owners.Keys - {p};
  }

  lemma FinishKeepsAgent(a: Agent, g: GatewayId, sent: set<Command>)
    requires AgentInv(a, g, sent) && a.phase.Confirmed?
    ensures AgentInv(FinishOn(a), g, sent) && JournalGrows(a.node.journal, FinishOn(a).node.journal)
    ensures a.phase.command.operation.Absent? ==> Fenced(FinishOn(a).node.journal, a.phase.command.lease)
    ensures a.phase.command in sent && a.phase.command.gateway == g
  {
    var c := a.phase.command;
    assert RowInv(c.lease, a.node.journal[c.lease]);
    assert a.node.journal[c.lease].command == c;
  }

  lemma LoseKeepsAgent(a: Agent, g: GatewayId, sent: set<Command>, keep: set<Peer>)
    requires AgentInv(a, g, sent)
    ensures AgentInv(LoseOn(a, keep), g, sent)
  {
  }

  lemma ForeignKeepsAgent(a: Agent, g: GatewayId, sent: set<Command>, p: Peer, routes: Option<set<Route>>)
    requires AgentInv(a, g, sent) && Unheld(a, p)
    ensures AgentInv(ForeignOn(a, p, routes), g, sent)
  {
    assert p !in a.owners;
  }

  // ---------------------------------------------------------------- every step keeps the invariant

  /** Replacing one gateway's agent by one whose journal has only grown. */
  lemma AgentStepKeeps(s: System, g: GatewayId, b: Agent, c: Option<Command>, t: System)
    requires SystemInv(s) && g in s.agents
    requires AgentInv(b, g, s.sent) && JournalGrows(s.agents[g].node.journal, b.node.journal)
    requires c.Some? ==> c.value in s.sent && c.value.gateway == g && c.value.lease in b.node.journal
                         && (c.value.operation.Absent? ==> Fenced(b.node.journal, c.value.lease))
    requires t == WithAgent(s, g, b).(receipts := if c.Some? then s.receipts + {c.value} else s.receipts)
    ensures SystemInv(t)
  {
    hide Inv, Truthful, JournalInv, Journalled, OwnerInv, PhaseInv;
    forall h, l | Known(s, h, l) ensures Known(t, h, l) {}
    forall h, l | KnownFenced(s, h, l) ensures KnownFenced(t, h, l) {}
    assert ReceiptsInv(t);
    assert LeasesInv(t);
  }

  lemma GatewayStepKeeps(s: System, step: Step, t: System)
    requires SystemInv(s) && Next(s, step, t)
    requires step.Begin? || step.Effect? || step.Finish? || step.Crash? || step.Lose? || step.Foreign?
    ensures SystemInv(t)
  {
    hide Inv, Truthful, JournalInv, Journalled, OwnerInv, PhaseInv, ReceiptsInv, LeasesInv, Admit,
         RegistryHistory, Fenced, BeginOn;
    var g := step.gateway;
    var a := s.agents[g];
    match step
    case Begin(_, c, restore, clock) =>
      BeginKeepsAgent(a, g, s.sent, c, restore, clock);
      var (b, answered) := BeginOn(a, c, restore, clock);
      AgentStepKeeps(s, g, b, if answered then Some(c) else None, t);
    case Effect(_) =>
      EffectKeepsAgent(a, g, s.sent);
      AgentStepKeeps(s, g, EffectOn(a), None, t);
    case Finish(_) =>
      FinishKeepsAgent(a, g, s.sent);
      AgentStepKeeps(s, g, FinishOn(a), Some(a.phase.command), t);
    case Crash(_) =>
      CrashKeepsAgent(a, g, s.sent);
      AgentStepKeeps(s, g, a.(phase := Idle), None, t);
    case Lose(_, keep) =>
      LoseKeepsAgent(a, g, s.sent, keep);
      AgentStepKeeps(s, g, LoseOn(a, keep), None, t);
    case Foreign(_, p, routes) =>
      ForeignKeepsAgent(a, g, s.sent, p, routes);
      AgentStepKeeps(s, g, ForeignOn(a, p, routes), None, t);
  }

  lemma CrashKeepsAgent(a: Agent, g: GatewayId, sent: set<Command>)
    requires AgentInv(a, g, sent)
    ensures AgentInv(a.(phase := Idle), g, sent)
  {
  }

  lemma TruthStays(s: Store, t: Store, c: Command)
    requires Truthful(s, c) && Evolves(s, t) && Lifecycle(t.leases)
    ensures Truthful(t, c)
  {
    assert Later(s.leases[c.lease], t.leases[c.lease]);
  }

  /** A store transaction that marks no lease ready or released on its own. */
  lemma TransactKeeps(s: System, op: Op)
    requires SystemInv(s) && Enabled(s.store, op) && !op.DoReady? && !op.DoRemoved?
    ensures SystemInv(s.(store := After(s.store, op)))
  {
    hide Placed, UniqueIndexes, AgentInv, ValidRegistry, Retains, ReceiptsInv, Truthful;
    AnyStepKeeps(s.store, op);
    var t := s.(store := After(s.store, op));
    forall c | c in t.sent ensures Truthful(t.store, c) {
      TruthStays(s.store, t.store, c);
    }
    ReadyOrReleasedBefore(s.store, op);
    forall l | l in t.store.leases
      ensures t.store.leases[l].state.Ready? ==> Known(t, t.store.leases[l].gateway, l)
      ensures t.store.leases[l].state.Released? ==> KnownFenced(t, t.store.leases[l].gateway, l)
    {
      if l in s.store.leases {
        assert Later(s.store.leases[l], t.store.leases[l]);
      }
    }
    assert ReceiptsInv(t) by { ReceiptsOf(s, t); }
  }

  lemma ReceiptsOf(s: System, t: System)
    requires ReceiptsInv(s) && t.agents == s.agents && s.sent <= t.sent && t.receipts == s.receipts
    ensures ReceiptsInv(t)
  {
  }

  /** Only the two receipt transactions make a lease ready or released. */
  lemma ReadyOrReleasedBefore(s: Store, op: Op)
    requires Inv(s) && Enabled(s, op) && !op.DoReady? && !op.DoRemoved?
    ensures forall l | l in After(s, op).leases && l in s.leases ::
              && (After(s, op).leases[l].state.Ready? ==> s.leases[l].state.Ready?)
              && (After(s, op).leases[l].state.Released? ==> s.leases[l].state.Released?)
  {
    hide Placed, UniqueIndexes, ValidRegistry, Retains, ValidUpdate, HostAddress, Pick, Halted, Curtailed;
  }

  lemma IssuedIsTruthful(s: Store, l: LeaseId, snapshot: Lease, now: int)
    requires Lifecycle(s.leases) && l in s.leases && EarlierRead(snapshot, s.leases[l])
    requires WorkItem(s, now, l, snapshot.generation).Ok?
    requires ValidCommand(CommandFor(l, snapshot, WorkItem(s, now, l, snapshot.generation).value))
    ensures Truthful(s.(now := now), CommandFor(l, snapshot, WorkItem(s, now, l, snapshot.generation).value))
  {
  }

  lemma MoreSent(a: Agent, g: GatewayId, sent: set<Command>, more: set<Command>)
    requires AgentInv(a, g, sent) && sent <= more
    ensures AgentInv(a, g, more)
  {
  }

  lemma IssueKeeps(s: System, step: Step, t: System)
    requires SystemInv(s) && Next(s, step, t) && step.Issue?
    ensures SystemInv(t)
  {
    hide Placed, UniqueIndexes, ValidRegistry, Retains, Truthful, AgentInv, ReceiptsInv, WorkItem;
    if t != s {
      WorkNow(s.store, step.now, step.lease, step.snapshot.generation);
      LaterReflexive(s.store.leases);
      AdvanceKeeps(s.store, step.now, s.store.leases);
      forall c | c in s.sent ensures Truthful(t.store, c) {
        TruthStays(s.store, t.store, c);
      }
      forall c | c in t.sent && c !in s.sent ensures Truthful(t.store, c) {
        IssuedIsTruthful(s.store, step.lease, step.snapshot, step.now);
      }
      forall g | g in t.agents ensures AgentInv(t.agents[g], g, t.sent) {
        MoreSent(s.agents[g], g, s.sent, t.sent);
      }
      ReceiptsOf(s, t);
    }
  }

  lemma WorkNow(s: Store, now: int, l: LeaseId, generation: nat)
    requires WorkItem(s, now, l, generation).Ok?
    ensures s.now <= now
  {
  }

  lemma LaterReflexive(leases: map<LeaseId, Lease>)
    ensures Advances(leases, leases)
  {
  }

  /** Consuming a receipt: a lease turns ready or released only with the journal to back it. */
  lemma AcceptKeeps(s: System, c: Command, op: Op)
    requires SystemInv(s) && c in s.receipts
    requires (op.DoReady? && c.operation.Present?) || (op.DoRemoved? && c.operation.Absent?)
    requires op.lease == c.lease && op.generation == c.generation
    ensures SystemInv(s.(store := After(s.store, op)))
  {
    hide Placed, UniqueIndexes, AgentInv, ValidRegistry, Retains, ReceiptsInv, Truthful;
    assert Enabled(s.store, op);
    AnyStepKeeps(s.store, op);
    var t := s.(store := After(s.store, op));
    forall d | d in t.sent ensures Truthful(t.store, d) {
      TruthStays(s.store, t.store, d);
    }
    ReceiptBacks(s, c);
    forall l | l in t.store.leases
      ensures t.store.leases[l].state.Ready? ==> Known(t, t.store.leases[l].gateway, l)
      ensures t.store.leases[l].state.Released? ==> KnownFenced(t, t.store.leases[l].gateway, l)
    {
    }
    ReceiptsOf(s, t);
  }

  lemma ReceiptBacks(s: System, c: Command)
    requires SystemInv(s) && c in s.receipts
    ensures c.lease in s.store.leases && Known(s, s.store.leases[c.lease].gateway, c.lease)
    ensures c.operation.Absent? ==> KnownFenced(s, s.store.leases[c.lease].gateway, c.lease)
  {
    hide Inv, AgentInv, LeasesInv;
    assert Truthful(s.store, c);
  }

  /** Every step of the fleet keeps the joint invariant. */
  lemma StepKeeps(s: System, step: Step, t: System)
    requires SystemInv(s) && Next(s, step, t)
    ensures SystemInv(t)
  {
    hide Inv, AgentInv, ReceiptsInv, LeasesInv, Truthful, RegistryHistory, Enabled, After, WorkItem,
         BeginOn, Conflicts, EarlierRead;
    match step
    case Transact(op) => TransactKeeps(s, op);
    case Issue(_, _, _) => IssueKeeps(s, step, t);
    case AcceptReady(c, now) => AcceptKeeps(s, c, DoReady(now, c.lease, c.generation));
    case AcceptRemoved(c, now) => AcceptKeeps(s, c, DoRemoved(now, c.lease, c.generation));
    case _ => GatewayStepKeeps(s, step, t);
  }

  lemma InitHolds(s: System)
    requires Init(s)
    ensures SystemInv(s)
  {
    var now, r :| ValidRegistry(r) && s.store == Initial(now, r);
    RetainsReflexive(r);
  }

  lemma {:induction false} ReachableInv(states: seq<System>, steps: seq<Step>, n: nat)
    requires Execution(states, steps) && n < |states|
    ensures SystemInv(states[n])
  {
    hide SystemInv, Next, Init;
    if n == 0 {
      InitHolds(states[0]);
    } else {
      ReachableInv(states, steps, n - 1);
      StepKeeps(states[n - 1], steps[n - 1], states[n]);
    }
  }

  // ---------------------------------------------------------------- what every run guarantees

  ghost predicate LivePeerOf(s: System, g: GatewayId, p: Peer, l: LeaseId) {
    g in s.agents && p in s.agents[g].owners && s.agents[g].owners[p] == l
  }

  /** A live peer put there by a lease is backed by the unreleased lease of that gateway, with
      exactly that lease's key and address. */
  lemma LivePeerIsLeased(states: seq<System>, steps: seq<Step>, n: nat, g: GatewayId, p: Peer, l: LeaseId)
    requires Execution(states, steps) && n < |states| && LivePeerOf(states[n], g, p, l)
    ensures var s := states[n];
            && l in s.store.leases && Unreleased(s.store.leases[l]) && s.store.leases[l].gateway == g
            && s.store.leases[l].device in s.store.access && p.key == s.store.access[s.store.leases[l].device].key
            && p in s.agents[g].node.peers
            && s.agents[g].node.peers[p] == {Net4(s.store.leases[l].address, s.store.leases[l].address)}
  {
    hide Execution, SystemInv;
    ReachableInv(states, steps, n);
    PeerIsLeased(states[n], g, p, l);
  }

  lemma PeerIsLeased(s: System, g: GatewayId, p: Peer, l: LeaseId)
    requires SystemInv(s) && LivePeerOf(s, g, p, l)
    ensures l in s.store.leases && Unreleased(s.store.leases[l]) && s.store.leases[l].gateway == g
    ensures s.store.leases[l].device in s.store.access && p.key == s.store.access[s.store.leases[l].device].key
    ensures p in s.agents[g].node.peers
    ensures s.agents[g].node.peers[p] == {Net4(s.store.leases[l].address, s.store.leases[l].address)}
  {
    hide Inv;
    var a := s.agents[g];
    assert AgentInv(a, g, s.sent);
    assert RowInv(l, a.node.journal[l]);
    assert Truthful(s.store, a.node.journal[l].command);
  }

  /** Releases are final. */
  lemma {:induction false} ReleasedStays(states: seq<System>, steps: seq<Step>, i: nat, j: nat, l: LeaseId)
    requires Execution(states, steps) && i <= j < |states|
    requires l in states[i].store.leases && states[i].store.leases[l].state.Released?
    ensures l in states[j].store.leases && states[j].store.leases[l].state.Released?
  {
    hide SystemInv, Next, Init;
    if i < j {
      ReleasedStays(states, steps, i, j - 1, l);
      ReachableInv(states, steps, j - 1);
      StoreEvolves(states[j - 1], steps[j - 1], states[j]);
      assert Later(states[j - 1].store.leases[l], states[j].store.leases[l]);
    }
  }

  lemma StoreEvolves(s: System, step: Step, t: System)
    requires SystemInv(s) && Next(s, step, t)
    ensures Advances(s.store.leases, t.store.leases)
  {
    hide Placed, UniqueIndexes, AgentInv, ReceiptsInv, LeasesInv, Truthful, RegistryHistory, After, WorkItem, BeginOn;
    LaterReflexive(s.store.leases);
    match step
    case Transact(op) => AnyStepKeeps(s.store, op);
    case AcceptReady(c, now) => AnyStepKeeps(s.store, DoReady(now, c.lease, c.generation));
    case AcceptRemoved(c, now) => AnyStepKeeps(s.store, DoRemoved(now, c.lease, c.generation));
    case _ =>
  }

  /** From the moment the store marks a lease released, its peer is live through it on no gateway; and an entry
      of any table, the one of its own key included, is foreign or the install of another, unreleased lease. */
  lemma ReleasedNeverLive(states: seq<System>, steps: seq<Step>, i: nat, j: nat, l: LeaseId, g: GatewayId, p: Peer)
    requires Execution(states, steps) && i <= j < |states|
    requires l in states[i].store.leases && states[i].store.leases[l].state.Released?
    requires g in states[j].agents
    ensures !LivePeerOf(states[j], g, p, l)
    ensures var a, leases := states[j].agents[g], states[j].store.leases;
            p in a.node.peers ==>
              || p in a.foreign
              || (&& p in a.owners && a.owners[p] != l && a.owners[p] in leases
                  && Unreleased(leases[a.owners[p]]) && leases[a.owners[p]].gateway == g)
  {
    hide Execution, SystemInv, OwnerInv, PhaseInv, JournalInv, Journalled;
    ReleasedStays(states, steps, i, j, l);
    ReachableInv(states, steps, j);
    AgentOf(states[j], g);
    if p in states[j].agents[g].owners {
      LivePeerIsLeased(states, steps, j, g, p, states[j].agents[g].owners[p]);
    }
  }

  /** In particular, a released lease leaves no entry with its key on its gateway, unless the device has another
      lease there or someone else wrote the entry. */
  lemma ReleasedIsGone(states: seq<System>, steps: seq<Step>, i: nat, j: nat, l: LeaseId, p: Peer)
    requires Execution(states, steps) && i <= j < |states|
    requires l in states[i].store.leases && states[i].store.leases[l].state.Released?
    requires l in states[j].store.leases && states[j].store.leases[l].gateway in states[j].agents
    requires !ServesDevice(states[j].store, states[j].store.leases[l].device, states[j].store.leases[l].gateway)
    requires states[j].store.leases[l].device in states[j].store.access
    requires p.key == states[j].store.access[states[j].store.leases[l].device].key
    requires p !in states[j].agents[states[j].store.leases[l].gateway].foreign
    ensures p !in states[j].agents[states[j].store.leases[l].gateway].node.peers
  {
    hide Execution, SystemInv;
    var s := states[j];
    var x := s.store.leases[l];
    ReleasedNeverLive(states, steps, i, j, l, x.gateway, p);
    ReachableInv(states, steps, j);
    if p in s.agents[x.gateway].owners {
      var m := s.agents[x.gateway].owners[p];
      LivePeerIsLeased(states, steps, j, x.gateway, p, m);
      KeysTellDevices(s, s.store.leases[m].device, x.device);
    }
  }

  lemma KeysTellDevices(s: System, d: DeviceId, e: DeviceId)
    requires SystemInv(s) && d in s.store.access && e in s.store.access
      && s.store.access[d].key == s.store.access[e].key
    ensures d == e
  {
    hide RegistryHistory, Placed, UniqueIndexes, AgentInv, Truthful, ReceiptsInv, LeasesInv, Tickets, Lifecycle;
  }

  /** An entry counts as foreign only if it was there at the start or someone else wrote it. */
  lemma {:induction false} ForeignWasWritten(states: seq<System>, steps: seq<Step>, n: nat, g: GatewayId, p: Peer)
    requires Execution(states, steps) && n < |states| && g in states[n].agents && p in states[n].agents[g].foreign
    ensures || (g in states[0].agents && p in states[0].agents[g].node.peers)
            || (exists k :: && 0 <= k < n && steps[k].Foreign? && steps[k].routes.Some?
                            && steps[k].gateway == g && steps[k].peer == p)
  {
    hide Next;
    if n > 0 {
      assert Next(states[n - 1], steps[n - 1], states[n]);
      ForeignStep(states[n - 1], steps[n - 1], states[n], g, p);
      if p in states[n - 1].agents[g].foreign {
        ForeignWasWritten(states, steps, n - 1, g, p);
      }
    }
  }

  lemma ForeignStep(s: System, step: Step, t: System, g: GatewayId, p: Peer)
    requires Next(s, step, t) && g in t.agents && p in t.agents[g].foreign
    ensures g in s.agents
    ensures p in s.agents[g].foreign || (step.Foreign? && step.gateway == g && step.peer == p && step.routes.Some?)
  {
    hide Admit, After, WorkItem, Conflicts, RegistryHistory, Enabled;
  }

  /** Two live peers of a gateway, on whatever interfaces, belong to different leases and have
      different keys and addresses. */
  lemma LivePeersApart(states: seq<System>, steps: seq<Step>, n: nat, g: GatewayId, p: Peer, q: Peer)
    requires Execution(states, steps) && n < |states|
    requires g in states[n].agents && p in states[n].agents[g].owners && q in states[n].agents[g].owners && p != q
    ensures states[n].agents[g].owners[p] != states[n].agents[g].owners[q]
    ensures p.key != q.key
    ensures p in states[n].agents[g].node.peers && q in states[n].agents[g].node.peers
    ensures states[n].agents[g].node.peers[p] !! states[n].agents[g].node.peers[q]
  {
    hide Execution, Inv, ReceiptsInv, LeasesInv;
    ReachableInv(states, steps, n);
    var a := states[n].agents[g];
    assert AgentInv(a, g, states[n].sent);
    assert a.owners[p] in a.node.journal && a.owners[q] in a.node.journal;
    assert HeldApart(a.node.journal);
  }

  /** A lease's live peer goes away only by that lease's own removal or by the engine losing it:
      in particular a replayed removal of an earlier lease never takes a reused key down. */
  lemma PeerRemovedOnlyByItsLease(states: seq<System>, steps: seq<Step>, n: nat, g: GatewayId, p: Peer, l: LeaseId)
    requires Execution(states, steps) && n < |steps|
    requires LivePeerOf(states[n], g, p, l) && !LivePeerOf(states[n + 1], g, p, l)
    ensures steps[n].Lose? || steps[n].Effect?
    ensures steps[n].gateway == g
    ensures steps[n].Effect? ==>
      var phase := states[n].agents[g].phase;
      phase.Intended? && phase.command.lease == l && phase.command.operation.Absent?
  {
    hide SystemInv, Init, AgentInv, BeginOn, EffectOn, Conflicts, Enabled, After, WorkItem, RegistryHistory;
    ReachableInv(states, steps, n);
    assert Next(states[n], steps[n], states[n + 1]);
    AgentOf(states[n], g);
    if steps[n].Begin? {
      BeginSparesPeers(states[n].agents[steps[n].gateway], steps[n].command, steps[n].restore, steps[n].clock);
    } else if steps[n].Effect? && steps[n].gateway == g {
      EffectSparesOthers(states[n].agents[g], g, states[n].sent, p);
    }
  }

  lemma AgentOf(s: System, g: GatewayId)
    requires SystemInv(s) && g in s.agents
    ensures AgentInv(s.agents[g], g, s.sent)
  {
  }

  lemma BeginSparesPeers(a: Agent, c: Command, restore: bool, clock: Readings)
    ensures BeginOn(a, c, restore, clock).0.owners == a.owners
  {
  }

  lemma EffectSparesOthers(a: Agent, g: GatewayId, sent: set<Command>, p: Peer)
    requires AgentInv(a, g, sent) && a.phase.Intended? && p in a.owners
    ensures || (p in EffectOn(a).owners && EffectOn(a).owners[p] == a.owners[p])
            || (a.phase.command.lease == a.owners[p] && a.phase.command.operation.Absent?)
  {
    var l := a.owners[p];
    assert l in a.node.journal && a.node.journal[l].held;
    assert HeldApart(a.node.journal);
  }

  /** While the store shows a lease ready, the gateway's journal holds that lease's exact address
      and key at generation 1. */
  lemma ReadyMeansJournalled(states: seq<System>, steps: seq<Step>, n: nat, l: LeaseId)
    requires Execution(states, steps) && n < |states|
    requires l in states[n].store.leases && states[n].store.leases[l].state.Ready?
    ensures var x := states[n].store.leases[l];
            && x.gateway in states[n].agents && l in states[n].agents[x.gateway].node.journal
            && x.device in states[n].store.access
            && var row := states[n].agents[x.gateway].node.journal[l];
               && row.held && row.command.generation == 1 && row.command.operation.Present?
               && row.command.address == x.address && row.command.key == states[n].store.access[x.device].key
  {
    ReachableInv(states, steps, n);
    JournalHoldsReady(states[n], l);
  }

  lemma JournalHoldsReady(s: System, l: LeaseId)
    requires SystemInv(s) && l in s.store.leases && s.store.leases[l].state.Ready?
    ensures var x := s.store.leases[l];
            && x.gateway in s.agents && l in s.agents[x.gateway].node.journal && x.device in s.store.access
            && var row := s.agents[x.gateway].node.journal[l];
               && row.held && row.command.generation == 1 && row.command.operation.Present?
               && row.command.address == x.address && row.command.key == s.store.access[x.device].key
  {
    hide Placed, UniqueIndexes, RegistryHistory, ReceiptsInv, OwnerInv, PhaseInv;
    var g := s.store.leases[l].gateway;
    assert Known(s, g, l);
    assert AgentInv(s.agents[g], g, s.sent);
    assert RowInv(l, s.agents[g].node.journal[l]);
    assert Truthful(s.store, s.agents[g].node.journal[l].command);
  }

  /** A command the store issued is never refused because its address or key is held by another
      lease, nor for a changed binding: when the fence calls it stale, a later generation of the
      same lease is already in the journal. */
  lemma IssuedCommandNeverClashes(states: seq<System>, steps: seq<Step>, n: nat, c: Command, restore: bool,
      clock: Readings)
    requires Execution(states, steps) && n < |states| && c in states[n].sent && c.gateway in states[n].agents
    ensures var a := states[n].agents[c.gateway];
            var v := Admit(a.self, a.node, c, restore, clock);
            && v != Refuse(ResourceOwned) && v != Refuse(CommandConflict)
            && (v == Refuse(StaleOrConflicting) ==>
                  && c.lease in a.node.journal && SameBinding(a.node.journal[c.lease].command, c)
                  && c.generation == 1 && a.node.journal[c.lease].command.generation == 2)
  {
    hide SystemInv, Next, Init, Admit;
    ReachableInv(states, steps, n);
    IssuedCommandVerdict(states[n], c, restore, clock);
  }

  lemma IssuedCommandVerdict(s: System, c: Command, restore: bool, clock: Readings)
    requires SystemInv(s) && c in s.sent && c.gateway in s.agents
    ensures var a := s.agents[c.gateway];
            var v := Admit(a.self, a.node, c, restore, clock);
            && v != Refuse(ResourceOwned) && v != Refuse(CommandConflict)
            && (v == Refuse(StaleOrConflicting) ==>
                  && c.lease in a.node.journal && SameBinding(a.node.journal[c.lease].command, c)
                  && c.generation == 1 && a.node.journal[c.lease].command.generation == 2)
  {
    hide Inv, Truthful, AgentInv, ReceiptsInv, LeasesInv, ResourceHeld, ForGateway, Conflicts;
    var a := s.agents[c.gateway];
    SameLeaseSameBinding(s, c);
    JournalOf(s, c.gateway);
    if !Fenced(a.node.journal, c.lease) {
      HeldElsewhereIsApart(s, c);
    } else {
      assert RowInv(c.lease, a.node.journal[c.lease]);
    }
    PreflightCodes(a.node.peers, c);
  }

  lemma JournalOf(s: System, g: GatewayId)
    requires SystemInv(s) && g in s.agents
    ensures JournalInv(s.agents[g].node.journal)
  {
    AgentOf(s, g);
  }

  lemma PreflightCodes(t: Table, c: Command)
    ensures Preflight(t, c).None? || Preflight(t, c).value in {UnmanagedLiveKey, LiveAddressOwned, LiveBindingChanged}
  {
  }

  lemma SameLeaseSameBinding(s: System, c: Command)
    requires SystemInv(s) && c in s.sent && c.gateway in s.agents
    ensures var j := s.agents[c.gateway].node.journal;
            c.lease in j ==>
              SameBinding(j[c.lease].command, c) && ValidCommand(c) && ValidCommand(j[c.lease].command)
  {
    hide Inv, ReceiptsInv, LeasesInv;
    var a := s.agents[c.gateway];
    assert AgentInv(a, c.gateway, s.sent);
    assert Truthful(s.store, c);
    if c.lease in a.node.journal {
      assert RowInv(c.lease, a.node.journal[c.lease]);
      assert Truthful(s.store, a.node.journal[c.lease].command);
    }
  }

  /** While a lease is not fenced, no other row holds its address or key: both leases are
      unreleased, and the store keeps unreleased leases of a gateway apart. */
  lemma HeldElsewhereIsApart(s: System, c: Command)
    requires SystemInv(s) && c in s.sent && c.gateway in s.agents
    requires !Fenced(s.agents[c.gateway].node.journal, c.lease)
    ensures !ResourceHeld(s.agents[c.gateway].node.journal, c)
  {
    hide Placed, RegistryHistory, ReceiptsInv, OwnerInv, PhaseInv;
    var a := s.agents[c.gateway];
    assert AgentInv(a, c.gateway, s.sent);
    assert Truthful(s.store, c);
    forall m | m in a.node.journal ensures !Clashes(a.node.journal[m], c) {
      var row := a.node.journal[m];
      assert RowInv(m, row);
      assert Truthful(s.store, row.command);
      if row.held && m != c.lease {
        assert Unreleased(s.store.leases[m]) && Unreleased(s.store.leases[c.lease]);
        assert Compatible(s.store.leases[m], s.store.leases[c.lease]);
      }
    }
  }
}
