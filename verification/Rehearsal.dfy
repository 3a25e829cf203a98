/** The journalled deployment of one rehearsal node: replayable operations, automatic rollback to
    the predecessor, fencing when rollback fails, and recovery after an interruption.

    The runtime is an object with an activation pointer.  Any call into it, and any write of a
    journal or of the state, may fail or kill the process before or after taking effect.
 */
module Rehearsal {
  import opened Options

  type Bundle = nat
  type OpId = nat

  datatype Phase = Preflighted | Staged | Awaiting | Verified | Active | Failed | Draining | Retired | Quarantined

  datatype Challenge = Challenge(bundle: Bundle, operation: OpId, nonce: nat, health: nat, startedAt: int,
    expiresAt: int)

  datatype Health = Health(bundle: Bundle, digest: nat, observedAt: int, externalExpiresAt: int)

  datatype State = State(
    phase: Phase, actual: Option<Bundle>, previous: Option<Bundle>, accepted: set<Bundle>, staged: set<Bundle>,
    health: Option<Health>, fenced: bool, identity: Option<nat>, verification: Option<Challenge>)

  const INITIAL := State(Preflighted, None, None, {}, {}, None, false, None, None)

  datatype Action =
    | Enroll | DeliverMaterials | Stage | StartVerification | CompleteVerification | ActivateLocal
    | Upgrade | Rollback | RebootVerify | Drain | Retire | Unsupported

  /** A signed external acceptance; `genuine` is its signature, `allPass` every step and the cleanup. */
  datatype External = External(
    bundle: Bundle, operation: OpId, nonce: nat, health: nat, issuedAt: int, expiresAt: int,
    genuine: bool, allPass: bool)

  datatype Parameters = NoParameters | WithReceipt(receipt: External) | Recover(of: OpId, binding: Request)
                      | RequestPhase | WithEnvelope | OtherParameters

  /** A request; its digest is the replay binding, so the request stands for its own binding. */
  datatype Request = Request(id: OpId, action: Action, bundle: Bundle, parameters: Parameters)

  datatype Result = RunningOp | Pass | AwaitingExternal | Fail | Recovered

  datatype Undo = NotTried | Restored | Unrestored

  datatype Journal = Journal(binding: Request, result: Result, rollback: Undo)

  datatype Fault = Fine | FailBefore | FailAfter | DieBefore | DieAfter

  datatype Ending = Ok | Raised | Dead

  function EndingOf(f: Fault): Ending {
    match f
    case Fine => Ok
    case FailBefore => Raised
    case FailAfter => Raised
    case DieBefore => Dead
    case DieAfter => Dead
  }

  predicate TakesEffect(f: Fault) { f.Fine? || f.FailAfter? || f.DieAfter? }

  /** What the outside world answers during one operation: the fate of the n-th call, the local
      health digest, the enrolled identity, a fresh nonce and the permit's end. */
  datatype World = World(fault: nat -> Fault, health: nat, identity: nat, nonce: nat, permitEnds: int, now: int)

  predicate Matches(x: External, c: Challenge, now: int) {
    && x.genuine && x.bundle == c.bundle && x.operation == c.operation && x.nonce == c.nonce && x.health == c.health
    && x.issuedAt <= now < x.expiresAt && x.expiresAt - x.issuedAt <= 300
    && c.startedAt <= x.issuedAt && x.expiresAt <= c.expiresAt
  }

  function AwaitingFrom(a: State, target: Bundle, c: Challenge): State {
    a.(phase := Awaiting, previous := a.actual, actual := Some(target), verification := Some(c))
  }

  predicate HealthLasts(a: State, now: int) {
    && a.health.Some?
    && 0 <= now - a.health.value.observedAt <= 300 && now < a.health.value.externalExpiresAt
  }

  predicate HealthFits(a: State, target: Bundle, now: int) {
    HealthLasts(a, now) && a.health.value.bundle == target
  }

  /** The actions that replace the running bundle, and when they may. */
  predicate MaySwitch(a: State, q: Request) {
    && q.parameters.NoParameters?
    && match q.action
       case StartVerification => a.phase.Staged? && q.bundle in a.staged
       case Upgrade => a.phase.Active? && a.actual != Some(q.bundle) && q.bundle in a.staged
       case Rollback => a.phase.Active? && a.actual != Some(q.bundle) && q.bundle in a.staged && q.bundle in a.accepted
       case _ => false
  }

  /** What a successful operation does to the recorded state. */
  ghost predicate Moves(a: State, q: Request, w: World, b: State) {
    match q.action
    case Enroll => a.phase.Preflighted? && b == a
    case DeliverMaterials => a.phase.Preflighted? && q.parameters.WithEnvelope? && b == a
    case Stage =>
      && q.parameters.NoParameters? && a.phase in {Preflighted, Staged, Verified, Active, Failed}
      && a.identity in {None, Some(w.identity)}
      && b == a.(identity := Some(w.identity), staged := a.staged + {q.bundle},
                 phase := if a.phase in {Active, Verified} then a.phase else Phase.Staged)
    case CompleteVerification =>
      && a.phase.Awaiting? && a.verification.Some? && a.verification.value.bundle == q.bundle
      && (|| (q.parameters.NoParameters? && b == a)
          || (&& q.parameters.WithReceipt? && Matches(q.parameters.receipt, a.verification.value, w.now)
              && q.parameters.receipt.allPass && w.health == a.verification.value.health
              && b == a.(phase := Verified, verification := None,
                         health := Some(Health(q.bundle, w.health, w.now, q.parameters.receipt.expiresAt)))))
    case ActivateLocal =>
      && q.parameters.NoParameters? && a.phase.Verified? && HealthFits(a, q.bundle, w.now)
         && w.health == a.health.value.digest
      && b == a.(phase := Active, actual := Some(q.bundle), accepted := a.accepted + {q.bundle})
    case RebootVerify =>
      && a.phase.Active? && a.actual == Some(q.bundle)
      && (|| (&& q.parameters.RequestPhase? && HealthLasts(a, w.now)
              && w.health == a.health.value.digest && b == a)
          || (q.parameters.NoParameters?
              && b == AwaitingFrom(a, q.bundle, Challenge(q.bundle, q.id, w.nonce, w.health, w.now, w.permitEnds))))
    case Drain =>
      && q.parameters.NoParameters? && a.phase in {Active, Awaiting, Verified, Staged, Failed}
      && b == a.(phase := Draining)
    case Retire => q.parameters.NoParameters? && a.phase.Draining? && b == a.(phase := Retired)
    case _ =>
      && MaySwitch(a, q)
      && b == AwaitingFrom(a, q.bundle, Challenge(q.bundle, q.id, w.nonce, w.health, w.now, w.permitEnds))
  }

  /** No call into the outside fails or dies. */
  ghost predicate Calm(w: World) { forall n: nat :: w.fault(n).Fine? }

  /** What the action asks of the recorded state, the request and the moment. */
  predicate Allowed(a: State, q: Request, w: World) {
    match q.action
    case Enroll => a.phase.Preflighted?
    case DeliverMaterials => a.phase.Preflighted? && q.parameters.WithEnvelope?
    case Stage =>
      && q.parameters.NoParameters? && a.phase in {Preflighted, Phase.Staged, Verified, Active, Failed}
      && (a.identity.None? || a.identity.value == w.identity)
    case CompleteVerification => Challenged(a, q) && (q.parameters.NoParameters? || Vouched(a, q, w))
    case ActivateLocal =>
      q.parameters.NoParameters? && a.phase.Verified? && StillHealthy(a, w) && a.health.value.bundle == q.bundle
    case RebootVerify =>
      && a.phase.Active? && a.actual == Some(q.bundle)
      && (q.parameters.NoParameters? || (q.parameters.RequestPhase? && StillHealthy(a, w)))
    case Drain => q.parameters.NoParameters? && a.phase in {Active, Awaiting, Verified, Phase.Staged, Failed}
    case Retire => q.parameters.NoParameters? && a.phase.Draining?
    case StartVerification => q.parameters.NoParameters? && a.phase.Staged? && q.bundle in a.staged
    case Upgrade => q.parameters.NoParameters? && a.phase.Active? && a.actual != Some(q.bundle) && q.bundle in a.staged
    case Rollback =>
      && q.parameters.NoParameters? && a.phase.Active? && a.actual != Some(q.bundle)
      && q.bundle in a.staged && q.bundle in a.accepted
    case Unsupported => false
  }

  /** A challenge is open for the bundle of the request. */
  predicate Challenged(a: State, q: Request) {
    a.phase.Awaiting? && a.verification.Some? && a.verification.value.bundle == q.bundle
  }

  /** The request brings a receipt for the open challenge, and it answers for this moment. */
  predicate Presents(a: State, q: Request, w: World) {
    && Challenged(a, q) && q.parameters.WithReceipt?
    && var x, c := q.parameters.receipt, a.verification.value;
    && x.genuine && x.bundle == c.bundle && x.operation == c.operation && x.nonce == c.nonce && x.health == c.health
    && c.startedAt <= x.issuedAt <= w.now && w.now < x.expiresAt <= c.expiresAt && x.expiresAt <= x.issuedAt + 300
  }

  /** The receipt says that everything passed, and the local health is still the challenge's. */
  predicate Vouched(a: State, q: Request, w: World) {
    Presents(a, q, w) && q.parameters.receipt.allPass && w.health == a.verification.value.health
  }

  /** The health on record is the local one now, observed within five minutes, and its receipt lasts. */
  predicate StillHealthy(a: State, w: World) {
    && a.health.Some? && a.health.value.digest == w.health
    && a.health.value.observedAt <= w.now <= a.health.value.observedAt + 300
    && w.now < a.health.value.externalExpiresAt
  }

  /** The external acceptance is in order and says that something did not pass. */
  predicate Declines(a: State, q: Request, w: World) {
    q.action.CompleteVerification? && Presents(a, q, w) && !q.parameters.receipt.allPass
  }

  /** What the recorded state promises about the runtime, when nothing is interrupted.  `passed` is
      the history of bundles with a matching all-pass external receipt. */
  ghost predicate Sound(s: State, pointer: Option<Bundle>, passed: set<Bundle>) {
    && s.accepted <= passed
    && (s.phase.Active? ==>
          && s.actual.Some? && pointer == s.actual && s.actual.value in s.accepted
          && s.health.Some? && s.health.value.bundle == s.actual.value)
    && (s.phase.Awaiting? ==>
          && s.actual.Some? && pointer == s.actual
          && s.verification.Some? && s.verification.value.bundle == s.actual.value
          && (s.previous.Some? ==>
                s.previous.value in s.accepted && s.health.Some? && s.health.value.bundle == s.previous.value))
    && (s.phase.Verified? ==>
          && s.actual.Some? && pointer == s.actual && s.actual.value in passed
          && s.health.Some? && s.health.value.bundle == s.actual.value)
    && (s.phase in {Preflighted, Phase.Staged, Failed} ==> s.actual.None? && pointer.None?)
    && (s.fenced ==> s.phase.Quarantined?)
  }

  function PassedBy(passed: set<Bundle>, a: State, q: Request, w: World): set<Bundle> {
    if q.action.CompleteVerification? && q.parameters.WithReceipt? && a.verification.Some?
       && Matches(q.parameters.receipt, a.verification.value, w.now) && q.parameters.receipt.allPass
    then passed + {q.parameters.receipt.bundle} else passed
  }

  lemma MoveKeepsSound(a: State, q: Request, w: World, b: State, pointer: Option<Bundle>, after: Option<Bundle>,
      passed: set<Bundle>)
    requires Sound(a, pointer, passed) && Moves(a, q, w, b) && !a.fenced
    requires if MaySwitch(a, q) then after == Some(q.bundle) else q.action.Retire? || after == pointer
    ensures Sound(b, after, PassedBy(passed, a, q, w))
  {
  }

  /** The state a successful rollback records. */
  function RolledBack(original: State, predecessor: Option<Bundle>): State {
    original.(phase := if predecessor.Some? && predecessor.value in original.accepted then Active
                       else if original.phase.Verified? then Verified else Failed,
              actual := predecessor, verification := None)
  }

  /** Who the predecessor of a failing operation is. */
  function Predecessor(a: State, q: Request): Option<Bundle> {
    if q.action.CompleteVerification? then a.previous else a.actual
  }

  /** A rollback, from wherever it may start, restores a sound state: the predecessor active again,
      or nothing running at all.  The branch that would record a verified state is never taken. */
  lemma RollbackIsSound(a: State, q: Request, pointer: Option<Bundle>, passed: set<Bundle>)
    requires Sound(a, pointer, passed) && !a.fenced
    requires MaySwitch(a, q) || (q.action.CompleteVerification? && a.phase.Awaiting?)
    ensures !a.phase.Verified?
    ensures var p := Predecessor(a, q);
            && Sound(RolledBack(a, p), p, passed)
            && (p.Some? ==> RolledBack(a, p).phase.Active?) && (p.None? ==> RolledBack(a, p).phase.Failed?)
  {
  }

  // ---------------------------------------------------------------- the journal

  ghost function Interrupted(journals: map<OpId, Journal>): set<OpId> {
    set i | i in journals && journals[i].result.RunningOp?
  }

  /** The one request that may follow an interruption: a drain naming the interrupted operation. */
  ghost predicate Recovers(journals: map<OpId, Journal>, q: Request) {
    && q.action.Drain? && q.parameters.Recover?
    && Interrupted(journals) == {q.parameters.of} && journals[q.parameters.of].binding == q.parameters.binding
  }

  /** When a recovery is itself interrupted, no request is left that could follow: the node admits
      nothing any more. */
  lemma InterruptedRecoveryBlocksForGood(journals: map<OpId, Journal>, i: OpId, j: OpId, q: Request)
    requires i != j && i in Interrupted(journals) && j in Interrupted(journals)
    ensures !Recovers(journals, q)
  {
    assert {i, j} <= Interrupted(journals);
  }

  datatype Reply = Refused | Replayed(journal: Journal) | Done(journal: Journal) | Died

  /** The node on disk, with its activation pointer and the receipts it has seen. */
  datatype Node = Node(saved: State, journals: map<OpId, Journal>, pointer: Option<Bundle>, passed: set<Bundle>)

  const FIRST := Node(INITIAL, map[], None, {})

  /** Unless an operation is interrupted, the recorded state tells the truth. */
  ghost predicate Fits(n: Node) {
    && n.saved.accepted <= n.passed
    && (n.saved.fenced ==> n.saved.phase.Quarantined?)
    && (Interrupted(n.journals) == {} ==> Sound(n.saved, n.pointer, n.passed))
  }

  ghost predicate Answered(r: Reply) { r.Refused? || r.Replayed? }

  /** The operations that may leave another bundle running, and so roll back when they fail. */
  ghost predicate Touches(a: State, q: Request) {
    MaySwitch(a, q) || (q.action.CompleteVerification? && a.phase.Awaiting?)
  }

  /** Where the pointer can be while the operation is under way. */
  ghost predicate Within(a: Node, q: Request, pointer: Option<Bundle>) {
    || pointer == a.pointer
    || (MaySwitch(a.saved, q) && pointer == Some(q.bundle))
    || (Touches(a.saved, q) && pointer == Predecessor(a.saved, q))
    || (q.action.Retire? && a.saved.phase.Draining? && pointer == None)
  }

  function PointerAfter(a: Node, q: Request): Option<Bundle> {
    if MaySwitch(a.saved, q) then Some(q.bundle) else if q.action.Retire? then None else a.pointer
  }

  function ResultOf(s: State): Result { if s.phase.Awaiting? then AwaitingExternal else Pass }

  /** What a failed operation leaves behind: nothing changed, the predecessor back, or the node fenced. */
  ghost predicate Undone(a: Node, q: Request, s: State, undo: Undo, pointer: Option<Bundle>) {
    || (undo.NotTried? && !q.action.Retire? && s == a.saved && pointer == a.pointer)
    || (&& undo.Restored? && Touches(a.saved, q)
        && pointer == Predecessor(a.saved, q) && s == RolledBack(a.saved, Predecessor(a.saved, q)))
    || (&& ((undo.Unrestored? && Touches(a.saved, q)) || (undo.NotTried? && q.action.Retire?))
        && s == a.saved.(fenced := true, phase := Quarantined) && Within(a, q, pointer))
  }

  /** Why an operation fails when no call does: it is not allowed.  Only a declined acceptance then rolls back. */
  ghost predicate Inapplicable(a: Node, q: Request, w: World, undo: Undo, pointer: Option<Bundle>) {
    && !Allowed(a.saved, q, w)
    && if Declines(a.saved, q, w) then undo.Restored? else undo.NotTried? && pointer == a.pointer
  }

  /** The operation came to an end, with state `s` and receipt `j` to be written. */
  ghost predicate Ended(
      a: Node, q: Request, w: World, recovery: bool, s: State, j: Journal,
      pointer: Option<Bundle>, passed: set<Bundle>) {
    && j.binding == q
    && if recovery then
         && pointer == a.pointer && passed == a.passed && j.rollback.NotTried?
         && ((j.result.Pass? && s == a.saved.(phase := Draining)) || (j.result.Fail? && s == a.saved && !Calm(w)))
       else
         || (&& j.result == ResultOf(s) && j.rollback.NotTried? && Moves(a.saved, q, w, s)
             && pointer == PointerAfter(a, q) && passed == PassedBy(a.passed, a.saved, q, w))
         || (&& j.result.Fail? && passed == a.passed && Undone(a, q, s, j.rollback, pointer)
             && (Calm(w) ==> Inapplicable(a, q, w, j.rollback, pointer)))
  }

  /** The journals once the receipt is written; a successful recovery closes the one it names, too. */
  function ClosedWith(journals: map<OpId, Journal>, q: Request, j: Journal, recovery: bool): map<OpId, Journal> {
    if recovery && j.result.Pass? && q.parameters.Recover? && q.parameters.of in journals
    then journals[q.id := j][q.parameters.of := journals[q.parameters.of].(result := Recovered)]
    else journals[q.id := j]
  }

  function Opened(journals: map<OpId, Journal>, q: Request): map<OpId, Journal> {
    journals[q.id := Journal(q, RunningOp, NotTried)]
  }

  /** The writing of state `s` and receipt `j` was cut off: after nothing, the state, or the receipt. */
  ghost predicate CutOff(
      before: State, journals: map<OpId, Journal>, q: Request, recovery: bool, s: State, j: Journal,
      saved: State, after: map<OpId, Journal>) {
    || (saved in {before, s} && after == Opened(journals, q))
    || (saved == s && (after == journals[q.id := j] || after == ClosedWith(journals, q, j, recovery)))
  }

  /** What a death leaves: nothing done; the intent on record, with the state as it was and the pointer somewhere
      the action may put it; or a finished operation, some of whose writes are missing. */
  ghost predicate LeftByDeath(a: Node, q: Request, w: World, recovery: bool, b: Node) {
    && !Calm(w)
    && (|| b == a
        || (b == a.(journals := Opened(a.journals, q), pointer := b.pointer) && (recovery ==> b.pointer == a.pointer)
            && Within(a, q, b.pointer))
        || (exists s, j :: Ended(a, q, w, recovery, s, j, b.pointer, b.passed)
                           && CutOff(a.saved, a.journals, q, recovery, s, j, b.saved, b.journals)))
  }

  /** One request.  A known one is replayed, or refused when it differs or was interrupted.  While an operation is
      interrupted all but its matching drain are refused, and so is everything once the node is fenced or retired. */
  ghost predicate Serves(a: Node, q: Request, w: World, r: Reply, b: Node) {
    var recovery := Interrupted(a.journals) != {};
    if q.id in a.journals then
      && b == a
      && r == if a.journals[q.id].binding == q && !a.journals[q.id].result.RunningOp?
              then Replayed(a.journals[q.id]) else Refused
    else if (recovery && !Recovers(a.journals, q)) || a.saved.fenced || a.saved.phase.Retired? then
      b == a && r.Refused?
    else
      match r
      case Done(j) =>
        && Ended(a, q, w, recovery, b.saved, j, b.pointer, b.passed)
        && b.journals == ClosedWith(a.journals, q, j, recovery)
      case Died => LeftByDeath(a, q, w, recovery, b)
      case _ => false
  }

  class RehearsalNode {
    var saved: State
    var journals: map<OpId, Journal>
    var pointer: Option<Bundle>
    ghost var passed: set<Bundle>

    constructor ()
      ensures View() == FIRST && Valid()
    {
      saved, journals, pointer, passed := INITIAL, map[], None, {};
    }

    ghost function View(): Node
      reads this
    {
      Node(saved, journals, pointer, passed)
    }

    ghost predicate Valid()
      reads this
    {
      Fits(View())
    }

    method Switch(target: Option<Bundle>, f: Fault) returns (e: Ending)
      modifies this`pointer
      ensures e == EndingOf(f) && pointer == if TakesEffect(f) then target else old(pointer)
    {
      if TakesEffect(f) {
        pointer := target;
      }
      e := EndingOf(f);
    }

    /** Configure, stop, switch, start and check a bundle; calls 1 to 5 of the operation. */
    method Replace(target: Bundle, w: World) returns (e: Ending)
      modifies this`pointer
      ensures Calm(w) ==> e.Ok?
      ensures e.Ok? ==> pointer == Some(target)
      ensures pointer == old(pointer) || pointer == Some(target)
    {
      e := EndingOf(w.fault(1));
      if !e.Ok? { return; }
      e := EndingOf(w.fault(2));
      if !e.Ok? { return; }
      e := Switch(Some(target), w.fault(3));
      if !e.Ok? { return; }
      e := EndingOf(w.fault(4));
      if !e.Ok? { return; }
      e := EndingOf(w.fault(5));
    }

    /** Stop, switch back, start and check the predecessor; calls 11 to 14. */
    method Restore(predecessor: Option<Bundle>, w: World) returns (e: Ending)
      modifies this`pointer
      ensures Calm(w) ==> e.Ok?
      ensures e.Ok? ==> pointer == predecessor
      ensures pointer == old(pointer) || pointer == predecessor
    {
      e := EndingOf(w.fault(11));
      if !e.Ok? { return; }
      e := Switch(predecessor, w.fault(12));
      if !e.Ok? || predecessor.None? { return; }
      e := EndingOf(w.fault(13));
      if !e.Ok? { return; }
      e := EndingOf(w.fault(14));
    }

    /** One action.  On success it has made its move; when it raises, the state is as it was, and
        `switching` tells whether the running bundle may have been touched. */
    method Apply(a: State, q: Request, w: World) returns (e: Ending, b: State, switching: bool)
      modifies this`pointer
      ensures e.Ok? ==> Moves(a, q, w, b)
      ensures e.Ok? ==>
        pointer == if MaySwitch(a, q) then Some(q.bundle) else if q.action.Retire? then None else old(pointer)
      ensures !e.Ok? ==> b == a
      ensures switching ==> Touches(a, q)
      ensures Calm(w) ==> e == if Allowed(a, q, w) then Ok else Raised
      ensures Calm(w) && e.Raised? ==> switching == Declines(a, q, w) && pointer == old(pointer)
      ensures || pointer == old(pointer) || (switching && MaySwitch(a, q) && pointer == Some(q.bundle))
              || (q.action.Retire? && a.phase.Draining? && pointer == None)
    {
      switching, b, e := false, a, Raised;
      if q.action.Enroll? || q.action.DeliverMaterials? {
        if a.phase.Preflighted? && (q.action.DeliverMaterials? ==> q.parameters.WithEnvelope?) {
          e := EndingOf(w.fault(1));
        }
        return;
      }
      if q.action.CompleteVerification? {
        e, b, switching := Complete(a, q, w);
        return;
      }
      if q.action.RebootVerify? && q.parameters.RequestPhase? {
        if a.phase.Active? && a.actual == Some(q.bundle) && HealthLasts(a, w.now)
          && w.health == a.health.value.digest {
          e := EndingOf(w.fault(1));
        }
        return;
      }
      if !q.parameters.NoParameters? {
        return;
      }
      var challenge := Challenge(q.bundle, q.id, w.nonce, w.health, w.now, w.permitEnds);
      match q.action
      case Stage =>
        if a.phase in {Preflighted, Phase.Staged, Verified, Active, Failed} && a.identity in {None, Some(w.identity)} {
          e := EndingOf(w.fault(1));
          if e.Ok? {
            b := a.(identity := Some(w.identity), staged := a.staged + {q.bundle});
            if !(a.phase in {Active, Verified}) {
              b := b.(phase := Phase.Staged);
            }
          }
        }
      case ActivateLocal =>
        if a.phase.Verified? && HealthFits(a, q.bundle, w.now) && w.health == a.health.value.digest {
          e := EndingOf(w.fault(1));
          if e.Ok? {
            b := a.(phase := Active, actual := Some(q.bundle), accepted := a.accepted + {q.bundle});
          }
        }
      case RebootVerify =>
        if a.phase.Active? && a.actual == Some(q.bundle) {
          e := EndingOf(w.fault(1));
          if e.Ok? {
            b := a.(previous := a.actual, actual := Some(q.bundle), verification := Some(challenge), phase := Awaiting);
          }
        }
      case Drain =>
        if a.phase in {Active, Awaiting, Verified, Phase.Staged, Failed} {
          e := EndingOf(w.fault(1));
          if e.Ok? {
            b := a.(phase := Draining);
          }
        }
      case Retire =>
        if a.phase.Draining? {
          e := Switch(None, w.fault(1));
          if e.Ok? {
            b := a.(phase := Retired);
          }
        }
      case StartVerification => e, b, switching := Begin(a, q, w, challenge);
      case Upgrade => e, b, switching := Begin(a, q, w, challenge);
      case Rollback => e, b, switching := Begin(a, q, w, challenge);
      case _ =>
    }

    method Begin(a: State, q: Request, w: World, challenge: Challenge) returns (e: Ending, b: State, switching: bool)
      modifies this`pointer
      ensures switching == MaySwitch(a, q)
      ensures Calm(w) ==> e == if switching then Ok else Raised
      ensures e.Ok? ==> switching && pointer == Some(q.bundle) && b == AwaitingFrom(a, q.bundle, challenge)
      ensures !e.Ok? ==> b == a
      ensures pointer == old(pointer) || (switching && pointer == Some(q.bundle))
    {
      switching, b, e := MaySwitch(a, q), a, Raised;
      if switching {
        e := Replace(q.bundle, w);
        if e.Ok? {
          b := a.(previous := a.actual, actual := Some(q.bundle), verification := Some(challenge), phase := Awaiting);
        }
      }
    }

    method Complete(a: State, q: Request, w: World) returns (e: Ending, b: State, switching: bool)
      requires q.action.CompleteVerification?
      ensures e.Ok? ==> Moves(a, q, w, b)
      ensures !e.Ok? ==> b == a
      ensures switching == Declines(a, q, w) && (switching ==> a.phase.Awaiting? && !e.Ok?)
      ensures Calm(w) ==> e == if Allowed(a, q, w) then Ok else Raised
    {
      switching, b, e := false, a, Raised;
      if !a.phase.Awaiting? || a.verification.None? || a.verification.value.bundle != q.bundle {
        return;
      }
      if q.parameters.NoParameters? {
        e := Ok;
        return;
      }
      if !q.parameters.WithReceipt? || !Matches(q.parameters.receipt, a.verification.value, w.now) {
        return;
      }
      if !q.parameters.receipt.allPass {
        switching := true;
        return;
      }
      e := EndingOf(w.fault(1));
      if e.Ok? && w.health != a.verification.value.health {
        e := Raised;
      }
      if e.Ok? {
        b := a.(health := Some(Health(q.bundle, w.health, w.now, q.parameters.receipt.expiresAt)),
                phase := Verified, verification := None);
      }
    }

    /** The operation itself and, if it fails half-way through a switch, its rollback. */
    method Operate(q: Request, w: World, recovery: bool) returns (e: Ending, s: State, undo: Undo)
      modifies this`pointer, this`passed
      ensures e.Dead? ==>
        !Calm(w) && passed == old(passed) && Within(old(View()), q, pointer) && (recovery ==> pointer == old(pointer))
      ensures !e.Dead? ==>
        Ended(old(View()), q, w, recovery, s, Journal(q, if e.Raised? then Fail else ResultOf(s), undo), pointer,
          passed)
    {
      undo := NotTried;
      if recovery {
        e := EndingOf(w.fault(1));
        s := if e.Ok? then saved.(phase := Draining) else saved;
        return;
      }
      var switching;
      e, s, switching := Apply(saved, q, w);
      if e.Ok? {
        passed := PassedBy(passed, saved, q, w);
      }
      if !e.Raised? {
        return;
      }
      if switching {
        var predecessor := if q.action.CompleteVerification? then saved.previous else saved.actual;
        var back := Restore(predecessor, w);
        if back.Dead? {
          e := Dead;
        } else if back.Ok? {
          s, undo := saved.(phase := if predecessor.Some? && predecessor.value in saved.accepted then Active
                                     else if saved.phase.Verified? then Verified else Failed,
                            actual := predecessor, verification := None), Restored;
        } else {
          s, undo := saved.(fenced := true, phase := Quarantined), Unrestored;
        }
      } else if q.action.Retire? {
        s := saved.(fenced := true, phase := Quarantined);
      }
    }

    /** Writes the state, then the journal, then the recovered journal; any write may be the last. */
    method Commit(q: Request, w: World, s: State, j: Journal, recovery: bool) returns (r: Reply)
      requires recovery ==> q.parameters.Recover? && q.parameters.of in journals && q.parameters.of != q.id
      modifies this`saved, this`journals
      ensures r == Done(j) || (r.Died? && !Calm(w))
      ensures r.Done? ==> saved == s && journals == ClosedWith(old(journals), q, j, recovery)
      ensures r.Died? ==>
        || (saved in {old(saved), s} && journals == old(journals))
        || (saved == s && journals in {old(journals)[q.id := j], ClosedWith(old(journals), q, j, recovery)})
    {
      if !w.fault(20).Fine? {
        if TakesEffect(w.fault(20)) {
          saved := s;
        }
        return Died;
      }
      saved := s;
      if TakesEffect(w.fault(21)) {
        journals := journals[q.id := j];
      }
      if !w.fault(21).Fine? {
        return Died;
      }
      if recovery && j.result.Pass? {
        var of := q.parameters.of;
        if TakesEffect(w.fault(22)) {
          journals := journals[of := journals[of].(result := Recovered)];
        }
        if !w.fault(22).Fine? {
          return Died;
        }
      }
      return Done(j);
    }

    method Execute(q: Request, w: World) returns (r: Reply)
      requires Valid()
      modifies this
      ensures Serves(old(View()), q, w, r, View())
      ensures Valid()
    {
      hide Fits, Ended, Within;
      ghost var a := View();
      if q.id in journals {
        if journals[q.id].binding != q || journals[q.id].result.RunningOp? {
          return Refused;
        }
        return Replayed(journals[q.id]);
      }
      var interrupted := set i | i in journals && journals[i].result.RunningOp?;
      assert interrupted == Interrupted(journals);
      var recovery := interrupted != {};
      if recovery && !(q.action.Drain? && q.parameters.Recover? && interrupted == {q.parameters.of}
                       && journals[q.parameters.of].binding == q.parameters.binding) {
        return Refused;
      }
      if saved.fenced || saved.phase.Retired? {
        return Refused;
      }
      if !TakesEffect(w.fault(0)) {
        return Died;
      }
      assert recovery ==> q.parameters.of in interrupted;
      journals := journals[q.id := Journal(q, RunningOp, NotTried)];
      if !w.fault(0).Fine? {
        StillWithin(a, View(), q, pointer);
        r := Died;
      } else {
        r := Perform(q, w, recovery, a);
      }
      ServesKeepsFits(a, q, w, r, View());
    }

    /** The operation and its writes, once its journal is open. */
    method Perform(q: Request, w: World, recovery: bool, ghost a: Node) returns (r: Reply)
      requires View() == a.(journals := Opened(a.journals, q))
      requires recovery ==> q.parameters.Recover? && q.parameters.of in a.journals && q.parameters.of != q.id
      modifies this
      ensures match r
              case Done(j) =>
                && Ended(a, q, w, recovery, saved, j, pointer, passed)
                && journals == ClosedWith(a.journals, q, j, recovery)
              case Died => LeftByDeath(a, q, w, recovery, View())
              case _ => false
    {
      hide Ended, Within;
      ghost var start := View();
      var e, s, undo := Operate(q, w, recovery);
      if e.Dead? {
        StillWithin(a, start, q, pointer);
        return Died;
      }
      var j := Journal(q, if e.Raised? then Fail else ResultOf(s), undo);
      StillEnded(a, start, q, w, recovery, s, j, pointer, passed);
      r := Commit(q, w, s, j, recovery);
      assert Opened(a.journals, q)[q.id := j] == a.journals[q.id := j];
      assert ClosedWith(Opened(a.journals, q), q, j, recovery) == ClosedWith(a.journals, q, j, recovery);
      if r.Died? {
        assert CutOff(a.saved, a.journals, q, recovery, s, j, saved, journals);
      }
    }
  }

  lemma StillWithin(a: Node, b: Node, q: Request, pointer: Option<Bundle>)
    requires b.saved == a.saved && b.pointer == a.pointer && (Within(b, q, pointer) || pointer == a.pointer)
    ensures Within(a, q, pointer)
  {
  }

  lemma StillEnded(a: Node, b: Node, q: Request, w: World, recovery: bool, s: State, j: Journal,
                   pointer: Option<Bundle>, passed: set<Bundle>)
    requires b.saved == a.saved && b.pointer == a.pointer && b.passed == a.passed
    requires Ended(b, q, w, recovery, s, j, pointer, passed)
    ensures Ended(a, q, w, recovery, s, j, pointer, passed)
  {
  }

  // ---------------------------------------------------------------- every request keeps the record true

  lemma EndedIsSound(a: Node, q: Request, w: World, s: State, j: Journal, pointer: Option<Bundle>, passed: set<Bundle>)
    requires Sound(a.saved, a.pointer, a.passed) && !a.saved.fenced
    requires Ended(a, q, w, false, s, j, pointer, passed)
    ensures Sound(s, pointer, passed) && !j.result.RunningOp?
  {
    hide Moves, RolledBack;
    if j.result.Fail? && Touches(a.saved, q) {
      RollbackIsSound(a.saved, q, a.pointer, a.passed);
    }
    if Moves(a.saved, q, w, s) && passed == PassedBy(a.passed, a.saved, q, w) && pointer == PointerAfter(a, q) {
      MoveKeepsSound(a.saved, q, w, s, a.pointer, pointer, a.passed);
    }
  }

  /** An interrupted operation's writes, or a finished one's, leave a state that is old or new. */
  lemma EndedBasics(a: Node, q: Request, w: World, recovery: bool, s: State, j: Journal,
                    pointer: Option<Bundle>, passed: set<Bundle>)
    requires a.saved.accepted <= a.passed && (a.saved.fenced ==> a.saved.phase.Quarantined?) && !a.saved.fenced
    requires !recovery ==> Sound(a.saved, a.pointer, a.passed)
    requires Ended(a, q, w, recovery, s, j, pointer, passed)
    ensures a.passed <= passed && s.accepted <= passed && (s.fenced ==> s.phase.Quarantined?)
    ensures j.result in {Pass, AwaitingExternal, Fail}
    ensures recovery ==> s.phase.Draining? || (j.result.Fail? && s == a.saved)
  {
    hide Moves;
    if !recovery {
      EndedIsSound(a, q, w, s, j, pointer, passed);
    }
  }

  lemma ServesKeepsFits(a: Node, q: Request, w: World, r: Reply, b: Node)
    requires Fits(a) && Serves(a, q, w, r, b)
    ensures Fits(b)
  {
    hide Ended, Within, Sound;
    var recovery := Interrupted(a.journals) != {};
    if b != a {
      if r.Done? {
        EndedFits(a, q, w, recovery, b.saved, r.journal, b);
      } else if b == a.(journals := Opened(a.journals, q), pointer := b.pointer) {
        assert q.id in Interrupted(b.journals);
      } else {
        var s, j :| Ended(a, q, w, recovery, s, j, b.pointer, b.passed)
                    && CutOff(a.saved, a.journals, q, recovery, s, j, b.saved, b.journals);
        EndedFits(a, q, w, recovery, s, j, b);
      }
    }
  }

  lemma EndedFits(a: Node, q: Request, w: World, recovery: bool, s: State, j: Journal, b: Node)
    requires Fits(a) && !a.saved.fenced && q.id !in a.journals && recovery == (Interrupted(a.journals) != {})
    requires recovery ==> Recovers(a.journals, q)
    requires Ended(a, q, w, recovery, s, j, b.pointer, b.passed)
    requires CutOff(a.saved, a.journals, q, recovery, s, j, b.saved, b.journals)
    ensures Fits(b)
  {
    hide Ended, Sound;
    EndedBasics(a, q, w, recovery, s, j, b.pointer, b.passed);
    if b.journals == Opened(a.journals, q) {
      assert q.id in Interrupted(b.journals);
    } else if !recovery {
      EndedIsSound(a, q, w, s, j, b.pointer, b.passed);
    } else {
      assert q.parameters.of in Interrupted(a.journals);
      if !j.result.Pass? || b.journals == a.journals[q.id := j] {
        assert q.parameters.of in Interrupted(b.journals);
      } else {
        DrainingIsSound(s, b.pointer, b.passed);
      }
    }
  }

  lemma DrainingIsSound(s: State, pointer: Option<Bundle>, passed: set<Bundle>)
    requires s.accepted <= passed && (s.fenced ==> s.phase.Quarantined?) && s.phase.Draining?
    ensures Sound(s, pointer, passed)
  {
  }

  // ---------------------------------------------------------------- every run of requests

  /** Any requests, in any order, each with its own faults and deaths; a death ends one operation, and
      the next request finds what it left. */
  ghost predicate Run(nodes: seq<Node>, requests: seq<Request>, worlds: seq<World>, replies: seq<Reply>) {
    && |nodes| == |requests| + 1 == |worlds| + 1 == |replies| + 1
    && nodes[0] == FIRST
    && forall i | 0 <= i < |requests| :: Serves(nodes[i], requests[i], worlds[i], replies[i], nodes[i + 1])
  }

  /** Nothing more will ever be done: fenced, retired, or two operations interrupted. */
  ghost predicate Halted(n: Node) {
    n.saved.fenced || n.saved.phase.Retired?
      || (exists i, j :: i != j && i in Interrupted(n.journals) && j in Interrupted(n.journals))
  }

  lemma HaltedAnswers(a: Node, q: Request, w: World, r: Reply, b: Node)
    requires Serves(a, q, w, r, b) && Halted(a)
    ensures b == a
  {
    hide Ended, LeftByDeath;
    if !a.saved.fenced && !a.saved.phase.Retired? {
      var i, j :| i != j && i in Interrupted(a.journals) && j in Interrupted(a.journals);
      InterruptedRecoveryBlocksForGood(a.journals, i, j, q);
    }
  }

  /** Fenced is for good, and so are retired and twice interrupted. */
  lemma {:induction false} HaltedForGood(
      nodes: seq<Node>, requests: seq<Request>, worlds: seq<World>, replies: seq<Reply>, i: nat, j: nat)
    requires Run(nodes, requests, worlds, replies) && i <= j < |nodes| && Halted(nodes[i])
    ensures nodes[j] == nodes[i]
  {
    hide Serves, Halted;
    if i < j {
      HaltedForGood(nodes, requests, worlds, replies, i, j - 1);
      HaltedAnswers(nodes[j - 1], requests[j - 1], worlds[j - 1], replies[j - 1], nodes[j]);
    }
  }

  lemma {:induction false} RunFits(nodes: seq<Node>, requests: seq<Request>, worlds: seq<World>, replies: seq<Reply>,
      n: nat)
    requires Run(nodes, requests, worlds, replies) && n < |nodes|
    ensures Fits(nodes[n])
  {
    hide Serves;
    if n > 0 {
      RunFits(nodes, requests, worlds, replies, n - 1);
      ServesKeepsFits(nodes[n - 1], requests[n - 1], worlds[n - 1], replies[n - 1], nodes[n]);
    }
  }

  /** A finished operation keeps its receipt, and an interrupted one keeps its request until a drain recovers it. */
  ghost predicate JournalStays(a: Journal, b: Journal) {
    b == a || (a.result.RunningOp? && b == a.(result := Recovered))
  }

  lemma {:induction false} ReceiptsAreFinal(
      nodes: seq<Node>, requests: seq<Request>, worlds: seq<World>, replies: seq<Reply>, i: nat, j: nat, id: OpId)
    requires Run(nodes, requests, worlds, replies) && i <= j < |nodes| && id in nodes[i].journals
    ensures id in nodes[j].journals && JournalStays(nodes[i].journals[id], nodes[j].journals[id])
  {
    hide Serves;
    if i < j {
      ReceiptsAreFinal(nodes, requests, worlds, replies, i, j - 1, id);
      JournalsKept(nodes[j - 1], requests[j - 1], worlds[j - 1], replies[j - 1], nodes[j], id);
    }
  }

  lemma JournalsKept(a: Node, q: Request, w: World, r: Reply, b: Node, id: OpId)
    requires Serves(a, q, w, r, b) && id in a.journals
    ensures id in b.journals && JournalStays(a.journals[id], b.journals[id])
  {
    hide Ended, Within;
    if Recovers(a.journals, q) {
      assert q.parameters.of in Interrupted(a.journals);
    }
  }

  /** The one request that may follow an interruption of the operation `id`. */
  ghost predicate DrainOf(q: Request, id: OpId, binding: Request) {
    q.action.Drain? && q.parameters == Recover(id, binding)
  }

  lemma InterruptedAnswers(a: Node, q: Request, w: World, r: Reply, b: Node, id: OpId)
    requires Serves(a, q, w, r, b) && id in Interrupted(a.journals) && !DrainOf(q, id, a.journals[id].binding)
    ensures b == a && Answered(r)
  {
    hide Ended, LeftByDeath;
  }

  /** While an operation is interrupted, everything but the drain that names it is refused or replayed. */
  lemma {:induction false} InterruptedBlocks(
      nodes: seq<Node>, requests: seq<Request>, worlds: seq<World>, replies: seq<Reply>, i: nat, j: nat, id: OpId)
    requires Run(nodes, requests, worlds, replies) && i <= j < |nodes| && id in Interrupted(nodes[i].journals)
    requires forall k | i <= k < j :: !DrainOf(requests[k], id, nodes[i].journals[id].binding)
    ensures nodes[j] == nodes[i] && forall k | i <= k < j :: Answered(replies[k])
  {
    hide Serves;
    if i < j {
      InterruptedBlocks(nodes, requests, worlds, replies, i, j - 1, id);
      InterruptedAnswers(nodes[j - 1], requests[j - 1], worlds[j - 1], replies[j - 1], nodes[j], id);
    }
  }

  /** A death either left the node as it was, or its operation on record: finished and closed, or open under its
      own request, and then nothing but the drain that names it gets through. */
  lemma DeathBlocks(nodes: seq<Node>, requests: seq<Request>, worlds: seq<World>, replies: seq<Reply>, i: nat, j: nat)
    requires Run(nodes, requests, worlds, replies) && i < j < |nodes| && replies[i].Died? && nodes[i + 1] != nodes[i]
    ensures var q := requests[i]; q.id !in nodes[i].journals && q.id in nodes[i + 1].journals
    ensures var q, n := requests[i], nodes[i + 1];
      if n.journals[q.id].result.RunningOp? then
        && n.journals == Opened(nodes[i].journals, q)
        && ((forall k | i < k < j :: !DrainOf(requests[k], q.id, q)) ==> nodes[j] == n)
      else
        Ended(nodes[i], q, worlds[i], Interrupted(nodes[i].journals) != {}, n.saved, n.journals[q.id], n.pointer,
          n.passed)
  {
    hide Serves, Ended, LeftByDeath;
    assert Serves(nodes[i], requests[i], worlds[i], replies[i], nodes[i + 1]);
    RunFits(nodes, requests, worlds, replies, i);
    DeathLeaves(nodes[i], requests[i], worlds[i], nodes[i + 1]);
    var q, n := requests[i], nodes[i + 1];
    if n.journals[q.id].result.RunningOp? && forall k | i < k < j :: !DrainOf(requests[k], q.id, q) {
      assert q.id in Interrupted(n.journals);
      InterruptedBlocks(nodes, requests, worlds, replies, i + 1, j, q.id);
    }
  }

  lemma DeathLeaves(a: Node, q: Request, w: World, b: Node)
    requires Fits(a) && Serves(a, q, w, Died, b) && b != a
    ensures q.id !in a.journals && q.id in b.journals
    ensures if b.journals[q.id].result.RunningOp? then b.journals == Opened(a.journals, q)
            else Ended(a, q, w, Interrupted(a.journals) != {}, b.saved, b.journals[q.id], b.pointer, b.passed)
  {
    hide Ended, Within, Sound;
    var recovery := Interrupted(a.journals) != {};
    if b != a.(journals := Opened(a.journals, q), pointer := b.pointer) {
      var s, j :| Ended(a, q, w, recovery, s, j, b.pointer, b.passed)
                  && CutOff(a.saved, a.journals, q, recovery, s, j, b.saved, b.journals);
      EndedBasics(a, q, w, recovery, s, j, b.pointer, b.passed);
      if recovery {
        assert q.parameters.of in Interrupted(a.journals);
      }
    }
  }

  /** A failed operation left everything as it was, or put back the predecessor that had been active, or left
      nothing running where nothing had been accepted, or fenced the node for good. */
  lemma FailureIsUndoneOrFenced(
      nodes: seq<Node>, requests: seq<Request>, worlds: seq<World>, replies: seq<Reply>, i: nat, j: nat)
    requires Run(nodes, requests, worlds, replies) && i < j < |nodes|
    requires replies[i].Done? && replies[i].journal.result.Fail?
    ensures var a, b := nodes[i], nodes[i + 1];
      || (b.saved == a.saved && b.pointer == a.pointer)
      || (b.saved.fenced && nodes[j] == b)
      || (&& b.pointer == Predecessor(a.saved, requests[i]) && b.saved.actual == b.pointer
          && if b.pointer.Some? then b.saved.phase.Active? && b.pointer.value in a.saved.accepted
             else b.saved.phase.Failed?)
  {
    hide Moves, Sound, LeftByDeath, Within, Predecessor;
    assert Serves(nodes[i], requests[i], worlds[i], replies[i], nodes[i + 1]);
    RunFits(nodes, requests, worlds, replies, i);
    var a, q := nodes[i], requests[i];
    if nodes[i + 1].saved.fenced {
      HaltedForGood(nodes, requests, worlds, replies, i + 1, j);
    } else if Interrupted(a.journals) == {} && Touches(a.saved, q) {
      RollbackIsSound(a.saved, q, a.pointer, a.passed);
    }
  }

  /** The request presented the external receipt, all passed, that matches the challenge then open for the bundle. */
  ghost predicate Accepts(n: Node, q: Request, w: World, bundle: Bundle) {
    && q.action.CompleteVerification? && q.parameters.WithReceipt? && n.saved.verification.Some?
    && Matches(q.parameters.receipt, n.saved.verification.value, w.now)
    && q.parameters.receipt.allPass && q.parameters.receipt.bundle == bundle
  }

  lemma PassedGrows(a: Node, q: Request, w: World, r: Reply, b: Node, bundle: Bundle)
    requires Serves(a, q, w, r, b) && bundle in b.passed && bundle !in a.passed
    ensures Accepts(a, q, w, bundle)
  {
    hide Moves, Undone, Matches, CutOff, ClosedWith, Within;
  }

  lemma {:induction false} PassedWasPresented(
      nodes: seq<Node>, requests: seq<Request>, worlds: seq<World>, replies: seq<Reply>, n: nat, bundle: Bundle)
    requires Run(nodes, requests, worlds, replies) && n < |nodes| && bundle in nodes[n].passed
    ensures exists k :: 0 <= k < n && Accepts(nodes[k], requests[k], worlds[k], bundle)
  {
    hide Serves, Accepts;
    if n > 0 {
      assert Serves(nodes[n - 1], requests[n - 1], worlds[n - 1], replies[n - 1], nodes[n]);
      if bundle in nodes[n - 1].passed {
        PassedWasPresented(nodes, requests, worlds, replies, n - 1, bundle);
      } else {
        PassedGrows(nodes[n - 1], requests[n - 1], worlds[n - 1], replies[n - 1], nodes[n], bundle);
      }
    }
  }

  /** In every run, while nothing is interrupted, an active node runs exactly the bundle it records, and
      an earlier request presented that bundle's matching, all-pass external receipt. */
  lemma ActiveWasAccepted(nodes: seq<Node>, requests: seq<Request>, worlds: seq<World>, replies: seq<Reply>, n: nat)
    requires Run(nodes, requests, worlds, replies) && n < |nodes|
    requires Interrupted(nodes[n].journals) == {} && nodes[n].saved.phase.Active?
    ensures nodes[n].saved.actual.Some? && nodes[n].pointer == nodes[n].saved.actual
    ensures exists k :: 0 <= k < n && Accepts(nodes[k], requests[k], worlds[k], nodes[n].saved.actual.value)
  {
    hide Serves, Accepts, Run;
    RunFits(nodes, requests, worlds, replies, n);
    PassedWasPresented(nodes, requests, worlds, replies, n, nodes[n].saved.actual.value);
  }
}
