/** What becomes of a queued message: when it is due again, when it gives up, and how long it lasts.  And what a store
    shows of the service events it has taken in. */
module Outbox {
  import opened ChatTypes
  import opened Spool
  import opened ChatStore
  import opened Messenger
  import opened Receipts
  import opened Options

  // ---------------------------------------------------------------- attempts and their schedule

  /** Minutes to the next try after so many relays, an hour at most. */
  function Minutes(relays: nat): real {
    match relays
    case 0 => 1.0
    case 1 => 2.0
    case 2 => 4.0
    case 3 => 8.0
    case 4 => 16.0
    case 5 => 32.0
    case _ => 60.0
  }

  lemma DelayIsMinutes(relays: nat)
    ensures RetryDelay(if relays + 1 <= 7 then relays + 1 else 7) == 60.0 * Minutes(relays)
  {
    assert Doubled(0) == 60.0;
    assert Doubled(1) == 120.0;
    assert Doubled(2) == 240.0;
    assert Doubled(3) == 480.0;
    assert Doubled(4) == 960.0;
    assert Doubled(5) == 1920.0;
    assert Doubled(6) == 3840.0;
  }

  /** What the end of the current attempt leaves: delivered for good; relayed, and due again after a growing wait if it
      must be stored; or queued again at once. */
  lemma EndedAttempt(c: Chat, m: Message, t: Token, e: Ending, now: real, later: real)
    requires Current(c, m, t) && c.records[m].outgoing
    ensures var r, d := c.records[m], FinishAttempt(c, m, t, e, now);
      && d.records.Keys == c.records.Keys && (forall n | n in c.records && n != m :: d.records[n] == c.records[n])
      && d.records[m].attempt.None?
      && match e
         case EndedDelivered => d.records[m].status.Delivered? && !PendingNow(d, d.records[m], later)
         case EndedFailed => d.records[m].status.Queued? && PendingNow(d, d.records[m], later)
         case EndedRelayed =>
           && d.records[m].status.Relayed?
           && (PendingNow(d, d.records[m], later) <==>
                 r.requireStored && later >= now + 60.0 * Minutes(r.relayAttempts))
  {
    hide RetryDelay, Minutes;
    DelayIsMinutes(c.records[m].relayAttempts);
  }

  /** Where an outgoing message can be. */
  datatype Standing = Confirmed | GivenUp | InFlight | Waiting(until: real) | Due

  ghost function StandingOf(c: Chat, r: Record, now: real): Standing {
    match r.status
    case Delivered => Confirmed
    case RecipientStored => Confirmed
    case Expired => GivenUp
    case Queued => Due
    case Sending => if r.attempt.Some? && r.attempt.value.epoch == c.epoch then InFlight else Due
    case Relayed => if !r.requireStored then Confirmed else if now < r.retryAt then Waiting(r.retryAt) else Due
    case Received => Confirmed
  }

  /** In every run, exactly the messages that are due are listed, and each of them can be claimed at once. */
  lemma ListedIsDue(worlds: seq<World>, steps: seq<Step>, n: nat, u: Address, m: Message, now: real)
    requires Execution(worlds, steps) && n < |worlds| && u in worlds[n].users
    requires m in worlds[n].users[u].records && worlds[n].users[u].records[m].outgoing
    ensures var c := worlds[n].users[u];
      && (PendingNow(c, c.records[m], now) <==> StandingOf(c, c.records[m], now).Due?)
      && (PendingNow(c, c.records[m], now) ==> CanBegin(c, m))
      && !c.records[m].status.Received?
  {
    hide StatusInv, SignedInv, PurgesInv, SpoolInv, AttemptsInv, Next, ChatInv;
    OutgoingIsNotReceived(worlds, steps, n, u, m);
  }

  lemma {:induction false} OutgoingIsNotReceived(worlds: seq<World>, steps: seq<Step>, n: nat, u: Address, m: Message)
    requires Execution(worlds, steps) && n < |worlds| && u in worlds[n].users && m in worlds[n].users[u].records
    requires worlds[n].users[u].records[m].outgoing
    ensures !worlds[n].users[u].records[m].status.Received?
  {
    hide Next, Init;
    if n == 0 {
      NothingAtFirst(worlds[0], u);
    } else {
      assert Next(worlds[n - 1], steps[n - 1], worlds[n]);
      UsersStay(worlds[n - 1], steps[n - 1], worlds[n]);
      ReachableInv(worlds, steps, n - 1, n - 1);
      RecordStep(worlds[n - 1], steps[n - 1], worlds[n], u);
      assert RecordMoves(worlds[n - 1].users[u], worlds[n].users[u], m);
      if m in worlds[n - 1].users[u].records {
        OutgoingIsNotReceived(worlds, steps, n - 1, u, m);
      }
    }
  }

  lemma NothingAtFirst(w: World, u: Address)
    requires Init(w) && u in w.users
    ensures w.users[u].records == map[] && w.users[u].notices == map[]
  {
  }

  // ---------------------------------------------------------------- how long a message lasts

  /** What any step does to the terms of a record: nothing, once it is there. */
  ghost predicate RecordMoves(c: Chat, d: Chat, m: Message)
    requires m in d.records
  {
    if m in c.records then
      && d.records[m].requireStored == c.records[m].requireStored && d.records[m].expiresAt == c.records[m].expiresAt
      && d.records[m].outgoing == c.records[m].outgoing
      && (d.records[m].status.Received? ==> c.records[m].status.Received?)
    else
      && !d.records[m].status.Expired? && (d.records[m].outgoing ==> d.records[m].status.Queued?)
  }

  ghost predicate AllMove(c: Chat, d: Chat) { forall m | m in d.records :: RecordMoves(c, d, m) }

  lemma AddMoves(c: Chat, r: Record)
    requires Add(c, r).Some? && !r.status.Expired? && (r.outgoing ==> r.status.Queued?)
    ensures AllMove(c, Add(c, r).value)
  {
  }

  lemma MovesTransitive(a: Chat, b: Chat, c: Chat)
    requires AllMove(a, b) && AllMove(b, c) && a.records.Keys <= b.records.Keys <= c.records.Keys
    requires forall m | m in b.records && m !in a.records :: c.records[m].status == b.records[m].status
    ensures AllMove(a, c)
  {
    forall m | m in c.records ensures RecordMoves(a, c, m) {
      assert RecordMoves(b, c, m);
      assert m in b.records ==> RecordMoves(a, b, m);
    }
  }

  lemma RequeueMoves(c: Chat, r: Message)
    requires Requeue(c, r).Some?
    ensures AllMove(c, Requeue(c, r).value) && Requeue(c, r).value.records.Keys == c.records.Keys
    ensures forall m | m in c.records && m != r :: Requeue(c, r).value.records[m] == c.records[m]
    ensures Requeue(c, r).value.notices == c.notices
  {
  }

  lemma AddLeaves(c: Chat, r: Record)
    requires Add(c, r).Some?
    ensures var d := Add(c, r).value;
      && d == c.(records := d.records) && d.records.Keys == c.records.Keys + {r.packed.message}
      && (forall n | n in c.records :: d.records[n] == c.records[n])
  {
  }

  lemma LinkMoves(c: Chat, m: Message, r: Message)
    requires m in c.records
    ensures AllMove(c, With(c, m, c.records[m].(receipt := Some(r))))
  {
  }

  /** The receipt's record goes in and the message's names it. */
  lemma AttachMoves(c: Chat, m: Message, r: Packed)
    requires m in c.records && r.message != m && Add(c, NewRecord(r, true, m.source, false, 0.0)).Some?
    ensures var sent := Add(c, NewRecord(r, true, m.source, false, 0.0)).value;
      && m in sent.records
      && var d := With(sent, m, sent.records[m].(receipt := Some(r.message)));
      && AllMove(c, d) && d.records.Keys == c.records.Keys + {r.message} && d.notices == c.notices
      && (forall n | n in c.records ::
            d.records[n].status == c.records[n].status && d.records[n].outgoing == c.records[n].outgoing)
  {
    hide Add, AllMove;
    AddLeaves(c, NewRecord(r, true, m.source, false, 0.0));
    AddMoves(c, NewRecord(r, true, m.source, false, 0.0));
    var sent := Add(c, NewRecord(r, true, m.source, false, 0.0)).value;
    LinkMoves(sent, m, r.message);
    MovesTransitive(c, sent, With(sent, m, sent.records[m].(receipt := Some(r.message))));
  }

  /** The parts of a commit: the event, the message, and then its receipt, again or anew. */
  lemma CommitParts(c: Chat, p: Packed, receipt: Option<Packed>) returns (noticed: Chat, added: Chat)
    requires CommitReceived(c, p, receipt).Some?
    ensures noticed == c.(notices := noticed.notices)
    ensures if p.message.body.Service? then AcceptEvent(c, p.message) == Some(noticed) else noticed == c
    ensures Add(noticed, NewRecord(p, false, p.message.source, false, 0.0)) == Some(added)
    ensures var m, d := p.message, CommitReceived(c, p, receipt);
      if receipt.None? then d == Some(added)
      else if m in c.records && c.records[m].receipt.Some? then d == Requeue(added, c.records[m].receipt.value)
      else
        var sent := Add(added, NewRecord(receipt.value, true, m.source, false, 0.0));
        && sent.Some? && m in sent.value.records
        && d == Some(With(sent.value, m, sent.value.records[m].(receipt := Some(receipt.value.message))))
  {
    hide AcceptEvent, Requeue;
    EventLeavesRecords(c, p.message);
    noticed := if p.message.body.Service? then AcceptEvent(c, p.message).value else c;
    added := Add(noticed, NewRecord(p, false, p.message.source, false, 0.0)).value;
  }

  lemma SameRecordsMove(a: Chat, b: Chat, c: Chat)
    requires a.records == b.records && AllMove(b, c)
    ensures AllMove(a, c)
  {
    forall m | m in c.records ensures RecordMoves(a, c, m) {
      assert RecordMoves(b, c, m);
    }
  }

  lemma CommitMoves(c: Chat, p: Packed, receipt: Option<Packed>)
    requires ChatInv(c) && CommitReceived(c, p, receipt).Some?
    requires receipt.Some? ==> receipt.value.message != p.message
    ensures AllMove(c, CommitReceived(c, p, receipt).value)
  {
    hide ChatInv, AcceptEvent, AllMove, Requeue, Add, CommitReceived;
    var m := p.message;
    var noticed, added := CommitParts(c, p, receipt);
    AddLeaves(noticed, NewRecord(p, false, m.source, false, 0.0));
    AddMoves(noticed, NewRecord(p, false, m.source, false, 0.0));
    SameRecordsMove(c, noticed, added);
    if receipt.Some? {
      if m in c.records && c.records[m].receipt.Some? {
        ReceiptIsThere(c, m);
        RequeueMoves(added, c.records[m].receipt.value);
      } else {
        AttachMoves(added, m, receipt.value);
      }
      MovesTransitive(c, added, CommitReceived(c, p, receipt).value);
    }
  }

  lemma ReceiveMoves(c: Chat, p: Packed, genuine: bool, applicable: bool, ts: nat, sig: nat)
    requires ChatInv(c) && Receive(c, p, genuine, applicable, ts, sig).Some?
    ensures AllMove(c, Receive(c, p, genuine, applicable, ts, sig).value)
  {
    hide ChatInv, CommitReceived;
    if !p.message.body.Stored? {
      NotItsOwnReceipt(c, p.message, ts);
      if c.durable {
        CommitMoves(c, p, Some(ReceiptFor(c, p.message, ts, sig)));
      } else if p.message.body.Service? {
        CommitMoves(c, p, None);
      }
    }
  }

  lemma NotItsOwnReceipt(c: Chat, m: Message, ts: nat)
    requires !m.body.Stored?
    ensures Message(m.source, c.me, ts, Stored(m)) != m
  {
  }

  lemma OwnMoves(c: Chat, p: Packed, m: Message, t: Token, made: Blob, e: Ending, now: real)
    ensures Queue(c, p, now).Some? ==> AllMove(c, Queue(c, p, now).value)
    ensures BeginAttempt(c, m, t.nonce).Some? ==> AllMove(c, BeginAttempt(c, m, t.nonce).value)
    ensures RelayBlob(c, m, made).Some? ==> AllMove(c, RelayBlob(c, m, made).value.0)
    ensures AllMove(c, FinishAttempt(c, m, t, e, now)) && AllMove(c, ExpireOutbox(c, now))
  {
    hide Deadline, RetryDelay;
  }

  const NO_MESSAGE := Message(0, 0, 0, Text(0))
  const NO_BLOB := Blob(0, 0, 0, None)

  lemma ReceiveStepMoves(w: World, step: Step, x: World)
    requires WorldInv(w) && Next(w, step, x) && (step.Pull? || step.Direct?)
    ensures step.user in x.users && AllMove(w.users[step.user], x.users[step.user])
  {
    hide Receive, Signs, AllMove, SignedInv, StatusInv, PurgesInv, SpoolInv, AttemptsInv, ChatInv;
    var p := if step.Pull? then step.blob.plain.value else step.packed;
    ReceiveMoves(w.users[step.user], p, p in w.signed, step.applicable, step.timestamp, step.signature);
  }

  lemma OwnStepMoves(w: World, step: Step, x: World)
    requires Next(w, step, x) && (step.Compose? || step.Begin? || step.Upload? || step.Finish? || step.Age?)
    ensures step.user in x.users && AllMove(w.users[step.user], x.users[step.user])
  {
    hide Queue, BeginAttempt, RelayBlob, FinishAttempt, ExpireOutbox, AllMove;
    var c := w.users[step.user];
    match step {
      case Compose(v, p, now) => OwnMoves(c, p, NO_MESSAGE, Token(0, 0), NO_BLOB, EndedFailed, now);
      case Begin(v, m, nonce) => OwnMoves(c, Packed(m, 0), m, Token(0, nonce), NO_BLOB, EndedFailed, 0.0);
      case Upload(v, m, t, made) => OwnMoves(c, Packed(m, 0), m, t, made, EndedFailed, 0.0);
      case Finish(v, m, t, e, now) => OwnMoves(c, Packed(m, 0), m, t, NO_BLOB, e, now);
      case Age(v, now) => OwnMoves(c, Packed(NO_MESSAGE, 0), NO_MESSAGE, Token(0, 0), NO_BLOB, EndedFailed, now);
    }
  }

  lemma RecordStep(w: World, step: Step, x: World, u: Address)
    requires WorldInv(w) && Next(w, step, x) && u in w.users && u in x.users
    ensures AllMove(w.users[u], x.users[u])
  {
    hide Receive, PutOutcome, AfterPut, Purged, Fresh, WorldInv, Signs, Queue, BeginAttempt, RelayBlob, FinishAttempt,
         ExpireOutbox, AllMove;
    if !step.RelayExpire? && step.user == u && (step.Pull? || step.Direct?) {
      ReceiveStepMoves(w, step, x);
    } else if !step.RelayExpire? && step.user == u
              && (step.Compose? || step.Begin? || step.Upload? || step.Finish? || step.Age?) {
      OwnStepMoves(w, step, x);
    } else {
      SameMoves(w.users[u], x.users[u]);
    }
  }

  lemma SameMoves(c: Chat, d: Chat)
    requires d.records == c.records
    ensures AllMove(c, d)
  {
  }

  /** A message has been composed here: it lasts a week, or as long as the service event it carries if that is less. */
  ghost predicate Lasts(m: Message, composed: real, until: real) {
    if m.body.Service? && m.body.event.expires < composed + 7.0 * 86400.0 then until == m.body.event.expires
    else until == composed + 7.0 * 86400.0
  }

  lemma {:induction false} TermsStay(worlds: seq<World>, steps: seq<Step>, i: nat, j: nat, u: Address, m: Message)
    requires Execution(worlds, steps) && i <= j < |worlds| && u in worlds[i].users && m in worlds[i].users[u].records
    ensures u in worlds[j].users && m in worlds[j].users[u].records
    ensures worlds[j].users[u].records[m].requireStored == worlds[i].users[u].records[m].requireStored
    ensures worlds[j].users[u].records[m].expiresAt == worlds[i].users[u].records[m].expiresAt
  {
    hide Next, WorldInv;
    if i < j {
      TermsStay(worlds, steps, i, j - 1, u, m);
      ReachableInv(worlds, steps, j - 1, j - 1);
      ReachableInv(worlds, steps, j - 1, j);
      assert Next(worlds[j - 1], steps[j - 1], worlds[j]);
      RecordStep(worlds[j - 1], steps[j - 1], worlds[j], u);
      assert RecordMoves(worlds[j - 1].users[u], worlds[j].users[u], m);
    }
  }

  /** Over every run: a message composed in a durable store that is not a receipt is confirmed or given up at the first
      look at the outbox after its time. */
  lemma GivenUpInTime(worlds: seq<World>, steps: seq<Step>, i: nat, j: nat, u: Address, m: Message, until: real)
    requires Execution(worlds, steps) && i < j < |steps| && steps[i].Compose? && steps[i].user == u
    requires steps[i].packed.message == m && !m.body.Stored? && u in worlds[i].users && worlds[i].users[u].durable
    requires m !in worlds[i].users[u].records && Lasts(m, steps[i].now, until)
    requires steps[j].Age? && steps[j].user == u && steps[j].now >= until
    ensures u in worlds[j + 1].users && m in worlds[j + 1].users[u].records
    ensures worlds[j + 1].users[u].records[m].status in {RecipientStored, Delivered, Expired}
  {
    hide WorldInv, Next;
    assert Next(worlds[i], steps[i], worlds[i + 1]) && Next(worlds[j], steps[j], worlds[j + 1]);
    ComposedLasts(worlds[i], steps[i], worlds[i + 1], until);
    TermsStay(worlds, steps, i + 1, j, u, m);
    AgedIsFinal(worlds[j], steps[j], worlds[j + 1], m);
  }

  lemma ComposedLasts(w: World, step: Step, x: World, until: real)
    requires Next(w, step, x) && step.Compose? && Lasts(step.packed.message, step.now, until)
    requires w.users[step.user].durable && step.packed.message !in w.users[step.user].records
    requires !step.packed.message.body.Stored?
    ensures step.user in x.users && step.packed.message in x.users[step.user].records
    ensures x.users[step.user].records[step.packed.message].requireStored
    ensures x.users[step.user].records[step.packed.message].expiresAt == until
  {
  }

  lemma AgedIsFinal(w: World, step: Step, x: World, m: Message)
    requires Next(w, step, x) && step.Age? && m in w.users[step.user].records
    requires w.users[step.user].records[m].requireStored && step.now >= w.users[step.user].records[m].expiresAt
    ensures step.user in x.users && m in x.users[step.user].records
    ensures x.users[step.user].records[m].status in {RecipientStored, Delivered, Expired}
  {
  }

  /** Over every run: a message is given up only by a look at the outbox after its own time. */
  lemma {:induction false} GivenUpWasOverdue(worlds: seq<World>, steps: seq<Step>, n: nat, u: Address, m: Message)
    returns (j: nat)
    requires Execution(worlds, steps) && n < |worlds| && u in worlds[n].users && m in worlds[n].users[u].records
    requires worlds[n].users[u].records[m].status.Expired?
    ensures j < n && steps[j].Age? && steps[j].user == u && worlds[n].users[u].records[m].requireStored
    ensures steps[j].now >= worlds[n].users[u].records[m].expiresAt
  {
    hide Next, WorldInv, Init;
    if n == 0 {
      NothingAtFirst(worlds[0], u);
    } else {
      var w, x := worlds[n - 1], worlds[n];
      assert Next(w, steps[n - 1], x);
      UsersStay(w, steps[n - 1], x);
      ReachableInv(worlds, steps, n - 1, n - 1);
      ReachableInv(worlds, steps, n - 1, n);
      RecordStep(w, steps[n - 1], x, u);
      assert RecordMoves(w.users[u], x.users[u], m);
      if m in w.users[u].records && w.users[u].records[m].status.Expired? {
        j := GivenUpWasOverdue(worlds, steps, n - 1, u, m);
      } else {
        ExpiredStep(w, steps[n - 1], x, u, m);
        j := n - 1;
      }
    }
  }

  lemma OwnGivesUpNone(c: Chat, p: Packed, n: Message, t: Token, made: Blob, e: Ending, now: real, m: Message)
    requires m in c.records && !c.records[m].status.Expired?
    ensures Queue(c, p, now).Some? ==> StillOpen(Queue(c, p, now).value, m)
    ensures BeginAttempt(c, n, t.nonce).Some? ==> StillOpen(BeginAttempt(c, n, t.nonce).value, m)
    ensures RelayBlob(c, n, made).Some? ==> StillOpen(RelayBlob(c, n, made).value.0, m)
    ensures StillOpen(FinishAttempt(c, n, t, e, now), m)
  {
    hide Deadline, RetryDelay;
  }

  ghost predicate StillOpen(c: Chat, m: Message) { m in c.records && !c.records[m].status.Expired? }

  lemma ReceiveStepKeepsOpen(w: World, step: Step, x: World, m: Message)
    requires WorldInv(w) && Next(w, step, x) && (step.Pull? || step.Direct?) && StillOpen(w.users[step.user], m)
    ensures step.user in x.users && StillOpen(x.users[step.user], m)
  {
    hide Receive, Signs, SignedInv, StatusInv, PurgesInv, SpoolInv, AttemptsInv, ChatInv;
    var p := if step.Pull? then step.blob.plain.value else step.packed;
    ReceiveGivesUpNone(w.users[step.user], p, p in w.signed, step.applicable, step.timestamp, step.signature, m);
  }

  lemma OwnStepKeepsOpen(w: World, step: Step, x: World, m: Message)
    requires Next(w, step, x) && (step.Compose? || step.Begin? || step.Upload? || step.Finish?)
    requires StillOpen(w.users[step.user], m)
    ensures step.user in x.users && StillOpen(x.users[step.user], m)
  {
    hide Queue, BeginAttempt, RelayBlob, FinishAttempt;
    var c := w.users[step.user];
    match step {
      case Compose(v, p, now) => OwnGivesUpNone(c, p, m, Token(0, 0), NO_BLOB, EndedFailed, now, m);
      case Begin(v, n, nonce) => OwnGivesUpNone(c, Packed(m, 0), n, Token(0, nonce), NO_BLOB, EndedFailed, 0.0, m);
      case Upload(v, n, t, made) => OwnGivesUpNone(c, Packed(m, 0), n, t, made, EndedFailed, 0.0, m);
      case Finish(v, n, t, e, now) => OwnGivesUpNone(c, Packed(m, 0), n, t, NO_BLOB, e, now, m);
    }
  }

  lemma StepKeepsOpen(w: World, step: Step, x: World, u: Address, m: Message)
    requires WorldInv(w) && Next(w, step, x) && u in w.users && u in x.users && StillOpen(w.users[u], m)
    requires !(step.Age? && step.user == u)
    ensures StillOpen(x.users[u], m)
  {
    hide Receive, PutOutcome, AfterPut, Purged, Fresh, WorldInv, Signs, Queue, BeginAttempt, RelayBlob, FinishAttempt,
         ExpireOutbox;
    if !step.RelayExpire? && step.user == u && (step.Pull? || step.Direct?) {
      ReceiveStepKeepsOpen(w, step, x, m);
    } else if !step.RelayExpire? && step.user == u && (step.Compose? || step.Begin? || step.Upload? || step.Finish?) {
      OwnStepKeepsOpen(w, step, x, m);
    }
  }

  lemma AgedWasOverdue(w: World, step: Step, x: World, m: Message)
    requires Next(w, step, x) && step.Age? && StillOpen(w.users[step.user], m) && step.user in x.users
    requires !StillOpen(x.users[step.user], m)
    ensures Overdue(w.users[step.user].records[m], step.now)
  {
  }

  lemma ExpiredStep(w: World, step: Step, x: World, u: Address, m: Message)
    requires WorldInv(w) && Next(w, step, x) && u in w.users && u in x.users && StillOpen(w.users[u], m)
    requires !StillOpen(x.users[u], m)
    ensures step.Age? && step.user == u && Overdue(w.users[u].records[m], step.now)
  {
    hide Next, WorldInv;
    if step.Age? && step.user == u {
      AgedWasOverdue(w, step, x, m);
    } else {
      StepKeepsOpen(w, step, x, u, m);
    }
  }

  lemma ReceiveGivesUpNone(c: Chat, p: Packed, genuine: bool, applicable: bool, ts: nat, sig: nat, m: Message)
    requires ChatInv(c) && Receive(c, p, genuine, applicable, ts, sig).Some? && m in c.records
    requires !c.records[m].status.Expired?
    ensures m in Receive(c, p, genuine, applicable, ts, sig).value.records
    ensures !Receive(c, p, genuine, applicable, ts, sig).value.records[m].status.Expired?
  {
    hide ChatInv, CommitReceived, Grows;
    ReceiveKeeps(c, p, genuine, applicable, ts, sig);
    GrownHas(c, Receive(c, p, genuine, applicable, ts, sig).value, m);
    if !p.message.body.Stored? {
      if c.durable {
        CommitAdditive(c, p, Some(ReceiptFor(c, p.message, ts, sig)));
      } else if p.message.body.Service? {
        CommitAdditive(c, p, None);
      }
    }
  }

  lemma GrownHas(c: Chat, d: Chat, m: Message)
    requires Grows(c, d) && m in c.records
    ensures m in d.records
  {
  }

  // ---------------------------------------------------------------- service notices

  /** The notice under a publisher and an ID is an event taken in from there, the newest of them. */
  ghost predicate NoticesInv(c: Chat) {
    && (forall m | m in c.records && !c.records[m].outgoing && m.body.Service? :: Reflected(c, m))
    && (forall k | k in c.notices :: Backed(c, k))
  }

  ghost predicate Reflected(c: Chat, m: Message)
    requires m.body.Service?
  {
    var e, k := m.body.event, (m.source, m.body.event.id);
    && k in c.notices && e.revision <= c.notices[k].revision
    && (e.revision == c.notices[k].revision ==> e == c.notices[k])
  }

  ghost predicate Backed(c: Chat, k: (Address, nat))
    requires k in c.notices
  {
    exists m | m in c.records :: m.source == k.0 && m.body == Service(c.notices[k]) && c.notices[k].id == k.1
  }

  lemma EventNotices(c: Chat, m: Message)
    requires m.body.Service? && AcceptEvent(c, m).Some?
    ensures var d, k := AcceptEvent(c, m).value, (m.source, m.body.event.id);
      && d == c.(notices := c.notices[k := m.body.event])
      && (k in c.notices ==>
            c.notices[k].revision < m.body.event.revision || c.notices[k] == m.body.event)
  {
  }

  /** A commit of a service message moves its notice and no other; any other commit moves none. */
  lemma CommitNotices(c: Chat, p: Packed, receipt: Option<Packed>)
    requires CommitReceived(c, p, receipt).Some?
    requires receipt.Some? ==> receipt.value.message != p.message && receipt.value.message.body.Stored?
    ensures var d := CommitReceived(c, p, receipt).value;
      && p.message in d.records
      && (forall m | m in d.records && m !in c.records && m.body.Service? :: m == p.message)
      && d.notices == if p.message.body.Service?
                      then c.notices[(p.message.source, p.message.body.event.id) := p.message.body.event] else c.notices
  {
    hide AcceptEvent, AllMove, Requeue, Add, CommitReceived;
    var m := p.message;
    var noticed, added := CommitParts(c, p, receipt);
    if m.body.Service? {
      EventNotices(c, m);
    }
    AddLeaves(noticed, NewRecord(p, false, m.source, false, 0.0));
    if receipt.Some? {
      if m in c.records && c.records[m].receipt.Some? {
        RequeueMoves(added, c.records[m].receipt.value);
      } else {
        AttachMoves(added, m, receipt.value);
      }
    }
  }

  lemma CommitKeepsNotices(c: Chat, p: Packed, receipt: Option<Packed>)
    requires NoticesInv(c) && ChatInv(c) && CommitReceived(c, p, receipt).Some?
    requires receipt.Some? ==> receipt.value.message != p.message && receipt.value.message.body.Stored?
    requires Grows(c, CommitReceived(c, p, receipt).value)
    ensures NoticesInv(CommitReceived(c, p, receipt).value)
  {
    hide CommitReceived, ChatInv, AcceptEvent;
    var d, n := CommitReceived(c, p, receipt).value, p.message;
    CommitNotices(c, p, receipt);
    if n.body.Service? {
      CommitTookEvent(c, p, receipt);
      EventNotices(c, n);
    }
    forall m | m in d.records && !d.records[m].outgoing && m.body.Service? ensures Reflected(d, m) {
      if m in c.records {
        assert Keeps(c.records[m], d.records[m]);
        assert Reflected(c, m);
      }
    }
    forall k | k in d.notices ensures Backed(d, k) {
      if n.body.Service? && k == (n.source, n.body.event.id) {
        assert n in d.records;
      } else {
        assert Backed(c, k);
      }
    }
  }

  lemma CommitTookEvent(c: Chat, p: Packed, receipt: Option<Packed>)
    requires CommitReceived(c, p, receipt).Some? && p.message.body.Service?
    ensures AcceptEvent(c, p.message).Some?
  {
  }

  lemma ReceiveKeepsNotices(c: Chat, p: Packed, genuine: bool, applicable: bool, ts: nat, sig: nat)
    requires NoticesInv(c) && ChatInv(c) && Receive(c, p, genuine, applicable, ts, sig).Some?
    ensures NoticesInv(Receive(c, p, genuine, applicable, ts, sig).value)
  {
    hide ChatInv, CommitReceived, Grows, NoticesInv;
    ReceiveKeeps(c, p, genuine, applicable, ts, sig);
    var d := Receive(c, p, genuine, applicable, ts, sig).value;
    if p.message.body.Stored? || (!c.durable && !p.message.body.Service?) {
      PlainKeepsNotices(c, d);
    } else {
      NotItsOwnReceipt(c, p.message, ts);
      CommitKeepsNotices(c, p, if c.durable then Some(ReceiptFor(c, p.message, ts, sig)) else None);
    }
  }

  /** Records that are not service messages change no notice. */
  lemma PlainKeepsNotices(c: Chat, d: Chat)
    requires NoticesInv(c) && d.notices == c.notices && Grows(c, d)
    requires forall m | m in d.records && m !in c.records :: !m.body.Service? || d.records[m].outgoing
    ensures NoticesInv(d)
  {
    forall m | m in d.records && !d.records[m].outgoing && m.body.Service? ensures Reflected(d, m) {
      assert Keeps(c.records[m], d.records[m]);
      assert Reflected(c, m);
    }
    forall k | k in d.notices ensures Backed(d, k) {
      assert Backed(c, k);
    }
  }

  lemma OwnKeepsNotices(w: World, step: Step, x: World, u: Address)
    requires Next(w, step, x) && u in w.users && u in x.users && !(step.Pull? && step.user == u)
    requires !(step.Direct? && step.user == u)
    ensures x.users[u].notices == w.users[u].notices
    ensures forall m | m in x.users[u].records && m !in w.users[u].records :: x.users[u].records[m].outgoing
  {
    hide Receive, PutOutcome, AfterPut, Purged, Fresh, Signs, Deadline, RetryDelay, Aged, Ended;
  }

  lemma {:induction false} ReachableNotices(worlds: seq<World>, steps: seq<Step>, n: nat, u: Address)
    requires Execution(worlds, steps) && n < |worlds| && u in worlds[n].users
    ensures NoticesInv(worlds[n].users[u])
  {
    hide Next, Init, NoticesInv, Grows, WorldInv;
    if n == 0 {
      NothingAtFirst(worlds[0], u);
      NoNotices(worlds[0].users[u]);
    } else {
      var w, x, step := worlds[n - 1], worlds[n], steps[n - 1];
      assert Next(w, step, x);
      UsersStay(w, step, x);
      ReachableNotices(worlds, steps, n - 1, u);
      ReachableInv(worlds, steps, n - 1, n - 1);
      ReachableInv(worlds, steps, n - 1, n);
      NoticeStep(w, step, x, u);
    }
  }

  lemma NoNotices(c: Chat)
    requires c.records == map[] && c.notices == map[]
    ensures NoticesInv(c)
  {
  }

  lemma NoticeStep(w: World, step: Step, x: World, u: Address)
    requires WorldInv(w) && Next(w, step, x) && u in w.users && u in x.users && Grows(w.users[u], x.users[u])
    requires NoticesInv(w.users[u])
    ensures NoticesInv(x.users[u])
  {
    hide Receive, PutOutcome, AfterPut, Purged, Fresh, Signs, SignedInv, StatusInv, PurgesInv, SpoolInv, AttemptsInv,
         ChatInv, NoticesInv, Grows, Queue, BeginAttempt, RelayBlob, FinishAttempt, ExpireOutbox;
    if step.Pull? && step.user == u {
      var p := step.blob.plain.value;
      ReceiveKeepsNotices(w.users[u], p, p in w.signed, step.applicable, step.timestamp, step.signature);
    } else if step.Direct? && step.user == u {
      var p := step.packed;
      ReceiveKeepsNotices(w.users[u], p, p in w.signed, step.applicable, step.timestamp, step.signature);
    } else {
      OwnKeepsNotices(w, step, x, u);
      PlainKeepsNotices(w.users[u], x.users[u]);
    }
  }

  /** In every run, for every service message a store has taken in, the notice under its publisher and ID is that
      event, or a newer one that was itself taken in from that publisher. */
  lemma NoticeIsNewest(worlds: seq<World>, steps: seq<Step>, n: nat, u: Address, m: Message)
    requires Execution(worlds, steps) && n < |worlds| && u in worlds[n].users
    requires m in worlds[n].users[u].records && !worlds[n].users[u].records[m].outgoing && m.body.Service?
    ensures var c, k := worlds[n].users[u], (m.source, m.body.event.id);
      && k in c.notices
      && (c.notices[k] == m.body.event || m.body.event.revision < c.notices[k].revision)
      && exists o | o in c.records :: o.source == m.source && o.body == Service(c.notices[k])
  {
    hide Next, Init;
    ReachableNotices(worlds, steps, n, u);
    assert Reflected(worlds[n].users[u], m);
    assert Backed(worlds[n].users[u], (m.source, m.body.event.id));
  }
}
