/** Storage receipts: when a message is taken in, the receipt that a durable store then owes its author, and the
    runs in which the receipt gets back. */
module Receipts {
  import opened ChatTypes
  import opened Spool
  import opened ChatStore
  import opened Messenger
  import opened Options

  // ---------------------------------------------------------------- what is taken in

  /** The message is genuine, addressed to this store, and from someone it takes this kind from; a receipt must
      be for a message that this store sent to its author. */
  predicate Welcome(c: Chat, p: Packed, genuine: bool, applicable: bool) {
    && p.message.target == c.me && genuine
    && match p.message.body
       case Stored(t) =>
         && p.message.source in c.contacts + c.publishers && t in c.records && c.records[t].outgoing
         && c.records[t].peer == p.message.source && !t.body.Stored?
       case Service(e) => p.message.source in c.publishers && applicable
       case _ => p.message.source in c.contacts
  }

  /** A service event is no older than the one known under its publisher and ID, and there is room for a new one. */
  predicate EventFits(c: Chat, m: Message) {
    m.body.Service? ==>
      var e, k := m.body.event, (m.source, m.body.event.id);
      if k in c.notices then e.revision > c.notices[k].revision || e == c.notices[k]
      else |c.notices| < HISTORY_QUOTA
  }

  /** The store has yet to make the receipt of the message. */
  predicate Owed(c: Chat, m: Message) {
    c.durable && !(m in c.records && c.records[m].receipt.Some?)
  }

  /** How many records have to be added: the message's, and that of the receipt owed, unless they are there. */
  function Needed(c: Chat, m: Message, timestamp: nat): nat {
    (if m in c.records then 0 else 1)
    + (if Owed(c, m) && Message(m.source, c.me, timestamp, Stored(m)) !in c.records then 1 else 0)
  }

  predicate RoomFor(c: Chat, m: Message, timestamp: nat) {
    Needed(c, m, timestamp) == 0 || |c.records| + Needed(c, m, timestamp) <= HISTORY_QUOTA
  }

  lemma AddCounts(c: Chat, r: Record)
    ensures Add(c, r).Some? <==> r.packed.message in c.records || |c.records| < HISTORY_QUOTA
    ensures Add(c, r).Some? ==>
      && Add(c, r).value.records.Keys == c.records.Keys + {r.packed.message}
      && |Add(c, r).value.records| == |c.records| + if r.packed.message in c.records then 0 else 1
  {
    if r.packed.message !in c.records && |c.records| < HISTORY_QUOTA {
      GrownMap(c.records, r.packed.message, r);
    }
  }

  lemma GrownMap(records: map<Message, Record>, m: Message, r: Record)
    requires m !in records
    ensures |records[m := r]| == |records| + 1
  {
    assert records[m := r].Keys == records.Keys + {m};
    assert |records.Keys| == |records| && |records[m := r].Keys| == |records[m := r]|;
  }

  lemma EventExactly(c: Chat, m: Message)
    requires m.body.Service?
    ensures AcceptEvent(c, m).Some? <==> EventFits(c, m)
    ensures AcceptEvent(c, m).Some? ==> AcceptEvent(c, m).value == c.(notices := AcceptEvent(c, m).value.notices)
  {
  }

  /** Both records of a commit that owes a receipt go in exactly when there is room for those not there yet. */
  lemma BothFit(c: Chat, a: Record, b: Record)
    requires a.packed.message != b.packed.message
    ensures var needed := (if a.packed.message in c.records then 0 else 1)
                          + (if b.packed.message in c.records then 0 else 1);
      Add(c, a).Some? && Add(Add(c, a).value, b).Some? <==> needed == 0 || |c.records| + needed <= HISTORY_QUOTA
  {
    hide Add;
    AddCounts(c, a);
    if Add(c, a).Some? {
      AddCounts(Add(c, a).value, b);
    }
  }

  /** The commit of a message whose event, if any, has been taken in. */
  lemma CommitFits(c: Chat, noticed: Chat, p: Packed, timestamp: nat, signature: nat)
    requires ChatInv(c) && !p.message.body.Stored? && noticed == c.(notices := noticed.notices)
    requires if p.message.body.Service? then AcceptEvent(c, p.message) == Some(noticed) else noticed == c
    ensures CommitReceived(c, p, ReceiptIf(c, p, timestamp, signature, c.durable)).Some? <==>
            RoomFor(c, p.message, timestamp)
  {
    hide ChatInv, AcceptEvent, Add;
    var m := p.message;
    var a := NewRecord(p, false, m.source, false, 0.0);
    var b := NewRecord(ReceiptFor(c, m, timestamp, signature), true, m.source, false, 0.0);
    AddCounts(noticed, a);
    if m in c.records && c.records[m].receipt.Some? {
      ReceiptIsThere(c, m);
    } else if c.durable {
      BothFit(noticed, a, b);
    }
  }

  lemma CommitExactly(c: Chat, p: Packed, timestamp: nat, signature: nat)
    requires ChatInv(c) && !p.message.body.Stored?
    ensures var receipt := ReceiptIf(c, p, timestamp, signature, c.durable);
      CommitReceived(c, p, receipt).Some? <==> EventFits(c, p.message) && RoomFor(c, p.message, timestamp)
  {
    hide ChatInv, AcceptEvent, EventFits, Add, RoomFor;
    if p.message.body.Service? {
      EventExactly(c, p.message);
      if EventFits(c, p.message) {
        CommitFits(c, AcceptEvent(c, p.message).value, p, timestamp, signature);
      }
    } else {
      PlainFits(c, p.message);
      CommitFits(c, c, p, timestamp, signature);
    }
  }

  lemma PlainFits(c: Chat, m: Message)
    requires !m.body.Service?
    ensures EventFits(c, m)
  {
  }

  lemma ReceiptIsThere(c: Chat, m: Message)
    requires ChatInv(c) && m in c.records && c.records[m].receipt.Some?
    ensures c.records[m].receipt.value in c.records
  {
    assert RecordSound(c, m);
  }

  /** A message is taken in exactly when it is welcome, its event is in time, and there is room for it and for the
      receipt owed. */
  lemma ReceiveExactly(c: Chat, p: Packed, genuine: bool, applicable: bool, timestamp: nat, signature: nat)
    requires ChatInv(c)
    ensures Receive(c, p, genuine, applicable, timestamp, signature).Some? <==>
      && Welcome(c, p, genuine, applicable)
      && (p.message.body.Stored? || (EventFits(c, p.message) && RoomFor(c, p.message, timestamp)))
  {
    hide ChatInv, CommitReceived, AcceptEvent, EventFits, RoomFor;
    if !p.message.body.Stored? {
      CommitExactly(c, p, timestamp, signature);
      if !c.durable && !p.message.body.Service? {
        PlainFits(c, p.message);
        PlainAddFits(c, p, timestamp);
      }
    }
  }

  lemma PlainAddFits(c: Chat, p: Packed, timestamp: nat)
    requires !c.durable
    ensures Add(c, NewRecord(p, false, p.message.source, false, 0.0)).Some? <==> RoomFor(c, p.message, timestamp)
  {
  }

  // ---------------------------------------------------------------- the receipt of a commit

  /** The store has the message and its receipt: its own, to the author, for this very message. */
  ghost predicate HasReceipt(c: Chat, m: Message) {
    && m in c.records && c.records[m].receipt.Some?
    && var r := c.records[m].receipt.value;
    && r in c.records && r.body == Stored(m) && r.source == c.me && r.target == m.source
    && c.records[r].outgoing && c.records[r].peer == m.source && c.records[r].packed.message == r
  }

  lemma LinkIsReceipt(c: Chat, m: Message)
    requires ChatInv(c) && m in c.records && c.records[m].receipt.Some?
    ensures HasReceipt(c, m)
  {
    assert RecordSound(c, m);
    assert RecordSound(c, c.records[m].receipt.value);
  }

  /** Taking in a message, a durable store files it and its receipt: a new receipt is queued; a known one is queued
      again unless it is being sent. */
  lemma ReceiptIsQueued(c: Chat, p: Packed, genuine: bool, applicable: bool, timestamp: nat, signature: nat)
    requires ChatInv(c) && c.durable && !p.message.body.Stored?
    requires Receive(c, p, genuine, applicable, timestamp, signature).Some?
    ensures var d, m := Receive(c, p, genuine, applicable, timestamp, signature).value, p.message;
      && HasReceipt(d, m)
      && var r := d.records[m].receipt.value;
      && (if Owed(c, m) then r.timestamp == timestamp else Some(r) == c.records[m].receipt)
      && (r !in c.records ==> d.records[r].status.Queued? && d.records[r].packed.signature == signature)
      && (r in c.records && !Owed(c, m) ==>
            d.records[r].status == if c.records[r].status.Sending? then Sending else Queued)
  {
    hide ChatInv, Grows;
    var d := Receive(c, p, genuine, applicable, timestamp, signature).value;
    ReceiveKeeps(c, p, genuine, applicable, timestamp, signature);
    LinkIsSet(c, p, timestamp, signature);
    LinkIsReceipt(d, p.message);
  }

  lemma LinkIsSet(c: Chat, p: Packed, timestamp: nat, signature: nat)
    requires ChatInv(c) && !p.message.body.Stored?
    requires CommitReceived(c, p, Some(ReceiptFor(c, p.message, timestamp, signature))).Some?
    ensures var d, m := CommitReceived(c, p, Some(ReceiptFor(c, p.message, timestamp, signature))).value, p.message;
      && m in d.records && d.records[m].receipt.Some?
      && var r := d.records[m].receipt.value;
      && r in d.records
      && if m in c.records && c.records[m].receipt.Some? then
           && Some(r) == c.records[m].receipt && r in c.records
           && d.records[r].status == if c.records[r].status.Sending? then Sending else Queued
         else
           && r.timestamp == timestamp
           && (r !in c.records ==> d.records[r].status.Queued? && d.records[r].packed.signature == signature)
  {
    hide RecordSound, AcceptEvent;
    var m := p.message;
    EventLeavesRecords(c, m);
    if m in c.records && c.records[m].receipt.Some? {
      ReceiptIsThere(c, m);
      ReceiptIsReceipt(c, m);
    }
  }

  lemma EventLeavesRecords(c: Chat, m: Message)
    ensures m.body.Service? && AcceptEvent(c, m).Some? ==>
      AcceptEvent(c, m).value == c.(notices := AcceptEvent(c, m).value.notices)
  {
  }

  // ---------------------------------------------------------------- over every run

  /** In a durable store every message taken in has its receipt linked; and what a store sends is signed. */
  ghost predicate Receipted(c: Chat, signed: set<Packed>) {
    && (c.durable ==> forall m | m in c.records && !c.records[m].outgoing :: c.records[m].receipt.Some?)
    && (forall m | m in c.records && c.records[m].outgoing :: c.records[m].packed in signed)
  }

  ghost predicate ReceiptsInv(w: World) {
    forall u | u in w.users :: Receipted(w.users[u], w.signed)
  }

  /** The records that an operation adds: outgoing and signed, or incoming with the receipt a durable store owes. */
  ghost predicate AddsReceipted(c: Chat, d: Chat, signed: set<Packed>) {
    && d.durable == c.durable
    && forall m | m in d.records && m !in c.records ::
         if d.records[m].outgoing then d.records[m].packed in signed
         else c.durable ==> d.records[m].receipt.Some?
  }

  lemma CommitAdds(c: Chat, p: Packed, timestamp: nat, signature: nat)
    requires ChatInv(c) && c.durable && !p.message.body.Stored?
    requires CommitReceived(c, p, Some(ReceiptFor(c, p.message, timestamp, signature))).Some?
    ensures AddsReceipted(c, CommitReceived(c, p, Some(ReceiptFor(c, p.message, timestamp, signature))).value,
                          {ReceiptFor(c, p.message, timestamp, signature)})
  {
    hide ChatInv, AcceptEvent, Requeue;
    var m := p.message;
    EventLeavesRecords(c, m);
    LinkIsSet(c, p, timestamp, signature);
    if m in c.records && c.records[m].receipt.Some? {
      RequeueLeaves(if m.body.Service? then AcceptEvent(c, m).value else c, c.records[m].receipt.value);
    }
  }

  lemma RequeueLeaves(c: Chat, r: Message)
    ensures Requeue(c, r).Some? ==>
      Requeue(c, r).value.records.Keys == c.records.Keys && Requeue(c, r).value.durable == c.durable
  {
  }

  lemma ReceiveAdds(c: Chat, p: Packed, genuine: bool, applicable: bool, timestamp: nat, signature: nat)
    requires ChatInv(c) && Receive(c, p, genuine, applicable, timestamp, signature).Some?
    ensures AddsReceipted(c, Receive(c, p, genuine, applicable, timestamp, signature).value,
                          Signs(c, p.message, timestamp, signature))
  {
    hide ChatInv, AcceptEvent;
    if c.durable && !p.message.body.Stored? {
      hide CommitReceived;
      CommitAdds(c, p, timestamp, signature);
    } else {
      EventLeavesRecords(c, p.message);
    }
  }

  lemma QueueAdds(c: Chat, p: Packed, now: real)
    requires Queue(c, p, now).Some?
    ensures AddsReceipted(c, Queue(c, p, now).value, {p})
  {
  }

  lemma UploadAdds(c: Chat, m: Message, made: Blob, signed: set<Packed>)
    requires RelayBlob(c, m, made).Some?
    ensures AddsReceipted(c, RelayBlob(c, m, made).value.0, signed)
  {
  }

  lemma SameKeysAdd(c: Chat, m: Message, t: Token, e: Ending, now: real, signed: set<Packed>)
    ensures BeginAttempt(c, m, t.nonce).Some? ==> AddsReceipted(c, BeginAttempt(c, m, t.nonce).value, signed)
    ensures AddsReceipted(c, FinishAttempt(c, m, t, e, now), signed)
    ensures AddsReceipted(c, ExpireOutbox(c, now), signed)
  {
    hide Ended, Aged;
  }

  lemma SameRecordsAdd(c: Chat, d: Chat, signed: set<Packed>)
    requires d.records == c.records && d.durable == c.durable
    ensures AddsReceipted(c, d, signed)
  {
  }

  lemma MoreSigned(c: Chat, d: Chat, signed: set<Packed>, more: set<Packed>)
    requires AddsReceipted(c, d, signed) && signed <= more
    ensures AddsReceipted(c, d, more)
  {
  }

  lemma ReceiveStepAdds(w: World, step: Step, x: World)
    requires WorldInv(w) && Next(w, step, x) && (step.Pull? || step.Direct?)
    ensures step.user in x.users && AddsReceipted(w.users[step.user], x.users[step.user], x.signed)
  {
    hide ChatInv, Receive, SignedInv, StatusInv, PurgesInv, SpoolInv, AttemptsInv, Signs, AddsReceipted;
    var c := w.users[step.user];
    var p := if step.Pull? then step.blob.plain.value else step.packed;
    ReceiveAdds(c, p, p in w.signed, step.applicable, step.timestamp, step.signature);
    MoreSigned(c, x.users[step.user], Signs(c, p.message, step.timestamp, step.signature), x.signed);
  }

  lemma OwnStepAdds(w: World, step: Step, x: World)
    requires Next(w, step, x) && (step.Compose? || step.Begin? || step.Upload? || step.Finish? || step.Age?)
    ensures step.user in x.users && AddsReceipted(w.users[step.user], x.users[step.user], x.signed)
  {
    hide Queue, BeginAttempt, RelayBlob, FinishAttempt, ExpireOutbox, AddsReceipted, Ended, Deadline, Aged;
    var c, d := w.users[step.user], x.users[step.user];
    match step {
      case Compose(u, p, now) =>
        QueueAdds(c, p, now);
        MoreSigned(c, d, {p}, x.signed);
      case Begin(u, m, nonce) => SameKeysAdd(c, m, Token(0, nonce), EndedFailed, 0.0, x.signed);
      case Upload(u, m, t, made) => UploadAdds(c, m, made, x.signed);
      case Finish(u, m, t, e, now) => SameKeysAdd(c, m, t, e, now, x.signed);
      case Age(u, now) => SameKeysAdd(c, Message(0, 0, 0, Text(0)), Token(0, 0), EndedFailed, now, x.signed);
    }
  }

  lemma StepAdds(w: World, step: Step, x: World, u: Address)
    requires WorldInv(w) && Next(w, step, x) && u in w.users
    ensures u in x.users && AddsReceipted(w.users[u], x.users[u], x.signed) && w.signed <= x.signed
  {
    hide Receive, PutOutcome, AfterPut, Purged, Fresh, WorldInv, Signs, Queue, BeginAttempt, RelayBlob, FinishAttempt,
         ExpireOutbox, AddsReceipted;
    if !step.RelayExpire? && step.user == u && (step.Pull? || step.Direct?) {
      ReceiveStepAdds(w, step, x);
    } else if !step.RelayExpire? && step.user == u
              && (step.Compose? || step.Begin? || step.Upload? || step.Finish? || step.Age?) {
      OwnStepAdds(w, step, x);
    } else {
      SameRecordsAdd(w.users[u], x.users[u], x.signed);
    }
  }

  lemma GrowthKeepsReceipts(c: Chat, d: Chat, signed: set<Packed>, more: set<Packed>)
    requires Receipted(c, signed) && Grows(c, d) && AddsReceipted(c, d, more) && signed <= more
    ensures Receipted(d, more)
  {
    forall m | m in d.records && m in c.records ensures Keeps(c.records[m], d.records[m]) {
    }
  }

  lemma UsersStay(w: World, step: Step, x: World)
    requires Next(w, step, x)
    ensures x.users.Keys == w.users.Keys
  {
    hide Receive, PutOutcome, AfterPut, Purged, Fresh, Queue, BeginAttempt, RelayBlob, FinishAttempt, ExpireOutbox;
  }

  lemma {:induction false} ReachableReceipts(worlds: seq<World>, steps: seq<Step>, n: nat)
    requires Execution(worlds, steps) && n < |worlds|
    ensures WorldInv(worlds[n]) && ReceiptsInv(worlds[n])
  {
    hide Next, WorldInv, Receipted, AddsReceipted, Grows;
    ReachableInv(worlds, steps, n, n);
    if n == 0 {
      InitReceipts(worlds[0]);
    } else {
      ReachableReceipts(worlds, steps, n - 1);
      var w, x := worlds[n - 1], worlds[n];
      assert Next(w, steps[n - 1], x);
      StepKeeps(w, steps[n - 1], x);
      UsersStay(w, steps[n - 1], x);
      forall u | u in x.users ensures Receipted(x.users[u], x.signed) {
        StepAdds(w, steps[n - 1], x, u);
        GrowthKeepsReceipts(w.users[u], x.users[u], w.signed, x.signed);
      }
    }
  }

  lemma InitReceipts(w: World)
    requires Init(w)
    ensures ReceiptsInv(w)
  {
  }

  /** In every run, a durable store that holds a message from a peer holds its own signed receipt for it, addressed to
      the author; the receipt is not confirmed in turn and does not expire, so it can be sent until it is delivered. */
  lemma EveryMessageHasItsReceipt(worlds: seq<World>, steps: seq<Step>, n: nat, u: Address, m: Message)
    requires Execution(worlds, steps) && n < |worlds| && u in worlds[n].users && worlds[n].users[u].durable
    requires m in worlds[n].users[u].records && !worlds[n].users[u].records[m].outgoing
    ensures var c := worlds[n].users[u];
      && HasReceipt(c, m)
      && var r := c.records[m].receipt.value;
      && c.records[r].packed in worlds[n].signed && c.records[r].status !in {RecipientStored, Expired}
      && (CanBegin(c, r) <==>
            && !c.records[r].status.Delivered?
            && !(c.records[r].status.Sending? && c.records[r].attempt.Some?
                 && c.records[r].attempt.value.epoch == c.epoch))
  {
    hide StatusInv, SignedInv, PurgesInv, SpoolInv, AttemptsInv, Next;
    ReachableReceipts(worlds, steps, n);
    var c := worlds[n].users[u];
    assert Receipted(c, worlds[n].signed) && ChatInv(c);
    LinkIsReceipt(c, m);
    assert RecordSound(c, c.records[m].receipt.value);
  }

  // ---------------------------------------------------------------- a message that gets there

  ghost predicate Continues(worlds: seq<World>, steps: seq<Step>, worlds': seq<World>, steps': seq<Step>) {
    Execution(worlds, steps) && Execution(worlds', steps') && worlds <= worlds' && steps <= steps'
  }

  ghost function End(worlds: seq<World>): World
    requires worlds != []
  {
    worlds[|worlds| - 1]
  }

  lemma StepContinues(worlds: seq<World>, steps: seq<Step>, step: Step, x: World)
    requires Execution(worlds, steps) && Next(End(worlds), step, x)
    ensures Continues(worlds, steps, worlds + [x], steps + [step])
  {
    hide Next, Init;
    var ws, ps := worlds + [x], steps + [step];
    forall i | 0 <= i < |ps| ensures Next(ws[i], ps[i], ws[i + 1]) {
      if i < |steps| {
        assert ws[i] == worlds[i] && ws[i + 1] == worlds[i + 1];
      }
    }
  }

  /** The ciphertext under which the message travels: the one kept, or a new one. */
  ghost function Travels(w: World, u: Address, m: Message, made: Blob): Blob
    requires u in w.users && m in w.users[u].records
  {
    if w.users[u].records[m].blob.Some? then w.users[u].records[m].blob.value else made
  }

  /** The sender may begin, and the relay has room for the ciphertext. */
  ghost predicate Sendable(w: World, u: Address, m: Message, nonce: nat, made: Blob, now: real) {
    && u in w.users && CanBegin(w.users[u], m) && (u, m, Token(w.users[u].epoch, nonce)) !in w.issued
    && made.recipient == m.target && made.plain == Some(w.users[u].records[m].packed)
    && PutOutcome(w.rows, w.limits, w.retention, u, Travels(w, u, m, made), now).Accepted?
  }

  /** The recipient trusts the author for this message and has room for it and its receipt. */
  ghost predicate Receivable(w: World, u: Address, m: Message, applicable: bool, ts: nat) {
    && u in w.users && m in w.users[u].records && m.target in w.users && !m.body.Stored?
    && var d := w.users[m.target];
    && d.durable && Welcome(d, w.users[u].records[m].packed, true, applicable) && EventFits(d, m) && RoomFor(d, m, ts)
  }

  /** What one user's store must still be like for the message to go on. */
  ghost predicate SameOutgoing(w: World, x: World, u: Address, m: Message) {
    && u in w.users && m in w.users[u].records && u in x.users && m in x.users[u].records
    && x.users[u].records[m].packed == w.users[u].records[m].packed
    && x.users[u].records[m].outgoing == w.users[u].records[m].outgoing
    && x.users[u].records[m].peer == w.users[u].records[m].peer
    && x.users[u].contacts == w.users[u].contacts && x.users[u].publishers == w.users[u].publishers
    && x.users.Keys == w.users.Keys
    && forall v | v in w.users && v != u :: x.users[v] == w.users[v]
  }

  lemma CanUpload(w: World, u: Address, m: Message, nonce: nat, made: Blob, now: real) returns (x: World, y: World)
    requires StatusInv(w.users, w.acks) && Sendable(w, u, m, nonce, made, now)
    ensures Next(w, Begin(u, m, nonce), x) && u in w.users
    ensures Next(x, Upload(u, m, Token(w.users[u].epoch, nonce), made), y)
    ensures SameOutgoing(w, y, u, m) && (u, Travels(w, u, m, made)) in y.uploads && y.signed == w.signed
    ensures y.rows == w.rows && y.limits == w.limits && y.retention == w.retention
    ensures Travels(w, u, m, made).plain == made.plain && Travels(w, u, m, made).recipient == m.target
  {
    hide Fresh, Holds, Of, Bytes;
    assert Honest(w.users, w.acks, u, m);
    var t := Token(w.users[u].epoch, nonce);
    x := WithUser(w, u, BeginAttempt(w.users[u], m, nonce).value).(issued := w.issued + {(u, m, t)});
    var (c, b) := RelayBlob(x.users[u], m, made).value;
    y := WithUser(x, u, c).(uploads := x.uploads + {(u, b)});
  }

  lemma CanPut(w: World, u: Address, b: Blob, now: real, at: real) returns (x: World)
    requires u in w.users && (u, b) in w.uploads
    requires PutOutcome(w.rows, w.limits, w.retention, u, b, now).Accepted?
    ensures Next(w, RelayPut(u, b, now, at), x) && x.users == w.users && x.signed == w.signed && Holds(x.rows, b)
  {
    hide PutOutcome, Fresh;
    var live := Fresh(w.rows, now - w.retention);
    x := w.(rows := AfterPut(w.rows, w.limits, w.retention, u, b, now, at), acks := w.acks + {(u, b)},
            insertedAt := if !Holds(live, b) then w.insertedAt[b := at] else w.insertedAt,
            clock := Highest(w.clock, now));
    assert (live + [Row(b, u, at)])[|live|].blob == b;
  }

  lemma CanPull(w: World, b: Blob, applicable: bool, ts: nat, sig: nat) returns (x: World, y: World)
    requires UsersInv(w.users) && Holds(w.rows, b) && b.recipient in w.users && b.plain.Some?
    requires b.plain.value in w.signed && !b.plain.value.message.body.Stored?
    requires var d := w.users[b.recipient];
      && Welcome(d, b.plain.value, true, applicable) && EventFits(d, b.plain.value.message)
      && RoomFor(d, b.plain.value.message, ts)
    ensures Next(w, RelayFetch(b.recipient, b), x) && Next(x, Pull(b.recipient, b, applicable, ts, sig), y)
    ensures var d := Receive(w.users[b.recipient], b.plain.value, true, applicable, ts, sig);
      d.Some? && y.users == w.users[b.recipient := d.value]
  {
    hide ChatInv, Receive, Welcome, EventFits, RoomFor, Holds;
    var v := b.recipient;
    x := w.(fetched := w.fetched + {(v, b)});
    ReceiveExactly(w.users[v], b.plain.value, true, applicable, ts, sig);
    var d := Receive(w.users[v], b.plain.value, true, applicable, ts, sig).value;
    y := WithUser(x, v, d).(purges := x.purges + {(v, b)},
                            signed := x.signed + Signs(w.users[v], b.plain.value.message, ts, sig));
  }

  /** A message that can be sent has a run that leaves its ciphertext with the relay. */
  lemma MessageCanBeSpooled(worlds: seq<World>, steps: seq<Step>, u: Address, m: Message, nonce: nat, made: Blob,
      now: real, at: real)
    returns (worlds': seq<World>, steps': seq<Step>)
    requires Execution(worlds, steps) && Sendable(End(worlds), u, m, nonce, made, now)
    ensures Continues(worlds, steps, worlds', steps')
    ensures var w, x, b := End(worlds), End(worlds'), Travels(End(worlds), u, m, made);
      && SameOutgoing(w, x, u, m) && Holds(x.rows, b) && b.recipient == m.target
      && b.plain == Some(w.users[u].records[m].packed) && b.plain.value in x.signed && b.plain.value.message == m
  {
    hide Next, Init, WorldInv, Holds, PutOutcome;
    var w, b := End(worlds), Travels(End(worlds), u, m, made);
    ReachableReceipts(worlds, steps, |worlds| - 1);
    PartsOf(w, u, m);
    var x, y := CanUpload(w, u, m, nonce, made, now);
    StepContinues(worlds, steps, Begin(u, m, nonce), x);
    worlds', steps' := worlds + [x], steps + [Begin(u, m, nonce)];
    var step := Upload(u, m, Token(w.users[u].epoch, nonce), made);
    StepContinues(worlds', steps', step, y);
    worlds', steps' := worlds' + [y], steps' + [step];
    var z := CanPut(y, u, b, now, at);
    StepContinues(worlds', steps', RelayPut(u, b, now, at), z);
    worlds', steps' := worlds' + [z], steps' + [RelayPut(u, b, now, at)];
  }

  /** In every reachable state, a message that can be sent to a durable recipient who can take it has a run in which
      it goes through the relay and is taken in, with its receipt. */
  lemma MessageCanBeTaken(worlds: seq<World>, steps: seq<Step>, u: Address, m: Message, nonce: nat, made: Blob,
      now: real, at: real, applicable: bool, ts: nat, sig: nat)
    returns (worlds': seq<World>, steps': seq<Step>)
    requires Execution(worlds, steps) && Sendable(End(worlds), u, m, nonce, made, now) && u != m.target
    requires Receivable(End(worlds), u, m, applicable, ts)
    ensures Continues(worlds, steps, worlds', steps')
    ensures var x := End(worlds');
      && m.target in x.users && HasReceipt(x.users[m.target], m)
      && SameOutgoing(End(worlds), x.(users := x.users[m.target := End(worlds).users[m.target]]), u, m)
  {
    hide Next, Init, WorldInv, Receive, Welcome, EventFits, RoomFor, Holds, Sendable, HasReceipt;
    worlds', steps' := MessageCanBeSpooled(worlds, steps, u, m, nonce, made, now, at);
    var b, x := Travels(End(worlds), u, m, made), End(worlds');
    ReachableReceipts(worlds', steps', |worlds'| - 1);
    UsersOf(x);
    var y, z := CanPull(x, b, applicable, ts, sig);
    StepContinues(worlds', steps', RelayFetch(m.target, b), y);
    worlds', steps' := worlds' + [y], steps' + [RelayFetch(m.target, b)];
    var step := Pull(m.target, b, applicable, ts, sig);
    StepContinues(worlds', steps', step, z);
    worlds', steps' := worlds' + [z], steps' + [step];
    UserOf(x.users, m.target);
    ReceiptIsQueued(x.users[m.target], b.plain.value, true, applicable, ts, sig);
  }

  lemma UsersOf(w: World)
    requires WorldInv(w)
    ensures UsersInv(w.users)
  {
  }

  lemma UserOf(users: map<Address, Chat>, u: Address)
    requires UsersInv(users) && u in users
    ensures ChatInv(users[u]) && users[u].me == u
  {
  }

  lemma PartsOf(w: World, u: Address, m: Message)
    requires WorldInv(w) && ReceiptsInv(w) && u in w.users && CanBegin(w.users[u], m)
    ensures StatusInv(w.users, w.acks) && w.users[u].records[m].packed in w.signed
    ensures w.users[u].records[m].packed.message == m && m.source == u && w.users[u].records[m].peer == m.target
  {
    hide StatusInv, SignedInv, PurgesInv, SpoolInv, AttemptsInv;
    assert Receipted(w.users[u], w.signed);
    assert ChatInv(w.users[u]);
    assert RecordSound(w.users[u], m);
  }

  /** In every reachable state, the receipt a recipient has for a message confirms it to an author who knows the
      recipient. */
  lemma ReceiptCanConfirm(worlds: seq<World>, steps: seq<Step>, u: Address, m: Message, ts: nat, sig: nat)
    returns (worlds': seq<World>, steps': seq<Step>)
    requires Execution(worlds, steps) && u in End(worlds).users && m.target in End(worlds).users
    requires var c := End(worlds).users[u];
      && m in c.records && c.records[m].outgoing && !m.body.Stored? && m.target in c.contacts + c.publishers
    requires HasReceipt(End(worlds).users[m.target], m)
    ensures Continues(worlds, steps, worlds', steps')
    ensures u in End(worlds').users && m in End(worlds').users[u].records
      && End(worlds').users[u].records[m].status.RecipientStored?
  {
    hide Next, Init, StatusInv, SignedInv, PurgesInv, SpoolInv, AttemptsInv;
    var w := End(worlds);
    ReachableReceipts(worlds, steps, |worlds| - 1);
    var c, d := w.users[u], w.users[m.target];
    assert ChatInv(c) && ChatInv(d) && c.me == u && d.me == m.target && Receipted(d, w.signed);
    assert RecordSound(c, m);
    var p := d.records[d.records[m].receipt.value].packed;
    var x := ConfirmStep(w, u, p, ts, sig);
    var step := Direct(u, p, false, ts, sig);
    StepContinues(worlds, steps, step, x);
    worlds', steps' := worlds + [x], steps + [step];
  }

  lemma ConfirmStep(w: World, u: Address, p: Packed, ts: nat, sig: nat) returns (x: World)
    requires u in w.users && p in w.signed && p.message.body.Stored? && Welcome(w.users[u], p, true, false)
    ensures Next(w, Direct(u, p, false, ts, sig), x)
    ensures u in x.users && p.message.body.target in x.users[u].records
    ensures x.users[u].records[p.message.body.target].status.RecipientStored?
  {
    x := WithUser(w, u, Receive(w.users[u], p, true, false, ts, sig).value);
    assert x.signed == w.signed + Signs(w.users[u], p.message, ts, sig);
  }

  /** In every reachable state, a message that can be sent, to a durable recipient who can take it and whom the
      author knows, has a run in which it is taken in and its receipt confirms it. */
  lemma MessageCanBeConfirmed(worlds: seq<World>, steps: seq<Step>, u: Address, m: Message, nonce: nat, made: Blob,
      now: real, at: real, applicable: bool, ts: nat, sig: nat)
    returns (worlds': seq<World>, steps': seq<Step>)
    requires Execution(worlds, steps) && Sendable(End(worlds), u, m, nonce, made, now) && u != m.target
    requires Receivable(End(worlds), u, m, applicable, ts)
    requires m.target in End(worlds).users[u].contacts + End(worlds).users[u].publishers
    ensures Continues(worlds, steps, worlds', steps')
    ensures HasRecord(End(worlds').users, m, m.target)
    ensures u in End(worlds').users && m in End(worlds').users[u].records
      && End(worlds').users[u].records[m].status.RecipientStored?
  {
    hide Next, Init, WorldInv, Welcome, EventFits, RoomFor, PutOutcome;
    worlds', steps' := MessageCanBeTaken(worlds, steps, u, m, nonce, made, now, at, applicable, ts, sig);
    var middle, so := worlds', steps';
    worlds', steps' := ReceiptCanConfirm(worlds', steps', u, m, ts, sig);
    ReachableInv(worlds', steps', |middle| - 1, |worlds'| - 1);
    assert worlds'[|middle| - 1] == End(middle);
  }
}
