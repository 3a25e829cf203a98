/** One participant's durable message store: outbox attempts, commits of received messages, and
    signed storage receipts. */
module ChatStore {
  import opened ChatTypes
  import opened Options

  datatype Status = Queued | Sending | Relayed | Delivered | RecipientStored | Expired | Received

  /** An attempt token: the opening of the store it belongs to and a random part. */
  datatype Token = Token(epoch: nat, nonce: nat)

  datatype Record = Record(
    packed: Packed, outgoing: bool, peer: Address, status: Status, attempt: Option<Token>,
    blob: Option<Blob>, receipt: Option<Message>,
    requireStored: bool, expiresAt: real, relayAttempts: nat, retryAt: real)

  datatype Chat = Chat(
    me: Address, contacts: set<Address>, publishers: set<Address>, durable: bool, epoch: nat,
    records: map<Message, Record>, notices: map<(Address, nat), Event>)

  const HISTORY_QUOTA := 1000
  const WEEK: real := 604800.0

  function NewRecord(p: Packed, outgoing: bool, peer: Address, requireStored: bool, expiresAt: real): Record {
    Record(p, outgoing, peer, if outgoing then Queued else Received, None, None, None, requireStored, expiresAt, 0, 0.0)
  }

  /** Adds a record unless the message is already there; `None` when the history is full. */
  function Add(c: Chat, r: Record): Option<Chat> {
    if r.packed.message in c.records then Some(c)
    else if |c.records| >= HISTORY_QUOTA then None
    else Some(c.(records := c.records[r.packed.message := r]))
  }

  function With(c: Chat, m: Message, r: Record): Chat {
    c.(records := c.records[m := r])
  }

  // ---------------------------------------------------------------- sending

  /** A week, or the end of the service event it carries if that is sooner. */
  function Deadline(m: Message, now: real): real {
    if m.body.Service? && m.body.event.expires < now + WEEK then m.body.event.expires else now + WEEK
  }

  /** Queue a new signed message; its contact must be verified. */
  function Queue(c: Chat, p: Packed, now: real): Option<Chat> {
    if p.message.target !in c.contacts then None
    else Add(c, NewRecord(p, true, p.message.target, c.durable && !p.message.body.Stored?, Deadline(p.message, now)))
  }

  predicate CanBegin(c: Chat, m: Message) {
    && m in c.records && c.records[m].outgoing
    && c.records[m].status !in {Delivered, RecipientStored, Expired}
    && !(c.records[m].status.Sending? && c.records[m].attempt.Some? && c.records[m].attempt.value.epoch == c.epoch)
  }

  function BeginAttempt(c: Chat, m: Message, nonce: nat): Option<Chat> {
    if !CanBegin(c, m) then None
    else Some(With(c, m, c.records[m].(status := Sending, attempt := Some(Token(c.epoch, nonce)))))
  }

  /** Keep the first ciphertext made for a message. */
  function RelayBlob(c: Chat, m: Message, made: Blob): Option<(Chat, Blob)> {
    if m !in c.records || !c.records[m].outgoing then None
    else if c.records[m].blob.Some? then Some((c, c.records[m].blob.value))
    else if !(MIN_BLOB <= made.size <= MAX_BLOB) then None
    else Some((With(c, m, c.records[m].(blob := Some(made))), made))
  }

  datatype Ending = EndedDelivered | EndedRelayed | EndedFailed

  function Doubled(n: nat): real { if n == 0 then 60.0 else 2.0 * Doubled(n - 1) }

  function RetryDelay(attempts: nat): real
    requires attempts > 0
  {
    if Doubled(attempts - 1) <= 3600.0 then Doubled(attempts - 1) else 3600.0
  }

  predicate Current(c: Chat, m: Message, t: Token) {
    && m in c.records && c.records[m].status.Sending? && c.records[m].attempt == Some(t) && t.epoch == c.epoch
  }

  function Ended(r: Record, e: Ending, now: real): Record {
    var status := match e case EndedDelivered => Delivered case EndedRelayed => Relayed case EndedFailed => Queued;
    var done := r.(status := status, attempt := None);
    if e.EndedRelayed? && r.requireStored then
      var n := if r.relayAttempts + 1 <= 7 then r.relayAttempts + 1 else 7;
      done.(relayAttempts := n, retryAt := now + RetryDelay(n))
    else done
  }

  /** A callback of an attempt: it counts only while that attempt is the current one of this opening. */
  function FinishAttempt(c: Chat, m: Message, t: Token, e: Ending, now: real): Chat {
    if !Current(c, m, t) then c else With(c, m, Ended(c.records[m], e, now))
  }

  predicate Overdue(r: Record, now: real) {
    r.requireStored && now >= r.expiresAt && r.status !in {RecipientStored, Delivered, Expired}
  }

  function Aged(r: Record, now: real): Record {
    if Overdue(r, now) then r.(status := Expired, attempt := None) else r
  }

  function ExpireOutbox(c: Chat, now: real): Chat {
    c.(records := map m | m in c.records :: Aged(c.records[m], now))
  }

  predicate PendingNow(c: Chat, r: Record, now: real) {
    && r.outgoing
    && (|| r.status.Queued?
        || (r.status.Relayed? && r.requireStored && now >= r.retryAt)
        || (r.status.Sending? && !(r.attempt.Some? && r.attempt.value.epoch == c.epoch)))
  }

  // ---------------------------------------------------------------- receiving

  /** A storage receipt: the target becomes `RecipientStored` when it is our message to that peer. */
  function AcceptReceipt(c: Chat, m: Message): Option<Chat>
    requires m.body.Stored?
  {
    var t := m.body.target;
    if t !in c.records || !c.records[t].outgoing || c.records[t].peer != m.source || t.body.Stored? then None
    else Some(With(c, t, c.records[t].(status := RecipientStored, attempt := None)))
  }

  /** A service event is kept under its publisher and ID, at its highest revision. */
  function AcceptEvent(c: Chat, m: Message): Option<Chat>
    requires m.body.Service?
  {
    var e, k := m.body.event, (m.source, m.body.event.id);
    if k in c.notices then
      (if e.revision < c.notices[k].revision || (e.revision == c.notices[k].revision && e != c.notices[k]) then None
       else Some(c.(notices := c.notices[k := e])))
    else if |c.notices| >= HISTORY_QUOTA then None
    else Some(c.(notices := c.notices[k := e]))
  }

  function ReceiptFor(c: Chat, m: Message, timestamp: nat, signature: nat): Packed {
    Packed(Message(m.source, c.me, timestamp, Stored(m)), signature)
  }

  function ReceiptIf(c: Chat, p: Packed, timestamp: nat, signature: nat, due: bool): Option<Packed> {
    if due then Some(ReceiptFor(c, p.message, timestamp, signature)) else None
  }

  /** Commit a received message and, in the same transaction, its receipt: a new one, or the old
      one queued again unless it is being sent. */
  function CommitReceived(c: Chat, p: Packed, receipt: Option<Packed>): Option<Chat> {
    var m := p.message;
    var noticed := if m.body.Service? then AcceptEvent(c, m) else Some(c);
    if noticed.None? then None
    else
      var added := Add(noticed.value, NewRecord(p, false, m.source, false, 0.0));
      if added.None? || receipt.None? then added
      else if m in c.records && c.records[m].receipt.Some? then Requeue(added.value, c.records[m].receipt.value)
      else
        var r := receipt.value;
        var sent := Add(added.value, NewRecord(r, true, m.source, false, 0.0));
        if sent.None? then None
        else Some(With(sent.value, m, sent.value.records[m].(receipt := Some(r.message))))
  }

  function Requeue(c: Chat, r: Message): Option<Chat> {
    if r !in c.records then None
    else if c.records[r].status.Sending? then Some(c)
    else Some(With(c, r, c.records[r].(status := Queued, attempt := None)))
  }

  /** Everything a packed message must pass before it is committed; `genuine` is its signature
      check and `applicable` the service filter.  `None` is a rejection that changes nothing. */
  function Receive(c: Chat, p: Packed, genuine: bool, applicable: bool, timestamp: nat, signature: nat): Option<Chat> {
    var m := p.message;
    if m.target != c.me || m.source !in c.contacts + c.publishers || !genuine then None
    else if m.body.Stored? then AcceptReceipt(c, m)
    else if m.body.Service? && (m.source !in c.publishers || !applicable) then None
    else if !m.body.Service? && m.source !in c.contacts then None
    else if c.durable then CommitReceived(c, p, Some(ReceiptFor(c, m, timestamp, signature)))
    else if m.body.Service? then CommitReceived(c, p, None)
    else Add(c, NewRecord(p, false, m.source, false, 0.0))
  }

  /** A new opening of the store. */
  function Reopen(c: Chat, epoch: nat): Chat { c.(epoch := epoch) }

  // ---------------------------------------------------------------- what no operation undoes

  /** A record after some operations: the same signed bytes, author and direction; a ciphertext,
      once made, stays; and `RecipientStored` is final. */
  ghost predicate Keeps(a: Record, b: Record) {
    && b.packed == a.packed && b.outgoing == a.outgoing && b.peer == a.peer
    && (a.blob.Some? ==> b.blob == a.blob)
    && (a.receipt.Some? ==> b.receipt == a.receipt)
    && (a.status.RecipientStored? ==> b.status.RecipientStored?)
  }

  /** What everything but an attempt's own start and end leaves alone: an attempt in flight stays,
      unless the message is confirmed or expires; and those two are left only for confirmation. */
  ghost predicate Calm(a: Record, b: Record) {
    && (a.status.Sending? ==>
          (b.status == a.status && b.attempt == a.attempt) || b.status in {RecipientStored, Expired})
    && (a.status in {RecipientStored, Expired} ==> b.status in {RecipientStored, Expired})
  }

  ghost predicate Quiet(c: Chat, d: Chat) {
    forall m | m in c.records :: m in d.records && Calm(c.records[m], d.records[m])
  }

  ghost predicate Grows(c: Chat, d: Chat) {
    && d.me == c.me
    && forall m | m in c.records :: m in d.records && Keeps(c.records[m], d.records[m])
  }

  /** Records are filed under their own message; a receipt link names a receipt for this very message to its author;
      a receipt record is our own, is never itself confirmed, and does not expire. */
  ghost predicate RecordSound(c: Chat, m: Message)
    requires m in c.records
  {
    var r := c.records[m];
    && r.packed.message == m
    && (r.outgoing ==> m.source == c.me && r.peer == m.target)
    && (!r.outgoing ==> m.target == c.me && r.peer == m.source)
    && (r.receipt.Some? ==>
          r.receipt.value in c.records && r.receipt.value.body == Stored(m) && r.receipt.value.target == m.source)
    && (m.body.Stored? ==> r.outgoing && !r.status.RecipientStored? && !r.status.Expired? && !r.requireStored)
    && (r.attempt.Some? ==> r.status.Sending?)
  }

  ghost predicate ChatInv(c: Chat) {
    forall m | m in c.records :: RecordSound(c, m)
  }

  lemma AddKeeps(c: Chat, r: Record)
    requires ChatInv(c) && Add(c, r).Some?
    requires r.packed.message !in c.records ==>
               && r.attempt.None? && r.receipt.None?
               && (r.outgoing ==> r.packed.message.source == c.me && r.peer == r.packed.message.target)
               && (!r.outgoing ==> r.packed.message.target == c.me && r.peer == r.packed.message.source)
               && (r.packed.message.body.Stored? ==> r.outgoing && r.status.Queued? && !r.requireStored)
    ensures ChatInv(Add(c, r).value) && Grows(c, Add(c, r).value)
    ensures r.packed.message in Add(c, r).value.records
  {
    var d := Add(c, r).value;
    forall m | m in d.records ensures RecordSound(d, m) {
      assert m in c.records ==> RecordSound(c, m);
    }
  }

  lemma WithKeeps(c: Chat, m: Message, r: Record)
    requires ChatInv(c) && m in c.records && Keeps(c.records[m], r) && RecordSound(With(c, m, r), m)
    ensures ChatInv(With(c, m, r)) && Grows(c, With(c, m, r))
  {
    var d := With(c, m, r);
    forall n | n in d.records ensures RecordSound(d, n) {
      assert RecordSound(c, n);
    }
  }

  lemma BeginKeeps(c: Chat, m: Message, nonce: nat)
    requires ChatInv(c) && BeginAttempt(c, m, nonce).Some?
    ensures ChatInv(BeginAttempt(c, m, nonce).value) && Grows(c, BeginAttempt(c, m, nonce).value)
  {
    assert RecordSound(c, m);
    WithKeeps(c, m, BeginAttempt(c, m, nonce).value.records[m]);
  }

  lemma RelayBlobKeeps(c: Chat, m: Message, made: Blob)
    requires ChatInv(c) && RelayBlob(c, m, made).Some?
    ensures var (d, b) := RelayBlob(c, m, made).value;
            ChatInv(d) && Grows(c, d) && m in d.records && d.records[m].blob == Some(b)
  {
    assert RecordSound(c, m);
    WithKeeps(c, m, c.records[m]);
    if c.records[m].blob.None? {
      WithKeeps(c, m, c.records[m].(blob := Some(made)));
    }
  }

  lemma FinishKeeps(c: Chat, m: Message, t: Token, e: Ending, now: real)
    requires ChatInv(c)
    ensures ChatInv(FinishAttempt(c, m, t, e, now)) && Grows(c, FinishAttempt(c, m, t, e, now))
  {
    if Current(c, m, t) {
      assert RecordSound(c, m);
      WithKeeps(c, m, Ended(c.records[m], e, now));
    }
  }

  lemma ExpireKeeps(c: Chat, now: real)
    requires ChatInv(c)
    ensures ChatInv(ExpireOutbox(c, now)) && Grows(c, ExpireOutbox(c, now))
  {
    var d := ExpireOutbox(c, now);
    forall m | m in d.records ensures RecordSound(d, m) && Keeps(c.records[m], d.records[m]) {
      assert RecordSound(c, m);
    }
  }

  lemma QueueKeeps(c: Chat, p: Packed, now: real)
    requires ChatInv(c) && Queue(c, p, now).Some? && p.message.source == c.me
    ensures ChatInv(Queue(c, p, now).value) && Grows(c, Queue(c, p, now).value)
  {
    AddKeeps(c, NewRecord(p, true, p.message.target, c.durable && !p.message.body.Stored?, Deadline(p.message, now)));
  }

  lemma GrowsTransitive(a: Chat, b: Chat, c: Chat)
    requires Grows(a, b) && Grows(b, c)
    ensures Grows(a, c)
  {
    forall m | m in a.records ensures m in c.records && Keeps(a.records[m], c.records[m]) {
      assert Keeps(a.records[m], b.records[m]) && Keeps(b.records[m], c.records[m]);
    }
  }

  lemma AcceptReceiptKeeps(c: Chat, m: Message)
    requires ChatInv(c) && m.body.Stored? && AcceptReceipt(c, m).Some?
    ensures var d := AcceptReceipt(c, m).value;
            ChatInv(d) && Grows(c, d) && m.body.target in d.records && d.records[m.body.target].status.RecipientStored?
  {
    assert RecordSound(c, m.body.target);
    WithKeeps(c, m.body.target, c.records[m.body.target].(status := RecipientStored, attempt := None));
  }

  lemma EventKeeps(c: Chat, m: Message)
    requires ChatInv(c) && m.body.Service? && AcceptEvent(c, m).Some?
    ensures ChatInv(AcceptEvent(c, m).value) && Grows(c, AcceptEvent(c, m).value)
    ensures AcceptEvent(c, m).value.records == c.records
  {
    var d := AcceptEvent(c, m).value;
    forall n | n in d.records ensures RecordSound(d, n) && Keeps(c.records[n], d.records[n]) {
      assert RecordSound(c, n);
    }
  }

  lemma CommitKeeps(c: Chat, p: Packed, timestamp: nat, signature: nat, withReceipt: bool)
    requires ChatInv(c) && p.message.target == c.me && !p.message.body.Stored?
    requires CommitReceived(c, p, ReceiptIf(c, p, timestamp, signature, withReceipt)).Some?
    ensures var d := CommitReceived(c, p, ReceiptIf(c, p, timestamp, signature, withReceipt)).value;
            ChatInv(d) && Grows(c, d) && p.message in d.records
  {
    var m := p.message;
    if m.body.Service? {
      EventKeeps(c, m);
    } else {
      ReflexiveGrows(c);
    }
    var noticed := if m.body.Service? then AcceptEvent(c, m).value else c;
    AddKeeps(noticed, NewRecord(p, false, m.source, false, 0.0));
    var added := Add(noticed, NewRecord(p, false, m.source, false, 0.0)).value;
    GrowsTransitive(c, noticed, added);
    if withReceipt {
      if m in c.records && c.records[m].receipt.Some? {
        RequeueKeeps(added, c.records[m].receipt.value);
        GrowsTransitive(c, added, Requeue(added, c.records[m].receipt.value).value);
      } else {
        AttachKeeps(c, added, m, ReceiptFor(c, m, timestamp, signature));
      }
    }
  }

  lemma ReflexiveGrows(c: Chat)
    ensures Grows(c, c)
  {
  }

  lemma RequeueKeeps(c: Chat, r: Message)
    requires ChatInv(c) && r.body.Stored? && Requeue(c, r).Some?
    ensures ChatInv(Requeue(c, r).value) && Grows(c, Requeue(c, r).value)
  {
    assert RecordSound(c, r);
    if c.records[r].status.Sending? {
      ReflexiveGrows(c);
    } else {
      WithKeeps(c, r, c.records[r].(status := Queued, attempt := None));
    }
  }

  lemma AttachKeeps(c: Chat, added: Chat, m: Message, r: Packed)
    requires ChatInv(added) && Grows(c, added) && m in added.records && added.records[m].receipt.None?
    requires r.message.body == Stored(m) && r.message.source == added.me && r.message.target == m.source
    requires Add(added, NewRecord(r, true, m.source, false, 0.0)).Some?
    ensures var sent := Add(added, NewRecord(r, true, m.source, false, 0.0)).value;
            && m in sent.records
            && var d := With(sent, m, sent.records[m].(receipt := Some(r.message)));
               ChatInv(d) && Grows(c, d)
  {
    AddKeeps(added, NewRecord(r, true, m.source, false, 0.0));
    var sent := Add(added, NewRecord(r, true, m.source, false, 0.0)).value;
    GrowsTransitive(c, added, sent);
    assert RecordSound(sent, m);
    WithKeeps(sent, m, sent.records[m].(receipt := Some(r.message)));
    GrowsTransitive(c, sent, With(sent, m, sent.records[m].(receipt := Some(r.message))));
  }

  /** What a successful receive has made durable. */
  ghost predicate Committed(c: Chat, m: Message) {
    if m.body.Stored? then m.body.target in c.records && c.records[m.body.target].status.RecipientStored?
    else m in c.records
  }

  lemma CommittedStays(c: Chat, d: Chat, m: Message)
    requires Committed(c, m) && Grows(c, d)
    ensures Committed(d, m)
  {
  }

  /** Receiving a message, if it is not rejected, makes it durable and undoes nothing. */
  lemma ReceiveKeeps(c: Chat, p: Packed, genuine: bool, applicable: bool, timestamp: nat, signature: nat)
    requires ChatInv(c) && Receive(c, p, genuine, applicable, timestamp, signature).Some?
    ensures var d := Receive(c, p, genuine, applicable, timestamp, signature).value;
            && ChatInv(d) && Grows(c, d) && Committed(d, p.message) && genuine && p.message.target == c.me
  {
    hide ChatInv, Grows, CommitReceived;
    if p.message.body.Stored? {
      AcceptReceiptKeeps(c, p.message);
    } else if c.durable {
      CommitKeeps(c, p, timestamp, signature, true);
    } else if p.message.body.Service? {
      CommitKeeps(c, p, timestamp, signature, false);
    } else {
      AddKeeps(c, NewRecord(p, false, p.message.source, false, 0.0));
    }
  }
}
