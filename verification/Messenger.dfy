/** Senders, relay and recipients together, over a network that may lose, delay, repeat and reorder
    every request and answer, with stores reopened at any time.

    `signed` holds every message whose bytes left a store; a signature is genuine exactly for
    those.  `insertedAt` and `clock` are history variables: when the relay last inserted a
    ciphertext, and the highest clock reading it has used.
 */
module Messenger {
  import opened ChatTypes
  import opened Spool
  import opened ChatStore
  import opened Options

  type Attempt = (Address, Message, Token)

  datatype World = World(
    users: map<Address, Chat>, rows: seq<Row>, limits: Limits, retention: real,
    signed: set<Packed>, uploads: set<(Address, Blob)>, acks: set<(Address, Blob)>,
    fetched: set<(Address, Blob)>, purges: set<(Address, Blob)>,
    issued: set<Attempt>, finished: set<Attempt>,
    insertedAt: map<Blob, real>, clock: real)

  datatype Step =
    | Compose(user: Address, packed: Packed, now: real)
    | Begin(user: Address, message: Message, nonce: nat)
    | Upload(user: Address, message: Message, token: Token, made: Blob)
    | Inject(user: Address, blob: Blob)
    | RelayPut(user: Address, blob: Blob, now: real, at: real)
    | Finish(user: Address, message: Message, token: Token, ending: Ending, now: real)
    | RelayFetch(user: Address, blob: Blob)
    | Pull(user: Address, blob: Blob, applicable: bool, timestamp: nat, signature: nat)
    | Direct(user: Address, packed: Packed, applicable: bool, timestamp: nat, signature: nat)
    | RelayPurge(user: Address, blob: Blob, now: real)
    | RelayExpire(now: real)
    | Age(user: Address, now: real)
    | Open(user: Address, epoch: nat)
    | Trust(user: Address, contacts: set<Address>, publishers: set<Address>)

  function Highest(a: real, b: real): real { if a <= b then b else a }

  function WithUser(w: World, u: Address, c: Chat): World { w.(users := w.users[u := c]) }

  /** The receipt that a commit signs, for a store that gives receipts. */
  function Signs(c: Chat, m: Message, timestamp: nat, signature: nat): set<Packed> {
    if c.durable && !m.body.Stored? then {ReceiptFor(c, m, timestamp, signature)} else {}
  }

  ghost predicate Next(w: World, step: Step, x: World) {
    && (!step.RelayExpire? ==> step.user in w.users)
    && match step
       case Compose(u, p, now) =>
         && p.message.source == u
         && (p.message.body.Stored? ==> p.message.body.target in w.users[u].records)
         && Queue(w.users[u], p, now).Some?
         && x == WithUser(w, u, Queue(w.users[u], p, now).value).(signed := w.signed + {p})
       case Begin(u, m, nonce) =>
         && BeginAttempt(w.users[u], m, nonce).Some?
         && var a := (u, m, Token(w.users[u].epoch, nonce));
            && a !in w.issued
            && x == WithUser(w, u, BeginAttempt(w.users[u], m, nonce).value).(issued := w.issued + {a})
       case Upload(u, m, t, made) =>
         && (u, m, t) in w.issued && m in w.users[u].records
         && made.recipient == m.target && made.plain == Some(w.users[u].records[m].packed)
         && RelayBlob(w.users[u], m, made).Some?
         && var (c, b) := RelayBlob(w.users[u], m, made).value;
            x == WithUser(w, u, c).(uploads := w.uploads + {(u, b)})
       case Inject(u, b) => x == w.(uploads := w.uploads + {(u, b)})
       case RelayPut(u, b, now, at) =>
         && (u, b) in w.uploads
         && var accepted := PutOutcome(w.rows, w.limits, w.retention, u, b, now).Accepted?;
            x == w.(rows := AfterPut(w.rows, w.limits, w.retention, u, b, now, at),
                    acks := if accepted then w.acks + {(u, b)} else w.acks,
                    insertedAt := if accepted && !Holds(Fresh(w.rows, now - w.retention), b) then w.insertedAt[b := at]
                                  else w.insertedAt,
                    clock := Highest(w.clock, now))
       case Finish(u, m, t, e, now) =>
         && (u, m, t) in w.issued
         && (e.EndedRelayed? ==>
               exists b | (u, b) in w.acks :: m in w.users[u].records && w.users[u].records[m].blob == Some(b))
         && x == WithUser(w, u, FinishAttempt(w.users[u], m, t, e, now)).(finished := w.finished + {(u, m, t)})
       case RelayFetch(u, b) =>
         && Holds(w.rows, b) && b.recipient == u && x == w.(fetched := w.fetched + {(u, b)})
       case Pull(u, b, applicable, ts, sig) =>
         && (u, b) in w.fetched && b.recipient == u && b.plain.Some?
         && var c := w.users[u];
            var d := Receive(c, b.plain.value, b.plain.value in w.signed, applicable, ts, sig);
            && d.Some?
            && x == WithUser(w, u, d.value).(purges := w.purges + {(u, b)},
                                             signed := w.signed + Signs(c, b.plain.value.message, ts, sig))
       case Direct(u, p, applicable, ts, sig) =>
         && var c := w.users[u];
            var d := Receive(c, p, p in w.signed, applicable, ts, sig);
            && d.Some?
            && x == WithUser(w, u, d.value).(signed := w.signed + Signs(c, p.message, ts, sig))
       case RelayPurge(u, b, now) =>
         && (u, b) in w.purges
         && x == w.(rows := Purged(Fresh(w.rows, now - w.retention), u, b), clock := Highest(w.clock, now))
       case RelayExpire(now) =>
         x == w.(rows := Fresh(w.rows, now - w.retention), clock := Highest(w.clock, now))
       case Age(u, now) => x == WithUser(w, u, ExpireOutbox(w.users[u], now))
       case Open(u, epoch) =>
         (forall a | a in w.issued && a.0 == u :: a.2.epoch != epoch) && x == WithUser(w, u, Reopen(w.users[u], epoch))
       case Trust(u, contacts, publishers) =>
         x == WithUser(w, u, w.users[u].(contacts := contacts, publishers := publishers))
  }

  ghost predicate Init(w: World) {
    && (forall u | u in w.users :: w.users[u].me == u && w.users[u].records == map[] && w.users[u].notices == map[])
    && w.rows == [] && w.signed == {} && w.uploads == {} && w.acks == {} && w.fetched == {} && w.purges == {}
    && w.issued == {} && w.finished == {} && w.insertedAt == map[]
  }

  ghost predicate Execution(worlds: seq<World>, steps: seq<Step>) {
    && |worlds| == |steps| + 1
    && Init(worlds[0])
    && forall i | 0 <= i < |steps| :: Next(worlds[i], steps[i], worlds[i + 1])
  }

  // ---------------------------------------------------------------- the invariant

  /** The peer's store has the message. */
  ghost predicate HasRecord(users: map<Address, Chat>, m: Message, peer: Address) {
    peer in users && m in users[peer].records
  }

  ghost predicate UsersInv(users: map<Address, Chat>) {
    forall u | u in users :: users[u].me == u && ChatInv(users[u])
  }

  /** A signed receipt is true: its author has the message. */
  ghost predicate SignedInv(users: map<Address, Chat>, signed: set<Packed>) {
    forall p | p in signed && p.message.body.Stored? :: HasRecord(users, p.message.body.target, p.message.source)
  }

  /** What one outgoing record may claim. */
  ghost predicate Honest(users: map<Address, Chat>, acks: set<(Address, Blob)>, u: Address, m: Message)
    requires u in users && m in users[u].records
  {
    var r := users[u].records[m];
    && (r.status.RecipientStored? ==> HasRecord(users, m, r.peer))
    && (r.status.Relayed? ==> r.blob.Some? && (u, r.blob.value) in acks)
    && (r.blob.Some? ==> r.blob.value.recipient == m.target && r.blob.value.plain == Some(r.packed))
  }

  ghost predicate StatusInv(users: map<Address, Chat>, acks: set<(Address, Blob)>) {
    forall u, m | u in users && m in users[u].records :: Honest(users, acks, u, m)
  }

  /** The recipient of a ciphertext has made its message durable. */
  ghost predicate Taken(users: map<Address, Chat>, b: Blob) {
    b.plain.Some? && b.recipient in users && Committed(users[b.recipient], b.plain.value.message)
  }

  ghost predicate PurgesInv(users: map<Address, Chat>, purges: set<(Address, Blob)>) {
    forall q | q in purges :: q.1.recipient == q.0 && Taken(users, q.1)
  }

  /** Where an accepted ciphertext is: in the spool, taken by its recipient, or past retention. */
  ghost predicate Accounted(w: World, b: Blob)
    requires b in w.insertedAt
  {
    || (exists r :: r in w.rows && r.blob == b && r.received == w.insertedAt[b])
    || Taken(w.users, b)
    || w.insertedAt[b] <= w.clock - w.retention
  }

  ghost predicate SpoolInv(w: World) {
    && (forall b | b in w.insertedAt :: Accounted(w, b))
    && (forall r | r in w.rows :: r.blob in w.insertedAt && w.insertedAt[r.blob] == r.received)
    && (forall q | q in w.acks :: q.1 in w.insertedAt)
  }

  ghost predicate Outstanding(w: World, a: Attempt) {
    a in w.issued && a !in w.finished && a.0 in w.users && a.2.epoch == w.users[a.0].epoch
  }

  /** An attempt of this opening that has not ended is the one its record shows, or its message is
      already confirmed or expired. */
  ghost predicate Shown(c: Chat, m: Message, t: Token) {
    m in c.records && (c.records[m].status in {RecipientStored, Expired}
                       || (c.records[m].status.Sending? && c.records[m].attempt == Some(t)))
  }

  ghost predicate AttemptsInv(w: World) {
    && (forall a | Outstanding(w, a) :: Shown(w.users[a.0], a.1, a.2))
    && (forall a, b | Outstanding(w, a) && Outstanding(w, b) && a.0 == b.0 && a.1 == b.1 :: a == b)
  }

  ghost predicate WorldInv(w: World) {
    && UsersInv(w.users)
    && SignedInv(w.users, w.signed)
    && StatusInv(w.users, w.acks)
    && PurgesInv(w.users, w.purges)
    && SpoolInv(w)
    && AttemptsInv(w)
  }

  // ---------------------------------------------------------------- one user's step

  ghost predicate AllGrow(a: map<Address, Chat>, b: map<Address, Chat>) {
    a.Keys <= b.Keys && forall u | u in a :: Grows(a[u], b[u])
  }

  lemma UserGrows(users: map<Address, Chat>, u: Address, d: Chat)
    requires UsersInv(users) && u in users && Grows(users[u], d) && ChatInv(d)
    ensures AllGrow(users, users[u := d]) && UsersInv(users[u := d])
  {
    forall v | v in users ensures Grows(users[v], users[u := d][v]) { ReflexiveGrows(users[v]); }
  }

  lemma GrowthKeepsPromises(a: map<Address, Chat>, b: map<Address, Chat>, signed: set<Packed>,
      purges: set<(Address, Blob)>)
    requires AllGrow(a, b) && SignedInv(a, signed) && PurgesInv(a, purges)
    ensures SignedInv(b, signed) && PurgesInv(b, purges)
  {
    forall q | q in purges ensures Taken(b, q.1) {
      CommittedStays(a[q.0], b[q.0], q.1.plain.value.message);
    }
  }

  lemma GrowthKeepsSpool(w: World, b: map<Address, Chat>)
    requires SpoolInv(w) && AllGrow(w.users, b)
    ensures SpoolInv(w.(users := b))
  {
    var x := w.(users := b);
    forall c | c in x.insertedAt ensures Accounted(x, c) {
      assert Accounted(w, c);
      if Taken(w.users, c) {
        CommittedStays(w.users[c.recipient], b[c.recipient], c.plain.value.message);
      }
    }
  }

  /** A changed record makes no claim its old self did not, unless its confirmation is backed. */
  ghost predicate NoNewClaims(users: map<Address, Chat>, c: Chat, d: Chat) {
    forall m | m in d.records ::
      if m in c.records then
        && d.records[m].blob == c.records[m].blob
        && (d.records[m].status.Relayed? ==> c.records[m].status.Relayed?)
        && (d.records[m].status.RecipientStored? ==>
              c.records[m].status.RecipientStored? || HasRecord(users, m, d.records[m].peer))
      else d.records[m].blob.None? && d.records[m].status in {Queued, Received}
  }

  lemma ClaimsKept(users: map<Address, Chat>, acks: set<(Address, Blob)>, u: Address, d: Chat)
    requires StatusInv(users, acks) && u in users && Grows(users[u], d) && NoNewClaims(users, users[u], d)
    ensures StatusInv(users[u := d], acks)
  {
    var after := users[u := d];
    forall v, m | v in after && m in after[v].records ensures Honest(after, acks, v, m) {
      if v in users && m in users[v].records {
        assert Honest(users, acks, v, m);
        if v == u { assert Keeps(users[u].records[m], d.records[m]); }
      }
    }
  }

  lemma QuietKeepsAttempts(w: World, u: Address, d: Chat)
    requires AttemptsInv(w) && u in w.users && Quiet(w.users[u], d) && d.epoch == w.users[u].epoch
    ensures AttemptsInv(WithUser(w, u, d))
  {
    var x := WithUser(w, u, d);
    forall a | Outstanding(x, a) ensures Shown(x.users[a.0], a.1, a.2) {
      assert Outstanding(w, a);
      assert Shown(w.users[a.0], a.1, a.2);
    }
    forall a, b | Outstanding(x, a) && Outstanding(x, b) && a.0 == b.0 && a.1 == b.1 ensures a == b {
      assert Outstanding(w, a) && Outstanding(w, b);
    }
  }

  /** A user's operation that starts or ends no attempt. */
  lemma QuietStep(w: World, u: Address, d: Chat)
    requires WorldInv(w) && u in w.users && Grows(w.users[u], d) && ChatInv(d)
    requires NoNewClaims(w.users, w.users[u], d) && Quiet(w.users[u], d) && d.epoch == w.users[u].epoch
    ensures WorldInv(WithUser(w, u, d)) && AllGrow(w.users, w.users[u := d])
  {
    hide ChatInv, Grows, Quiet, NoNewClaims, UsersInv, SignedInv, StatusInv, PurgesInv, SpoolInv, AttemptsInv;
    UserGrows(w.users, u, d);
    GrowthKeepsPromises(w.users, w.users[u := d], w.signed, w.purges);
    GrowthKeepsSpool(w, w.users[u := d]);
    ClaimsKept(w.users, w.acks, u, d);
    QuietKeepsAttempts(w, u, d);
  }

  // ---------------------------------------------------------------- effects of the store's operations

  lemma QueueEffects(users: map<Address, Chat>, c: Chat, p: Packed, now: real)
    requires Queue(c, p, now).Some?
    ensures var d := Queue(c, p, now).value; NoNewClaims(users, c, d) && Quiet(c, d) && d.epoch == c.epoch
  {
  }

  lemma AgeEffects(users: map<Address, Chat>, c: Chat, now: real)
    ensures var d := ExpireOutbox(c, now); NoNewClaims(users, c, d) && Quiet(c, d) && d.epoch == c.epoch
  {
  }

  /** The changes of one commit, chained from its parts: nothing but new records, a queued-again
      receipt and the receipt link. */
  ghost predicate Additive(c: Chat, d: Chat) {
    && d.epoch == c.epoch && d.me == c.me
    && forall m | m in d.records ::
         if m in c.records then
           && d.records[m].blob == c.records[m].blob
           && (|| (d.records[m].status == c.records[m].status && d.records[m].attempt == c.records[m].attempt)
               || (m.body.Stored? && !c.records[m].status.Sending?
                   && d.records[m].status.Queued? && d.records[m].attempt.None?))
         else d.records[m].blob.None? && d.records[m].status in {Queued, Received} && d.records[m].attempt.None?
  }

  lemma AddAdditive(c: Chat, r: Record)
    requires Add(c, r).Some? && r.blob.None? && r.status in {Queued, Received} && r.attempt.None?
    ensures Additive(c, Add(c, r).value)
  {
  }

  lemma AdditiveTransitive(a: Chat, b: Chat, c: Chat)
    requires Additive(a, b) && Additive(b, c) && a.records.Keys <= b.records.Keys <= c.records.Keys
    ensures Additive(a, c)
  {
  }

  lemma RequeueAdditive(c: Chat, r: Message)
    requires r.body.Stored? && Requeue(c, r).Some?
    ensures Additive(c, Requeue(c, r).value) && Requeue(c, r).value.records.Keys == c.records.Keys
  {
  }

  lemma AttachAdditive(c: Chat, m: Message, r: Packed)
    requires m in c.records && Add(c, NewRecord(r, true, m.source, false, 0.0)).Some?
    ensures var sent := Add(c, NewRecord(r, true, m.source, false, 0.0)).value;
            && m in sent.records && c.records.Keys <= sent.records.Keys
            && Additive(c, With(sent, m, sent.records[m].(receipt := Some(r.message))))
  {
  }

  lemma CommitAdditive(c: Chat, p: Packed, receipt: Option<Packed>)
    requires ChatInv(c) && CommitReceived(c, p, receipt).Some?
    ensures Additive(c, CommitReceived(c, p, receipt).value)
  {
    hide Additive, RecordSound, Requeue;
    var m := p.message;
    var noticed := if m.body.Service? then AcceptEvent(c, m).value else c;
    var added := Add(noticed, NewRecord(p, false, m.source, false, 0.0)).value;
    AddAdditive(noticed, NewRecord(p, false, m.source, false, 0.0));
    SameRecordsAdditive(c, noticed, added);
    if receipt.Some? {
      if m in c.records && c.records[m].receipt.Some? {
        ReceiptIsReceipt(c, m);
        RequeueAdditive(added, c.records[m].receipt.value);
        AdditiveTransitive(c, added, Requeue(added, c.records[m].receipt.value).value);
      } else {
        AttachAdditive(added, m, receipt.value);
        var sent := Add(added, NewRecord(receipt.value, true, m.source, false, 0.0)).value;
        AdditiveTransitive(c, added, With(sent, m, sent.records[m].(receipt := Some(receipt.value.message))));
      }
    }
  }

  lemma SameRecordsAdditive(a: Chat, b: Chat, c: Chat)
    requires a.records == b.records && a.me == b.me && a.epoch == b.epoch && Additive(b, c)
    ensures Additive(a, c)
  {
  }

  lemma ReceiptIsReceipt(c: Chat, m: Message)
    requires ChatInv(c) && m in c.records && c.records[m].receipt.Some?
    ensures c.records[m].receipt.value.body.Stored?
  {
    assert RecordSound(c, m);
  }

  lemma AdditiveIsQuiet(users: map<Address, Chat>, c: Chat, d: Chat)
    requires ChatInv(c) && Additive(c, d) && c.records.Keys <= d.records.Keys
    ensures NoNewClaims(users, c, d) && Quiet(c, d)
  {
    forall m | m in c.records ensures Calm(c.records[m], d.records[m]) {
      assert RecordSound(c, m);
    }
  }

  /** A receive starts and ends no attempt, and claims nothing that is not so: a confirmation it
      records comes from a genuine receipt of that peer. */
  lemma ReceiveEffects(users: map<Address, Chat>, signed: set<Packed>, c: Chat, p: Packed, applicable: bool, ts: nat,
      sig: nat)
    requires ChatInv(c) && SignedInv(users, signed)
    requires Receive(c, p, p in signed, applicable, ts, sig).Some?
    ensures var d := Receive(c, p, p in signed, applicable, ts, sig).value;
            NoNewClaims(users, c, d) && Quiet(c, d) && d.epoch == c.epoch
  {
    hide CommitReceived;
    var d := Receive(c, p, p in signed, applicable, ts, sig).value;
    var m := p.message;
    if m.body.Stored? {
      assert HasRecord(users, m.body.target, m.source);
    } else {
      ReceiveKeeps(c, p, p in signed, applicable, ts, sig);
      if c.durable {
        CommitAdditive(c, p, Some(ReceiptFor(c, m, ts, sig)));
      } else if m.body.Service? {
        CommitAdditive(c, p, None);
      } else {
        AddAdditive(c, NewRecord(p, false, m.source, false, 0.0));
      }
      AdditiveIsQuiet(users, c, d);
    }
  }

  // ---------------------------------------------------------------- every step keeps the invariant

  lemma ComposeKeeps(w: World, u: Address, p: Packed, now: real)
    requires WorldInv(w) && u in w.users && p.message.source == u
    requires p.message.body.Stored? ==> p.message.body.target in w.users[u].records
    requires Queue(w.users[u], p, now).Some?
    ensures WorldInv(WithUser(w, u, Queue(w.users[u], p, now).value).(signed := w.signed + {p}))
    ensures AllGrow(w.users, w.users[u := Queue(w.users[u], p, now).value])
  {
    hide ChatInv, StatusInv, PurgesInv, SpoolInv, AttemptsInv;
    var d := Queue(w.users[u], p, now).value;
    assert ChatInv(w.users[u]);
    QueueKeeps(w.users[u], p, now);
    QueueEffects(w.users, w.users[u], p, now);
    QuietStep(w, u, d);
    SameButSigned(WithUser(w, u, d), w.signed + {p});
  }

  lemma SameButSigned(w: World, signed: set<Packed>)
    requires WorldInv(w) && SignedInv(w.users, signed)
    ensures WorldInv(w.(signed := signed))
  {
    SameSpool(w, w.(signed := signed));
    SameAttempts(w, w.(signed := signed));
  }

  lemma SameSpool(w: World, x: World)
    requires SpoolInv(w) && x.users == w.users && x.rows == w.rows && x.acks == w.acks
    requires x.insertedAt == w.insertedAt && x.clock == w.clock && x.retention == w.retention
    ensures SpoolInv(x)
  {
    forall b | b in x.insertedAt ensures Accounted(x, b) { assert Accounted(w, b); }
  }

  lemma SameAttempts(w: World, x: World)
    requires AttemptsInv(w) && x.users == w.users && x.issued == w.issued && x.finished == w.finished
    ensures AttemptsInv(x)
  {
    forall a | Outstanding(x, a) ensures Outstanding(w, a) && Shown(x.users[a.0], a.1, a.2) {
      assert Outstanding(w, a);
    }
  }

  lemma ReceiveStepKeeps(w: World, u: Address, p: Packed, applicable: bool, ts: nat, sig: nat, x: World)
    requires WorldInv(w) && u in w.users && Receive(w.users[u], p, p in w.signed, applicable, ts, sig).Some?
    requires x == WithUser(w, u, Receive(w.users[u], p, p in w.signed, applicable, ts, sig).value)
                  .(signed := w.signed + Signs(w.users[u], p.message, ts, sig))
    ensures WorldInv(x) && AllGrow(w.users, x.users) && Committed(x.users[u], p.message)
  {
    hide ChatInv, StatusInv, PurgesInv, SpoolInv, AttemptsInv, Receive;
    var c := w.users[u];
    var d := Receive(c, p, p in w.signed, applicable, ts, sig).value;
    assert ChatInv(c);
    ReceiveKeeps(c, p, p in w.signed, applicable, ts, sig);
    ReceiveEffects(w.users, w.signed, c, p, applicable, ts, sig);
    QuietStep(w, u, d);
    SignedAfterCommit(w, u, p, d, ts, sig);
    SameButSigned(WithUser(w, u, d), x.signed);
  }

  lemma SignedAfterCommit(w: World, u: Address, p: Packed, d: Chat, ts: nat, sig: nat)
    requires UsersInv(w.users) && u in w.users && SignedInv(w.users[u := d], w.signed)
    requires Committed(d, p.message)
    ensures SignedInv(w.users[u := d], w.signed + Signs(w.users[u], p.message, ts, sig))
  {
  }

  lemma PullKeeps(w: World, u: Address, b: Blob, y: World, x: World)
    requires WorldInv(y) && y.purges == w.purges && x == y.(purges := w.purges + {(u, b)})
    requires b.recipient == u && b.plain.Some? && u in y.users && Committed(y.users[u], b.plain.value.message)
    ensures WorldInv(x)
  {
    hide UsersInv, SignedInv, StatusInv, Shown;
    SameSpool(y, x);
    SameAttempts(y, x);
    assert Taken(y.users, b);
  }

  lemma BeginKeepsWorld(w: World, u: Address, m: Message, nonce: nat, x: World)
    requires WorldInv(w) && Next(w, Begin(u, m, nonce), x)
    ensures WorldInv(x) && AllGrow(w.users, x.users)
  {
    hide SignedInv, StatusInv, PurgesInv, SpoolInv, ChatInv, Grows;
    var c := w.users[u];
    var d := BeginAttempt(c, m, nonce).value;
    assert ChatInv(c);
    ChatStore.BeginKeeps(c, m, nonce);
    UserGrows(w.users, u, d);
    GrowthKeepsPromises(w.users, x.users, w.signed, w.purges);
    GrowthKeepsSpool(w, x.users);
    SameSpool(w.(users := x.users), x);
    BeginClaims(w.users, c, m, nonce);
    ClaimsKept(w.users, w.acks, u, d);
    BeginAttempts(w, u, m, nonce, x);
  }

  lemma BeginClaims(users: map<Address, Chat>, c: Chat, m: Message, nonce: nat)
    requires BeginAttempt(c, m, nonce).Some?
    ensures NoNewClaims(users, c, BeginAttempt(c, m, nonce).value)
  {
  }

  lemma BeginAttempts(w: World, u: Address, m: Message, nonce: nat, x: World)
    requires AttemptsInv(w) && Next(w, Begin(u, m, nonce), x)
    ensures AttemptsInv(x)
  {
    var fresh_ := (u, m, Token(w.users[u].epoch, nonce));
    forall a | Outstanding(x, a) && a != fresh_
      ensures Outstanding(w, a) && (a.0 == u ==> a.1 != m) && Shown(x.users[a.0], a.1, a.2)
    {
      assert Outstanding(w, a);
      assert Shown(w.users[a.0], a.1, a.2);
    }
    forall a, b | Outstanding(x, a) && Outstanding(x, b) && a.0 == b.0 && a.1 == b.1 ensures a == b {
      assert a != fresh_ && b != fresh_ ==> Outstanding(w, a) && Outstanding(w, b);
    }
    assert Outstanding(x, fresh_) ==> Shown(x.users[u], m, fresh_.2);
  }

  lemma FinishKeepsWorld(w: World, u: Address, m: Message, t: Token, e: Ending, now: real, x: World)
    requires WorldInv(w) && Next(w, Finish(u, m, t, e, now), x)
    ensures WorldInv(x) && AllGrow(w.users, x.users)
  {
    hide SignedInv, PurgesInv, SpoolInv, ChatInv, Grows;
    var c := w.users[u];
    var d := FinishAttempt(c, m, t, e, now);
    assert ChatInv(c);
    ChatStore.FinishKeeps(c, m, t, e, now);
    UserGrows(w.users, u, d);
    GrowthKeepsPromises(w.users, x.users, w.signed, w.purges);
    GrowthKeepsSpool(w, x.users);
    SameSpool(w.(users := x.users), x);
    FinishClaims(w, u, m, t, e, now, x);
    FinishAttempts(w, u, m, t, e, now, x);
  }

  lemma FinishClaims(w: World, u: Address, m: Message, t: Token, e: Ending, now: real, x: World)
    requires StatusInv(w.users, w.acks) && Next(w, Finish(u, m, t, e, now), x)
    requires Grows(w.users[u], FinishAttempt(w.users[u], m, t, e, now))
    ensures StatusInv(x.users, x.acks)
  {
    hide Queue, Receive, BeginAttempt, RelayBlob, ExpireOutbox, PutOutcome, AfterPut, Fresh, Purged;
    var d := FinishAttempt(w.users[u], m, t, e, now);
    forall v, n | v in x.users && n in x.users[v].records ensures Honest(x.users, x.acks, v, n) {
      assert Honest(w.users, w.acks, v, n);
      assert v == u ==> Keeps(w.users[u].records[n], d.records[n]);
    }
  }

  lemma FinishAttempts(w: World, u: Address, m: Message, t: Token, e: Ending, now: real, x: World)
    requires AttemptsInv(w) && Next(w, Finish(u, m, t, e, now), x)
    ensures AttemptsInv(x)
  {
    forall a | Outstanding(x, a) ensures Outstanding(w, a) && Shown(x.users[a.0], a.1, a.2) {
      assert Outstanding(w, a);
      assert Shown(w.users[a.0], a.1, a.2);
    }
  }

  lemma UploadKeepsWorld(w: World, u: Address, m: Message, t: Token, made: Blob, x: World)
    requires WorldInv(w) && Next(w, Upload(u, m, t, made), x)
    ensures WorldInv(x) && AllGrow(w.users, x.users)
  {
    hide SignedInv, PurgesInv, SpoolInv, ChatInv, Grows, AttemptsInv;
    var c := w.users[u];
    var (d, b) := RelayBlob(c, m, made).value;
    assert ChatInv(c);
    ChatStore.RelayBlobKeeps(c, m, made);
    UserGrows(w.users, u, d);
    GrowthKeepsPromises(w.users, x.users, w.signed, w.purges);
    GrowthKeepsSpool(w, x.users);
    SameSpool(w.(users := x.users), x);
    UploadClaims(w, u, m, t, made, x);
    UploadQuiet(c, m, made);
    QuietKeepsAttempts(w, u, d);
    SameAttempts(WithUser(w, u, d), x);
  }

  lemma UploadQuiet(c: Chat, m: Message, made: Blob)
    requires RelayBlob(c, m, made).Some?
    ensures Quiet(c, RelayBlob(c, m, made).value.0) && RelayBlob(c, m, made).value.0.epoch == c.epoch
  {
  }

  lemma UploadClaims(w: World, u: Address, m: Message, t: Token, made: Blob, x: World)
    requires StatusInv(w.users, w.acks) && Next(w, Upload(u, m, t, made), x)
    requires Grows(w.users[u], RelayBlob(w.users[u], m, made).value.0)
    ensures StatusInv(x.users, x.acks)
  {
    hide Queue, Receive, BeginAttempt, FinishAttempt, ExpireOutbox, PutOutcome, AfterPut, Fresh, Purged;
    forall v, n | v in x.users && n in x.users[v].records ensures Honest(x.users, x.acks, v, n) {
      assert Honest(w.users, w.acks, v, n);
    }
  }

  lemma OpenKeepsWorld(w: World, u: Address, epoch: nat, x: World)
    requires WorldInv(w) && Next(w, Open(u, epoch), x)
    ensures WorldInv(x) && AllGrow(w.users, x.users)
  {
    hide SignedInv, PurgesInv, SpoolInv;
    var c := w.users[u];
    EditedUser(w, u, Reopen(c, epoch));
    forall a | Outstanding(x, a) ensures a.0 != u && Outstanding(w, a) && Shown(x.users[a.0], a.1, a.2) {
      assert a in w.issued;
    }
  }

  /** Changing nothing but the opening or the contacts of a store. */
  lemma EditedUser(w: World, u: Address, d: Chat)
    requires WorldInv(w) && u in w.users && d.records == w.users[u].records && d.me == w.users[u].me
    ensures var after := w.users[u := d];
            && UsersInv(after) && AllGrow(w.users, after) && SignedInv(after, w.signed) && PurgesInv(after, w.purges)
            && StatusInv(after, w.acks) && SpoolInv(WithUser(w, u, d))
  {
    hide SpoolInv, SignedInv, PurgesInv, AttemptsInv;
    var c := w.users[u];
    forall m | m in d.records ensures RecordSound(d, m) { assert RecordSound(c, m); }
    UserGrows(w.users, u, d);
    GrowthKeepsPromises(w.users, w.users[u := d], w.signed, w.purges);
    GrowthKeepsSpool(w, w.users[u := d]);
    ClaimsKept(w.users, w.acks, u, d);
  }

  lemma TrustKeepsWorld(w: World, u: Address, contacts: set<Address>, publishers: set<Address>, x: World)
    requires WorldInv(w) && Next(w, Trust(u, contacts, publishers), x)
    ensures WorldInv(x) && AllGrow(w.users, x.users)
  {
    hide SignedInv, PurgesInv, SpoolInv, StatusInv;
    var d := w.users[u].(contacts := contacts, publishers := publishers);
    EditedUser(w, u, d);
    QuietKeepsAttempts(w, u, d);
  }

  lemma AgeKeepsWorld(w: World, u: Address, now: real)
    requires WorldInv(w) && u in w.users
    ensures WorldInv(WithUser(w, u, ExpireOutbox(w.users[u], now)))
    ensures AllGrow(w.users, w.users[u := ExpireOutbox(w.users[u], now)])
  {
    hide ChatInv, SignedInv, StatusInv, PurgesInv, SpoolInv, AttemptsInv;
    assert ChatInv(w.users[u]);
    ChatStore.ExpireKeeps(w.users[u], now);
    AgeEffects(w.users, w.users[u], now);
    QuietStep(w, u, ExpireOutbox(w.users[u], now));
  }

  // ---------------------------------------------------------------- the relay's steps

  /** Dropping expired rows loses nothing that is not past retention. */
  lemma FreshKeepsSpool(w: World, now: real)
    requires SpoolInv(w)
    ensures SpoolInv(w.(rows := Fresh(w.rows, now - w.retention), clock := Highest(w.clock, now)))
  {
    var x := w.(rows := Fresh(w.rows, now - w.retention), clock := Highest(w.clock, now));
    FreshExactly(w.rows, now - w.retention);
    forall b | b in x.insertedAt ensures Accounted(x, b) {
      assert Accounted(w, b);
    }
  }

  lemma PurgeKeepsSpool(w: World, u: Address, b: Blob)
    requires SpoolInv(w) && Taken(w.users, b)
    ensures SpoolInv(w.(rows := Purged(w.rows, u, b)))
  {
    var x := w.(rows := Purged(w.rows, u, b));
    PurgedExactly(w.rows, u, b);
    forall c | c in x.insertedAt ensures Accounted(x, c) {
      assert Accounted(w, c);
    }
  }

  lemma PutKeepsSpool(w: World, u: Address, b: Blob, now: real, at: real, x: World)
    requires SpoolInv(w) && Next(w, RelayPut(u, b, now, at), x)
    ensures SpoolInv(x)
  {
    hide SpoolInv, Fresh, Next;
    var y := w.(rows := Fresh(w.rows, now - w.retention), clock := Highest(w.clock, now));
    FreshKeepsSpool(w, now);
    PutMoves(w, u, b, now, at, x);
    if x == w.(clock := y.clock) {
      LaterKeepsSpool(w, x);
    } else if Holds(y.rows, b) {
      HeldIsInserted(y, b);
      AckKeepsSpool(y, (u, b), x);
    } else {
      InsertKeepsSpool(y, Row(b, u, at));
      SameSpool(Inserted(y, Row(b, u, at)), x);
    }
  }

  /** An upload is refused, is already there, or is added as one row; expired rows go unless it is refused. */
  lemma PutMoves(w: World, u: Address, b: Blob, now: real, at: real, x: World)
    requires Next(w, RelayPut(u, b, now, at), x)
    ensures var y := w.(rows := Fresh(w.rows, now - w.retention), clock := Highest(w.clock, now));
      || x == w.(clock := y.clock)
      || (Holds(y.rows, b) && x == y.(acks := w.acks + {(u, b)}))
      || (!Holds(y.rows, b) && x == Inserted(y, Row(b, u, at)))
  {
    hide Fresh;
  }

  /** Time passing only lets more be past retention. */
  lemma LaterKeepsSpool(w: World, x: World)
    requires SpoolInv(w) && x == w.(clock := x.clock) && w.clock <= x.clock
    ensures SpoolInv(x)
  {
    forall c | c in x.insertedAt ensures Accounted(x, c) {
      assert Accounted(w, c);
    }
  }

  lemma AckKeepsSpool(w: World, ack: (Address, Blob), x: World)
    requires SpoolInv(w) && ack.1 in w.insertedAt && x == w.(acks := w.acks + {ack})
    ensures SpoolInv(x)
  {
    forall c | c in x.insertedAt ensures Accounted(x, c) {
      assert Accounted(w, c);
    }
  }

  ghost function Inserted(w: World, row: Row): World {
    w.(rows := w.rows + [row], insertedAt := w.insertedAt[row.blob := row.received],
       acks := w.acks + {(row.sender, row.blob)})
  }

  lemma InsertKeepsSpool(w: World, row: Row)
    requires SpoolInv(w) && !Holds(w.rows, row.blob)
    ensures SpoolInv(Inserted(w, row))
  {
    hide Taken;
    var x := Inserted(w, row);
    forall r | r in w.rows ensures r in x.rows && r.blob != row.blob {
      var i :| 0 <= i < |w.rows| && w.rows[i] == r;
    }
    assert row in x.rows;
    forall c | c in x.insertedAt ensures Accounted(x, c) {
      if c != row.blob {
        assert Accounted(w, c);
      }
    }
  }

  lemma HeldIsInserted(w: World, b: Blob)
    requires SpoolInv(w) && Holds(w.rows, b)
    ensures b in w.insertedAt
  {
    var i :| 0 <= i < |w.rows| && w.rows[i].blob == b;
    assert w.rows[i] in w.rows;
  }

  lemma MoreAcks(users: map<Address, Chat>, acks: set<(Address, Blob)>, more: set<(Address, Blob)>)
    requires StatusInv(users, acks) && acks <= more
    ensures StatusInv(users, more)
  {
    forall u, m | u in users && m in users[u].records ensures Honest(users, more, u, m) {
      assert Honest(users, acks, u, m);
    }
  }

  lemma RelayStepKeeps(w: World, step: Step, x: World)
    requires WorldInv(w) && Next(w, step, x)
    requires step.RelayPut? || step.RelayPurge? || step.RelayExpire? || step.RelayFetch? || step.Inject?
    ensures WorldInv(x) && x.users == w.users
  {
    hide UsersInv, SignedInv, StatusInv, SpoolInv, AttemptsInv, Taken, PutOutcome, AfterPut;
    SameAttempts(w, x);
    match step
    case RelayPut(u, b, now, at) =>
      MoreAcks(w.users, w.acks, x.acks);
      PutKeepsSpool(w, u, b, now, at, x);
    case RelayPurge(u, b, now) =>
      FreshKeepsSpool(w, now);
      PurgeKeepsSpool(w.(rows := Fresh(w.rows, now - w.retention), clock := Highest(w.clock, now)), u, b);
    case RelayExpire(now) => FreshKeepsSpool(w, now);
    case RelayFetch(u, b) => SameSpool(w, x);
    case Inject(u, b) => SameSpool(w, x);
  }

  lemma AllGrowReflexive(users: map<Address, Chat>)
    ensures AllGrow(users, users)
  {
  }

  /** Every step of the messenger keeps the invariant, and no store ever goes back. */
  lemma StepKeeps(w: World, step: Step, x: World)
    requires WorldInv(w) && Next(w, step, x)
    ensures WorldInv(x) && AllGrow(w.users, x.users)
  {
    hide WorldInv, AllGrow, Queue, Receive, PutOutcome, AfterPut, RelayBlob, BeginAttempt, FinishAttempt, ExpireOutbox;
    match step
    case Compose(u, p, now) => ComposeKeeps(w, u, p, now);
    case Begin(u, m, nonce) => BeginKeepsWorld(w, u, m, nonce, x);
    case Upload(u, m, t, made) => UploadKeepsWorld(w, u, m, t, made, x);
    case Finish(u, m, t, e, now) => FinishKeepsWorld(w, u, m, t, e, now, x);
    case Pull(u, b, applicable, ts, sig) =>
      var y := x.(purges := w.purges);
      ReceiveStepKeeps(w, u, b.plain.value, applicable, ts, sig, y);
      PullKeeps(w, u, b, y, x);
    case Direct(u, p, applicable, ts, sig) => ReceiveStepKeeps(w, u, p, applicable, ts, sig, x);
    case Age(u, now) => AgeKeepsWorld(w, u, now);
    case Open(u, epoch) => OpenKeepsWorld(w, u, epoch, x);
    case Trust(u, contacts, publishers) => TrustKeepsWorld(w, u, contacts, publishers, x);
    case _ =>
      RelayStepKeeps(w, step, x);
      AllGrowReflexive(w.users);
  }

  lemma AllGrowTransitive(a: map<Address, Chat>, b: map<Address, Chat>, c: map<Address, Chat>)
    requires AllGrow(a, b) && AllGrow(b, c)
    ensures AllGrow(a, c)
  {
    forall u | u in a ensures Grows(a[u], c[u]) { GrowsTransitive(a[u], b[u], c[u]); }
  }

  lemma {:induction false} ReachableInv(worlds: seq<World>, steps: seq<Step>, i: nat, j: nat)
    requires Execution(worlds, steps) && i <= j < |worlds|
    ensures WorldInv(worlds[j]) && AllGrow(worlds[i].users, worlds[j].users)
    decreases j, i
  {
    hide WorldInv, AllGrow, Next;
    if j == 0 {
      InitHolds(worlds[0]);
      AllGrowReflexive(worlds[0].users);
    } else if i == j {
      ReachableInv(worlds, steps, j - 1, j - 1);
      StepKeeps(worlds[j - 1], steps[j - 1], worlds[j]);
      AllGrowReflexive(worlds[j].users);
    } else {
      ReachableInv(worlds, steps, i, j - 1);
      StepKeeps(worlds[j - 1], steps[j - 1], worlds[j]);
      AllGrowTransitive(worlds[i].users, worlds[j - 1].users, worlds[j].users);
    }
  }

  lemma InitHolds(w: World)
    requires Init(w)
    ensures WorldInv(w)
  {
  }

  // ---------------------------------------------------------------- what every run guarantees

  /** No accepted ciphertext is lost: at every later moment it is in the spool since its last
      insertion, or its recipient has made the message durable, or it is past retention. */
  lemma NothingIsLost(worlds: seq<World>, steps: seq<Step>, n: nat, b: Blob)
    requires Execution(worlds, steps) && n < |worlds| && b in worlds[n].insertedAt
    ensures || (exists r :: r in worlds[n].rows && r.blob == b && r.received == worlds[n].insertedAt[b])
            || Taken(worlds[n].users, b)
            || worlds[n].insertedAt[b] <= worlds[n].clock - worlds[n].retention
  {
    hide UsersInv, SignedInv, StatusInv, PurgesInv, AttemptsInv, Taken;
    ReachableInv(worlds, steps, n, n);
    assert Accounted(worlds[n], b);
  }

  /** In particular, of a message its sender shows as relayed. */
  lemma RelayedIsNotLost(worlds: seq<World>, steps: seq<Step>, n: nat, u: Address, m: Message)
    requires Execution(worlds, steps) && n < |worlds|
    requires u in worlds[n].users && m in worlds[n].users[u].records && worlds[n].users[u].records[m].status.Relayed?
    ensures var w := worlds[n];
            var r := w.users[u].records[m];
            && r.blob.Some? && r.blob.value in w.insertedAt && r.blob.value.plain == Some(r.packed)
            && (|| Holds(w.rows, r.blob.value)
                || (m.target in w.users && Committed(w.users[m.target], m))
                || w.insertedAt[r.blob.value] <= w.clock - w.retention)
  {
    hide SignedInv, PurgesInv, AttemptsInv;
    ReachableInv(worlds, steps, n, n);
    var w := worlds[n];
    assert Honest(w.users, w.acks, u, m) && RecordSound(w.users[u], m);
    var b := w.users[u].records[m].blob.value;
    NothingIsLost(worlds, steps, n, b);
    if r :| r in w.rows && r.blob == b && r.received == w.insertedAt[b] {
      var i :| 0 <= i < |w.rows| && w.rows[i] == r;
    }
  }

  /** A ciphertext leaves the spool only through retention, or through the purge of its own
      recipient after that recipient has made the message durable. */
  lemma LeavesOnlyWhenTakenOrExpired(worlds: seq<World>, steps: seq<Step>, n: nat, r: Row)
    requires Execution(worlds, steps) && n < |steps| && r in worlds[n].rows && r !in worlds[n + 1].rows
    ensures || r.received <= worlds[n + 1].clock - worlds[n + 1].retention
            || (steps[n].RelayPurge? && steps[n].blob == r.blob && steps[n].user == r.blob.recipient
                && Taken(worlds[n].users, r.blob))
  {
    hide UsersInv, SignedInv, StatusInv, AttemptsInv, Taken, SpoolInv, Next, Init;
    ReachableInv(worlds, steps, n, n);
    assert Next(worlds[n], steps[n], worlds[n + 1]);
    RowLeaves(worlds[n], steps[n], worlds[n + 1], r);
  }

  lemma RowLeaves(w: World, step: Step, x: World, r: Row)
    requires PurgesInv(w.users, w.purges) && Next(w, step, x) && r in w.rows && r !in x.rows
    ensures || r.received <= x.clock - x.retention
            || (step.RelayPurge? && step.blob == r.blob && step.user == r.blob.recipient && Taken(w.users, r.blob))
  {
    hide Next, Taken, Fresh, Purged;
    RowsMove(w, step, x);
    if step.RelayPut? || step.RelayPurge? || step.RelayExpire? {
      FreshExactly(w.rows, step.now - w.retention);
      if step.RelayPurge? {
        PurgedExactly(Fresh(w.rows, step.now - w.retention), step.user, step.blob);
      }
    }
  }

  /** What each step does to the spool. */
  lemma RowsMove(w: World, step: Step, x: World)
    requires Next(w, step, x)
    ensures if step.RelayPut? || step.RelayPurge? || step.RelayExpire? then
              && x.retention == w.retention && step.now <= x.clock
              && var kept := Fresh(w.rows, step.now - w.retention);
                 if step.RelayPurge?
                 then x.rows == Purged(kept, step.user, step.blob) && (step.user, step.blob) in w.purges
                 else kept <= x.rows || w.rows <= x.rows
            else x.rows == w.rows
  {
    hide Taken, Fresh, Purged, FinishAttempt, ExpireOutbox, Queue, BeginAttempt, RelayBlob, Receive, Reopen;
  }

  /** A message its sender shows as stored by the recipient is in that recipient's store, and the
      sender never shows anything else for it afterwards. */
  lemma StoredIsTrueForGood(worlds: seq<World>, steps: seq<Step>, i: nat, j: nat, u: Address, m: Message)
    requires Execution(worlds, steps) && i <= j < |worlds|
    requires u in worlds[i].users && m in worlds[i].users[u].records
    requires worlds[i].users[u].records[m].status.RecipientStored?
    ensures u in worlds[j].users && m in worlds[j].users[u].records
    ensures worlds[j].users[u].records[m].status.RecipientStored?
    ensures HasRecord(worlds[j].users, m, worlds[j].users[u].records[m].peer)
  {
    hide SignedInv, PurgesInv, AttemptsInv, SpoolInv, UsersInv;
    ReachableInv(worlds, steps, i, j);
    assert Grows(worlds[i].users[u], worlds[j].users[u]);
    assert Keeps(worlds[i].users[u].records[m], worlds[j].users[u].records[m]);
    assert Honest(worlds[j].users, worlds[j].acks, u, m);
  }

  /** However often a message is attempted, across crashes and openings, its signed bytes and its
      ciphertext never change, and each store files it once, under its own ID. */
  lemma BytesNeverChange(worlds: seq<World>, steps: seq<Step>, i: nat, j: nat, u: Address, m: Message)
    requires Execution(worlds, steps) && i <= j < |worlds|
    requires u in worlds[i].users && m in worlds[i].users[u].records
    ensures u in worlds[j].users && m in worlds[j].users[u].records
    ensures var a, b := worlds[i].users[u].records[m], worlds[j].users[u].records[m];
            b.packed == a.packed && b.packed.message == m && (a.blob.Some? ==> b.blob == a.blob)
  {
    hide SignedInv, PurgesInv, AttemptsInv, SpoolInv, StatusInv;
    ReachableInv(worlds, steps, i, j);
    assert Grows(worlds[i].users[u], worlds[j].users[u]);
    assert Keeps(worlds[i].users[u].records[m], worlds[j].users[u].records[m]);
    assert RecordSound(worlds[j].users[u], m);
  }

  /** At most one attempt of the current opening is in flight for a message. */
  lemma OneAttemptInFlight(worlds: seq<World>, steps: seq<Step>, n: nat, a: Attempt, b: Attempt)
    requires Execution(worlds, steps) && n < |worlds|
    requires Outstanding(worlds[n], a) && Outstanding(worlds[n], b) && a.0 == b.0 && a.1 == b.1
    ensures a == b
  {
    hide SignedInv, PurgesInv, SpoolInv, StatusInv, UsersInv;
    ReachableInv(worlds, steps, n, n);
  }

  /** The condition on composing is needed: a store that queues a receipt for a message it does not
      have makes the addressee show that message as stored when it is not. */
  lemma QueuedReceiptCanLie(c: Chat, d: Chat, m: Message, lie: Packed, now: real)
    requires lie.message == Message(d.me, c.me, lie.message.timestamp, Stored(m))
    requires d.me in c.contacts && lie.message !in c.records && |c.records| < HISTORY_QUOTA && m !in c.records
    requires c.me in d.contacts && m in d.records && d.records[m].outgoing && d.records[m].peer == c.me
      && !m.body.Stored?
    ensures var c' := Queue(c, lie, now);
            && c'.Some? && lie.message in c'.value.records && m !in c'.value.records
            && var d' := Receive(d, lie, true, true, 0, 0);
               d'.Some? && d'.value.records[m].status.RecipientStored?
  {
    assert lie.message.body.target == m && lie.message != m;
  }
}
