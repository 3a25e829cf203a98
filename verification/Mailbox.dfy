/** The message store as an object, and the mailbox exchange that drives it. */
module Mailbox {
  import opened ChatTypes
  import opened ChatStore
  import opened Options

  /** The message is not on record yet; or, for a receipt, what it confirms is not confirmed yet. */
  predicate IsNew(c: Chat, m: Message) {
    if m.body.Stored? then m.body.target in c.records && !c.records[m.body.target].status.RecipientStored?
    else m !in c.records
  }

  class MessageStore {
    const me: Address
    const durable: bool
    var contacts: set<Address>
    var publishers: set<Address>
    var epoch: nat
    var records: map<Message, Record>
    var notices: map<(Address, nat), Event>

    constructor (me: Address, durable: bool, epoch: nat)
      ensures View() == Chat(me, {}, {}, durable, epoch, map[], map[]) && ChatInv(View())
    {
      this.me, this.durable, this.epoch := me, durable, epoch;
      contacts, publishers, records, notices := {}, {}, map[], map[];
    }

    ghost function View(): Chat
      reads this
    {
      Chat(me, contacts, publishers, durable, epoch, records, notices)
    }

    /** Adds a record once; false when it was there already, `None` when the history is full. */
    method Add(r: Record) returns (added: Option<bool>)
      modifies this`records
      ensures match ChatStore.Add(old(View()), r)
              case None => added.None? && View() == old(View())
              case Some(d) => added == Some(r.packed.message !in old(records)) && View() == d
    {
      if r.packed.message in records {
        return Some(false);
      }
      if |records| >= HISTORY_QUOTA {
        return None;
      }
      records := records[r.packed.message := r];
      return Some(true);
    }

    /** Claims a message for one attempt of this opening. */
    method BeginAttempt(m: Message, nonce: nat) returns (r: Option<(Token, Packed)>)
      requires ChatInv(View())
      modifies this`records
      ensures ChatInv(View()) && Grows(old(View()), View())
      ensures match ChatStore.BeginAttempt(old(View()), m, nonce)
              case None => r.None? && View() == old(View())
              case Some(d) => r == Some((Token(epoch, nonce), old(records[m].packed))) && View() == d
    {
      ReflexiveGrows(View());
      if m !in records || !records[m].outgoing || records[m].status in {Delivered, RecipientStored, Expired} {
        return None;
      }
      if records[m].status.Sending? && records[m].attempt.Some? && records[m].attempt.value.epoch == epoch {
        return None;
      }
      BeginKeeps(View(), m, nonce);
      r := Some((Token(epoch, nonce), records[m].packed));
      records := records[m := records[m].(status := Sending, attempt := Some(Token(epoch, nonce)))];
    }

    method RelayBlob(m: Message, made: Blob) returns (r: Option<Blob>)
      requires ChatInv(View())
      modifies this`records
      ensures ChatInv(View()) && Grows(old(View()), View())
      ensures match ChatStore.RelayBlob(old(View()), m, made)
              case None => r.None? && View() == old(View())
              case Some((d, b)) => r == Some(b) && View() == d
    {
      ReflexiveGrows(View());
      if m !in records || !records[m].outgoing {
        return None;
      }
      if records[m].blob.None? {
        if !(MIN_BLOB <= made.size <= MAX_BLOB) {
          return None;
        }
        RelayBlobKeeps(View(), m, made);
        records := records[m := records[m].(blob := Some(made))];
      }
      return records[m].blob;
    }

    method FinishAttempt(m: Message, t: Token, e: Ending, now: real) returns (counted: bool)
      requires ChatInv(View())
      modifies this`records
      ensures ChatInv(View()) && Grows(old(View()), View())
      ensures View() == ChatStore.FinishAttempt(old(View()), m, t, e, now) && counted == Current(old(View()), m, t)
    {
      hide ChatInv, Grows;
      FinishKeeps(View(), m, t, e, now);
      if m !in records || !records[m].status.Sending? || records[m].attempt != Some(t) || t.epoch != epoch {
        return false;
      }
      var status := match e case EndedDelivered => Delivered case EndedRelayed => Relayed case EndedFailed => Queued;
      var r := records[m].(status := status, attempt := None);
      if e.EndedRelayed? && r.requireStored {
        var n := if r.relayAttempts + 1 <= 7 then r.relayAttempts + 1 else 7;
        r := r.(relayAttempts := n, retryAt := now + RetryDelay(n));
      }
      records := records[m := r];
      return true;
    }

    /** Expires what is overdue, row by row. */
    method ExpireOverdue(now: real)
      modifies this`records
      ensures View() == ExpireOutbox(old(View()), now)
    {
      ghost var before := records;
      var rest := records.Keys;
      while rest != {}
        invariant rest <= before.Keys && records.Keys == before.Keys
        invariant forall m | m in before :: records[m] == if m in rest then before[m] else Aged(before[m], now)
        decreases |rest|
      {
        var m :| m in rest;
        if records[m].requireStored && now >= records[m].expiresAt
          && records[m].status !in {RecipientStored, Delivered, Expired} {
          records := records[m := records[m].(status := Expired, attempt := None)];
        }
        rest := rest - {m};
      }
      assert records == ExpireOutbox(old(View()), now).records;
    }

    /** Expires overdue messages one by one, then lists what is waiting to be sent. */
    method PendingOutbox(now: real) returns (ids: set<Message>)
      requires ChatInv(View())
      modifies this`records
      ensures ChatInv(View()) && Grows(old(View()), View())
      ensures View() == ExpireOutbox(old(View()), now)
      ensures ids == set m | m in records && PendingNow(View(), records[m], now)
    {
      hide ChatInv, Grows, ExpireOutbox;
      ExpireKeeps(View(), now);
      ExpireOverdue(now);
      ids := set m | m in records && records[m].outgoing
                     && (|| records[m].status.Queued?
                         || (records[m].status.Relayed? && records[m].requireStored && now >= records[m].retryAt)
                         || (records[m].status.Sending?
                            && !(records[m].attempt.Some? && records[m].attempt.value.epoch == epoch)));
    }

    /** Commits a received message with its notice and receipt, or nothing at all. */
    method CommitReceived(p: Packed, receipt: Option<Packed>) returns (added: Option<bool>)
      modifies this`records, this`notices
      ensures match ChatStore.CommitReceived(old(View()), p, receipt)
              case None => added.None? && View() == old(View())
              case Some(d) => added == Some(p.message !in old(records)) && View() == d
    {
      var m := p.message;
      var oldRecords, oldNotices := records, notices;
      if m.body.Service? {
        var e, k := m.body.event, (m.source, m.body.event.id);
        if k in notices {
          if e.revision < notices[k].revision || (e.revision == notices[k].revision && e != notices[k]) {
            return None;
          }
        } else if |notices| >= HISTORY_QUOTA {
          return None;
        }
        notices := notices[k := e];
      }
      added := Add(NewRecord(p, false, m.source, false, 0.0));
      if added.Some? && receipt.Some? {
        if m in oldRecords && oldRecords[m].receipt.Some? {
          var r := oldRecords[m].receipt.value;
          if r !in records {
            added := None;
          } else if !records[r].status.Sending? {
            records := records[r := records[r].(status := Queued, attempt := None)];
          }
        } else {
          var queued := Add(NewRecord(receipt.value, true, m.source, false, 0.0));
          if queued.None? {
            added := None;
          } else {
            records := records[m := records[m].(receipt := Some(receipt.value.message))];
          }
        }
      }
      if added.None? {
        records, notices := oldRecords, oldNotices;
      }
    }

    /** Receives packed bytes; `None` is a rejection.  What it accepts is durable on return. */
    method Receive(p: Packed, genuine: bool, applicable: bool, timestamp: nat, signature: nat)
      returns (fresh_: Option<bool>)
      requires ChatInv(View())
      modifies this`records, this`notices
      ensures ChatInv(View()) && Grows(old(View()), View())
      ensures match ChatStore.Receive(old(View()), p, genuine, applicable, timestamp, signature)
              case None => fresh_.None? && View() == old(View())
              case Some(d) => fresh_.Some? && View() == d
      ensures fresh_.Some? ==> Committed(View(), p.message) && fresh_.value == IsNew(old(View()), p.message)
    {
      hide ChatInv, Grows, ChatStore.CommitReceived;
      var m := p.message;
      ReflexiveGrows(View());
      if ChatStore.Receive(View(), p, genuine, applicable, timestamp, signature).Some? {
        ReceiveKeeps(View(), p, genuine, applicable, timestamp, signature);
      }
      if m.target != me || m.source !in contacts + publishers || !genuine {
        return None;
      }
      if m.body.Stored? {
        var t := m.body.target;
        if t !in records || !records[t].outgoing || records[t].peer != m.source || t.body.Stored? {
          return None;
        }
        fresh_ := Some(!records[t].status.RecipientStored?);
        records := records[t := records[t].(status := RecipientStored, attempt := None)];
        return;
      }
      if m.body.Service? {
        if m.source !in publishers || !applicable {
          return None;
        }
      } else if m.source !in contacts {
        return None;
      }
      if durable {
        fresh_ := CommitReceived(p, Some(Packed(Message(m.source, me, timestamp, Stored(m)), signature)));
      } else if m.body.Service? {
        fresh_ := CommitReceived(p, None);
      } else {
        fresh_ := Add(NewRecord(p, false, m.source, false, 0.0));
      }
    }
  }

  datatype SyncResult = SyncResult(stored: nat, duplicates: nat, rejected: nat, purged: nat)

  /** What a recipient may ask the relay to purge. */
  ghost predicate Purgeable(c: Chat, b: Blob) {
    b.recipient == c.me && b.plain.Some? && Committed(c, b.plain.value.message)
  }

  lemma PurgeableStays(c: Chat, d: Chat, b: Blob)
    requires Purgeable(c, b) && Grows(c, d)
    ensures Purgeable(d, b)
  {
    CommittedStays(c, d, b.plain.value.message);
  }

  /** The first ten distinct entries of a listing. */
  function FirstTen(available: seq<Blob>): seq<Blob> {
    if available == [] then []
    else
      var before := FirstTen(available[..|available| - 1]);
      if |before| < 10 && available[|available| - 1] !in before then before + [available[|available| - 1]] else before
  }

  method Wanted(available: seq<Blob>) returns (wanted: seq<Blob>)
    ensures wanted == FirstTen(available)
    ensures |wanted| <= 10 && forall b | b in wanted :: b in available
    ensures forall i, j | 0 <= i < j < |wanted| :: wanted[i] != wanted[j]
    ensures |wanted| < 10 ==> forall b | b in available :: b in wanted
  {
    wanted := [];
    for i := 0 to |available|
      invariant wanted == FirstTen(available[..i])
      invariant |wanted| <= 10 && forall b | b in wanted :: b in available
      invariant forall j, k | 0 <= j < k < |wanted| :: wanted[j] != wanted[k]
      invariant |wanted| < 10 ==> forall j | 0 <= j < i :: available[j] in wanted
    {
      assert available[..i + 1][..i] == available[..i];
      if |wanted| < 10 && available[i] !in wanted {
        wanted := wanted + [available[i]];
      }
    }
    assert available[..|available|] == available;
  }

  /** The store after it takes in a ciphertext, or nothing if it cannot be opened here or its message is rejected. */
  function TakenOne(c: Chat, b: Blob, signed: set<Packed>, applicable: bool, stamp: nat): Option<Chat> {
    if b.recipient != c.me || b.plain.None? then None
    else ChatStore.Receive(c, b.plain.value, b.plain.value in signed, applicable, stamp, stamp)
  }

  /** The store after the first ciphertexts of a batch, one after the other. */
  function TakenAll(c: Chat, batch: seq<Blob>, signed: set<Packed>, applicable: bool, clock: nat -> nat): Chat {
    if batch == [] then c
    else
      var n := |batch| - 1;
      var before := TakenAll(c, batch[..n], signed, applicable, clock);
      match TakenOne(before, batch[n], signed, applicable, clock(n)) case Some(d) => d case None => before
  }

  /** Those of a batch that are taken in. */
  function Kept(c: Chat, batch: seq<Blob>, signed: set<Packed>, applicable: bool, clock: nat -> nat): seq<Blob> {
    if batch == [] then []
    else
      var n := |batch| - 1;
      Kept(c, batch[..n], signed, applicable, clock)
      + if TakenOne(TakenAll(c, batch[..n], signed, applicable, clock), batch[n], signed, applicable, clock(n)).Some?
        then [batch[n]] else []
  }

  /** How many of a batch are taken in for the first time. */
  function NewOnes(c: Chat, batch: seq<Blob>, signed: set<Packed>, applicable: bool, clock: nat -> nat): nat {
    if batch == [] then 0
    else
      var n := |batch| - 1;
      var before := TakenAll(c, batch[..n], signed, applicable, clock);
      NewOnes(c, batch[..n], signed, applicable, clock)
      + if TakenOne(before, batch[n], signed, applicable, clock(n)).Some?
           && IsNew(before, batch[n].plain.value.message) then 1 else 0
  }

  /** An answer as expected: distinct wanted ciphertexts of a proper size. */
  ghost predicate Proper(wanted: seq<Blob>, batch: seq<Blob>) {
    && (forall i | 0 <= i < |batch| :: 16 < batch[i].size <= MAX_BLOB && batch[i] in wanted)
    && (forall i, j | 0 <= i < j < |batch| :: batch[i] != batch[j])
  }

  /** Takes in one ciphertext: opens it and receives its message. */
  method TakeOne(store: MessageStore, b: Blob, signed: set<Packed>, applicable: bool, stamp: nat)
    returns (added: Option<bool>)
    requires ChatInv(store.View())
    modifies store`records, store`notices
    ensures ChatInv(store.View()) && Grows(old(store.View()), store.View())
    ensures match TakenOne(old(store.View()), b, signed, applicable, stamp)
            case None => added.None? && store.View() == old(store.View())
            case Some(d) =>
              && store.View() == d && Purgeable(d, b) && b.plain.Some?
              && added == Some(IsNew(old(store.View()), b.plain.value.message))
  {
    hide ChatInv, Grows, ChatStore.Receive;
    ReflexiveGrows(store.View());
    if b.recipient != store.me || b.plain.None? {
      return None;
    }
    added := store.Receive(b.plain.value, b.plain.value in signed, applicable, stamp, stamp);
  }

  /** Receives one fetched batch.  The ciphertexts it has for purging are distinct wanted members of the
      batch, and each one's message is durable; an unexpected answer has none. */
  method TakeBatch(store: MessageStore, wanted: seq<Blob>, batch: seq<Blob>, signed: set<Packed>, applicable: bool,
                   clock: nat -> nat)
    returns (ok: bool, result: SyncResult, haves: seq<Blob>)
    requires ChatInv(store.View())
    modifies store`records, store`notices
    ensures ChatInv(store.View()) && Grows(old(store.View()), store.View())
    ensures !ok ==> haves == [] && !Proper(wanted, batch)
    ensures ok ==> store.View() == TakenAll(old(store.View()), batch, signed, applicable, clock)
    ensures ok ==> haves == Kept(old(store.View()), batch, signed, applicable, clock)
    ensures ok ==> result.stored == NewOnes(old(store.View()), batch, signed, applicable, clock)
    ensures forall b | b in haves :: b in batch && b in wanted && Purgeable(store.View(), b)
    ensures forall i, j | 0 <= i < j < |haves| :: haves[i] != haves[j]
    ensures ok ==> |haves| == result.stored + result.duplicates && result.purged == 0
                   && result.stored + result.duplicates + result.rejected == |batch|
  {
    hide ChatInv, Grows, TakenOne, Purgeable, IsNew;
    ghost var start := store.View();
    ReflexiveGrows(start);
    haves, result := [], SyncResult(0, 0, 0, 0);
    for i := 0 to |batch|
      invariant ChatInv(store.View()) && Grows(start, store.View())
      invariant forall b | b in haves :: b in batch && b in wanted && Purgeable(store.View(), b)
      invariant forall j, k | 0 <= j < k < |haves| :: haves[j] != haves[k]
      invariant forall b | b in haves :: b in batch[..i]
      invariant store.View() == TakenAll(start, batch[..i], signed, applicable, clock)
      invariant haves == Kept(start, batch[..i], signed, applicable, clock)
      invariant result.stored == NewOnes(start, batch[..i], signed, applicable, clock)
      invariant |haves| == result.stored + result.duplicates && result.purged == 0
      invariant result.stored + result.duplicates + result.rejected == i
    {
      var b := batch[i];
      assert batch[..i + 1][..i] == batch[..i];
      if !(16 < b.size <= MAX_BLOB) || b !in wanted || b in haves {
        return false, result, [];
      }
      ghost var before := store.View();
      var added := TakeOne(store, b, signed, applicable, clock(i));
      GrowsTransitive(start, before, store.View());
      forall x | x in haves ensures Purgeable(store.View(), x) { PurgeableStays(before, store.View(), x); }
      if added.None? {
        result := result.(rejected := result.rejected + 1);
      } else {
        result := if added.value then result.(stored := result.stored + 1)
                  else result.(duplicates := result.duplicates + 1);
        haves := haves + [b];
      }
    }
    assert batch[..|batch|] == batch;
    ok := true;
  }

  /** One mailbox round: ask for at most ten of the listed ciphertexts, receive them, and only then purge what has
      been received.  `more` asks for another round, and only a purge justifies one. */
  method Sync(store: MessageStore, available: seq<Blob>, batch: seq<Blob>, delete: bool, signed: set<Packed>,
              applicable: bool, clock: nat -> nat)
    returns (ok: bool, result: SyncResult, purge: seq<Blob>, more: bool)
    requires ChatInv(store.View())
    modifies store`records, store`notices
    ensures ChatInv(store.View()) && Grows(old(store.View()), store.View())
    ensures ok ==> |available| <= 1000 && (available != [] ==> |batch| <= 10)
    ensures !ok ==> |available| > 1000 || |batch| > |FirstTen(available)| || !Proper(FirstTen(available), batch)
    ensures ok ==>
      var taken := if available == [] then [] else batch;
      && store.View() == TakenAll(old(store.View()), taken, signed, applicable, clock)
      && result.stored == NewOnes(old(store.View()), taken, signed, applicable, clock)
      && purge == if delete then Kept(old(store.View()), taken, signed, applicable, clock) else []
    ensures !ok || !delete ==> purge == []
    ensures forall b | b in purge :: b in available && b in batch && Purgeable(store.View(), b)
    ensures forall i, j | 0 <= i < j < |purge| :: purge[i] != purge[j]
    ensures ok ==> result.purged == |purge| <= result.stored + result.duplicates
                   && (delete ==> |purge| == result.stored + result.duplicates)
                   && (available != [] ==> result.stored + result.duplicates + result.rejected == |batch|)
    ensures more <==> ok && 0 < |purge| < |available|
  {
    hide ChatInv, Grows, Purgeable;
    ReflexiveGrows(store.View());
    purge, more, result := [], false, SyncResult(0, 0, 0, 0);
    if |available| > 1000 {
      return false, result, purge, more;
    }
    var wanted := Wanted(available);
    assert available != [] ==> available[0] in available;
    if wanted == [] {
      return true, result, purge, more;
    }
    if |batch| > |wanted| {
      return false, result, purge, more;
    }
    var haves;
    ok, result, haves := TakeBatch(store, wanted, batch, signed, applicable, clock);
    if ok && delete {
      purge := haves;
      result := result.(purged := |haves|);
      more := 0 < |haves| && |available| > |haves|;
    }
  }

  /** Publishes one message: claim it, keep its one ciphertext, send that, and record how it ended.
      `answer` tells whether the relay's reply confirms storage. */
  method Publish(store: MessageStore, m: Message, nonce: nat, made: Blob, knownContact: bool, answer: bool, now: real)
    returns (sent: Option<Blob>, ok: bool)
    requires ChatInv(store.View())
    modifies store`records
    ensures ChatInv(store.View()) && Grows(old(store.View()), store.View())
    ensures sent.Some? ==> m in store.records && store.records[m].blob == sent
    ensures ok ==> sent.Some? && answer && store.records[m].status.Relayed? && store.records[m].attempt.None?
    ensures !ok && CanBegin(old(store.View()), m) ==>
      m in store.records && store.records[m].status.Queued? && store.records[m].attempt.None?
    ensures sent.Some? <==>
      && CanBegin(old(store.View()), m) && knownContact
      && (old(store.records)[m].blob.Some? || MIN_BLOB <= made.size <= MAX_BLOB)
    ensures ok <==> sent.Some? && answer
    ensures !CanBegin(old(store.View()), m) ==> !ok && sent.None? && store.View() == old(store.View())
  {
    hide ChatInv, Grows;
    ghost var start := store.View();
    ReflexiveGrows(start);
    sent := None;
    var begun := store.BeginAttempt(m, nonce);
    if begun.None? {
      return None, false;
    }
    ghost var second := store.View();
    var token := begun.value.0;
    if knownContact {
      sent := store.RelayBlob(m, made);
      GrowsTransitive(start, second, store.View());
    }
    ghost var third := store.View();
    ok := sent.Some? && answer;
    var counted := store.FinishAttempt(m, token, if ok then EndedRelayed else EndedFailed, now);
    GrowsTransitive(start, third, store.View());
  }
}
