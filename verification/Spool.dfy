/** The relay's bounded ciphertext spool. */
module Spool {
  import opened ChatTypes
  import opened Options

  datatype Row = Row(blob: Blob, sender: Address, received: real)

  datatype Limits = Limits(bytes: nat, messages: nat, senderBytes: nat, senderMessages: nat)

  datatype PutResult = Accepted | Full | Refused

  function Bytes(rows: seq<Row>): nat {
    if rows == [] then 0 else rows[0].blob.size + Bytes(rows[1..])
  }

  function Of(rows: seq<Row>, sender: Address): seq<Row> {
    if rows == [] then []
    else (if rows[0].sender == sender then [rows[0]] else []) + Of(rows[1..], sender)
  }

  /** Rows newer than the retention cutoff. */
  function Fresh(rows: seq<Row>, cutoff: real): seq<Row> {
    if rows == [] then []
    else (if rows[0].received <= cutoff then [] else [rows[0]]) + Fresh(rows[1..], cutoff)
  }

  /** Rows left after a recipient's purge of one ciphertext. */
  function Purged(rows: seq<Row>, recipient: Address, blob: Blob): seq<Row> {
    if rows == [] then []
    else (if rows[0].blob == blob && rows[0].blob.recipient == recipient then [] else [rows[0]])
         + Purged(rows[1..], recipient, blob)
  }

  predicate Holds(rows: seq<Row>, blob: Blob) {
    exists i :: 0 <= i < |rows| && rows[i].blob == blob
  }

  ghost predicate DistinctBlobs(rows: seq<Row>) {
    forall i, j | 0 <= i < j < |rows| :: rows[i].blob != rows[j].blob
  }

  ghost predicate WithinQuota(rows: seq<Row>, l: Limits) {
    && |rows| <= l.messages && Bytes(rows) <= l.bytes
    && forall s :: |Of(rows, s)| <= l.senderMessages && Bytes(Of(rows, s)) <= l.senderBytes
  }

  /** `kept` is `rows` with some rows left out, the others in the same order. */
  predicate Thinned(kept: seq<Row>, rows: seq<Row>) {
    || kept == []
    || (rows != [] && if kept[0] == rows[0] then Thinned(kept[1..], rows[1..]) else Thinned(kept, rows[1..]))
  }

  lemma {:induction false} ThinnedSelf(rows: seq<Row>)
    ensures Thinned(rows, rows)
  {
    if rows != [] { ThinnedSelf(rows[1..]); }
  }

  lemma {:induction false} ThinnedSkip(kept: seq<Row>, rows: seq<Row>)
    requires rows != [] && Thinned(kept, rows[1..])
    ensures Thinned(kept, rows)
  {
    if kept != [] && kept[0] == rows[0] {
      ThinnedTail(kept, rows[1..]);
    }
  }

  lemma {:induction false} ThinnedTail(kept: seq<Row>, rows: seq<Row>)
    requires kept != [] && Thinned(kept, rows)
    ensures Thinned(kept[1..], rows)
  {
    if kept[0] == rows[0] {
      ThinnedSkip(kept[1..], rows);
    } else {
      ThinnedTail(kept, rows[1..]);
      ThinnedSkip(kept[1..], rows);
    }
  }

  lemma {:induction false} FreshThins(rows: seq<Row>, cutoff: real)
    ensures Thinned(Fresh(rows, cutoff), rows)
  {
    if rows != [] {
      FreshThins(rows[1..], cutoff);
      var rest := Fresh(rows[1..], cutoff);
      if rows[0].received <= cutoff {
        assert Fresh(rows, cutoff) == rest;
        ThinnedSkip(rest, rows);
      } else {
        assert Fresh(rows, cutoff)[1..] == rest;
      }
    }
  }

  lemma {:induction false} PurgedThins(rows: seq<Row>, recipient: Address, blob: Blob)
    ensures Thinned(Purged(rows, recipient, blob), rows)
  {
    if rows != [] {
      PurgedThins(rows[1..], recipient, blob);
      var rest := Purged(rows[1..], recipient, blob);
      if rows[0].blob == blob && rows[0].blob.recipient == recipient {
        assert Purged(rows, recipient, blob) == rest;
        ThinnedSkip(rest, rows);
      } else {
        assert Purged(rows, recipient, blob)[1..] == rest;
      }
    }
  }

  lemma {:induction false} ThinnedMember(kept: seq<Row>, rows: seq<Row>)
    requires Thinned(kept, rows)
    ensures forall r | r in kept :: r in rows
  {
    if kept != [] {
      assert kept == [kept[0]] + kept[1..] && rows == [rows[0]] + rows[1..];
      if kept[0] == rows[0] {
        ThinnedMember(kept[1..], rows[1..]);
      } else {
        ThinnedMember(kept, rows[1..]);
      }
    }
  }

  lemma {:induction false} ThinnedDistinct(kept: seq<Row>, rows: seq<Row>)
    requires Thinned(kept, rows) && DistinctBlobs(rows)
    ensures DistinctBlobs(kept)
  {
    if kept != [] {
      if kept[0] == rows[0] {
        ThinnedDistinct(kept[1..], rows[1..]);
        ThinnedMember(kept[1..], rows[1..]);
        forall j | 0 < j < |kept| ensures kept[j].blob != kept[0].blob {
          assert kept[1..][j - 1] in rows[1..];
          var i :| 0 <= i < |rows[1..]| && rows[1..][i] == kept[j];
          assert rows[i + 1] == kept[j];
        }
        forall i, j | 0 < i < j < |kept| ensures kept[i].blob != kept[j].blob {
          assert kept[1..][i - 1].blob != kept[1..][j - 1].blob;
        }
      } else {
        ThinnedDistinct(kept, rows[1..]);
      }
    }
  }

  /** Leaving rows out never raises a count or a size. */
  lemma {:induction false} ThinnedShrinks(kept: seq<Row>, rows: seq<Row>, s: Address)
    requires Thinned(kept, rows)
    ensures |kept| <= |rows| && Bytes(kept) <= Bytes(rows)
    ensures |Of(kept, s)| <= |Of(rows, s)| && Bytes(Of(kept, s)) <= Bytes(Of(rows, s))
  {
    if kept != [] {
      var head := if rows[0].sender == s then [rows[0]] else [];
      BytesConcat(head, Of(rows[1..], s));
      if kept[0] == rows[0] {
        ThinnedShrinks(kept[1..], rows[1..], s);
        BytesConcat(head, Of(kept[1..], s));
      } else {
        ThinnedShrinks(kept, rows[1..], s);
      }
    }
  }

  lemma {:induction false} BytesConcat(a: seq<Row>, b: seq<Row>)
    ensures Bytes(a + b) == Bytes(a) + Bytes(b)
  {
    if a == [] {
      assert a + b == b;
    } else {
      assert (a + b)[1..] == a[1..] + b;
      BytesConcat(a[1..], b);
    }
  }

  lemma {:induction false} OfConcat(a: seq<Row>, b: seq<Row>, s: Address)
    ensures Of(a + b, s) == Of(a, s) + Of(b, s)
  {
    if a == [] {
      assert a + b == b;
    } else {
      var head := if a[0].sender == s then [a[0]] else [];
      assert (a + b)[1..] == a[1..] + b;
      OfConcat(a[1..], b, s);
      assert Of(a + b, s) == head + (Of(a[1..], s) + Of(b, s));
      assert Of(a, s) == head + Of(a[1..], s);
    }
  }

  lemma QuotaThins(kept: seq<Row>, rows: seq<Row>, l: Limits)
    requires Thinned(kept, rows) && WithinQuota(rows, l) && DistinctBlobs(rows)
    ensures WithinQuota(kept, l) && DistinctBlobs(kept)
  {
    ThinnedDistinct(kept, rows);
    forall s ensures |Of(kept, s)| <= l.senderMessages && Bytes(Of(kept, s)) <= l.senderBytes {
      ThinnedShrinks(kept, rows, s);
    }
    ThinnedShrinks(kept, rows, 0);
  }

  lemma QuotaPush(rows: seq<Row>, row: Row, l: Limits)
    requires WithinQuota(rows, l) && DistinctBlobs(rows) && !Holds(rows, row.blob)
    requires |rows| < l.messages && Bytes(rows) + row.blob.size <= l.bytes
    requires |Of(rows, row.sender)| < l.senderMessages && Bytes(Of(rows, row.sender)) + row.blob.size <= l.senderBytes
    ensures WithinQuota(rows + [row], l) && DistinctBlobs(rows + [row])
  {
    BytesConcat(rows, [row]);
    forall s ensures |Of(rows + [row], s)| <= l.senderMessages && Bytes(Of(rows + [row], s)) <= l.senderBytes {
      OfConcat(rows, [row], s);
      assert Of([row], s) == if row.sender == s then [row] else [];
      BytesConcat(Of(rows, s), Of([row], s));
    }
  }

  // ---------------------------------------------------------------- transactions

  function PutOutcome(rows: seq<Row>, l: Limits, retention: real, sender: Address, blob: Blob, now: real): PutResult {
    var live := Fresh(rows, now - retention);
    if !(MIN_BLOB <= blob.size <= MAX_BLOB) then Refused
    else if Holds(live, blob) then
      (if exists i :: 0 <= i < |live| && live[i].blob == blob && live[i].sender != sender then Refused else Accepted)
    else if |live| >= l.messages || Bytes(live) + blob.size > l.bytes
            || |Of(live, sender)| >= l.senderMessages || Bytes(Of(live, sender)) + blob.size > l.senderBytes then Full
    else Accepted
  }

  /** The table after an upload; `at` is the clock reading of the insert.  A refused upload rolls
      back, so even the expired rows stay. */
  function AfterPut(rows: seq<Row>, l: Limits, retention: real, sender: Address, blob: Blob, now: real,
      at: real): seq<Row> {
    var live := Fresh(rows, now - retention);
    if !PutOutcome(rows, l, retention, sender, blob, now).Accepted? then rows
    else if Holds(live, blob) then live
    else live + [Row(blob, sender, at)]
  }

  function AfterPurge(rows: seq<Row>, recipient: Address, haves: seq<Blob>): seq<Row> {
    if haves == [] then rows
    else Purged(AfterPurge(rows, recipient, haves[..|haves| - 1]), recipient, haves[|haves| - 1])
  }

  /** Distinct wanted ciphertexts of the recipient, in the order wanted, while they fit the budget. */
  function Batch(rows: seq<Row>, recipient: Address, wants: seq<Blob>, budget: nat): seq<Blob> {
    if wants == [] then []
    else
      var before := Batch(rows, recipient, wants[..|wants| - 1], budget);
      var w := wants[|wants| - 1];
      if w !in wants[..|wants| - 1] && w.recipient == recipient && Holds(rows, w) && Sizes(before) + w.size <= budget
      then before + [w] else before
  }

  function Sizes(blobs: seq<Blob>): nat {
    if blobs == [] then 0 else Sizes(blobs[..|blobs| - 1]) + blobs[|blobs| - 1].size
  }

  lemma {:induction false} BatchBounded(rows: seq<Row>, recipient: Address, wants: seq<Blob>, budget: nat)
    ensures var b := Batch(rows, recipient, wants, budget);
            && Sizes(b) <= budget
            && forall x | x in b :: x in wants && x.recipient == recipient && Holds(rows, x)
  {
    if wants != [] {
      BatchBounded(rows, recipient, wants[..|wants| - 1], budget);
      var before := Batch(rows, recipient, wants[..|wants| - 1], budget);
      var w := wants[|wants| - 1];
      assert (before + [w])[..|before|] == before;
    }
  }

  /** What is wanted, held and the recipient's own is in the batch, unless it would not have fitted any more. */
  lemma {:induction false} BatchComplete(rows: seq<Row>, recipient: Address, wants: seq<Blob>, budget: nat, x: Blob)
    requires x in wants && x.recipient == recipient && Holds(rows, x)
    ensures var b := Batch(rows, recipient, wants, budget); x in b || Sizes(b) + x.size > budget
  {
    hide Holds;
    var w, before := wants[|wants| - 1], Batch(rows, recipient, wants[..|wants| - 1], budget);
    assert (before + [w])[..|before|] == before;
    if x in wants[..|wants| - 1] {
      BatchComplete(rows, recipient, wants[..|wants| - 1], budget, x);
    } else {
      assert wants == wants[..|wants| - 1] + [w];
    }
  }

  /** Nothing is in a batch twice. */
  lemma {:induction false} BatchDistinct(rows: seq<Row>, recipient: Address, wants: seq<Blob>, budget: nat)
    ensures var b := Batch(rows, recipient, wants, budget); forall i, j | 0 <= i < j < |b| :: b[i] != b[j]
  {
    hide Holds;
    if wants != [] {
      BatchDistinct(rows, recipient, wants[..|wants| - 1], budget);
      BatchBounded(rows, recipient, wants[..|wants| - 1], budget);
    }
  }

  /** An upload is accepted exactly when its size is allowed and it is the sender's own again, or new and within
      every quota with it; it is turned away as full exactly when some quota would not hold. */
  lemma PutExactly(rows: seq<Row>, l: Limits, retention: real, sender: Address, blob: Blob, now: real, at: real)
    requires WithinQuota(rows, l) && DistinctBlobs(rows)
    ensures var live, outcome := Fresh(rows, now - retention), PutOutcome(rows, l, retention, sender, blob, now);
      var sized := MIN_BLOB <= blob.size <= MAX_BLOB;
      && (outcome.Accepted? <==>
            sized && if Holds(live, blob) then exists r :: r in live && r.blob == blob && r.sender == sender
                     else WithinQuota(live + [Row(blob, sender, at)], l))
      && (outcome.Full? <==> sized && !Holds(live, blob) && !WithinQuota(live + [Row(blob, sender, at)], l))
  {
    hide Bytes, Of, Fresh, Thinned;
    var live := Fresh(rows, now - retention);
    FreshThins(rows, now - retention);
    QuotaThins(live, rows, l);
    if Holds(live, blob) {
      var i :| 0 <= i < |live| && live[i].blob == blob;
      assert live[i] in live;
    } else {
      QuotaGrows(live, Row(blob, sender, at), l);
    }
  }

  /** One row more stays within the quotas exactly when each of the four has room. */
  lemma QuotaGrows(rows: seq<Row>, row: Row, l: Limits)
    requires WithinQuota(rows, l) && DistinctBlobs(rows) && !Holds(rows, row.blob)
    ensures WithinQuota(rows + [row], l) <==>
      && |rows| < l.messages && Bytes(rows) + row.blob.size <= l.bytes
      && |Of(rows, row.sender)| < l.senderMessages && Bytes(Of(rows, row.sender)) + row.blob.size <= l.senderBytes
  {
    BytesConcat(rows, [row]);
    OfConcat(rows, [row], row.sender);
    assert Of([row], row.sender) == [row];
    BytesConcat(Of(rows, row.sender), [row]);
    if && |rows| < l.messages && Bytes(rows) + row.blob.size <= l.bytes
       && |Of(rows, row.sender)| < l.senderMessages && Bytes(Of(rows, row.sender)) + row.blob.size <= l.senderBytes {
      QuotaPush(rows, row, l);
    }
  }

  lemma {:induction false} FreshExactly(rows: seq<Row>, cutoff: real)
    ensures forall r :: r in Fresh(rows, cutoff) <==> r in rows && r.received > cutoff
  {
    if rows != [] {
      FreshExactly(rows[1..], cutoff);
      assert rows == [rows[0]] + rows[1..];
    }
  }

  lemma {:induction false} PurgedExactly(rows: seq<Row>, recipient: Address, blob: Blob)
    ensures forall r :: r in Purged(rows, recipient, blob) <==>
                        r in rows && !(r.blob == blob && r.blob.recipient == recipient)
  {
    if rows != [] {
      PurgedExactly(rows[1..], recipient, blob);
      assert rows == [rows[0]] + rows[1..];
    }
  }

  datatype SpoolOp =
    | DoPut(sender: Address, blob: Blob, now: real, at: real)
    | DoGet(recipient: Address, haves: seq<Blob>, now: real)
    | DoExpire(now: real)

  function Apply(rows: seq<Row>, l: Limits, retention: real, op: SpoolOp): seq<Row> {
    match op
    case DoPut(sender, blob, now, at) => AfterPut(rows, l, retention, sender, blob, now, at)
    case DoGet(recipient, haves, now) => AfterPurge(Fresh(rows, now - retention), recipient, haves)
    case DoExpire(now) => Fresh(rows, now - retention)
  }

  function ApplyAll(rows: seq<Row>, l: Limits, retention: real, ops: seq<SpoolOp>): seq<Row> {
    if ops == [] then rows else Apply(ApplyAll(rows, l, retention, ops[..|ops| - 1]), l, retention, ops[|ops| - 1])
  }

  lemma {:induction false} PurgeKeepsQuota(rows: seq<Row>, l: Limits, recipient: Address, haves: seq<Blob>)
    requires WithinQuota(rows, l) && DistinctBlobs(rows)
    ensures WithinQuota(AfterPurge(rows, recipient, haves), l) && DistinctBlobs(AfterPurge(rows, recipient, haves))
  {
    if haves != [] {
      PurgeKeepsQuota(rows, l, recipient, haves[..|haves| - 1]);
      var before := AfterPurge(rows, recipient, haves[..|haves| - 1]);
      PurgedThins(before, recipient, haves[|haves| - 1]);
      QuotaThins(Purged(before, recipient, haves[|haves| - 1]), before, l);
    }
  }

  lemma ApplyKeepsQuota(rows: seq<Row>, l: Limits, retention: real, op: SpoolOp)
    requires WithinQuota(rows, l) && DistinctBlobs(rows)
    ensures WithinQuota(Apply(rows, l, retention, op), l) && DistinctBlobs(Apply(rows, l, retention, op))
  {
    var live := Fresh(rows, op.now - retention);
    FreshThins(rows, op.now - retention);
    QuotaThins(live, rows, l);
    match op
    case DoPut(sender, blob, now, at) =>
      if PutOutcome(rows, l, retention, sender, blob, now).Accepted? && !Holds(live, blob) {
        QuotaPush(live, Row(blob, sender, at), l);
      }
    case DoGet(recipient, haves, now) => PurgeKeepsQuota(live, l, recipient, haves);
    case DoExpire(now) =>
  }

  /** From an empty spool, after any sequence of uploads, mailbox requests and expiries, the total
      and per-sender limits on count and bytes hold and no ciphertext is stored twice. */
  lemma {:induction false} QuotasAlwaysHold(l: Limits, retention: real, ops: seq<SpoolOp>)
    ensures WithinQuota(ApplyAll([], l, retention, ops), l) && DistinctBlobs(ApplyAll([], l, retention, ops))
  {
    if ops != [] {
      QuotasAlwaysHold(l, retention, ops[..|ops| - 1]);
      ApplyKeepsQuota(ApplyAll([], l, retention, ops[..|ops| - 1]), l, retention, ops[|ops| - 1]);
    }
  }

  // ---------------------------------------------------------------- the spool object

  class CipherSpool {
    const limits: Limits
    const retention: real
    var rows: seq<Row>

    ghost predicate Valid()
      reads this
    {
      WithinQuota(rows, limits) && DistinctBlobs(rows)
    }

    /** A new, empty spool. */
    constructor (limits: Limits, retention: real)
      ensures Valid() && rows == [] && this.limits == limits && this.retention == retention
    {
      this.limits, this.retention, rows := limits, retention, [];
    }

    method Expire(now: real)
      requires Valid()
      modifies this
      ensures Valid() && rows == Fresh(old(rows), now - retention)
    {
      FreshThins(rows, now - retention);
      QuotaThins(Fresh(rows, now - retention), rows, limits);
      var kept: seq<Row> := [];
      var n := |rows|;
      while n > 0
        invariant 0 <= n <= |rows| && rows == old(rows)
        invariant kept == Fresh(rows[n..], now - retention)
      {
        n := n - 1;
        assert rows[n..][1..] == rows[n + 1..];
        if rows[n].received > now - retention {
          kept := [rows[n]] + kept;
        }
      }
      assert rows[0..] == rows;
      rows := kept;
    }

    /** Store one ciphertext within every quota; a repeated upload by the same sender is accepted
        without a second row. */
    method Put(sender: Address, blob: Blob, now: real, at: real) returns (r: PutResult)
      requires Valid()
      modifies this
      ensures Valid()
      ensures r == PutOutcome(old(rows), limits, retention, sender, blob, now)
      ensures rows == AfterPut(old(rows), limits, retention, sender, blob, now, at)
      ensures r.Accepted? ==> exists i :: 0 <= i < |rows| && rows[i].blob == blob && rows[i].sender == sender
    {
      if !(MIN_BLOB <= blob.size <= MAX_BLOB) {
        return Refused;
      }
      FreshThins(rows, now - retention);
      QuotaThins(Fresh(rows, now - retention), rows, limits);
      var live := Fresh(rows, now - retention);
      if i :| 0 <= i < |live| && live[i].blob == blob {
        if live[i].sender != sender {
          return Refused;
        }
        rows := live;
        return Accepted;
      }
      if |live| >= limits.messages || Bytes(live) + blob.size > limits.bytes
         || |Of(live, sender)| >= limits.senderMessages || Bytes(Of(live, sender)) + blob.size > limits.senderBytes {
        return Full;
      }
      QuotaPush(live, Row(blob, sender, at), limits);
      rows := live + [Row(blob, sender, at)];
      assert rows[|live|] == Row(blob, sender, at);
      return Accepted;
    }

    /** One mailbox request: purge what the recipient has, then answer what it wants. */
    method Get(recipient: Address, wants: seq<Blob>, haves: seq<Blob>, budget: nat, now: real)
      returns (batch: seq<Blob>)
      requires Valid()
      modifies this
      ensures Valid()
      ensures rows == AfterPurge(Fresh(old(rows), now - retention), recipient, haves)
      ensures batch == Batch(rows, recipient, wants, budget)
      ensures Sizes(batch) <= budget
      ensures forall b | b in batch :: b in wants && b.recipient == recipient && Holds(rows, b)
    {
      Expire(now);
      ghost var live := rows;
      for i := 0 to |haves|
        invariant Valid() && rows == AfterPurge(live, recipient, haves[..i])
      {
        assert haves[..i + 1][..i] == haves[..i];
        PurgedThins(rows, recipient, haves[i]);
        QuotaThins(Purged(rows, recipient, haves[i]), rows, limits);
        rows := Purged(rows, recipient, haves[i]);
      }
      assert haves[..|haves|] == haves;
      batch := [];
      var size := 0;
      for i := 0 to |wants|
        invariant batch == Batch(rows, recipient, wants[..i], budget) && size == Sizes(batch)
      {
        assert wants[..i + 1][..i] == wants[..i];
        if wants[i] !in wants[..i] && wants[i].recipient == recipient && Holds(rows, wants[i])
          && size + wants[i].size <= budget {
          assert (batch + [wants[i]])[..|batch|] == batch;
          batch, size := batch + [wants[i]], size + wants[i].size;
        }
      }
      assert wants[..|wants|] == wants;
      BatchBounded(rows, recipient, wants, budget);
    }
  }
}
