/** Which evidence the subscription record takes, what it then says, and the wire form of that evidence. */
module SubscriptionEvidence {
  import opened Options
  import opened Subscription

  // ---------------------------------------------------------------- what is taken

  /** The evidence is well formed by itself: a snapshot of the device, no younger than its confirmation, and an
      event, if any, that is the one behind the snapshot. */
  ghost predicate InOrder(status: Status, device: string, at: int, event: Option<Event>) {
    && 0 <= at <= MAX_INSTANT && status.cohort != Bool(false) && SnapshotOf(status, device).Some?
    && var s := SnapshotOf(status, device).value;
    && s.updatedAt <= at
    && (event.Some? ==>
          && event.value.id == s.lastEventId && event.value.device == s.device
          && event.value.periodStart == s.periodStart && event.value.paidUntil == s.paidUntil
          && event.value.graceUntil == s.graceUntil && event.value.newState == s.state == StateAfter(event.value.kind)
          && event.value.occurredAt == event.value.appliedAt == s.updatedAt)
  }

  /** Two snapshots of one version differ in nothing but what time does to them. */
  ghost predicate SameRow(a: Snapshot, b: Snapshot) {
    && a.device == b.device && a.version == b.version && a.lastEventId == b.lastEventId && a.state == b.state
    && a.periodStart == b.periodStart && a.paidUntil == b.paidUntil && a.updatedAt == b.updatedAt
    && a.graceUntil == b.graceUntil
  }

  ghost predicate KnownDevice(r: Option<Record>, s: Snapshot) { r.Some? ==> r.value.device == s.device }

  /** An older version; or the known version, or a first snapshot, confirmed before the record was. */
  ghost predicate Overtaken(r: Option<Record>, s: Snapshot, at: int) {
    && r.Some? && r.value.device == s.device
    && match r.value.snapshot
       case None => at < r.value.confirmedAt
       case Some(past) => s.version < past.version || (SameRow(past, s) && at < r.value.confirmedAt)
  }

  /** A first snapshot, or a newer version under a new event, or the same version again with nothing of it changed,
      nothing that is over taken back, and no second event; all no earlier than the record was confirmed. */
  ghost predicate Advances(r: Option<Record>, s: Snapshot, at: int, event: Option<Event>) {
    r.Some? ==>
      && at >= r.value.confirmedAt
      && match r.value.snapshot
         case None => true
         case Some(past) =>
           || (s.version > past.version && s.lastEventId != past.lastEventId)
           || (&& SameRow(past, s) && (at == r.value.confirmedAt ==> s == past)
               && (Over(past.effectiveState) ==> s.effectiveState == past.effectiveState)
               && (r.value.event.Some? && event.Some? ==> r.value.event.value == Carried(event.value)))
  }

  function Carried(e: Event): Projection { Projection(e.id, e.kind, e.occurredAt, e.previousState) }

  lemma CarriedIsProjected(e: Event, s: Snapshot)
    ensures Projected(e, s).Some? <==>
      && e.id == s.lastEventId && e.device == s.device && e.periodStart == s.periodStart && e.paidUntil == s.paidUntil
      && e.graceUntil == s.graceUntil && e.newState == s.state == StateAfter(e.kind)
      && e.occurredAt == e.appliedAt == s.updatedAt && 0 <= e.occurredAt <= MAX_INSTANT
    ensures Projected(e, s).Some? ==> Projected(e, s).value == Carried(e)
  {
  }

  lemma UpdatedInRange(status: Status, device: string)
    requires SnapshotOf(status, device).Some?
    ensures var s := SnapshotOf(status, device).value;
      0 <= s.periodStart < s.paidUntil && 0 <= s.updatedAt <= MAX_INSTANT && s.device == device
  {
    hide StateOf, Recipient, EventName;
  }

  lemma MemberVerdict(r: Option<Record>, s: Snapshot, at: int, event: Option<Event>)
    requires StoreInv(r)
    ensures var outcome := AcceptMember(r, s, at, if event.Some? then Some(Carried(event.value)) else None);
      && (outcome.Fresh? <==> KnownDevice(r, s) && Advances(r, s, at, event))
      && (outcome.Stale? <==> Overtaken(r, s, at))
  {
  }

  /** On every reachable record, evidence in the cohort is taken exactly when it is in order, of the known device, and
      advances the record; it is passed over exactly when it is in order and overtaken; anything else is an error. */
  lemma EvidenceVerdict(inputs: seq<Input>, status: Status, device: string, at: int, event: Option<Event>)
    requires status.cohort != Bool(false)
    ensures var r, outcome := After(inputs), Accept(After(inputs), status, device, at, event);
      && (outcome.Fresh? <==>
            && InOrder(status, device, at, event)
            && var s := SnapshotOf(status, device).value;
            && KnownDevice(r, s) && Advances(r, s, at, event))
      && (outcome.Stale? <==>
            InOrder(status, device, at, event) && Overtaken(r, SnapshotOf(status, device).value, at))
  {
    hide AcceptMember, SnapshotOf, Recipient, Projected, KnownDevice, Advances, Overtaken, StoreInv;
    ReachableInv(inputs);
    if SnapshotOf(status, device).Some? {
      var s := SnapshotOf(status, device).value;
      UpdatedInRange(status, device);
      MemberVerdict(After(inputs), s, at, event);
      if event.Some? {
        CarriedIsProjected(event.value, s);
      }
    }
  }

  /** Outside the cohort, a bare status is taken while the record is of that device, not of a member, and not newer. */
  lemma OutsideVerdict(r: Option<Record>, status: Status, device: string, at: int, event: Option<Event>)
    requires status.cohort == Bool(false)
    ensures var outcome := Accept(r, status, device, at, event);
      var fits := 0 <= at <= MAX_INSTANT && Recipient(device) && Bare(status, device) && event.None?
                  && (r.Some? ==> r.value.device == device && !r.value.cohort);
      && (outcome.Fresh? <==> fits && (r.Some? ==> at >= r.value.confirmedAt))
      && (outcome.Stale? <==> fits && r.Some? && at < r.value.confirmedAt)
      && (outcome.Fresh? ==> outcome.record == Record(device, false, None, at, None, None))
  {
    hide Recipient, Bare;
  }

  // ---------------------------------------------------------------- what it then says

  /** The payment reaches past everything the record of an earlier version showed. */
  ghost predicate Extends(r: Option<Record>, s: Snapshot) {
    && r.Some? && r.value.snapshot.Some? && r.value.snapshot.value.version < s.version
    && r.value.snapshot.value.paidUntil < s.paidUntil
    && (r.value.snapshot.value.graceUntil.Some? ==> r.value.snapshot.value.graceUntil.value < s.paidUntil)
  }

  ghost predicate TopicFits(topic: Topic, r: Option<Record>, s: Snapshot, e: Event) {
    match topic
    case InGrace => e.kind.GraceStart?
    case Ended => e.kind.Expire?
    case Withdrawn => e.kind.Revoke?
    case Renewed => e.kind.Payment? && Extends(r, s)
    case Activated => e.kind.Payment? && !Extends(r, s) && e.previousState.None?
    case Confirmed => e.kind.Payment? && !Extends(r, s) && e.previousState.Some?
  }

  /** The record after evidence over an earlier version, or over none: the snapshot, its time and its event, with an
      unread notice on what the event was, and nothing else. */
  ghost predicate Restated(r: Option<Record>, s: Snapshot, at: int, event: Option<Event>, b: Record) {
    && b.device == s.device && b.cohort && b.snapshot == Some(s) && b.confirmedAt == at
    && b.event == (if event.Some? then Some(Carried(event.value)) else None)
    && (b.notice.Some? <==> event.Some?)
    && (event.Some? ==>
          && b.notice.value.id == NoticeId(s.version, event.value.id)
          && b.notice.value.created == event.value.occurredAt
          && !b.notice.value.read && !b.notice.value.notified && TopicFits(b.notice.value.topic, r, s, event.value))
  }

  /** The record after evidence of the version it has: the new time and effective state, and the event and notice
      that it had, or those of an event it did not have. */
  ghost predicate Refreshed(r: Record, s: Snapshot, at: int, event: Option<Event>, b: Record) {
    if r.event.Some? || event.None? then
      b == r.(cohort := true, snapshot := Some(s), confirmedAt := at)
    else Restated(Some(r), s, at, event, b)
  }

  lemma MemberRecord(r: Option<Record>, s: Snapshot, at: int, event: Option<Event>)
    requires StoreInv(r) && 0 < s.paidUntil && KnownDevice(r, s)
    requires event.Some? ==> event.value.id == s.lastEventId
    requires AcceptMember(r, s, at, if event.Some? then Some(Carried(event.value)) else None).Fresh?
    ensures var b := AcceptMember(r, s, at, if event.Some? then Some(Carried(event.value)) else None).record;
      if r.Some? && r.value.snapshot.Some? && r.value.snapshot.value.version == s.version
      then Refreshed(r.value, s, at, event, b) else Restated(r, s, at, event, b)
  {
  }

  /** What the evidence leaves, on every reachable record that takes it. */
  lemma EvidenceIsRecorded(inputs: seq<Input>, status: Status, device: string, at: int, event: Option<Event>)
    requires status.cohort != Bool(false) && InOrder(status, device, at, event)
    requires KnownDevice(After(inputs), SnapshotOf(status, device).value)
    requires Advances(After(inputs), SnapshotOf(status, device).value, at, event)
    ensures var r, s := After(inputs), SnapshotOf(status, device).value;
      && After(inputs + [Confirm(status, device, at, event)]).Some?
      && var b := After(inputs + [Confirm(status, device, at, event)]).value;
         if r.Some? && r.value.snapshot.Some? && r.value.snapshot.value.version == s.version
         then Refreshed(r.value, s, at, event, b) else Restated(r, s, at, event, b)
  {
    hide AcceptMember, SnapshotOf, Recipient, Projected, Refreshed, Restated, Advances, StoreInv;
    var x := Confirm(status, device, at, event);
    assert (inputs + [x])[..|inputs|] == inputs;
    ReachableInv(inputs);
    EvidenceVerdict(inputs, status, device, at, event);
    var s := SnapshotOf(status, device).value;
    UpdatedInRange(status, device);
    if event.Some? {
      CarriedIsProjected(event.value, s);
    }
    MemberRecord(After(inputs), s, at, event);
  }

  // ---------------------------------------------------------------- the wire form

  function StateText(s: State): string {
    match s
    case Trial => "trial"
    case Active => "active"
    case Grace => "grace"
    case Expired => "expired"
    case Revoked => "revoked"
  }

  function KindText(k: Kind): string {
    match k case Payment => "payment" case GraceStart => "grace" case Expire => "expire" case Revoke => "revoke"
  }

  lemma TextsRead(s: State, k: Kind)
    ensures StateOf(Text(StateText(s))) == Some(s) && KindOf(Text(KindText(k))) == Some(k)
  {
    assert "trial"[0] == 't' && "active"[0] == 'a' && "grace"[0] == 'g' && "expired"[0] == 'e' && "revoked"[0] == 'r';
    assert "payment"[0] == 'p' && "expire"[0] == 'e' && "revoke"[0] == 'r';
  }

  function OrNull(v: Option<int>): Value { if v.Some? then Int(v.value) else Null }

  function WireOf(s: Snapshot, observed: int, event: Option<Projection>): Wire {
    Wire(Int(1), Text(s.device), Int(observed), Bool(true),
         Some(WireRow(Text(StateText(s.state)), Text(StateText(s.effectiveState)), Bool(Entitled(s.effectiveState)),
                      Int(s.periodStart), Int(s.paidUntil), OrNull(s.graceUntil), OrNull(s.entitlementUntil),
                      Int(s.version), Text(s.lastEventId), Int(s.updatedAt))),
         if event.None? then None
         else Some(WireEvent(Text(event.value.id), Text(KindText(event.value.kind)), Int(event.value.occurredAt),
                             if event.value.previousState.Some? then Text(StateText(event.value.previousState.value))
                             else Null,
                             Text(StateText(s.state)), Text("APPLIED"))))
  }

  /** A snapshot as the service may state it at a time: its fields in range and in order, its effective state what
      its state amounts to then, and the entitlement's end its boundary while it lasts. */
  ghost predicate Presentable(s: Snapshot, observed: int) {
    && Recipient(s.device) && EventName(s.lastEventId) && 1 <= s.version <= MAX_VERSION
    && 0 <= s.periodStart < s.paidUntil <= MAX_INSTANT && s.periodStart <= s.updatedAt <= observed <= MAX_INSTANT
    && (s.graceUntil.Some? ==> s.paidUntil <= s.graceUntil.value <= MAX_INSTANT)
    && (s.state.Grace? ==> s.graceUntil.Some?)
    && s.effectiveState == (if Entitled(s.state) && observed >= Boundary(s).value then Expired else s.state)
    && s.entitlementUntil == (if Entitled(s.effectiveState) then Boundary(s) else None)
  }

  ghost predicate Behind(e: Projection, s: Snapshot) {
    e.id == s.lastEventId && e.occurredAt == s.updatedAt && StateAfter(e.kind) == s.state
  }

  lemma RowReadsBack(s: Snapshot, observed: int)
    requires Presentable(s, observed)
    ensures SnapshotOf(StatusOf(WireOf(s, observed, None), s.device), s.device) == Some(s)
  {
    hide Recipient, EventName, StateOf, StateText;
    TextsRead(s.state, Payment);
    TextsRead(s.effectiveState, Payment);
  }

  lemma EventReadsBack(s: Snapshot, observed: int, e: Projection)
    requires Presentable(s, observed) && Behind(e, s)
    ensures var w := WireOf(s, observed, Some(e));
      EventOf(w.event.value, s).Some? && Carried(EventOf(w.event.value, s).value) == e
  {
    hide Recipient, EventName, StateOf, KindOf, StateText, KindText;
    TextsRead(s.state, e.kind);
    if e.previousState.Some? {
      TextsRead(e.previousState.value, e.kind);
    } else {
      assert StateOf(Null).None? by { NullIsNoState(); }
    }
  }

  lemma NullIsNoState()
    ensures StateOf(Null).None?
  {
  }

  /** Every presentable snapshot, with or without its event, is decoded from its wire form as it is. */
  lemma WireRoundTrip(s: Snapshot, observed: int, event: Option<Projection>)
    requires Presentable(s, observed) && (event.Some? ==> Behind(event.value, s))
    ensures var d := Decode(WireOf(s, observed, event), s.device);
      && d.Some? && d.value.observedAt == observed && SnapshotOf(d.value.status, s.device) == Some(s)
      && (d.value.event.Some? <==> event.Some?) && (event.Some? ==> Carried(d.value.event.value) == event.value)
  {
    hide SnapshotOf, Recipient, EventName, EventOf, StateText, KindText;
    RowReadsBack(s, observed);
    assert StatusOf(WireOf(s, observed, event), s.device) == StatusOf(WireOf(s, observed, None), s.device);
    if event.Some? {
      EventReadsBack(s, observed, event.value);
    }
  }

  /** And nothing else is decoded: what comes out is presentable, and its event is the one behind it. */
  lemma DecodedIsPresentable(wire: Wire, device: string)
    requires Decode(wire, device).Some? && wire.cohort == Bool(true)
    ensures var d := Decode(wire, device).value;
      && SnapshotOf(d.status, device).Some?
      && var s := SnapshotOf(d.status, device).value;
      && Presentable(s, d.observedAt) && (d.event.Some? ==> Behind(Carried(d.event.value), s))
  {
    hide SnapshotOf, EventOf;
    var status := StatusOf(wire, device);
    SnapshotSound(status, device);
    RowIsInRange(status, device);
    if wire.event.Some? {
      EventIsBehind(wire.event.value, SnapshotOf(status, device).value);
    }
  }

  lemma RowIsInRange(status: Status, device: string)
    requires SnapshotOf(status, device).Some?
    ensures var s := SnapshotOf(status, device).value;
      && Recipient(s.device) && EventName(s.lastEventId) && 1 <= s.version <= MAX_VERSION
      && 0 <= s.periodStart < s.paidUntil <= MAX_INSTANT
      && (s.graceUntil.Some? ==> s.paidUntil <= s.graceUntil.value <= MAX_INSTANT)
      && (Over(s.effectiveState) ==> s.entitlementUntil.None?)
  {
    hide Recipient, EventName, StateOf;
  }

  lemma EventIsBehind(w: WireEvent, s: Snapshot)
    requires EventOf(w, s).Some?
    ensures Behind(Carried(EventOf(w, s).value), s)
  {
    hide StateOf, KindOf;
  }
}
