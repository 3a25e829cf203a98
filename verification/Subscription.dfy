/** The client's record of its confirmed subscription: strict decoding of a response, and the reducer that stores it. */
module Subscription {
  import opened Options

  /** A decoded JSON value; `Absent` is a missing key, `Other` a fraction, a list or an object. */
  datatype Value = Absent | Null | Bool(b: bool) | Int(i: int) | Text(t: string) | Other

  datatype State = Trial | Active | Grace | Expired | Revoked
  datatype Kind = Payment | GraceStart | Expire | Revoke

  const MAX_INSTANT := 253402300799
  const MAX_VERSION := 2147483647

  datatype WireRow = WireRow(state: Value, effectiveState: Value, paidAllow: Value, periodStart: Value,
    paidUntil: Value, graceUntil: Value, entitlementUntil: Value, version: Value, lastEventId: Value, updatedAt: Value)

  datatype WireEvent = WireEvent(id: Value, kind: Value, occurredAt: Value, previousState: Value, newState: Value,
    result: Value)

  datatype Wire = Wire(schema: Value, device: Value, observedAt: Value, cohort: Value,
    subscription: Option<WireRow>, event: Option<WireEvent>)

  datatype Row = Row(device: Value, state: Value, periodStart: Value, paidUntil: Value, graceUntil: Value,
    version: Value, lastEventId: Value, updatedAt: Value)

  datatype Status = Status(schema: Value, device: Value, cohort: Value,
    effectiveState: Value, paidAllow: Value, entitlementUntil: Value, subscription: Option<Row>)

  datatype Event = Event(id: string, device: string, kind: Kind, occurredAt: int, appliedAt: int,
    previousState: Option<State>, newState: State, periodStart: int, paidUntil: int, graceUntil: Option<int>)

  datatype Snapshot = Snapshot(device: string, version: int, lastEventId: string, state: State,
    periodStart: int, paidUntil: int, updatedAt: int, graceUntil: Option<int>,
    effectiveState: State, entitlementUntil: Option<int>)

  datatype Projection = Projection(id: string, kind: Kind, occurredAt: int, previousState: Option<State>)

  datatype Topic = Activated | Confirmed | Renewed | InGrace | Ended | Withdrawn

  /** The subscription version and the event a notice is about make up its identifier. */
  datatype NoticeId = NoticeId(version: int, event: string)

  datatype Notice = Notice(id: NoticeId, topic: Topic, created: int, read: bool, notified: bool)

  datatype Record = Record(device: string, cohort: bool, snapshot: Option<Snapshot>, confirmedAt: int,
    event: Option<Projection>, notice: Option<Notice>)

  datatype Response = Response(status: Status, observedAt: int, event: Option<Event>)

  /** `Stale` leaves the record as it was; `Invalid` is the error. */
  datatype Outcome = Invalid | Stale | Fresh(record: Record)

  // ---------------------------------------------------------------- values

  predicate Instant(v: Value) { v.Int? && 0 <= v.i <= MAX_INSTANT }

  predicate Recipient(device: string) {
    |device| == 32 && forall i :: 0 <= i < |device| ==> '0' <= device[i] <= '9' || 'a' <= device[i] <= 'f'
  }

  predicate EventName(id: string) {
    && 8 <= |id| <= 128
    && forall i :: 0 <= i < |id| ==>
         'A' <= id[i] <= 'Z' || 'a' <= id[i] <= 'z' || '0' <= id[i] <= '9' || id[i] == '_' || id[i] == '-'
  }

  function StateOf(v: Value): Option<State> {
    if v == Text("trial") then Some(Trial)
    else if v == Text("active") then Some(Active)
    else if v == Text("grace") then Some(Grace)
    else if v == Text("expired") then Some(Expired)
    else if v == Text("revoked") then Some(Revoked)
    else None
  }

  function KindOf(v: Value): Option<Kind> {
    if v == Text("payment") then Some(Payment)
    else if v == Text("grace") then Some(GraceStart)
    else if v == Text("expire") then Some(Expire)
    else if v == Text("revoke") then Some(Revoke)
    else None
  }

  predicate Missing(v: Value) { v.Absent? || v.Null? }

  predicate Entitled(s: State) { s.Trial? || s.Active? || s.Grace? }

  predicate Over(s: State) { s.Expired? || s.Revoked? }

  function Boundary(s: Snapshot): Option<int> { if s.state.Grace? then s.graceUntil else Some(s.paidUntil) }

  // ---------------------------------------------------------------- snapshot and event

  /** The types and ranges a row must have before it is read. */
  predicate RowSound(row: Row, device: string) {
    && row.device == Text(device)
    && row.version.Int? && 1 <= row.version.i <= MAX_VERSION
    && row.lastEventId.Text? && EventName(row.lastEventId.t)
    && StateOf(row.state).Some?
    && Instant(row.periodStart) && Instant(row.paidUntil) && Instant(row.updatedAt)
    && row.periodStart.i < row.paidUntil.i
    && (Missing(row.graceUntil) || (Instant(row.graceUntil) && row.graceUntil.i >= row.paidUntil.i))
  }

  function SnapshotOf(status: Status, device: string): Option<Snapshot> {
    if !Recipient(device) || status.schema != Int(1) || status.device != Text(device)
      || status.cohort != Bool(true) then None
    else if status.subscription.None? || !RowSound(status.subscription.value, device) then None
    else if StateOf(status.effectiveState).None? || !status.paidAllow.Bool? then None
    else
      var row := status.subscription.value;
      var state, effective := StateOf(row.state).value, StateOf(status.effectiveState).value;
      var grace := if Missing(row.graceUntil) then None else Some(row.graceUntil.i);
      var boundary := if state.Grace? then grace else Some(row.paidUntil.i);
      if status.paidAllow.b then
        if Entitled(effective) && effective == state && Instant(status.entitlementUntil)
           && Some(status.entitlementUntil.i) == boundary
        then Some(Snapshot(device, row.version.i, row.lastEventId.t, state, row.periodStart.i, row.paidUntil.i,
                           row.updatedAt.i, grace, effective, boundary))
        else None
      else if Over(effective) && Missing(status.entitlementUntil)
      then Some(Snapshot(device, row.version.i, row.lastEventId.t, state, row.periodStart.i, row.paidUntil.i,
                         row.updatedAt.i, grace, effective, None))
      else None
  }

  function StateAfter(k: Kind): State {
    match k case Payment => Active case GraceStart => Grace case Expire => Expired case Revoke => Revoked
  }

  function Projected(e: Event, s: Snapshot): Option<Projection> {
    if e.id == s.lastEventId && e.device == s.device && e.newState == s.state && e.periodStart == s.periodStart
       && e.paidUntil == s.paidUntil && e.graceUntil == s.graceUntil && e.appliedAt == s.updatedAt
       && 0 <= e.occurredAt <= MAX_INSTANT && e.occurredAt == s.updatedAt && e.newState == StateAfter(e.kind)
    then Some(Projection(e.id, e.kind, e.occurredAt, e.previousState))
    else None
  }

  // ---------------------------------------------------------------- decoding a response

  /** An event on the wire, completed with the period of the snapshot it came with. */
  function EventOf(w: WireEvent, s: Snapshot): Option<Event> {
    if !w.id.Text? || KindOf(w.kind).None? || !Instant(w.occurredAt) || StateOf(w.newState).None?
      || w.result != Text("APPLIED")
       || !(w.previousState.Null? || StateOf(w.previousState).Some?)
    then None
    else
      var e := Event(w.id.t, s.device, KindOf(w.kind).value, w.occurredAt.i, w.occurredAt.i, StateOf(w.previousState),
                     StateOf(w.newState).value, s.periodStart, s.paidUntil, s.graceUntil);
      if Projected(e, s).Some? then Some(e) else None
  }

  function StatusOf(wire: Wire, device: string): Status
    requires wire.subscription.Some?
  {
    var row := wire.subscription.value;
    Status(Int(1), Text(device), wire.cohort, row.effectiveState, row.paidAllow, row.entitlementUntil,
           Some(Row(Text(device), row.state, row.periodStart, row.paidUntil, row.graceUntil, row.version,
                    row.lastEventId, row.updatedAt)))
  }

  /** What the stored state amounts to at the time of the response. */
  function Expected(s: Snapshot, observed: int): Option<State> {
    if s.state.Grace? && s.graceUntil.None? then None
    else if Entitled(s.state) && observed >= Boundary(s).value then Some(Expired)
    else Some(s.state)
  }

  function Decode(wire: Wire, device: string): Option<Response> {
    if wire.schema != Int(1) || !Recipient(device) || wire.device != Text(device) || !wire.cohort.Bool?
      || !Instant(wire.observedAt)
    then None
    else if !wire.cohort.b then
      if wire.subscription.None? && wire.event.None?
      then
        var status := Status(Int(1), Text(device), Bool(false), Absent, Absent, Absent, None);
        Some(Response(status, wire.observedAt.i, None))
      else None
    else if wire.subscription.None? then None
    else
      var status := StatusOf(wire, device);
      match SnapshotOf(status, device)
      case None => None
      case Some(s) =>
        if !(s.periodStart <= s.updatedAt <= wire.observedAt.i)
          || Expected(s, wire.observedAt.i) != Some(s.effectiveState) then None
        else match wire.event
          case None => Some(Response(status, wire.observedAt.i, None))
          case Some(w) =>
            match EventOf(w, s)
            case None => None
            case Some(e) => Some(Response(status, wire.observedAt.i, Some(e)))
  }

  // ---------------------------------------------------------------- the reducer

  function TopicOf(e: Projection, past: Option<Snapshot>, s: Snapshot): Topic {
    match e.kind
    case GraceStart => InGrace
    case Expire => Ended
    case Revoke => Withdrawn
    case Payment =>
      if past.Some? && past.value.version != s.version
         && s.paidUntil > past.value.paidUntil
         && s.paidUntil > (if past.value.graceUntil.Some? then past.value.graceUntil.value else 0)
      then Renewed
      else if e.previousState.None? then Activated
      else Confirmed
  }

  /** The same version must carry the same snapshot, but for its effective state and the end of the entitlement. */
  function Fixed(s: Snapshot): Snapshot { s.(effectiveState := Trial, entitlementUntil := None) }

  predicate SameRowAllowed(past: Snapshot, s: Snapshot, before: int, now: int) {
    && (now == before ==> s == past)
    && (Over(past.effectiveState) ==> s.effectiveState == past.effectiveState)
  }

  /** The record that a confirmed snapshot and its event leave. */
  function Merge(previous: Option<Record>, s: Snapshot, at: int, incoming: Option<Projection>): Outcome {
    var past := if previous.Some? then previous.value.snapshot else None;
    var same := past.Some? && past.value.version == s.version;
    var saved := if same then previous.value.event else None;
    if saved.Some? && incoming.Some? && saved != incoming then Invalid
    else
      var kept := if same then previous.value.notice else None;
      var notice :=
        if incoming.Some? && saved.None?
        then Some(Notice(NoticeId(s.version, s.lastEventId), TopicOf(incoming.value, past, s),
          incoming.value.occurredAt, false, false))
        else kept;
      Fresh(Record(s.device, true, Some(s), at, if incoming.Some? then incoming else saved, notice))
  }

  function AcceptMember(previous: Option<Record>, s: Snapshot, at: int, incoming: Option<Projection>): Outcome {
    if previous.None? then Merge(previous, s, at, incoming)
    else
      var p := previous.value;
      match p.snapshot
      case None =>
        if p.device != s.device then Invalid
        else if at < p.confirmedAt then Stale
        else Merge(previous, s, at, incoming)
      case Some(past) =>
        if past.device != s.device then Invalid
        else if s.version < past.version then Stale
        else if s.version == past.version then
          if Fixed(s) != Fixed(past) then Invalid
          else if at < p.confirmedAt then Stale
          else if !SameRowAllowed(past, s, p.confirmedAt, at) then Invalid
          else Merge(previous, s, at, incoming)
        else if at >= p.confirmedAt && s.lastEventId != past.lastEventId then Merge(previous, s, at, incoming)
        else Invalid
  }

  /** In the original `True == 1`, so a status outside the cohort may carry either as its schema. */
  predicate Bare(status: Status, device: string) {
    && (status.schema == Int(1) || status.schema == Bool(true))
    && status.device == Text(device) && status.cohort == Bool(false)
    && status.effectiveState.Absent? && status.paidAllow.Absent? && status.entitlementUntil.Absent?
    && status.subscription.None?
  }

  function Accept(previous: Option<Record>, status: Status, device: string, at: int, event: Option<Event>): Outcome {
    if !(0 <= at <= MAX_INSTANT) then Invalid
    else if status.cohort == Bool(false) then
      if !Recipient(device) || !Bare(status, device) || event.Some? then Invalid
      else if previous.Some? && (previous.value.device != device || previous.value.cohort) then Invalid
      else if previous.Some? && at < previous.value.confirmedAt then Stale
      else Fresh(Record(device, false, None, at, None, None))
    else
      match SnapshotOf(status, device)
      case None => Invalid
      case Some(s) =>
        if at < s.updatedAt || (event.Some? && Projected(event.value, s).None?) then Invalid
        else AcceptMember(previous, s, at, if event.Some? then Projected(event.value, s) else None)
  }

  // ---------------------------------------------------------------- the stored record over a run

  datatype Flag = Read | Notified

  datatype Input =
    | Confirm(status: Status, device: string, at: int, event: Option<Event>)
    | Mark(ids: seq<NoticeId>, flag: Flag)

  function Marked(n: Notice, flag: Flag): Notice {
    match flag case Read => n.(read := true, notified := true) case Notified => n.(notified := true)
  }

  function MarkRecord(r: Option<Record>, ids: seq<NoticeId>, flag: Flag): Option<Record> {
    if |ids| <= 1000 && r.Some? && r.value.notice.Some? && r.value.notice.value.id in ids
    then Some(r.value.(notice := Some(Marked(r.value.notice.value, flag))))
    else r
  }

  /** An error leaves the record alone. */
  function Step(r: Option<Record>, x: Input): Option<Record> {
    match x
    case Confirm(status, device, at, event) =>
      var outcome := Accept(r, status, device, at, event);
      if outcome.Fresh? then Some(outcome.record) else r
    case Mark(ids, flag) => MarkRecord(r, ids, flag)
  }

  function After(inputs: seq<Input>): Option<Record> {
    if inputs == [] then None else Step(After(inputs[..|inputs| - 1]), inputs[|inputs| - 1])
  }

  ghost predicate RecordInv(r: Record) {
    && (r.cohort <==> r.snapshot.Some?)
    && (r.event.Some? <==> r.notice.Some?)
    && (r.event.Some? ==> r.cohort)
    && (r.cohort ==>
          && r.snapshot.value.device == r.device
          && r.snapshot.value.updatedAt <= r.confirmedAt
          && (Entitled(r.snapshot.value.effectiveState) <==> r.snapshot.value.entitlementUntil.Some?)
          && (r.event.Some? ==>
                && r.event.value.id == r.snapshot.value.lastEventId
                && r.notice.value.id == NoticeId(r.snapshot.value.version, r.snapshot.value.lastEventId)
                && r.notice.value.created == r.event.value.occurredAt == r.snapshot.value.updatedAt))
  }

  ghost predicate StoreInv(r: Option<Record>) { r.Some? ==> RecordInv(r.value) }

  /** A notice is never replaced, and its flags are only ever set. */
  ghost predicate NoticeStays(a: Notice, b: Notice) {
    b.id == a.id && b.topic == a.topic && b.created == a.created && (a.read ==> b.read) && (a.notified ==> b.notified)
  }

  ghost predicate SameVersionLater(a: Record, b: Record)
    requires a.snapshot.Some? && b.snapshot.Some?
  {
    && Fixed(b.snapshot.value) == Fixed(a.snapshot.value)
    && (Over(a.snapshot.value.effectiveState) ==> b.snapshot.value.effectiveState == a.snapshot.value.effectiveState)
    && (a.event.Some? ==> b.event == a.event)
    && (a.notice.Some? ==> b.notice.Some? && NoticeStays(a.notice.value, b.notice.value))
  }

  /** What time may do to the record. */
  ghost predicate Later(a: Option<Record>, b: Option<Record>) {
    a.Some? ==>
      && b.Some?
      && b.value.device == a.value.device
      && a.value.confirmedAt <= b.value.confirmedAt
      && (a.value.snapshot.Some? ==>
            && b.value.snapshot.Some?
            && a.value.snapshot.value.version <= b.value.snapshot.value.version
            && (a.value.snapshot.value.version == b.value.snapshot.value.version ==>
               SameVersionLater(a.value, b.value)))
  }

  lemma SnapshotSound(status: Status, device: string)
    requires SnapshotOf(status, device).Some?
    ensures var s := SnapshotOf(status, device).value;
      && s.device == device
      && (Entitled(s.effectiveState) <==> s.entitlementUntil.Some?)
      && (status.paidAllow == Bool(true) <==> Entitled(s.effectiveState))
      && (Entitled(s.effectiveState) ==> s.effectiveState == s.state && s.entitlementUntil == Boundary(s))
  {
    hide StateOf, RowSound, Recipient;
  }

  lemma MergeKeeps(previous: Option<Record>, s: Snapshot, at: int, incoming: Option<Projection>)
    requires StoreInv(previous) && s.updatedAt <= at
    requires Entitled(s.effectiveState) <==> s.entitlementUntil.Some?
    requires incoming.Some? ==> incoming.value.id == s.lastEventId && incoming.value.occurredAt == s.updatedAt
    requires AcceptMember(previous, s, at, incoming).Fresh?
    ensures var r := Some(AcceptMember(previous, s, at, incoming).record); StoreInv(r) && Later(previous, r)
  {
  }

  lemma StepKeeps(r: Option<Record>, x: Input)
    requires StoreInv(r)
    ensures StoreInv(Step(r, x)) && Later(r, Step(r, x))
  {
    hide AcceptMember, SnapshotOf, Bare, Recipient;
    if x.Confirm? && x.status.cohort != Bool(false) {
      var outcome := Accept(r, x.status, x.device, x.at, x.event);
      if outcome.Fresh? {
        SnapshotSound(x.status, x.device);
        var s := SnapshotOf(x.status, x.device).value;
        MergeKeeps(r, s, x.at, if x.event.Some? then Projected(x.event.value, s) else None);
      }
    }
  }

  lemma {:induction false} ReachableInv(inputs: seq<Input>)
    ensures StoreInv(After(inputs))
  {
    hide StoreInv, Step;
    if inputs == [] {
      NothingStored();
    } else {
      ReachableInv(inputs[..|inputs| - 1]);
      StepKeeps(After(inputs[..|inputs| - 1]), inputs[|inputs| - 1]);
    }
  }

  lemma NothingStored()
    ensures StoreInv(None)
  {
  }

  lemma LaterIsTransitive(a: Option<Record>, b: Option<Record>, c: Option<Record>)
    requires Later(a, b) && Later(b, c)
    ensures Later(a, c)
  {
  }

  /** Over any run: no version, confirmation time or cohort is ever lost, and nothing ended comes back within
      a version. */
  lemma {:induction false} RunOnlyAdvances(inputs: seq<Input>, i: nat)
    requires i <= |inputs|
    ensures Later(After(inputs[..i]), After(inputs))
  {
    hide Later, Step;
    if i == |inputs| {
      assert inputs[..i] == inputs;
      LaterIsReflexive(After(inputs));
    } else {
      var n := |inputs| - 1;
      assert inputs[..n][..i] == inputs[..i];
      RunOnlyAdvances(inputs[..n], i);
      ReachableInv(inputs[..n]);
      StepKeeps(After(inputs[..n]), inputs[n]);
      LaterIsTransitive(After(inputs[..i]), After(inputs[..n]), After(inputs));
    }
  }

  lemma LaterIsReflexive(a: Option<Record>)
    ensures Later(a, a)
  {
  }

  /** The input `i` raised a notice: the record has one now that it did not have for that version before. */
  ghost predicate Raises(inputs: seq<Input>, i: nat)
    requires i < |inputs|
  {
    var a, b := After(inputs[..i]), After(inputs[..i + 1]);
    && b.Some? && b.value.snapshot.Some? && b.value.notice.Some?
    && !(a.Some? && a.value.snapshot.Some? && a.value.notice.Some? && VersionOf(a) == VersionOf(b))
  }

  function VersionOf(r: Option<Record>): int {
    if r.Some? && r.value.snapshot.Some? then r.value.snapshot.value.version else 0
  }

  /** At most one notice is raised for a version, over any run. */
  lemma OneNoticePerVersion(inputs: seq<Input>, i: nat, j: nat)
    requires i < j < |inputs| && Raises(inputs, i) && Raises(inputs, j)
    ensures VersionOf(After(inputs[..i + 1])) < VersionOf(After(inputs[..j + 1]))
  {
    hide After;
    assert inputs[..j][..i + 1] == inputs[..i + 1];
    assert inputs[..j + 1][..j] == inputs[..j];
    RunOnlyAdvances(inputs[..j], i + 1);
    RunOnlyAdvances(inputs[..j + 1], j);
  }

  /** What the notice of record `b`, raised over the record `a`, says is so. */
  ghost predicate Earned(a: Option<Record>, b: Record)
    requires b.notice.Some? && b.snapshot.Some?
  {
    var topic, s := b.notice.value.topic, b.snapshot.value;
    && !b.notice.value.read && !b.notice.value.notified
    && (topic in {Activated, Confirmed, Renewed} <==> s.state.Active?)
    && (topic.InGrace? <==> s.state.Grace?)
    && (topic.Ended? <==> s.state.Expired?)
    && (topic.Withdrawn? <==> s.state.Revoked?)
    && (topic.Renewed? ==>
          && a.Some? && a.value.snapshot.Some? && a.value.snapshot.value.version < s.version
          && a.value.snapshot.value.paidUntil < s.paidUntil
          && (a.value.snapshot.value.graceUntil.Some? ==> a.value.snapshot.value.graceUntil.value < s.paidUntil))
  }

  lemma MergeEarns(previous: Option<Record>, s: Snapshot, at: int, incoming: Option<Projection>)
    requires StoreInv(previous) && AcceptMember(previous, s, at, incoming).Fresh?
    requires incoming.Some? ==> s.state == StateAfter(incoming.value.kind)
    ensures var b := AcceptMember(previous, s, at, incoming).record;
      b.notice.Some? && !(previous.Some? && previous.value.notice.Some? && VersionOf(previous) == s.version) ==>
        incoming.Some? && Earned(previous, b)
  {
  }

  /** A snapshot alone announces nothing, an announcement says what state the subscription is in, and a renewal
      runs past everything the record showed before. */
  lemma NoticeIsEarned(inputs: seq<Input>, i: nat)
    requires i < |inputs| && Raises(inputs, i)
    ensures inputs[i].Confirm? && inputs[i].event.Some?
    ensures Earned(After(inputs[..i]), After(inputs[..i + 1]).value)
  {
    hide AcceptMember, SnapshotOf, Bare, Recipient, Earned;
    assert inputs[..i + 1][..i] == inputs[..i];
    ReachableInv(inputs[..i]);
    var a, x := After(inputs[..i]), inputs[i];
    if x.Confirm? && Accept(a, x.status, x.device, x.at, x.event).Fresh? && x.status.cohort != Bool(false) {
      var s := SnapshotOf(x.status, x.device).value;
      MergeEarns(a, s, x.at, if x.event.Some? then Projected(x.event.value, s) else None);
      FreshHasSnapshot(a, s, x.at, if x.event.Some? then Projected(x.event.value, s) else None);
    }
  }

  lemma FreshHasSnapshot(previous: Option<Record>, s: Snapshot, at: int, incoming: Option<Projection>)
    requires AcceptMember(previous, s, at, incoming).Fresh?
    ensures AcceptMember(previous, s, at, incoming).record.snapshot == Some(s)
  {
  }

  /** Confirming the same response again changes nothing. */
  lemma AcceptIsIdempotent(r: Option<Record>, x: Input)
    requires StoreInv(r) && x.Confirm?
    ensures Step(Step(r, x), x) == Step(r, x)
  {
    hide SnapshotOf, Bare, Recipient;
  }

  // ---------------------------------------------------------------- decoding

  /** A decoded response allows access exactly when its state is an entitled one and it was observed before its
      boundary. */
  lemma DecodedAllowsExactly(wire: Wire, device: string)
    requires Decode(wire, device).Some? && wire.cohort == Bool(true)
    ensures wire.subscription.Some? && SnapshotOf(Decode(wire, device).value.status, device).Some?
    ensures var r := Decode(wire, device).value; var s := SnapshotOf(r.status, device).value;
      && (Entitled(s.state) ==> Boundary(s).Some?)
      && (wire.subscription.value.paidAllow == Bool(true) <==> Entitled(s.state) && r.observedAt < Boundary(s).value)
  {
    hide SnapshotOf, Recipient, EventOf;
    SnapshotSound(StatusOf(wire, device), device);
  }

  /** Whatever decodes is accepted by an empty store, and read back as decoded. */
  lemma DecodedIsAccepted(wire: Wire, device: string)
    requires Decode(wire, device).Some?
    ensures var r := Decode(wire, device).value;
      var outcome := Accept(None, r.status, device, r.observedAt, r.event);
      && outcome.Fresh?
      && outcome.record.cohort == (wire.cohort == Bool(true))
      && outcome.record.confirmedAt == r.observedAt
      && outcome.record.snapshot == (if wire.cohort == Bool(true) then SnapshotOf(r.status, device) else None)
      && (outcome.record.notice.Some? <==> wire.event.Some?)
  {
    hide SnapshotOf, Recipient;
    if wire.cohort == Bool(true) {
      SnapshotSound(StatusOf(wire, device), device);
    }
  }

  // ---------------------------------------------------------------- the store

  /** The encrypted record, read, reduced and written back under one lock. */
  class SubscriptionStore {
    var record: Option<Record>
    ghost var inputs: seq<Input>

    ghost predicate Valid()
      reads this
    {
      record == After(inputs)
    }

    constructor ()
      ensures Valid() && record == None && inputs == []
    {
      record := None;
      inputs := [];
    }

    /** Trusted evidence from the service; `changed` when the record was written anew. */
    method AcceptConfirmed(status: Status, device: string, at: int, event: Option<Event>)
      returns (changed: Option<bool>)
      requires Valid()
      modifies this
      ensures Valid() && inputs == old(inputs) + [Confirm(status, device, at, event)]
      ensures changed.None? <==> Accept(old(record), status, device, at, event).Invalid?
      ensures changed == Some(true) <==> Accept(old(record), status, device, at, event).Fresh?
      ensures changed != Some(true) ==> record == old(record)
      ensures StoreInv(record) && Later(old(record), record)
    {
      hide Accept, Later, StoreInv;
      ghost var x := Confirm(status, device, at, event);
      ReachableInv(inputs);
      StepKeeps(record, x);
      assert (inputs + [x])[..|inputs|] == inputs;
      inputs := inputs + [x];
      var outcome := Accept(record, status, device, at, event);
      match outcome {
        case Invalid => changed := None;
        case Stale => changed := Some(false);
        case Fresh(next) =>
          record := Some(next);
          changed := Some(true);
      }
    }

    method ServiceMark(ids: seq<NoticeId>, flag: Flag)
      requires Valid()
      modifies this
      ensures Valid() && inputs == old(inputs) + [Mark(ids, flag)]
      ensures StoreInv(record) && Later(old(record), record)
      ensures |ids| <= 1000 && record.Some? && record.value.notice.Some? && record.value.notice.value.id in ids ==>
        record.value.notice.value.notified && (flag.Read? ==> record.value.notice.value.read)
    {
      hide Later, StoreInv;
      ghost var x := Mark(ids, flag);
      ReachableInv(inputs);
      StepKeeps(record, x);
      assert (inputs + [x])[..|inputs|] == inputs;
      inputs := inputs + [x];
      if |ids| <= 1000 && record.Some? && record.value.notice.Some? && record.value.notice.value.id in ids {
        var notice := record.value.notice.value.(notified := true);
        if flag.Read? {
          notice := notice.(read := true);
        }
        record := Some(record.value.(notice := Some(notice)));
      }
    }
  }
}
