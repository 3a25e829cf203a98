/** The callbacks of attempts over whole runs: each counts at most once, and none of an earlier opening counts. */
module Attempts {
  import opened ChatTypes
  import opened Spool
  import opened ChatStore
  import opened Messenger
  import opened Options

  /** Every token a record shows was issued, only issued attempts finish, and a finished one is never current again. */
  ghost predicate TokensInv(w: World) {
    && w.finished <= w.issued
    && (forall u, m | u in w.users && m in w.users[u].records && w.users[u].records[m].attempt.Some? ::
          (u, m, w.users[u].records[m].attempt.value) in w.issued)
    && (forall a | a in w.finished && a.0 in w.users :: !Current(w.users[a.0], a.1, a.2))
  }

  /** An operation that starts no attempt: a record that shows one showed it before. */
  ghost predicate NoNewAttempts(c: Chat, d: Chat) {
    && d.epoch == c.epoch
    && forall m | m in d.records && d.records[m].attempt.Some? ::
         && m in c.records && c.records[m].attempt == d.records[m].attempt
         && (d.records[m].status.Sending? ==> c.records[m].status.Sending?)
  }

  lemma NoNewAttemptsKeeps(w: World, u: Address, d: Chat, x: World)
    requires TokensInv(w) && u in w.users && NoNewAttempts(w.users[u], d)
    requires x.users == w.users[u := d] && x.issued == w.issued && x.finished == w.finished
    ensures TokensInv(x)
  {
    forall a | a in x.finished && a.0 in x.users ensures !Current(x.users[a.0], a.1, a.2) {
      assert !Current(w.users[a.0], a.1, a.2);
    }
  }

  lemma SameTokens(w: World, x: World)
    requires TokensInv(w) && x.users == w.users && x.issued == w.issued && x.finished == w.finished
    ensures TokensInv(x)
  {
  }

  // ---------------------------------------------------------------- the steps

  lemma QueueStartsNone(c: Chat, p: Packed, now: real)
    requires Queue(c, p, now).Some?
    ensures NoNewAttempts(c, Queue(c, p, now).value)
  {
  }

  lemma AdditiveStartsNone(c: Chat, d: Chat)
    requires Additive(c, d)
    ensures NoNewAttempts(c, d)
  {
  }

  lemma ReceiveStartsNone(c: Chat, p: Packed, genuine: bool, applicable: bool, ts: nat, sig: nat)
    requires ChatInv(c) && Receive(c, p, genuine, applicable, ts, sig).Some?
    ensures NoNewAttempts(c, Receive(c, p, genuine, applicable, ts, sig).value)
  {
    hide CommitReceived, ChatInv;
    var m := p.message;
    if !m.body.Stored? {
      if c.durable {
        CommitAdditive(c, p, Some(ReceiptFor(c, m, ts, sig)));
      } else if m.body.Service? {
        CommitAdditive(c, p, None);
      } else {
        AddAdditive(c, NewRecord(p, false, m.source, false, 0.0));
      }
      AdditiveStartsNone(c, Receive(c, p, genuine, applicable, ts, sig).value);
    }
  }

  lemma BeginKeepsTokens(w: World, u: Address, m: Message, nonce: nat, x: World)
    requires TokensInv(w) && Next(w, Begin(u, m, nonce), x)
    ensures TokensInv(x)
  {
    forall a | a in x.finished && a.0 in x.users ensures !Current(x.users[a.0], a.1, a.2) {
      assert a in w.issued && !Current(w.users[a.0], a.1, a.2);
    }
  }

  lemma FinishKeepsTokens(w: World, u: Address, m: Message, t: Token, e: Ending, now: real, x: World)
    requires TokensInv(w) && Next(w, Finish(u, m, t, e, now), x)
    ensures TokensInv(x)
  {
    forall a | a in x.finished && a.0 in x.users ensures !Current(x.users[a.0], a.1, a.2) {
      if a in w.finished {
        assert !Current(w.users[a.0], a.1, a.2);
      }
    }
  }

  lemma OpenKeepsTokens(w: World, u: Address, epoch: nat, x: World)
    requires TokensInv(w) && Next(w, Open(u, epoch), x)
    ensures TokensInv(x)
  {
    forall a | a in x.finished && a.0 in x.users ensures !Current(x.users[a.0], a.1, a.2) {
      assert a in w.issued;
      if a.0 != u {
        assert !Current(w.users[a.0], a.1, a.2);
      }
    }
  }

  ghost predicate OwnStep(step: Step) {
    step.Compose? || step.Upload? || step.Pull? || step.Direct? || step.Age? || step.Trust?
  }

  /** A user's step other than the beginning and end of an attempt or of an opening. */
  lemma OwnStepStartsNone(w: World, step: Step, x: World)
    requires UsersInv(w.users) && Next(w, step, x) && OwnStep(step)
    ensures step.user in w.users && x.users == w.users[step.user := x.users[step.user]]
    ensures NoNewAttempts(w.users[step.user], x.users[step.user]) && x.issued == w.issued && x.finished == w.finished
  {
    hide NoNewAttempts, ChatInv, Queue, Receive, RelayBlob, ExpireOutbox, Signs;
    if step.Pull? || step.Direct? {
      ReceiveStepStartsNone(w, step, x);
      return;
    }
    match step
    case Compose(u, p, now) => QueueStartsNone(w.users[u], p, now);
    case Upload(u, m, t, made) => UploadStartsNone(w.users[u], m, made);
    case Age(u, now) => AgeStartsNone(w.users[u], now);
    case Trust(u, contacts, publishers) => SameRecordsStartNone(w.users[u], x.users[u]);
  }

  lemma ReceiveStepStartsNone(w: World, step: Step, x: World)
    requires UsersInv(w.users) && Next(w, step, x) && (step.Pull? || step.Direct?)
    ensures step.user in w.users && x.users == w.users[step.user := x.users[step.user]]
    ensures NoNewAttempts(w.users[step.user], x.users[step.user]) && x.issued == w.issued && x.finished == w.finished
  {
    hide NoNewAttempts, ChatInv, Receive, Signs;
    var p := if step.Pull? then step.blob.plain.value else step.packed;
    ReceiveStartsNone(w.users[step.user], p, p in w.signed, step.applicable, step.timestamp, step.signature);
  }

  lemma RelayStepSame(w: World, step: Step, x: World)
    requires Next(w, step, x)
    requires step.Inject? || step.RelayPut? || step.RelayFetch? || step.RelayPurge? || step.RelayExpire?
    ensures x.users == w.users && x.issued == w.issued && x.finished == w.finished
  {
    hide PutOutcome, AfterPut, Fresh, Purged, Holds;
  }

  lemma StepKeepsTokens(w: World, step: Step, x: World)
    requires UsersInv(w.users) && TokensInv(w) && Next(w, step, x)
    ensures TokensInv(x)
  {
    hide Next, UsersInv, TokensInv, NoNewAttempts;
    match step
    case Begin(u, m, nonce) => BeginKeepsTokens(w, u, m, nonce, x);
    case Finish(u, m, t, e, now) => FinishKeepsTokens(w, u, m, t, e, now, x);
    case Open(u, epoch) => OpenKeepsTokens(w, u, epoch, x);
    case _ =>
      if OwnStep(step) {
        OwnStepStartsNone(w, step, x);
        NoNewAttemptsKeeps(w, step.user, x.users[step.user], x);
      } else {
        RelayStepSame(w, step, x);
        SameTokens(w, x);
      }
  }

  lemma UploadStartsNone(c: Chat, m: Message, made: Blob)
    requires RelayBlob(c, m, made).Some?
    ensures NoNewAttempts(c, RelayBlob(c, m, made).value.0)
  {
  }

  lemma AgeStartsNone(c: Chat, now: real)
    ensures NoNewAttempts(c, ExpireOutbox(c, now))
  {
  }

  lemma SameRecordsStartNone(c: Chat, d: Chat)
    requires d.records == c.records && d.epoch == c.epoch
    ensures NoNewAttempts(c, d)
  {
  }

  // ---------------------------------------------------------------- runs

  lemma {:induction false} ReachableTokens(worlds: seq<World>, steps: seq<Step>, n: nat)
    requires Execution(worlds, steps) && n < |worlds|
    ensures TokensInv(worlds[n])
  {
    hide Next, UsersInv;
    if n > 0 {
      ReachableTokens(worlds, steps, n - 1);
      UsersAreSound(worlds, steps, n - 1);
      StepKeepsTokens(worlds[n - 1], steps[n - 1], worlds[n]);
    }
  }

  lemma UsersAreSound(worlds: seq<World>, steps: seq<Step>, n: nat)
    requires Execution(worlds, steps) && n < |worlds|
    ensures UsersInv(worlds[n].users)
  {
    hide Next, UsersInv, SignedInv, StatusInv, PurgesInv, SpoolInv, AttemptsInv;
    ReachableInv(worlds, steps, n, n);
  }

  /** Attempts stay issued and finished. */
  lemma {:induction false} AttemptsStay(worlds: seq<World>, steps: seq<Step>, i: nat, j: nat)
    requires Execution(worlds, steps) && i <= j < |worlds|
    ensures worlds[i].issued <= worlds[j].issued && worlds[i].finished <= worlds[j].finished
  {
    hide Next;
    if i < j {
      AttemptsStay(worlds, steps, i, j - 1);
      StepKeepsAttempts(worlds[j - 1], steps[j - 1], worlds[j]);
    }
  }

  lemma StepKeepsAttempts(w: World, step: Step, x: World)
    requires Next(w, step, x)
    ensures w.issued <= x.issued && w.finished <= x.finished
  {
    hide Queue, Receive, PutOutcome, AfterPut, BeginAttempt, FinishAttempt, RelayBlob, ExpireOutbox, Fresh, Purged;
  }

  lemma StepKeepsOpening(w: World, step: Step, x: World, u: Address)
    requires Next(w, step, x) && UsersInv(w.users) && u in x.users
    ensures u in w.users
    ensures x.users[u].epoch == if step.Open? && step.user == u then step.epoch else w.users[u].epoch
  {
    hide Next, UsersInv;
    if OwnStep(step) {
      OwnStepStartsNone(w, step, x);
    } else if step.Begin? || step.Finish? || step.Open? {
      AttemptKeepsOpening(w, step, x);
    } else {
      RelayStepSame(w, step, x);
    }
  }

  lemma AttemptKeepsOpening(w: World, step: Step, x: World)
    requires Next(w, step, x) && (step.Begin? || step.Finish? || step.Open?)
    ensures step.user in w.users && x.users == w.users[step.user := x.users[step.user]]
    ensures x.users[step.user].epoch == if step.Open? then step.epoch else w.users[step.user].epoch
  {
  }

  /** After a store is opened anew, no token issued before is of the current opening ever again. */
  lemma {:induction false} OpeningsMoveOn(worlds: seq<World>, steps: seq<Step>, k: nat, n: nat, a: Attempt)
    requires Execution(worlds, steps) && k < n < |worlds|
    requires steps[k].Open? && steps[k].user == a.0 && a in worlds[k].issued
    ensures a.0 in worlds[n].users ==> worlds[n].users[a.0].epoch != a.2.epoch
  {
    hide Next, UsersInv;
    assert Next(worlds[n - 1], steps[n - 1], worlds[n]);
    AttemptsStay(worlds, steps, k, n - 1);
    UsersAreSound(worlds, steps, n - 1);
    if a.0 in worlds[n].users {
      StepKeepsOpening(worlds[n - 1], steps[n - 1], worlds[n], a.0);
    }
    if steps[n - 1].Open? && steps[n - 1].user == a.0 {
      OpenIsNew(worlds[n - 1], steps[n - 1], worlds[n], a);
    }
    if n > k + 1 {
      OpeningsMoveOn(worlds, steps, k, n - 1, a);
    }
  }

  lemma OpenIsNew(w: World, step: Step, x: World, a: Attempt)
    requires Next(w, step, x) && step.Open? && a in w.issued && a.0 == step.user
    ensures step.epoch != a.2.epoch
  {
  }

  /** The callback at step `n` has no say any more: the attempt already had one at step `k`, or the store was
      opened anew at step `k`, after the attempt was issued. */
  ghost predicate Stale(worlds: seq<World>, steps: seq<Step>, k: nat, n: nat)
    requires Execution(worlds, steps) && k < n < |steps| && steps[n].Finish?
  {
    var a := (steps[n].user, steps[n].message, steps[n].token);
    || (steps[k].Finish? && (steps[k].user, steps[k].message, steps[k].token) == a)
    || (steps[k].Open? && steps[k].user == a.0 && a in worlds[k].issued)
  }

  /** In every run, a repeated callback and one of an earlier opening change no store. */
  lemma StaleCallbackIsIgnored(worlds: seq<World>, steps: seq<Step>, k: nat, n: nat)
    requires Execution(worlds, steps) && k < n < |steps| && steps[n].Finish? && Stale(worlds, steps, k, n)
    ensures worlds[n + 1].users == worlds[n].users
  {
    var a := (steps[n].user, steps[n].message, steps[n].token);
    assert Next(worlds[n], steps[n], worlds[n + 1]) && Next(worlds[k], steps[k], worlds[k + 1]);
    ReachableTokens(worlds, steps, n);
    AttemptsStay(worlds, steps, k + 1, n);
    if steps[k].Open? {
      OpeningsMoveOn(worlds, steps, k, n, a);
    }
    assert !Current(worlds[n].users[a.0], a.1, a.2);
  }
}
