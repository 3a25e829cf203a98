/** What a rehearsal node gets done: requests are refused for a stated reason only, an active bundle has the
    receipt of a challenge that the node itself opened, and any bundle can get there.
 */
module RehearsalProgress {
  import opened Options
  import opened Rehearsal

  /** The node takes new requests: nothing is interrupted, and it is neither fenced nor retired. */
  ghost predicate Open(n: Node) {
    Interrupted(n.journals) == {} && !n.saved.fenced && !n.saved.phase.Retired?
  }

  /** What a request that is not allowed leaves when no call fails: a declined acceptance puts the predecessor
      back, a retirement out of turn fences the node, anything else changes nothing. */
  ghost predicate LeftByRefusal(a: Node, q: Request, w: World, b: Node) {
    && b.passed == a.passed
    && if Declines(a.saved, q, w) then
         b.pointer == Predecessor(a.saved, q) && b.saved == RolledBack(a.saved, Predecessor(a.saved, q))
       else
         b.pointer == a.pointer
         && b.saved == if q.action.Retire? then a.saved.(fenced := true, phase := Quarantined) else a.saved
  }

  /** In every run, a new request to an open node, none of whose calls fails, is answered.  It fails exactly when
      it is not allowed, and otherwise makes its move. */
  lemma CalmRequestIsDecided(
      nodes: seq<Node>, requests: seq<Request>, worlds: seq<World>, replies: seq<Reply>, i: nat)
    requires Run(nodes, requests, worlds, replies) && i < |requests|
    requires Open(nodes[i]) && requests[i].id !in nodes[i].journals && Calm(worlds[i])
    ensures var a, q, w, b := nodes[i], requests[i], worlds[i], nodes[i + 1];
      && replies[i].Done?
      && (replies[i].journal.result.Fail? <==> !Allowed(a.saved, q, w))
      && b.journals == a.journals[q.id := replies[i].journal]
      && if Allowed(a.saved, q, w) then
           && Moves(a.saved, q, w, b.saved) && b.pointer == PointerAfter(a, q)
           && replies[i].journal == Journal(q, ResultOf(b.saved), NotTried)
         else LeftByRefusal(a, q, w, b)
  {
    hide Allowed, Moves;
    assert Serves(nodes[i], requests[i], worlds[i], replies[i], nodes[i + 1]);
    var a, q, w, b := nodes[i], requests[i], worlds[i], nodes[i + 1];
    if Moves(a.saved, q, w, b.saved) {
      MoveIsAllowed(a.saved, q, w, b.saved);
    }
  }

  lemma MoveIsAllowed(a: State, q: Request, w: World, b: State)
    requires Moves(a, q, w, b)
    ensures Allowed(a, q, w)
  {
  }

  /** In every run, a matching drain of an interrupted operation, none of whose calls fails, ends the interruption. */
  lemma CalmDrainRecovers(
      nodes: seq<Node>, requests: seq<Request>, worlds: seq<World>, replies: seq<Reply>, i: nat, id: OpId)
    requires Run(nodes, requests, worlds, replies) && i < |requests| && Calm(worlds[i])
    requires Interrupted(nodes[i].journals) == {id} && !nodes[i].saved.fenced && !nodes[i].saved.phase.Retired?
    requires requests[i].id !in nodes[i].journals && DrainOf(requests[i], id, nodes[i].journals[id].binding)
    ensures var a, b := nodes[i], nodes[i + 1];
      && replies[i] == Done(Journal(requests[i], Pass, NotTried)) && Interrupted(b.journals) == {}
      && b.saved == a.saved.(phase := Draining) && b.pointer == a.pointer && b.journals[id].result.Recovered?
  {
    hide Moves, Undone;
    assert id in Interrupted(nodes[i].journals);
    assert Serves(nodes[i], requests[i], worlds[i], replies[i], nodes[i + 1]);
    var a, b := nodes[i], nodes[i + 1];
    forall k | k in b.journals ensures !b.journals[k].result.RunningOp? {
      if k != requests[i].id && k != id {
        assert k !in Interrupted(a.journals);
      }
    }
  }

  /** In every run, a vouching receipt completes the verification when no call fails. */
  lemma AcceptanceVerifies(
      nodes: seq<Node>, requests: seq<Request>, worlds: seq<World>, replies: seq<Reply>, i: nat)
    requires Run(nodes, requests, worlds, replies) && i < |requests|
    requires Open(nodes[i]) && requests[i].id !in nodes[i].journals && Calm(worlds[i])
    requires requests[i].action.CompleteVerification? && Vouched(nodes[i].saved, requests[i], worlds[i])
    ensures var a, q, w, b := nodes[i], requests[i], worlds[i], nodes[i + 1];
      && replies[i] == Done(Journal(q, Pass, NotTried)) && b.pointer == a.pointer
      && b.saved == a.saved.(phase := Verified, verification := None,
                             health := Some(Health(q.bundle, w.health, w.now, q.parameters.receipt.expiresAt)))
  {
    CalmRequestIsDecided(nodes, requests, worlds, replies, i);
  }

  // ---------------------------------------------------------------- where an active bundle comes from

  predicate OpensChallenge(q: Request) {
    q.action in {StartVerification, Upgrade, Rollback, RebootVerify} && q.parameters.NoParameters?
  }

  /** The challenge was made by this request, from what the outside told it. */
  predicate OpenedBy(c: Challenge, q: Request, w: World) {
    && OpensChallenge(q) && c.bundle == q.bundle && c.operation == q.id && c.nonce == w.nonce && c.health == w.health
    && c.startedAt == w.now && c.expiresAt == w.permitEnds
  }

  lemma ChallengeStep(a: Node, q: Request, w: World, r: Reply, b: Node)
    requires Serves(a, q, w, r, b) && b.saved.verification.Some?
    ensures b.saved.verification == a.saved.verification || OpenedBy(b.saved.verification.value, q, w)
  {
    hide Matches, HealthFits, Allowed, Declines, ClosedWith, Within;
  }

  lemma {:induction false} ChallengeWasOpened(
      nodes: seq<Node>, requests: seq<Request>, worlds: seq<World>, replies: seq<Reply>, n: nat) returns (o: nat)
    requires Run(nodes, requests, worlds, replies) && n < |nodes| && nodes[n].saved.verification.Some?
    ensures o < n && OpenedBy(nodes[n].saved.verification.value, requests[o], worlds[o])
  {
    hide Serves, OpenedBy;
    assert n > 0;
    assert Serves(nodes[n - 1], requests[n - 1], worlds[n - 1], replies[n - 1], nodes[n]);
    ChallengeStep(nodes[n - 1], requests[n - 1], worlds[n - 1], replies[n - 1], nodes[n]);
    if OpenedBy(nodes[n].saved.verification.value, requests[n - 1], worlds[n - 1]) {
      o := n - 1;
    } else {
      o := ChallengeWasOpened(nodes, requests, worlds, replies, n - 1);
    }
  }

  lemma PassedIsVouched(a: Node, q: Request, w: World, r: Reply, b: Node, bundle: Bundle)
    requires Serves(a, q, w, r, b) && bundle in b.passed && bundle !in a.passed
    ensures q.action.CompleteVerification? && Vouched(a.saved, q, w) && q.bundle == bundle
  {
    hide Undone, CutOff, ClosedWith, Within, Allowed, Declines;
  }

  lemma {:induction false} PassedWasVouched(
      nodes: seq<Node>, requests: seq<Request>, worlds: seq<World>, replies: seq<Reply>, n: nat, bundle: Bundle)
    returns (k: nat)
    requires Run(nodes, requests, worlds, replies) && n < |nodes| && bundle in nodes[n].passed
    ensures k < n && requests[k].action.CompleteVerification? && requests[k].bundle == bundle
    ensures Vouched(nodes[k].saved, requests[k], worlds[k])
  {
    hide Serves, Vouched;
    assert n > 0;
    assert Serves(nodes[n - 1], requests[n - 1], worlds[n - 1], replies[n - 1], nodes[n]);
    if bundle in nodes[n - 1].passed {
      k := PassedWasVouched(nodes, requests, worlds, replies, n - 1, bundle);
    } else {
      PassedIsVouched(nodes[n - 1], requests[n - 1], worlds[n - 1], replies[n - 1], nodes[n], bundle);
      k := n - 1;
    }
  }

  /** In every run, behind an active bundle stand two earlier requests: one that opened a challenge for it, and one
      that brought a signed receipt, all passed, for that very bundle, operation, nonce and health, issued while
      the challenge and the receipt were in force and for no longer than five minutes. */
  lemma ActiveHasItsReceipt(nodes: seq<Node>, requests: seq<Request>, worlds: seq<World>, replies: seq<Reply>, n: nat)
    returns (o: nat, k: nat)
    requires Run(nodes, requests, worlds, replies) && n < |nodes|
    requires Interrupted(nodes[n].journals) == {} && nodes[n].saved.phase.Active?
    ensures o < k < n && OpensChallenge(requests[o]) && nodes[n].pointer == Some(requests[o].bundle)
    ensures requests[k].action.CompleteVerification? && requests[k].parameters.WithReceipt?
    ensures var x, q, w := requests[k].parameters.receipt, requests[o], worlds[o];
      && x.genuine && x.allPass && x.bundle == requests[k].bundle == q.bundle && x.operation == q.id
      && x.nonce == w.nonce && x.health == w.health == worlds[k].health
      && w.now <= x.issuedAt <= worlds[k].now < x.expiresAt <= w.permitEnds && x.expiresAt <= x.issuedAt + 300
  {
    hide Serves, Run;
    RunFits(nodes, requests, worlds, replies, n);
    k := PassedWasVouched(nodes, requests, worlds, replies, n, nodes[n].saved.actual.value);
    RunSizes(nodes, requests, worlds, replies);
    o := ChallengeWasOpened(nodes, requests, worlds, replies, k);
  }

  lemma RunSizes(nodes: seq<Node>, requests: seq<Request>, worlds: seq<World>, replies: seq<Reply>)
    requires Run(nodes, requests, worlds, replies)
    ensures |nodes| == |requests| + 1 == |worlds| + 1 == |replies| + 1
  {
  }

  // ---------------------------------------------------------------- a bundle becomes active

  /** A run as one value. */
  datatype Record = Record(nodes: seq<Node>, requests: seq<Request>, worlds: seq<World>, replies: seq<Reply>)

  ghost predicate IsRun(h: Record) { Run(h.nodes, h.requests, h.worlds, h.replies) }

  ghost function Last(h: Record): Node
    requires IsRun(h)
  {
    h.nodes[|h.nodes| - 1]
  }

  /** An allowed request to an open node can be served, and the run goes on with it. */
  lemma MoveExtends(h: Record, q: Request, w: World, s: State) returns (h': Record)
    requires IsRun(h) && Open(Last(h)) && q.id !in Last(h).journals && Moves(Last(h).saved, q, w, s)
    requires s.fenced == false && !s.phase.Retired?
    ensures IsRun(h') && h.nodes < h'.nodes && h'.requests == h.requests + [q] && h'.worlds == h.worlds + [w]
    ensures var a, b := Last(h), Last(h');
      && b.saved == s && b.pointer == PointerAfter(a, q) && Open(b)
      && b.journals.Keys == a.journals.Keys + {q.id}
  {
    hide Moves, Undone;
    var a := Last(h);
    var j := Journal(q, ResultOf(s), NotTried);
    var b := Node(s, a.journals[q.id := j], PointerAfter(a, q), PassedBy(a.passed, a.saved, q, w));
    assert Serves(a, q, w, Done(j), b);
    h' := Record(h.nodes + [b], h.requests + [q], h.worlds + [w], h.replies + [Done(j)]);
    RunGrows(h, q, w, Done(j), b);
    forall k | k in b.journals ensures !b.journals[k].result.RunningOp? {
      if k != q.id {
        assert k !in Interrupted(a.journals);
      }
    }
  }

  lemma RunGrows(h: Record, q: Request, w: World, r: Reply, b: Node)
    requires IsRun(h) && Serves(Last(h), q, w, r, b)
    ensures IsRun(Record(h.nodes + [b], h.requests + [q], h.worlds + [w], h.replies + [r]))
  {
    hide Serves;
    var n := |h.requests|;
    var nodes, requests, worlds, replies := h.nodes + [b], h.requests + [q], h.worlds + [w], h.replies + [r];
    forall i | 0 <= i <= n ensures Serves(nodes[i], requests[i], worlds[i], replies[i], nodes[i + 1]) {
      if i < n {
        assert Serves(h.nodes[i], h.requests[i], h.worlds[i], h.replies[i], h.nodes[i + 1]);
      }
    }
  }

  /** From an open node with nothing running, any bundle can be staged and its verification started. */
  lemma BundleCanBeStarted(h: Record, bundle: Bundle, first: OpId, second: OpId, staging: World, start: World)
    returns (h': Record)
    requires IsRun(h) && Open(Last(h)) && Last(h).saved.phase in {Preflighted, Phase.Staged, Failed}
    requires first != second && first !in Last(h).journals && second !in Last(h).journals
    requires Last(h).saved.identity in {None, Some(staging.identity)}
    ensures IsRun(h') && h.nodes < h'.nodes && Open(Last(h')) && Last(h').saved.phase.Awaiting?
    ensures Last(h').journals.Keys == Last(h).journals.Keys + {first, second} && Last(h').pointer == Some(bundle)
    ensures Last(h').saved.verification ==
      Some(Challenge(bundle, second, start.nonce, start.health, start.now, start.permitEnds))
  {
    hide IsRun, Open, PassedBy;
    NotFenced(h);
    var a := Last(h).saved;
    var s := a.(identity := Some(staging.identity), staged := a.staged + {bundle}, phase := Phase.Staged);
    h' := MoveExtends(h, Request(first, Stage, bundle, NoParameters), staging, s);
    var c := Challenge(bundle, second, start.nonce, start.health, start.now, start.permitEnds);
    h' := MoveExtends(h', Request(second, StartVerification, bundle, NoParameters), start, AwaitingFrom(s, bundle, c));
  }

  /** From every reachable open node with nothing running, every bundle can be staged, started, accepted from the
      outside and made active: whatever the clocks, while the challenge, the receipt and the health last. */
  lemma BundleCanBecomeActive(h: Record, bundle: Bundle, ids: seq<OpId>, staging: World, start: World, accept: World,
      activate: World, x: External) returns (h': Record)
    requires IsRun(h) && Open(Last(h)) && Last(h).saved.phase in {Preflighted, Phase.Staged, Failed}
    requires |ids| == 4 && (forall i, j | 0 <= i < j < 4 :: ids[i] != ids[j])
      && (forall i | 0 <= i < 4 :: ids[i] !in Last(h).journals)
    requires Last(h).saved.identity in {None, Some(staging.identity)}
    requires start.health == accept.health == activate.health
    requires x.genuine && x.allPass && x.bundle == bundle && x.operation == ids[1] && x.nonce == start.nonce
      && x.health == start.health
    requires start.now <= x.issuedAt <= accept.now <= activate.now < x.expiresAt <= start.permitEnds
    requires x.expiresAt <= x.issuedAt + 300
    ensures IsRun(h') && h.nodes < h'.nodes
    ensures Last(h').saved.phase.Active? && Last(h').saved.actual == Some(bundle) == Last(h').pointer
      && bundle in Last(h').saved.accepted
  {
    hide IsRun, Open, PassedBy;
    h' := BundleCanBeStarted(h, bundle, ids[0], ids[1], staging, start);
    NotFenced(h');
    var s := Last(h').saved.(phase := Verified, verification := None,
                             health := Some(Health(bundle, accept.health, accept.now, x.expiresAt)));
    h' := MoveExtends(h', Request(ids[2], CompleteVerification, bundle, WithReceipt(x)), accept, s);
    s := s.(phase := Active, actual := Some(bundle), accepted := s.accepted + {bundle});
    h' := MoveExtends(h', Request(ids[3], ActivateLocal, bundle, NoParameters), activate, s);
  }

  lemma NotFenced(h: Record)
    requires IsRun(h) && Open(Last(h))
    ensures !Last(h).saved.fenced
  {
  }
}
