/** The visible history: each message with its winning edit, whatever order they arrived in. */
module History {
  import opened Options

  datatype Kind = Plain | Voice | Edit(target: nat, revision: nat) | Hidden

  /** One stored record, in order of arrival; `Hidden` covers receipts and service events. */
  datatype Item = Item(id: nat, kind: Kind, peer: nat, outgoing: bool, text: nat, status: nat)

  datatype Shown = Shown(id: nat, kind: Kind, peer: nat, outgoing: bool, text: nat, revision: nat, edited: bool,
    status: nat)

  predicate IsMessage(x: Item) { x.kind.Plain? || x.kind.Voice? }

  /** An edit that may change message `x`: same target, peer and direction, and not a recording. */
  predicate Applies(e: Item, x: Item) {
    e.kind.Edit? && e.kind.target == x.id && !x.kind.Voice? && e.peer == x.peer && e.outgoing == x.outgoing
  }

  function Revision(e: Option<Item>): nat {
    if e.Some? && e.value.kind.Edit? then e.value.kind.revision else 0
  }

  /** The edit that stands after a history: each applicable edit of a higher revision takes over. */
  function Winner(history: seq<Item>, x: Item): Option<Item> {
    if history == [] then None
    else
      var before, e := Winner(history[..|history| - 1], x), history[|history| - 1];
      if Applies(e, x) && e.kind.revision > Revision(before) then Some(e) else before
  }

  function Show(x: Item, e: Option<Item>): Shown {
    if e.None? then Shown(x.id, x.kind, x.peer, x.outgoing, x.text, 0, false, x.status)
    else
      var status := if x.outgoing then e.value.status else x.status;
      Shown(x.id, x.kind, x.peer, x.outgoing, e.value.text, Revision(e), true, status)
  }

  function Messages(history: seq<Item>): seq<Item> {
    if history == [] then []
    else Messages(history[..|history| - 1]) + if IsMessage(history[|history| - 1]) then [history[|history| - 1]] else []
  }

  function Visible(history: seq<Item>): (v: seq<Shown>) {
    var ms := Messages(history);
    seq(|ms|, i requires 0 <= i < |ms| => Show(ms[i], Winner(history, ms[i])))
  }

  ghost predicate DistinctIds(history: seq<Item>) {
    forall i, j | 0 <= i < j < |history| :: history[i].id != history[j].id
  }

  /** The winner is an applicable edit of the highest revision, the earliest of those. */
  lemma {:induction false} WinnerIsHighest(history: seq<Item>, x: Item)
    ensures var w := Winner(history, x);
            && (w.Some? ==> w.value in history && Applies(w.value, x) && Revision(w) >= 1)
            && (forall e | e in history && Applies(e, x) :: e.kind.revision <= Revision(w))
  {
    if history != [] {
      WinnerIsHighest(history[..|history| - 1], x);
      assert history == history[..|history| - 1] + [history[|history| - 1]];
    }
  }

  /** No two different edits of a message share a revision. */
  ghost predicate DistinctRevisions(history: seq<Item>, x: Item) {
    forall e, f | e in history && f in history && Applies(e, x) && Applies(f, x) ::
      e.kind.revision == f.kind.revision ==> e == f
  }

  /** Any order of arrival gives a message the same text, revision and status. */
  lemma OrderDoesNotMatter(one: seq<Item>, other: seq<Item>, x: Item)
    requires multiset(one) == multiset(other) && DistinctRevisions(one, x)
    ensures Show(x, Winner(one, x)) == Show(x, Winner(other, x))
  {
    WinnerIsHighest(one, x);
    WinnerIsHighest(other, x);
    var v, w := Winner(one, x), Winner(other, x);
    SameMembers(one, other);
    assert v.Some? ==> Revision(v) <= Revision(w);
    assert w.Some? ==> Revision(w) <= Revision(v);
  }

  lemma SameMembers(one: seq<Item>, other: seq<Item>)
    requires multiset(one) == multiset(other)
    ensures forall e :: e in one <==> e in other
  {
    forall e ensures e in one <==> e in other {
      assert e in one <==> e in multiset(one);
      assert e in other <==> e in multiset(other);
    }
  }

  /** What a reader sees: a message with applicable edits shows the text and revision of the
      highest one, even of an edit that arrived before it. */
  lemma VisibleShowsHighestEdit(history: seq<Item>, x: Item, e: Item)
    requires x in history && IsMessage(x)
    requires e in history && Applies(e, x) && e.kind.revision >= 1 && DistinctRevisions(history, x)
    requires forall f | f in history && Applies(f, x) :: f.kind.revision <= e.kind.revision
    ensures exists s :: && s in Visible(history) && s.id == x.id
                        && s.text == e.text && s.revision == e.kind.revision && s.edited
  {
    WinnerIsHighest(history, x);
    MessagesComplete(history);
    var ms := Messages(history);
    var i :| 0 <= i < |ms| && ms[i] == x;
    assert Visible(history)[i] == Show(x, Winner(history, x));
    assert Visible(history)[i] in Visible(history);
  }

  /** A message no edit applies to shows its own text. */
  lemma VisibleShowsOwnText(history: seq<Item>, x: Item)
    requires x in history && IsMessage(x) && forall e | e in history && Applies(e, x) :: e.kind.revision == 0
    ensures Shown(x.id, x.kind, x.peer, x.outgoing, x.text, 0, false, x.status) in Visible(history)
  {
    WinnerIsHighest(history, x);
    MessagesComplete(history);
    var ms := Messages(history);
    var i :| 0 <= i < |ms| && ms[i] == x;
    assert Visible(history)[i] == Show(x, Winner(history, x));
  }

  /** Message `x` is shown in place `i`. */
  ghost predicate ShownAt(history: seq<Item>, i: nat, x: Item) {
    i < |Visible(history)| && Visible(history)[i].id == x.id
  }

  /** Every message is shown, in one place only, and nothing else is shown. */
  lemma VisibleIsComplete(history: seq<Item>, x: Item)
    requires DistinctIds(history) && x in history
    ensures IsMessage(x) ==> exists i :: ShownAt(history, i, x)
    ensures forall i, j | ShownAt(history, i, x) && ShownAt(history, j, x) :: i == j
    ensures forall i | ShownAt(history, i, x) :: IsMessage(x)
  {
    hide Winner, Messages;
    MessagesComplete(history);
    var ms := Messages(history);
    forall i | 0 <= i < |ms| ensures Visible(history)[i].id == ms[i].id && ms[i] in history && IsMessage(ms[i]) {
      assert ms[i] in ms;
    }
    if IsMessage(x) {
      var i :| 0 <= i < |ms| && ms[i] == x;
      assert ShownAt(history, i, x);
    }
    forall i: nat | ShownAt(history, i, x) ensures ms[i] == x {
      SameId(history, ms[i], x);
    }
  }

  lemma SameId(history: seq<Item>, x: Item, y: Item)
    requires DistinctIds(history) && x in history && y in history && x.id == y.id
    ensures x == y
  {
    var i :| 0 <= i < |history| && history[i] == x;
    var j :| 0 <= j < |history| && history[j] == y;
  }

  lemma {:induction false} MessagesComplete(history: seq<Item>)
    ensures forall x :: x in Messages(history) <==> x in history && IsMessage(x)
    ensures DistinctIds(history) ==> DistinctIds(Messages(history))
  {
    if history != [] {
      MessagesComplete(history[..|history| - 1]);
      assert history == history[..|history| - 1] + [history[|history| - 1]];
      if DistinctIds(history) {
        var ms, last := Messages(history[..|history| - 1]), history[|history| - 1];
        forall i | 0 <= i < |ms| ensures ms[i].id != last.id {
          assert ms[i] in history[..|history| - 1];
        }
      }
    }
  }

  /** An index from message IDs to positions. */
  ghost predicate Indexes(known: map<nat, nat>, ms: seq<Item>) {
    && (forall i | 0 <= i < |ms| :: ms[i].id in known && known[ms[i].id] == i)
    && (forall k | k in known :: known[k] < |ms| && ms[known[k]].id == k)
  }

  method CopyMessages(history: seq<Item>) returns (ms: seq<Item>, known: map<nat, nat>)
    requires DistinctIds(history)
    ensures ms == Messages(history) && Indexes(known, ms)
  {
    ms, known := [], map[];
    for n := 0 to |history|
      invariant ms == Messages(history[..n]) && Indexes(known, ms)
    {
      assert history[..n + 1][..n] == history[..n];
      MessagesComplete(history[..n]);
      forall i | 0 <= i < |ms| ensures ms[i].id != history[n].id {
        assert ms[i] in history[..n];
      }
      if IsMessage(history[n]) {
        known := known[history[n].id := |ms|];
        ms := ms + [history[n]];
      }
    }
    assert history[..|history|] == history;
  }

  /** Two passes, as the store does it: copy the messages and index them, then let each edit in
      turn overwrite the entry it applies to when its revision is higher. */
  method VisibleMessages(history: seq<Item>) returns (visible: seq<Shown>)
    requires DistinctIds(history)
    ensures visible == Visible(history)
  {
    var ms, known := CopyMessages(history);
    visible := seq(|ms|, i requires 0 <= i < |ms| => Show(ms[i], None));
    for n := 0 to |history|
      invariant |visible| == |ms| && forall i | 0 <= i < |ms| :: visible[i] == Show(ms[i], Winner(history[..n], ms[i]))
    {
      assert history[..n + 1][..n] == history[..n];
      forall i | 0 <= i < |ms| ensures visible[i].revision == Revision(Winner(history[..n], ms[i])) {
        WinnerIsHighest(history[..n], ms[i]);
      }
      var e := history[n];
      if e.kind.Edit? && e.kind.target in known {
        var i := known[e.kind.target];
        var original := visible[i];
        if !original.kind.Voice? && original.peer == e.peer && original.outgoing == e.outgoing
           && e.kind.revision > original.revision {
          visible := visible[i := original.(text := e.text, revision := e.kind.revision, edited := true,
                                            status := if original.outgoing then e.status else original.status)];
        }
      }
    }
    assert history[..|history|] == history;
  }
}
