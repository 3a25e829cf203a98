/** The relay's per-identity upload limiter: a bucket of four tokens refilled at one a second. */
module RateLimit {
  import opened ChatTypes
  import opened Options

  const BURST: real := 4.0

  datatype Bucket = Bucket(last: real, tokens: real)

  /** One upload request that reached the limiter: who asks, who is admitted then, and when. */
  datatype Visit = Visit(who: Address, admitted: set<Address>, now: real)

  function Least(a: real, b: real): real { if a <= b then a else b }
  function Elapsed(now: real, last: real): real { if now <= last then 0.0 else now - last }

  /** The bucket an identity finds, refilled up to `now`; an unknown identity starts full. */
  function Level(rate: map<Address, Bucket>, who: Address, now: real): real {
    if who in rate then Least(BURST, rate[who].tokens + Elapsed(now, rate[who].last)) else BURST
  }

  function Pruned(rate: map<Address, Bucket>, admitted: set<Address>): map<Address, Bucket> {
    map k | k in rate && k in admitted :: rate[k]
  }

  predicate Passes(rate: map<Address, Bucket>, v: Visit) {
    Level(Pruned(rate, v.admitted), v.who, v.now) >= 1.0
  }

  function AfterVisit(rate: map<Address, Bucket>, v: Visit): map<Address, Bucket> {
    var level := Level(Pruned(rate, v.admitted), v.who, v.now);
    Pruned(rate, v.admitted)[v.who := Bucket(v.now, if level >= 1.0 then level - 1.0 else level)]
  }

  /** The state after a sequence of visits, and how many of them let `who` through. */
  function AfterAll(rate: map<Address, Bucket>, vs: seq<Visit>): map<Address, Bucket> {
    if vs == [] then rate else AfterVisit(AfterAll(rate, vs[..|vs| - 1]), vs[|vs| - 1])
  }

  function Passed(rate: map<Address, Bucket>, vs: seq<Visit>, who: Address): nat {
    if vs == [] then 0
    else
      var v := vs[|vs| - 1];
      Passed(rate, vs[..|vs| - 1], who)
      + if v.who == who && Passes(AfterAll(rate, vs[..|vs| - 1]), v) then 1 else 0
  }

  /** Buckets hold between nothing and a full burst, and were last touched before `now`. */
  ghost predicate Sound(rate: map<Address, Bucket>, now: real) {
    forall k | k in rate :: 0.0 <= rate[k].tokens <= BURST && rate[k].last <= now
  }

  ghost predicate InOrder(vs: seq<Visit>, from: real, to: real) {
    && (forall i | 0 <= i < |vs| :: from <= vs[i].now <= to)
    && (forall i, j | 0 <= i < j < |vs| :: vs[i].now <= vs[j].now)
  }

  ghost predicate StaysAdmitted(vs: seq<Visit>, who: Address) {
    forall i | 0 <= i < |vs| :: who in vs[i].admitted
  }

  lemma LevelGrows(rate: map<Address, Bucket>, who: Address, t: real, u: real)
    requires Sound(rate, t) && t <= u
    ensures 0.0 <= Level(rate, who, t) <= Level(rate, who, u) <= Level(rate, who, t) + (u - t)
  {
  }

  lemma VisitSound(rate: map<Address, Bucket>, v: Visit, t: real)
    requires Sound(rate, t) && t <= v.now
    ensures Sound(AfterVisit(rate, v), v.now)
  {
  }

  /** Tokens spent plus the level left never exceed the starting level plus the time gone by. */
  lemma {:induction false} SpentIsCovered(rate: map<Address, Bucket>, vs: seq<Visit>, who: Address, from: real,
      to: real)
    requires Sound(rate, from) && from <= to && InOrder(vs, from, to) && StaysAdmitted(vs, who)
    ensures Sound(AfterAll(rate, vs), to)
    ensures Passed(rate, vs, who) as real + Level(AfterAll(rate, vs), who, to) <= Level(rate, who, from) + (to - from)
    decreases |vs|
  {
    if vs == [] {
      LevelGrows(rate, who, from, to);
    } else {
      var earlier, v := vs[..|vs| - 1], vs[|vs| - 1];
      SpentIsCovered(rate, earlier, who, from, v.now);
      var mid := AfterAll(rate, earlier);
      VisitSound(mid, v, v.now);
      assert Level(Pruned(mid, v.admitted), who, v.now) == Level(mid, who, v.now);
      LevelGrows(AfterVisit(mid, v), who, v.now, to);
    }
  }

  /** While an identity stays admitted, the uploads let through between two moments number at
      most four plus the seconds between them, whatever other identities do. */
  lemma UploadsBounded(history: seq<Visit>, start: nat, who: Address, base: real, from: real, to: real)
    requires start <= |history| && from <= to
    requires InOrder(history[..start], base, from)
    requires InOrder(history[start..], from, to) && StaysAdmitted(history[start..], who)
    ensures Passed(AfterAll(map[], history[..start]), history[start..], who) as real <= 4.0 + (to - from)
  {
    StartSound(history[..start], base, from);
    var rate := AfterAll(map[], history[..start]);
    SpentIsCovered(rate, history[start..], who, from, to);
    LevelGrows(AfterAll(rate, history[start..]), who, to, to);
  }

  lemma {:induction false} StartSound(vs: seq<Visit>, base: real, to: real)
    requires InOrder(vs, base, to)
    ensures Sound(AfterAll(map[], vs), to)
  {
    if vs != [] {
      var v := vs[|vs| - 1];
      StartSound(vs[..|vs| - 1], base, v.now);
      VisitSound(AfterAll(map[], vs[..|vs| - 1]), v, v.now);
    }
  }

  // ---------------------------------------------------------------- who keeps to the rate is never refused

  function Visits(vs: seq<Visit>, who: Address): nat {
    if vs == [] then 0 else Visits(vs[..|vs| - 1], who) + if vs[|vs| - 1].who == who then 1 else 0
  }

  /** From each of its visits to each later one, the identity asks at most four times plus once a second. */
  ghost predicate KeepsToRate(vs: seq<Visit>, who: Address) {
    forall i, j | 0 <= j <= i < |vs| && vs[i].who == who && vs[j].who == who ::
      Visits(vs[j..i + 1], who) as real <= BURST + (vs[i].now - vs[j].now)
  }

  /** The bucket lacks no more than what was asked since some visit, less what has come back. */
  ghost predicate Covered(rate: map<Address, Bucket>, vs: seq<Visit>, who: Address) {
    who in rate ==>
      exists j | 0 <= j < |vs| ::
        && vs[j].who == who && vs[j].now <= rate[who].last
        && rate[who].tokens >= BURST + (rate[who].last - vs[j].now) - Visits(vs[j..], who) as real
  }

  lemma OneVisitMore(vs: seq<Visit>, j: nat, who: Address)
    requires j < |vs|
    ensures vs[j..][..|vs| - 1 - j] == vs[..|vs| - 1][j..]
    ensures Visits(vs[j..], who) == Visits(vs[..|vs| - 1][j..], who) + if vs[|vs| - 1].who == who then 1 else 0
  {
    assert vs[j..][..|vs| - 1 - j] == vs[..|vs| - 1][j..];
  }

  /** A visit of the identity itself, found in the bucket with an earlier visit `j` to account for it. */
  lemma OwnVisitIsCovered(level: real, vs: seq<Visit>, who: Address, j: nat, last: real)
    requires j < |vs| - 1 && vs[|vs| - 1].who == who && vs[j].who == who && KeepsToRate(vs, who)
    requires vs[j].now <= last <= vs[|vs| - 1].now
    requires level >= BURST + (vs[|vs| - 1].now - vs[j].now) - Visits(vs[..|vs| - 1][j..], who) as real
    ensures level >= 1.0
    ensures level - 1.0 >= BURST + (vs[|vs| - 1].now - vs[j].now) - Visits(vs[j..], who) as real
  {
    OneVisitMore(vs, j, who);
    assert vs[j..|vs|] == vs[j..];
  }

  lemma VisitIsCovered(rate: map<Address, Bucket>, vs: seq<Visit>, who: Address)
    requires vs != [] && Covered(rate, vs[..|vs| - 1], who) && KeepsToRate(vs, who)
    requires who in rate ==> rate[who].last <= vs[|vs| - 1].now
    ensures Covered(AfterVisit(rate, vs[|vs| - 1]), vs, who)
    ensures vs[|vs| - 1].who == who ==> Passes(rate, vs[|vs| - 1])
  {
    hide KeepsToRate, Visits;
    var n := |vs| - 1;
    var earlier, v := vs[..n], vs[n];
    if who in rate && who in v.admitted {
      var j :| 0 <= j < |earlier| && earlier[j].who == who && earlier[j].now <= rate[who].last
               && rate[who].tokens >= BURST + (rate[who].last - earlier[j].now) - Visits(earlier[j..], who) as real;
      assert vs[j] == earlier[j];
      OneVisitMore(vs, j, who);
      if v.who == who && rate[who].tokens + Elapsed(v.now, rate[who].last) < BURST {
        OwnVisitIsCovered(rate[who].tokens + Elapsed(v.now, rate[who].last), vs, who, j, rate[who].last);
      }
    }
    if v.who == who {
      LastVisitAlone(vs, who);
      assert vs[n].who == who;
    }
  }

  lemma LastVisitAlone(vs: seq<Visit>, who: Address)
    requires vs != [] && vs[|vs| - 1].who == who
    ensures Visits(vs[|vs| - 1..], who) == 1
  {
    OneVisitMore(vs, |vs| - 1, who);
  }

  lemma PrefixKeepsToRate(vs: seq<Visit>, n: nat, who: Address)
    requires n <= |vs| && KeepsToRate(vs, who)
    ensures KeepsToRate(vs[..n], who)
  {
    hide Visits;
    forall i, j | 0 <= j <= i < n && vs[i].who == who && vs[j].who == who
      ensures vs[..n][j..i + 1] == vs[j..i + 1] {
    }
  }

  /** Over every history in clock order, an identity that keeps to the rate gets all its uploads through, whatever
      others do and however it is admitted. */
  lemma {:induction false} ModestIsNeverRefused(vs: seq<Visit>, who: Address, from: real, to: real)
    requires InOrder(vs, from, to) && KeepsToRate(vs, who)
    ensures Passed(map[], vs, who) == Visits(vs, who) && Covered(AfterAll(map[], vs), vs, who)
    decreases |vs|
  {
    hide Covered, KeepsToRate, AfterVisit, Passes;
    if vs == [] {
      NothingIsCovered(who);
    } else {
      var n := |vs| - 1;
      PrefixKeepsToRate(vs, n, who);
      ModestIsNeverRefused(vs[..n], who, from, vs[n].now);
      StartSound(vs[..n], from, vs[n].now);
      VisitIsCovered(AfterAll(map[], vs[..n]), vs, who);
    }
  }

  lemma {:induction false} LastIsAVisit(vs: seq<Visit>, who: Address)
    requires who in AfterAll(map[], vs)
    ensures exists i | 0 <= i < |vs| :: vs[i].who == who && vs[i].now == AfterAll(map[], vs)[who].last
  {
    var n := |vs| - 1;
    if vs[n].who != who {
      LastIsAVisit(vs[..n], who);
      var i :| 0 <= i < n && vs[..n][i].who == who && vs[..n][i].now == AfterAll(map[], vs[..n])[who].last;
      assert vs[i].who == who;
    }
  }

  /** Over every history in clock order, an identity whose visits all lie a second back gets its next upload through,
      however often it was refused before. */
  lemma IdleSecondPasses(vs: seq<Visit>, v: Visit, from: real)
    requires InOrder(vs, from, v.now)
    requires forall i | 0 <= i < |vs| && vs[i].who == v.who :: vs[i].now + 1.0 <= v.now
    ensures Passes(AfterAll(map[], vs), v)
  {
    StartSound(vs, from, v.now);
    if v.who in AfterAll(map[], vs) {
      LastIsAVisit(vs, v.who);
    }
  }

  lemma NothingIsCovered(who: Address)
    ensures Covered(map[], [], who)
  {
  }

  class Limiter {
    var rate: map<Address, Bucket>

    constructor ()
      ensures rate == map[]
    {
      rate := map[];
    }

    /** Spend a token of the identity if there is one. */
    method Take(v: Visit) returns (passed: bool)
      modifies this
      ensures rate == AfterVisit(old(rate), v) && passed == Passes(old(rate), v)
    {
      rate := map k | k in rate && k in v.admitted :: rate[k];
      var bucket := if v.who in rate then rate[v.who] else Bucket(v.now, BURST);
      var tokens := Least(BURST, bucket.tokens + Elapsed(v.now, bucket.last));
      if tokens < 1.0 {
        rate := rate[v.who := Bucket(v.now, tokens)];
        return false;
      }
      rate := rate[v.who := Bucket(v.now, tokens - 1.0)];
      return true;
    }
  }
}
