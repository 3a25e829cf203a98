/** The Ogg page checksum: CRC-32 with generator 0x04c11db7, most significant bit first, section 6 of RFC 3533. */
module OggCrc {

  type Byte = bv8

  function Xor(a: bv32, b: bv32): bv32 { a ^ b }

  predicate High(s: bv32) { s & 0x8000_0000 != 0 }

  function Up(s: bv32): bv32 { s << 1 }

  function Feed(carry: bool, s: bv32): bv32 { if carry then Xor(s, 0x04c1_1db7) else s }

  /** One bit of the division register. */
  function Shift(s: bv32): bv32 { Feed(High(s), Up(s)) }

  function Times(n: nat, s: bv32): bv32 { if n == 0 then s else Shift(Times(n - 1, s)) }

  function Top(b: Byte): bv32 { (b as bv32) << 24 }

  /** The register after one more byte. */
  function Absorb(s: bv32, b: Byte): bv32 { Times(8, Xor(s, Top(b))) }

  function From(s: bv32, page: seq<Byte>): bv32 {
    if page == [] then s else Absorb(From(s, page[..|page| - 1]), page[|page| - 1])
  }

  function Crc(page: seq<Byte>): bv32 { From(0, page) }

  method ShiftOnce(s: bv32) returns (r: bv32)
    ensures r == Shift(s)
  {
    r := if s & 0x8000_0000 != 0 then (s << 1) ^ 0x04c1_1db7 else s << 1;
  }

  /** The checksum as the codec computes it: a loop over bytes, each with eight shifts. */
  method Checksum(page: seq<Byte>) returns (crc: bv32)
    ensures crc == Crc(page)
  {
    hide Shift;
    crc := 0;
    for i := 0 to |page|
      invariant crc == From(0, page[..i])
    {
      assert page[..i + 1][..i] == page[..i];
      var mixed := crc ^ ((page[i] as bv32) << 24);
      crc := mixed;
      for n := 0 to 8
        invariant crc == Times(n, mixed)
      {
        crc := ShiftOnce(crc);
      }
    }
    assert page[..|page|] == page;
  }

  // ---------------------------------------------------------------- the register is linear and never forgets

  lemma UpIsOneToOne(a: bv32, b: bv32)
    requires Up(a) == Up(b) && High(a) == High(b)
    ensures a == b
  {
  }

  lemma FeedIsOneToOne(carry: bool, a: bv32, b: bv32)
    requires Feed(carry, a) == Feed(carry, b)
    ensures a == b
  {
  }

  lemma CarryShows(a: bv32, b: bv32)
    ensures Feed(true, Up(a)) != Feed(false, Up(b))
  {
    assert Up(a) & 1 == 0 && Up(b) & 1 == 0;
    assert Feed(true, Up(a)) & 1 == 1;
  }

  lemma ShiftIsOneToOne(a: bv32, b: bv32)
    requires Shift(a) == Shift(b)
    ensures a == b
  {
    hide Up, High, Feed;
    CarryShows(a, b);
    CarryShows(b, a);
    FeedIsOneToOne(High(a), Up(a), Up(b));
    UpIsOneToOne(a, b);
  }

  lemma {:induction false} TimesIsOneToOne(n: nat, a: bv32, b: bv32)
    requires Times(n, a) == Times(n, b)
    ensures a == b
  {
    hide Shift;
    if n > 0 {
      ShiftIsOneToOne(Times(n - 1, a), Times(n - 1, b));
      TimesIsOneToOne(n - 1, a, b);
    }
  }

  lemma UpIsLinear(a: bv32, b: bv32)
    ensures Up(Xor(a, b)) == Xor(Up(a), Up(b))
  {
  }

  lemma HighIsLinear(a: bv32, b: bv32)
    ensures High(Xor(a, b)) == (High(a) != High(b))
  {
  }

  lemma XorCommutes(a: bv32, b: bv32)
    ensures Xor(a, b) == Xor(b, a)
  {
  }

  lemma XorAssociates(a: bv32, b: bv32, c: bv32)
    ensures Xor(Xor(a, b), c) == Xor(a, Xor(b, c))
  {
  }

  lemma XorUnit(a: bv32, b: bv32)
    ensures Xor(a, 0) == a && Xor(a, a) == 0
    ensures Xor(a, b) == 0 ==> a == b
  {
  }

  lemma XorExchange(a: bv32, b: bv32, x: bv32, y: bv32)
    ensures Xor(Xor(a, b), Xor(x, y)) == Xor(Xor(a, x), Xor(b, y))
  {
    hide Xor;
    XorAssociates(a, b, Xor(x, y));
    XorAssociates(b, x, y);
    XorCommutes(b, x);
    XorAssociates(x, b, y);
    XorAssociates(a, x, Xor(b, y));
  }

  lemma FeedIsLinear(c: bool, d: bool, a: bv32, b: bv32)
    ensures Feed(c != d, Xor(a, b)) == Xor(Feed(c, a), Feed(d, b))
  {
    hide Xor;
    var x: bv32, y: bv32 := if c then 0x04c1_1db7 else 0, if d then 0x04c1_1db7 else 0;
    FeedIsXor(c, a);
    FeedIsXor(d, b);
    FeedIsXor(c != d, Xor(a, b));
    XorExchange(a, b, x, y);
    XorUnit(0x04c1_1db7, 0);
    XorUnit(0, 0);
    XorCommutes(0x04c1_1db7, 0);
  }

  lemma FeedIsXor(c: bool, a: bv32)
    ensures Feed(c, a) == Xor(a, if c then 0x04c1_1db7 else 0)
  {
    hide Xor;
    XorUnit(a, 0);
  }

  lemma ShiftIsLinear(a: bv32, b: bv32)
    ensures Shift(Xor(a, b)) == Xor(Shift(a), Shift(b))
  {
    hide Up, High, Feed, Xor;
    UpIsLinear(a, b);
    HighIsLinear(a, b);
    FeedIsLinear(High(a), High(b), Up(a), Up(b));
  }

  lemma {:induction false} TimesIsLinear(n: nat, a: bv32, b: bv32)
    ensures Times(n, Xor(a, b)) == Xor(Times(n, a), Times(n, b))
  {
    hide Shift, Xor;
    if n > 0 {
      TimesIsLinear(n - 1, a, b);
      ShiftIsLinear(Times(n - 1, a), Times(n - 1, b));
    }
  }

  lemma TopIsLinear(x: Byte, y: Byte)
    ensures Top(x ^ y) == Xor(Top(x), Top(y))
  {
  }

  function Differences(p: seq<Byte>, q: seq<Byte>): (d: seq<Byte>)
    requires |p| == |q|
    ensures |d| == |p| && forall i :: 0 <= i < |d| ==> d[i] == p[i] ^ q[i]
  {
    seq(|p|, i requires 0 <= i < |p| => p[i] ^ q[i])
  }

  /** The checksum is linear: it sees only where two pages differ. */
  lemma {:induction false} FromIsLinear(s: bv32, t: bv32, p: seq<Byte>, q: seq<Byte>)
    requires |p| == |q|
    ensures From(Xor(s, t), Differences(p, q)) == Xor(From(s, p), From(t, q))
  {
    hide Times, Xor, Top;
    if p != [] {
      var n := |p| - 1;
      assert Differences(p, q)[..n] == Differences(p[..n], q[..n]);
      FromIsLinear(s, t, p[..n], q[..n]);
      LastIsLinear(From(s, p[..n]), From(t, q[..n]), p[n], q[n]);
    }
  }

  lemma LastIsLinear(s: bv32, t: bv32, x: Byte, y: Byte)
    ensures Absorb(Xor(s, t), x ^ y) == Xor(Absorb(s, x), Absorb(t, y))
  {
    hide Times, Xor, Top;
    TopIsLinear(x, y);
    XorExchange(s, t, Top(x), Top(y));
    TimesIsLinear(8, Xor(s, Top(x)), Xor(t, Top(y)));
  }

  // ---------------------------------------------------------------- every burst of up to four bytes shows

  lemma ClearFour(s: bv32)
    requires s & 0xf000_0000 == 0
    ensures !High(s) && !High(Up(s)) && !High(Up(Up(s))) && !High(Up(Up(Up(s))))
  {
  }

  lemma Plain(s: bv32)
    requires !High(s)
    ensures Shift(s) == Up(s)
  {
    hide High, Up;
  }

  lemma FourUps(s: bv32)
    ensures Up(Up(Up(Up(s)))) == s << 4
  {
  }

  /** While the leading bits are clear, a shift only moves the register up. */
  lemma MovesUpFour(s: bv32)
    requires s & 0xf000_0000 == 0
    ensures Times(4, s) == s << 4
  {
    hide High, Up, Feed;
    ClearFour(s);
    FourUps(s);
    Plain(s);
    assert Times(1, s) == Up(s);
    Plain(Up(s));
    assert Times(2, s) == Up(Up(s));
    Plain(Up(Up(s)));
    assert Times(3, s) == Up(Up(Up(s)));
    Plain(Up(Up(Up(s))));
  }

  lemma MovesUp(s: bv32)
    requires s & 0xff00_0000 == 0
    ensures Times(8, s) == s << 8
  {
    hide Times;
    MovesUpFour(s);
    MovesUpFour(s << 4);
    TimesAdds(4, 4, s);
  }

  lemma {:induction false} TimesAdds(n: nat, m: nat, s: bv32)
    ensures Times(n, Times(m, s)) == Times(n + m, s)
  {
    hide Shift;
    if n > 0 {
      TimesAdds(n - 1, m, s);
    }
  }

  /** The byte at place `i` of a word of four. */
  function Place(i: nat, b: Byte): bv32
    requires i < 4
  {
    if i == 0 then Top(b)
    else if i == 1 then (b as bv32) << 16
    else if i == 2 then (b as bv32) << 8
    else b as bv32
  }

  lemma PlaceMoves(i: nat, b: Byte)
    requires 0 < i < 4
    ensures Times(8, Place(i, b)) == Place(i - 1, b)
  {
    hide Times;
    MovesUp(Place(i, b));
  }

  lemma {:induction false} PlaceIsMovedTop(i: nat, b: Byte)
    requires i < 4
    ensures Times(8 * i, Place(i, b)) == Top(b)
  {
    hide Times, Top;
    if i > 0 {
      PlaceMoves(i, b);
      PlaceIsMovedTop(i - 1, b);
      TimesAdds(8 * (i - 1), 8, Place(i, b));
    } else {
      TimesNone(Top(b));
    }
  }

  lemma TimesNone(s: bv32)
    ensures Times(0, s) == s
  {
  }

  function Word(e: seq<Byte>): bv32
    requires |e| <= 4
  {
    if e == [] then 0 else Xor(Word(e[..|e| - 1]), Place(|e| - 1, e[|e| - 1]))
  }

  lemma {:induction false} FromIsMovedWord(e: seq<Byte>)
    requires |e| <= 4
    ensures From(0, e) == Times(8 * |e|, Word(e))
  {
    hide Times, Xor, Top, Place;
    if e == [] {
      TimesNone(0);
    } else {
      var n := |e| - 1;
      var w, b := Word(e[..n]), e[n];
      FromIsMovedWord(e[..n]);
      PlaceIsMovedTop(n, b);
      TimesIsLinear(8 * n, w, Place(n, b));
      TimesAdds(8, 8 * n, Xor(w, Place(n, b)));
    }
  }

  lemma {:induction false} ZeroStays(n: nat)
    ensures Times(n, 0) == 0
  {
    if n > 0 {
      ZeroStays(n - 1);
    }
  }

  ghost predicate Blank(e: seq<Byte>) { forall i :: 0 <= i < |e| ==> e[i] == 0 }

  /** The places of a word from `n` on. */
  function Below(n: nat): bv32
    requires n <= 4
  {
    if n == 0 then 0xffff_ffff else if n == 1 then 0xff_ffff else if n == 2 then 0xffff else if n == 3 then 0xff else 0
  }

  lemma PlaceShows(n: nat, w: bv32, b: Byte)
    requires n < 4 && w & Below(n) == 0
    ensures Xor(w, Place(n, b)) & Below(n + 1) == 0
    ensures Xor(w, Place(n, b)) == 0 ==> w == 0 && b == 0
  {
  }

  lemma {:induction false} WordShows(e: seq<Byte>)
    requires |e| <= 4
    ensures Word(e) & Below(|e|) == 0
    ensures Word(e) == 0 ==> Blank(e)
  {
    hide Xor, Place, Below;
    if e == [] {
      assert 0 & Below(0) == 0;
    } else {
      var n := |e| - 1;
      WordShows(e[..n]);
      PlaceShows(n, Word(e[..n]), e[n]);
      assert e == e[..n] + [e[n]];
    }
  }

  lemma {:induction false} FromSplits(s: bv32, p: seq<Byte>, k: nat)
    requires k <= |p|
    ensures From(s, p) == From(From(s, p[..k]), p[k..])
  {
    hide Absorb;
    if k < |p| {
      var n := |p| - 1;
      assert p[..n][..k] == p[..k] && p[..n][k..] == p[k..][..n - k];
      FromSplits(s, p[..n], k);
    } else {
      assert p[..k] == p;
    }
  }

  /** Over bytes that do not differ, a register difference neither appears nor disappears. */
  lemma {:induction false} BlankKeeps(s: bv32, e: seq<Byte>)
    requires Blank(e)
    ensures From(s, e) == 0 <==> s == 0
  {
    hide Times, Xor;
    if e != [] {
      var n := |e| - 1;
      BlankKeeps(s, e[..n]);
      var t := From(s, e[..n]);
      XorUnit(t, 0);
      assert Top(0) == 0;
      ZeroStays(8);
      if Times(8, t) == 0 {
        TimesIsOneToOne(8, t, 0);
      }
    }
  }

  /** Two pages that differ only within four consecutive bytes never share a checksum. */
  lemma BurstShows(p: seq<Byte>, q: seq<Byte>, k: nat, m: nat)
    requires |p| == |q| && m <= 4 && k + m <= |p|
    requires p[..k] == q[..k] && p[k + m..] == q[k + m..]
    requires p != q
    ensures Crc(p) != Crc(q)
  {
    hide From, Xor, Word;
    var d := Differences(p, q);
    var e := d[k..][..m];
    FromIsLinear(0, 0, p, q);
    XorUnit(0, 0);
    XorUnit(Crc(p), Crc(q));
    FromSplits(0, d, k);
    FromSplits(0, d[k..], m);
    SameIsBlank(p, q, 0, k);
    SameIsBlank(p, q, k + m, |p|);
    assert d[..k] == d[0..k] && d[k..][m..] == d[k + m..|p|];
    BlankKeeps(0, d[..k]);
    BlankKeeps(From(0, e), d[k..][m..]);
    if Crc(p) == Crc(q) {
      FromIsMovedWord(e);
      ZeroStays(8 * m);
      TimesIsOneToOne(8 * m, Word(e), 0);
      WordShows(e);
      BlankIsSame(p, q, k, m);
    }
  }

  lemma SameIsBlank(p: seq<Byte>, q: seq<Byte>, i: nat, j: nat)
    requires |p| == |q| && i <= j <= |p| && p[i..j] == q[i..j]
    ensures Blank(Differences(p, q)[i..j])
  {
    forall x | 0 <= x < j - i ensures Differences(p, q)[i..j][x] == 0 {
      assert p[i + x] == p[i..j][x] == q[i..j][x] == q[i + x];
    }
  }

  lemma BlankIsSame(p: seq<Byte>, q: seq<Byte>, k: nat, m: nat)
    requires |p| == |q| && k + m <= |p| && Blank(Differences(p, q)[k..][..m])
    requires p[..k] == q[..k] && p[k + m..] == q[k + m..]
    ensures p == q
  {
    forall x | 0 <= x < |p| ensures p[x] == q[x] {
      if x < k {
        assert p[x] == p[..k][x] == q[..k][x];
      } else if x < k + m {
        assert Differences(p, q)[k..][..m][x - k] == p[x] ^ q[x];
      } else {
        assert p[x] == p[k + m..][x - k - m] == q[k + m..][x - k - m];
      }
    }
  }

  // ---------------------------------------------------------------- which division it is

  /** Leading zero bytes do not count: the division starts from an empty register. */
  lemma LeadingZerosDoNotCount(z: seq<Byte>, p: seq<Byte>)
    requires Blank(z)
    ensures Crc(z + p) == Crc(p)
  {
    hide From;
    BlankKeeps(0, z);
    FromSplits(0, z + p, |z|);
    assert (z + p)[..|z|] == z && (z + p)[|z|..] == p;
  }

  lemma OneBitMoves()
    ensures Times(7, 0x0100_0000) == 0x8000_0000 && Shift(0x8000_0000) == 0x04c1_1db7
  {
    hide Times;
    MovesUpFour(0x0100_0000);
    TimesAdds(3, 4, 0x0100_0000);
    LastThree();
  }

  lemma LastThree()
    ensures Times(3, 0x1000_0000) == 0x8000_0000
  {
    assert Times(1, 0x1000_0000) == 0x2000_0000;
    assert Times(2, 0x1000_0000) == 0x4000_0000;
  }

  /** A single one bit leaves the generator: what 2 to the power 32 is, divided by it. */
  lemma OneLeavesTheGenerator()
    ensures Crc([1]) == 0x04c1_1db7
  {
    hide Times, Shift, From;
    OneBitMoves();
    OneShift(0x0100_0000);
    TimesAdds(1, 7, 0x0100_0000);
    OneByte(0, 1);
    TopOfOne();
  }

  lemma OneShift(s: bv32)
    ensures Times(1, Times(7, s)) == Shift(Times(7, s))
  {
    hide Shift;
  }

  lemma TopOfOne()
    ensures Xor(0, Top(1)) == 0x0100_0000
  {
  }

  lemma OneByte(s: bv32, b: Byte)
    ensures From(s, [b]) == Absorb(s, b)
  {
    hide Absorb;
    assert [b][..0] == [];
    assert From(s, []) == s;
  }

  /** A zero byte more multiplies by 2 to the power 8. */
  lemma {:induction false} ZerosMultiply(s: bv32, z: seq<Byte>)
    requires Blank(z)
    ensures From(s, z) == Times(8 * |z|, s)
  {
    hide Times, Xor;
    if z == [] {
      TimesNone(s);
    } else {
      var n := |z| - 1;
      ZerosMultiply(s, z[..n]);
      XorUnit(From(s, z[..n]), 0);
      assert Top(0) == 0;
      TimesAdds(8, 8 * n, s);
    }
  }

  /** A page followed by four more bytes divides evenly exactly when those bytes are its checksum. */
  lemma ChecksumChecks(p: seq<Byte>, d: seq<Byte>)
    requires |d| == 4
    ensures Crc(p + d) == 0 <==> Word(d) == Crc(p)
  {
    hide From, Times, Xor, Word;
    var s, z := Crc(p), [0, 0, 0, 0];
    FromSplits(0, p + d, |p|);
    assert (p + d)[..|p|] == p && (p + d)[|p|..] == d;
    assert Differences(z, d) == d;
    FromIsLinear(s, 0, z, d);
    XorUnit(s, Word(d));
    ZerosMultiply(s, z);
    FromIsMovedWord(d);
    TimesIsLinear(32, s, Word(d));
    ZeroStays(32);
    if Times(32, Xor(s, Word(d))) == 0 {
      TimesIsOneToOne(32, Xor(s, Word(d)), 0);
    }
  }
}
