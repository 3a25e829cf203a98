/** Voice recordings: the bounded Ogg/Opus envelope, and the finaliser that completes the last page of one. */
module OggFinaliser {
  import opened OggCrc
  import opened Options

  datatype Fault =
    | AudioSize | OggPage | OggSegments | Truncated | OggChecksum | Chained
    | IncompletePacket | OggSequence | MonoRequired | AudioDuration | VoiceLimit

  datatype Result<T> = Ok(value: T) | Err(fault: Fault)

  const MAX_AUDIO := 131072
  const CAPTURE: seq<Byte> := [0x4f, 0x67, 0x67, 0x53, 0x00]
  const OPUS_HEAD: seq<Byte> := [0x4f, 0x70, 0x75, 0x73, 0x48, 0x65, 0x61, 0x64]
  const EOS: Byte := 4
  const NO_GRANULE := 0xffff_ffff_ffff_ffff
  const MAX_SAMPLES := 61 * 48000

  predicate Sized(raw: seq<Byte>) { 64 <= |raw| <= MAX_AUDIO }

  function Sum(bytes: seq<Byte>): nat {
    if bytes == [] then 0 else Sum(bytes[..|bytes| - 1]) + bytes[|bytes| - 1] as nat
  }

  /** A little-endian number. */
  function Number(bytes: seq<Byte>): nat {
    if bytes == [] then 0 else bytes[0] as nat + 256 * Number(bytes[1..])
  }

  // ---------------------------------------------------------------- one page

  function Header(raw: seq<Byte>, o: nat): nat
    requires o + 27 <= |raw|
  {
    o + 27 + raw[o + 26] as nat
  }

  function End(raw: seq<Byte>, o: nat): nat
    requires o + 27 <= |raw| && Header(raw, o) <= |raw|
  {
    Header(raw, o) + Sum(raw[o + 27..Header(raw, o)])
  }

  /** The page begins with the capture pattern, and its segment table and its body lie inside the file. */
  predicate Framed(raw: seq<Byte>, o: nat) {
    && o + 27 <= |raw|
    && raw[o..o + 5] == CAPTURE
    && Header(raw, o) <= |raw|
    && End(raw, o) <= |raw|
  }

  predicate Flagged(raw: seq<Byte>, o: nat)
    requires o + 5 < |raw|
  {
    raw[o + 5] & EOS != 0
  }

  /** The page with the four bytes of its checksum field replaced. */
  function Patched(page: seq<Byte>, a: Byte, b: Byte, c: Byte, d: Byte): (r: seq<Byte>)
    requires 26 <= |page|
    ensures |r| == |page| && forall i :: 0 <= i < |page| && !(22 <= i < 26) ==> r[i] == page[i]
    ensures r[22] == a && r[23] == b && r[24] == c && r[25] == d
  {
    page[..22] + [a, b, c, d] + page[26..]
  }

  function Zeroed(page: seq<Byte>): seq<Byte>
    requires 26 <= |page|
  {
    Patched(page, 0, 0, 0, 0)
  }

  /** The checksum field, bytes 22 to 25, least significant byte first. */
  function Stored(page: seq<Byte>): bv32
    requires 26 <= |page|
  {
    Joined(page[22], page[23], page[24], page[25])
  }

  function Joined(a: Byte, b: Byte, c: Byte, d: Byte): bv32 {
    (a as bv32) | ((b as bv32) << 8) | ((c as bv32) << 16) | ((d as bv32) << 24)
  }

  function Octet(c: bv32, k: nat): Byte {
    if k == 0 then (c & 0xff) as Byte
    else if k == 1 then ((c >> 8) & 0xff) as Byte
    else if k == 2 then ((c >> 16) & 0xff) as Byte
    else ((c >> 24) & 0xff) as Byte
  }

  function Sealed(page: seq<Byte>): seq<Byte>
    requires 26 <= |page|
  {
    var c := Crc(Zeroed(page));
    Patched(page, Octet(c, 0), Octet(c, 1), Octet(c, 2), Octet(c, 3))
  }

  lemma JoinedOctets(c: bv32)
    ensures Joined(Octet(c, 0), Octet(c, 1), Octet(c, 2), Octet(c, 3)) == c
  {
  }

  predicate Sound(page: seq<Byte>)
    requires 26 <= |page|
  {
    Stored(page) == Crc(Zeroed(page))
  }

  /** Sealing makes the checksum right and touches nothing else. */
  lemma SealedIsSound(page: seq<Byte>)
    requires 26 <= |page|
    ensures |Sealed(page)| == |page| && Sound(Sealed(page))
    ensures forall i :: 0 <= i < |page| && !(22 <= i < 26) ==> Sealed(page)[i] == page[i]
    ensures Sound(page) ==> Sealed(page) == page
  {
    hide Crc, Joined, Octet, Patched;
    var c := Crc(Zeroed(page));
    JoinedOctets(c);
    assert Zeroed(Sealed(page)) == Zeroed(page);
    if Sound(page) {
      OctetsJoined(page[22], page[23], page[24], page[25]);
      assert Sealed(page) == page;
    }
  }

  lemma OctetsJoined(a: Byte, b: Byte, c: Byte, d: Byte)
    ensures var w := Joined(a, b, c, d);
      Octet(w, 0) == a && Octet(w, 1) == b && Octet(w, 2) == c && Octet(w, 3) == d
  {
  }

  // ---------------------------------------------------------------- the pages of a recording

  /** What the finaliser refuses at one page. */
  function PageFault(raw: seq<Byte>, o: nat): Option<Fault>
    requires o <= |raw|
  {
    if o + 27 > |raw| || raw[o..o + 5] != CAPTURE then Some(OggPage)
    else if raw[o + 26] == 0 || Header(raw, o) > |raw| then Some(OggSegments)
    else if End(raw, o) > |raw| then Some(Truncated)
    else if !Sound(raw[o..End(raw, o)]) then Some(OggChecksum)
    else if Flagged(raw, o) && End(raw, o) != |raw| then Some(Chained)
    else None
  }

  /** The offsets of the pages from `o` on, when every one of them is accepted. */
  function Pages(raw: seq<Byte>, o: nat): (r: Result<seq<nat>>)
    requires o <= |raw|
    ensures r.Ok? && o < |raw| ==> r.value != [] && r.value[0] == o
    decreases |raw| - o
  {
    if o == |raw| then Ok([])
    else match PageFault(raw, o)
      case Some(fault) => Err(fault)
      case None =>
        match Pages(raw, End(raw, o))
        case Err(fault) => Err(fault)
        case Ok(rest) => Ok([o] + rest)
  }

  function Marked(b: Byte): Byte { b | EOS }

  lemma MarkedFlags(b: Byte)
    ensures Marked(b) & EOS != 0 && Marked(b) & 0xfb == b & 0xfb
    ensures b & EOS != 0 ==> Marked(b) == b
  {
  }

  /** The recording with its last page, at `last`, flagged as the end of the stream and sealed again. */
  function Completed(raw: seq<Byte>, last: nat): seq<Byte>
    requires last + 27 <= |raw|
  {
    raw[..last] + Sealed(raw[last..][5 := Marked(raw[last + 5])])
  }

  // ---------------------------------------------------------------- the bounded envelope

  datatype Meter = Meter(offset: nat, sequence: nat, serial: Option<nat>, last: nat, skip: Option<nat>, eos: bool)

  const START := Meter(0, 0, None, 0, None, false)

  predicate OpusHead(packet: seq<Byte>) {
    |packet| == 19 && packet[..8] == OPUS_HEAD && packet[8] == 1 && packet[9] == 1 && packet[18] == 0
  }

  function Advance(raw: seq<Byte>, m: Meter): (r: Result<Meter>)
    requires m.offset < |raw|
    ensures r.Ok? ==> m.offset < r.value.offset <= |raw| && r.value.sequence == m.sequence + 1
    ensures r.Ok? && (m.sequence == 0 || m.skip.Some?) ==> r.value.skip.Some?
  {
    var o := m.offset;
    if o + 27 > |raw| || raw[o..o + 5] != CAPTURE then Err(OggPage)
    else if Header(raw, o) > |raw| then Err(OggSegments)
    else if End(raw, o) > |raw| then Err(Truncated)
    else
      var serial := Number(raw[o + 14..o + 18]);
      if (m.serial.Some? && m.serial.value != serial) || Number(raw[o + 18..o + 22]) != m.sequence then Err(OggSequence)
      else
        var packet := raw[Header(raw, o)..End(raw, o)];
        if m.sequence == 0 && !OpusHead(packet) then Err(MonoRequired)
        else
          var skip := if m.sequence == 0 then Some(Number(packet[10..12])) else m.skip;
          var granule := Number(raw[o + 6..o + 14]);
          if granule != NO_GRANULE && granule < m.last then Err(AudioDuration)
          else
            var last := if granule != NO_GRANULE then granule else m.last;
            if Flagged(raw, o) && End(raw, o) != |raw| then Err(Chained)
            else Ok(Meter(End(raw, o), m.sequence + 1, Some(serial), last, skip, Flagged(raw, o)))
  }

  function Measure(raw: seq<Byte>, m: Meter): (r: Result<Meter>)
    requires m.offset <= |raw| && (m.sequence == 0 || m.skip.Some?)
    ensures r.Ok? ==> r.value.offset == |raw|
    ensures r.Ok? && m.offset < |raw| ==> r.value.skip.Some?
    decreases |raw| - m.offset
  {
    if m.offset == |raw| then Ok(m)
    else match Advance(raw, m)
      case Err(fault) => Err(fault)
      case Ok(next) => Measure(raw, next)
  }

  /** The playing time in samples at 48 kHz, when the envelope is whole and within the limit. */
  function Duration(raw: seq<Byte>): Result<nat> {
    if !Sized(raw) then Err(AudioSize)
    else match Measure(raw, START)
      case Err(fault) => Err(fault)
      case Ok(m) =>
        if m.eos && 0 < m.last - m.skip.value <= MAX_SAMPLES then Ok(m.last - m.skip.value) else Err(VoiceLimit)
  }

  function Finalised(raw: seq<Byte>): Result<seq<Byte>> {
    if !Sized(raw) then Err(AudioSize)
    else match Pages(raw, 0)
      case Err(fault) => Err(fault)
      case Ok(pages) =>
        var last := pages[|pages| - 1];
        LastPage(raw, 0);
        if raw[Header(raw, last) - 1] == 255 then Err(IncompletePacket)
        else
          var out := if Flagged(raw, last) then raw else Completed(raw, last);
          match Duration(out)
          case Err(fault) => Err(fault)
          case Ok(_) => Ok(out)
  }

  lemma {:induction false} LastPage(raw: seq<Byte>, o: nat)
    requires o < |raw| && Pages(raw, o).Ok?
    ensures var pages := Pages(raw, o).value; var last := pages[|pages| - 1];
      && o <= last < |raw| && PageFault(raw, last).None? && End(raw, last) == |raw|
      && (|pages| > 1 ==> End(raw, o) <= last)
    decreases |raw| - o
  {
    if End(raw, o) < |raw| {
      LastPage(raw, End(raw, o));
    }
  }

  // ---------------------------------------------------------------- completing a recording changes nothing else

  /** The files agree except at the flags and the checksum of the page at `last`. */
  ghost predicate Alike(raw: seq<Byte>, out: seq<Byte>, last: nat) {
    && |out| == |raw|
    && last + 27 <= |raw|
    && forall i :: 0 <= i < |raw| && i != last + 5 && !(last + 22 <= i < last + 26) ==> out[i] == raw[i]
  }

  lemma AlikeBetween(raw: seq<Byte>, out: seq<Byte>, last: nat, i: nat, j: nat)
    requires Alike(raw, out, last) && i <= j <= |raw|
    requires j <= last || (last <= i && j <= last + 5) || (last + 6 <= i && j <= last + 22) || last + 26 <= i
    ensures out[i..j] == raw[i..j]
  {
  }

  lemma CompletedIsAlike(raw: seq<Byte>, last: nat)
    requires last + 27 <= |raw|
    ensures Alike(raw, Completed(raw, last), last)
    ensures Completed(raw, last)[last + 5] == Marked(raw[last + 5])
    ensures Sound(Completed(raw, last)[last..])
  {
    hide Sealed, Sound, Marked;
    var page := raw[last..][5 := Marked(raw[last + 5])];
    SealedIsSound(page);
    var out := Completed(raw, last);
    assert out[last..] == Sealed(page);
    forall i | 0 <= i < |raw| && i != last + 5 && !(last + 22 <= i < last + 26) ensures out[i] == raw[i] {
      if i >= last {
        assert out[i] == Sealed(page)[i - last] == page[i - last];
      }
    }
  }

  lemma FramingAgrees(raw: seq<Byte>, out: seq<Byte>, last: nat, o: nat)
    requires Alike(raw, out, last) && Framed(raw, o)
    requires o == last || End(raw, o) <= last
    ensures Framed(out, o) && out[o + 26] == raw[o + 26]
    ensures Header(out, o) == Header(raw, o) && End(out, o) == End(raw, o)
  {
    hide Sum;
    AlikeBetween(raw, out, last, o, o + 5);
    AlikeBetween(raw, out, last, o + 27, Header(raw, o));
  }

  lemma EarlierPageAgrees(raw: seq<Byte>, out: seq<Byte>, last: nat, o: nat)
    requires Alike(raw, out, last) && o < |raw| && PageFault(raw, o).None? && End(raw, o) <= last
    ensures PageFault(out, o).None? && End(out, o) == End(raw, o)
  {
    hide Sound, Sum;
    FramingAgrees(raw, out, last, o);
    AlikeBetween(raw, out, last, o, End(raw, o));
    assert out[o + 5] == raw[o + 5];
  }

  lemma LastPageAgrees(raw: seq<Byte>, out: seq<Byte>, last: nat)
    requires Alike(raw, out, last) && PageFault(raw, last).None? && End(raw, last) == |raw|
    requires Sound(out[last..])
    ensures PageFault(out, last).None? && End(out, last) == |out|
  {
    hide Sound, Sum;
    FramingAgrees(raw, out, last, last);
    assert out[last..|out|] == out[last..];
  }

  /** Every page boundary survives, and every page checks again. */
  lemma {:induction false} PagesAgree(raw: seq<Byte>, out: seq<Byte>, last: nat, o: nat)
    requires o < |raw| && Pages(raw, o).Ok? && last == Pages(raw, o).value[|Pages(raw, o).value| - 1]
    requires Alike(raw, out, last) && Sound(out[last..])
    ensures Pages(out, o) == Pages(raw, o)
    decreases |raw| - o
  {
    hide Sound, PageFault, Sum;
    LastPage(raw, o);
    var end := End(raw, o);
    if end < |raw| {
      EarlierPageAgrees(raw, out, last, o);
      PagesAgree(raw, out, last, end);
    } else {
      LastPageAgrees(raw, out, last);
    }
  }

  lemma AdvanceAgrees(raw: seq<Byte>, out: seq<Byte>, last: nat, m: Meter)
    requires m.offset < |raw| && Alike(raw, out, last) && PageFault(raw, m.offset).None?
    requires End(raw, m.offset) <= last || (m.offset == last && End(raw, last) == |raw|)
    ensures match Advance(raw, m)
      case Err(fault) => Advance(out, m) == Err(fault)
      case Ok(next) => Advance(out, m) == Ok(next.(eos := Flagged(out, m.offset)))
  {
    hide Sound, Sum, Number, OpusHead;
    var o := m.offset;
    FramingAgrees(raw, out, last, o);
    AlikeBetween(raw, out, last, o + 6, o + 14);
    AlikeBetween(raw, out, last, o + 14, o + 18);
    AlikeBetween(raw, out, last, o + 18, o + 22);
    AlikeBetween(raw, out, last, Header(raw, o), End(raw, o));
    if o != last {
      assert out[o + 5] == raw[o + 5];
    }
  }

  /** The envelope reads the same, but for the end of the stream being marked. */
  lemma {:induction false} MeasureAgrees(raw: seq<Byte>, out: seq<Byte>, last: nat, m: Meter)
    requires m.offset < |raw| && (m.sequence == 0 || m.skip.Some?)
    requires Pages(raw, m.offset).Ok? && last == Pages(raw, m.offset).value[|Pages(raw, m.offset).value| - 1]
    requires Alike(raw, out, last) && Flagged(out, last)
    ensures match Measure(raw, m)
      case Err(fault) => Measure(out, m) == Err(fault)
      case Ok(end) => Measure(out, m) == Ok(end.(eos := true))
    decreases |raw| - m.offset
  {
    hide Advance, Sum, PageFault;
    LastPage(raw, m.offset);
    AdvanceAgrees(raw, out, last, m);
    if Advance(raw, m).Ok? {
      AdvanceEnds(raw, m);
      var next := Advance(raw, m).value;
      if next.offset < |raw| {
        EarlierFlag(raw, out, last, m.offset);
        MeasureAgrees(raw, out, last, next);
      }
    }
  }

  lemma AdvanceEnds(raw: seq<Byte>, m: Meter)
    requires m.offset < |raw| && Advance(raw, m).Ok?
    ensures Framed(raw, m.offset) && Advance(raw, m).value.offset == End(raw, m.offset)
    ensures Advance(raw, m).value.eos == Flagged(raw, m.offset)
  {
  }

  lemma EarlierFlag(raw: seq<Byte>, out: seq<Byte>, last: nat, o: nat)
    requires o < |raw| && Alike(raw, out, last) && PageFault(raw, o).None? && End(raw, o) <= last
    ensures Flagged(out, o) == Flagged(raw, o)
  {
  }

  ghost function Last(raw: seq<Byte>): nat
    requires 0 < |raw| && Pages(raw, 0).Ok?
  {
    Pages(raw, 0).value[|Pages(raw, 0).value| - 1]
  }

  /** What a recording must be for finalising to succeed: nothing about the end-of-stream flag of its last page. */
  ghost predicate Whole(raw: seq<Byte>) {
    && Sized(raw)
    && Pages(raw, 0).Ok?
    && (LastPage(raw, 0); raw[Header(raw, Last(raw)) - 1] != 255)
    && var m := Measure(raw, START);
       m.Ok? && 0 < m.value.last - m.value.skip.value <= MAX_SAMPLES
  }

  lemma CompletedReadsAlike(raw: seq<Byte>)
    requires Sized(raw) && Pages(raw, 0).Ok?
    ensures Last(raw) + 27 <= |raw|
    ensures var out := Completed(raw, Last(raw));
      && Pages(out, 0) == Pages(raw, 0)
      && match Measure(raw, START)
         case Err(fault) => Measure(out, START) == Err(fault)
         case Ok(end) => Measure(out, START) == Ok(end.(eos := true))
  {
    hide Sealed, Sound, Measure, Completed;
    LastPage(raw, 0);
    var last := Last(raw);
    var out := Completed(raw, last);
    CompletedIsAlike(raw, last);
    MarkedFlags(raw[last + 5]);
    PagesAgree(raw, out, last, 0);
    MeasureAgrees(raw, out, last, START);
  }

  /** Both outcomes of the finaliser, by whether the last page was flagged already. */
  lemma LastPageOutcome(raw: seq<Byte>)
    requires Sized(raw) && Pages(raw, 0).Ok?
    ensures var last := Last(raw);
      && last + 27 <= |raw|
      && Alike(raw, raw, last)
      && (Flagged(raw, last) ==> Marked(raw[last + 5]) == raw[last + 5])
      && var out := Completed(raw, last);
      && Alike(raw, out, last)
      && out[last + 5] == Marked(raw[last + 5])
      && Flagged(out, last)
      && 0 < Header(raw, last) <= |raw|
      && Header(out, last) == Header(raw, last)
      && out[Header(raw, last) - 1] == raw[Header(raw, last) - 1]
  {
    hide Completed, Sound, Marked, Flagged, Pages, Header, Sum, End;
    LastPage(raw, 0);
    var last := Last(raw);
    LastIsFramed(raw, last);
    CompletedIsAlike(raw, last);
    FlaggedMarks(raw, last);
    FlaggedMarks(Completed(raw, last), last);
    LacingAgrees(raw, Completed(raw, last), last);
  }

  lemma LastIsFramed(raw: seq<Byte>, last: nat)
    requires last < |raw| && PageFault(raw, last).None?
    ensures last + 27 <= |raw| && Framed(raw, last)
  {
  }

  lemma FlaggedMarks(raw: seq<Byte>, o: nat)
    requires o + 5 < |raw|
    ensures Flagged(raw, o) ==> Marked(raw[o + 5]) == raw[o + 5]
    ensures (exists b: Byte :: raw[o + 5] == Marked(b)) ==> Flagged(raw, o)
  {
    hide Marked;
    MarkedFlags(raw[o + 5]);
    forall b: Byte | raw[o + 5] == Marked(b) ensures Flagged(raw, o) {
      MarkedFlags(b);
    }
  }

  lemma LacingAgrees(raw: seq<Byte>, out: seq<Byte>, last: nat)
    requires Alike(raw, out, last) && Framed(raw, last)
    ensures Header(out, last) == Header(raw, last) && 0 < Header(raw, last) <= |raw|
    ensures out[Header(raw, last) - 1] == raw[Header(raw, last) - 1]
  {
    hide Sum;
    FramingAgrees(raw, out, last, last);
  }

  /** Finalising succeeds exactly on whole recordings, and the time is the one the recording already carried. */
  lemma FinalisedExactly(raw: seq<Byte>)
    ensures Finalised(raw).Ok? <==> Whole(raw)
    ensures Finalised(raw).Ok? ==>
      var m := Measure(raw, START).value; Duration(Finalised(raw).value) == Ok(m.last - m.skip.value)
  {
    hide Completed, Measure, Pages, Flagged, PageFault, Sum, Header, End, Framed, Alike, Sound, Marked;
    if Sized(raw) && Pages(raw, 0).Ok? {
      LastPageOutcome(raw);
      CompletedKeepsSize(raw, Last(raw));
      CompletedReadsAlike(raw);
      if Measure(raw, START).Ok? {
        FlaggedReads(raw);
      }
    }
  }

  lemma CompletedKeepsSize(raw: seq<Byte>, last: nat)
    requires last + 27 <= |raw|
    ensures |Completed(raw, last)| == |raw|
  {
    CompletedIsAlike(raw, last);
  }

  /** A last page already flagged leaves the end of the stream marked. */
  lemma FlaggedReads(raw: seq<Byte>)
    requires Sized(raw) && Pages(raw, 0).Ok? && Measure(raw, START).Ok?
    ensures Last(raw) + 27 <= |raw| && (Flagged(raw, Last(raw)) ==> Measure(raw, START).value.eos)
  {
    hide Measure;
    LastPage(raw, 0);
    if Flagged(raw, Last(raw)) {
      MeasureAgrees(raw, raw, Last(raw), START);
    }
  }

  /** Only the flags and the checksum of the last page change, every boundary stays, and a second pass
      changes nothing. */
  lemma FinalisedKeeps(raw: seq<Byte>)
    ensures match Finalised(raw)
      case Err(_) => true
      case Ok(out) =>
        && 0 < |raw| == |out| && Pages(raw, 0).Ok? && Last(raw) + 5 < |raw|
        && Alike(raw, out, Last(raw))
        && out[Last(raw) + 5] == Marked(raw[Last(raw) + 5])
        && Pages(out, 0) == Pages(raw, 0)
        && Finalised(out) == Ok(out)
  {
    hide Completed, Measure, Pages, Flagged, PageFault, Sum, Header, End, Framed, Alike, Sound, Marked;
    if Finalised(raw).Ok? {
      LastPageOutcome(raw);
      CompletedKeepsSize(raw, Last(raw));
      CompletedReadsAlike(raw);
    }
  }

  // ---------------------------------------------------------------- damage

  /** The files differ, and only within the `m` bytes from `at` on. */
  ghost predicate Damaged(raw: seq<Byte>, bad: seq<Byte>, at: nat, m: nat) {
    && |bad| == |raw|
    && bad != raw
    && forall i :: 0 <= i < |raw| && !(at <= i < at + m) ==> bad[i] == raw[i]
  }

  /** Up to four damaged bytes in a row, in the header after the capture pattern or in the body, are always noticed. */
  lemma DamageIsNoticed(raw: seq<Byte>, bad: seq<Byte>, o: nat, k: nat, m: nat)
    requires o < |raw| && PageFault(raw, o).None? && Damaged(raw, bad, o + k, m) && m <= 4
    requires (5 <= k && k + m <= 22) || (Header(raw, o) <= o + k && o + k + m <= End(raw, o))
    ensures PageFault(bad, o) == Some(OggChecksum)
  {
    hide Sound, Sum, Crc, Joined;
    assert bad[o..o + 5] == raw[o..o + 5];
    assert bad[o + 27..Header(raw, o)] == raw[o + 27..Header(raw, o)];
    DamageIsUnsound(raw, bad, o, End(raw, o), k, m);
  }

  lemma DamageIsUnsound(raw: seq<Byte>, bad: seq<Byte>, o: nat, end: nat, k: nat, m: nat)
    requires o + 26 <= end <= |raw| && Damaged(raw, bad, o + k, m) && m <= 4
    requires k + m <= 22 || (26 <= k && o + k + m <= end)
    requires Sound(raw[o..end])
    ensures !Sound(bad[o..end])
  {
    hide Sound;
    var p, q := raw[o..end], bad[o..end];
    forall x | 0 <= x < |p| && !(k <= x < k + m) ensures p[x] == q[x] {
      assert p[x] == raw[o + x] && q[x] == bad[o + x];
    }
    var i :| 0 <= i < |raw| && bad[i] != raw[i];
    assert p[i - o] != q[i - o];
    PageDamageIsUnsound(p, q, k, m);
  }

  lemma PageDamageIsUnsound(p: seq<Byte>, q: seq<Byte>, k: nat, m: nat)
    requires 26 <= |p| == |q| && p != q && m <= 4 && k + m <= |p| && (k + m <= 22 || 26 <= k)
    requires forall x | 0 <= x < |p| && !(k <= x < k + m) :: p[x] == q[x]
    requires Sound(p)
    ensures !Sound(q)
  {
    hide Crc, Joined, Patched;
    var a, b := Zeroed(p), Zeroed(q);
    forall x | 0 <= x < |p| && !(k <= x < k + m) ensures a[x] == b[x] {
      if 22 <= x < 26 {
        assert x == 22 || x == 23 || x == 24 || x == 25;
      }
    }
    assert a[..k] == b[..k];
    assert a[k + m..] == b[k + m..];
    var i :| 0 <= i < |p| && p[i] != q[i];
    assert a[i] != b[i];
    BurstShows(a, b, k, m);
    assert p[22] == q[22] && p[23] == q[23] && p[24] == q[24] && p[25] == q[25];
  }

  // ---------------------------------------------------------------- the codec's loops

  method SumOf(bytes: seq<Byte>) returns (total: nat)
    ensures total == Sum(bytes)
  {
    total := 0;
    for i := 0 to |bytes|
      invariant total == Sum(bytes[..i])
    {
      assert bytes[..i + 1][..i] == bytes[..i];
      total := total + bytes[i] as nat;
    }
    assert bytes[..|bytes|] == bytes;
  }

  /** Where a page's body lies, or why it lies outside the file. */
  method FramePage(raw: seq<Byte>, o: nat) returns (fault: Option<Fault>, header: nat, end: nat)
    requires o < |raw|
    ensures fault.None? <==> Framed(raw, o)
    ensures fault.None? ==> header == Header(raw, o) && end == End(raw, o)
    ensures fault.Some? ==> forall m: Meter | m.offset == o :: Advance(raw, m) == Err(fault.value)
  {
    hide Sum, Number, OpusHead, Flagged;
    fault, header, end := None, 0, 0;
    if o + 27 > |raw| || raw[o..o + 5] != CAPTURE {
      fault := Some(OggPage);
      return;
    }
    header := o + 27 + raw[o + 26] as nat;
    if header > |raw| {
      fault := Some(OggSegments);
      return;
    }
    var body := SumOf(raw[o + 27..header]);
    end := header + body;
    if end > |raw| {
      fault := Some(Truncated);
    }
  }

  /** One round of the envelope check. */
  method ReadPage(raw: seq<Byte>, m: Meter) returns (r: Result<Meter>)
    requires m.offset < |raw|
    ensures r == Advance(raw, m)
  {
    hide Number, OpusHead, Flagged, End;
    var o := m.offset;
    var fault, header, end := FramePage(raw, o);
    if fault.Some? {
      return Err(fault.value);
    }
    var page := Number(raw[o + 14..o + 18]);
    var serial := if m.serial.None? then page else m.serial.value;
    if page != serial || Number(raw[o + 18..o + 22]) != m.sequence {
      return Err(OggSequence);
    }
    var skip := m.skip;
    if m.sequence == 0 {
      BodyFollows(raw, o);
      var packet := raw[header..end];
      if !OpusHead(packet) {
        return Err(MonoRequired);
      }
      HeadSize(packet);
      skip := Some(Number(packet[10..12]));
    }
    var granule, last := Number(raw[o + 6..o + 14]), m.last;
    if granule != NO_GRANULE {
      if granule < last {
        return Err(AudioDuration);
      }
      last := granule;
    }
    var eos := Flagged(raw, o);
    if eos && end != |raw| {
      return Err(Chained);
    }
    r := Ok(Meter(end, m.sequence + 1, Some(serial), last, skip, eos));
  }

  lemma BodyFollows(raw: seq<Byte>, o: nat)
    requires Framed(raw, o)
    ensures Header(raw, o) <= End(raw, o)
  {
  }

  /** The envelope check, page by page. */
  method OpusDuration(raw: seq<Byte>) returns (r: Result<nat>)
    ensures r == Duration(raw)
  {
    hide Advance;
    if !(64 <= |raw| <= MAX_AUDIO) {
      return Err(AudioSize);
    }
    var m := START;
    while m.offset < |raw|
      invariant m.offset <= |raw| && (m.sequence == 0 || m.skip.Some?) && (m.sequence == 0 ==> m.offset == 0)
      invariant Measure(raw, START) == Measure(raw, m)
      decreases |raw| - m.offset
    {
      var next := ReadPage(raw, m);
      if next.Err? {
        return Err(next.fault);
      }
      m := next.value;
    }
    var time := m.last - m.skip.value;
    r := if !m.eos || !(0 < time <= MAX_SAMPLES) then Err(VoiceLimit) else Ok(time);
  }

  lemma HeadSize(packet: seq<Byte>)
    requires OpusHead(packet)
    ensures |packet| == 19
  {
  }

  ghost function Following(seen: seq<nat>, r: Result<seq<nat>>): Result<seq<nat>> {
    match r case Err(fault) => Err(fault) case Ok(rest) => Ok(seen + rest)
  }

  lemma FollowingNone(r: Result<seq<nat>>)
    ensures Following([], r) == r
  {
    if r.Ok? {
      assert [] + r.value == r.value;
    }
  }

  lemma FollowingOne(seen: seq<nat>, o: nat, r: Result<seq<nat>>)
    ensures Following(seen + [o], r)
      == Following(seen, match r case Err(fault) => Err(fault) case Ok(rest) => Ok([o] + rest))
  {
    if r.Ok? {
      assert seen + [o] + r.value == seen + ([o] + r.value);
    }
  }

  /** One round of the finaliser's check. */
  method CheckPage(raw: seq<Byte>, o: nat) returns (fault: Option<Fault>, header: nat, end: nat)
    requires o < |raw|
    ensures fault == PageFault(raw, o)
    ensures fault.None? ==>
      o + 27 <= |raw| && header == Header(raw, o) <= |raw| && end == End(raw, o) && o < end <= |raw|
  {
    hide Sum, Crc, Patched, Joined;
    header, end := 0, 0;
    if o + 27 > |raw| || raw[o..o + 5] != CAPTURE {
      return Some(OggPage), header, end;
    }
    var count := raw[o + 26];
    header := o + 27 + count as nat;
    if count == 0 || header > |raw| {
      return Some(OggSegments), header, end;
    }
    var body := SumOf(raw[o + 27..header]);
    end := header + body;
    if end > |raw| {
      return Some(Truncated), header, end;
    }
    var page := raw[o..end];
    var crc := Checksum(Zeroed(page));
    if crc != Stored(page) {
      return Some(OggChecksum), header, end;
    }
    if raw[o + 5] & EOS != 0 && end != |raw| {
      return Some(Chained), header, end;
    }
    fault := None;
  }

  method Complete(raw: seq<Byte>, last: nat) returns (out: seq<Byte>)
    requires last + 27 <= |raw|
    ensures out == Completed(raw, last)
  {
    hide Crc, Patched, Octet, Marked;
    var page := raw[last..];
    page := page[5 := Marked(page[5])];
    var crc := Checksum(Zeroed(page));
    page := Patched(page, Octet(crc, 0), Octet(crc, 1), Octet(crc, 2), Octet(crc, 3));
    out := raw[..last] + page;
  }

  /** Check every page, then complete the last one. */
  method FinalizeRecordedOpus(raw: seq<Byte>) returns (r: Result<seq<Byte>>)
    ensures r == Finalised(raw)
  {
    hide PageFault, End, Duration, Completed;
    if !(64 <= |raw| <= MAX_AUDIO) {
      return Err(AudioSize);
    }
    var offset, header, last := 0, 0, 0;
    FollowingNone(Pages(raw, 0));
    ghost var seen: seq<nat> := [];
    while offset < |raw|
      invariant offset <= |raw| && (offset == 0 <==> seen == [])
      invariant seen != [] ==> last == seen[|seen| - 1] && last + 27 <= |raw| && header == Header(raw, last) <= |raw|
      invariant Pages(raw, 0) == Following(seen, Pages(raw, offset))
    {
      var fault, top, end := CheckPage(raw, offset);
      if fault.Some? {
        return Err(fault.value);
      }
      FollowingOne(seen, offset, Pages(raw, end));
      header, last := top, offset;
      seen := seen + [offset];
      offset := end;
    }
    if raw[header - 1] == 255 {
      return Err(IncompletePacket);
    }
    var out := raw;
    if raw[last + 5] & EOS == 0 {
      out := Complete(raw, last);
    }
    var time := OpusDuration(out);
    r := match time case Err(fault) => Err(fault) case Ok(_) => Ok(out);
  }
}
