/** Reading an image's size from its first bytes: the PNG header, or a scan of JPEG marker segments. */
module ImageHeader {
  import opened Basics

  newtype byte = x: int | 0 <= x < 256

  function Word(hi: byte, lo: byte): nat { hi as int * 256 + lo as int }

  function High(n: nat): byte
    requires n < 65536
  {
    (n / 256) as byte
  }

  function Low(n: nat): byte { (n % 256) as byte }

  /** The start-of-frame markers C0 to CF, without DHT, JPG and DAC. */
  predicate FrameMarker(m: byte) { 0xC0 <= m <= 0xCF && m != 0xC4 && m != 0xC8 && m != 0xCC }

  datatype Size = Size(width: int, height: int)

  /** The scan from position `i` on. */
  function Scan(data: seq<byte>, i: nat): Size
    decreases |data| - i
  {
    if i >= |data| - 9 then Size(0, 0)
    else if data[i] != 0xFF then Scan(data, i + 1)
    else if FrameMarker(data[i + 1]) then Size(Word(data[i + 7], data[i + 8]), Word(data[i + 5], data[i + 6]))
    else Scan(data, i + 2 + Word(data[i + 2], data[i + 3]))
  }

  predicate IsPng(data: seq<byte>)
    requires |data| >= 24
  {
    data[0] == 0x89 && data[1] == 0x50 && data[2] == 0x4E && data[3] == 0x47
  }

  function Quad(data: seq<byte>, at: nat): int
    requires at + 4 <= |data|
  {
    data[at] as int * 0x1000000 + data[at + 1] as int * 0x10000 + data[at + 2] as int * 0x100 + data[at + 3] as int
  }

  /** `detectImageSize`: in bounds and terminating on arbitrary bytes. */
  method DetectSize(data: seq<byte>) returns (size: Size)
    ensures |data| < 24 ==> size == Size(0, 0)
    ensures |data| >= 24 && IsPng(data) ==> size == Size(Quad(data, 16), Quad(data, 20))
    ensures |data| >= 24 && !IsPng(data) ==>
              size == if data[0] == 0xFF && data[1] == 0xD8 then Scan(data, 2) else Size(0, 0)
  {
    if |data| < 24 { return Size(0, 0); }
    if data[0] == 0x89 && data[1] == 0x50 && data[2] == 0x4E && data[3] == 0x47 {
      return Size(Quad(data, 16), Quad(data, 20));
    }
    if data[0] == 0xFF && data[1] == 0xD8 {
      var i: nat := 2;
      while i < |data| - 9
        invariant Scan(data, i) == Scan(data, 2)
      {
        if data[i] != 0xFF {
          i := i + 1;
          continue;
        }
        if FrameMarker(data[i + 1]) {
          return Size(Word(data[i + 7], data[i + 8]), Word(data[i + 5], data[i + 6]));
        }
        i := i + 2 + Word(data[i + 2], data[i + 3]);
      }
    }
    size := Size(0, 0);
  }

  // --------------------------------------------------------------------------------------------
  // The format: sections B.1.1.4 and B.2.2 of ITU-T T.81

  /** A marker segment other than a frame header: marker, two length bytes that count themselves, payload. */
  datatype Segment = Segment(marker: byte, payload: seq<byte>)

  predicate Legal(s: Segment) { !FrameMarker(s.marker) && |s.payload| + 2 < 65536 }

  predicate AllLegal(ss: seq<Segment>) { forall i :: 0 <= i < |ss| ==> Legal(ss[i]) }

  function Encode(s: Segment): seq<byte>
    requires Legal(s)
  {
    [0xFF, s.marker, High(|s.payload| + 2), Low(|s.payload| + 2)] + s.payload
  }

  function EncodeAll(ss: seq<Segment>): seq<byte>
    requires AllLegal(ss)
  {
    if ss == [] then [] else Encode(ss[0]) + EncodeAll(ss[1..])
  }

  /** A frame header; `rest` are its component specifications and everything after them. */
  datatype Frame = Frame(marker: byte, length: nat, precision: byte, height: nat, width: nat, rest: seq<byte>)

  predicate LegalFrame(f: Frame) {
    FrameMarker(f.marker) && f.length < 65536 && f.height < 65536 && f.width < 65536 && f.rest != []
  }

  function EncodeFrame(f: Frame): seq<byte>
    requires LegalFrame(f)
  {
    [0xFF, f.marker, High(f.length), Low(f.length), f.precision, High(f.height), Low(f.height), High(f.width),
        Low(f.width)] + f.rest
  }

  function Jpeg(ss: seq<Segment>, f: Frame): seq<byte>
    requires AllLegal(ss) && LegalFrame(f)
  {
    [0xFF, 0xD8] + EncodeAll(ss) + EncodeFrame(f)
  }

  /** Table B.1: the start-of-frame codes, among them not those for Huffman tables, extensions and arithmetic coding. */
  lemma FrameMarkersAre(m: byte)
    ensures FrameMarker(m)
            <==> m in {0xC0, 0xC1, 0xC2, 0xC3, 0xC5, 0xC6, 0xC7, 0xC9, 0xCA, 0xCB, 0xCD, 0xCE, 0xCF}
  {
  }

  lemma WordHighLow(n: nat)
    requires n < 65536
    ensures Word(High(n), Low(n)) == n
  {
  }

  lemma {:induction false} FrameIsRead(before: seq<byte>, f: Frame)
    requires LegalFrame(f)
    ensures Scan(before + EncodeFrame(f), |before|) == Size(f.width, f.height)
  {
    var data := before + EncodeFrame(f);
    var i := |before|;
    assert |EncodeFrame(f)| >= 10;
    assert data[i] == 0xFF && data[i + 1] == f.marker;
    assert data[i + 5] == High(f.height) && data[i + 6] == Low(f.height);
    assert data[i + 7] == High(f.width) && data[i + 8] == Low(f.width);
    WordHighLow(f.height);
    WordHighLow(f.width);
  }

  /** A byte that begins no marker is stepped over, and a header of which less than ten bytes are left is not read. */
  lemma {:induction false} StrayByteIsSkipped(before: seq<byte>, b: byte, tail: seq<byte>)
    requires b != 0xFF && |tail| >= 9
    ensures Scan(before + [b] + tail, |before|) == Scan(before + [b] + tail, |before| + 1)
  {
    assert (before + [b] + tail)[|before|] == b;
  }

  lemma {:induction false} ShortTailIsNotRead(before: seq<byte>, tail: seq<byte>)
    requires |tail| <= 9
    ensures Scan(before + tail, |before|) == Size(0, 0)
  {
  }

  /** The scan steps over a segment, whatever bytes its payload holds. */
  lemma {:induction false} SegmentIsSkipped(before: seq<byte>, s: Segment, tail: seq<byte>)
    requires Legal(s) && |tail| >= 10
    ensures var data := before + Encode(s) + tail;
            Scan(data, |before|) == Scan(data, |before| + |Encode(s)|)
  {
    var e := Encode(s);
    var data := before + e + tail;
    var i := |before|;
    assert forall k :: 0 <= k < 4 ==> data[i + k] == e[k];
    assert data[i] == e[0] && data[i + 1] == e[1] && data[i + 2] == e[2] && data[i + 3] == e[3];
    WordHighLow(|s.payload| + 2);
    ScanSkips(data, i);
  }

  lemma ScanSkips(data: seq<byte>, i: nat)
    requires i < |data| - 9 && data[i] == 0xFF && !FrameMarker(data[i + 1])
    ensures Scan(data, i) == Scan(data, i + 2 + Word(data[i + 2], data[i + 3]))
  {
  }

  lemma {:induction false} SkipFirst(data: seq<byte>, before: seq<byte>, s: Segment, later: seq<byte>, tail: seq<byte>)
    requires Legal(s) && |tail| >= 10 && data == before + Encode(s) + (later + tail)
    ensures Scan(data, |before|) == Scan(data, |before + Encode(s)|)
  {
    SegmentIsSkipped(before, s, later + tail);
  }

  lemma {:induction false} SegmentsAreSkipped(before: seq<byte>, ss: seq<Segment>, tail: seq<byte>)
    requires AllLegal(ss) && |tail| >= 10
    ensures var data := before + EncodeAll(ss) + tail;
            Scan(data, |before|) == Scan(data, |before| + |EncodeAll(ss)|)
    decreases |ss|
  {
    if ss != [] {
      var next, later := before + Encode(ss[0]), EncodeAll(ss[1..]);
      Reassociate(before, Encode(ss[0]), later);
      assert before + EncodeAll(ss) + tail == next + later + tail;
      Reassociate(next, later, tail);
      SkipFirst(before + EncodeAll(ss) + tail, before, ss[0], later, tail);
      SegmentsAreSkipped(next, ss[1..], tail);
    }
  }

  /** The size in the frame header is found behind any list of legal segments. */
  lemma JpegSizeIsFound(ss: seq<Segment>, f: Frame)
    requires AllLegal(ss) && LegalFrame(f) && |Jpeg(ss, f)| >= 24
    ensures var data := Jpeg(ss, f);
            !IsPng(data) && data[0] == 0xFF && data[1] == 0xD8 && Scan(data, 2) == Size(f.width, f.height)
  {
    SegmentsAreSkipped([0xFF, 0xD8], ss, EncodeFrame(f));
    FrameIsRead([0xFF, 0xD8] + EncodeAll(ss), f);
  }

  /** Section B.1.1.2 allows any number of fill bytes before a marker. */
  function Fill(n: nat): (fill: seq<byte>)
    ensures |fill| == n && forall k :: 0 <= k < n ==> fill[k] == 0xFF
  {
    if n == 0 then [] else Fill(n - 1) + [0xFF]
  }

  /** The scan takes a fill byte for a marker and the marker for a length, which leads it at least 0xC000 bytes on. */
  lemma {:induction false} FillLeadsAstray(before: seq<byte>, n: nat, tail: seq<byte>)
    requires n > 0 && |tail| >= 10 && tail[0] == 0xFF && tail[1] >= 0xC0 && |before + Fill(n) + tail| <= 0xC000
    ensures Scan(before + Fill(n) + tail, |before|) == Size(0, 0)
  {
    var data := before + Fill(n) + tail;
    var i := |before|;
    assert data[i] == 0xFF && data[i + 1] == 0xFF;
    assert data[i + 2] == (if n == 1 then tail[1] else 0xFF);
    assert Word(data[i + 2], data[i + 3]) >= 0xC000;
  }

  /** Segments with fill bytes before each of their markers. */
  function EncodeFilled(ss: seq<Segment>, fills: seq<nat>): seq<byte>
    requires AllLegal(ss) && |fills| == |ss|
  {
    if ss == [] then [] else Fill(fills[0]) + Encode(ss[0]) + EncodeFilled(ss[1..], fills[1..])
  }

  /** The markers that the standard gives a meaning; those below C0 are reserved. */
  predicate AllStandard(ss: seq<Segment>) { forall k :: 0 <= k < |ss| ==> ss[k].marker >= 0xC0 }

  predicate NoFill(fills: seq<nat>) { forall k :: 0 <= k < |fills| ==> fills[k] == 0 }

  lemma Regroup(before: seq<byte>, fill: seq<byte>, e: seq<byte>, later: seq<byte>, tail: seq<byte>)
    ensures before + (fill + e + later) + tail == before + fill + (e + (later + tail))
    ensures fill == [] ==> before + (fill + e + later) + tail == before + e + (later + tail)
    ensures before + e + (later + tail) == (before + e) + later + tail
  {
  }

  lemma NoFillCons(fills: seq<nat>)
    requires fills != []
    ensures NoFill(fills) <==> fills[0] == 0 && NoFill(fills[1..])
  {
    assert fills == [fills[0]] + fills[1..];
  }

  /** Where the scan gets to from `before` on: past all segments if there is no fill, else out of the file. */
  predicate Decided(data: seq<byte>, from: nat, to: nat, clear: bool) {
    if clear then Scan(data, from) == Scan(data, to) else Scan(data, from) == Size(0, 0)
  }

  lemma {:induction false} FilledCons(before: seq<byte>, ss: seq<Segment>, fills: seq<nat>, tail: seq<byte>)
    requires AllLegal(ss) && |fills| == |ss| && ss != []
    ensures var e, later := Encode(ss[0]), EncodeFilled(ss[1..], fills[1..]);
            var data := before + EncodeFilled(ss, fills) + tail;
            && data == before + Fill(fills[0]) + (e + (later + tail))
            && (fills[0] == 0 ==> data == before + e + (later + tail) == (before + e) + later + tail)
            && |EncodeFilled(ss, fills)| == fills[0] + |e| + |later|
  {
    Regroup(before, Fill(fills[0]), Encode(ss[0]), EncodeFilled(ss[1..], fills[1..]), tail);
  }

  lemma {:induction false} FillsDecide(before: seq<byte>, ss: seq<Segment>, fills: seq<nat>, tail: seq<byte>)
    requires AllLegal(ss) && AllStandard(ss) && |fills| == |ss| && |tail| >= 10
    requires |before + EncodeFilled(ss, fills) + tail| <= 0xC000
    ensures Decided(before + EncodeFilled(ss, fills) + tail,
                    |before|, |before| + |EncodeFilled(ss, fills)|, NoFill(fills))
    decreases |ss|
  {
    if ss != [] {
      NoFillCons(fills);
      if fills[0] > 0 {
        FirstFillDecides(before, ss, fills, tail);
      } else {
        NoFirstFill(before, ss, fills, tail);
        FillsDecide(before + Encode(ss[0]), ss[1..], fills[1..], tail);
      }
    }
  }

  lemma {:induction false} FirstFillDecides(before: seq<byte>, ss: seq<Segment>, fills: seq<nat>, tail: seq<byte>)
    requires AllLegal(ss) && AllStandard(ss) && |fills| == |ss| && |tail| >= 10 && ss != [] && fills[0] > 0
    requires |before + EncodeFilled(ss, fills) + tail| <= 0xC000
    ensures Scan(before + EncodeFilled(ss, fills) + tail, |before|) == Size(0, 0)
  {
    var rest := EncodeFilled(ss[1..], fills[1..]) + tail;
    FilledCons(before, ss, fills, tail);
    MarkerFirst(ss[0], rest);
    FillLeadsAstray(before, fills[0], Encode(ss[0]) + rest);
  }

  lemma {:induction false} NoFirstFill(before: seq<byte>, ss: seq<Segment>, fills: seq<nat>, tail: seq<byte>)
    requires AllLegal(ss) && |fills| == |ss| && |tail| >= 10 && ss != [] && fills[0] == 0
    ensures var data, next := before + EncodeFilled(ss, fills) + tail, before + Encode(ss[0]);
            && data == next + EncodeFilled(ss[1..], fills[1..]) + tail
            && |before| + |EncodeFilled(ss, fills)| == |next| + |EncodeFilled(ss[1..], fills[1..])|
            && Scan(data, |before|) == Scan(data, |next|)
  {
    FilledCons(before, ss, fills, tail);
    SkipFirst(before + EncodeFilled(ss, fills) + tail, before, ss[0], EncodeFilled(ss[1..], fills[1..]), tail);
  }

  lemma MarkerFirst(s: Segment, rest: seq<byte>)
    requires Legal(s)
    ensures (Encode(s) + rest)[0] == 0xFF && (Encode(s) + rest)[1] == s.marker
  {
  }

  /** In files of up to 48 KB the size is found exactly when no fill byte precedes any marker before it. */
  lemma {:induction false} SizeIsFoundIffNoFill(ss: seq<Segment>, fills: seq<nat>, n: nat, f: Frame)
    requires AllLegal(ss) && AllStandard(ss) && |fills| == |ss| && LegalFrame(f)
             && Size(f.width, f.height) != Size(0, 0)
    requires |[0xFF, 0xD8] + EncodeFilled(ss, fills) + (Fill(n) + EncodeFrame(f))| <= 0xC000
    ensures Scan([0xFF, 0xD8] + EncodeFilled(ss, fills) + (Fill(n) + EncodeFrame(f)), 2) == Size(f.width, f.height)
            <==> NoFill(fills) && n == 0
  {
    var start := [0xFF, 0xD8];
    var before, tail := start + EncodeFilled(ss, fills), Fill(n) + EncodeFrame(f);
    assert before + tail == before + Fill(n) + EncodeFrame(f);
    if n == 0 {
      assert before + tail == before + EncodeFrame(f);
      FrameIsRead(before, f);
    } else {
      FillLeadsAstray(before, n, EncodeFrame(f));
    }
    FillsDecide(start, ss, fills, tail);
  }

  /** The big-endian width and height of a PNG header come back. */
  lemma PngSizeIsFound(start: seq<byte>, w: nat, h: nat, rest: seq<byte>)
    requires |start| == 16 && start[..4] == [0x89, 0x50, 0x4E, 0x47] && w < 0x1_0000_0000 && h < 0x1_0000_0000
    ensures var data := start + BigEndian(w) + BigEndian(h) + rest;
            |data| >= 24 && IsPng(data) && Quad(data, 16) == w && Quad(data, 20) == h
  {
    var data := start + BigEndian(w) + BigEndian(h) + rest;
    assert forall k :: 0 <= k < 4 ==> data[k] == start[..4][k];
    assert forall k :: 0 <= k < 4 ==> data[16 + k] == BigEndian(w)[k] && data[20 + k] == BigEndian(h)[k];
    BigEndianSum(w);
    BigEndianSum(h);
  }

  function BigEndian(n: nat): seq<byte>
    requires n < 0x1_0000_0000
  {
    [(n / 0x1000000) as byte, (n / 0x10000 % 0x100) as byte, (n / 0x100 % 0x100) as byte, (n % 0x100) as byte]
  }

  lemma BigEndianSum(n: nat)
    requires n < 0x1_0000_0000
    ensures Quad(BigEndian(n), 0) == n
  {
    assert n / 0x10000 == n / 0x100 / 0x100;
    assert n / 0x1000000 == n / 0x10000 / 0x100;
    assert n == n / 0x100 * 0x100 + n % 0x100;
    assert n / 0x100 == n / 0x10000 * 0x100 + n / 0x100 % 0x100;
    assert n / 0x10000 == n / 0x1000000 * 0x100 + n / 0x10000 % 0x100;
  }
}
