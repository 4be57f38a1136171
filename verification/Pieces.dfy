/**
 The piece bitfield: the server's packing of chunk bits into hex, most significant bit
 first, and the browser's decoding of it into the cells of the pieces map.
 */
module Pieces {
  import opened Options

  // ---- bits in a byte -----------------------------------------------------

  /** 1 << (7 - k). */
  function Weight(k: nat): nat
    requires k < 8
  {
    if k == 0 then 128 else if k == 1 then 64 else if k == 2 then 32 else if k == 3 then 16
    else if k == 4 then 8 else if k == 5 then 4 else if k == 6 then 2 else 1
  }

  /** (b >> (7 - k)) & 1. */
  predicate BitAt(b: nat, k: nat)
    requires k < 8
  {
    (if k == 0 then b / 128 else if k == 1 then b / 64 else if k == 2 then b / 32 else if k == 3 then b / 16
     else if k == 4 then b / 8 else if k == 5 then b / 4 else if k == 6 then b / 2 else b) % 2 == 1
  }

  /** b | 1 << (7 - k): adding the bit's weight if it is clear. */
  function OrBit(b: nat, k: nat): nat
    requires k < 8
  {
    if BitAt(b, k) then b else b + Weight(k)
  }

  function One(b: bool): (n: nat)
    ensures n < 2
  {
    if b then 1 else 0
  }

  function Pack(bs: seq<bool>): (v: nat)
    requires |bs| == 8
    ensures v < 256
  {
    128 * One(bs[0]) + 64 * One(bs[1]) + 32 * One(bs[2]) + 16 * One(bs[3]) +
    8 * One(bs[4]) + 4 * One(bs[5]) + 2 * One(bs[6]) + One(bs[7])
  }

  lemma {:induction false} BitOfPack(bs: seq<bool>, k: nat)
    requires |bs| == 8 && k < 8
    ensures BitAt(Pack(bs), k) == bs[k]
  {
    hide One, BitAt;
    BitOfSum(One(bs[0]), One(bs[1]), One(bs[2]), One(bs[3]), One(bs[4]), One(bs[5]), One(bs[6]), One(bs[7]),
             Pack(bs), k);
    OneIs(bs[k]);
  }

  lemma {:induction false} OneIs(b: bool)
    ensures One(b) == 1 <==> b
  {
  }

  lemma {:induction false} BitOfSum(b0: nat, b1: nat, b2: nat, b3: nat, b4: nat, b5: nat, b6: nat, b7: nat, v: nat,
                                    k: nat)
    requires b0 < 2 && b1 < 2 && b2 < 2 && b3 < 2 && b4 < 2 && b5 < 2 && b6 < 2 && b7 < 2 && k < 8
    requires v == 128 * b0 + 64 * b1 + 32 * b2 + 16 * b3 + 8 * b4 + 4 * b5 + 2 * b6 + b7
    ensures BitAt(v, k) == ([b0, b1, b2, b3, b4, b5, b6, b7][k] == 1)
  {
    var c1 := 2 * b0 + b1;
    var c2 := 2 * c1 + b2;
    var c3 := 2 * c2 + b3;
    var c4 := 2 * c3 + b4;
    var c5 := 2 * c4 + b5;
    var c6 := 2 * c5 + b6;
    assert v == 2 * c6 + b7;
    assert v / 2 == c6 && v / 4 == c5 && v / 8 == c4 && v / 16 == c3 && v / 32 == c2 && v / 64 == c1 && v / 128 == b0;
  }

  lemma {:induction false} OrPacks(bs: seq<bool>, k: nat)
    requires |bs| == 8 && k < 8
    ensures OrBit(Pack(bs), k) == Pack(bs[k := true])
  {
    hide BitAt, Pack, Weight;
    BitOfPack(bs, k);
    if bs[k] {
      assert bs[k := true] == bs;
    } else {
      WeightPacks(bs, k);
    }
  }

  lemma {:induction false} WeightPacks(bs: seq<bool>, k: nat)
    requires |bs| == 8 && k < 8 && !bs[k]
    ensures Pack(bs) + Weight(k) == Pack(bs[k := true])
  {
    var w := bs[k := true];
    assert forall i :: 0 <= i < 8 && i != k ==> One(w[i]) == One(bs[i]);
    assert One(w[k]) == 1 && One(bs[k]) == 0;
  }

  // ---- packing ------------------------------------------------------------

  /** Byte i of the packing of the first n bits. */
  function Window(bits: seq<bool>, n: nat, i: nat): (bs: seq<bool>)
    requires n <= |bits|
    ensures |bs| == 8 && forall k :: 0 <= k < 8 ==> bs[k] == (8 * i + k < n && bits[8 * i + k])
  {
    seq(8, k requires 0 <= k < 8 => 8 * i + k < n && bits[8 * i + k])
  }

  function HexDigit(d: nat): char
    requires d < 16
  {
    if d < 10 then (48 + d) as char else (87 + d) as char
  }

  function HexOf(bytes: seq<nat>): (s: string)
    requires forall i :: 0 <= i < |bytes| ==> bytes[i] < 256
    ensures |s| == 2 * |bytes|
  {
    if bytes == [] then ""
    else
      var b := bytes[|bytes| - 1];
      HexOf(bytes[..|bytes| - 1]) + [HexDigit(b / 16), HexDigit(b % 16)]
  }

  function ByteCount(n: nat): nat { (n + 7) / 8 }

  function Packed(bits: seq<bool>): (bytes: seq<nat>)
    ensures |bytes| == ByteCount(|bits|)
    ensures forall i :: 0 <= i < |bytes| ==> bytes[i] == Pack(Window(bits, |bits|, i)) && bytes[i] < 256
  {
    seq(ByteCount(|bits|), i requires 0 <= i < ByteCount(|bits|) => Pack(Window(bits, |bits|, i)))
  }

  method BitsToHex(bits: seq<bool>) returns (s: string)
    ensures s == HexOf(Packed(bits))
  {
    hide Pack, OrBit, HexOf;
    var b := new nat[(|bits| + 7) / 8](i => 0);
    ZeroPacks(bits);
    for c := 0 to |bits|
      invariant forall i :: 0 <= i < b.Length ==> b[i] == Pack(Window(bits, c, i))
    {
      NextBit(bits, c);
      if bits[c] {
        b[c / 8] := OrBit(b[c / 8], c % 8);
      }
    }
    assert b[..] == Packed(bits);
    s := HexOf(b[..]);
  }

  lemma {:induction false} ZeroPacks(bits: seq<bool>)
    ensures forall i :: 0 <= i ==> Pack(Window(bits, 0, i)) == 0
  {
  }

  lemma {:induction false} NextBit(bits: seq<bool>, c: nat)
    requires c < |bits|
    ensures forall i :: 0 <= i && (i != c / 8 || !bits[c]) ==> Window(bits, c + 1, i) == Window(bits, c, i)
    ensures bits[c] ==> Pack(Window(bits, c + 1, c / 8)) == OrBit(Pack(Window(bits, c, c / 8)), c % 8)
  {
    hide Pack, OrBit;
    var i, k := c / 8, c % 8;
    assert c == 8 * i + k;
    if bits[c] {
      OrPacks(Window(bits, c, i), k);
      assert Window(bits, c + 1, i) == Window(bits, c, i)[k := true];
    }
  }

  /** Whether bit i is set; past the end none is. */
  predicate IsSet(bits: seq<bool>, i: nat) { i < |bits| && bits[i] }

  /** The number that four bits write, the first one highest. */
  function Nibble(bits: seq<bool>, at: nat): (d: nat)
    ensures d < 16
  {
    (if IsSet(bits, at) then 8 else 0) + (if IsSet(bits, at + 1) then 4 else 0) +
    (if IsSet(bits, at + 2) then 2 else 0) + (if IsSet(bits, at + 3) then 1 else 0)
  }

  /** Digit j is that of the bits 4j to 4j + 3. */
  lemma {:induction false} HexIs(bits: seq<bool>, j: nat)
    requires j < 2 * ((|bits| + 7) / 8)
    ensures |HexOf(Packed(bits))| == 2 * ((|bits| + 7) / 8)
    ensures HexOf(Packed(bits))[j] == "0123456789abcdef"[Nibble(bits, 4 * j)]
  {
    hide HexOf, Pack, HexDigit, Nibble;
    var i := j / 2;
    HexReads(Packed(bits), i);
    assert j == 2 * i || j == 2 * i + 1;
    PackedNibbles(bits, i);
    DigitIs(Nibble(bits, 8 * i));
    DigitIs(Nibble(bits, 8 * i + 4));
  }

  lemma {:induction false} PackedNibbles(bits: seq<bool>, i: nat)
    ensures Pack(Window(bits, |bits|, i)) / 16 == Nibble(bits, 8 * i)
    ensures Pack(Window(bits, |bits|, i)) % 16 == Nibble(bits, 8 * i + 4)
  {
    hide Pack, One, Nibble;
    Nibbles(Window(bits, |bits|, i));
    NibbleIs(bits, i, 0);
    NibbleIs(bits, i, 4);
  }

  lemma {:induction false} NibbleIs(bits: seq<bool>, i: nat, k: nat)
    requires k == 0 || k == 4
    ensures var bs := Window(bits, |bits|, i);
      8 * One(bs[k]) + 4 * One(bs[k + 1]) + 2 * One(bs[k + 2]) + One(bs[k + 3]) == Nibble(bits, 8 * i + k)
  {
  }

  lemma {:induction false} Nibbles(bs: seq<bool>)
    requires |bs| == 8
    ensures Pack(bs) / 16 == 8 * One(bs[0]) + 4 * One(bs[1]) + 2 * One(bs[2]) + One(bs[3])
    ensures Pack(bs) % 16 == 8 * One(bs[4]) + 4 * One(bs[5]) + 2 * One(bs[6]) + One(bs[7])
  {
  }

  lemma {:induction false} DigitIs(d: nat)
    requires d < 16
    ensures HexDigit(d) == "0123456789abcdef"[d]
  {
  }

  // ---- decoding -----------------------------------------------------------

  predicate IsHex(c: char) { '0' <= c <= '9' || 'a' <= c <= 'f' || 'A' <= c <= 'F' }

  function HexValue(c: char): (v: nat)
    requires IsHex(c)
    ensures v < 16
  {
    if c <= '9' then c as int - 48 else if c <= 'F' then c as int - 55 else c as int - 87
  }

  lemma {:induction false} HexDigitValue(d: nat)
    requires d < 16
    ensures IsHex(HexDigit(d)) && HexValue(HexDigit(d)) == d
  {
  }

  /** White space and line ends as String.prototype.trim removes them. */
  predicate IsSpace(c: char) {
    '\U{0009}' <= c <= '\U{000D}' || c == ' ' || c == '\U{00A0}' || c == '\U{1680}' || '\U{2000}' <= c <= '\U{200A}'
    || c == '\U{2028}' || c == '\U{2029}' || c == '\U{202F}' || c == '\U{205F}' || c == '\U{3000}' || c == '\U{FEFF}'
  }

  function TrimStart(s: string): string {
    if s != "" && IsSpace(s[0]) then TrimStart(s[1..]) else s
  }

  function TrimEnd(s: string): string {
    if s != "" && IsSpace(s[|s| - 1]) then TrimEnd(s[..|s| - 1]) else s
  }

  predicate AllHex(s: string) { s != "" && forall i :: 0 <= i < |s| ==> IsHex(s[i]) }

  /** The byte parseInt reads from the i-th pair. */
  function ByteAt(hex: string, i: nat): nat
    requires AllHex(hex) && 2 * i + 1 < |hex|
  {
    16 * HexValue(hex[2 * i]) + HexValue(hex[2 * i + 1])
  }

  function HexBits(hex: string, n: nat): (r: seq<bool>)
    requires AllHex(hex) && |hex| % 2 == 0 && n <= |hex| / 2 * 8
    ensures |r| == n && forall c :: 0 <= c < n ==> r[c] == BitAt(ByteAt(hex, c / 8), c % 8)
  {
    seq(n, c requires 0 <= c < n => BitAt(ByteAt(hex, c / 8), c % 8))
  }

  /** Null for a malformed string or one too short for the torrent. */
  function Decoded(bitfield: string, n: nat): Option<seq<bool>> {
    var hex := TrimEnd(TrimStart(bitfield));
    if !AllHex(hex) || |hex| % 2 != 0 || |hex| / 2 * 8 < n then None else Some(HexBits(hex, n))
  }

  method DecodeHex(bitfield: string, sizeChunks: nat) returns (r: Option<seq<bool>>)
    ensures r == Decoded(bitfield, sizeChunks)
  {
    hide BitAt, ByteAt, TrimEnd, TrimStart;
    var hex := TrimEnd(TrimStart(bitfield));
    if !AllHex(hex) || |hex| % 2 != 0 {
      return None;
    }
    if |hex| / 2 * 8 < sizeChunks {
      return None;
    }
    var out := new bool[sizeChunks];
    for c := 0 to sizeChunks
      invariant forall k :: 0 <= k < c ==> out[k] == BitAt(ByteAt(hex, k / 8), k % 8)
    {
      out[c] := BitAt(ByteAt(hex, c / 8), c % 8);
    }
    assert out[..] == HexBits(hex, sizeChunks);
    r := Some(out[..]);
  }

  lemma {:induction false} HexReads(bytes: seq<nat>, i: nat)
    requires forall j :: 0 <= j < |bytes| ==> bytes[j] < 256
    requires i < |bytes|
    ensures var s := HexOf(bytes);
      s[2 * i] == HexDigit(bytes[i] / 16) && s[2 * i + 1] == HexDigit(bytes[i] % 16)
  {
    hide HexDigit;
    if i < |bytes| - 1 {
      HexReads(bytes[..|bytes| - 1], i);
    }
  }

  lemma {:induction false} HexIsHex(bytes: seq<nat>)
    requires forall j :: 0 <= j < |bytes| ==> bytes[j] < 256
    requires bytes != []
    ensures AllHex(HexOf(bytes))
    ensures forall i :: 0 <= i < |bytes| ==> ByteAt(HexOf(bytes), i) == bytes[i]
  {
    hide HexDigit, HexValue, HexOf;
    var s := HexOf(bytes);
    forall i | 0 <= i < |bytes|
      ensures IsHex(s[2 * i]) && IsHex(s[2 * i + 1]) && 16 * HexValue(s[2 * i]) + HexValue(s[2 * i + 1]) == bytes[i]
    {
      HexReads(bytes, i);
      HexDigitValue(bytes[i] / 16);
      HexDigitValue(bytes[i] % 16);
    }
    forall j | 0 <= j < |s| ensures IsHex(s[j]) {
      var i := j / 2;
      assert j == 2 * i || j == 2 * i + 1;
    }
  }

  lemma {:induction false} HexIsTrim(s: string)
    requires AllHex(s)
    ensures TrimEnd(TrimStart(s)) == s
  {
    assert IsHex(s[0]) && IsHex(s[|s| - 1]);
  }

  /** Round trip: every nonempty bit list decodes from its own packing. */
  lemma {:induction false} HexRoundTrip(bits: seq<bool>)
    requires bits != []
    ensures Decoded(HexOf(Packed(bits)), |bits|) == Some(bits)
  {
    hide Pack, BitAt, TrimEnd, TrimStart, HexOf, AllHex, ByteAt;
    var bytes := Packed(bits);
    var hex := HexOf(bytes);
    HexIsHex(bytes);
    HexIsTrim(hex);
    forall c | 0 <= c < |bits| ensures HexBits(hex, |bits|)[c] == bits[c] {
      var i, k := c / 8, c % 8;
      BitOfPack(Window(bits, |bits|, i), k);
      assert c == 8 * i + k;
    }
    assert HexBits(hex, |bits|) == bits;
  }

  /** The same letter in either case. */
  predicate SameLetter(c: char, d: char) {
    || c == d
    || ('a' <= c <= 'f' && d as int == c as int - 32)
    || ('a' <= d <= 'f' && c as int == d as int - 32)
  }

  /** Case and surrounding white space do not matter. */
  lemma {:induction false} AnyCaseRoundTrip(bits: seq<bool>, hex: string, before: string, after: string)
    requires bits != [] && |hex| == |HexOf(Packed(bits))|
    requires forall i :: 0 <= i < |hex| ==> SameLetter(hex[i], HexOf(Packed(bits))[i])
    requires forall i :: 0 <= i < |before| ==> IsSpace(before[i])
    requires forall i :: 0 <= i < |after| ==> IsSpace(after[i])
    ensures Decoded(before + hex + after, |bits|) == Some(bits)
  {
    hide Pack, BitAt, TrimEnd, TrimStart, HexOf, SameLetter, IsSpace, IsHex, HexValue;
    var own := HexOf(Packed(bits));
    HexIsHex(Packed(bits));
    forall i | 0 <= i < |hex| ensures IsHex(hex[i]) && HexValue(hex[i]) == HexValue(own[i]) {
      SameValue(hex[i], own[i]);
    }
    TrimsBoth(before, hex, after);
    HexRoundTrip(bits);
    HexIsTrim(own);
    forall c | 0 <= c < |bits| ensures HexBits(hex, |bits|)[c] == HexBits(own, |bits|)[c] {
      assert ByteAt(hex, c / 8) == ByteAt(own, c / 8);
    }
    assert HexBits(hex, |bits|) == HexBits(own, |bits|);
  }

  lemma {:induction false} SameValue(c: char, d: char)
    requires SameLetter(c, d) && IsHex(d)
    ensures IsHex(c) && HexValue(c) == HexValue(d)
  {
  }

  lemma {:induction false} TrimsBoth(before: string, hex: string, after: string)
    requires AllHex(hex)
    requires forall i :: 0 <= i < |before| ==> IsSpace(before[i])
    requires forall i :: 0 <= i < |after| ==> IsSpace(after[i])
    ensures TrimEnd(TrimStart(before + hex + after)) == hex
  {
    hide AllHex, TrimStart, TrimEnd, IsSpace;
    if before != "" {
      var rest := before[1..];
      assert (before + hex + after)[0] == before[0] && (before + hex + after)[1..] == rest + hex + after;
      TrimsOne(before + hex + after);
      TrimsBoth(rest, hex, after);
    } else {
      assert before + hex + after == hex + after;
      StartStays(hex, after);
      TrimsEnd(hex, after);
    }
  }

  lemma {:induction false} TrimsOne(s: string)
    requires s != "" && IsSpace(s[0])
    ensures TrimStart(s) == TrimStart(s[1..])
  {
  }

  lemma {:induction false} StartStays(hex: string, after: string)
    requires AllHex(hex)
    ensures TrimStart(hex + after) == hex + after
  {
    assert (hex + after)[0] == hex[0] && IsHex(hex[0]);
  }

  lemma {:induction false} TrimsEnd(hex: string, after: string)
    requires AllHex(hex) && forall i :: 0 <= i < |after| ==> IsSpace(after[i])
    ensures TrimEnd(hex + after) == hex
  {
    hide IsSpace;
    if after == "" {
      assert hex + after == hex;
      assert IsHex(hex[|hex| - 1]) && !IsSpace(hex[|hex| - 1]) by { HexIsNoSpace(hex[|hex| - 1]); }
    } else {
      var s := hex + after;
      assert s[..|s| - 1] == hex + after[..|after| - 1] && s[|s| - 1] == after[|after| - 1];
      TrimsEnd(hex, after[..|after| - 1]);
    }
  }

  lemma {:induction false} HexIsNoSpace(c: char)
    ensures IsHex(c) ==> !IsSpace(c)
  {
  }

  // ---- cells --------------------------------------------------------------

  /** A JavaScript number without a fraction. */
  datatype Num = NaN | Infinite(positive: bool) | Finite(n: int)

  /** a >= b, which a not-a-number never is. */
  predicate AtLeast(a: Num, b: int) { (a.Finite? && a.n >= b) || (a.Infinite? && a.positive) }

  /** a <= b. */
  predicate AtMost(a: Num, b: int) { (a.Finite? && a.n <= b) || (a.Infinite? && !a.positive) }

  datatype View = Bar | Cells(cells: seq<real>, chunks: nat, completed: nat)

  function Count(bits: seq<bool>): (n: nat)
    ensures n <= |bits|
  {
    if bits == [] then 0 else Count(bits[..|bits| - 1]) + One(bits[|bits| - 1])
  }

  /** The chunk states, from the most reliable signal there is. */
  function Have(bitfield: string, size: nat, completed: Num): (h: Option<seq<bool>>)
    ensures h.Some? ==> |h.value| == size
  {
    if AtLeast(completed, size) then Some(seq(size, _ => true))
    else if AtMost(completed, 0) then Some(seq(size, _ => false))
    else Decoded(bitfield, size)
  }

  function CellCount(size: nat, budget: real): (n: nat)
    requires size > 0
    ensures 1 <= n <= size
  {
    var b := if budget.Floor < 1 then 1 else budget.Floor;
    if size < b then size else b
  }

  /** The first chunk of cell k. */
  function Edge(k: nat, size: nat, cells: nat): nat
    requires cells > 0
  {
    Prod(k, size) / cells
  }

  function Prod(x: nat, y: nat): nat { x * y }

  /** Cell k covers these chunks, and its value is the fraction of them that is set. */
  ghost predicate CellIs(cell: real, have: seq<bool>, k: nat, cells: nat)
    requires cells > 0
  {
    var lo, hi := Edge(k, |have|, cells), Edge(k + 1, |have|, cells);
    lo < hi <= |have| && cell == Count(have[lo..hi]) as real / (hi - lo) as real
  }

  ghost predicate IsView(v: View, have: seq<bool>, cells: nat)
    requires cells > 0
  {
    && v.Cells? && v.chunks == |have| && v.completed == Count(have) && |v.cells| == cells
    && forall k :: 0 <= k < cells ==> CellIs(v.cells[k], have, k, cells)
  }

  /** The bar when there is no usable layout, which is never made up; else the cells. */
  ghost predicate IsMap(v: View, bitfield: string, size: Num, completed: Num, budget: real) {
    if !size.Finite? || size.n <= 0 || Have(bitfield, size.n, completed).None? then v == Bar
    else IsView(v, Have(bitfield, size.n, completed).value, CellCount(size.n, budget))
  }

  method DecodePieces(bitfield: string, sizeChunks: Num, completedChunks: Num, budget: real) returns (v: View)
    ensures IsMap(v, bitfield, sizeChunks, completedChunks, budget)
  {
    hide Decoded, Count, Edge;
    if !sizeChunks.Finite? || sizeChunks.n <= 0 {
      return Bar;
    }
    var size := sizeChunks.n;
    var have;
    if AtLeast(completedChunks, size) {
      have := seq(size, _ => true);
    } else if AtMost(completedChunks, 0) {
      have := seq(size, _ => false);
    } else {
      var h := DecodeHex(bitfield, size);
      if h.None? {
        return Bar;
      }
      have := h.value;
    }
    assert have == Have(bitfield, size, completedChunks).value;
    var cellCount := CellCount(size, budget);
    v := FillCells(have, cellCount);
  }

  /** The bucketing loops. */
  method FillCells(have: seq<bool>, cellCount: nat) returns (v: View)
    requires 1 <= cellCount <= |have|
    ensures IsView(v, have, cellCount)
  {
    hide Count, Edge;
    var size := |have|;
    var cells := new real[cellCount];
    var completed := 0;
    EdgeEnds(size, cellCount);
    assert Count(have[..0]) == 0 by { CountNone(have[..0]); }
    for k := 0 to cellCount
      invariant Edge(k, size, cellCount) <= size
      invariant completed == Count(have[..Edge(k, size, cellCount)])
      invariant forall j :: 0 <= j < k ==> CellIs(cells[j], have, j, cellCount)
    {
      var lo := Edge(k, size, cellCount);
      var hi := if k == cellCount - 1 then size else Edge(k + 1, size, cellCount);
      EdgeStep(k, size, cellCount);
      var on := CountRange(have, lo, hi);
      cells[k] := on as real / (hi - lo) as real;
      completed := completed + on;
      CountSplit(have, lo, hi);
    }
    assert have[..size] == have;
    v := Cells(cells[..], size, completed);
  }

  method CountRange(have: seq<bool>, lo: nat, hi: nat) returns (n: nat)
    requires lo <= hi <= |have|
    ensures n == Count(have[lo..hi])
  {
    n := 0;
    for c := lo to hi
      invariant n == Count(have[lo..c])
    {
      assert have[lo..c + 1][..c - lo] == have[lo..c];
      if have[c] {
        n := n + 1;
      }
    }
  }

  // ---- division -----------------------------------------------------------

  lemma {:induction false} DivBounds(a: nat, b: nat)
    requires b > 0
    ensures Prod(a / b, b) <= a < Prod(a / b, b) + b
  {
    assert a == b * (a / b) + a % b;
  }

  lemma {:induction false} ProdNext(x: nat, y: nat)
    ensures Prod(x + 1, y) == Prod(x, y) + y && Prod(x, y) == Prod(y, x) && Prod(0, y) == 0
  {
  }

  lemma {:induction false} Below(r: nat, q: nat, b: nat)
    requires r < q
    ensures Prod(r, b) + b <= Prod(q, b)
  {
    hide Prod;
    ProdNext(q - 1, b);
    if r < q - 1 { Below(r, q - 1, b); }
  }

  lemma {:induction false} DivIs(a: nat, b: nat, q: nat)
    requires b > 0 && Prod(q, b) <= a < Prod(q, b) + b
    ensures a / b == q
  {
    hide Prod;
    DivBounds(a, b);
    if a / b < q { Below(a / b, q, b); }
    if q < a / b { Below(q, a / b, b); }
  }

  /** The first cell starts at the first chunk and the last ends at the last. */
  lemma {:induction false} EdgeEnds(size: nat, cells: nat)
    requires cells > 0
    ensures Edge(0, size, cells) == 0 && Edge(cells, size, cells) == size
  {
    hide Prod;
    ProdNext(0, size);
    ProdNext(0, cells);
    ProdNext(cells, size);
    DivIs(0, cells, 0);
    DivIs(Prod(cells, size), cells, size);
  }

  /** Every cell is nonempty, and the last one's special case changes nothing. */
  lemma {:induction false} EdgeStep(k: nat, size: nat, cells: nat)
    requires 1 <= cells <= size && k < cells
    ensures Edge(k, size, cells) < Edge(k + 1, size, cells) <= size
    ensures k + 1 == cells ==> Edge(k + 1, size, cells) == size
  {
    hide Prod;
    var lo, hi := Edge(k, size, cells), Edge(k + 1, size, cells);
    ProdNext(k, size);
    DivBounds(Prod(k, size), cells);
    DivBounds(Prod(k + 1, size), cells);
    if hi < lo { Below(hi, lo, cells); }
    Below(k, cells, size);
    ProdNext(cells, size);
    if hi > size { Below(size, hi, cells); }
    if k + 1 == cells { EdgeEnds(size, cells); }
  }

  lemma {:induction false} EdgeOne(k: nat, size: nat)
    requires size > 0
    ensures Edge(k, size, size) == k
  {
    DivIs(Prod(k, size), size, k);
  }

  /** The cells are even: no two differ by more than one chunk in size. */
  lemma {:induction false} EdgesAreEven(j: nat, k: nat, size: nat, cells: nat)
    requires cells > 0
    ensures Edge(j + 1, size, cells) - Edge(j, size, cells) <= Edge(k + 1, size, cells) - Edge(k, size, cells) + 1
  {
    hide Prod;
    var a, b := Edge(j + 1, size, cells) - Edge(j, size, cells), Edge(k + 1, size, cells) - Edge(k, size, cells);
    Between(j, size, cells);
    Between(k, size, cells);
    if a > b + 1 { Stretch(a, b, cells); }
  }

  /** A cell's size times the number of cells is within one cell count of the whole. */
  lemma {:induction false} Between(k: nat, size: nat, cells: nat)
    requires cells > 0
    ensures var d := Edge(k + 1, size, cells) - Edge(k, size, cells); size - cells < d * cells < size + cells
  {
    hide Prod;
    var lo, hi := Edge(k, size, cells), Edge(k + 1, size, cells);
    ProdNext(k, size);
    DivBounds(Prod(k, size), cells);
    DivBounds(Prod(k + 1, size), cells);
    ProdIs(hi, lo, cells);
  }

  lemma {:induction false} ProdIs(x: nat, y: nat, c: nat)
    ensures Prod(x, c) - Prod(y, c) == (x - y) * c
  {
  }

  lemma {:induction false} Stretch(a: int, b: int, c: nat)
    requires a > b + 1
    ensures a * c >= b * c + 2 * c
    decreases a - b
  {
    if a > b + 2 {
      Stretch(a - 1, b, c);
      assert a * c == (a - 1) * c + c;
    } else {
      assert a == b + 2;
    }
  }

  /** One cell a chunk where the budget allows it, else the budget itself, rounded down; a budget
      below one is one. */
  lemma {:induction false} CellCountIs(size: nat, budget: real)
    requires size > 0
    ensures var n := CellCount(size, budget);
      && (size as real <= budget ==> n == size)
      && (1.0 <= budget < size as real ==> n as real <= budget < n as real + 1.0)
      && (budget < 1.0 ==> n == 1)
  {
  }

  // ---- counting -----------------------------------------------------------

  lemma {:induction false} CountConcat(a: seq<bool>, b: seq<bool>)
    ensures Count(a + b) == Count(a) + Count(b)
  {
    if b == [] {
      assert a + b == a;
    } else {
      assert (a + b)[..|a + b| - 1] == a + b[..|b| - 1];
      CountConcat(a, b[..|b| - 1]);
    }
  }

  lemma {:induction false} CountSplit(have: seq<bool>, lo: nat, hi: nat)
    requires lo <= hi <= |have|
    ensures Count(have[..hi]) == Count(have[..lo]) + Count(have[lo..hi])
  {
    assert have[..hi] == have[..lo] + have[lo..hi];
    CountConcat(have[..lo], have[lo..hi]);
  }

  lemma {:induction false} CountAll(bits: seq<bool>)
    ensures Count(bits) == |bits| <==> forall i :: 0 <= i < |bits| ==> bits[i]
  {
    if bits != [] {
      CountAll(bits[..|bits| - 1]);
      assert forall i :: 0 <= i < |bits| - 1 ==> bits[..|bits| - 1][i] == bits[i];
    }
  }

  lemma {:induction false} CountNone(bits: seq<bool>)
    ensures Count(bits) == 0 <==> forall i :: 0 <= i < |bits| ==> !bits[i]
  {
    if bits != [] {
      CountNone(bits[..|bits| - 1]);
      assert forall i :: 0 <= i < |bits| - 1 ==> bits[..|bits| - 1][i] == bits[i];
    }
  }

  // ---- the pieces map -----------------------------------------------------

  /** With the true count, the decoder sees exactly the packed bits, also where it goes by
      the count alone. */
  lemma {:induction false} HaveIsBits(bits: seq<bool>)
    requires bits != []
    ensures Have(HexOf(Packed(bits)), |bits|, Finite(Count(bits))) == Some(bits)
  {
    hide Decoded, HexOf, Packed, Count;
    HexRoundTrip(bits);
    CountAll(bits);
    CountNone(bits);
    if Count(bits) >= |bits| {
      assert bits == seq(|bits|, _ => true);
    } else if Count(bits) == 0 {
      assert bits == seq(|bits|, _ => false);
    }
  }

  lemma {:induction false} FractionIs(n: nat, d: nat)
    requires n <= d && d > 0
    ensures 0.0 <= n as real / d as real <= 1.0
    ensures d == 1 ==> n as real / d as real == n as real
  {
  }

  /** The map of a torrent's own packing: completed is its popcount; the cells cover
      consecutive nonempty ranges from the first chunk to the last and are fractions; and
      with budget for every chunk each cell is its bit. */
  lemma {:induction false} MapIsFaithful(bits: seq<bool>, budget: real, v: View, k: nat)
    requires bits != [] && IsMap(v, HexOf(Packed(bits)), Finite(|bits|), Finite(Count(bits)), budget)
    requires k < CellCount(|bits|, budget)
    ensures v.Cells? && v.completed == Count(bits) && v.chunks == |bits| && |v.cells| == CellCount(|bits|, budget)
    ensures var n := |v.cells|;
      && Edge(0, |bits|, n) == 0 && Edge(n, |bits|, n) == |bits| && Edge(k, |bits|, n) < Edge(k + 1, |bits|, n)
      && CellIs(v.cells[k], bits, k, n) && 0.0 <= v.cells[k] <= 1.0
    ensures budget >= |bits| as real ==> |v.cells| == |bits| && v.cells[k] == One(bits[k]) as real
  {
    hide Have, HexOf, Packed, Count, Edge;
    HaveIsBits(bits);
    var n := CellCount(|bits|, budget);
    EdgeEnds(|bits|, n);
    EdgeStep(k, |bits|, n);
    assert CellIs(v.cells[k], bits, k, n);
    var lo, hi := Edge(k, |bits|, n), Edge(k + 1, |bits|, n);
    FractionIs(Count(bits[lo..hi]), hi - lo);
    if budget >= |bits| as real {
      assert n == |bits| by { FloorAtLeast(budget, |bits|); }
      EdgeOne(k, |bits|);
      EdgeOne(k + 1, |bits|);
      assert bits[k..k + 1] == [bits[k]];
      CountSingle(bits[k]);
    }
  }

  /** What decides: without a usable number of chunks there is no map; a torrent whose count is
      full or empty is drawn so whatever its bitfield, the freed one "0" included; any other
      needs a well-formed bitfield. */
  lemma {:induction false} CountDecides(v: View, bitfield: string, size: Num, completed: Num, budget: real)
    requires IsMap(v, bitfield, size, completed, budget)
    ensures !size.Finite? || size.n <= 0 ==> v == Bar
    ensures size.Finite? && size.n > 0 && AtLeast(completed, size.n) ==>
      v.Cells? && v.completed == size.n && forall k :: 0 <= k < |v.cells| ==> v.cells[k] == 1.0
    ensures size.Finite? && size.n > 0 && AtMost(completed, 0) ==>
      v.Cells? && v.completed == 0 && forall k :: 0 <= k < |v.cells| ==> v.cells[k] == 0.0
    ensures size.Finite? && size.n > 0 && !AtLeast(completed, size.n) && !AtMost(completed, 0) ==>
      (v == Bar <==> Decoded(bitfield, size.n).None?)
  {
    hide Decoded, Edge, Count;
    if size.Finite? && size.n > 0 {
      var have := Have(bitfield, size.n, completed);
      if AtLeast(completed, size.n) || AtMost(completed, 0) {
        CountAll(have.value);
        CountNone(have.value);
        forall k | 0 <= k < |v.cells| ensures v.cells[k] == if AtLeast(completed, size.n) then 1.0 else 0.0 {
          assert CellIs(v.cells[k], have.value, k, |v.cells|);
          var lo, hi := Edge(k, size.n, |v.cells|), Edge(k + 1, size.n, |v.cells|);
          CountAll(have.value[lo..hi]);
          CountNone(have.value[lo..hi]);
          WholeOrNone(hi - lo);
        }
      }
    }
  }

  lemma {:induction false} WholeOrNone(d: nat)
    requires d > 0
    ensures d as real / d as real == 1.0 && 0 as real / d as real == 0.0
  {
  }

  /** The empty string, an odd number of digits, any other character or too few digits for the
      torrent make a bitfield malformed, and nothing else does. */
  lemma {:induction false} MalformedIff(bitfield: string, n: nat)
    ensures var hex := TrimEnd(TrimStart(bitfield));
      Decoded(bitfield, n).None? <==>
        || hex == "" || |hex| % 2 == 1 || 4 * |hex| < n
        || exists i :: 0 <= i < |hex| && hex[i] !in "0123456789abcdefABCDEF"
  {
    hide TrimEnd, TrimStart, HexBits;
    var hex := TrimEnd(TrimStart(bitfield));
    forall i | 0 <= i < |hex| ensures IsHex(hex[i]) <==> hex[i] in "0123456789abcdefABCDEF" {
      HexChars(hex[i]);
    }
  }

  lemma {:induction false} HexChars(c: char)
    ensures IsHex(c) <==> c in "0123456789abcdefABCDEF"
  {
    var all := "0123456789abcdefABCDEF";
    if IsHex(c) {
      var i := if c <= '9' then c as int - 48 else if c <= 'F' then c as int - 65 + 16 else c as int - 97 + 10;
      assert all[i] == c;
    }
  }

  lemma {:induction false} CountSingle(b: bool)
    ensures Count([b]) == One(b)
  {
    assert [b][..0] == [];
  }

  lemma {:induction false} FloorAtLeast(x: real, n: nat)
    requires x >= n as real
    ensures x.Floor >= n
  {
  }
}
