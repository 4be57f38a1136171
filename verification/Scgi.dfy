/**
 SCGI framing. The request is a netstring of NUL-delimited headers and the body (section 3
 of the SCGI specification), proved against a decoder of that section; the response is
 CGI-style (section 6 of RFC 3875) on a connection whose close is the only end mark.
 A byte is a char below 256.
 */
module Scgi {
  import opened Options
  import opened Decimal

  const NUL := '\0'
  const CRLF := "\r\n"
  const LF := "\n"

  // ---- the request --------------------------------------------------------

  function Entry(s: string): string { s + [NUL] }

  function Headers(contentType: string, bodyLen: nat): string {
    Entry("CONTENT_LENGTH") + Entry(Digits(bodyLen)) + Entry("SCGI") + Entry("1") +
    Entry("CONTENT_TYPE") + Entry(contentType)
  }

  method EncodeRequest(contentType: string, body: string) returns (out: string)
    ensures out == Digits(|Headers(contentType, |body|)|) + ":" + Headers(contentType, |body|) + "," + body
  {
    hide Digits, Entry;
    var h := "";
    h := WriteNul(h, "CONTENT_LENGTH");
    h := WriteNul(h, Digits(|body|));
    h := WriteNul(h, "SCGI");
    h := WriteNul(h, "1");
    h := WriteNul(h, "CONTENT_TYPE");
    h := WriteNul(h, contentType);
    assert h == Headers(contentType, |body|);
    out := "";
    out := out + Digits(|h|);
    out := out + ":";
    out := out + h;
    out := out + ",";
    out := out + body;
  }

  method WriteNul(h: string, s: string) returns (h': string)
    ensures h' == h + Entry(s)
  {
    h' := h + s;
    h' := h' + [NUL];
  }

  /** Cut at the first c. */
  function Cut(s: string, c: char): Option<(string, string)> {
    if s == "" then None
    else if s[0] == c then Some(("", s[1..]))
    else
      match Cut(s[1..], c)
      case None => None
      case Some(p) => Some(([s[0]] + p.0, p.1))
  }

  lemma {:induction false} CutAt(a: string, c: char, b: string)
    requires c !in a
    ensures Cut(a + [c] + b, c) == Some((a, b))
  {
    if a == "" {
      assert a + [c] + b == [c] + b;
    } else {
      assert (a + [c] + b)[1..] == a[1..] + [c] + b;
      CutAt(a[1..], c, b);
      assert [a[0]] + a[1..] == a;
    }
  }

  lemma {:induction false} CutParts(s: string, c: char)
    requires Cut(s, c).Some?
    ensures var p := Cut(s, c).value;
      c !in p.0 && s == p.0 + [c] + p.1
  {
    if s[0] != c { CutParts(s[1..], c); }
  }

  datatype Request = Request(headers: seq<(string, string)>, body: string)

  /** The header block: name NUL value NUL, repeated. */
  function Pairs(block: string): Option<seq<(string, string)>>
    decreases |block|
  {
    if block == "" then Some([])
    else
      match Cut(block, NUL)
      case None => None
      case Some(name) =>
        CutParts(block, NUL);
        match Cut(name.1, NUL)
        case None => None
        case Some(value) =>
          CutParts(name.1, NUL);
          match Pairs(value.1)
          case None => None
          case Some(rest) => Some([(name.0, value.0)] + rest)
  }

  predicate AllDigits(s: string) { s != "" && forall i :: 0 <= i < |s| ==> IsDigit(s[i]) }

  /** What the specification asks of the headers: the length first, and SCGI set to 1. */
  predicate HeadersOk(hs: seq<(string, string)>, body: string) {
    && hs != [] && hs[0].0 == "CONTENT_LENGTH" && AllDigits(hs[0].1) && Value(hs[0].1) == |body|
    && ("SCGI", "1") in hs
  }

  /** A receiver by section 3 of the SCGI specification. */
  function Decode(raw: string): Option<Request> {
    match Cut(raw, ':')
    case None => None
    case Some(p) =>
      if !AllDigits(p.0) || Value(p.0) >= |p.1| || p.1[Value(p.0)] != ',' then None
      else
        match Pairs(p.1[..Value(p.0)])
        case None => None
        case Some(hs) =>
          var body := p.1[Value(p.0) + 1..];
          if HeadersOk(hs, body) then Some(Request(hs, body)) else None
  }

  function Sent(contentType: string, body: string): Request {
    Request([("CONTENT_LENGTH", Digits(|body|)), ("SCGI", "1"), ("CONTENT_TYPE", contentType)], body)
  }

  lemma {:induction false} PairFirst(name: string, value: string, rest: string)
    requires NUL !in name && NUL !in value
    ensures Pairs(Entry(name) + Entry(value) + rest) ==
      match Pairs(rest)
      case None => None
      case Some(hs) => Some([(name, value)] + hs)
  {
    var block := Entry(name) + Entry(value) + rest;
    assert block == name + [NUL] + (Entry(value) + rest);
    CutAt(name, NUL, Entry(value) + rest);
    assert Entry(value) + rest == value + [NUL] + rest;
    CutAt(value, NUL, rest);
  }

  lemma {:induction false} DigitsArePlain(n: nat)
    ensures NUL !in Digits(n) && ':' !in Digits(n) && AllDigits(Digits(n))
  {
  }

  lemma {:induction false} PairsOfHeaders(contentType: string, n: nat)
    requires NUL !in contentType
    ensures Pairs(Headers(contentType, n)) ==
      Some([("CONTENT_LENGTH", Digits(n)), ("SCGI", "1"), ("CONTENT_TYPE", contentType)])
  {
    hide Pairs, Entry, Digits;
    DigitsArePlain(n);
    var last := Entry("CONTENT_TYPE") + Entry(contentType);
    var mid := Entry("SCGI") + Entry("1") + last;
    assert last == Entry("CONTENT_TYPE") + Entry(contentType) + "";
    EmptyBlock();
    NamesArePlain();
    PairFirst("CONTENT_TYPE", contentType, "");
    var none: seq<(string, string)> := [];
    assert [("CONTENT_TYPE", contentType)] + none == [("CONTENT_TYPE", contentType)];
    assert Pairs(last) == Some([("CONTENT_TYPE", contentType)]);
    PairFirst("SCGI", "1", last);
    assert Pairs(mid).Some?;
    assert Pairs(mid).value == [("SCGI", "1")] + [("CONTENT_TYPE", contentType)];
    PairFirst("CONTENT_LENGTH", Digits(n), mid);
    assert Pairs(Entry("CONTENT_LENGTH") + Entry(Digits(n)) + mid).value ==
      [("CONTENT_LENGTH", Digits(n)), ("SCGI", "1"), ("CONTENT_TYPE", contentType)];
    assert Headers(contentType, n) == Entry("CONTENT_LENGTH") + Entry(Digits(n)) + mid;
  }

  lemma {:induction false} NamesArePlain()
    ensures NUL !in "CONTENT_LENGTH" && NUL !in "SCGI" && NUL !in "1" && NUL !in "CONTENT_TYPE"
  {
  }

  lemma {:induction false} EmptyBlock()
    ensures Pairs("") == Some([])
  {
  }

  /** Nothing a receiver decodes contains a NUL. */
  lemma {:induction false} DecodedIsPlain(block: string)
    ensures Pairs(block).Some? ==> forall i :: 0 <= i < |Pairs(block).value| ==>
      NUL !in Pairs(block).value[i].0 && NUL !in Pairs(block).value[i].1
    decreases |block|
  {
    if Pairs(block).Some? && block != "" {
      CutParts(block, NUL);
      var name := Cut(block, NUL).value;
      CutParts(name.1, NUL);
      DecodedIsPlain(Cut(name.1, NUL).value.1);
    }
  }

  /** The netstring opens up to the header block and the body. */
  lemma {:induction false} Opens(block: string, body: string)
    ensures var raw := Digits(|block|) + ":" + block + "," + body;
      Decode(raw) ==
        match Pairs(block)
        case None => None
        case Some(hs) => if HeadersOk(hs, body) then Some(Request(hs, body)) else None
  {
    hide Pairs, HeadersOk, Cut, Digits, Value;
    var n := Digits(|block|);
    var raw := n + ":" + block + "," + body;
    DigitsArePlain(|block|);
    ValueOfDigits(|block|);
    var rest := block + "," + body;
    assert raw == n + [':'] + rest;
    CutAt(n, ':', rest);
    assert rest[..|block|] == block && rest[|block|] == ',' && rest[|block| + 1..] == body;
  }

  /** Encoding round trip: a receiver by the specification gets exactly the three headers
      and the body, whatever the body contains, if and only if the content type holds no
      NUL. */
  lemma {:induction false} RoundTrip(contentType: string, body: string, raw: string)
    requires raw == Digits(|Headers(contentType, |body|)|) + ":" + Headers(contentType, |body|) + "," + body
    ensures Decode(raw) == Some(Sent(contentType, body)) <==> NUL !in contentType
  {
    hide Pairs, Headers, Decode, Digits, Value;
    var block := Headers(contentType, |body|);
    Opens(block, body);
    if NUL !in contentType {
      PairsOfHeaders(contentType, |body|);
      DigitsArePlain(|body|);
      ValueOfDigits(|body|);
      var hs := Sent(contentType, body).headers;
      assert hs[1] == ("SCGI", "1");
    } else {
      DecodedIsPlain(block);
      assert Sent(contentType, body).headers[2].1 == contentType;
    }
  }

  // ---- the response -------------------------------------------------------

  datatype Error = NoSeparator | Truncated

  datatype Result = Ok(body: string) | Err(error: Error)

  predicate Here(s: string, pat: string, i: int) {
    0 <= i && i + |pat| <= |s| && s[i..i + |pat|] == pat
  }

  /** The first position of pat in s, or -1. */
  function Index(s: string, pat: string): int
    requires pat != ""
  {
    if |s| < |pat| then -1
    else if s[..|pat|] == pat then 0
    else
      var r := Index(s[1..], pat);
      if r < 0 then -1 else r + 1
  }

  lemma {:induction false} IndexIs(s: string, pat: string)
    requires pat != ""
    ensures var r := Index(s, pat);
      && (r < 0 ==> forall i :: !Here(s, pat, i))
      && (r >= 0 ==> Here(s, pat, r) && forall i :: i < r ==> !Here(s, pat, i))
  {
    if |s| >= |pat| && s[..|pat|] != pat {
      IndexIs(s[1..], pat);
      forall i | Here(s, pat, i) ensures i > 0 && Here(s[1..], pat, i - 1) {
        assert s[1..][i - 1..i - 1 + |pat|] == s[i..i + |pat|];
      }
      var r := Index(s[1..], pat);
      if r >= 0 {
        assert s[1..][r..r + |pat|] == s[r + 1..r + 1 + |pat|];
      }
    }
  }

  function TrimCR(line: string): string {
    if line != "" && line[|line| - 1] == '\r' then line[..|line| - 1] else line
  }

  /** Split at every LF. */
  function Lines(s: string): (r: seq<string>)
    ensures r != []
    decreases |s|
  {
    match Cut(s, '\n')
    case None => [s]
    case Some(p) => CutParts(s, '\n'); [p.0] + Lines(p.1)
  }

  function Lower(c: char): char { if 'A' <= c <= 'Z' then (c as int + 32) as char else c }

  /** No character of the header name has a case variant outside ASCII. */
  predicate EqualFold(a: string, b: string) {
    |a| == |b| && forall i :: 0 <= i < |a| ==> Lower(a[i]) == Lower(b[i])
  }

  predicate IsBlank(c: char) { c == ' ' || '\t' <= c <= '\r' }

  /** The UTF-8 encoding of one white space character. */
  predicate IsWhite(w: string) {
    if |w| == 1 then IsBlank(w[0])
    else if |w| == 2 then w[0] == '\U{C2}' && (w[1] == '\U{85}' || w[1] == '\U{A0}')
    else if |w| == 3 then
      || w == ['\U{E1}', '\U{9A}', '\U{80}']
      || (w[0] == '\U{E2}' && w[1] == '\U{80}' && ('\U{80}' <= w[2] <= '\U{8A}' || w[2] in "\U{A8}\U{A9}\U{AF}"))
      || w == ['\U{E2}', '\U{81}', '\U{9F}']
      || w == ['\U{E3}', '\U{80}', '\U{80}']
    else false
  }

  function TrimLeft(s: string): string
    decreases |s|
  {
    if |s| >= 1 && IsWhite(s[..1]) then TrimLeft(s[1..])
    else if |s| >= 2 && IsWhite(s[..2]) then TrimLeft(s[2..])
    else if |s| >= 3 && IsWhite(s[..3]) then TrimLeft(s[3..])
    else s
  }

  function TrimRight(s: string): string
    decreases |s|
  {
    if |s| >= 1 && IsWhite(s[|s| - 1..]) then TrimRight(s[..|s| - 1])
    else if |s| >= 2 && IsWhite(s[|s| - 2..]) then TrimRight(s[..|s| - 2])
    else if |s| >= 3 && IsWhite(s[|s| - 3..]) then TrimRight(s[..|s| - 3])
    else s
  }

  const MAX_INT: nat := 0x7fff_ffff_ffff_ffff

  /** A signed decimal number in the range of a 64-bit int. */
  function Atoi(s: string): Option<int> {
    var negative := s != "" && s[0] == '-';
    var digits := if s != "" && (s[0] == '-' || s[0] == '+') then s[1..] else s;
    if !AllDigits(digits) then None
    else if negative then (var v: int := Value(digits); if v <= MAX_INT + 1 then Some(-v) else None)
    else if Value(digits) <= MAX_INT then Some(Value(digits)) else None
  }

  datatype LineLength = NotLength | BadLength | Length(n: nat)

  function LengthIn(line: string): LineLength {
    match Cut(line, ':')
    case None => NotLength
    case Some(p) =>
      if !EqualFold(p.0, "Content-Length") then NotLength
      else
        match Atoi(TrimRight(TrimLeft(p.1)))
        case None => BadLength
        case Some(n) => if n < 0 then BadLength else Length(n)
  }

  /** The first Content-Length line decides; a malformed one counts as none. */
  function FirstLength(lines: seq<string>): Option<nat> {
    if lines == [] then None
    else
      match LengthIn(TrimCR(lines[0]))
      case NotLength => FirstLength(lines[1..])
      case BadLength => None
      case Length(n) => Some(n)
  }

  method ContentLength(headers: string) returns (r: Option<nat>)
    ensures r == FirstLength(Lines(headers))
  {
    hide LengthIn, Lines, TrimCR;
    var lines := Lines(headers);
    for i := 0 to |lines|
      invariant FirstLength(lines) == FirstLength(lines[i..])
    {
      assert lines[i..][0] == lines[i] && lines[i..][1..] == lines[i + 1..];
      match LengthIn(TrimCR(lines[i]))
      case NotLength => continue;
      case BadLength => return None;
      case Length(n) => return Some(n);
    }
    assert lines[|lines|..] == [];
    r := None;
  }

  const CRLF2 := "\r\n\r\n"
  const LF2 := "\n\n"

  /** The first separator of either kind, and its length. */
  function Separator(raw: string): (int, nat) {
    var crlf, lf := Index(raw, CRLF2), Index(raw, LF2);
    if lf >= 0 && (crlf < 0 || lf < crlf) then (lf, 2) else (crlf, 4)
  }

  method ParseResponse(raw: string) returns (r: Result)
    ensures r == Parsed(raw)
  {
    hide Index, FirstLength;
    IndexIs(raw, CRLF2);
    IndexIs(raw, LF2);
    var idx, sepLen := Index(raw, CRLF2), 4;
    var lf := Index(raw, LF2);
    if lf >= 0 && (idx < 0 || lf < idx) {
      idx, sepLen := lf, 2;
    }
    if idx < 0 {
      return Err(NoSeparator);
    }
    var headers, body := raw[..idx], raw[idx + sepLen..];
    var want := ContentLength(headers);
    if want.Some? && |body| < want.value {
      return Err(Truncated);
    }
    r := Ok(body);
  }

  function Parsed(raw: string): Result {
    var (idx, sepLen) := Separator(raw);
    if idx < 0 || idx + sepLen > |raw| then Err(NoSeparator)
    else
      var want, body := FirstLength(Lines(raw[..idx])), raw[idx + sepLen..];
      if want.Some? && |body| < want.value then Err(Truncated) else Ok(body)
  }

  // ---- what a well-formed response parses to ------------------------------

  predicate IsBreak(c: char) { c == '\r' || c == '\n' }

  predicate PlainLine(s: string) { s != "" && forall i :: 0 <= i < |s| ==> !IsBreak(s[i]) }

  predicate PlainLines(lines: seq<string>) { lines != [] && forall i :: 0 <= i < |lines| ==> PlainLine(lines[i]) }

  function Join(lines: seq<string>, eol: string): string
    requires lines != []
  {
    if |lines| == 1 then lines[0] else lines[0] + eol + Join(lines[1..], eol)
  }

  predicate IsEol(eol: string) { eol == CRLF || eol == LF }

  /** In joined header lines every break is one line end, with a line on either side. */
  ghost predicate HeadOk(head: string, eol: string) {
    && head != "" && !IsBreak(head[0])
    && (forall p :: 0 <= p < |head| && head[p] == '\r' ==> eol == CRLF && p + 1 < |head| && head[p + 1] == '\n')
    && (forall p :: 0 <= p < |head| && head[p] == '\n' ==> p + 1 < |head| && !IsBreak(head[p + 1]))
  }

  lemma {:induction false} JoinIsOk(lines: seq<string>, eol: string)
    requires PlainLines(lines) && IsEol(eol)
    ensures HeadOk(Join(lines, eol), eol)
  {
    var line := lines[0];
    assert PlainLine(line);
    if |lines| > 1 {
      JoinIsOk(lines[1..], eol);
      JoinOne(line, eol, Join(lines[1..], eol));
    }
  }

  lemma {:induction false} JoinOne(line: string, eol: string, rest: string)
    requires PlainLine(line) && IsEol(eol) && HeadOk(rest, eol)
    ensures HeadOk(line + eol + rest, eol)
  {
    var head := line + eol + rest;
    var at := |line| + |eol|;
    forall p | 0 <= p < |head| && head[p] == '\r' ensures eol == CRLF && p + 1 < |head| && head[p + 1] == '\n' {
      if p >= at { assert rest[p - at] == '\r'; }
    }
    forall p | 0 <= p < |head| && head[p] == '\n' ensures p + 1 < |head| && !IsBreak(head[p + 1]) {
      if p >= at { assert rest[p - at] == '\n'; } else { assert p == at - 1 && head[p + 1] == rest[0]; }
    }
  }

  /** No separator starts inside the header lines, and of the two kinds the response's own
      comes first, whatever the body contains. */
  lemma {:induction false} SeparatorAt(head: string, eol: string, tail: string)
    requires IsEol(eol) && HeadOk(head, eol)
    ensures Separator(head + eol + eol + tail) == (|head|, 2 * |eol|)
  {
    hide Index, Here, HeadOk;
    var raw := head + eol + eol + tail;
    IndexIs(raw, CRLF2);
    IndexIs(raw, LF2);
    Crlf2Starts(head, eol, tail);
    Lf2Starts(head, eol, tail);
  }

  lemma {:induction false} Crlf2Starts(head: string, eol: string, tail: string)
    requires IsEol(eol) && HeadOk(head, eol)
    ensures var raw := head + eol + eol + tail;
      && (forall p :: Here(raw, CRLF2, p) ==> p >= |head| && (eol == LF ==> p > |head|))
      && (eol == CRLF ==> Here(raw, CRLF2, |head|))
  {
    var raw := head + eol + eol + tail;
    forall p | Here(raw, CRLF2, p) ensures p >= |head| && (eol == LF ==> p > |head|) {
      assert raw[p] == CRLF2[0] && raw[p + 1] == CRLF2[1] && raw[p + 2] == CRLF2[2];
      NoCrlf2Inside(raw, head, eol, p);
    }
    assert eol == CRLF ==> raw[|head|..|head| + 4] == CRLF2;
  }

  lemma {:induction false} Lf2Starts(head: string, eol: string, tail: string)
    requires IsEol(eol) && HeadOk(head, eol)
    ensures var raw := head + eol + eol + tail;
      && (forall p :: Here(raw, LF2, p) ==> p >= |head| && (eol == CRLF ==> p > |head|))
      && (eol == LF ==> Here(raw, LF2, |head|))
  {
    var raw := head + eol + eol + tail;
    assert forall p :: 0 <= p < |head| ==> raw[p] == head[p];
    forall p | Here(raw, LF2, p) ensures p >= |head| && (eol == CRLF ==> p > |head|) {
      assert raw[p] == LF2[0] && raw[p + 1] == LF2[1];
    }
    assert eol == LF ==> raw[|head|..|head| + 2] == LF2;
  }

  lemma {:induction false} NoCrlf2Inside(raw: string, head: string, eol: string, p: int)
    requires IsEol(eol) && HeadOk(head, eol) && 0 <= p && p + 2 < |raw| && head + eol + eol <= raw
    requires raw[p] == '\r' && raw[p + 1] == '\n' && raw[p + 2] == '\r'
    ensures p >= |head| && (eol == LF ==> p > |head|)
  {
    var whole := head + eol + eol;
    assert forall q :: 0 <= q < |whole| ==> raw[q] == whole[q];
    assert forall q :: 0 <= q < |head| ==> raw[q] == head[q];
    assert eol == LF ==> whole[|head|] == '\n';
  }

  lemma {:induction false} LinesOfJoin(lines: seq<string>, eol: string)
    requires PlainLines(lines) && IsEol(eol)
    ensures FirstLength(Lines(Join(lines, eol))) == FirstLength(lines)
  {
    hide LengthIn;
    var line := lines[0];
    assert PlainLine(line) && TrimCR(line) == line;
    if |lines| == 1 {
      NoCut(line, '\n');
      assert Lines(line) == [line] && lines == [line];
    } else {
      var rest := Join(lines[1..], eol);
      LinesOfJoin(lines[1..], eol);
      var first := if eol == CRLF then line + "\r" else line;
      assert line + eol + rest == first + ['\n'] + rest;
      CutAt(first, '\n', rest);
      assert Lines(Join(lines, eol)) == [first] + Lines(rest);
      assert ([first] + Lines(rest))[1..] == Lines(rest);
      assert TrimCR(first) == line;
    }
  }

  lemma {:induction false} NoCut(s: string, c: char)
    requires c !in s
    ensures Cut(s, c).None?
  {
    if s != "" { NoCut(s[1..], c); }
  }

  /** Header lines, either line end, and any tail: the separator is found, and the tail is
      the body unless it is shorter than the declared length. */
  lemma {:induction false} ParsesTail(lines: seq<string>, eol: string, tail: string)
    requires PlainLines(lines) && IsEol(eol)
    ensures Parsed(Join(lines, eol) + eol + eol + tail) ==
      if FirstLength(lines).Some? && |tail| < FirstLength(lines).value then Err(Truncated) else Ok(tail)
  {
    hide FirstLength, Lines, Separator, HeadOk, Join;
    var head := Join(lines, eol);
    JoinIsOk(lines, eol);
    SeparatorAt(head, eol, tail);
    LinesOfJoin(lines, eol);
    var raw := head + eol + eol + tail;
    assert raw[..|head|] == head && raw[|head| + 2 * |eol|..] == tail;
  }

  /** A response cut inside its headers or its separator has no separator at all. */
  lemma {:induction false} CutHeadersHaveNoSeparator(head: string, eol: string, k: nat)
    requires IsEol(eol) && HeadOk(head, eol) && k < |head| + 2 * |eol|
    ensures Parsed((head + eol + eol)[..k]) == Err(NoSeparator)
  {
    hide Index, FirstLength, Lines;
    var raw := (head + eol + eol)[..k];
    IndexIs(raw, CRLF2);
    IndexIs(raw, LF2);
    forall p ensures !Here(raw, CRLF2, p) && !Here(raw, LF2, p) {
      if Here(raw, CRLF2, p) {
        assert raw[p] == CRLF2[0] && raw[p + 1] == CRLF2[1] && raw[p + 2] == CRLF2[2];
        NoCrlf2Inside(head + eol + eol, head, eol, p);
      }
      if Here(raw, LF2, p) {
        assert raw[p] == LF2[0] && raw[p + 1] == LF2[1];
        NoLf2Inside(head, eol, p);
      }
    }
  }

  lemma {:induction false} NoLf2Inside(head: string, eol: string, p: int)
    requires IsEol(eol) && HeadOk(head, eol) && 0 <= p && p + 2 <= |head + eol + eol|
    requires (head + eol + eol)[p] == '\n' && (head + eol + eol)[p + 1] == '\n'
    ensures eol == LF && p == |head|
  {
    var whole := head + eol + eol;
    assert forall q :: 0 <= q < |head| ==> whole[q] == head[q];
  }

  /** Without header lines the separator is at the front. */
  lemma {:induction false} NoHeaders(eol: string, tail: string)
    requires IsEol(eol)
    ensures Parsed(eol + eol + tail) == Ok(tail)
  {
    hide Index;
    var raw := eol + eol + tail;
    IndexIs(raw, CRLF2);
    IndexIs(raw, LF2);
    assert raw[..2 * |eol|] == eol + eol && raw[2 * |eol|..] == tail;
    if eol == CRLF {
      assert eol + eol == CRLF2 && raw[0..4] == CRLF2 && Here(raw, CRLF2, 0);
      assert raw[0] == '\r' && LF2[0] == '\n' && !Here(raw, LF2, 0);
    } else {
      assert eol + eol == LF2 && raw[0..2] == LF2 && Here(raw, LF2, 0);
      assert raw[0] == '\n' && CRLF2[0] == '\r' && !Here(raw, CRLF2, 0);
    }
    assert raw[..0] == "";
    NoLength();
  }

  lemma {:induction false} NoLength()
    ensures FirstLength(Lines("")) == None
  {
    var lines := Lines("");
    assert lines == [""] && lines[1..] == [];
    assert LengthIn(TrimCR("")) == NotLength;
  }

  /** Truncation is always seen: with header lines free of CR and LF, joined and ended
      either way, and a Content-Length equal to the body's length, the whole response
      parses to the whole body and every proper prefix of it to an error, whatever
      separators the body contains. */
  lemma {:induction false} WholeOrError(lines: seq<string>, eol: string, body: string, k: nat)
    requires PlainLines(lines) && IsEol(eol) && FirstLength(lines) == Some(|body|)
    ensures var raw := Join(lines, eol) + eol + eol + body;
      && Parsed(raw) == Ok(body)
      && (k < |raw| ==> Parsed(raw[..k]).Err?)
  {
    hide Parsed, Join, FirstLength, HeadOk;
    var head := Join(lines, eol);
    var raw := head + eol + eol + body;
    ParsesTail(lines, eol, body);
    if k < |head| + 2 * |eol| {
      JoinIsOk(lines, eol);
      CutHeadersHaveNoSeparator(head, eol, k);
      assert raw[..k] == (head + eol + eol)[..k];
    } else if k < |raw| {
      var tail := body[..k - |head| - 2 * |eol|];
      ParsesTail(lines, eol, tail);
      assert raw[..k] == head + eol + eol + tail;
    }
  }

  // ---- the length line ----------------------------------------------------

  const SMALL := "abcdefghijklmnopqrstuvwxyz"
  const CAPITAL := "ABCDEFGHIJKLMNOPQRSTUVWXYZ"

  /** The same character but for the case of a letter. */
  ghost predicate SameLetter(c: char, d: char) {
    c == d || exists i :: 0 <= i < 26 && ((c == SMALL[i] && d == CAPITAL[i]) || (c == CAPITAL[i] && d == SMALL[i]))
  }

  lemma {:induction false} FoldIs(a: string, b: string)
    ensures EqualFold(a, b) <==> |a| == |b| && forall i :: 0 <= i < |a| ==> SameLetter(a[i], b[i])
  {
    hide Lower, SameLetter;
    if |a| == |b| {
      forall i | 0 <= i < |a| ensures Lower(a[i]) == Lower(b[i]) <==> SameLetter(a[i], b[i]) {
        LowerIs(a[i], b[i]);
      }
    }
  }

  lemma {:induction false} LowerIs(c: char, d: char)
    ensures Lower(c) == Lower(d) <==> SameLetter(c, d)
  {
    hide SameLetter;
    if c != d {
      PairIs(c, d);
      PairIs(d, c);
    }
    assert SameLetter(c, d) <==> c == d || IsSmallOf(c, d) || IsSmallOf(d, c) by { PairsSame(c, d); }
  }

  /** d is the small letter of the capital c. */
  ghost predicate IsSmallOf(c: char, d: char) { exists i :: 0 <= i < 26 && c == CAPITAL[i] && d == SMALL[i] }

  lemma {:induction false} PairsSame(c: char, d: char)
    ensures SameLetter(c, d) <==> c == d || IsSmallOf(c, d) || IsSmallOf(d, c)
  {
  }

  lemma {:induction false} PairIs(c: char, d: char)
    ensures IsSmallOf(c, d) <==> 'A' <= c <= 'Z' && d as int == c as int + 32
  {
    forall i | 0 <= i < 26 ensures SMALL[i] as int == 97 + i && CAPITAL[i] as int == 65 + i {
    }
    if 'A' <= c <= 'Z' { assert CAPITAL[c as int - 65] == c; }
  }

  /** The code points with the White_Space property, below U+10000. */
  const WHITE: set<nat> := {
    0x09, 0x0A, 0x0B, 0x0C, 0x0D, 0x20, 0x85, 0xA0, 0x1680, 0x2000, 0x2001, 0x2002, 0x2003, 0x2004, 0x2005, 0x2006,
    0x2007, 0x2008, 0x2009, 0x200A, 0x2028, 0x2029, 0x202F, 0x205F, 0x3000}

  function Byte(b: nat): char
    requires b < 256
  {
    b as char
  }

  /** The UTF-8 encoding of a code point below U+10000. */
  function Utf8(cp: nat): string
    requires cp < 0x10000
  {
    if cp < 0x80 then [Byte(cp)]
    else if cp < 0x800 then [Byte(0xC0 + cp / 64), Byte(0x80 + cp % 64)]
    else [Byte(0xE0 + cp / 4096), Byte(0x80 + cp / 64 % 64), Byte(0x80 + cp % 64)]
  }

  /** They are exactly the white space of the parser. */
  lemma {:induction false} WhiteIs(w: string)
    ensures IsWhite(w) <==> exists cp :: cp in WHITE && w == Utf8(cp)
  {
    hide Utf8, IsWhite;
    if IsWhite(w) {
      if |w| <= 2 {
        var cp := ShortWhite(w);
      } else {
        var cp := LongWhite(w);
      }
    }
    if cp :| cp in WHITE && w == Utf8(cp) {
      EncodedIsWhite(cp);
    }
  }

  lemma {:induction false} ShortWhite(w: string) returns (cp: nat)
    requires IsWhite(w) && |w| <= 2
    ensures cp in WHITE && w == Utf8(cp)
  {
    cp := if |w| == 1 then w[0] as int else w[1] as int;
  }

  lemma {:induction false} LongWhite(w: string) returns (cp: nat)
    requires IsWhite(w) && |w| > 2
    ensures cp in WHITE && w == Utf8(cp)
  {
    if w[0] == '\U{E1}' {
      cp := 0x1680;
    } else if w[0] == '\U{E3}' {
      cp := 0x3000;
    } else if w[1] == '\U{81}' {
      cp := 0x205F;
    } else {
      cp := 0x2000 + w[2] as int - 0x80;
    }
  }

  lemma {:induction false} EncodedIsWhite(cp: nat)
    requires cp in WHITE
    ensures IsWhite(Utf8(cp)) && 1 <= |Utf8(cp)| <= 3
  {
    if cp < 0x800 { EncodedShort(cp); } else { EncodedLong(cp); }
  }

  lemma {:induction false} EncodedShort(cp: nat)
    requires cp in WHITE && cp < 0x800
    ensures IsWhite(Utf8(cp)) && 1 <= |Utf8(cp)| <= 3
  {
    hide WHITE;
    assert cp == 0x20 || 9 <= cp <= 13 || cp == 0x85 || cp == 0xA0 by { ShortRange(cp); }
  }

  lemma {:induction false} ShortRange(cp: nat)
    requires cp in WHITE && cp < 0x800
    ensures cp == 0x20 || 9 <= cp <= 13 || cp == 0x85 || cp == 0xA0
  {
  }

  lemma {:induction false} EncodedLong(cp: nat)
    requires cp in WHITE && cp >= 0x800
    ensures IsWhite(Utf8(cp)) && 1 <= |Utf8(cp)| <= 3
  {
    hide WHITE;
    LongRange(cp);
    if 0x2000 <= cp <= 0x203F {
      assert cp / 4096 == 2 && cp / 64 == 128 && cp % 64 == cp - 0x2000;
    }
  }

  lemma {:induction false} LongRange(cp: nat)
    requires cp in WHITE && cp >= 0x800
    ensures cp == 0x1680 || 0x2000 <= cp <= 0x200A || cp == 0x2028 || cp == 0x2029 || cp == 0x202F || cp == 0x205F ||
            cp == 0x3000
  {
  }

  function Spelled(cps: seq<nat>): string
    requires forall i :: 0 <= i < |cps| ==> cps[i] in WHITE
  {
    if cps == [] then ""
    else
      assert cps[0] in WHITE;
      Utf8(cps[0]) + Spelled(cps[1..])
  }

  lemma {:induction false} SpelledEnd(cps: seq<nat>)
    requires cps != [] && forall i :: 0 <= i < |cps| ==> cps[i] in WHITE
    ensures cps[|cps| - 1] in WHITE
    ensures Spelled(cps) == Spelled(cps[..|cps| - 1]) + Utf8(cps[|cps| - 1])
  {
    hide Utf8;
    assert cps[|cps| - 1] in WHITE;
    if |cps| > 1 {
      var rest := cps[1..];
      SpelledEnd(rest);
      assert rest[|rest| - 1] == cps[|cps| - 1];
      assert cps[..|cps| - 1][1..] == rest[..|rest| - 1] && cps[..|cps| - 1][0] == cps[0];
    }
  }

  /** A length line: any case of the name, any white space around the number, and a sign or none.
      A negative number, or one past the range of a 64-bit int, makes it malformed. */
  lemma {:induction false} DeclaredLength(name: string, before: seq<nat>, sign: string, n: nat, after: seq<nat>)
    requires |name| == 14 && forall i :: 0 <= i < 14 ==> SameLetter(name[i], "Content-Length"[i])
    requires forall i :: 0 <= i < |before| ==> before[i] in WHITE
    requires forall i :: 0 <= i < |after| ==> after[i] in WHITE
    requires sign == "" || sign == "+" || sign == "-"
    ensures LengthIn(name + ":" + Spelled(before) + (sign + Digits(n)) + Spelled(after)) ==
      if sign == "-" then (if n == 0 then Length(0) else BadLength)
      else if n <= 9223372036854775807 then Length(n)
      else BadLength
  {
    hide Digits, Value, EqualFold, Spelled, Atoi, SameLetter;
    var number := sign + Digits(n);
    var value := Spelled(before) + number + Spelled(after);
    FoldIs(name, "Content-Length");
    assert ':' !in name by { NameHasNoColon(name); }
    assert name + ":" + Spelled(before) + number + Spelled(after) == name + [':'] + value;
    CutAt(name, ':', value);
    DigitsArePlain(n);
    assert IsDigit(number[|number| - 1]) && (IsDigit(number[0]) || number[0] == '+' || number[0] == '-');
    TrimsLeft(before, number + Spelled(after));
    assert value == Spelled(before) + (number + Spelled(after));
    TrimsRight(number, after);
    NumberIs(sign, n);
  }

  lemma {:induction false} NameHasNoColon(name: string)
    requires |name| == 14 && forall i :: 0 <= i < 14 ==> SameLetter(name[i], "Content-Length"[i])
    ensures ':' !in name
  {
    hide SameLetter;
    forall i | 0 <= i < 14 ensures name[i] != ':' {
      LowerIs(name[i], "Content-Length"[i]);
    }
  }

  /** In the range of a 64-bit int. */
  function SignedNumber(negative: bool, n: int): Option<int> {
    if negative then (if n <= 9223372036854775808 then Some(-n) else None)
    else if n <= 9223372036854775807 then Some(n)
    else None
  }

  lemma {:induction false} NumberIs(sign: string, n: nat)
    requires sign == "" || sign == "+" || sign == "-"
    ensures Atoi(sign + Digits(n)) == SignedNumber(sign == "-", n)
  {
    hide Digits, Value;
    DigitsArePlain(n);
    ValueOfDigits(n);
    var s := sign + Digits(n);
    assert sign != "" ==> s[1..] == Digits(n) && s[0] == sign[0];
    assert sign == "" ==> s == Digits(n) && IsDigit(s[0]);
  }

  lemma {:induction false} TrimsLeft(before: seq<nat>, s: string)
    requires forall i :: 0 <= i < |before| ==> before[i] in WHITE
    requires s != "" && (IsDigit(s[0]) || s[0] == '+' || s[0] == '-')
    ensures TrimLeft(Spelled(before) + s) == s
  {
    if before == [] {
      assert Spelled(before) + s == s;
      PlainStays(s);
    } else {
      hide TrimLeft, Utf8, IsWhite;
      var rest := before[1..];
      assert before[0] in WHITE;
      assert Spelled(before) + s == Utf8(before[0]) + (Spelled(rest) + s);
      EncodedIsWhite(before[0]);
      DropsFirst(Utf8(before[0]), Spelled(rest) + s);
      TrimsLeft(rest, s);
    }
  }

  lemma {:induction false} PlainStays(s: string)
    requires s != "" && (IsDigit(s[0]) || s[0] == '+' || s[0] == '-')
    ensures TrimLeft(s) == s
  {
  }

  lemma {:induction false} DropsFirst(w: string, s: string)
    requires IsWhite(w)
    ensures TrimLeft(w + s) == TrimLeft(s)
  {
    hide IsWhite;
    OnlyWhole(w);
    var t := w + s;
    assert t[..|w|] == w && t[|w|..] == s;
    assert |w| >= 2 ==> t[..1] == w[..1];
    assert |w| == 3 ==> t[..2] == w[..2];
  }

  /** No encoding of a white space character begins or ends with another. */
  lemma {:induction false} OnlyWhole(w: string)
    requires IsWhite(w)
    ensures 1 <= |w| <= 3
    ensures |w| >= 2 ==> !IsWhite(w[..1]) && !IsWhite(w[|w| - 1..])
    ensures |w| == 3 ==> !IsWhite(w[..2]) && !IsWhite(w[1..])
  {
  }

  lemma {:induction false} TrimsRight(s: string, after: seq<nat>)
    requires forall i :: 0 <= i < |after| ==> after[i] in WHITE
    requires s != "" && IsDigit(s[|s| - 1])
    ensures TrimRight(s + Spelled(after)) == s
  {
    if after == [] {
      assert s + Spelled(after) == s;
      DigitStays(s);
    } else {
      hide TrimRight, Spelled, Utf8, IsWhite;
      var less := after[..|after| - 1];
      SpelledEnd(after);
      assert s + Spelled(after) == (s + Spelled(less)) + Utf8(after[|after| - 1]);
      EncodedIsWhite(after[|after| - 1]);
      DropsLast(s + Spelled(less), Utf8(after[|after| - 1]));
      TrimsRight(s, less);
    }
  }

  lemma {:induction false} DropsLast(s: string, w: string)
    requires IsWhite(w)
    ensures TrimRight(s + w) == TrimRight(s)
  {
    hide IsWhite;
    OnlyWhole(w);
    var t := s + w;
    assert t[|t| - |w|..] == w && t[..|t| - |w|] == s;
    assert |w| >= 2 ==> t[|t| - 1..] == w[|w| - 1..];
    assert |w| == 3 ==> t[|t| - 2..] == w[1..];
  }

  lemma {:induction false} DigitStays(s: string)
    requires s != "" && IsDigit(s[|s| - 1])
    ensures TrimRight(s) == s
  {
    hide *;
    if |s| >= 1 { SuffixIsNotWhite(s, 1); }
    if |s| >= 2 { SuffixIsNotWhite(s, 2); }
    if |s| >= 3 { SuffixIsNotWhite(s, 3); }
    StaysWhole(s);
  }

  lemma {:induction false} SuffixIsNotWhite(s: string, k: nat)
    requires 1 <= k <= |s| && IsDigit(s[|s| - 1])
    ensures !IsWhite(s[|s| - k..])
  {
    hide *;
    var w := s[|s| - k..];
    assert |w| == k && w[|w| - 1] == s[|s| - 1];
    DigitIsNotWhite(w);
  }

  lemma {:induction false} StaysWhole(s: string)
    requires |s| >= 1 ==> !IsWhite(s[|s| - 1..])
    requires |s| >= 2 ==> !IsWhite(s[|s| - 2..])
    requires |s| >= 3 ==> !IsWhite(s[|s| - 3..])
    ensures TrimRight(s) == s
  {
    hide IsWhite;
  }

  lemma {:induction false} DigitIsNotWhite(w: string)
    requires w != "" && IsDigit(w[|w| - 1])
    ensures !IsWhite(w)
  {
  }
}
