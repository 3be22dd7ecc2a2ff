/**
 * Byte-level text: bounding last_error on a rune boundary, and quoting a JSON message. A
 * Go string is a sequence of bytes; here each character stands for one byte.
 */
module Text {

  type Bytes = string

  // ------------------------------------------------- UTF-8, section 3 of RFC 3629

  predicate Within(b: char, low: int, high: int) { low <= b as int <= high }

  predicate Tail(b: char) { Within(b, 0x80, 0xBF) }

  /** utf8.RuneStart: anything but a continuation byte. */
  predicate RuneStart(b: char) { !Tail(b) }

  predicate SecondByte(b0: char, b1: char) {
    if b0 as int == 0xE0 then Within(b1, 0xA0, 0xBF)
    else if b0 as int == 0xED then Within(b1, 0x80, 0x9F)
    else if b0 as int == 0xF0 then Within(b1, 0x90, 0xBF)
    else if b0 as int == 0xF4 then Within(b1, 0x80, 0x8F)
    else Tail(b1)
  }

  /** The length of the encoded character at the front, or 0 if there is none. */
  function RuneLength(s: Bytes): (n: nat)
    ensures n <= |s| && n <= 4
    ensures forall i :: 1 <= i < n ==> Tail(s[i])
    ensures n > 0 ==> RuneStart(s[0])
  {
    if s == [] then 0
    else if Within(s[0], 0x00, 0x7F) then 1
    else if Within(s[0], 0xC2, 0xDF) then
      if |s| >= 2 && Tail(s[1]) then 2 else 0
    else if Within(s[0], 0xE0, 0xEF) then
      if |s| >= 3 && SecondByte(s[0], s[1]) && Tail(s[2]) then 3 else 0
    else if Within(s[0], 0xF0, 0xF4) then
      if |s| >= 4 && SecondByte(s[0], s[1]) && Tail(s[2]) && Tail(s[3]) then 4 else 0
    else 0
  }

  predicate ValidUtf8(s: Bytes)
    decreases |s|
  {
    s == [] || (RuneLength(s) > 0 && ValidUtf8(s[RuneLength(s)..]))
  }

  // ---------------------------------------------------------------- truncate

  const MAX_LAST_ERROR: nat := 2000

  const ELLIPSIS: Bytes := [0xE2 as char, 0x80 as char, 0xA6 as char]

  /** The last rune start at or before i, or the beginning. */
  function RuneBoundary(s: Bytes, i: nat): (cut: nat)
    requires i < |s|
    ensures cut <= i && (cut == 0 || RuneStart(s[cut]))
    ensures forall j :: cut < j <= i ==> Tail(s[j])
  {
    if i > 0 && !RuneStart(s[i]) then RuneBoundary(s, i - 1) else i
  }

  function Truncated(s: Bytes): Bytes {
    if |s| <= MAX_LAST_ERROR then s else s[..RuneBoundary(s, MAX_LAST_ERROR)] + ELLIPSIS
  }

  /** Cuts long text on a rune boundary and marks the cut. */
  method Truncate(s: Bytes) returns (r: Bytes)
    ensures r == Truncated(s)
  {
    if |s| <= MAX_LAST_ERROR {
      return s;
    }
    var cut := MAX_LAST_ERROR;
    while cut > 0 && !RuneStart(s[cut])
      invariant 0 <= cut <= MAX_LAST_ERROR < |s|
      invariant RuneBoundary(s, cut) == RuneBoundary(s, MAX_LAST_ERROR)
    {
      cut := cut - 1;
    }
    r := s[..cut] + ELLIPSIS;
  }

  lemma EllipsisIsValid()
    ensures ValidUtf8(ELLIPSIS)
  {
    assert RuneLength(ELLIPSIS) == 3 && ELLIPSIS[3..] == [];
  }

  /** The column is bounded and, for valid text, holds no broken sequence and loses little. */
  lemma TruncatedIsBoundedAndValid(s: Bytes)
    ensures |s| <= 2000 ==> Truncated(s) == s
    ensures |Truncated(s)| <= 2003
    ensures ValidUtf8(s) ==> ValidUtf8(Truncated(s))
    ensures ValidUtf8(s) && |s| > 2000 ==>
              exists cut :: 1997 <= cut <= 2000 && Truncated(s) == s[..cut] + [0xE2 as char, 0x80 as char, 0xA6 as char]
  {
    assert MAX_LAST_ERROR == 2000;
    if ValidUtf8(s) && |s| > MAX_LAST_ERROR {
      var cut := RuneBoundary(s, MAX_LAST_ERROR);
      StartNearby(s, MAX_LAST_ERROR);
      PrefixAtStartIsValid(s, cut);
      EllipsisIsValid();
      ValidAppend(s[..cut], ELLIPSIS);
      assert 1997 <= cut <= 2000 && Truncated(s) == s[..cut] + ELLIPSIS;
    }
  }

  /** The front character depends only on its own bytes. */
  lemma RuneLengthIsLocal(s: Bytes, t: Bytes)
    requires RuneLength(s) > 0 && RuneLength(s) <= |t| && t[..RuneLength(s)] == s[..RuneLength(s)]
    ensures RuneLength(t) == RuneLength(s)
  {
    var n := RuneLength(s);
    assert forall i :: 0 <= i < n ==> t[i] == t[..n][i] && s[i] == s[..n][i];
  }

  lemma SliceSwap<T>(s: seq<T>, n: nat, cut: nat)
    requires n <= cut <= |s|
    ensures s[..cut][..n] == s[..n] && s[..cut][n..] == s[n..][..cut - n]
  {}

  lemma {:induction false} PrefixAtStartIsValid(s: Bytes, cut: nat)
    requires ValidUtf8(s) && cut < |s| && (cut == 0 || RuneStart(s[cut]))
    ensures ValidUtf8(s[..cut])
    decreases |s|
  {
    var n := RuneLength(s);
    if cut > 0 {
      assert cut >= n;
      var rest := s[n..];
      assert cut > n || cut - n == 0;
      PrefixAtStartIsValid(rest, cut - n);
      SliceSwap(s, n, cut);
      RuneLengthIsLocal(s, s[..cut]);
    }
  }

  /** In valid text no four consecutive bytes are all continuations. */
  lemma {:induction false} StartNearby(s: Bytes, i: nat)
    requires ValidUtf8(s) && i < |s|
    ensures exists j :: 0 <= j <= i < j + 4 && RuneStart(s[j])
    decreases |s|
  {
    var n := RuneLength(s);
    if i < n {
      assert RuneStart(s[0]);
    } else {
      StartNearby(s[n..], i - n);
      var j :| 0 <= j <= i - n < j + 4 && RuneStart(s[n..][j]);
      assert s[n..][j] == s[n + j];
    }
  }

  lemma {:induction false} ValidAppend(a: Bytes, b: Bytes)
    requires ValidUtf8(a) && ValidUtf8(b)
    ensures ValidUtf8(a + b)
    decreases |a|
  {
    if a == [] {
      assert a + b == b;
    } else {
      var n := RuneLength(a);
      assert (a + b)[..n] == a[..n];
      RuneLengthIsLocal(a, a + b);
      assert (a + b)[n..] == a[n..] + b;
      ValidAppend(a[n..], b);
    }
  }

  // --------------------------------------------------------------- quoteJSON

  predicate Control(c: char) { c as int < 0x20 }

  function EscapeByte(c: char): Bytes {
    if c == '"' || c == '\\' then ['\\', c]
    else if c == '\n' then ['\\', 'n']
    else if c == '\r' then ['\\', 'r']
    else if c == '\t' then ['\\', 't']
    else if Control(c) then []
    else [c]
  }

  function Escape(s: Bytes): Bytes {
    if s == [] then [] else EscapeByte(s[0]) + Escape(s[1..])
  }

  lemma EscapeNext(out: Bytes, s: Bytes, i: nat)
    requires i < |s|
    ensures out + Escape(s[i..]) == out + EscapeByte(s[i]) + Escape(s[i + 1..])
  {
    assert s[i..][1..] == s[i + 1..];
  }

  method QuoteJson(s: Bytes) returns (r: Bytes)
    ensures r == ['"'] + Escape(s) + ['"']
  {
    var out: Bytes := ['"'];
    var i := 0;
    assert s[0..] == s;
    while i < |s|
      invariant 0 <= i <= |s|
      invariant out + Escape(s[i..]) == ['"'] + Escape(s)
    {
      var c := s[i];
      EscapeNext(out, s, i);
      ghost var grown := out + EscapeByte(c);
      if c == '"' || c == '\\' {
        out := out + ['\\', c];
      } else if c == '\n' {
        out := out + ['\\', 'n'];
      } else if c == '\r' {
        out := out + ['\\', 'r'];
      } else if c == '\t' {
        out := out + ['\\', 't'];
      } else if !Control(c) {
        out := out + [c];
      }
      assert out == grown;
      i := i + 1;
    }
    r := out + ['"'];
  }

  datatype Parsed = Legal(text: Bytes) | Illegal

  function Cons(c: char, rest: Parsed): Parsed {
    if rest.Legal? then Legal([c] + rest.text) else Illegal
  }

  /** The second character of a two-character escape of section 7 of RFC 8259. */
  predicate Escapable(c: char) {
    c == '"' || c == '\\' || c == '/' || c == 'b' || c == 'f' || c == 'n' || c == 'r' || c == 't'
  }

  function Escaped(c: char): char {
    if c == 'b' then 0x08 as char
    else if c == 'f' then 0x0C as char
    else if c == 'n' then '\n'
    else if c == 'r' then '\r'
    else if c == 't' then '\t'
    else c
  }

  /** Reads the inside of a JSON string: no bare quote, backslash or control character. */
  function Unescape(body: Bytes): Parsed
    decreases |body|
  {
    if body == [] then Legal([])
    else if body[0] == '\\' then
      if |body| >= 2 && Escapable(body[1]) then Cons(Escaped(body[1]), Unescape(body[2..])) else Illegal
    else if body[0] == '"' || Control(body[0]) then Illegal
    else Cons(body[0], Unescape(body[1..]))
  }

  /** A byte that survives quoting: any but the control bytes other than tab, LF and CR. */
  function Kept(c: char): Bytes {
    if Control(c) && c != '\t' && c != '\n' && c != '\r' then [] else [c]
  }

  function Printable(s: Bytes): Bytes {
    if s == [] then [] else Kept(s[0]) + Printable(s[1..])
  }

  lemma ReadsOne(c: char, rest: Bytes, text: Bytes)
    requires Unescape(rest) == Legal(text)
    ensures Unescape(EscapeByte(c) + rest) == Legal(Kept(c) + text)
  {
    var e := EscapeByte(c);
    assert (e + rest)[|e|..] == rest;
    if |e| == 0 {
      assert e + rest == rest && Kept(c) + text == text;
    }
  }

  /** What QuoteJson writes is a legal JSON string that reads back as the printable input. */
  lemma {:induction false} QuotedReadsBack(s: Bytes)
    ensures Unescape(Escape(s)) == Legal(Printable(s))
    decreases |s|
  {
    if s != [] {
      QuotedReadsBack(s[1..]);
      ReadsOne(s[0], Escape(s[1..]), Printable(s[1..]));
    }
  }

  // ------------------------------------------------------ quoting keeps UTF-8

  lemma {:induction false} EscapeAppend(a: Bytes, b: Bytes)
    ensures Escape(a + b) == Escape(a) + Escape(b)
    decreases |a|
  {
    if a == [] {
      assert a + b == b;
    } else {
      assert (a + b)[1..] == a[1..] + b;
      EscapeAppend(a[1..], b);
    }
  }

  lemma {:induction false} HighBytesPass(a: Bytes)
    requires forall i :: 0 <= i < |a| ==> a[i] as int >= 0x80
    ensures Escape(a) == a
    decreases |a|
  {
    if a != [] {
      HighBytesPass(a[1..]);
    }
  }

  lemma AsciiIsValid(a: Bytes)
    requires |a| <= 2 && forall i :: 0 <= i < |a| ==> a[i] as int <= 0x7F
    ensures ValidUtf8(a)
  {
    if |a| == 2 {
      assert ValidUtf8(a[1..]) by { assert a[1..][1..] == []; }
    }
  }

  lemma EscapedRuneIsValid(s: Bytes)
    requires RuneLength(s) > 0
    ensures ValidUtf8(Escape(s[..RuneLength(s)]))
  {
    var n := RuneLength(s);
    var rune := s[..n];
    if s[0] as int <= 0x7F {
      assert Escape(rune) == EscapeByte(s[0]) by { assert rune[1..] == []; }
      AsciiIsValid(EscapeByte(s[0]));
    } else {
      HighBytesPass(rune);
      RuneLengthIsLocal(s, rune);
      assert rune[n..] == [];
    }
  }

  /** A message in UTF-8 is quoted in UTF-8, as section 8.1 of RFC 8259 requires. */
  lemma {:induction false} QuotingKeepsUtf8(s: Bytes)
    requires ValidUtf8(s)
    ensures ValidUtf8(Escape(s)) && ValidUtf8(['"'] + Escape(s) + ['"'])
    decreases |s|
  {
    if s != [] {
      var n := RuneLength(s);
      assert s == s[..n] + s[n..];
      EscapeAppend(s[..n], s[n..]);
      EscapedRuneIsValid(s);
      QuotingKeepsUtf8(s[n..]);
      ValidAppend(Escape(s[..n]), Escape(s[n..]));
    }
    AsciiIsValid(['"']);
    ValidAppend(['"'], Escape(s));
    ValidAppend(['"'] + Escape(s), ['"']);
  }
}
