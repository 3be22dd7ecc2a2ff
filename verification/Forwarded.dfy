/** X-Forwarded-For: which entry identifies the client, and why a caller cannot choose it. */
module Forwarded {

  predicate Blank(c: char) { c == ' ' || c == '\t' }

  function TrimLeft(s: string): string {
    if s != [] && Blank(s[0]) then TrimLeft(s[1..]) else s
  }

  function TrimRight(s: string): string {
    if s != [] && Blank(s[|s| - 1]) then TrimRight(s[..|s| - 1]) else s
  }

  function Trim(s: string): string { TrimRight(TrimLeft(s)) }

  /** Puts text in front of the first part. */
  function Glue(text: string, parts: seq<string>): (r: seq<string>)
    requires parts != []
    ensures |r| == |parts|
  {
    [text + parts[0]] + parts[1..]
  }

  /** The parts between commas, as they stand; always at least one. */
  function Parts(s: string): (r: seq<string>)
    ensures r != []
  {
    if s == [] then [""]
    else if s[0] == ',' then [""] + Parts(s[1..])
    else Glue([s[0]], Parts(s[1..]))
  }

  function Entry(part: string): seq<string> {
    if Trim(part) == [] then [] else [Trim(part)]
  }

  function Cleaned(parts: seq<string>): seq<string> {
    if parts == [] then [] else Entry(parts[0]) + Cleaned(parts[1..])
  }

  /** The entries of a header: its parts, trimmed, the empty ones dropped. */
  function Entries(header: string): seq<string> { Cleaned(Parts(header)) }

  function AllEntries(headers: seq<string>): seq<string> {
    if headers == [] then [] else Entries(headers[0]) + AllEntries(headers[1..])
  }

  // ------------------------------------------------------------- the parser

  method TrimSpace(s: string) returns (r: string)
    ensures r == Trim(s)
  {
    r := s;
    while |r| > 0 && Blank(r[0])
      invariant TrimLeft(r) == TrimLeft(s)
      decreases |r|
    {
      r := r[1..];
    }
    while |r| > 0 && Blank(r[|r| - 1])
      invariant TrimRight(r) == Trim(s)
      decreases |r|
    {
      r := r[..|r| - 1];
    }
  }

  /** Trimming takes blanks and tabs off both ends, all of them and nothing else. */
  ghost predicate IsTrimmed(s: string, r: string, i: nat, j: nat) {
    && i <= j <= |s| && r == s[i..j]
    && (forall k :: 0 <= k < i || j <= k < |s| ==> s[k] == ' ' || s[k] == '\t')
    && (r != "" ==> r[0] != ' ' && r[0] != '\t' && r[|r| - 1] != ' ' && r[|r| - 1] != '\t')
  }

  lemma {:induction false} TrimLeftTakes(s: string) returns (i: nat)
    ensures i <= |s| && TrimLeft(s) == s[i..] && forall k :: 0 <= k < i ==> s[k] == ' ' || s[k] == '\t'
    ensures i < |s| ==> s[i] != ' ' && s[i] != '\t'
    decreases |s|
  {
    i := 0;
    if s != [] && Blank(s[0]) {
      i := TrimLeftTakes(s[1..]);
      assert s[1..][i..] == s[i + 1..];
      assert forall k :: 1 <= k < i + 1 ==> s[k] == s[1..][k - 1];
      i := i + 1;
    }
  }

  lemma {:induction false} TrimRightTakes(s: string) returns (j: nat)
    ensures j <= |s| && TrimRight(s) == s[..j] && forall k :: j <= k < |s| ==> s[k] == ' ' || s[k] == '\t'
    ensures j > 0 ==> s[j - 1] != ' ' && s[j - 1] != '\t'
    decreases |s|
  {
    j := |s|;
    if s != [] && Blank(s[|s| - 1]) {
      j := TrimRightTakes(s[..|s| - 1]);
      assert s[..|s| - 1][..j] == s[..j];
    }
  }

  lemma TrimTakesBlanksOff(s: string)
    ensures exists i, j :: IsTrimmed(s, Trim(s), i, j)
  {
    var i := TrimLeftTakes(s);
    var mid := s[i..];
    var n := TrimRightTakes(mid);
    assert mid[..n] == s[i..i + n];
    assert forall k :: i <= k < |s| ==> s[k] == mid[k - i];
    assert IsTrimmed(s, Trim(s), i, i + n);
  }

  lemma Regroup<T>(a: seq<T>, b: seq<T>, c: seq<T>)
    ensures a + (b + c) == a + b + c
  {}

  lemma CleanedCons(part: string, rest: seq<string>)
    ensures Cleaned([part] + rest) == Entry(part) + Cleaned(rest)
  {
    assert ([part] + rest)[1..] == rest;
  }

  /** The parts still open at i, when the current one began at start. */
  function OpenParts(header: string, start: nat, i: nat): seq<string>
    requires start <= i <= |header|
  {
    Glue(header[start..i], Parts(header[i..]))
  }

  lemma PartGrows(header: string, start: nat, i: nat)
    requires start <= i < |header| && header[i] != ','
    ensures OpenParts(header, start, i) == OpenParts(header, start, i + 1)
  {
    assert header[i..][1..] == header[i + 1..];
    assert header[start..i] + [header[i]] == header[start..i + 1];
    var rest := Parts(header[i + 1..]);
    assert Glue([header[i]], rest)[0] == [header[i]] + rest[0];
    assert header[start..i] + ([header[i]] + rest[0]) == header[start..i + 1] + rest[0];
  }

  lemma GlueNothing(parts: seq<string>)
    requires parts != []
    ensures Glue("", parts) == parts
  {
    assert "" + parts[0] == parts[0];
    assert [parts[0]] + parts[1..] == parts;
  }

  lemma PartEnds(header: string, start: nat, i: nat)
    requires start <= i <= |header| && (i == |header| || header[i] == ',')
    ensures OpenParts(header, start, i) ==
            [header[start..i]] + (if i == |header| then [] else OpenParts(header, i + 1, i + 1))
  {
    var part := header[start..i];
    assert part + "" == part;
    if i < |header| {
      var rest := Parts(header[i + 1..]);
      assert header[i..][1..] == header[i + 1..];
      assert ([""] + rest)[1..] == rest;
      GlueNothing(rest);
      assert header[i + 1..i + 1] == "";
    }
  }

  /** What has been read and what is still open make up the header. */
  ghost predicate ReadUpTo(out: seq<string>, header: string, start: nat, i: nat) {
    if start <= i <= |header| then out + Cleaned(OpenParts(header, start, i)) == Entries(header)
    else out == Entries(header)
  }

  lemma ReadEntry(out: seq<string>, header: string, start: nat, i: nat)
    requires start <= i <= |header| && (i == |header| || header[i] == ',')
    requires ReadUpTo(out, header, start, i)
    ensures ReadUpTo(out + Entry(header[start..i]), header, i + 1, i + 1)
  {
    var part, rest := header[start..i], if i == |header| then [] else OpenParts(header, i + 1, i + 1);
    PartEnds(header, start, i);
    CleanedCons(part, rest);
    Regroup(out, Entry(part), Cleaned(rest));
  }

  lemma ReadStarts(header: string)
    ensures ReadUpTo([], header, 0, 0)
  {
    assert header[0..] == header;
    assert header[0..0] == "";
    GlueNothing(Parts(header));
  }

  method SplitAndTrim(header: string) returns (out: seq<string>)
    ensures out == Entries(header)
  {
    out := [];
    var start, i := 0, 0;
    ReadStarts(header);
    while i <= |header|
      invariant 0 <= start <= i <= |header| + 1
      invariant ReadUpTo(out, header, start, i)
      decreases |header| + 1 - i
    {
      if i == |header| || header[i] == ',' {
        var part := TrimSpace(header[start..i]);
        ReadEntry(out, header, start, i);
        if part != "" {
          out := out + [part];
        } else {
          assert out + Entry(header[start..i]) == out;
        }
        start := i + 1;
      } else {
        PartGrows(header, start, i);
      }
      i := i + 1;
    }
  }

  /** The client address: the trustedProxies-th entry from the right, or the direct peer. */
  function ClientAddrOf(headers: seq<string>, direct: string, trustedProxies: int): string {
    var entries := AllEntries(headers);
    if 0 < trustedProxies <= |entries| then entries[|entries| - trustedProxies] else direct
  }

  /** The entries of the first k lines have been collected. */
  ghost predicate LinesRead(hops: seq<string>, headers: seq<string>, k: nat) {
    k <= |headers| && hops + AllEntries(headers[k..]) == AllEntries(headers)
  }

  lemma NextLine(hops: seq<string>, headers: seq<string>, k: nat)
    requires k < |headers| && LinesRead(hops, headers, k)
    ensures LinesRead(hops + Entries(headers[k]), headers, k + 1)
  {
    assert headers[k..][1..] == headers[k + 1..];
    Regroup(hops, Entries(headers[k]), AllEntries(headers[k + 1..]));
  }

  lemma LinesEnds(hops: seq<string>, headers: seq<string>)
    ensures LinesRead([], headers, 0)
    ensures LinesRead(hops, headers, |headers|) ==> hops == AllEntries(headers)
  {
    assert headers[0..] == headers && headers[|headers|..] == [];
  }

  method CollectHops(headers: seq<string>) returns (hops: seq<string>)
    ensures hops == AllEntries(headers)
  {
    hops := [];
    var k := 0;
    LinesEnds([], headers);
    while k < |headers|
      invariant 0 <= k <= |headers| && LinesRead(hops, headers, k)
    {
      var parts := SplitAndTrim(headers[k]);
      NextLine(hops, headers, k);
      hops := hops + parts;
      k := k + 1;
    }
    LinesEnds(hops, headers);
  }

  method ClientAddr(headers: seq<string>, direct: string, trustedProxies: int) returns (addr: string)
    ensures addr == ClientAddrOf(headers, direct, trustedProxies)
  {
    if trustedProxies <= 0 {
      return direct;
    }
    var hops := CollectHops(headers);
    hops := hops + [direct];
    var idx := |hops| - 1 - trustedProxies;
    if idx < 0 {
      return direct;
    }
    return hops[idx];
  }

  // -------------------------------------------------------------- properties

  lemma {:induction false} PartsOfJoined(a: string, b: string)
    ensures Parts(a + "," + b) == Parts(a) + Parts(b)
    decreases |a|
  {
    var joined := a + "," + b;
    if a == [] {
      assert joined[1..] == b;
    } else {
      assert joined[1..] == a[1..] + "," + b;
      PartsOfJoined(a[1..], b);
    }
  }

  lemma {:induction false} CleanedSplit(a: seq<string>, b: seq<string>)
    ensures Cleaned(a + b) == Cleaned(a) + Cleaned(b)
    decreases |a|
  {
    if a == [] {
      assert a + b == b;
    } else {
      assert a + b == [a[0]] + (a[1..] + b);
      CleanedCons(a[0], a[1..] + b);
      CleanedSplit(a[1..], b);
    }
  }

  /** Splitting distributes over joining two headers with a comma. */
  lemma EntriesOfJoined(a: string, b: string)
    ensures Entries(a + "," + b) == Entries(a) + Entries(b)
  {
    PartsOfJoined(a, b);
    CleanedSplit(Parts(a), Parts(b));
  }

  lemma {:induction false} AllEntriesSplit(a: seq<string>, b: seq<string>)
    ensures AllEntries(a + b) == AllEntries(a) + AllEntries(b)
    decreases |a|
  {
    if a == [] {
      assert a + b == b;
    } else {
      assert (a + b)[1..] == a[1..] + b;
      AllEntriesSplit(a[1..], b);
    }
  }

  /** An entry as a proxy writes it: not empty, no comma, no blank at either end. */
  predicate Clean(part: string) {
    part != "" && !Blank(part[0]) && !Blank(part[|part| - 1]) && forall i :: 0 <= i < |part| ==> part[i] != ','
  }

  function Join(parts: seq<string>): string
    requires parts != []
  {
    if |parts| == 1 then parts[0] else parts[0] + "," + Join(parts[1..])
  }

  lemma {:induction false} NoCommaOnePart(s: string)
    requires forall j :: 0 <= j < |s| ==> s[j] != ','
    ensures Parts(s) == [s]
    decreases |s|
  {
    if s != [] {
      NoCommaOnePart(s[1..]);
      assert [s[0]] + s[1..] == s;
    }
  }

  lemma {:induction false} CleanKeepsItself(part: string)
    requires Clean(part)
    ensures Trim(part) == part
  {}

  lemma OnePartIsOneEntry(part: string)
    requires Trim(part) != "" && forall i :: 0 <= i < |part| ==> part[i] != ','
    ensures Entries(part) == [Trim(part)]
  {
    NoCommaOnePart(part);
    CleanedCons(part, []);
    assert [part] + [] == [part];
    assert Entry(part) + Cleaned([]) == [Trim(part)];
  }

  /** Parsing inverts joining clean parts. */
  lemma {:induction false} EntriesInvertJoin(parts: seq<string>)
    requires parts != [] && forall p :: p in parts ==> Clean(p)
    ensures Entries(Join(parts)) == parts
    decreases |parts|
  {
    assert parts[0] in parts;
    CleanKeepsItself(parts[0]);
    OnePartIsOneEntry(parts[0]);
    if |parts| > 1 {
      EntriesOfJoined(parts[0], Join(parts[1..]));
      EntriesInvertJoin(parts[1..]);
      assert parts == [parts[0]] + parts[1..];
    }
  }

  lemma LastLine(lines: seq<string>, last: string)
    ensures AllEntries(lines + [last]) == AllEntries(lines) + Entries(last)
  {
    AllEntriesSplit(lines, [last]);
    assert [last][1..] == [];
  }

  // ------------------------------------------------------------ trusted proxies

  /** What a proxy appends, blanks included, and whether it opens a header line of its own. */
  datatype Hop = Hop(text: string, ownLine: bool) {
    /** The address it saw. */
    predicate Valid() { Trim(text) != "" && forall i :: 0 <= i < |text| ==> text[i] != ',' }
  }

  function Passed(headers: seq<string>, hop: Hop): seq<string> {
    if headers == [] || hop.ownLine then headers + [hop.text]
    else headers[..|headers| - 1] + [headers[|headers| - 1] + "," + hop.text]
  }

  /** The header lines after a chain of proxies, the first one first. */
  function PassedAll(headers: seq<string>, hops: seq<Hop>): seq<string>
    decreases |hops|
  {
    if hops == [] then headers else PassedAll(Passed(headers, hops[0]), hops[1..])
  }

  function Seen(hops: seq<Hop>): seq<string> {
    if hops == [] then [] else [Trim(hops[0].text)] + Seen(hops[1..])
  }

  lemma HopAppends(headers: seq<string>, hop: Hop)
    requires hop.Valid()
    ensures AllEntries(Passed(headers, hop)) == AllEntries(headers) + [Trim(hop.text)]
  {
    OnePartIsOneEntry(hop.text);
    if headers == [] || hop.ownLine {
      LastLine(headers, hop.text);
    } else {
      var lines, last := headers[..|headers| - 1], headers[|headers| - 1];
      assert headers == lines + [last];
      LastLine(lines, last);
      LastLine(lines, last + "," + hop.text);
      EntriesOfJoined(last, hop.text);
      Regroup(AllEntries(lines), Entries(last), [Trim(hop.text)]);
    }
  }

  lemma {:induction false} HopsAppend(headers: seq<string>, hops: seq<Hop>)
    requires forall h :: h in hops ==> h.Valid()
    ensures AllEntries(PassedAll(headers, hops)) == AllEntries(headers) + Seen(hops) && |Seen(hops)| == |hops|
    decreases |hops|
  {
    if hops != [] {
      assert hops[0] in hops;
      HopAppends(headers, hops[0]);
      HopsAppend(Passed(headers, hops[0]), hops[1..]);
      Regroup(AllEntries(headers), [Trim(hops[0].text)], Seen(hops[1..]));
    }
  }

  lemma FirstOfLast<T>(before: seq<T>, last: seq<T>)
    requires last != []
    ensures (before + last)[|before + last| - |last|] == last[0]
  {}

  /**
   * With N trusted proxies, each appending the address it saw to the last line or on a line
   * of its own, with whatever blanks, the client address is what the first of them saw. What
   * the caller sent - nothing, or any lines with any text - makes no difference.
   */
  lemma CallerCannotSteer(sent: seq<string>, hops: seq<Hop>, direct: string)
    requires hops != [] && forall h :: h in hops ==> h.Valid()
    ensures ClientAddrOf(PassedAll(sent, hops), direct, |hops|) == Trim(hops[0].text)
  {
    HopsAppend(sent, hops);
    FirstOfLast(AllEntries(sent), Seen(hops));
  }

  /**
   * A request that passed fewer proxies than are trusted falls back to the direct peer, unless
   * the caller itself sent enough entries to make up for them.
   */
  lemma ShortChainFallsBack(sent: seq<string>, hops: seq<Hop>, direct: string, trustedProxies: int)
    requires forall h :: h in hops ==> h.Valid()
    requires |AllEntries(sent)| + |hops| < trustedProxies
    ensures ClientAddrOf(PassedAll(sent, hops), direct, trustedProxies) == direct
  {
    HopsAppend(sent, hops);
  }
}
