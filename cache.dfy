/**
 * The divergence cache of git-prompt.c: the key built from three object
 * ids, the one-line record `key=ma,mb,ua,ub` written after an expensive
 * search, and the reader that accepts that line only under the same key.
 *
 * The cache file is modelled as its contents (None when it does not exist);
 * strbuf appends are string concatenation.
 */
module DivergenceCache {
  import opened Wrappers

  predicate IsHexDigit(c: char)
  {
    '0' <= c <= '9' || 'a' <= c <= 'f'
  }

  /** The output of oid_to_hex: a non-empty run of lower-case hex digits. */
  type HexId = s: string | |s| > 0 && forall i :: 0 <= i < |s| ==> IsHexDigit(s[i]) witness "0"

  /** The characters a cache key is made of. */
  predicate IsCacheKey(key: string)
  {
    forall i :: 0 <= i < |key| ==> IsHexDigit(key[i]) || key[i] == ','
  }

  predicate NoComma(s: string)
  {
    forall i :: 0 <= i < |s| ==> s[i] != ','
  }

  function OrEmpty(id: Option<HexId>): string
  {
    if id.Some? then id.value else ""
  }

  /**
   * build_cache_key: `head,remote,tracking`, where an absent remote or
   * tracking ref leaves its segment empty. The key is made of hex digits and
   * commas only.
   */
  function BuildCacheKey(head: HexId, remote: Option<HexId>, tracking: Option<HexId>): (key: string)
    ensures IsCacheKey(key)
  {
    head + "," + OrEmpty(remote) + "," + OrEmpty(tracking)
  }

  /** The index of the first comma of `s`, or its length. */
  function CommaIndex(s: string): nat
  {
    if |s| == 0 || s[0] == ',' then 0 else 1 + CommaIndex(s[1..])
  }

  lemma {:induction false} CommaIndexAfter(a: string, b: string)
    requires NoComma(a)
    ensures CommaIndex(a + "," + b) == |a|
  {
    if |a| > 0 {
      assert (a + "," + b)[1..] == a[1..] + "," + b;
      CommaIndexAfter(a[1..], b);
    }
  }

  /** Splitting at the first comma is unique when the first part has none. */
  lemma {:induction false} FirstCommaSplit(a: string, b: string, c: string, d: string)
    requires NoComma(a) && NoComma(c)
    requires a + "," + b == c + "," + d
    ensures a == c && b == d
  {
    CommaIndexAfter(a, b);
    CommaIndexAfter(c, d);
    assert |a| == |c|;
    assert a == (a + "," + b)[..|a|];
    assert c == (c + "," + d)[..|c|];
    assert b == (a + "," + b)[|a| + 1..];
    assert d == (c + "," + d)[|c| + 1..];
  }

  /**
   * Different refs give different keys: the key determines the head id and
   * which of the remote and tracking refs are present, with their ids.
   */
  lemma {:induction false} BuildCacheKeyInjective(h1: HexId, r1: Option<HexId>, t1: Option<HexId>,
                                                  h2: HexId, r2: Option<HexId>, t2: Option<HexId>)
    requires BuildCacheKey(h1, r1, t1) == BuildCacheKey(h2, r2, t2)
    ensures h1 == h2 && r1 == r2 && t1 == t2
  {
    assert BuildCacheKey(h1, r1, t1) == h1 + "," + (OrEmpty(r1) + "," + OrEmpty(t1));
    assert BuildCacheKey(h2, r2, t2) == h2 + "," + (OrEmpty(r2) + "," + OrEmpty(t2));
    FirstCommaSplit(h1, OrEmpty(r1) + "," + OrEmpty(t1), h2, OrEmpty(r2) + "," + OrEmpty(t2));
    FirstCommaSplit(OrEmpty(r1), OrEmpty(t1), OrEmpty(r2), OrEmpty(t2));
  }

  /** struct divergence_data. */
  datatype DivergenceData = DivergenceData(cached: bool, mainAhead: int, mainBehind: int,
                                           upstreamAhead: int, upstreamBehind: int)

  /** A cache miss: not cached, every count -1. */
  const Miss := DivergenceData(false, -1, -1, -1, -1)

  /** The threshold below which a search is too cheap to cache. */
  const MinCachedCost := 10

  // ----- decimal integers, as fprintf's and sscanf's %d -----

  predicate IsDigit(c: char)
  {
    '0' <= c <= '9'
  }

  predicate AllDigits(s: string)
  {
    forall i :: 0 <= i < |s| ==> IsDigit(s[i])
  }

  function DigitChar(d: nat): (c: char)
    requires d < 10
    ensures IsDigit(c) && (c as int) - ('0' as int) == d
  {
    (('0' as int) + d) as char
  }

  /** The decimal digits of n, most significant first, no leading zeros. */
  function NatDigits(n: nat): (s: string)
    ensures |s| >= 1 && AllDigits(s)
    decreases n
  {
    if n < 10 then [DigitChar(n)] else NatDigits(n / 10) + [DigitChar(n % 10)]
  }

  /** %d as printed: a '-' before the digits of a negative number. */
  function Decimal(n: int): string
  {
    if n < 0 then "-" + NatDigits(-n) else NatDigits(n)
  }

  /** The value of a run of decimal digits. */
  function DigitsValue(s: string): nat
    requires AllDigits(s)
    decreases |s|
  {
    if |s| == 0 then 0
    else DigitsValue(s[..|s| - 1]) * 10 + ((s[|s| - 1] as int) - ('0' as int))
  }

  /** C's isspace in the "C" locale. */
  predicate IsCSpace(c: char)
  {
    c == ' ' || c == '\t' || c == '\n' || c == '\U{B}' || c == '\U{C}' || c == '\r'
  }

  /** The length of the run of digits that s starts with. */
  function DigitRun(s: string): (k: nat)
    ensures k <= |s| && AllDigits(s[..k])
    ensures k < |s| ==> !IsDigit(s[k])
    decreases |s|
  {
    if |s| > 0 && IsDigit(s[0]) then 1 + DigitRun(s[1..]) else 0
  }

  /**
   * One %d conversion: leading white space is skipped, an optional sign,
   * then at least one digit, as many as there are. Gives the value and the
   * text after it, or None when no digit follows.
   */
  function ScanInt(s: string): Option<(int, string)>
    decreases |s|
  {
    if |s| > 0 && IsCSpace(s[0]) then ScanInt(s[1..])
    else if |s| > 0 && s[0] == '-' then
      match ScanDigits(s[1..])
      case None => None
      case Some((v, rest)) => Some((-v, rest))
    else if |s| > 0 && s[0] == '+' then ScanDigits(s[1..])
    else ScanDigits(s)
  }

  /** The value of the digits s starts with (at least one) and the text after them. */
  function ScanDigits(u: string): Option<(int, string)>
  {
    var k := DigitRun(u);
    if k == 0 then None else Some((DigitsValue(u[..k]), u[k..]))
  }

  /**
   * sscanf with the format `%d,%d,...` (n conversions): each comma must
   * follow the previous number immediately; text after the last number is
   * ignored. Gives the n values, or None when fewer than n convert.
   */
  function ScanInts(s: string, n: nat): (r: Option<seq<int>>)
    ensures r.Some? ==> |r.value| == n
    decreases n
  {
    if n == 0 then Some([])
    else match ScanInt(s)
      case None => None
      case Some((v, rest)) =>
        if n == 1 then Some([v])
        else if |rest| > 0 && rest[0] == ',' then
          match ScanInts(rest[1..], n - 1)
          case None => None
          case Some(vs) => Some([v] + vs)
        else None
  }

  // ----- the cache line -----

  /** Integers printed with %d and separated by commas. */
  function JoinDecimals(vs: seq<int>): string
    requires |vs| >= 1
    decreases |vs|
  {
    if |vs| == 1 then Decimal(vs[0]) else Decimal(vs[0]) + "," + JoinDecimals(vs[1..])
  }

  /** The four counts as printed: `ma,mb,ua,ub`. */
  function Counts(data: DivergenceData): string
  {
    JoinDecimals([data.mainAhead, data.mainBehind, data.upstreamAhead, data.upstreamBehind])
  }

  /** The line write_divergence_cache prints: `key=ma,mb,ua,ub` and a newline. */
  function FormatLine(key: string, data: DivergenceData): string
  {
    key + "=" + Counts(data) + "\n"
  }

  /**
   * strbuf_getline on the file contents: the text before the first newline,
   * less a carriage return just before that newline. None at end of file,
   * that is, for an empty file.
   */
  function FirstLine(contents: string): (line: Option<string>)
    ensures line.Some? ==> |line.value| <= |contents| && line.value == contents[..|line.value|]
    ensures line.Some? ==> forall i :: 0 <= i < |line.value| ==> line.value[i] != '\n'
    ensures line.None? <==> |contents| == 0
  {
    if |contents| == 0 then None
    else
      var nl := NewlineAt(contents);
      if nl == |contents| then Some(contents)
      else if nl > 0 && contents[nl - 1] == '\r' then Some(contents[..nl - 1])
      else Some(contents[..nl])
  }

  /** The index of the first newline, or |s| when there is none. */
  function NewlineAt(s: string): (k: nat)
    ensures k <= |s| && (k < |s| ==> s[k] == '\n')
    ensures forall i :: 0 <= i < k ==> s[i] != '\n'
    decreases |s|
  {
    if |s| == 0 then 0 else if s[0] == '\n' then 0 else 1 + NewlineAt(s[1..])
  }

  /** The index of the first '=' of `s`, or its length. */
  function EqIndex(s: string): nat
  {
    if |s| == 0 || s[0] == '=' then 0 else 1 + EqIndex(s[1..])
  }

  lemma {:induction false} EqIndexAfter(a: string, b: string)
    requires IsCacheKey(a)
    ensures EqIndex(a + "=" + b) == |a|
  {
    if |a| > 0 {
      assert (a + "=" + b)[1..] == a[1..] + "=" + b;
      EqIndexAfter(a[1..], b);
    }
  }

  /** The only key a line written under `written` matches is `written`. */
  lemma KeyMatchIsKey(written: string, rest: string, asked: string)
    requires IsCacheKey(written) && IsCacheKey(asked)
    ensures KeyMatches(written + "=" + rest, asked) ==> asked == written
  {
    var l := written + "=" + rest;
    EqIndexAfter(written, rest);
    if KeyMatches(l, asked) {
      assert l == asked + "=" + l[|asked| + 1..];
      EqIndexAfter(asked, l[|asked| + 1..]);
      assert written == l[..|written|];
    }
  }

  /** The line is the key followed at once by '='. */
  predicate KeyMatches(line: string, key: string)
  {
    |line| > |key| && line[..|key|] == key && line[|key|] == '='
  }

  /**
   * read_divergence_cache: a miss (not cached, all four values -1) when the
   * file is missing or empty, when its first line is not the key followed by
   * '=', or when fewer than four integers follow; otherwise a hit carrying
   * the four integers in order.
   */
  function ReadCache(file: Option<string>, key: string): (data: DivergenceData)
    ensures !data.cached ==> data == Miss
    ensures data.cached <==> file.Some? && FirstLine(file.value).Some?
                             && KeyMatches(FirstLine(file.value).value, key)
                             && ScanInts(FirstLine(file.value).value[|key| + 1..], 4).Some?
    ensures data.cached ==>
              ScanInts(FirstLine(file.value).value[|key| + 1..], 4)
              == Some([data.mainAhead, data.mainBehind, data.upstreamAhead, data.upstreamBehind])
  {
    if file.None? then Miss
    else match FirstLine(file.value)
      case None => Miss
      case Some(line) =>
        if !KeyMatches(line, key) then Miss
        else match ScanInts(line[|key| + 1..], 4)
          case None => Miss
          case Some(vs) =>
            assert vs == [vs[0], vs[1], vs[2], vs[3]];
            DivergenceData(true, vs[0], vs[1], vs[2], vs[3])
  }

  /**
   * write_divergence_cache: nothing is written when the search cost fewer
   * than MinCachedCost visits or the file cannot be written; otherwise the
   * file holds exactly the formatted line.
   */
  function WriteCache(file: Option<string>, key: string, data: DivergenceData,
                      totalCost: int, writable: bool): Option<string>
  {
    if totalCost < MinCachedCost || !writable then file
    else Some(FormatLine(key, data))
  }

  // ----- properties -----

  lemma {:induction false} DigitRunOfDigits(ds: string, rest: string)
    requires AllDigits(ds)
    requires |rest| == 0 || !IsDigit(rest[0])
    ensures DigitRun(ds + rest) == |ds|
    decreases |ds|
  {
    if |ds| > 0 {
      assert (ds + rest)[1..] == ds[1..] + rest;
      DigitRunOfDigits(ds[1..], rest);
    }
  }

  lemma {:induction false} NatDigitsValue(n: nat)
    ensures DigitsValue(NatDigits(n)) == n
    decreases n
  {
    if n >= 10 {
      var s := NatDigits(n);
      assert s[..|s| - 1] == NatDigits(n / 10);
      NatDigitsValue(n / 10);
    }
  }

  /** Scanning printed digits gives their number back, with the rest untouched. */
  lemma ScanNatDigits(m: nat, rest: string)
    requires |rest| == 0 || !IsDigit(rest[0])
    ensures ScanDigits(NatDigits(m) + rest) == Some((m, rest))
  {
    var u := NatDigits(m) + rest;
    DigitRunOfDigits(NatDigits(m), rest);
    assert u[..|NatDigits(m)|] == NatDigits(m);
    assert u[|NatDigits(m)|..] == rest;
    NatDigitsValue(m);
  }

  lemma ScanNegative(n: int, rest: string, s: string)
    requires n < 0 && (|rest| == 0 || !IsDigit(rest[0]))
    requires s == "-" + (NatDigits(-n) + rest)
    ensures ScanInt(s) == Some((n, rest))
  {
    ScanNatDigits(-n, rest);
    assert s[0] == '-' && s[1..] == NatDigits(-n) + rest;
  }

  lemma ScanNonNegative(n: int, rest: string, s: string)
    requires n >= 0 && (|rest| == 0 || !IsDigit(rest[0]))
    requires s == NatDigits(n) + rest
    ensures ScanInt(s) == Some((n, rest))
  {
    var digits := NatDigits(n);
    ScanNatDigits(n, rest);
    assert IsDigit(digits[0]);
    assert s[0] == digits[0];
  }

  lemma AppendAssoc(a: string, b: string, c: string)
    ensures (a + b) + c == a + (b + c)
  {
  }

  /** Scanning a printed integer gives it back, with the rest untouched. */
  lemma ScanDecimal(n: int, rest: string)
    requires |rest| == 0 || !IsDigit(rest[0])
    ensures ScanInt(Decimal(n) + rest) == Some((n, rest))
  {
    if n < 0 {
      var digits := NatDigits(-n);
      assert Decimal(n) == "-" + digits;
      AppendAssoc("-", digits, rest);
      ScanNegative(n, rest, Decimal(n) + rest);
    } else {
      ScanNonNegative(n, rest, Decimal(n) + rest);
    }
  }

  /** A printed integer, a comma and more integers scan as one more. */
  lemma ScanCons(v: int, rest: string, n: nat, s: string)
    requires n >= 2 && ScanInts(rest, n - 1).Some?
    requires s == Decimal(v) + "," + rest
    ensures ScanInts(s, n) == Some([v] + ScanInts(rest, n - 1).value)
  {
    ScanDecimal(v, "," + rest);
    AppendAssoc(Decimal(v), ",", rest);
    assert ("," + rest)[1..] == rest;
  }

  lemma ScanSingle(v: int)
    ensures ScanInts(Decimal(v), 1) == Some([v])
  {
    ScanDecimal(v, "");
    assert Decimal(v) + "" == Decimal(v);
  }

  /** A comma-separated list of printed integers scans back to the list. */
  lemma {:induction false} ScanJoined(vs: seq<int>)
    requires |vs| >= 1
    ensures ScanInts(JoinDecimals(vs), |vs|) == Some(vs)
    decreases |vs|
  {
    if |vs| == 1 {
      ScanSingle(vs[0]);
      assert vs == [vs[0]];
    } else {
      var tail := vs[1..];
      ScanJoined(tail);
      ScanCons(vs[0], JoinDecimals(tail), |vs|, JoinDecimals(vs));
      assert [vs[0]] + tail == vs;
    }
  }

  predicate NoNewline(s: string)
  {
    forall i :: 0 <= i < |s| ==> s[i] != '\n'
  }

  lemma DecimalShape(n: int)
    ensures |Decimal(n)| > 0 && NoNewline(Decimal(n)) && IsDigit(Decimal(n)[|Decimal(n)| - 1])
  {
  }

  /** Printed integers hold no newline and end in a digit. */
  lemma {:induction false} JoinedShape(vs: seq<int>)
    requires |vs| >= 1
    ensures var s := JoinDecimals(vs); |s| > 0 && NoNewline(s) && IsDigit(s[|s| - 1])
    decreases |vs|
  {
    DecimalShape(vs[0]);
    if |vs| > 1 {
      JoinedShape(vs[1..]);
    }
  }

  lemma {:induction false} NewlineAtEnd(body: string)
    requires NoNewline(body)
    ensures NewlineAt(body + "\n") == |body|
    decreases |body|
  {
    if |body| > 0 {
      assert (body + "\n")[1..] == body[1..] + "\n";
      NewlineAtEnd(body[1..]);
    }
  }

  /** The first line of a formatted record is the record less its newline. */
  lemma {:induction false} FormattedFirstLine(key: string, data: DivergenceData)
    requires IsCacheKey(key)
    ensures FirstLine(FormatLine(key, data)) == Some(key + "=" + Counts(data))
  {
    var body := key + "=" + Counts(data);
    JoinedShape([data.mainAhead, data.mainBehind, data.upstreamAhead, data.upstreamBehind]);
    assert NoNewline(body);
    assert body[|body| - 1] == Counts(data)[|Counts(data)| - 1];
    NewlineAtEnd(body);
    assert FormatLine(key, data) == body + "\n";
    assert (body + "\n")[..|body|] == body;
  }

  /**
   * Round trip: a line written under a key reads back under the same key as
   * a hit with the same four values, -1 included.
   */
  lemma {:induction false} ReadFormatted(key: string, data: DivergenceData)
    requires IsCacheKey(key)
    ensures ReadCache(Some(FormatLine(key, data)), key)
            == DivergenceData(true, data.mainAhead, data.mainBehind, data.upstreamAhead, data.upstreamBehind)
  {
    FormattedFirstLine(key, data);
    var l := key + "=" + Counts(data);
    assert l[..|key|] == key && l[|key|] == '=';
    assert l[|key| + 1..] == Counts(data);
    ScanJoined([data.mainAhead, data.mainBehind, data.upstreamAhead, data.upstreamBehind]);
  }

  /**
   * The cache is written only for searches costing at least MinCachedCost
   * visits; then it reads back as a hit with the data written, and
   * otherwise the file is left as it was.
   */
  lemma WriteThenRead(file: Option<string>, key: string, data: DivergenceData, totalCost: int, writable: bool)
    requires IsCacheKey(key)
    ensures totalCost < MinCachedCost ==> WriteCache(file, key, data, totalCost, writable) == file
    ensures totalCost >= MinCachedCost && writable ==>
              ReadCache(WriteCache(file, key, data, totalCost, writable), key)
              == DivergenceData(true, data.mainAhead, data.mainBehind, data.upstreamAhead, data.upstreamBehind)
  {
    if totalCost >= MinCachedCost && writable {
      ReadFormatted(key, data);
    }
  }

  /**
   * A line written under one key is a miss under any other: keys hold no
   * '=', so a key followed by '=' at the head of the line is the key the
   * line was written with.
   */
  lemma {:induction false} OtherKeyMisses(written: string, asked: string, data: DivergenceData)
    requires IsCacheKey(written) && IsCacheKey(asked) && written != asked
    ensures ReadCache(Some(FormatLine(written, data)), asked) == Miss
  {
    FormattedFirstLine(written, data);
    KeyMatchIsKey(written, Counts(data), asked);
  }
}
