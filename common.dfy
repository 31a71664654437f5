/** Shared vocabulary of the model: an option type, the pieces of Python's
    `str` that the downloader relies on, decimal formatting, the part of a
    yarl `URL` that the crawlers inspect, and order-preserving de-duplication
    of lists (the `if x not in xs: xs.append(x)` idiom). */
module Common {

  datatype Option<T> = None | Some(value: T)

  /** The extension tables of `FILE_FORMATS` (lower-case, with the dot). */
  datatype FileFormats = FileFormats(images: set<string>, videos: set<string>, audio: set<string>, other: set<string>)

  // ---------------------------------------------------------------------
  // Strings
  // ---------------------------------------------------------------------

  /** `s.startswith(p)` */
  predicate StartsWith(s: string, p: string) {
    |p| <= |s| && s[..|p|] == p
  }

  /** `sub in s` */
  predicate IsSubstring(sub: string, s: string)
    decreases |s|
  {
    if |sub| > |s| then false
    else StartsWith(s, sub) || (|s| > 0 && IsSubstring(sub, s[1..]))
  }

  /** Python's `str.isspace()` restricted to ASCII. */
  predicate IsSpace(c: char) {
    c == ' ' || ('\t' <= c <= '\r') || (28 <= c as int <= 31)
  }

  function StripLeft(s: string): (r: string)
    ensures |r| <= |s| && r == s[|s| - |r|..]
    ensures |r| > 0 ==> !IsSpace(r[0])
  {
    if |s| > 0 && IsSpace(s[0]) then StripLeft(s[1..]) else s
  }

  function StripRight(s: string): (r: string)
    ensures |r| <= |s| && r == s[..|r|]
    ensures |r| > 0 ==> !IsSpace(r[|r| - 1])
  {
    if |s| > 0 && IsSpace(s[|s| - 1]) then StripRight(s[..|s| - 1]) else s
  }

  /** `s.strip()` */
  function Strip(s: string): string {
    StripRight(StripLeft(s))
  }

  function LowerChar(c: char): char {
    if 'A' <= c <= 'Z' then (c as int + 32) as char else c
  }

  /** `s.lower()` for ASCII letters. */
  function Lower(s: string): (r: string)
    ensures |r| == |s|
  {
    seq(|s|, i requires 0 <= i < |s| => LowerChar(s[i]))
  }

  /** `s.rfind(c)`: the index of the last `c`, or -1. */
  function RFind(s: string, c: char): (i: int)
    ensures -1 <= i < |s|
    ensures i >= 0 ==> s[i] == c
    ensures forall j :: i < j < |s| ==> s[j] != c
  {
    if |s| == 0 then -1
    else if s[|s| - 1] == c then |s| - 1
    else RFind(s[..|s| - 1], c)
  }

  /** `s.split(c)[-1]`: the text after the last `c`, or all of `s`. */
  function AfterLast(s: string, c: char): (r: string)
    ensures c !in r
    ensures |r| <= |s| && r == s[|s| - |r|..]
    ensures |r| < |s| ==> s[|s| - |r| - 1] == c
  {
    var i := RFind(s, c);
    if i < 0 then s else s[i + 1..]
  }

  /** Appending `c` and a text without `c` makes that text the last piece. */
  lemma AfterLastAppended(a: string, c: char, e: string)
    requires c !in e
    ensures AfterLast(a + [c] + e, c) == e
  {
    var s := a + [c] + e;
    assert s[|a|] == c;
    assert forall j :: |a| < j < |s| ==> s[j] == e[j - |a| - 1];
    assert s[|a| + 1..] == e;
  }

  /** `s.split(sep)[0]`: the text before the first occurrence of `sep`. */
  function BeforeFirst(s: string, sep: string): (r: string)
    ensures |r| <= |s| && r == s[..|r|]
    decreases |s|
  {
    if |s| == 0 || StartsWith(s, sep) then [] else [s[0]] + BeforeFirst(s[1..], sep)
  }

  /** The text before the first `sep` does not contain `sep`. */
  lemma {:induction false} BeforeFirstExcludes(s: string, sep: string)
    requires |sep| > 0
    ensures !IsSubstring(sep, BeforeFirst(s, sep))
    decreases |s|
  {
    if |s| == 0 || StartsWith(s, sep) {
    } else {
      var r := BeforeFirst(s, sep);
      var r' := BeforeFirst(s[1..], sep);
      BeforeFirstExcludes(s[1..], sep);
      assert r == [s[0]] + r' && r[1..] == r';
    }
  }

  /** When `sep` occurs in `s`, it follows the text before its first occurrence. */
  lemma {:induction false} BeforeFirstThenSep(s: string, sep: string)
    requires |sep| > 0 && IsSubstring(sep, s)
    ensures StartsWith(s[|BeforeFirst(s, sep)|..], sep)
    decreases |s|
  {
    if StartsWith(s, sep) {
      assert s[0..] == s;
    } else {
      var r' := BeforeFirst(s[1..], sep);
      BeforeFirstThenSep(s[1..], sep);
      assert s[1..][|r'|..] == s[|r'| + 1..];
    }
  }

  /** `s.split(c)` */
  function SplitOn(s: string, c: char): (r: seq<string>)
    ensures |r| >= 1
    ensures forall k :: 0 <= k < |r| ==> c !in r[k]
  {
    if |s| == 0 then [""]
    else
      var rest := SplitOn(s[1..], c);
      if s[0] == c then [""] + rest else [[s[0]] + rest[0]] + rest[1..]
  }

  /** `c.join(parts)` */
  function JoinOn(parts: seq<string>, c: char): string
    requires |parts| >= 1
  {
    if |parts| == 1 then parts[0] else parts[0] + [c] + JoinOn(parts[1..], c)
  }

  /** Joining the pieces of a split gives back the text. */
  lemma {:induction false} JoinSplit(s: string, c: char)
    ensures JoinOn(SplitOn(s, c), c) == s
  {
    if |s| > 0 {
      var rest := SplitOn(s[1..], c);
      JoinSplit(s[1..], c);
      if s[0] == c {
        assert [""] + rest == SplitOn(s, c);
        assert ([""] + rest)[1..] == rest;
        assert s == [c] + s[1..];
      } else {
        var parts := [[s[0]] + rest[0]] + rest[1..];
        assert parts == SplitOn(s, c);
        if |rest| == 1 {
          assert JoinOn(parts, c) == [s[0]] + rest[0];
        } else {
          assert parts[1..] == rest[1..];
          assert JoinOn(parts, c) == [s[0]] + (rest[0] + [c] + JoinOn(rest[1..], c));
        }
        assert s == [s[0]] + s[1..];
      }
    }
  }

  /** Splitting at a separator splits both sides independently. */
  lemma {:induction false} SplitOnConcat(a: string, c: char, b: string)
    ensures SplitOn(a + [c] + b, c) == SplitOn(a, c) + SplitOn(b, c)
  {
    if |a| == 0 {
      assert a + [c] + b == [c] + b;
    } else {
      assert (a + [c] + b)[1..] == a[1..] + [c] + b;
      SplitOnConcat(a[1..], c, b);
    }
  }

  /** A text without the separator is a single piece. */
  lemma {:induction false} SplitOnNoSeparator(a: string, c: char)
    requires c !in a
    ensures SplitOn(a, c) == [a]
  {
    if |a| > 0 {
      SplitOnNoSeparator(a[1..], c);
      assert [a[0]] + a[1..] == a;
    }
  }

  /** `s.split(c)[0]` is the text before the first `c`, or all of `s`. */
  lemma {:induction false} SplitOnFirst(s: string, c: char)
    ensures var p := SplitOn(s, c)[0];
      |p| <= |s| && p == s[..|p|] && (|p| < |s| ==> s[|p|] == c)
  {
    if |s| > 0 && s[0] != c {
      SplitOnFirst(s[1..], c);
    }
  }

  /** The suffix of a final path component as pathlib and yarl define it:
      from the last dot on, unless that dot is the first or the last
      character. */
  function FileSuffix(name: string): (r: string)
    ensures r != [] ==> 2 <= |r| < |name| && r[0] == '.' && '.' !in r[1..]
    ensures r != [] ==> r == name[|name| - |r|..]
  {
    var i := RFind(name, '.');
    if 0 < i < |name| - 1 then name[i..] else ""
  }

  /** The stem that goes with `FileSuffix`. */
  function FileStem(name: string): (r: string)
    ensures r + FileSuffix(name) == name
  {
    var i := RFind(name, '.');
    if 0 < i < |name| - 1 then name[..i] else name
  }

  // ---------------------------------------------------------------------
  // Decimal formatting (`str(n)`, `f"{n}"`, `'%d' % n`)
  // ---------------------------------------------------------------------

  function DigitChar(d: nat): char
    requires d < 10
  {
    ('0' as int + d) as char
  }

  function NatToString(n: nat): (r: string)
    ensures |r| >= 1
    ensures forall k :: 0 <= k < |r| ==> '0' <= r[k] <= '9'
  {
    if n < 10 then [DigitChar(n)] else NatToString(n / 10) + [DigitChar(n % 10)]
  }

  function DigitsValue(s: string): nat
    requires forall k :: 0 <= k < |s| ==> '0' <= s[k] <= '9'
  {
    if |s| == 0 then 0
    else DigitsValue(s[..|s| - 1]) * 10 + (s[|s| - 1] as int - '0' as int)
  }

  /** Reading back a formatted number gives the number. */
  lemma {:induction false} NatToStringRoundTrip(n: nat)
    ensures DigitsValue(NatToString(n)) == n
  {
    if n >= 10 {
      NatToStringRoundTrip(n / 10);
      var s := NatToString(n);
      assert s[..|s| - 1] == NatToString(n / 10);
    }
  }

  /** Different numbers are formatted differently. */
  lemma NatToStringInjective(a: nat, b: nat)
    requires NatToString(a) == NatToString(b)
    ensures a == b
  {
    NatToStringRoundTrip(a);
    NatToStringRoundTrip(b);
  }

  // ---------------------------------------------------------------------
  // The HTTP `Range` header both downloaders send to resume a file
  // ---------------------------------------------------------------------

  /** The value of the `Range` header for a resume point. */
  function RangeHeader(resume: nat): (r: string)
    ensures StartsWith(r, "bytes=") && r[|r| - 1] == '-'
  {
    "bytes=" + NatToString(resume) + "-"
  }

  /** The resume point a server reads from a `Range` header of this form. */
  function ParseRange(h: string): Option<nat> {
    if |h| >= 8 && StartsWith(h, "bytes=") && h[|h| - 1] == '-'
       && forall k :: 6 <= k < |h| - 1 ==> '0' <= h[k] <= '9'
    then Some(DigitsValue(h[6..|h| - 1]))
    else None
  }

  /** The header carries the resume point back exactly. */
  lemma RangeHeaderRoundTrip(resume: nat)
    ensures ParseRange(RangeHeader(resume)) == Some(resume)
  {
    var r := RangeHeader(resume);
    assert r[6..|r| - 1] == NatToString(resume);
    NatToStringRoundTrip(resume);
  }

  // ---------------------------------------------------------------------
  // URLs (the subset of yarl.URL the crawlers read)
  // ---------------------------------------------------------------------

  /** A URL; `path` holds the decoded path segments after the leading "/",
      `query` the raw query string. An empty `host` stands for a relative
      reference, whose host yarl gives as `None`. */
  datatype Url = Url(scheme: string, host: string, path: seq<string>, query: string)

  /** `url.parts`: "/" followed by the path segments. */
  function Parts(u: Url): (r: seq<string>)
    ensures |r| >= 1 && r[0] == "/" && r[1..] == u.path
  {
    ["/"] + u.path
  }

  /** `url.parts[-1]` */
  function LastPart(u: Url): string {
    Parts(u)[|Parts(u)| - 1]
  }

  /** `url.name`: the last path segment, "" for the root. */
  function Name(u: Url): string {
    if |u.path| == 0 then "" else u.path[|u.path| - 1]
  }

  /** `url.suffix` */
  function Suffix(u: Url): string {
    FileSuffix(Name(u))
  }

  /** The `key=value` fields of a query string, in order; empty fields are
      dropped and a field without "=" has the empty value. */
  function QueryPairs(q: string): seq<(string, string)> {
    var fields := SplitOn(q, '&');
    QueryFields(fields)
  }

  function QueryFields(fields: seq<string>): seq<(string, string)> {
    if |fields| == 0 then []
    else
      var f := fields[0];
      var rest := QueryFields(fields[1..]);
      if f == "" then rest
      else
        var key := BeforeFirst(f, "=");
        var value := if |key| < |f| then f[|key| + 1..] else "";
        [(Unquote(key), Unquote(value))] + rest
  }

  function LookupFirst(pairs: seq<(string, string)>, key: string): (r: Option<string>)
    ensures r.Some? <==> exists k :: 0 <= k < |pairs| && pairs[k].0 == key
  {
    if |pairs| == 0 then None
    else if pairs[0].0 == key then Some(pairs[0].1)
    else LookupFirst(pairs[1..], key)
  }

  /** `url.query[key]`: the first value given for `key`, if any, with keys
      and values decoded as yarl decodes a query. */
  function QueryGet(u: Url, key: string): Option<string> {
    LookupFirst(QueryPairs(u.query), key)
  }

  // Query decoding: "+" is a space and "%XY" the character with that hex
  // code; a "%" not followed by two hex digits stays as it is.

  function HexValue(c: char): Option<nat> {
    if '0' <= c <= '9' then Some(c as int - '0' as int)
    else if 'a' <= c <= 'f' then Some(c as int - 'a' as int + 10)
    else if 'A' <= c <= 'F' then Some(c as int - 'A' as int + 10)
    else None
  }

  function HexDigit(d: nat): (c: char)
    requires d < 16
    ensures HexValue(c) == Some(d)
  {
    if d < 10 then ('0' as int + d) as char else ('A' as int + d - 10) as char
  }

  /** The decoded form of a query key or value. */
  function Unquote(s: string): (r: string)
    ensures |r| <= |s|
    decreases |s|
  {
    if |s| == 0 then ""
    else if s[0] == '+' then " " + Unquote(s[1..])
    else if s[0] == '%' && |s| >= 3 && HexValue(s[1]).Some? && HexValue(s[2]).Some? then
      [(HexValue(s[1]).value * 16 + HexValue(s[2]).value) as char] + Unquote(s[3..])
    else [s[0]] + Unquote(s[1..])
  }

  /** Letters and digits need no escape. */
  predicate IsPlain(c: char) {
    ('a' <= c <= 'z') || ('A' <= c <= 'Z') || ('0' <= c <= '9')
  }

  /** The escape of one character below 256: itself when plain, "+" for a
      space, "%XY" otherwise. */
  function QuoteChar(c: char): (r: string)
    requires c as int < 256
    ensures '&' !in r && '=' !in r && |r| >= 1
  {
    if IsPlain(c) then [c]
    else if c == ' ' then "+"
    else ['%', HexDigit(c as int / 16), HexDigit(c as int % 16)]
  }

  /** The form-encoding of a text whose characters are all below 256. */
  function Quote(s: string): (r: string)
    requires forall k :: 0 <= k < |s| ==> s[k] as int < 256
    ensures '&' !in r && '=' !in r
  {
    if |s| == 0 then "" else QuoteChar(s[0]) + Quote(s[1..])
  }

  lemma UnquoteChar(c: char, t: string)
    requires c as int < 256
    ensures Unquote(QuoteChar(c) + t) == [c] + Unquote(t)
  {
    var q := QuoteChar(c) + t;
    if IsPlain(c) {
      assert q[1..] == t;
    } else if c == ' ' {
      assert q[1..] == t;
    } else {
      assert q[1] == HexDigit(c as int / 16) && q[2] == HexDigit(c as int % 16);
      assert q[3..] == t;
    }
  }

  /** Decoding undoes encoding. */
  lemma {:induction false} UnquoteQuote(s: string)
    requires forall k :: 0 <= k < |s| ==> s[k] as int < 256
    ensures Unquote(Quote(s)) == s
  {
    if |s| > 0 {
      UnquoteChar(s[0], Quote(s[1..]));
      UnquoteQuote(s[1..]);
    }
  }

  /** A text of plain characters decodes to itself. */
  lemma {:induction false} UnquotePlain(s: string)
    requires forall k :: 0 <= k < |s| ==> IsPlain(s[k])
    ensures Unquote(s) == s
  {
    if |s| > 0 {
      UnquotePlain(s[1..]);
    }
  }

  /** A query of one field `key=<encoded value>` reads back the value, so
      `?tags=big+hat` gives the tags "big hat". */
  lemma QueryGetEncoded(u: Url, key: string, value: string)
    requires |key| > 0 && forall k :: 0 <= k < |key| ==> IsPlain(key[k])
    requires forall k :: 0 <= k < |value| ==> value[k] as int < 256
    requires u.query == key + "=" + Quote(value)
    ensures QueryGet(u, key) == Some(value)
  {
    QueryPairsSingle(key, Quote(value));
    UnquotePlain(key);
    UnquoteQuote(value);
  }

  /** A query of one field without "&" is that one pair, decoded. */
  lemma QueryPairsSingle(key: string, q: string)
    requires |key| > 0 && forall k :: 0 <= k < |key| ==> IsPlain(key[k])
    requires '&' !in q
    ensures QueryPairs(key + "=" + q) == [(Unquote(key), Unquote(q))]
  {
    var f := key + "=" + q;
    assert '&' !in key by {
      assert forall k :: 0 <= k < |key| ==> key[k] != '&' by {
        forall k | 0 <= k < |key| ensures key[k] != '&' { assert IsPlain(key[k]); }
      }
    }
    assert '&' !in f by {
      assert f == key + ['='] + q;
    }
    SplitOnNoSeparator(f, '&');
    BeforeFirstKey(key, q);
    assert f[|key| + 1..] == q;
    var fields: seq<string> := [f];
    assert fields[1..] == [];
    assert QueryFields(fields) == [(Unquote(key), Unquote(q))] + QueryFields([]);
  }

  lemma {:induction false} BeforeFirstKey(key: string, rest: string)
    requires forall k :: 0 <= k < |key| ==> IsPlain(key[k])
    ensures BeforeFirst(key + "=" + rest, "=") == key
    decreases |key|
  {
    if |key| == 0 {
      assert StartsWith(key + "=" + rest, "=");
    } else {
      var s := key + "=" + rest;
      assert s[0] == key[0] && IsPlain(key[0]);
      assert !StartsWith(s, "=");
      assert s[1..] == key[1..] + "=" + rest;
      BeforeFirstKey(key[1..], rest);
    }
  }

  /** How many entries a loop that stops at the first `None` reads: the
      length of the run of `Some` entries at the front. */
  function PresentPrefix<T>(s: seq<Option<T>>): (n: nat)
    ensures n <= |s|
    ensures forall k :: 0 <= k < n ==> s[k].Some?
    ensures n < |s| ==> s[n].None?
  {
    if |s| == 0 || s[0].None? then 0 else 1 + PresentPrefix(s[1..])
  }

  /** Concatenation is associative. */
  lemma ConcatAssoc<T>(a: seq<T>, b: seq<T>, c: seq<T>)
    ensures a + b + c == a + (b + c)
  {
  }

  /** A prefix one longer is the prefix and the next element. */
  lemma TakeOneMore<T>(s: seq<T>, i: nat)
    requires i < |s|
    ensures s[..i + 1] == s[..i] + [s[i]]
  {
  }

  // ---------------------------------------------------------------------
  // Order-preserving de-duplication
  // ---------------------------------------------------------------------

  predicate NoDuplicates<T(==)>(s: seq<T>) {
    forall i, j :: 0 <= i < j < |s| ==> s[i] != s[j]
  }

  /** The list `acc` after `for x in s: if x not in acc: acc.append(x)`. */
  function AppendNew<T(==)>(acc: seq<T>, s: seq<T>): seq<T> {
    if |s| == 0 then acc
    else
      var r := AppendNew(acc, s[..|s| - 1]);
      if s[|s| - 1] in r then r else r + [s[|s| - 1]]
  }

  /** The first occurrences of the elements of `s`, in order. */
  function Dedup<T(==)>(s: seq<T>): seq<T> {
    AppendNew([], s)
  }

  /** One more element: it is appended exactly when it is not there yet. */
  lemma AppendNewSnoc<T>(acc: seq<T>, s: seq<T>, x: T)
    ensures AppendNew(acc, s + [x]) ==
      if x in AppendNew(acc, s) then AppendNew(acc, s) else AppendNew(acc, s) + [x]
  {
    assert (s + [x])[..|s|] == s;
  }

  /** `x` ends up in the list exactly when it was there or is added. */
  lemma {:induction false} AppendNewMember<T>(acc: seq<T>, s: seq<T>, x: T)
    ensures x in AppendNew(acc, s) <==> x in acc || x in s
  {
    if |s| > 0 {
      var s' := s[..|s| - 1];
      AppendNewMember(acc, s', x);
      assert s == s' + [s[|s| - 1]];
    }
  }

  /** Appending only new elements keeps what was there, never creates a
      duplicate, and adds at most one entry per input element. */
  lemma {:induction false} AppendNewProperties<T>(acc: seq<T>, s: seq<T>)
    ensures |acc| <= |AppendNew(acc, s)| && AppendNew(acc, s)[..|acc|] == acc
    ensures NoDuplicates(acc) ==> NoDuplicates(AppendNew(acc, s))
    ensures |AppendNew(acc, s)| <= |acc| + |s|
  {
    if |s| > 0 {
      AppendNewProperties(acc, s[..|s| - 1]);
    }
  }

  /** `s.index(x)`, with `|s|` standing for "absent". */
  function FirstIndex<T(==)>(s: seq<T>, x: T): (i: nat)
    ensures i <= |s| && x !in s[..i]
    ensures i < |s| ==> s[i] == x
    ensures i < |s| <==> x in s
  {
    if |s| == 0 then 0 else if s[0] == x then 0 else 1 + FirstIndex(s[1..], x)
  }

  /** The first index is the one before which `x` does not occur. */
  lemma {:induction false} FirstIndexUnique<T>(s: seq<T>, x: T, k: nat)
    requires k < |s| && s[k] == x && x !in s[..k]
    ensures FirstIndex(s, x) == k
  {
    if k > 0 {
      assert s[..k][0] == s[0];
      assert s[1..][..k - 1] == s[1..k] && s[..k] == [s[0]] + s[1..k];
      FirstIndexUnique(s[1..], x, k - 1);
    }
  }

  lemma FirstIndexOfPrefix<T>(s: seq<T>, n: nat, x: T)
    requires n <= |s| && x in s[..n]
    ensures FirstIndex(s, x) == FirstIndex(s[..n], x) < n
  {
    var i := FirstIndex(s[..n], x);
    assert s[..n][..i] == s[..i];
    FirstIndexUnique(s, x, i);
  }

  /** The elements of `r` come in the order of their first occurrence in
      `s`. */
  predicate InFirstOccurrenceOrder<T(==)>(s: seq<T>, r: seq<T>) {
    forall i, j :: 0 <= i < j < |r| ==> FirstIndex(s, r[i]) < FirstIndex(s, r[j])
  }

  /** The order of elements of a prefix is the same in the whole. */
  lemma OrderAfterPrefix<T>(s: seq<T>, n: nat, r: seq<T>)
    requires n <= |s| && InFirstOccurrenceOrder(s[..n], r)
    requires forall x :: x in r ==> x in s[..n]
    ensures InFirstOccurrenceOrder(s, r)
    ensures forall x :: x in r ==> FirstIndex(s, x) < n
  {
    forall x | x in r
      ensures FirstIndex(s, x) == FirstIndex(s[..n], x) < n
    {
      FirstIndexOfPrefix(s, n, x);
    }
  }

  /** An element occurring after all the others can follow them. */
  lemma OrderSnoc<T>(s: seq<T>, r: seq<T>, x: T)
    requires InFirstOccurrenceOrder(s, r)
    requires forall y :: y in r ==> FirstIndex(s, y) < FirstIndex(s, x)
    ensures InFirstOccurrenceOrder(s, r + [x])
  {
    var r' := r + [x];
    forall i, j | 0 <= i < j < |r'|
      ensures FirstIndex(s, r'[i]) < FirstIndex(s, r'[j])
    {
      assert r'[i] == r[i];
      if j < |r| {
        assert r'[j] == r[j];
      }
    }
  }

  /** `Dedup` lists the elements of `s` once each, ordered by where they
      first occur in `s`. */
  lemma {:induction false} DedupOrder<T>(s: seq<T>)
    ensures NoDuplicates(Dedup(s))
    ensures forall i, j :: 0 <= i < j < |Dedup(s)| ==>
      FirstIndex(s, Dedup(s)[i]) < FirstIndex(s, Dedup(s)[j])
  {
    AppendNewProperties([], s);
    if |s| > 0 {
      var n := |s| - 1;
      var s' := s[..n];
      var r' := Dedup(s');
      DedupOrder(s');
      forall x | x in r' ensures x in s' {
        AppendNewMember([], s', x);
      }
      OrderAfterPrefix(s, n, r');
      if s[n] !in r' {
        AppendNewMember([], s', s[n]);
        FirstIndexUnique(s, s[n], n);
        OrderSnoc(s, r', s[n]);
        assert Dedup(s) == r' + [s[n]];
      } else {
        assert Dedup(s) == r';
      }
    }
  }
}
