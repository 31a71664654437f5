/** The Bunkrr crawler: rewriting CDN links to the page or file they stand
    for, reading listing dates as UTC timestamps, the one-time DDoS-Guard
    cookie priming, and the album/video/other handlers reduced to what they
    do with the page data they read. */
module Bunkrr {
  import opened Common
  import opened UrlObjects
  import opened Crawler

  // ---------------------------------------------------------------------
  // CDN host pattern
  // ---------------------------------------------------------------------

  predicate IsDigits(s: string) {
    forall k :: 0 <= k < |s| ==> '0' <= s[k] <= '9'
  }

  predicate IsLowerAlpha(s: string) {
    forall k :: 0 <= k < |s| ==> 'a' <= s[k] <= 'z'
  }

  /** `<prefix>[0-9]{0,2}` */
  predicate NumberedLabel(part: string, prefix: string) {
    StartsWith(part, prefix) && |part| - |prefix| <= 2 && IsDigits(part[|prefix|..])
  }

  /** `<prefix>[0-9]{0,2}(?:redir)?` */
  predicate NumberedRedirLabel(part: string, prefix: string) {
    NumberedLabel(part, prefix)
    || (|part| >= |prefix| + 5 && part[|part| - 5..] == "redir"
        && NumberedLabel(part[..|part| - 5], prefix))
  }

  /** The first alternative group of the CDN pattern, then the second. */
  predicate CdnLabel(part: string) {
    NumberedLabel(part, "media-files") || NumberedLabel(part, "cdn")
    || NumberedLabel(part, "c") || NumberedLabel(part, "pizza")
    || NumberedLabel(part, "cdn-burger")
    || NumberedRedirLabel(part, "big-taco-") || NumberedRedirLabel(part, "cdn-pizza")
    || NumberedRedirLabel(part, "cdn-meatballs") || NumberedRedirLabel(part, "cdn-milkshake")
  }

  /** The host matches `^<label>\.bunkr?\.[a-z]{2,3}$`.  None of the label
      alternatives contains a dot, so the host has exactly three labels. */
  predicate CdnHost(host: string) {
    var parts := SplitOn(host, '.');
    |parts| == 3 && CdnLabel(parts[0])
    && (parts[1] == "bunk" || parts[1] == "bunkr")
    && 2 <= |parts[2]| <= 3 && IsLowerAlpha(parts[2])
  }

  /** `^cdn(\d*)\.`: the host's first label is "cdn" followed by digits
      only, and a dot follows it. */
  predicate NumberedCdnFirst(host: string) {
    var part := BeforeFirst(host, ".");
    |part| < |host| && StartsWith(part, "cdn") && IsDigits(part[3..])
  }

  /** `re.sub(r"^cdn(\d*)\.", r"i\1.", host)`: a first label made of "cdn"
      and digits only loses its "cdn" for an "i"; any other host is kept. */
  function ImageHost(host: string): (r: string)
    ensures r != host <==> NumberedCdnFirst(host)
    ensures r != host ==> StartsWith(host, "cdn") && r == "i" + host[3..]
  {
    if NumberedCdnFirst(host) then "i" + host[3..] else host
  }

  /** The canonical page URL `https://bunkrr.su/<kind>/<name>`. */
  function PrimaryPage(kind: string, name: string): Url {
    Url("https", "bunkrr.su", [kind, name], "")
  }

  /** `get_stream_link(url)` */
  function GetStreamLink(u: Url, formats: FileFormats): (r: Url)
    ensures !CdnHost(u.host) ==> r == u
    ensures Suffix(u) == "" ==> r == u
  {
    if !CdnHost(u.host) then u
    else
      var ext := Lower(Suffix(u));
      if ext == "" then u
      else if ext in formats.images then u.(host := ImageHost(u.host))
      else if ext in formats.videos then PrimaryPage("v", LastPart(u))
      else PrimaryPage("d", LastPart(u))
  }

  /** What a rewritten link is, by the category of its extension: an image
      keeps its scheme, path and query and only the host may change; a
      video or any other file becomes a page on the primary domain named
      after the last path segment. */
  lemma StreamLinkByCategory(u: Url, formats: FileFormats)
    requires CdnHost(u.host) && Suffix(u) != ""
    ensures var ext := Lower(Suffix(u));
      && (ext in formats.images ==>
            GetStreamLink(u, formats) == u.(host := ImageHost(u.host)))
      && (ext !in formats.images && ext in formats.videos ==>
            GetStreamLink(u, formats) == PrimaryPage("v", Name(u)))
      && (ext !in formats.images && ext !in formats.videos ==>
            GetStreamLink(u, formats) == PrimaryPage("d", Name(u)))
  {
    assert |Lower(Suffix(u))| == |Suffix(u)|;
  }

  /** A first label starting with "i" matches none of the alternatives. */
  lemma LabelStartingWithI(part: string)
    requires |part| > 0 && part[0] == 'i'
    ensures !CdnLabel(part)
  {
    assert !StartsWith(part, "media-files") && !StartsWith(part, "cdn");
    assert !StartsWith(part, "c") && !StartsWith(part, "pizza");
    assert !StartsWith(part, "cdn-burger") && !StartsWith(part, "big-taco-");
    assert !StartsWith(part, "cdn-pizza") && !StartsWith(part, "cdn-meatballs");
    assert !StartsWith(part, "cdn-milkshake");
  }

  /** The primary domain is no CDN host. */
  lemma PrimaryHostNotCdn()
    ensures !CdnHost("bunkrr.su")
  {
    var a, b := "bunkrr", "su";
    SplitOnConcat(a, '.', b);
    SplitOnNoSeparator(a, '.');
    SplitOnNoSeparator(b, '.');
    assert a + ['.'] + b == "bunkrr.su";
    assert |SplitOn("bunkrr.su", '.')| == 2;
  }

  /** Hosts whose middle label is "bunkrr" are never rewritten: `bunkr?`
      admits only "bunk" and "bunkr". */
  lemma BunkrrHostsPassThrough(u: Url, formats: FileFormats)
    requires |SplitOn(u.host, '.')| == 3 && SplitOn(u.host, '.')[1] == "bunkrr"
    ensures GetStreamLink(u, formats) == u
  {
  }

  /** Rewriting an image host once is enough. */
  lemma ImageHostIdempotent(host: string)
    ensures ImageHost(ImageHost(host)) == ImageHost(host)
  {
    var r := ImageHost(host);
    if r != host {
      assert r[0] == 'i' && StartsWith(r, "i");
      assert !StartsWith(BeforeFirst(r, "."), "cdn") by {
        var part := BeforeFirst(r, ".");
        if |part| >= 3 {
          assert part[0] == r[0];
        }
      }
    }
  }

  /** `album` resolves each child link and `fetch` resolves it again: the
      second resolution changes nothing. */
  lemma {:induction false} GetStreamLinkIdempotent(u: Url, formats: FileFormats)
    ensures GetStreamLink(GetStreamLink(u, formats), formats) == GetStreamLink(u, formats)
  {
    var r := GetStreamLink(u, formats);
    if r != u {
      var ext := Lower(Suffix(u));
      if ext in formats.images {
        ImageHostIdempotent(u.host);
        if r.host != u.host {
          // the first label of the rewritten host starts with "i"
          var parts := SplitOn(r.host, '.');
          assert r.host == ['i'] + r.host[1..];
          assert parts[0][0] == 'i';
          LabelStartingWithI(parts[0]);
        }
      } else {
        PrimaryHostNotCdn();
      }
    }
  }

  // ---------------------------------------------------------------------
  // Listing dates: strptime("%H:%M:%S %d/%m/%Y") then calendar.timegm
  // ---------------------------------------------------------------------

  datatype DateTime = DateTime(hour: nat, minute: nat, second: nat, day: nat, month: nat, year: nat)

  /** A numeric directive: `width` digits at most, at least one. */
  function NumberField(s: string, width: nat): Option<nat> {
    if 1 <= |s| <= width && IsDigits(s) then Some(DigitsValue(s)) else None
  }

  /** The six digit groups of "HH:MM:SS DD/MM/YYYY" as the separators cut
      them; `None` when the separators are not where the format puts them. */
  function Groups(s: string): (g: Option<seq<string>>)
    ensures g.Some? ==> |g.value| == 6
  {
    var halves := SplitOn(s, ' ');
    if |halves| != 2 then None
    else
      var time := SplitOn(halves[0], ':');
      var date := SplitOn(halves[1], '/');
      if |time| != 3 || |date| != 3 then None else Some(time + date)
  }

  /** Six groups laid out as the format writes them. */
  function Layout(g: seq<string>): string
    requires |g| == 6
  {
    g[0] + ":" + g[1] + ":" + g[2] + " " + g[3] + "/" + g[4] + "/" + g[5]
  }

  /** What the numeric directives accept: one or two digits per field and
      four for the year. */
  predicate DigitGroups(g: seq<string>)
    requires |g| == 6
  {
    (forall k :: 0 <= k < 5 ==> 1 <= |g[k]| <= 2 && IsDigits(g[k]))
    && |g[5]| == 4 && IsDigits(g[5])
  }

  function GroupsDateTime(g: seq<string>): DateTime
    requires |g| == 6 && DigitGroups(g)
  {
    DateTime(DigitsValue(g[0]), DigitsValue(g[1]), DigitsValue(g[2]),
             DigitsValue(g[3]), DigitsValue(g[4]), DigitsValue(g[5]))
  }

  /** The fields of "HH:MM:SS DD/MM/YYYY" as the directives read them,
      before any range check. */
  function ParseFields(s: string): Option<DateTime> {
    match Groups(s)
    case Some(g) => if DigitGroups(g) then Some(GroupsDateTime(g)) else None
    case None => None
  }

  predicate IsLeap(y: int) {
    y % 4 == 0 && (y % 100 != 0 || y % 400 == 0)
  }

  function DaysInMonth(y: int, m: int): nat
    requires 1 <= m <= 12
  {
    if m == 2 then (if IsLeap(y) then 29 else 28)
    else if m == 4 || m == 6 || m == 9 || m == 11 then 30
    else 31
  }

  /** The ranges `datetime` enforces; a date past the end of its month is
      rejected as well. */
  predicate ValidDateTime(t: DateTime) {
    t.hour <= 23 && t.minute <= 59 && t.second <= 59
    && 1 <= t.month <= 12 && 1 <= t.day <= DaysInMonth(t.year, t.month)
    && 1 <= t.year
  }

  /** Days from 0001-01-01 to January 1st of year `y`, in closed form. */
  function DaysBeforeYear(y: int): int
    requires y >= 1
  {
    var y1 := y - 1;
    y1 * 365 + y1 / 4 - y1 / 100 + y1 / 400
  }

  /** Days from January 1st to the first of month `m`, from the cumulative
      table. */
  function DaysBeforeMonth(y: int, m: int): nat
    requires 1 <= m <= 12
  {
    var table := [0, 31, 59, 90, 120, 151, 181, 212, 243, 273, 304, 334];
    table[m - 1] + (if m > 2 && IsLeap(y) then 1 else 0)
  }

  /** The proleptic Gregorian ordinal of January 1st, 1970. */
  const EpochOrdinal: int := 719163

  /** The days `calendar.timegm` counts from 1970-01-01 to the date. */
  function DaysSinceEpoch(y: int, m: int, d: int): int
    requires y >= 1 && 1 <= m <= 12
  {
    DaysBeforeYear(y) + DaysBeforeMonth(y, m) + d - EpochOrdinal
  }

  function EpochSeconds(t: DateTime): int
    requires t.year >= 1 && 1 <= t.month <= 12
  {
    DaysSinceEpoch(t.year, t.month, t.day) * 86400 + t.hour * 3600 + t.minute * 60 + t.second
  }

  /** `parse_datetime(date)`; `None` where strptime raises `ValueError`. */
  function ParseDatetime(s: string): (r: Option<int>)
    ensures r.Some? <==> ParseFields(s).Some? && ValidDateTime(ParseFields(s).value)
    ensures r.Some? ==> r.value == EpochSeconds(ParseFields(s).value)
  {
    match ParseFields(s)
    case Some(t) => if ValidDateTime(t) then Some(EpochSeconds(t)) else None
    case None => None
  }

  // Reference calendar: days counted one year and one month at a time.

  function YearLength(y: int): nat {
    if IsLeap(y) then 366 else 365
  }

  function CountedYearDays(y: int): int
    requires y >= 1
  {
    if y == 1 then 0 else CountedYearDays(y - 1) + YearLength(y - 1)
  }

  function CountedMonthDays(y: int, m: int): nat
    requires 1 <= m <= 12
  {
    if m == 1 then 0 else CountedMonthDays(y, m - 1) + DaysInMonth(y, m - 1)
  }

  lemma MulMonotonic(k: int, a: int, b: int)
    requires k >= 1 && a <= b
    ensures k * a <= k * b
  {
    assert k * b - k * a == k * (b - a);
  }

  /** Euclidean quotient and remainder are unique. */
  lemma DivUnique(n: int, k: int, q: int, r: int)
    requires k >= 1 && 0 <= r < k && n == k * q + r
    ensures n / k == q && n % k == r
  {
    var q' := n / k;
    assert n == k * q' + n % k;
    if q' > q {
      MulMonotonic(k, q + 1, q');
    } else if q' < q {
      MulMonotonic(k, q' + 1, q);
    }
  }

  /** There is one more multiple of `k` up to `n` than up to `n - 1`
      exactly when `k` divides `n`. */
  lemma DivStep(n: int, k: int)
    requires n >= 1 && k >= 1
    ensures n / k - (n - 1) / k == (if n % k == 0 then 1 else 0)
  {
    var q := (n - 1) / k;
    var r := (n - 1) % k;
    assert n - 1 == k * q + r;
    if r == k - 1 {
      DivUnique(n, k, q + 1, 0);
    } else {
      DivUnique(n, k, q, r + 1);
    }
  }

  /** The leap rule as the closed form counts it. */
  lemma LeapByDivisors(n: int)
    ensures YearLength(n) == 365 + (if n % 4 == 0 then 1 else 0)
      - (if n % 100 == 0 then 1 else 0) + (if n % 400 == 0 then 1 else 0)
  {
    if n % 100 == 0 {
      DivUnique(n, 4, 25 * (n / 100), 0);
    }
    if n % 400 == 0 {
      DivUnique(n, 100, 4 * (n / 400), 0);
    }
  }

  lemma {:induction false} DaysBeforeYearCounts(y: int)
    requires y >= 1
    ensures DaysBeforeYear(y) == CountedYearDays(y)
  {
    if y > 1 {
      DaysBeforeYearCounts(y - 1);
      var n := y - 1;
      DivStep(n, 4);
      DivStep(n, 100);
      DivStep(n, 400);
      assert DaysBeforeYear(y) - DaysBeforeYear(n)
          == 365 + (n / 4 - (n - 1) / 4) - (n / 100 - (n - 1) / 100) + (n / 400 - (n - 1) / 400);
      LeapByDivisors(n);
    }
  }

  lemma {:induction false} DaysBeforeMonthCounts(y: int, m: int)
    requires 1 <= m <= 12
    ensures DaysBeforeMonth(y, m) == CountedMonthDays(y, m)
  {
    if m > 1 {
      DaysBeforeMonthCounts(y, m - 1);
    }
  }

  /** The closed form used by `timegm` agrees with counting day by day. */
  lemma DaysSinceEpochCounts(y: int, m: int, d: int)
    requires y >= 1 && 1 <= m <= 12
    ensures DaysSinceEpoch(y, m, d)
         == CountedYearDays(y) - CountedYearDays(1970) + CountedMonthDays(y, m) + d - 1
  {
    DaysBeforeYearCounts(y);
    DaysBeforeYearCounts(1970);
    DaysBeforeMonthCounts(y, m);
  }

  /** A timestamp splits back into its day and its time of day. */
  lemma EpochSecondsSplit(t: DateTime)
    requires ValidDateTime(t)
    ensures EpochSeconds(t) / 86400 == DaysSinceEpoch(t.year, t.month, t.day)
    ensures EpochSeconds(t) % 86400 == t.hour * 3600 + t.minute * 60 + t.second
  {
    var days := DaysSinceEpoch(t.year, t.month, t.day);
    var secs := t.hour * 3600 + t.minute * 60 + t.second;
    assert 0 <= secs < 86400;
    assert EpochSeconds(t) == days * 86400 + secs;
  }

  lemma SplitTwo(a: string, b: string, c: char)
    requires c !in a && c !in b
    ensures SplitOn(a + [c] + b, c) == [a, b]
  {
    SplitOnConcat(a, c, b);
    SplitOnNoSeparator(a, c);
    SplitOnNoSeparator(b, c);
  }

  lemma SplitThree(a: string, b: string, d: string, c: char)
    requires c !in a && c !in b && c !in d
    ensures SplitOn(a + [c] + b + [c] + d, c) == [a, b, d]
  {
    assert a + [c] + b + [c] + d == a + [c] + (b + [c] + d);
    SplitOnConcat(a, c, b + [c] + d);
    SplitOnNoSeparator(a, c);
    SplitTwo(b, d, c);
  }

  lemma DigitsFree(s: string, c: char)
    requires IsDigits(s) && !('0' <= c <= '9')
    ensures c !in s
  {
    assert forall k :: 0 <= k < |s| ==> s[k] != c;
  }

  lemma JoinThree(p: seq<string>, c: char)
    requires |p| == 3
    ensures JoinOn(p, c) == p[0] + [c] + p[1] + [c] + p[2]
  {
    assert JoinOn(p[1..][1..], c) == p[2];
    assert JoinOn(p[1..], c) == p[1] + [c] + p[2];
  }

  /** Laid-out digit groups split back into the same groups. */
  lemma LayoutGroups(g: seq<string>)
    requires |g| == 6 && DigitGroups(g)
    ensures Groups(Layout(g)) == Some(g)
  {
    forall k | 0 <= k < 6
      ensures ' ' !in g[k] && ':' !in g[k] && '/' !in g[k]
    {
      DigitsFree(g[k], ' ');
      DigitsFree(g[k], ':');
      DigitsFree(g[k], '/');
    }
    var time := g[0] + [':'] + g[1] + [':'] + g[2];
    var date := g[3] + ['/'] + g[4] + ['/'] + g[5];
    assert Layout(g) == time + [' '] + date;
    SplitTwo(time, date, ' ');
    SplitThree(g[0], g[1], g[2], ':');
    SplitThree(g[3], g[4], g[5], '/');
    assert [g[0], g[1], g[2]] + [g[3], g[4], g[5]] == g;
  }

  /** The groups a text splits into, laid out again, are that text. */
  lemma GroupsLayout(s: string)
    requires Groups(s).Some?
    ensures Layout(Groups(s).value) == s
  {
    var halves := SplitOn(s, ' ');
    var time := SplitOn(halves[0], ':');
    var date := SplitOn(halves[1], '/');
    JoinSplit(s, ' ');
    JoinSplit(halves[0], ':');
    JoinSplit(halves[1], '/');
    assert JoinOn(halves[1..], ' ') == halves[1];
    JoinThree(time, ':');
    JoinThree(date, '/');
    assert Groups(s).value == time + date;
  }

  /** Six digit groups laid out as "HH:MM:SS DD/MM/YYYY" parse exactly when
      they name a real time and date, and then to its UTC timestamp. */
  lemma ParseLayout(g: seq<string>)
    requires |g| == 6 && DigitGroups(g)
    ensures ParseDatetime(Layout(g)) ==
      if ValidDateTime(GroupsDateTime(g)) then Some(EpochSeconds(GroupsDateTime(g))) else None
  {
    LayoutGroups(g);
  }

  /** Conversely, a text that parses is six digit groups in that layout. */
  lemma ParsedShape(s: string)
    requires ParseDatetime(s).Some?
    ensures Groups(s).Some? && DigitGroups(Groups(s).value)
    ensures s == Layout(Groups(s).value)
    ensures ParseDatetime(s) == Some(EpochSeconds(GroupsDateTime(Groups(s).value)))
  {
    GroupsLayout(s);
  }

  /** Two zero-padded digits, as a listing writes a field. */
  function Pad2(n: nat): (r: string)
    requires n < 100
    ensures |r| == 2 && IsDigits(r) && DigitsValue(r) == n
  {
    var r := [DigitChar(n / 10), DigitChar(n % 10)];
    assert r[..1] == [DigitChar(n / 10)] && r[..1][..0] == [];
    assert DigitsValue(r[..1]) == n / 10;
    assert DigitsValue(r) == DigitsValue(r[..1]) * 10 + n % 10;
    r
  }

  /** Four zero-padded digits, as a listing writes the year. */
  function Pad4(n: nat): (r: string)
    requires n < 10000
    ensures |r| == 4 && IsDigits(r) && DigitsValue(r) == n
  {
    var hi := Pad2(n / 100);
    var r := hi + Pad2(n % 100);
    assert r[..3] == hi + [r[2]] && r[..3][..2] == hi;
    r
  }

  /** A date and time written as the listing writes it. */
  function FormatDateTime(t: DateTime): string
    requires ValidDateTime(t) && t.year < 10000
  {
    Layout([Pad2(t.hour), Pad2(t.minute), Pad2(t.second), Pad2(t.day), Pad2(t.month), Pad4(t.year)])
  }

  /** Every valid date and time of a four-digit year, written in the
      listing's format, parses back to its own UTC timestamp. */
  lemma FormatRoundTrip(t: DateTime)
    requires ValidDateTime(t) && t.year < 10000
    ensures ParseDatetime(FormatDateTime(t)) == Some(EpochSeconds(t))
  {
    var g := [Pad2(t.hour), Pad2(t.minute), Pad2(t.second), Pad2(t.day), Pad2(t.month), Pad4(t.year)];
    assert DigitGroups(g);
    assert GroupsDateTime(g) == t;
    ParseLayout(g);
  }

  lemma ExampleSeconds()
    ensures EpochSeconds(DateTime(14, 30, 0, 5, 3, 2021)) == 1614954600
  {
    var y1 := 2020;
    assert y1 / 4 == 505 && y1 / 100 == 20 && y1 / 400 == 5;
    assert DaysBeforeYear(2021) == 737790;
    assert DaysBeforeMonth(2021, 3) == 59;
  }

  /** The example listing date: 5 March 2021, 14:30:00 UTC. */
  lemma ParseDatetimeExample()
    ensures ParseDatetime("14:30:00 05/03/2021") == Some(1614954600)
  {
    var g := ["14", "30", "00", "05", "03", "2021"];
    assert Layout(g) == "14:30:00 05/03/2021";
    assert DigitsValue("14") == 14 && DigitsValue("30") == 30 && DigitsValue("00") == 0;
    assert "2021"[..3] == "202" && "202"[..2] == "20" && "20"[..1] == "2";
    assert DigitsValue("20") == 20 && DigitsValue("202") == 202;
    assert DigitsValue("05") == 5 && DigitsValue("03") == 3 && DigitsValue("2021") == 2021;
    assert DigitGroups(g);
    assert GroupsDateTime(g) == DateTime(14, 30, 0, 5, 3, 2021);
    assert ValidDateTime(GroupsDateTime(g));
    ParseLayout(g);
    ExampleSeconds();
  }

  // ---------------------------------------------------------------------
  // The crawler
  // ---------------------------------------------------------------------

  /** The configured DDoS-Guard values; "" where a value is not set. */
  datatype DdosGuardAuth = DdosGuardAuth(ddg1: string, ddg2: string, ddgid: string)

  const DdosGuardScope: string := "https://*.bunkrr.su"

  /** The jar after priming: each configured value is stored under its own
      cookie name for the wildcard scope, and nothing else changes. */
  function PrimedCookies(jar: map<CookieKey, string>, auth: DdosGuardAuth): (r: map<CookieKey, string>)
    ensures forall k :: k in r <==>
      (|| k in jar
       || (k == CookieKey(DdosGuardScope, "__ddg1_") && auth.ddg1 != "")
       || (k == CookieKey(DdosGuardScope, "__ddg2_") && auth.ddg2 != "")
       || (k == CookieKey(DdosGuardScope, "__ddgid_") && auth.ddgid != ""))
    ensures auth.ddg1 != "" ==> r[CookieKey(DdosGuardScope, "__ddg1_")] == auth.ddg1
    ensures auth.ddg2 != "" ==> r[CookieKey(DdosGuardScope, "__ddg2_")] == auth.ddg2
    ensures auth.ddgid != "" ==> r[CookieKey(DdosGuardScope, "__ddgid_")] == auth.ddgid
    ensures forall k :: k in jar && k.scope != DdosGuardScope ==> r[k] == jar[k]
    ensures forall k :: (k in jar && k != CookieKey(DdosGuardScope, "__ddg1_")
                         && k != CookieKey(DdosGuardScope, "__ddg2_")
                         && k != CookieKey(DdosGuardScope, "__ddgid_")) ==> r[k] == jar[k]
  {
    var j1 := if auth.ddg1 != "" then jar[CookieKey(DdosGuardScope, "__ddg1_") := auth.ddg1] else jar;
    var j2 := if auth.ddg2 != "" then j1[CookieKey(DdosGuardScope, "__ddg2_") := auth.ddg2] else j1;
    if auth.ddgid != "" then j2[CookieKey(DdosGuardScope, "__ddgid_") := auth.ddgid] else j2
  }

  /** One listing card of an album page: the `href` of its link (`None`
      when the link or its attribute is missing) and the text of its date
      paragraph (`None` when the paragraph is missing). */
  datatype AlbumCard = AlbumCard(href: Option<string>, date: Option<string>)

  /** What `album` reads from the page: the title text without its `span`
      children (`None` when the heading is missing) and the cards. */
  datatype AlbumPage = AlbumPage(title: Option<string>, cards: seq<AlbumCard>)

  /** An href starting with "/" is taken relative to the album's host. */
  function ResolveHref(host: string, href: string): string {
    if StartsWith(href, "/") then "https://" + host + href else href
  }

  /** The timestamp `album` reads from a card, `None` when reading the card
      raises: the date paragraph is missing, its text does not parse, or
      (read after the date) the link has no `href`. */
  function CardDate(card: AlbumCard): (r: Option<int>)
    ensures r.Some? ==> card.href.Some? && card.date.Some? && r == ParseDatetime(card.date.value)
  {
    if card.date.None? then None
    else match ParseDatetime(card.date.value)
      case None => None
      case Some(t) => if card.href.None? then None else Some(t)
  }

  /** The timestamp `album` reads from a card on the album at `host`,
      `None` when handling the card raises: reading it raises, or its link
      resolves to a relative reference, whose missing host the pattern
      match of `get_stream_link` cannot take. */
  function CardRead(card: AlbumCard, host: string, h: Helpers): (r: Option<int>)
    ensures r.Some? <==>
      CardDate(card).Some? && h.parseUrl(ResolveHref(host, card.href.value)).host != ""
    ensures r.Some? ==> r == CardDate(card)
  {
    match CardDate(card)
    case None => None
    case Some(t) =>
      if h.parseUrl(ResolveHref(host, card.href.value)).host == "" then None else Some(t)
  }

  /** The item `album` enqueues for one card it read in full. */
  function AlbumChild(card: AlbumCard, host: string, title: string, date: int, h: Helpers): ScrapeData
    requires card.href.Some?
  {
    ScrapeData(GetStreamLink(h.parseUrl(ResolveHref(host, card.href.value)), h.formats),
               title, true, Some(date), false, None)
  }

  /** The items `album` enqueues for `cards`: one per card, in order, up to
      the first card whose handling raises, where the handler stops. */
  function AlbumChildren(cards: seq<AlbumCard>, host: string, title: string, h: Helpers): (r: seq<ScrapeData>)
    ensures |r| <= |cards|
  {
    if |cards| == 0 then []
    else match CardRead(cards[0], host, h)
      case None => []
      case Some(d) => [AlbumChild(cards[0], host, title, d, h)] + AlbumChildren(cards[1..], host, title, h)
  }

  /** The card at index `i`, reached by the loop, ends the list exactly
      when its handling raises. */
  lemma {:induction false} AlbumChildrenEnd(cards: seq<AlbumCard>, host: string, title: string, h: Helpers, i: nat)
    requires i < |cards| && i <= |AlbumChildren(cards, host, title, h)|
    ensures CardRead(cards[i], host, h).None? <==> |AlbumChildren(cards, host, title, h)| == i
  {
    if i > 0 {
      AlbumChildrenEnd(cards[1..], host, title, h, i - 1);
    }
  }

  /** The card at index `i`, reached by the loop, either ends the list
      (its handling raises) or contributes the child at index `i`. */
  lemma {:induction false} AlbumChildrenAt(cards: seq<AlbumCard>, host: string, title: string, h: Helpers, i: nat)
    requires i < |cards| && i <= |AlbumChildren(cards, host, title, h)|
    ensures CardRead(cards[i], host, h).None? <==> |AlbumChildren(cards, host, title, h)| == i
    ensures CardRead(cards[i], host, h).Some? ==>
      AlbumChildren(cards, host, title, h)[i] == AlbumChild(cards[i], host, title, CardRead(cards[i], host, h).value, h)
  {
    AlbumChildrenEnd(cards, host, title, h, i);
    if i > 0 && CardRead(cards[i], host, h).Some? {
      AlbumChildrenAt(cards[1..], host, title, h, i - 1);
    }
  }

  /** Each child comes from the card at its own index, which was read in
      full. */
  lemma {:induction false} AlbumChildrenElements(cards: seq<AlbumCard>, host: string, title: string, h: Helpers)
    ensures var r := AlbumChildren(cards, host, title, h);
      forall k :: 0 <= k < |r| ==>
        CardRead(cards[k], host, h).Some?
        && r[k] == AlbumChild(cards[k], host, title, CardRead(cards[k], host, h).value, h)
  {
    var r := AlbumChildren(cards, host, title, h);
    forall k | 0 <= k < |r|
      ensures CardRead(cards[k], host, h).Some?
      ensures r[k] == AlbumChild(cards[k], host, title, CardRead(cards[k], host, h).value, h)
    {
      AlbumChildrenAt(cards, host, title, h, k);
    }
  }

  /** Every child belongs to the album, carries the album's title and its
      card's date, and is already resolved: resolving it again (as `fetch`
      does) changes nothing. */
  lemma AlbumChildrenShape(cards: seq<AlbumCard>, host: string, title: string, h: Helpers, k: nat)
    requires k < |AlbumChildren(cards, host, title, h)|
    ensures var c := AlbumChildren(cards, host, title, h)[k];
      && c.partOfAlbum && c.parentTitle == title && !c.retry
      && c.possibleDatetime == CardDate(cards[k])
      && GetStreamLink(c.url, h.formats) == c.url
  {
    var c := AlbumChildren(cards, host, title, h)[k];
    AlbumChildrenAt(cards, host, title, h, k);
    GetStreamLinkIdempotent(h.parseUrl(ResolveHref(host, cards[k].href.value)), h.formats);
  }

  /** `video`/`other` name the file after the link, or after the page when
      the link has no extension; `None` when neither has one. */
  function FileNameChoice(link: Url, page: Url, h: Helpers): (r: Option<(string, string)>)
    ensures r.Some? <==> h.filenameAndExt(Name(link)).Some? || h.filenameAndExt(Name(page)).Some?
    ensures h.filenameAndExt(Name(link)).Some? ==> r == h.filenameAndExt(Name(link))
  {
    match h.filenameAndExt(Name(link))
    case Some(p) => Some(p)
    case None => h.filenameAndExt(Name(page))
  }

  /** What `album` leaves behind for an item in state `d`: the item's new
      parent title, the children it enqueues and the failure it logs. A
      missing page or heading fails before the title is added; a card that
      cannot be read fails after the earlier cards were enqueued. */
  function AlbumOutcome(d: ScrapeData, page: Option<AlbumPage>, h: Helpers): (string, seq<ScrapeData>, seq<Failure>) {
    if page.None? || page.value.title.None? || |d.url.path| < 2 then (d.parentTitle, [], [HandlerFailed(d.url)])
    else
      var title := AddedTitle(d.parentTitle, h.createTitle(Strip(page.value.title.value), Some(d.url.path[1]), None),
                              d.retry, h.sanitizeFolder);
      var children := AlbumChildren(page.value.cards, d.url.host, title, h);
      (title, children, if |children| < |page.value.cards| then [HandlerFailed(d.url)] else [])
  }

  /** What `video` or `other` leaves behind for an item in state `d`, given
      the `href` of each matching anchor: the file of the last anchor, or
      one failure when there is no anchor, the last has no `href`, or no
      name has an extension. */
  function FilePageOutcome(d: ScrapeData, anchors: Option<seq<Option<string>>>, h: Helpers): (seq<HandledFile>, seq<Failure>) {
    if anchors.None? || |anchors.value| == 0 || anchors.value[|anchors.value| - 1].None? then ([], [HandlerFailed(d.url)])
    else
      var link := h.parseUrl(anchors.value[|anchors.value| - 1].value);
      match FileNameChoice(link, d.url, h)
      case Some(p) => ([HandledFile(link, d, p.0, p.1)], [])
      case None => ([], [HandlerFailed(d.url)])
  }

  datatype Route = ToAlbum | ToVideo | ToOther

  class BunkrrCrawler {
    const ctx: ScrapeContext
    const helpers: Helpers
    var cookiesSet: bool

    constructor (ctx: ScrapeContext, helpers: Helpers)
      ensures this.ctx == ctx && this.helpers == helpers && !cookiesSet
    {
      this.ctx := ctx;
      this.helpers := helpers;
      cookiesSet := false;
    }

    /** `set_cookies`: primes the jar the first time only. */
    method SetCookies(auth: DdosGuardAuth)
      modifies this`cookiesSet, ctx`cookies
      ensures cookiesSet
      ensures ctx.cookies == if old(cookiesSet) then old(ctx.cookies) else PrimedCookies(old(ctx.cookies), auth)
    {
      if cookiesSet {
        return;
      }
      if auth.ddg1 != "" {
        ctx.UpdateCookie(DdosGuardScope, "__ddg1_", auth.ddg1);
      }
      if auth.ddg2 != "" {
        ctx.UpdateCookie(DdosGuardScope, "__ddg2_", auth.ddg2);
      }
      if auth.ddgid != "" {
        ctx.UpdateCookie(DdosGuardScope, "__ddgid_", auth.ddgid);
      }
      cookiesSet := true;
    }

    /** `album`: adds the album title to the item, then enqueues one child
        per card; any failure is recorded once and ends the handler. */
    method Album(item: ScrapeItem, page: Option<AlbumPage>)
      modifies item`parentTitle, ctx`queue, ctx`failures
      ensures page.None? || page.value.title.None? || |item.url.path| < 2 ==>
        item.parentTitle == old(item.parentTitle) && ctx.queue == old(ctx.queue)
        && ctx.failures == old(ctx.failures) + [HandlerFailed(item.url)]
      ensures page.Some? && page.value.title.Some? && |item.url.path| >= 2 ==>
        var title := helpers.createTitle(Strip(page.value.title.value), Some(item.url.path[1]), None);
        var children := AlbumChildren(page.value.cards, item.url.host, item.parentTitle, helpers);
        && item.parentTitle == AddedTitle(old(item.parentTitle), title, item.retry, helpers.sanitizeFolder)
        && ctx.queue == old(ctx.queue) + children
        && ctx.failures == old(ctx.failures)
             + (if |children| < |page.value.cards| then [HandlerFailed(item.url)] else [])
      ensures var o := AlbumOutcome(old(item.Snapshot()), page, helpers);
        item.parentTitle == o.0 && ctx.queue == old(ctx.queue) + o.1 && ctx.failures == old(ctx.failures) + o.2
    {
      if page.None? || page.value.title.None? || |item.url.path| < 2 {
        ctx.Fail(HandlerFailed(item.url));
        return;
      }
      var title := helpers.createTitle(Strip(page.value.title.value), Some(Parts(item.url)[2]), None);
      item.AddToParentTitle(title, helpers.sanitizeFolder);
      var failed := EnqueueChildren(page.value.cards, item.url.host, item.parentTitle);
      if failed {
        ctx.Fail(HandlerFailed(item.url));
      }
    }

    /** The card loop of `album`. */
    method EnqueueChildren(cards: seq<AlbumCard>, host: string, title: string) returns (failed: bool)
      modifies ctx`queue
      ensures ctx.queue == old(ctx.queue) + AlbumChildren(cards, host, title, helpers)
      ensures failed <==> |AlbumChildren(cards, host, title, helpers)| < |cards|
    {
      ghost var children := AlbumChildren(cards, host, title, helpers);
      var i := 0;
      while i < |cards|
        invariant 0 <= i <= |cards|
        invariant i <= |children| && ctx.queue == old(ctx.queue) + children[..i]
      {
        var stop := EnqueueCard(cards, i, host, title, children);
        if stop {
          return true;
        }
        TakeOneMore(children, i);
        i := i + 1;
      }
      assert children[..i] == children;
      return false;
    }

    /** One card of `album`'s loop: a card whose handling raises ends the
        loop, any other is enqueued. */
    method EnqueueCard(cards: seq<AlbumCard>, i: nat, host: string, title: string, ghost children: seq<ScrapeData>)
      returns (stop: bool)
      requires i < |cards| && children == AlbumChildren(cards, host, title, helpers) && i <= |children|
      modifies ctx`queue
      ensures stop <==> |children| == i
      ensures stop ==> ctx.queue == old(ctx.queue)
      ensures !stop ==> ctx.queue == old(ctx.queue) + [children[i]]
    {
      AlbumChildrenAt(cards, host, title, helpers, i);
      if cards[i].date.None? {
        return true;
      }
      var date := ParseDatetime(cards[i].date.value);
      if date.None? || cards[i].href.None? {
        return true;
      }
      var ok := EnqueueChild(cards[i], host, title, date.value);
      return !ok;
    }

    /** The body of `album`'s loop for a card whose date parsed: resolve
        the link, turn it into its stream link and enqueue the child;
        `ok` is false where a link without a host makes the stream-link
        pattern match raise. */
    method EnqueueChild(card: AlbumCard, host: string, title: string, date: int) returns (ok: bool)
      requires card.href.Some?
      modifies ctx`queue
      ensures ok <==> helpers.parseUrl(ResolveHref(host, card.href.value)).host != ""
      ensures ctx.queue == old(ctx.queue) + (if ok then [AlbumChild(card, host, title, date, helpers)] else [])
    {
      var link := helpers.parseUrl(ResolveHref(host, card.href.value));
      if link.host == "" {
        return false;
      }
      link := GetStreamLink(link, helpers.formats);
      ctx.Put(ScrapeData(link, title, true, Some(date), false, None));
      return true;
    }

    /** `video` and `other`, which differ only in the anchor they select:
        the last matching anchor is the file, named by `FileNameChoice`. */
    method FilePage(item: ScrapeItem, anchors: Option<seq<Option<string>>>)
      modifies ctx`handled, ctx`failures
      ensures var o := FilePageOutcome(item.Snapshot(), anchors, helpers);
        ctx.handled == old(ctx.handled) + o.0 && ctx.failures == old(ctx.failures) + o.1
    {
      if anchors.None? || |anchors.value| == 0 || anchors.value[|anchors.value| - 1].None? {
        ctx.Fail(HandlerFailed(item.url));
        return;
      }
      var link := helpers.parseUrl(anchors.value[|anchors.value| - 1].value);
      var name := helpers.filenameAndExt(Name(link));
      if name.None? {
        name := helpers.filenameAndExt(Name(item.url));
      }
      if name.None? {
        ctx.Fail(HandlerFailed(item.url));
        return;
      }
      ctx.HandleFile(link, item, name.value.0, name.value.1);
    }

    /** The handler `fetch` picks by the first path segments: `a` for an
        album, `v` for a video, anything else for another file. */
    method Dispatch(item: ScrapeItem, album: Option<AlbumPage>, anchors: Option<seq<Option<string>>>) returns (route: Route)
      modifies item`parentTitle, ctx`queue, ctx`failures, ctx`handled
      ensures route == (if "a" in Parts(item.url) then ToAlbum
                        else if "v" in Parts(item.url) then ToVideo else ToOther)
      ensures route == ToAlbum ==> ctx.handled == old(ctx.handled)
      ensures route != ToAlbum ==> ctx.queue == old(ctx.queue) && item.parentTitle == old(item.parentTitle)
      ensures route == ToAlbum ==>
        var o := AlbumOutcome(old(item.Snapshot()), album, helpers);
        item.parentTitle == o.0 && ctx.queue == old(ctx.queue) + o.1 && ctx.failures == old(ctx.failures) + o.2
      ensures route != ToAlbum ==>
        var o := FilePageOutcome(item.Snapshot(), anchors, helpers);
        ctx.handled == old(ctx.handled) + o.0 && ctx.failures == old(ctx.failures) + o.1
    {
      if "a" in Parts(item.url) {
        route := ToAlbum;
        Album(item, album);
      } else if "v" in Parts(item.url) {
        route := ToVideo;
        FilePage(item, anchors);
      } else {
        route := ToOther;
        FilePage(item, anchors);
      }
    }

    /** `fetch`: resolves the item's URL, primes the cookies, and hands the
        item to the handler its path names, inside one progress task. */
    method Fetch(item: ScrapeItem, auth: DdosGuardAuth, album: Option<AlbumPage>,
                 anchors: Option<seq<Option<string>>>) returns (route: Route)
      requires ctx.Valid()
      modifies this`cookiesSet, ctx, item`url, item`parentTitle
      ensures ctx.Valid() && ctx.tasks == old(ctx.tasks)
      ensures item.url == GetStreamLink(old(item.url), helpers.formats)
      ensures cookiesSet
      ensures ctx.cookies == if old(cookiesSet) then old(ctx.cookies) else PrimedCookies(old(ctx.cookies), auth)
      ensures route == (if "a" in Parts(item.url) then ToAlbum
                        else if "v" in Parts(item.url) then ToVideo else ToOther)
      ensures route == ToAlbum ==> ctx.handled == old(ctx.handled)
      ensures route != ToAlbum ==> ctx.queue == old(ctx.queue) && item.parentTitle == old(item.parentTitle)
      ensures route == ToAlbum ==>
        var o := AlbumOutcome(item.Snapshot().(parentTitle := old(item.parentTitle)), album, helpers);
        item.parentTitle == o.0 && ctx.queue == old(ctx.queue) + o.1 && ctx.failures == old(ctx.failures) + o.2
      ensures route != ToAlbum ==>
        var o := FilePageOutcome(item.Snapshot(), anchors, helpers);
        ctx.handled == old(ctx.handled) + o.0 && ctx.failures == old(ctx.failures) + o.1
    {
      var id := ctx.AddTask(item.url);
      item.url := GetStreamLink(item.url, helpers.formats);
      SetCookies(auth);
      route := Dispatch(item, album, anchors);
      ctx.RemoveTask(id);
      TaskRoundTrip(old(ctx.tasks), id, old(item.url));
    }
  }
}
