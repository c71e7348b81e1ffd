/**
 * The tracker's date keys: `formatted_date` (zero-padded YYYYMMDD), `url_string`
 * (the download location of one day's file), the cache file name taken as the
 * last 36 characters of that location, and `get_date_iterators`, which lists the
 * key of every day from the first published day through the requested end date.
 */
module DateKeys {
  import opened Wrappers
  import opened Calendar

  // ---------------------------------------------------------------------------
  // Decimal text, as Python's str() writes an int

  predicate IsDigit(c: char) {
    '0' <= c <= '9'
  }

  predicate AllDigits(s: string) {
    forall i :: 0 <= i < |s| ==> IsDigit(s[i])
  }

  function DigitChar(d: int): char
    requires 0 <= d <= 9
  {
    (48 + d) as char
  }

  /** Decimal digits of `n`, without leading zeros ("0" for zero). */
  function NatToDigits(n: nat): (s: string)
    ensures |s| >= 1 && AllDigits(s)
    decreases n
  {
    if n < 10 then [DigitChar(n)] else NatToDigits(n / 10) + [DigitChar(n % 10)]
  }

  /** str(i): a minus sign before the digits of a negative number. */
  function IntToString(i: int): string {
    if i < 0 then "-" + NatToDigits(-i) else NatToDigits(i)
  }

  /** The value of a string of decimal digits. */
  function DigitsValue(s: string): nat
    requires AllDigits(s)
    decreases |s|
  {
    if s == [] then 0 else DigitsValue(s[..|s| - 1]) * 10 + (s[|s| - 1] as int - 48)
  }

  function Pow10(k: nat): nat {
    if k == 0 then 1 else 10 * Pow10(k - 1)
  }

  lemma {:induction false} NatToDigitsValue(n: nat)
    ensures DigitsValue(NatToDigits(n)) == n
    decreases n
  {
    if n >= 10 {
      NatToDigitsValue(n / 10);
      var s := NatToDigits(n);
      assert s[..|s| - 1] == NatToDigits(n / 10);
    }
  }

  lemma {:induction false} NatToDigitsLength(n: nat, w: nat)
    requires w >= 1 && n < Pow10(w)
    ensures |NatToDigits(n)| <= w
    decreases n
  {
    if n >= 10 {
      assert w >= 2;
      NatToDigitsLength(n / 10, w - 1);
    }
  }

  // ---------------------------------------------------------------------------
  // str.zfill

  function Zeros(k: nat): (z: string)
    ensures |z| == k && forall i :: 0 <= i < k ==> z[i] == '0'
  {
    seq(k, _ => '0')
  }

  /** Python's `s.zfill(width)`: zeros are inserted on the left (after a leading
      sign, if any) until the string is `width` long; longer strings are kept. */
  function ZFill(s: string, width: nat): (r: string)
    ensures |r| == if |s| >= width then |s| else width
    ensures |s| >= width ==> r == s
    ensures (s == [] || (s[0] != '+' && s[0] != '-')) ==>
              r[|r| - |s|..] == s && forall i :: 0 <= i < |r| - |s| ==> r[i] == '0'
    ensures s != [] && (s[0] == '+' || s[0] == '-') ==>
              r[0] == s[0] && r[|r| - |s| + 1..] == s[1..] &&
              forall i :: 1 <= i <= |r| - |s| ==> r[i] == '0'
  {
    if |s| >= width then s
    else if |s| > 0 && (s[0] == '+' || s[0] == '-') then [s[0]] + Zeros(width - |s|) + s[1..]
    else Zeros(width - |s|) + s
  }

  lemma {:induction false} LeadingZerosValue(k: nat, s: string)
    requires AllDigits(s)
    ensures AllDigits(Zeros(k) + s) && DigitsValue(Zeros(k) + s) == DigitsValue(s)
    decreases |s|
  {
    var t := Zeros(k) + s;
    if s == [] {
      assert t == Zeros(k);
      ZerosValue(k);
    } else {
      assert t[..|t| - 1] == Zeros(k) + s[..|s| - 1];
      LeadingZerosValue(k, s[..|s| - 1]);
    }
  }

  lemma {:induction false} ZerosValue(k: nat)
    ensures DigitsValue(Zeros(k)) == 0
    decreases k
  {
    if k > 0 {
      assert Zeros(k)[..k - 1] == Zeros(k - 1);
      ZerosValue(k - 1);
    }
  }

  /** Zero-padding the decimal text of `n` keeps its value. */
  lemma PaddedValue(n: nat, width: nat)
    ensures AllDigits(ZFill(NatToDigits(n), width))
    ensures DigitsValue(ZFill(NatToDigits(n), width)) == n
  {
    var s := NatToDigits(n);
    NatToDigitsValue(n);
    if |s| < width {
      LeadingZerosValue(width - |s|, s);
      assert ZFill(s, width) == Zeros(width - |s|) + s;
    }
  }

  // ---------------------------------------------------------------------------
  // formatted_date

  /** `formatted_date(yyyy, mm, dd)`: year padded to 4, month and day to 2. */
  function FormattedDate(y: int, m: int, d: int): string {
    ZFill(IntToString(y), 4) + ZFill(IntToString(m), 2) + ZFill(IntToString(d), 2)
  }

  function KeyOf(d: Date): string {
    FormattedDate(d.year, d.month, d.day)
  }

  /** Reads an 8-digit YYYYMMDD key back into year, month and day. */
  function ParseKey(s: string): Date
    requires |s| == 8 && AllDigits(s)
  {
    Date(DigitsValue(s[..4]), DigitsValue(s[4..6]), DigitsValue(s[6..]))
  }

  lemma PaddedField(n: nat, width: nat)
    requires width >= 1 && n < Pow10(width)
    ensures var f := ZFill(IntToString(n), width);
            |f| == width && AllDigits(f) && DigitsValue(f) == n
  {
    NatToDigitsLength(n, width);
    PaddedValue(n, width);
  }

  /** For years 0..9999 and months and days 0..99 the key is exactly eight
      digits and decodes back to the same year, month and day. */
  lemma FormattedDateRoundTrip(y: int, m: int, d: int)
    requires 0 <= y <= 9999 && 0 <= m <= 99 && 0 <= d <= 99
    ensures var s := FormattedDate(y, m, d);
            |s| == 8 && AllDigits(s) && ParseKey(s) == Date(y, m, d)
  {
    assert Pow10(2) == 100;
    assert Pow10(4) == 10000;
    PaddedField(y, 4);
    PaddedField(m, 2);
    PaddedField(d, 2);
    var a, b, c := ZFill(IntToString(y), 4), ZFill(IntToString(m), 2), ZFill(IntToString(d), 2);
    var s := a + b + c;
    assert s[..4] == a && s[4..6] == b && s[6..] == c;
  }

  /** Distinct dates of years 1..9999 have distinct keys. */
  lemma KeyInjective(d1: Date, d2: Date)
    requires Valid(d1) && Valid(d2) && d1.year <= 9999 && d2.year <= 9999
    requires KeyOf(d1) == KeyOf(d2)
    ensures d1 == d2
  {
    KeyRoundTrip(d1);
    KeyRoundTrip(d2);
  }

  lemma KeyRoundTrip(d: Date)
    requires Valid(d) && d.year <= 9999
    ensures |KeyOf(d)| == 8 && AllDigits(KeyOf(d)) && ParseKey(KeyOf(d)) == d
  {
    FormattedDateRoundTrip(d.year, d.month, d.day);
  }

  // ---------------------------------------------------------------------------
  // url_string and the cache file name

  /** The folder of the upstream repository holding the daily regional files. */
  const RemoteFolder: string := "https://raw.githubusercontent.com/pcm-dpc/COVID-19/master/dati-regioni/"
  /** The common start of every daily file name. */
  const FilePrefix: string := "dpc-covid19-ita-regioni-"
  const BaseLink: string := "https://raw.githubusercontent.com/pcm-dpc/COVID-19/master/dati-regioni/dpc-covid19-ita-regioni-"

  /** `url_string(it)`: the download location of the file for key `it`. */
  function UrlString(it: string): string {
    BaseLink + it + ".csv"
  }

  /** `full_string[-36:]`: the last 36 characters, or all of a shorter string. */
  function CacheName(url: string): (name: string)
    ensures |name| == if |url| >= 36 then 36 else |url|
    ensures name == url[|url| - |name|..]
  {
    if |url| >= 36 then url[|url| - 36..] else url
  }

  /** The key a cache name was made from. */
  function KeyOfName(name: string): string
    requires |name| == 36
  {
    name[24..32]
  }

  /** For an 8-character key the cache name is the upstream file name, and the
      download location is the upstream folder followed by that name. */
  lemma CacheNameOfKey(it: string)
    requires |it| == 8
    ensures CacheName(UrlString(it)) == FilePrefix + it + ".csv"
    ensures UrlString(it) == RemoteFolder + CacheName(UrlString(it))
    ensures KeyOfName(CacheName(UrlString(it))) == it
  {
    assert BaseLink == RemoteFolder + FilePrefix;
    var url := UrlString(it);
    assert |FilePrefix| == 24;
    assert url == RemoteFolder + (FilePrefix + it + ".csv");
    assert |RemoteFolder| == |url| - 36;
  }

  /** Two 8-character keys share a cache name only if they are equal. */
  lemma CacheNameInjective(a: string, b: string)
    requires |a| == 8 && |b| == 8
    requires CacheName(UrlString(a)) == CacheName(UrlString(b))
    ensures a == b
  {
    CacheNameOfKey(a);
    CacheNameOfKey(b);
  }

  // ---------------------------------------------------------------------------
  // get_date_iterators

  /** The oldest day the upstream repository publishes. */
  const FirstDay: Date := Date(2020, 2, 25)

  /** An end date the daily range accepts: a real calendar day whose key has
      eight digits. */
  predicate AcceptedEnd(y: int, m: int, d: int) {
    Valid(Date(y, m, d)) && y <= 9999
  }

  /** `f` applied to every element, in order, appending one result at a time. */
  function Map<A, B>(f: A -> B, xs: seq<A>): (ys: seq<B>)
    ensures |ys| == |xs|
    decreases |xs|
  {
    if xs == [] then [] else Map(f, xs[..|xs| - 1]) + [f(xs[|xs| - 1])]
  }

  lemma {:induction false} MapAt<A, B>(f: A -> B, xs: seq<A>)
    ensures forall i :: 0 <= i < |xs| ==> Map(f, xs)[i] == f(xs[i])
    decreases |xs|
  {
    if xs != [] {
      var init := xs[..|xs| - 1];
      MapAt(f, init);
      forall i | 0 <= i < |xs|
        ensures Map(f, xs)[i] == f(xs[i])
      {
        if i < |init| {
          assert xs[i] == init[i];
        }
      }
    }
  }

  /** The keys of a list of days, in the same order. */
  function KeysOf(ds: seq<Date>): seq<string> {
    Map(KeyOf, ds)
  }

  lemma KeysOfAt(ds: seq<Date>)
    ensures |KeysOf(ds)| == |ds|
    ensures forall i :: 0 <= i < |ds| ==> KeysOf(ds)[i] == KeyOf(ds[i])
  {
    MapAt(KeyOf, ds);
  }

  /** What `get_date_iterators(y, m, d)` lists: the key of every day from the
      first published day through the end date; None where the end date is
      rejected. */
  function IteratorKeys(y: int, m: int, d: int): Option<seq<string>> {
    if AcceptedEnd(y, m, d) then Some(KeysOf(DateRange(FirstDay, Date(y, m, d)))) else None
  }

  /** `get_date_iterators`' append loop: the key of each day of the range, appended one by one. */
  method FormatDays(days: seq<Date>) returns (it: seq<string>)
    ensures it == KeysOf(days)
  {
    it := [];
    for i := 0 to |days|
      invariant it == KeysOf(days[..i])
    {
      assert days[..i + 1][..i] == days[..i];
      it := it + [KeyOf(days[i])];
    }
    assert days[..|days|] == days;
  }

  /** `get_date_iterators`: the daily range from the first published day to the
      end date, formatted day by day. */
  method GetDateIterators(y: int, m: int, d: int) returns (r: Option<seq<string>>)
    ensures r == IteratorKeys(y, m, d)
  {
    if !AcceptedEnd(y, m, d) {
      return None;
    }
    var days := DateRange(FirstDay, Date(y, m, d));
    var it := FormatDays(days);
    return Some(it);
  }

  /** Every listed key is an eight-digit YYYYMMDD string naming a day of the
      range, the keys are pairwise distinct, and their cache names are too. */
  lemma IteratorKeysDistinct(y: int, m: int, d: int)
    requires AcceptedEnd(y, m, d)
    ensures var ks := IteratorKeys(y, m, d).value;
            var ds := DateRange(FirstDay, Date(y, m, d));
            && (forall i :: 0 <= i < |ks| ==> |ks[i]| == 8 && AllDigits(ks[i]) && ParseKey(ks[i]) == ds[i])
            && (forall i, j :: 0 <= i < j < |ks| ==> ks[i] != ks[j])
            && (forall i, j :: 0 <= i < j < |ks| ==> CacheName(UrlString(ks[i])) != CacheName(UrlString(ks[j])))
  {
    var ks := IteratorKeys(y, m, d).value;
    var ds := DateRange(FirstDay, Date(y, m, d));
    KeysOfAt(ds);
    DateRangeIncreasing(FirstDay, Date(y, m, d));
    forall i | 0 <= i < |ks|
      ensures |ks[i]| == 8 && AllDigits(ks[i]) && ParseKey(ks[i]) == ds[i]
    {
      DateRangeMembers(FirstDay, Date(y, m, d), ds[i]);
      FormattedDateRoundTrip(ds[i].year, ds[i].month, ds[i].day);
    }
    forall i, j | 0 <= i < j < |ks|
      ensures ks[i] != ks[j]
      ensures CacheName(UrlString(ks[i])) != CacheName(UrlString(ks[j]))
    {
      assert Before(ds[i], ds[j]);
      if CacheName(UrlString(ks[i])) == CacheName(UrlString(ks[j])) {
        CacheNameInjective(ks[i], ks[j]);
      }
    }
  }

  /** The first key is "20200225". */
  lemma FirstKey()
    ensures KeyOf(FirstDay) == "20200225"
  {
    assert NatToDigits(2020) == "2020";
    assert NatToDigits(2) == "2";
    assert NatToDigits(25) == "25";
  }

  /** An end date before 2020-02-25 lists nothing. */
  lemma IteratorKeysEmpty(y: int, m: int, d: int)
    requires AcceptedEnd(y, m, d)
    ensures IteratorKeys(y, m, d) == Some([]) <==> Before(Date(y, m, d), FirstDay)
  {
    DateRangeLength(FirstDay, Date(y, m, d));
  }

  /** The range through 2020-03-01 passes through the leap day 2020-02-29. */
  lemma LeapDayListed()
    ensures DateRange(FirstDay, Date(2020, 3, 1)) ==
              [Date(2020, 2, 25), Date(2020, 2, 26), Date(2020, 2, 27),
               Date(2020, 2, 28), Date(2020, 2, 29), Date(2020, 3, 1)]
  {
    var last := Date(2020, 3, 1);
    assert DayNumber(last) - DayNumber(FirstDay) == 5;
    var r := DateRange(FirstDay, last);
    assert AddDays(FirstDay, 1) == Date(2020, 2, 26);
    assert AddDays(FirstDay, 2) == Date(2020, 2, 27);
    assert AddDays(FirstDay, 3) == Date(2020, 2, 28);
    assert AddDays(FirstDay, 4) == Date(2020, 2, 29);
    assert AddDays(FirstDay, 5) == Date(2020, 3, 1);
  }
}
