/** The in-memory market-data table: bar lists keyed by an upper-cased ticker. */
module Repository {
  import opened Wrappers
  import opened Domain

  /** Character.isWhitespace: the Unicode space, line and paragraph separators
      other than the no-break spaces, plus the ASCII control whitespace
      U+0009..U+000D and the separators U+001C..U+001F. */
  predicate IsWhitespace(c: char) {
    c == ' ' || ('\t' <= c <= '\r') || ('\U{1C}' <= c <= '\U{1F}')
    || c == '\U{1680}' || ('\U{2000}' <= c <= '\U{2006}') || ('\U{2008}' <= c <= '\U{200A}')
    || c == '\U{2028}' || c == '\U{2029}' || c == '\U{205F}' || c == '\U{3000}'
  }

  /** String.isBlank: empty, or whitespace only. */
  predicate IsBlank(s: string) {
    forall i :: 0 <= i < |s| ==> IsWhitespace(s[i])
  }

  /** The upper case of one character; only the Latin letters a..z change. */
  function UpperChar(c: char): char {
    if 'a' <= c <= 'z' then (c as int - 32) as char else c
  }

  /** String.toUpperCase, character by character. */
  function ToUpper(s: string): (r: string)
    ensures |r| == |s|
    ensures forall i :: 0 <= i < |s| ==> r[i] == UpperChar(s[i])
  {
    if s == [] then [] else [UpperChar(s[0])] + ToUpper(s[1..])
  }

  /** The storage key for a ticker, or None for a null or blank ticker. A
      key is never blank and is its own upper case. */
  function Key(ticker: Option<string>): (r: Option<string>)
    ensures r.Some? <==> ticker.Some? && !IsBlank(ticker.value)
    ensures r.Some? ==> !IsBlank(r.value) && ToUpper(r.value) == r.value
  {
    if ticker.None? || IsBlank(ticker.value) then None
    else
      UpperKeepsBlank(ticker.value);
      ToUpperIdempotent(ticker.value);
      Some(ToUpper(ticker.value))
  }

  /** What a lookup of `ticker` finds in `storage`, in stored order: None for
      a null or blank ticker, an absent key or an empty list. */
  function Find(storage: map<string, seq<MarketData>>, ticker: Option<string>): (r: Option<seq<MarketData>>)
    ensures r.Some? <==> Key(ticker).Some? && Key(ticker).value in storage && |storage[Key(ticker).value]| > 0
    ensures r.Some? ==> r.value == storage[Key(ticker).value]
  {
    match Key(ticker)
    case None => None
    case Some(key) =>
      if key in storage && |storage[key]| > 0 then Some(storage[key]) else None
  }

  /** Why `Save` refuses its arguments (an IllegalArgumentException in the source). */
  datatype SaveError = BlankTicker | NullData

  /** The bars of `data` dated `d`, in their order in `data`. */
  function OnDate(data: seq<MarketData>, d: Date): seq<MarketData> {
    if data == [] then []
    else (if data[0].date == d then [data[0]] else []) + OnDate(data[1..], d)
  }

  /** True when `after` holds the bars of every date in the order `before`
      holds them: what a stable sort keeps. */
  ghost predicate SameOrderWithinDates(before: seq<MarketData>, after: seq<MarketData>) {
    forall d :: OnDate(after, d) == OnDate(before, d)
  }

  lemma {:induction false} OnDateAppend(a: seq<MarketData>, b: seq<MarketData>, d: Date)
    ensures OnDate(a + b, d) == OnDate(a, d) + OnDate(b, d)
  {
    if a != [] {
      assert (a + b)[0] == a[0] && (a + b)[1..] == a[1..] + b;
      OnDateAppend(a[1..], b, d);
    } else {
      assert a + b == b;
    }
  }

  /** Exchanging two adjacent bars with different dates keeps the order of
      the bars of every date. */
  lemma SwapKeepsOrderWithinDates(s: seq<MarketData>, j: int)
    requires 0 < j < |s| && s[j - 1].date != s[j].date
    ensures SameOrderWithinDates(s, s[j - 1 := s[j]][j := s[j - 1]])
  {
    var t := s[j - 1 := s[j]][j := s[j - 1]];
    var pre, post := s[..j - 1], s[j + 1..];
    assert s == pre + [s[j - 1], s[j]] + post;
    assert t == pre + [s[j], s[j - 1]] + post;
    forall d
      ensures OnDate(t, d) == OnDate(s, d)
    {
      OnDateAppend(pre + [s[j - 1], s[j]], post, d);
      OnDateAppend(pre, [s[j - 1], s[j]], d);
      OnDateAppend(pre + [s[j], s[j - 1]], post, d);
      OnDateAppend(pre, [s[j], s[j - 1]], d);
      assert [s[j - 1], s[j]][1..] == [s[j]];
      assert [s[j], s[j - 1]][1..] == [s[j - 1]];
    }
  }

  /** True when `a[lo..hi]` is in ascending date order. */
  predicate SortedRange(a: array<MarketData>, lo: int, hi: int)
    requires 0 <= lo <= hi <= a.Length
    reads a
  {
    forall p, q :: lo <= p < q < hi ==> a[p].date <= a[q].date
  }

  /** Exchanges the bars at `j - 1` and `j`, which have different dates. */
  method SwapDown(a: array<MarketData>, j: int)
    requires 0 < j < a.Length && a[j - 1].date != a[j].date
    modifies a
    ensures a[j - 1] == old(a[j]) && a[j] == old(a[j - 1])
    ensures forall k :: 0 <= k < a.Length && k != j - 1 && k != j ==> a[k] == old(a[k])
    ensures multiset(a[..]) == old(multiset(a[..]))
    ensures SameOrderWithinDates(old(a[..]), a[..])
  {
    SwapKeepsOrderWithinDates(a[..], j);
    a[j - 1], a[j] := a[j], a[j - 1];
    assert a[..] == old(a[..])[j - 1 := old(a[j])][j := old(a[j - 1])];
  }

  /** Moves the bar at `i` down into the date-sorted prefix `a[..i]`, past
      every bar with a strictly later date. */
  method InsertAt(a: array<MarketData>, i: int)
    requires 0 <= i < a.Length
    requires SortedRange(a, 0, i)
    modifies a
    ensures SortedRange(a, 0, i + 1)
    ensures multiset(a[..]) == old(multiset(a[..]))
    ensures SameOrderWithinDates(old(a[..]), a[..])
  {
    var j := i;
    while j > 0 && a[j - 1].date > a[j].date
      invariant 0 <= j <= i
      invariant forall p, q :: 0 <= p < q <= i && p != j && q != j ==> a[p].date <= a[q].date
      invariant forall q :: j < q <= i ==> a[j].date <= a[q].date
      invariant forall p, q :: 0 <= p < j < q <= i ==> a[p].date <= a[q].date
      invariant multiset(a[..]) == old(multiset(a[..]))
      invariant SameOrderWithinDates(old(a[..]), a[..])
    {
      SwapDown(a, j);
      j := j - 1;
    }
  }

  /** Sorts `a` by ascending date in place; bars with equal dates keep their
      order (a stable sort, as List.sort is). */
  method SortByDate(a: array<MarketData>)
    modifies a
    ensures SortedByDate(a[..])
    ensures multiset(a[..]) == old(multiset(a[..]))
    ensures SameOrderWithinDates(old(a[..]), a[..])
  {
    var i := 0;
    while i < a.Length
      invariant 0 <= i <= a.Length
      invariant SortedRange(a, 0, i)
      invariant multiset(a[..]) == old(multiset(a[..]))
      invariant SameOrderWithinDates(old(a[..]), a[..])
    {
      InsertAt(a, i);
      i := i + 1;
    }
  }

  /** Bar lists keyed by upper-cased ticker. */
  class InMemoryMarketDataRepository {
    var storage: map<string, seq<MarketData>>

    /** An empty table. */
    constructor ()
      ensures storage == map[]
    {
      storage := map[];
    }

    /** Stores `data` under the upper-cased `ticker`, replacing any earlier
        list; a null or blank ticker, or null data, is refused and nothing
        changes. */
    method Save(ticker: Option<string>, data: Option<seq<MarketData>>) returns (r: Result<(), SaveError>)
      modifies this
      ensures Key(ticker).None? ==> r == Failure(BlankTicker) && storage == old(storage)
      ensures Key(ticker).Some? && data.None? ==> r == Failure(NullData) && storage == old(storage)
      ensures Key(ticker).Some? && data.Some? ==>
        r == Success(()) && storage == old(storage)[Key(ticker).value := data.value]
    {
      if ticker.None? || IsBlank(ticker.value) {
        return Failure(BlankTicker);
      }
      if data.None? {
        return Failure(NullData);
      }
      storage := storage[ToUpper(ticker.value) := data.value];
      return Success(());
    }

    /** The bars stored under `ticker`, as a fresh list sorted by date; None
        when the ticker is null or blank, was never saved, or holds no bars. */
    method FindByTicker(ticker: Option<string>) returns (r: Option<seq<MarketData>>)
      ensures r.None? <==> Find(storage, ticker).None?
      ensures r.Some? ==> SortedByDate(r.value) && multiset(r.value) == multiset(Find(storage, ticker).value)
      ensures r.Some? ==> SameOrderWithinDates(Find(storage, ticker).value, r.value)
    {
      if ticker.None? || IsBlank(ticker.value) {
        return None;
      }
      var key := ToUpper(ticker.value);
      if key !in storage {
        return None;
      }
      var data := storage[key];
      if |data| == 0 {
        return None;
      }
      var sorted := new MarketData[|data|](i requires 0 <= i < |data| => data[i]);
      assert sorted[..] == data;
      SortByDate(sorted);
      return Some(sorted[..]);
    }

    /** Whether `ticker` names a non-empty stored list. */
    method ExistsByTicker(ticker: Option<string>) returns (b: bool)
      ensures b <==> Find(storage, ticker).Some?
    {
      if ticker.None? || IsBlank(ticker.value) {
        return false;
      }
      var key := ToUpper(ticker.value);
      return key in storage && |storage[key]| > 0;
    }
  }

  /** Upper-casing never turns a letter into whitespace or back. */
  lemma UpperKeepsBlank(s: string)
    ensures IsBlank(ToUpper(s)) <==> IsBlank(s)
  {
    var u := ToUpper(s);
    forall i | 0 <= i < |s|
      ensures IsWhitespace(u[i]) <==> IsWhitespace(s[i])
    {
    }
  }

  /** Upper-casing twice is upper-casing once. */
  lemma {:induction false} ToUpperIdempotent(s: string)
    ensures ToUpper(ToUpper(s)) == ToUpper(s)
  {
    if s != [] {
      ToUpperIdempotent(s[1..]);
      assert ToUpper(s)[1..] == ToUpper(s[1..]);
    }
  }

  /** Tickers that differ only in letter case find the same list. */
  lemma CaseInsensitiveFind(storage: map<string, seq<MarketData>>, t: string, u: string)
    requires ToUpper(t) == ToUpper(u)
    ensures Find(storage, Some(t)) == Find(storage, Some(u))
  {
    UpperKeepsBlank(t);
    UpperKeepsBlank(u);
  }

  /** Looking up the upper-cased ticker finds what the ticker itself finds. */
  lemma FindByUpperCase(storage: map<string, seq<MarketData>>, t: string)
    ensures Find(storage, Some(ToUpper(t))) == Find(storage, Some(t))
  {
    ToUpperIdempotent(t);
    CaseInsensitiveFind(storage, ToUpper(t), t);
  }

  /** After a save of `data` under `t`, a lookup under any ticker `u` with the
      same key finds `data` unless it is empty, and any other lookup finds
      what it found before. */
  lemma FindAfterSave(storage: map<string, seq<MarketData>>, t: string, data: seq<MarketData>, u: Option<string>)
    requires Key(Some(t)).Some?
    ensures Key(u) == Key(Some(t)) ==>
      Find(storage[Key(Some(t)).value := data], u) == (if |data| > 0 then Some(data) else None)
    ensures Key(u) != Key(Some(t)) ==>
      Find(storage[Key(Some(t)).value := data], u) == Find(storage, u)
  {
  }

  /** What counts as blank: whitespace of any of Java's kinds, but not the
      no-break space U+00A0, which Character.isWhitespace excludes. */
  lemma BlankTickers()
    ensures IsBlank("") && IsBlank(" ") && IsBlank("\t\n\r") && IsBlank("\U{3000}\U{2028}")
    ensures !IsBlank(" aapl ") && !IsBlank("\U{A0}") && !IsBlank("\U{2007}")
  {
    assert " aapl "[1] == 'a';
    assert "\U{A0}"[0] == '\U{A0}';
    assert "\U{2007}"[0] == '\U{2007}';
  }
}
