/**
 * Click timestamps and the per-date counting the URL-mapping service does
 * on them. A timestamp (`LocalDateTime`) is a day number and a time of day
 * in nanoseconds; its date (`toLocalDate`) is the day number. Spring Data's
 * derived `Between` query includes both of its bounds. Grouping by date and
 * counting (`groupingBy(toLocalDate, counting())`) is `Group`, as a list of
 * (date, count) entries, and `CountByDay`, as a map.
 */
module Clicks {

  /** A `LocalDateTime`: the date as a day number and the time of day in nanoseconds. */
  datatype DateTime = DateTime(day: int, nanoOfDay: nat)

  /** The chronological order of timestamps: `!a.isAfter(b)`. */
  predicate NotAfter(a: DateTime, b: DateTime) {
    a.day < b.day || (a.day == b.day && a.nanoOfDay <= b.nanoOfDay)
  }

  /** `LocalDate.atStartOfDay()`: midnight at the start of `day`. */
  function AtStartOfDay(day: int): (t: DateTime)
    ensures forall u: DateTime :: NotAfter(t, u) <==> u.day >= day
  {
    DateTime(day, 0)
  }

  /** Spring Data's `ClickDateBetween(lo, hi)`: lo <= t <= hi, both bounds included. */
  predicate Between(t: DateTime, lo: DateTime, hi: DateTime) {
    NotAfter(lo, t) && NotAfter(t, hi)
  }

  /** One (date, count) entry of a grouping: a `ClickEventDto`. */
  datatype DayCount = DayCount(clickDate: int, count: int)

  /** No date occurs in two entries. */
  predicate DistinctDates(g: seq<DayCount>) {
    forall i, j :: 0 <= i < j < |g| ==> g[i].clickDate != g[j].clickDate
  }

  /** The dates that have an entry. */
  function Dates(g: seq<DayCount>): set<int> {
    if g == [] then {} else {g[0].clickDate} + Dates(g[1..])
  }

  lemma {:induction false} DatesAreEntries(g: seq<DayCount>)
    ensures Dates(g) == set k | 0 <= k < |g| :: g[k].clickDate
  {
    if g != [] {
      DatesAreEntries(g[1..]);
      assert forall k :: 0 <= k < |g| - 1 ==> g[1..][k] == g[k + 1];
      var s := set k | 0 <= k < |g| :: g[k].clickDate;
      var t := set k | 0 <= k < |g| - 1 :: g[1..][k].clickDate;
      assert s == {g[0].clickDate} + t by {
        forall x | x in s ensures x in {g[0].clickDate} + t {
          var k :| 0 <= k < |g| && g[k].clickDate == x;
          if k > 0 {
            assert g[1..][k - 1].clickDate == x;
          }
        }
      }
    }
  }

  /** The count the grouping holds for `d`: the first entry's count, 0 when `d` has none. */
  function CountOf(g: seq<DayCount>, d: int): int {
    if g == [] then 0 else if g[0].clickDate == d then g[0].count else CountOf(g[1..], d)
  }

  function SumCounts(g: seq<DayCount>): int {
    if g == [] then 0 else g[0].count + SumCounts(g[1..])
  }

  /** A grouping with distinct dates: its tail has distinct dates too, none of them the head's. */
  lemma DistinctTail(g: seq<DayCount>)
    requires DistinctDates(g) && g != []
    ensures DistinctDates(g[1..]) && g[0].clickDate !in Dates(g[1..])
  {
    DatesAreEntries(g[1..]);
    assert forall k :: 0 <= k < |g| - 1 ==> g[1..][k] == g[k + 1];
  }

  /** Putting an entry for a new date in front keeps the dates distinct. */
  lemma ConsDistinct(x: DayCount, rest: seq<DayCount>)
    requires DistinctDates(rest) && x.clickDate !in Dates(rest)
    ensures DistinctDates([x] + rest)
  {
    DatesAreEntries(rest);
    var r := [x] + rest;
    forall i, j | 0 <= i < j < |r| ensures r[i].clickDate != r[j].clickDate {
      assert r[j] == rest[j - 1];
      if i == 0 {
        assert rest[j - 1].clickDate in Dates(rest);
      } else {
        assert r[i] == rest[i - 1];
      }
    }
  }

  /** Counts one more click on date `d`: adds one to its entry, or appends an entry with count 1. */
  function Bump(g: seq<DayCount>, d: int): (r: seq<DayCount>)
    requires DistinctDates(g)
    ensures DistinctDates(r)
    ensures Dates(r) == Dates(g) + {d}
    ensures forall e :: CountOf(r, e) == CountOf(g, e) + (if e == d then 1 else 0)
    ensures (forall k :: 0 <= k < |g| ==> g[k].count >= 1) ==> forall k :: 0 <= k < |r| ==> r[k].count >= 1
    ensures SumCounts(r) == SumCounts(g) + 1
  {
    if g == [] then [DayCount(d, 1)]
    else if g[0].clickDate == d then
      DistinctTail(g);
      var r := [g[0].(count := g[0].count + 1)] + g[1..];
      ConsDistinct(r[0], g[1..]);
      assert r[1..] == g[1..];
      assert forall k :: 1 <= k < |r| ==> r[k] == g[k];
      r
    else
      DistinctTail(g);
      var rest := Bump(g[1..], d);
      ConsDistinct(g[0], rest);
      var r := [g[0]] + rest;
      assert r[1..] == rest;
      assert forall k :: 0 <= k < |g| - 1 ==> g[1..][k] == g[k + 1];
      assert forall k :: 1 <= k < |r| ==> r[k] == rest[k - 1];
      r
  }

  /**
   * `groupingBy(date, counting())` as entries: one entry per distinct date
   * of `days`, counting exactly the occurrences of that date, so every
   * count is at least 1 and the counts add up to the number of clicks.
   */
  function Group(days: seq<int>): (g: seq<DayCount>)
    ensures DistinctDates(g)
    ensures Dates(g) == set d | d in days
    ensures forall d :: CountOf(g, d) == multiset(days)[d]
    ensures forall k :: 0 <= k < |g| ==> g[k].count >= 1
    ensures SumCounts(g) == |days|
  {
    if days == [] then []
    else
      var n := |days| - 1;
      assert days == days[..n] + [days[n]];
      Bump(Group(days[..n]), days[n])
  }

  /** In a grouping with distinct dates, the entry of a date holds `CountOf` that date. */
  lemma {:induction false} CountOfEntry(g: seq<DayCount>, k: nat)
    requires DistinctDates(g) && k < |g|
    ensures CountOf(g, g[k].clickDate) == g[k].count
  {
    if k > 0 {
      assert g[1..][k - 1] == g[k];
      CountOfEntry(g[1..], k - 1);
    }
  }

  /** The grouping as a map from date to count. */
  function AsMap(g: seq<DayCount>): (m: map<int, int>)
    requires DistinctDates(g)
    ensures m.Keys == Dates(g)
    ensures forall d :: d in m ==> m[d] == CountOf(g, d)
  {
    var m := map k | 0 <= k < |g| :: g[k].clickDate := g[k].count;
    DatesAreEntries(g);
    forall d | d in m ensures m[d] == CountOf(g, d) {
      var k :| 0 <= k < |g| && g[k].clickDate == d;
      CountOfEntry(g, k);
    }
    m
  }

  /**
   * `groupingBy(date, counting())` as a map: its keys are exactly the dates
   * that occur, each mapped to how often it occurs; the counts, taken as
   * the entries of `Group`, add up to the number of clicks.
   */
  function CountByDay(days: seq<int>): (m: map<int, int>)
    ensures m.Keys == set d | d in days
    ensures forall d :: d in m ==> m[d] == multiset(days)[d] >= 1
    ensures m == AsMap(Group(days)) && SumCounts(Group(days)) == |days|
  {
    AsMap(Group(days))
  }

  /** A date is a key of `CountByDay` exactly when it occurs, and then maps to how often it does. */
  lemma CountByDayAt(days: seq<int>, d: int)
    ensures d in CountByDay(days) <==> multiset(days)[d] > 0
    ensures d in CountByDay(days) ==> CountByDay(days)[d] == multiset(days)[d]
  {
  }

  /** The counts of `m` for the dates `lo` through `hi` added up; a date without a key adds 0. */
  function TotalOver(m: map<int, int>, lo: int, hi: int): int
    decreases hi - lo
  {
    if hi < lo then 0 else TotalOver(m, lo, hi - 1) + (if hi in m then m[hi] else 0)
  }

  /** How many elements of `ms` lie in `lo` through `hi`. */
  function MultisetTotal(ms: multiset<int>, lo: int, hi: int): int
    decreases hi - lo
  {
    if hi < lo then 0 else MultisetTotal(ms, lo, hi - 1) + ms[hi]
  }

  /** A map that holds the multiplicities of `ms` adds up over a range as `ms` does. */
  lemma {:induction false} TotalOverMultiset(m: map<int, int>, ms: multiset<int>, lo: int, hi: int)
    requires forall d :: d in m ==> m[d] == ms[d]
    requires forall d :: d !in m ==> ms[d] == 0
    ensures TotalOver(m, lo, hi) == MultisetTotal(ms, lo, hi)
    decreases hi - lo
  {
    if hi >= lo {
      TotalOverMultiset(m, ms, lo, hi - 1);
    }
  }

  /** No elements add up to 0 over any range. */
  lemma {:induction false} MultisetTotalEmpty(lo: int, hi: int)
    ensures MultisetTotal(multiset{}, lo, hi) == 0
    decreases hi - lo
  {
    if hi >= lo {
      MultisetTotalEmpty(lo, hi - 1);
    }
  }

  /** One more element adds one to the range it falls in. */
  lemma {:induction false} MultisetTotalAdd(ms: multiset<int>, x: int, lo: int, hi: int)
    ensures MultisetTotal(ms + multiset{x}, lo, hi) == MultisetTotal(ms, lo, hi) + (if lo <= x <= hi then 1 else 0)
    decreases hi - lo
  {
    if hi >= lo {
      MultisetTotalAdd(ms, x, lo, hi - 1);
    }
  }

  /** Dates that all lie in `lo` through `hi` add up over that range to their number. */
  lemma {:induction false} MultisetTotalOfDays(days: seq<int>, lo: int, hi: int)
    requires forall d :: d in days ==> lo <= d <= hi
    ensures MultisetTotal(multiset(days), lo, hi) == |days|
    decreases |days|
  {
    if days == [] {
      MultisetTotalEmpty(lo, hi);
    } else {
      var n := |days| - 1;
      assert days == days[..n] + [days[n]];
      assert forall d :: d in days[..n] ==> d in days;
      assert days[n] in days;
      MultisetTotalOfDays(days[..n], lo, hi);
      MultisetTotalAdd(multiset(days[..n]), days[n], lo, hi);
      assert multiset(days) == multiset(days[..n]) + multiset{days[n]};
    }
  }

  /** The counts of `CountByDay` over a range that holds every date add up to the number of clicks. */
  lemma CountByDayTotal(days: seq<int>, lo: int, hi: int)
    requires forall d :: d in days ==> lo <= d <= hi
    ensures TotalOver(CountByDay(days), lo, hi) == |days|
  {
    var m := CountByDay(days);
    assert forall d :: d !in m ==> d !in days;
    TotalOverMultiset(m, multiset(days), lo, hi);
    MultisetTotalOfDays(days, lo, hi);
  }
}
