/**
 * The URL-mapping service (`UrlMappingService`) over its two repositories:
 * the saved mappings, in the order they were saved, and the saved click
 * events. A lookup by short code is Spring Data's derived single-result
 * query: no match gives null, one match gives the mapping, and several
 * matches make the query throw. The clock and the random choices are
 * inputs; database ids are handed out in increasing order.
 */
module Service {
  import opened Common
  import opened Clicks

  datatype User = User(id: int, username: string)

  /** A saved `UrlMapping` row. */
  datatype UrlMapping = UrlMapping(
    id: int,
    originalUrl: string,
    shortUrl: string,
    clickCount: int,
    createdDate: DateTime,
    owner: User)

  /** A saved `ClickEvent` row: when, and for which mapping (by id). */
  datatype ClickEvent = ClickEvent(clickDate: DateTime, mappingId: int)

  /** `UrlMappingDTO`: the mapping's fields, with the owner reduced to its username. */
  datatype UrlMappingDto = UrlMappingDto(
    id: int,
    originalUrl: string,
    shortUrl: string,
    clickCount: int,
    createdDate: DateTime,
    username: string)

  /** What `findByShortUrl` does: no row, exactly one row (at `index`), or several (the query throws). */
  datatype Lookup = NotFound | Found(index: nat) | Ambiguous

  /** A service answer that may instead be an exception thrown through it (the controller then answers 500). */
  datatype Answer<T> = Ok(value: T) | Failed

  /** What `getOriginalUrl` returns: null, the updated mapping, or an exception. */
  datatype Fetched = Missing | Got(mapping: UrlMapping) | Threw

  /** `findByShortUrl(code)` over the saved mappings. */
  function FindByShortUrl(ms: seq<UrlMapping>, code: string): (r: Lookup)
    ensures r.NotFound? <==> forall i :: 0 <= i < |ms| ==> ms[i].shortUrl != code
    ensures r.Found? ==> r.index < |ms| && ms[r.index].shortUrl == code
    ensures r.Found? ==> forall j :: 0 <= j < |ms| && j != r.index ==> ms[j].shortUrl != code
    ensures r.Ambiguous? <==> exists i, j :: 0 <= i < j < |ms| && ms[i].shortUrl == code && ms[j].shortUrl == code
  {
    if ms == [] then NotFound
    else
      assert forall k :: 0 <= k < |ms| - 1 ==> ms[1..][k] == ms[k + 1];
      match FindByShortUrl(ms[1..], code)
      case NotFound => if ms[0].shortUrl == code then Found(0) else NotFound
      case Found(k) =>
        if ms[0].shortUrl == code then
          assert ms[k + 1].shortUrl == code;
          Ambiguous
        else Found(k + 1)
      case Ambiguous =>
        var i, j :| 0 <= i < j < |ms| - 1 && ms[1..][i].shortUrl == code && ms[1..][j].shortUrl == code;
        assert ms[i + 1].shortUrl == code && ms[j + 1].shortUrl == code;
        Ambiguous
  }

  /**
   * `createShortUrl` does not check the generated code against the saved
   * ones: when it collides, the code no longer resolves to one mapping and
   * every later lookup of it throws.
   */
  lemma CollisionMakesLookupAmbiguous(ms: seq<UrlMapping>, m: UrlMapping)
    requires FindByShortUrl(ms, m.shortUrl).Found?
    ensures FindByShortUrl(ms + [m], m.shortUrl).Ambiguous?
  {
    var i := FindByShortUrl(ms, m.shortUrl).index;
    assert (ms + [m])[i].shortUrl == m.shortUrl && (ms + [m])[|ms|] == m;
  }

  /** `convertToDTO`: copies each field of the mapping and, of the owner, the username. */
  function ConvertToDto(m: UrlMapping): (d: UrlMappingDto)
    ensures d.id == m.id && d.originalUrl == m.originalUrl && d.shortUrl == m.shortUrl
    ensures d.clickCount == m.clickCount && d.createdDate == m.createdDate
    ensures d.username == m.owner.username
  {
    UrlMappingDto(m.id, m.originalUrl, m.shortUrl, m.clickCount, m.createdDate, m.owner.username)
  }

  /** The DTO keeps every field of the mapping except the owner, of which it keeps the username. */
  lemma DtoKeepsMapping(a: UrlMapping, b: UrlMapping)
    requires ConvertToDto(a) == ConvertToDto(b)
    ensures a.(owner := b.owner) == b && a.owner.username == b.owner.username
  {
  }

  /**
   * `getUrlsByUser` (and `getUrlsByUsers`, whose body is the same): the
   * DTOs of the mappings the user owns, in the repository's order.
   */
  function UrlsByUser(ms: seq<UrlMapping>, user: User): (r: seq<UrlMappingDto>)
    ensures |r| <= |ms|
    ensures forall k :: 0 <= k < |r| ==> r[k].username == user.username
  {
    if ms == [] then []
    else (if ms[0].owner == user then [ConvertToDto(ms[0])] else []) + UrlsByUser(ms[1..], user)
  }

  /** The list holds the DTO of every mapping the user owns, and nothing else. */
  lemma {:induction false} UrlsByUserExact(ms: seq<UrlMapping>, user: User)
    ensures forall i :: 0 <= i < |ms| && ms[i].owner == user ==> ConvertToDto(ms[i]) in UrlsByUser(ms, user)
    ensures forall d :: d in UrlsByUser(ms, user) ==> exists i :: 0 <= i < |ms| && ms[i].owner == user && d == ConvertToDto(ms[i])
  {
    if ms != [] {
      UrlsByUserExact(ms[1..], user);
      var rest := UrlsByUser(ms[1..], user);
      var head := if ms[0].owner == user then [ConvertToDto(ms[0])] else [];
      assert UrlsByUser(ms, user) == head + rest;
      forall i | 0 <= i < |ms| && ms[i].owner == user ensures ConvertToDto(ms[i]) in UrlsByUser(ms, user) {
        if i > 0 {
          assert ms[i] == ms[1..][i - 1];
        }
      }
      forall d | d in UrlsByUser(ms, user)
        ensures exists i :: 0 <= i < |ms| && ms[i].owner == user && d == ConvertToDto(ms[i])
      {
        if d !in head {
          var i :| 0 <= i < |ms| - 1 && ms[1..][i].owner == user && d == ConvertToDto(ms[1..][i]);
          assert ms[i + 1] == ms[1..][i];
        }
      }
    }
  }

  /** The positions of the mappings `user` owns, in the repository's order. */
  function OwnedIndices(ms: seq<UrlMapping>, user: User): seq<nat> {
    if ms == [] then []
    else OwnedIndices(ms[..|ms| - 1], user) + (if ms[|ms| - 1].owner == user then [|ms| - 1] else [])
  }

  /**
   * The owned positions are strictly increasing, each holds a mapping the
   * user owns, and none of the user's mappings is left out.
   */
  lemma {:induction false} OwnedIndicesExact(ms: seq<UrlMapping>, user: User)
    ensures var idx := OwnedIndices(ms, user);
      && (forall k :: 0 <= k < |idx| ==> idx[k] < |ms| && ms[idx[k]].owner == user)
      && (forall j, k :: 0 <= j < k < |idx| ==> idx[j] < idx[k])
      && (forall i :: 0 <= i < |ms| && ms[i].owner == user ==> i in idx)
    decreases |ms|
  {
    if ms != [] {
      var n := |ms| - 1;
      var prefix := ms[..n];
      OwnedIndicesExact(prefix, user);
      var front := OwnedIndices(prefix, user);
      assert forall k :: 0 <= k < |front| ==> front[k] < |prefix| && prefix[front[k]].owner == user;
      var tail: seq<nat> := if ms[n].owner == user then [n] else [];
      var idx := front + tail;
      assert OwnedIndices(ms, user) == idx;
      forall k | 0 <= k < |idx| ensures idx[k] < |ms| && ms[idx[k]].owner == user {
        if k < |front| {
          assert idx[k] == front[k] && prefix[front[k]] == ms[front[k]];
        }
      }
      forall j, k | 0 <= j < k < |idx| ensures idx[j] < idx[k] {
        if k >= |front| {
          assert idx[k] == n && idx[j] == front[j];
        }
      }
      forall i | 0 <= i < |ms| && ms[i].owner == user ensures i in idx {
        if i < n {
          assert prefix[i] == ms[i];
          assert i in front;
        }
      }
    }
  }

  /** Listing one more mapping adds its DTO at the end exactly when the user owns it. */
  lemma {:induction false} UrlsByUserSnoc(ms: seq<UrlMapping>, m: UrlMapping, user: User)
    ensures UrlsByUser(ms + [m], user) == UrlsByUser(ms, user) + (if m.owner == user then [ConvertToDto(m)] else [])
    decreases |ms|
  {
    if ms == [] {
      assert ([m])[1..] == [];
    } else {
      assert (ms + [m])[1..] == ms[1..] + [m];
      UrlsByUserSnoc(ms[1..], m, user);
    }
  }

  /**
   * The list holds one DTO per mapping the user owns, in the repository's
   * order: its `k`-th entry is the DTO of the `k`-th owned mapping.
   */
  lemma {:induction false} UrlsByUserInOrder(ms: seq<UrlMapping>, user: User)
    ensures var r := UrlsByUser(ms, user); var idx := OwnedIndices(ms, user);
      && |r| == |idx|
      && forall k :: 0 <= k < |r| ==> idx[k] < |ms| && r[k] == ConvertToDto(ms[idx[k]])
    decreases |ms|
  {
    if ms != [] {
      var n := |ms| - 1;
      var prefix := ms[..n];
      UrlsByUserInOrder(prefix, user);
      assert ms == prefix + [ms[n]];
      UrlsByUserSnoc(prefix, ms[n], user);
      var r, rFront := UrlsByUser(ms, user), UrlsByUser(prefix, user);
      var idx, front := OwnedIndices(ms, user), OwnedIndices(prefix, user);
      assert idx == front + (if ms[n].owner == user then [n] else []);
      OwnedIndicesExact(prefix, user);
      forall k | 0 <= k < |rFront| ensures r[k] == ConvertToDto(ms[idx[k]]) {
        assert r[k] == rFront[k] && idx[k] == front[k];
        assert prefix[front[k]] == ms[front[k]];
      }
    }
  }

  /** The number of click events recorded for the mapping with id `id`. */
  function ClicksFor(clicks: seq<ClickEvent>, id: int): (n: nat)
    ensures n <= |clicks|
  {
    if clicks == [] then 0
    else ClicksFor(clicks[..|clicks| - 1], id) + (if clicks[|clicks| - 1].mappingId == id then 1 else 0)
  }

  /** Recording a click adds one to its own mapping's count of events and to no other. */
  lemma ClicksForRecord(clicks: seq<ClickEvent>, e: ClickEvent, id: int)
    ensures ClicksFor(clicks + [e], id) == ClicksFor(clicks, id) + (if e.mappingId == id then 1 else 0)
  {
    assert (clicks + [e])[..|clicks|] == clicks;
  }

  /** A mapping no event refers to has no events. */
  lemma {:induction false} NoClicksFor(clicks: seq<ClickEvent>, id: int)
    requires forall k :: 0 <= k < |clicks| ==> clicks[k].mappingId != id
    ensures ClicksFor(clicks, id) == 0
  {
    if clicks != [] {
      NoClicksFor(clicks[..|clicks| - 1], id);
    }
  }

  /** The dates of the events of mappings in `ids` whose time lies in [lo, hi], both ends included. */
  function DaysBetween(clicks: seq<ClickEvent>, ids: set<int>, lo: DateTime, hi: DateTime): (days: seq<int>)
    ensures |days| <= |clicks|
    ensures forall d :: d in days ==> lo.day <= d <= hi.day
  {
    if clicks == [] then []
    else
      var e := clicks[0];
      (if e.mappingId in ids && Between(e.clickDate, lo, hi) then [e.clickDate.day] else [])
      + DaysBetween(clicks[1..], ids, lo, hi)
  }

  /** The number of events of mappings in `ids` on the day `d` whose time lies in [lo, hi], both ends included. */
  function ClicksBetweenOnDay(clicks: seq<ClickEvent>, ids: set<int>, lo: DateTime, hi: DateTime, d: int): nat {
    if clicks == [] then 0
    else
      var e := clicks[0];
      (if e.mappingId in ids && Between(e.clickDate, lo, hi) && e.clickDate.day == d then 1 else 0)
      + ClicksBetweenOnDay(clicks[1..], ids, lo, hi, d)
  }

  /** Each date occurs in `DaysBetween` as often as there are matching events on that date. */
  lemma {:induction false} DaysBetweenCounts(clicks: seq<ClickEvent>, ids: set<int>, lo: DateTime, hi: DateTime, d: int)
    ensures multiset(DaysBetween(clicks, ids, lo, hi))[d] == ClicksBetweenOnDay(clicks, ids, lo, hi, d)
  {
    if clicks != [] {
      DaysBetweenCounts(clicks[1..], ids, lo, hi, d);
      var e := clicks[0];
      var head: seq<int> := if e.mappingId in ids && Between(e.clickDate, lo, hi) then [e.clickDate.day] else [];
      var rest := DaysBetween(clicks[1..], ids, lo, hi);
      assert multiset(head + rest) == multiset(head) + multiset(rest);
    }
  }

  /** The number of events of mappings in `ids` at exactly the time `t`. */
  function ClicksAt(clicks: seq<ClickEvent>, ids: set<int>, t: DateTime): nat {
    if clicks == [] then 0
    else (if clicks[0].mappingId in ids && clicks[0].clickDate == t then 1 else 0) + ClicksAt(clicks[1..], ids, t)
  }

  /** From the start of `start` to the start of the day after `end`, a day of start..end is taken whole. */
  lemma {:induction false} WholeDaysBetween(clicks: seq<ClickEvent>, ids: set<int>, start: int, end: int, d: int)
    requires start <= d <= end
    ensures ClicksBetweenOnDay(clicks, ids, AtStartOfDay(start), AtStartOfDay(end + 1), d) == ClicksOnDay(clicks, ids, d)
  {
    if clicks != [] {
      WholeDaysBetween(clicks[1..], ids, start, end, d);
    }
  }

  /** Of the day after `end`, the inclusive upper bound takes in only the events at its first instant. */
  lemma {:induction false} MidnightBetween(clicks: seq<ClickEvent>, ids: set<int>, start: int, end: int)
    requires start <= end + 1
    ensures ClicksBetweenOnDay(clicks, ids, AtStartOfDay(start), AtStartOfDay(end + 1), end + 1)
            == ClicksAt(clicks, ids, AtStartOfDay(end + 1))
  {
    if clicks != [] {
      MidnightBetween(clicks[1..], ids, start, end);
      var t := clicks[0].clickDate;
      assert Between(t, AtStartOfDay(start), AtStartOfDay(end + 1)) && t.day == end + 1 <==> t == AtStartOfDay(end + 1);
    }
  }

  /**
   * The dates of the events of mappings in `ids` from the start of `first`
   * up to, but not including, the start of the day after `last`: the days
   * first..last.
   */
  function DaysOn(clicks: seq<ClickEvent>, ids: set<int>, first: int, last: int): (days: seq<int>)
    ensures forall d :: d in days ==> first <= d <= last
  {
    if clicks == [] then []
    else
      var e := clicks[0];
      var inRange := NotAfter(AtStartOfDay(first), e.clickDate) && !NotAfter(AtStartOfDay(last + 1), e.clickDate);
      (if e.mappingId in ids && inRange then [e.clickDate.day] else [])
      + DaysOn(clicks[1..], ids, first, last)
  }

  /** The number of events of mappings in `ids` on the day `d`. */
  function ClicksOnDay(clicks: seq<ClickEvent>, ids: set<int>, d: int): nat {
    if clicks == [] then 0
    else (if clicks[0].mappingId in ids && clicks[0].clickDate.day == d then 1 else 0) + ClicksOnDay(clicks[1..], ids, d)
  }

  lemma {:induction false} DaysOnCounts(clicks: seq<ClickEvent>, ids: set<int>, first: int, last: int, d: int)
    requires first <= d <= last
    ensures multiset(DaysOn(clicks, ids, first, last))[d] == ClicksOnDay(clicks, ids, d)
  {
    if clicks != [] {
      DaysOnCounts(clicks[1..], ids, first, last, d);
      var e := clicks[0];
      var head: seq<int> := if e.mappingId in ids && first <= e.clickDate.day <= last then [e.clickDate.day] else [];
      assert multiset(head + DaysOn(clicks[1..], ids, first, last)) == multiset(head) + multiset(DaysOn(clicks[1..], ids, first, last));
    }
  }

  /**
   * `getClickEventsByDate`: for the mapping with the code, the clicks in
   * [start, end] grouped by date, dates distinct, every count at least 1,
   * the counts adding up to the matching events; an unknown code gives an
   * empty list; a code saved twice makes the lookup throw.
   */
  function GetClickEventsByDate(ms: seq<UrlMapping>, clicks: seq<ClickEvent>, code: string,
                                start: DateTime, end: DateTime): (r: Answer<seq<DayCount>>)
    ensures r.Failed? <==> FindByShortUrl(ms, code).Ambiguous?
    ensures FindByShortUrl(ms, code).NotFound? ==> r == Ok([])
    ensures FindByShortUrl(ms, code).Found? ==>
              var days := DaysBetween(clicks, {ms[FindByShortUrl(ms, code).index].id}, start, end);
              && r.Ok? && DistinctDates(r.value) && SumCounts(r.value) == |days|
              && (forall k :: 0 <= k < |r.value| ==> r.value[k].count >= 1 && start.day <= r.value[k].clickDate <= end.day)
              && (forall d :: CountOf(r.value, d) == multiset(days)[d])
              && (forall d :: CountOf(r.value, d)
                               == ClicksBetweenOnDay(clicks, {ms[FindByShortUrl(ms, code).index].id}, start, end, d))
  {
    match FindByShortUrl(ms, code)
    case NotFound => Ok([])
    case Ambiguous => Failed
    case Found(i) =>
      var days := DaysBetween(clicks, {ms[i].id}, start, end);
      var g := Group(days);
      DatesAreEntries(g);
      assert forall k :: 0 <= k < |g| ==> g[k].clickDate in Dates(g);
      forall d ensures multiset(days)[d] == ClicksBetweenOnDay(clicks, {ms[i].id}, start, end, d) {
        DaysBetweenCounts(clicks, {ms[i].id}, start, end, d);
      }
      Ok(g)
  }

  /** The ids of the mappings `user` owns. */
  function OwnedIds(ms: seq<UrlMapping>, user: User): set<int> {
    set i | 0 <= i < |ms| && ms[i].owner == user :: ms[i].id
  }

  /**
   * `getTotalClicksByUserAndDate` as written: the user's clicks from the
   * start of `start` to the start of the day after `end`, both ends
   * included (the query is a `Between`), counted per date. Each day of
   * start..end is a key exactly when the user has clicks that day, mapped
   * to their number; besides those, a click at exactly midnight after `end`
   * is counted, under the date `end + 1`. The counts add up to the events
   * the query returns.
   */
  function TotalClicksAsWritten(ms: seq<UrlMapping>, clicks: seq<ClickEvent>, user: User,
                                start: int, end: int): (m: map<int, int>)
    ensures forall d :: d in m ==> start <= d <= end + 1
    ensures forall d :: start <= d <= end ==>
              && (d in m <==> ClicksOnDay(clicks, OwnedIds(ms, user), d) > 0)
              && (d in m ==> m[d] == ClicksOnDay(clicks, OwnedIds(ms, user), d))
    ensures start <= end + 1 ==>
              var midnight := ClicksAt(clicks, OwnedIds(ms, user), AtStartOfDay(end + 1));
              && (end + 1 in m <==> midnight > 0)
              && (end + 1 in m ==> m[end + 1] == midnight)
    ensures TotalOver(m, start, end + 1)
            == |DaysBetween(clicks, OwnedIds(ms, user), AtStartOfDay(start), AtStartOfDay(end + 1))|
  {
    AsWrittenMap(clicks, OwnedIds(ms, user), start, end);
    CountByDay(DaysBetween(clicks, OwnedIds(ms, user), AtStartOfDay(start), AtStartOfDay(end + 1)))
  }

  /** The per-date map the as-written query yields, over any set of mapping ids. */
  lemma AsWrittenMap(clicks: seq<ClickEvent>, ids: set<int>, start: int, end: int)
    ensures var days := DaysBetween(clicks, ids, AtStartOfDay(start), AtStartOfDay(end + 1));
      var m := CountByDay(days);
      && (forall d :: start <= d <= end ==>
            && (d in m <==> ClicksOnDay(clicks, ids, d) > 0)
            && (d in m ==> m[d] == ClicksOnDay(clicks, ids, d)))
      && (start <= end + 1 ==>
            var midnight := ClicksAt(clicks, ids, AtStartOfDay(end + 1));
            && (end + 1 in m <==> midnight > 0)
            && (end + 1 in m ==> m[end + 1] == midnight))
      && TotalOver(m, start, end + 1) == |days|
  {
    var days := DaysBetween(clicks, ids, AtStartOfDay(start), AtStartOfDay(end + 1));
    var m := CountByDay(days);
    forall d | start <= d <= end
      ensures (d in m <==> ClicksOnDay(clicks, ids, d) > 0) && (d in m ==> m[d] == ClicksOnDay(clicks, ids, d))
    {
      DaysBetweenCounts(clicks, ids, AtStartOfDay(start), AtStartOfDay(end + 1), d);
      WholeDaysBetween(clicks, ids, start, end, d);
      CountByDayAt(days, d);
    }
    if start <= end + 1 {
      DaysBetweenCounts(clicks, ids, AtStartOfDay(start), AtStartOfDay(end + 1), end + 1);
      MidnightBetween(clicks, ids, start, end);
      CountByDayAt(days, end + 1);
    }
    CountByDayTotal(days, start, end + 1);
  }

  /** A user with one link clicked exactly at midnight after the range gets a total for a date outside it. */
  lemma AsWrittenCountsNextMidnight()
    ensures var owner := User(1, "u");
            var ms := [UrlMapping(1, "https://example.com", "abcdefgh", 1, DateTime(0, 0), owner)];
            var clicks := [ClickEvent(AtStartOfDay(1), 1)];
            && TotalClicksAsWritten(ms, clicks, owner, 0, 0) == map[1 := 1]
            && TotalClicks(ms, clicks, owner, 0, 0) == map[]
  {
    var owner := User(1, "u");
    var ms := [UrlMapping(1, "https://example.com", "abcdefgh", 1, DateTime(0, 0), owner)];
    var clicks := [ClickEvent(AtStartOfDay(1), 1)];
    assert ms[0].owner == owner && ms[0].id == 1;
    assert OwnedIds(ms, owner) == {1};
    assert DaysBetween(clicks, {1}, AtStartOfDay(0), AtStartOfDay(1)) == [1];
    assert DaysOn(clicks, {1}, 0, 0) == [];
    var m := TotalClicksAsWritten(ms, clicks, owner, 0, 0);
    assert m.Keys == {1};
    assert multiset([1])[1] == 1;
  }

  /**
   * `getTotalClicksByUserAndDate` as intended: the user's clicks on the
   * days `start` through `end`, counted per date. Every key lies in the
   * range, each date maps to the number of the user's clicks that day, and
   * the counts over the range add up to the user's clicks in it.
   */
  function TotalClicks(ms: seq<UrlMapping>, clicks: seq<ClickEvent>, user: User, start: int, end: int): (m: map<int, int>)
    ensures forall d :: d in m ==> start <= d <= end && m[d] == ClicksOnDay(clicks, OwnedIds(ms, user), d) >= 1
    ensures forall d :: start <= d <= end && ClicksOnDay(clicks, OwnedIds(ms, user), d) > 0 ==> d in m
    ensures TotalOver(m, start, end) == |DaysOn(clicks, OwnedIds(ms, user), start, end)|
  {
    var ids := OwnedIds(ms, user);
    var days := DaysOn(clicks, ids, start, end);
    var m := CountByDay(days);
    forall d | start <= d <= end ensures multiset(days)[d] == ClicksOnDay(clicks, ids, d) {
      DaysOnCounts(clicks, ids, start, end, d);
    }
    CountByDayTotal(days, start, end);
    m
  }

  /** The two versions differ only when one of the user's clicks sits exactly at midnight after `end`. */
  lemma {:induction false} AsWrittenAgreesOffMidnight(clicks: seq<ClickEvent>, ids: set<int>, start: int, end: int)
    requires forall k :: 0 <= k < |clicks| && clicks[k].mappingId in ids ==> clicks[k].clickDate != AtStartOfDay(end + 1)
    ensures DaysBetween(clicks, ids, AtStartOfDay(start), AtStartOfDay(end + 1)) == DaysOn(clicks, ids, start, end)
  {
    if clicks != [] {
      assert forall k :: 0 <= k < |clicks| - 1 ==> clicks[1..][k] == clicks[k + 1];
      AsWrittenAgreesOffMidnight(clicks[1..], ids, start, end);
    }
  }

  /** The service: the two repositories and the next database id of a mapping. */
  class UrlMappingService {
    var mappings: seq<UrlMapping>
    var clicks: seq<ClickEvent>
    var nextId: int

    /**
     * Ids are unique and below `nextId`, every event refers to an id below
     * `nextId`, and each mapping's click count is the number of its events.
     */
    predicate Valid()
      reads this
    {
      && (forall i, j :: 0 <= i < j < |mappings| ==> mappings[i].id != mappings[j].id)
      && (forall i :: 0 <= i < |mappings| ==> mappings[i].id < nextId)
      && (forall k :: 0 <= k < |clicks| ==> clicks[k].mappingId < nextId)
      && (forall i :: 0 <= i < |mappings| ==> mappings[i].clickCount == ClicksFor(clicks, mappings[i].id))
    }

    constructor ()
      ensures Valid() && mappings == [] && clicks == []
    {
      mappings, clicks, nextId := [], [], 1;
    }

    /** `generateShortUrl`: eight characters, each drawn from the 62-letter alphabet. */
    method GenerateShortUrl() returns (code: string)
      ensures |code| == 8 && OverAlphabet(code)
    {
      code := "";
      for i := 0 to 8
        invariant |code| == i
        invariant OverAlphabet(code)
      {
        var k :| 0 <= k < |Alphabet|;
        code := code + [Alphabet[k]];
      }
    }

    /**
     * `createShortUrl`: saves one new mapping for `originalUrl` and `user`
     * with a fresh id, a generated code, no clicks and the creation time
     * `now`, and returns its DTO. The click events do not change.
     */
    method CreateShortUrl(originalUrl: string, user: User, now: DateTime) returns (dto: UrlMappingDto)
      requires Valid()
      modifies this
      ensures Valid()
      ensures |mappings| == |old(mappings)| + 1 && mappings[..|old(mappings)|] == old(mappings)
      ensures var m := mappings[|old(mappings)|];
        && m.id == old(nextId) && m.originalUrl == originalUrl && m.owner == user
        && m.clickCount == 0 && m.createdDate == now
        && |m.shortUrl| == 8 && OverAlphabet(m.shortUrl)
        && dto == ConvertToDto(m)
      ensures clicks == old(clicks)
    {
      var code := GenerateShortUrl();
      var m := UrlMapping(nextId, originalUrl, code, 0, now, user);
      NoClicksFor(clicks, nextId);
      mappings := mappings + [m];
      nextId := nextId + 1;
      dto := ConvertToDto(m);
    }

    /**
     * `getOriginalUrl`: for a code saved once, adds one to that mapping's
     * click count, records one click event for it at `now` and returns the
     * updated mapping; for an unknown code returns null; for a code saved
     * twice the lookup throws. Only the first case changes anything.
     */
    method GetOriginalUrl(code: string, now: DateTime) returns (r: Fetched)
      requires Valid()
      modifies this
      ensures Valid() && nextId == old(nextId)
      ensures match FindByShortUrl(old(mappings), code)
              case NotFound => r == Missing && mappings == old(mappings) && clicks == old(clicks)
              case Ambiguous => r == Threw && mappings == old(mappings) && clicks == old(clicks)
              case Found(i) =>
                var m := old(mappings)[i].(clickCount := old(mappings)[i].clickCount + 1);
                && r == Got(m)
                && mappings == old(mappings)[i := m]
                && clicks == old(clicks) + [ClickEvent(now, m.id)]
    {
      match FindByShortUrl(mappings, code)
      case NotFound =>
        r := Missing;
      case Ambiguous =>
        r := Threw;
      case Found(i) =>
        var m := mappings[i].(clickCount := mappings[i].clickCount + 1);
        var e := ClickEvent(now, m.id);
        forall j | 0 <= j < |mappings| ensures ClicksFor(clicks + [e], mappings[j].id) == ClicksFor(clicks, mappings[j].id) + (if j == i then 1 else 0) {
          ClicksForRecord(clicks, e, mappings[j].id);
        }
        mappings := mappings[i := m];
        clicks := clicks + [e];
        r := Got(m);
    }
  }
}
