/**
 * The dashboard page (`DashboardPage`): its state fields, the two fetch
 * handlers that fill them, the per-date rows built from the analytics
 * answer and their total, the date-range inputs, which of its three
 * screens it shows, and the link a Copy button copies. The server's
 * answers are inputs; the order in which two overlapping fetches complete
 * is not modelled (the handlers run one after the other).
 */
module Dashboard {
  import opened Common
  import opened Api
  import Shortener

  const UrlsFailedMessage: string := "Failed to fetch URLs"
  const UrlsNetworkMessage: string := "Network error"
  const GraphFailedMessage: string := "Failed to fetch analytics data"
  const GraphNetworkMessage: string := "Network error while fetching analytics"
  const TotalClicksEndpoint: string := "/api/urls/totalClicks"
  const StartDateParam: string := "?startDate="
  const EndDateParam: string := "&endDate="

  /** One of the user's links, as the URL list answer carries it. */
  datatype Link = Link(id: int, originalUrl: string, shortUrl: string, clickCount: int, createdDate: string)

  /** One row of the chart data: a 1-based id, the date and its click count. */
  datatype Entry = Entry(id: nat, clickDate: string, count: int)

  /** The selected dates, as the date inputs hold them ("yyyy-mm-dd"). */
  datatype DateRange = DateRange(startDate: string, endDate: string)

  /** What fetching the URL list produced. */
  datatype UrlsOutcome = UrlsThrew | UrlsResponded(ok: bool, links: seq<Link>)

  /** What fetching the totals produced; `entries` are the answer object's (date, count) pairs in order. */
  datatype GraphOutcome = GraphThrew | GraphResponded(ok: bool, entries: seq<(string, int)>)

  /** A GET the page sends: its URL and headers. */
  datatype Get = Get(url: string, headers: map<string, string>)

  /** Rows for `pairs`, numbered from `first` on. */
  function NumberFrom(pairs: seq<(string, int)>, first: nat): (rows: seq<Entry>)
    ensures |rows| == |pairs|
    ensures forall i :: 0 <= i < |pairs| ==> rows[i] == Entry(first + i, pairs[i].0, pairs[i].1)
  {
    if pairs == [] then []
    else [Entry(first, pairs[0].0, pairs[0].1)] + NumberFrom(pairs[1..], first + 1)
  }

  /**
   * `formattedData`: one row per (date, count) pair, in the answer's order,
   * with ids 1..n.
   */
  function FormattedData(pairs: seq<(string, int)>): (rows: seq<Entry>)
    ensures |rows| == |pairs|
    ensures forall i :: 0 <= i < |rows| ==> rows[i].id == i + 1 && rows[i].clickDate == pairs[i].0 && rows[i].count == pairs[i].1
  {
    NumberFrom(pairs, 1)
  }

  /** The sum of the counts of `rows`. */
  function SumCounts(rows: seq<Entry>): int {
    if rows == [] then 0 else rows[0].count + SumCounts(rows[1..])
  }

  /** `formattedData.reduce((acc, entry) => acc + entry.count, acc)`: a fold from the left. */
  function Reduce(rows: seq<Entry>, acc: int): int {
    if rows == [] then acc else Reduce(rows[1..], acc + rows[0].count)
  }

  /** The fold from the left starting at `acc` adds the sum of the counts to `acc`. */
  lemma {:induction false} ReduceIsSum(rows: seq<Entry>, acc: int)
    ensures Reduce(rows, acc) == acc + SumCounts(rows)
  {
    if rows != [] {
      ReduceIsSum(rows[1..], acc + rows[0].count);
    }
  }

  /** The sum of the second components of `pairs`. */
  function SumPairs(pairs: seq<(string, int)>): int {
    if pairs == [] then 0 else pairs[0].1 + SumPairs(pairs[1..])
  }

  lemma {:induction false} NumberFromSum(pairs: seq<(string, int)>, first: nat)
    ensures SumCounts(NumberFrom(pairs, first)) == SumPairs(pairs)
  {
    if pairs != [] {
      NumberFromSum(pairs[1..], first + 1);
    }
  }

  /** The total the page shows: the answer's counts summed, 0 when there are none. */
  function TotalClicks(pairs: seq<(string, int)>): (total: int)
    ensures total == SumPairs(pairs)
    ensures pairs == [] ==> total == 0
    ensures (forall i :: 0 <= i < |pairs| ==> pairs[i].1 >= 0) ==> total >= 0
  {
    var rows := FormattedData(pairs);
    ReduceIsSum(rows, 0);
    NumberFromSum(pairs, 1);
    NonNegativeSum(pairs);
    Reduce(rows, 0)
  }

  lemma {:induction false} NonNegativeSum(pairs: seq<(string, int)>)
    ensures (forall i :: 0 <= i < |pairs| ==> pairs[i].1 >= 0) ==> SumPairs(pairs) >= 0
  {
    if pairs != [] {
      NonNegativeSum(pairs[1..]);
      assert forall i :: 0 <= i < |pairs| - 1 ==> pairs[1..][i] == pairs[i + 1];
    }
  }

  /**
   * The URL of the totals request: the totals endpoint, then the start date
   * as the `startDate` query parameter, then the end date as `endDate`, the
   * dates written as the inputs hold them.
   */
  function TotalsUrl(baseUrl: string, range: DateRange): (url: string)
    ensures var endpoint := BuildApiUrl(baseUrl, TotalClicksEndpoint);
      var a := |endpoint| + |StartDateParam|;
      var b := a + |range.startDate|;
      var c := b + |EndDateParam|;
      && |url| == c + |range.endDate|
      && url[..|endpoint|] == endpoint && url[..|baseUrl|] == baseUrl
      && url[|endpoint|..a] == StartDateParam
      && url[a..b] == range.startDate
      && url[b..c] == EndDateParam
      && url[c..] == range.endDate
  {
    BuildApiUrl(baseUrl, TotalClicksEndpoint) + StartDateParam + range.startDate + EndDateParam + range.endDate
  }

  /** The three screens of the page. */
  datatype View = AccessDenied | Spinner | Board

  /**
   * Render precedence: no token shows "Access Denied" even while loading;
   * with a token, loading shows the spinner; otherwise the dashboard.
   */
  function ViewOf(token: Option<string>, loading: bool): (v: View)
    ensures v == AccessDenied <==> !Truthy(token)
    ensures v == Spinner <==> Truthy(token) && loading
    ensures v == Board <==> Truthy(token) && !loading
  {
    if !Truthy(token) then AccessDenied
    else if loading then Spinner
    else Board
  }

  /** What a link's Copy button copies: the base URL, a '/', and the short code. */
  function CopyTarget(baseUrl: string, shortUrl: string): (target: string)
    ensures |target| == |baseUrl| + 1 + |shortUrl|
    ensures target[..|baseUrl|] == baseUrl && target[|baseUrl|] == '/' && target[|baseUrl| + 1..] == shortUrl
  {
    baseUrl + "/" + shortUrl
  }

  /**
   * The link the dashboard copies for a code is the link the shorten form
   * shows when the server answers with that code.
   */
  lemma CopyTargetIsShownLink(f: Shortener.Form, token: Option<string>, baseUrl: string, endpoint: string,
                              validUrl: string -> bool, code: string, message: Option<string>)
    requires Shortener.Sends(f, token, validUrl) && code != ""
    ensures Shortener.Submit(f, token, baseUrl, endpoint, validUrl, Shortener.Responded(true, Some(code), message)).form.shortUrl
            == CopyTarget(baseUrl, code)
  {
  }

  /** The mounted dashboard page. */
  class DashboardPage {
    var urls: seq<Link>
    var graphData: seq<Entry>
    var totalClicks: int
    var loading: bool
    var error: string
    var dateRange: DateRange
    var sent: seq<Get>

    /** A fresh page: no links, no data, loading, no error, and the given default range. */
    constructor (range: DateRange)
      ensures urls == [] && graphData == [] && totalClicks == 0
      ensures loading && error == "" && dateRange == range && sent == []
    {
      urls, graphData, totalClicks := [], [], 0;
      loading, error := true, "";
      dateRange := range;
      sent := [];
    }

    /**
     * `fetchUserUrls`: an ok answer replaces the link list; a failed answer
     * or a throw sets its error; either way `loading` ends false. Nothing
     * else changes.
     */
    method FetchUserUrls(token: Option<string>, baseUrl: string, endpoint: string, outcome: UrlsOutcome)
      modifies this
      ensures sent == old(sent) + [Get(BuildApiUrl(baseUrl, endpoint), AuthHeaders(token))]
      ensures urls == if outcome.UrlsResponded? && outcome.ok then outcome.links else old(urls)
      ensures error == match outcome
                       case UrlsThrew => UrlsNetworkMessage
                       case UrlsResponded(ok, _) => if ok then old(error) else UrlsFailedMessage
      ensures !loading
      ensures graphData == old(graphData) && totalClicks == old(totalClicks) && dateRange == old(dateRange)
    {
      sent := sent + [Get(BuildApiUrl(baseUrl, endpoint), AuthHeaders(token))];
      match outcome {
        case UrlsThrew =>
          error := UrlsNetworkMessage;
        case UrlsResponded(ok, links) =>
          if ok {
            urls := links;
          } else {
            error := UrlsFailedMessage;
          }
      }
      loading := false;
    }

    /**
     * `fetchGraphData`: an ok answer replaces the chart rows with
     * `FormattedData` of its pairs and the total with their sum; a failed
     * answer or a throw sets its error. `loading` is never touched.
     */
    method FetchGraphData(token: Option<string>, baseUrl: string, outcome: GraphOutcome)
      modifies this
      ensures sent == old(sent) + [Get(TotalsUrl(baseUrl, old(dateRange)), AuthHeaders(token))]
      ensures graphData == if outcome.GraphResponded? && outcome.ok then FormattedData(outcome.entries) else old(graphData)
      ensures totalClicks == if outcome.GraphResponded? && outcome.ok then SumPairs(outcome.entries) else old(totalClicks)
      ensures error == match outcome
                       case GraphThrew => GraphNetworkMessage
                       case GraphResponded(ok, _) => if ok then old(error) else GraphFailedMessage
      ensures loading == old(loading) && urls == old(urls) && dateRange == old(dateRange)
    {
      sent := sent + [Get(TotalsUrl(baseUrl, dateRange), AuthHeaders(token))];
      match outcome {
        case GraphThrew =>
          error := GraphNetworkMessage;
        case GraphResponded(ok, entries) =>
          if ok {
            var formatted := FormattedData(entries);
            graphData := formatted;
            totalClicks := TotalClicks(entries);
          } else {
            error := GraphFailedMessage;
          }
      }
    }

    /**
     * The effect that runs when the token or the range changes: both
     * fetches when the token is truthy, nothing at all otherwise. The graph
     * fetch runs second, so its error message, if any, is the one left.
     */
    method OnTokenOrRange(token: Option<string>, baseUrl: string, urlsEndpoint: string,
                          urlsOutcome: UrlsOutcome, graphOutcome: GraphOutcome)
      modifies this
      ensures !Truthy(token) ==>
                && sent == old(sent) && loading == old(loading) && error == old(error)
                && urls == old(urls) && graphData == old(graphData) && totalClicks == old(totalClicks)
      ensures Truthy(token) ==>
                && sent == old(sent) + [Get(BuildApiUrl(baseUrl, urlsEndpoint), AuthHeaders(token)),
                                        Get(TotalsUrl(baseUrl, old(dateRange)), AuthHeaders(token))]
                && urls == (if urlsOutcome.UrlsResponded? && urlsOutcome.ok then urlsOutcome.links else old(urls))
                && graphData == (if graphOutcome.GraphResponded? && graphOutcome.ok then FormattedData(graphOutcome.entries)
                                 else old(graphData))
                && totalClicks == (if graphOutcome.GraphResponded? && graphOutcome.ok then SumPairs(graphOutcome.entries)
                                   else old(totalClicks))
                && !loading
                && error == (match graphOutcome
                             case GraphThrew => GraphNetworkMessage
                             case GraphResponded(ok, _) =>
                               if !ok then GraphFailedMessage
                               else match urlsOutcome
                                    case UrlsThrew => UrlsNetworkMessage
                                    case UrlsResponded(ok, _) => if ok then old(error) else UrlsFailedMessage)
      ensures dateRange == old(dateRange)
    {
      if Truthy(token) {
        FetchUserUrls(token, baseUrl, urlsEndpoint, urlsOutcome);
        FetchGraphData(token, baseUrl, graphOutcome);
      }
    }

    /** The start-date input: only `startDate` changes. */
    method SetStartDate(value: string)
      modifies this`dateRange
      ensures dateRange == old(dateRange).(startDate := value)
    {
      dateRange := dateRange.(startDate := value);
    }

    /** The end-date input: only `endDate` changes. */
    method SetEndDate(value: string)
      modifies this`dateRange
      ensures dateRange == old(dateRange).(endDate := value)
    {
      dateRange := dateRange.(endDate := value);
    }
  }
}
