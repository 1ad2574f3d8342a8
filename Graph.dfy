/**
 * The click chart (`Graph`): which of its three views it shows for the
 * dashboard's rows, the labels and counts it plots, and the callback that
 * thins out the x-axis labels. The thinning shows every label of a short
 * series, every other label of a medium one, and every ceil(n/10)-th label
 * of a long one, so that at most ten dates are ever labelled.
 */
module Graph {
  import opened Common
  import opened Dashboard

  /** The three things the chart can render. */
  datatype GraphView =
    | NoData                                         // "No Analytics Data Available"
    | NoClicks                                       // "No Click Activity in Selected Date Range"
    | Chart(labels: seq<string>, counts: seq<int>)   // the bar chart

  /** Every row of `rows` has a count of 0. */
  predicate AllZero(rows: seq<Entry>) {
    forall i :: 0 <= i < |rows| ==> rows[i].count == 0
  }

  /**
   * `Graph` for the prop `graphData` (None for null): no rows gives the
   * no-data view; rows that all count 0 give the no-clicks view; otherwise
   * the chart of the rows' dates and counts, index by index and in order.
   */
  function ViewOf(graphData: Option<seq<Entry>>): (v: GraphView)
    ensures v == NoData <==> graphData.None? || graphData.value == []
    ensures v == NoClicks <==> graphData.Some? && graphData.value != [] && AllZero(graphData.value)
    ensures v.Chart? ==> graphData.Some? && |v.labels| == |v.counts| == |graphData.value| > 0
    ensures v.Chart? ==> forall i :: 0 <= i < |v.labels| ==>
                            v.labels[i] == graphData.value[i].clickDate && v.counts[i] == graphData.value[i].count
    ensures v.Chart? ==> exists i :: 0 <= i < |v.counts| && v.counts[i] != 0
  {
    var rows := if graphData.Some? then graphData.value else [];
    if |rows| == 0 then NoData
    else if AllZero(rows) then NoClicks
    else
      Chart(seq(|rows|, i requires 0 <= i < |rows| => rows[i].clickDate),
            seq(|rows|, i requires 0 <= i < |rows| => rows[i].count))
  }

  /** The x-axis tick callback: the label at `index` of a series of `|labels|` dates, or "" to hide it. */
  function Tick(labels: seq<string>, index: nat): (t: string)
    requires index < |labels|
    ensures t == labels[index] || t == ""
    ensures t == (if index % Stride(|labels|) == 0 then labels[index] else "")
  {
    var n := |labels|;
    if n <= 7 then labels[index]
    else if n <= 14 then (if index % 2 == 0 then labels[index] else "")
    else (if index % ((n + 9) / 10) == 0 then labels[index] else "")
  }

  /**
   * The spacing of the labels the callback keeps for a series of n dates:
   * 1 up to 7 dates, 2 up to 14, and ceil(n/10) beyond.
   */
  function Stride(n: nat): (s: nat)
    ensures s >= 1
    ensures n <= 7 ==> s == 1
    ensures 7 < n <= 14 ==> s == 2
    ensures n > 14 ==> (s - 1) * 10 < n <= s * 10
  {
    if n <= 7 then 1 else if n <= 14 then 2 else (n + 9) / 10
  }

  /** The callback keeps the label at `index` exactly when `index` is a multiple of the stride. */
  lemma TickByStride(labels: seq<string>, index: nat)
    requires index < |labels|
    ensures Tick(labels, index) == (if index % Stride(|labels|) == 0 then labels[index] else "")
  {
  }

  /** The first date is labelled whatever the length of the series. */
  lemma FirstTickShown(labels: seq<string>)
    requires |labels| >= 1
    ensures Tick(labels, 0) == labels[0]
  {
  }

  /** The number of indices below k that are multiples of s. */
  function Multiples(k: nat, s: nat): nat
    requires s >= 1
  {
    if k == 0 then 0 else Multiples(k - 1, s) + (if (k - 1) % s == 0 then 1 else 0)
  }

  /** Division is determined by its remainder: a = q*s + r with 0 <= r < s gives a / s == q. */
  lemma DivUnique(a: int, s: int, q: int, r: int)
    requires s > 0 && 0 <= r < s && a == q * s + r
    ensures a / s == q
  {
    var d := a / s - q;
    assert d * s == r - a % s;
  }

  lemma CeilStep(k: nat, s: nat)
    requires s >= 1
    ensures (k + s) / s == (k + s - 1) / s + (if k % s == 0 then 1 else 0)
  {
    var q, r := k / s, k % s;
    assert k == q * s + r;
    DivUnique(k + s, s, q + 1, r);
    if r == 0 {
      DivUnique(k + s - 1, s, q, s - 1);
    } else {
      DivUnique(k + s - 1, s, q + 1, r - 1);
    }
  }

  /** Among 0..k-1 there are ceil(k/s) multiples of s. */
  lemma {:induction false} MultiplesCount(k: nat, s: nat)
    requires s >= 1
    ensures Multiples(k, s) == (k + s - 1) / s
  {
    if k == 0 {
      DivUnique(s - 1, s, 0, s - 1);
    } else {
      MultiplesCount(k - 1, s);
      CeilStep(k - 1, s);
    }
  }

  /** The number of labels the callback keeps for a series of n dates. */
  function ShownTicks(labels: seq<string>, k: nat): nat
    requires k <= |labels|
  {
    if k == 0 then 0 else ShownTicks(labels, k - 1) + (if Tick(labels, k - 1) != "" then 1 else 0)
  }

  /** The kept labels are at most the multiples of the stride (a date may itself be ""). */
  lemma {:induction false} ShownTicksBound(labels: seq<string>, k: nat)
    requires k <= |labels|
    ensures ShownTicks(labels, k) <= Multiples(k, Stride(|labels|))
  {
    if k > 0 {
      ShownTicksBound(labels, k - 1);
      TickByStride(labels, k - 1);
    }
  }

  /** However long the series, the callback labels at most ten dates. */
  lemma AtMostTenTicks(labels: seq<string>)
    ensures ShownTicks(labels, |labels|) <= 10
  {
    var n, s := |labels|, Stride(|labels|);
    ShownTicksBound(labels, n);
    MultiplesCount(n, s);
    if n > 14 {
      assert n + s - 1 < 11 * s;
      DivUnique(11 * s, s, 11, 0);
      DivMonotone(n + s - 1, 11 * s - 1, s);
      DivUnique(11 * s - 1, s, 10, s - 1);
    } else if n > 7 {
      DivUnique(15, 2, 7, 1);
      DivMonotone(n + 1, 15, 2);
    } else {
      DivUnique(n, 1, n, 0);
    }
  }

  lemma DivMonotone(a: nat, b: nat, s: nat)
    requires s >= 1 && a <= b
    ensures a / s <= b / s
  {
    var qa, qb := a / s, b / s;
    assert qa * s <= a && b < (qb + 1) * s;
    if qa > qb {
      MulMonotone(qa, qb + 1, s);
      assert false;
    }
  }

  lemma MulMonotone(x: int, y: int, s: nat)
    requires x >= y
    ensures x * s >= y * s
  {
    assert x * s - y * s == (x - y) * s;
  }
}
