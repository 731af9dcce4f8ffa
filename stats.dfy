/** The statistics collector's in-memory computations: nearest-rank latency percentiles
    over the logged inference times, and the label distribution with its default labels. */
module Stats {
  import opened Util

  // ----- performance metrics ----------------------------------------------------------

  predicate Sorted(s: seq<real>) {
    forall i, j :: 0 <= i < j < |s| ==> s[i] <= s[j]
  }

  /** `x` inserted into the sorted `s` before its first larger element. */
  function Insert(x: real, s: seq<real>): (r: seq<real>)
    requires Sorted(s)
    ensures |r| == |s| + 1 && (r[0] == x || (s != [] && r[0] == s[0]))
    ensures Sorted(r) && multiset(r) == multiset(s) + multiset{x}
    decreases |s|
  {
    if s == [] || x <= s[0] then [x] + s
    else
      assert s == [s[0]] + s[1..];
      [s[0]] + Insert(x, s[1..])
  }

  /** `list.sort()` on the values, as insertion sort. */
  function SortedOf(vals: seq<real>): (r: seq<real>)
    ensures |r| == |vals| && Sorted(r) && multiset(r) == multiset(vals)
    decreases |vals|
  {
    if vals == [] then []
    else
      assert vals == vals[..|vals| - 1] + [vals[|vals| - 1]];
      Insert(vals[|vals| - 1], SortedOf(vals[..|vals| - 1]))
  }

  function Sum(s: seq<real>): real {
    if s == [] then 0.0 else s[0] + Sum(s[1..])
  }

  /** `math.ceil` */
  function Ceil(x: real): (c: int)
    ensures (c - 1) as real < x <= c as real
  {
    -((-x).Floor)
  }

  /** The nearest-rank index `max(0, min(n - 1, ceil(p / 100 * n) - 1))`. */
  function PercentileIndex(p: real, n: nat): (k: nat)
    requires n >= 1
    ensures k < n
    ensures k == if Ceil(p / 100.0 * n as real) - 1 < 0 then 0
                 else if Ceil(p / 100.0 * n as real) - 1 > n - 1 then n - 1
                 else Ceil(p / 100.0 * n as real) - 1
  {
    var c := Ceil(p / 100.0 * n as real) - 1;
    if c < 0 then 0 else if c > n - 1 then n - 1 else c
  }

  /** A larger percentile never selects an earlier index. */
  lemma PercentileIndexMonotone(p: real, q: real, n: nat)
    requires n >= 1 && p <= q
    ensures PercentileIndex(p, n) <= PercentileIndex(q, n)
  {
    var x, y := p / 100.0 * n as real, q / 100.0 * n as real;
    MulMonotone(p / 100.0, q / 100.0, n as real);
    CeilMonotone(x, y);
    assert Ceil(x) <= Ceil(y);
  }

  lemma MulMonotone(a: real, b: real, c: real)
    requires a <= b && c >= 0.0
    ensures a * c <= b * c
  {
    assert b * c - a * c == (b - a) * c;
  }

  lemma CeilMonotone(x: real, y: real)
    requires x <= y
    ensures Ceil(x) <= Ceil(y)
  {
  }

  /** `pct(p)` over the sorted values: the only value when there is one, else the value
      at the nearest-rank index. */
  function Pct(sorted: seq<real>, p: real): (v: real)
    requires |sorted| >= 1
    ensures v in sorted
    ensures |sorted| == 1 ==> v == sorted[0]
    ensures |sorted| >= 2 ==> v == sorted[PercentileIndex(p, |sorted|)]
  {
    if |sorted| == 1 then sorted[0] else sorted[PercentileIndex(p, |sorted|)]
  }

  datatype Metrics = Metrics(avgInferenceMs: real, p95InferenceMs: real, p99InferenceMs: real)

  /** `performance_metrics` over the fetched inference times. */
  function PerformanceMetrics(vals: seq<real>): (m: Metrics)
    ensures vals == [] ==> m == Metrics(0.0, 0.0, 0.0)
    ensures |vals| == 1 ==> m == Metrics(vals[0], vals[0], vals[0])
    ensures vals != [] ==>
      && m.avgInferenceMs == Sum(SortedOf(vals)) / |vals| as real
      && m.p95InferenceMs in multiset(vals) && m.p99InferenceMs in multiset(vals)
      && m.p95InferenceMs <= m.p99InferenceMs
    ensures |vals| >= 2 ==>
      && m.p95InferenceMs == SortedOf(vals)[PercentileIndex(95.0, |vals|)]
      && m.p99InferenceMs == SortedOf(vals)[PercentileIndex(99.0, |vals|)]
  {
    if vals == [] then Metrics(0.0, 0.0, 0.0)
    else
      var sorted := SortedOf(vals);
      PercentilesOrdered(sorted);
      if |vals| == 1 then
        assert sorted == [vals[0]] by { assert vals[..0] == []; }
        assert Sum(sorted) == vals[0] by { assert sorted[1..] == []; }
        Metrics(Sum(sorted) / 1.0, Pct(sorted, 95.0), Pct(sorted, 99.0))
      else
        var p95, p99 := Pct(sorted, 95.0), Pct(sorted, 99.0);
        assert p95 in multiset(sorted) && p99 in multiset(sorted);
        Metrics(Sum(sorted) / |vals| as real, p95, p99)
  }

  /** Over sorted values the 95th percentile is at most the 99th. */
  lemma PercentilesOrdered(sorted: seq<real>)
    requires |sorted| >= 1 && Sorted(sorted)
    ensures Pct(sorted, 95.0) <= Pct(sorted, 99.0)
  {
    if |sorted| > 1 {
      PercentileIndexMonotone(95.0, 99.0, |sorted|);
    }
  }

  // ----- label distribution -----------------------------------------------------------

  const DefaultLabels := map["BENIGN" := 0, "INJECTION" := 0, "JAILBREAK" := 0]

  /** `str(label).upper()`: a null label reads as "None". */
  function LabelKey(name: Option<string>): string {
    Upper(if name.Some? then name.value else "None")
  }

  /** The distribution after the given rows: the defaults, each row overwriting the count
      of its upper-cased label in turn. */
  function LabelCounts(rows: seq<(Option<string>, int)>): map<string, int>
    decreases |rows|
  {
    if rows == [] then DefaultLabels
    else LabelCounts(rows[..|rows| - 1])[LabelKey(rows[|rows| - 1].0) := rows[|rows| - 1].1]
  }

  /** `label_distribution`'s loop over the grouped rows. */
  method LabelDistribution(rows: seq<(Option<string>, int)>) returns (out: map<string, int>)
    ensures out == LabelCounts(rows)
  {
    out := DefaultLabels;
    var i := 0;
    while i < |rows|
      invariant 0 <= i <= |rows|
      invariant out == LabelCounts(rows[..i])
    {
      assert rows[..i + 1][..i] == rows[..i];
      out := out[LabelKey(rows[i].0) := rows[i].1];
      i := i + 1;
    }
    assert rows[..|rows|] == rows;
  }

  /** The index of the last row whose label key is `k`, if any. */
  function LastRowWith(rows: seq<(Option<string>, int)>, k: string): (r: Option<nat>)
    ensures r.Some? ==> r.value < |rows| && LabelKey(rows[r.value].0) == k
    ensures r.Some? ==> forall j :: r.value < j < |rows| ==> LabelKey(rows[j].0) != k
    ensures r.None? ==> forall j :: 0 <= j < |rows| ==> LabelKey(rows[j].0) != k
    decreases |rows|
  {
    if rows == [] then None
    else if LabelKey(rows[|rows| - 1].0) == k then Some(|rows| - 1)
    else
      var init := rows[..|rows| - 1];
      assert forall j :: 0 <= j < |init| ==> init[j] == rows[j];
      LastRowWith(init, k)
  }

  /** The default labels are always present and any other key exactly when some row has
      it; a key counts its last row's count, and a default label no row has stays 0. */
  lemma {:induction false} LabelCountsContract(rows: seq<(Option<string>, int)>, k: string)
    ensures k in LabelCounts(rows) <==> k in DefaultLabels || LastRowWith(rows, k).Some?
    ensures LastRowWith(rows, k).Some? ==> LabelCounts(rows)[k] == rows[LastRowWith(rows, k).value].1
    ensures k in DefaultLabels && LastRowWith(rows, k).None? ==> LabelCounts(rows)[k] == 0
    decreases |rows|
  {
    if rows != [] {
      var init := rows[..|rows| - 1];
      LabelCountsContract(init, k);
      if LabelKey(rows[|rows| - 1].0) != k {
        assert LastRowWith(rows, k) == LastRowWith(init, k);
        if LastRowWith(init, k).Some? {
          assert rows[LastRowWith(init, k).value] == init[LastRowWith(init, k).value];
        }
      }
    }
  }
}
