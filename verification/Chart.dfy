/** The KPI chart: its vertical scale and the polylines of its series. */
module Chart {
  import opened Basics

  // ---------- scale ----------

  function Power(k: nat): (r: real)
    ensures r >= 1.0
  {
    if k == 0 then 1.0 else 10.0 * Power(k - 1)
  }

  /** The largest power of ten that is not above v. */
  function Exponent(v: real): (k: nat)
    requires v >= 1.0
    ensures Power(k) <= v < 10.0 * Power(k)
    decreases v.Floor
  {
    if v < 10.0 then 0 else
    var k := Exponent(v / 10.0);
    k + 1
  }

  /** No other power of ten fits. */
  lemma {:induction false} ExponentIsUnique(v: real, j: nat, k: nat)
    requires Power(j) <= v < 10.0 * Power(j) && Power(k) <= v < 10.0 * Power(k)
    ensures j == k
  {
    if j < k { PowerGrows(j, k); }
    if k < j { PowerGrows(k, j); }
  }

  lemma {:induction false} PowerGrows(j: nat, k: nat)
    requires j < k
    ensures 10.0 * Power(j) <= Power(k)
  {
    if j + 1 == k {
    } else {
      PowerGrows(j, k - 1);
    }
  }

  function Ceil(x: real): (n: int)
    ensures n as real - 1.0 < x <= n as real
  {
    -((-x).Floor)
  }

  /** v rounded up to a multiple of its magnitude; values below one have magnitude one. */
  function NiceChartMax(v: real): real {
    var m := Power(Exponent(if v > 1.0 then v else 1.0));
    Ceil(v / m) as real * m
  }

  function Multiple(n: int, m: real): real {
    n as real * m
  }

  lemma MultiplesGrow(a: int, b: int, m: real)
    requires m >= 1.0
    ensures a <= b ==> Multiple(a, m) <= Multiple(b, m)
  {
  }

  lemma RoundUp(v: real, m: real)
    requires m >= 1.0
    ensures Multiple(Ceil(v / m) - 1, m) < v <= Multiple(Ceil(v / m), m) < v + m
  {
    assert v / m * m == v;
    RoundQuotient(v, v / m, Ceil(v / m), m);
  }

  lemma RoundQuotient(v: real, q: real, n: int, m: real)
    requires m >= 1.0 && q * m == v && n as real - 1.0 < q <= n as real
    ensures Multiple(n - 1, m) < v <= Multiple(n, m) < v + m
  {
    ScaleUp(q, n as real, m);
    ScaleUp((n - 1) as real, q, m);
    assert (n - 1) as real * m == n as real * m - m;
  }

  lemma ScaleUp(a: real, b: real, m: real)
    requires m >= 1.0
    ensures a <= b ==> a * m <= b * m
    ensures a < b ==> a * m < b * m
  {
  }

  /** The rounded maximum is not below v, and below twice v. */
  lemma NiceChartMaxFits(v: real)
    requires v >= 1.0
    ensures v <= NiceChartMax(v) < 2.0 * v
  {
    hide Power, Exponent, Ceil;
    RoundUp(v, Power(Exponent(v)));
  }

  /** It is the least multiple of its magnitude that is not below v. */
  lemma NiceChartMaxIsLeast(v: real, k: int) returns (n: int)
    requires v >= 1.0 && Multiple(k, Power(Exponent(v))) >= v
    ensures NiceChartMax(v) == Multiple(n, Power(Exponent(v))) && Power(Exponent(v)) <= v < 10.0 * Power(Exponent(v))
    ensures NiceChartMax(v) <= Multiple(k, Power(Exponent(v)))
  {
    hide Power, Exponent, Ceil;
    var m := Power(Exponent(v));
    n := Ceil(v / m);
    RoundUp(v, m);
    LeastMultiple(v, m, n, k);
  }

  /** Magnitudes are powers of ten. */
  lemma PowersOfTen(k: nat)
    ensures Power(0) == 1.0 && Power(k + 1) == 10.0 * Power(k)
  {
  }

  lemma LeastMultiple(v: real, m: real, n: int, k: int)
    requires m >= 1.0 && Multiple(n - 1, m) < v && Multiple(k, m) >= v
    ensures Multiple(n, m) <= Multiple(k, m)
  {
    MultiplesGrow(k, n - 1, m);
    MultiplesGrow(n, k, m);
  }

  /** A top below one counts as one. */
  predicate FitsUnder(top: real, highest: real) {
    highest <= if top > 1.0 then top else 1.0
  }

  /** The top of a card after its bounds were checked against the highest value. */
  function TopAfter(top: real, highest: real): real {
    if FitsUnder(top, highest) then top else NiceChartMax(highest)
  }

  /** The top covers the highest value except for a card configured below one: a value between its top and
      one does not raise it. */
  lemma TopCovers(top: real, highest: real)
    ensures highest <= TopAfter(top, highest) <==> !(top < highest <= 1.0)
    ensures top >= 1.0 ==> highest <= TopAfter(top, highest)
    ensures TopAfter(top, highest) != top ==> highest <= TopAfter(top, highest) < 2.0 * highest
    ensures FitsUnder(TopAfter(top, highest), highest)
    ensures TopAfter(top, highest) == if highest > top && highest > 1.0 then NiceChartMax(highest) else top
  {
    if highest > 1.0 {
      NiceChartMaxFits(highest);
    }
  }

  lemma LowTopFallsShort()
    ensures TopAfter(0.5, 0.8) == 0.5 < 0.8
  {
  }

  type Values = seq<Option<real>>

  ghost predicate Bounded(series: seq<Values>, top: real) {
    forall i, j :: 0 <= i < |series| && 0 <= j < |series[i]| && series[i][j].Some? ==> series[i][j].value <= top
  }

  /** The highest observed value, or nothing below zero. */
  ghost predicate IsHighest(series: seq<Values>, h: real) {
    && h >= 0.0 && Bounded(series, h)
    && (h == 0.0 || exists i, j :: 0 <= i < |series| && 0 <= j < |series[i]| && series[i][j] == Some(h))
  }

  class Card {
    const series: seq<Values>
    var max: real
    var ticks: seq<real>

    constructor (series: seq<Values>, max: real, ticks: seq<real>)
      ensures this.series == series && this.max == max && this.ticks == ticks
    {
      this.series, this.max, this.ticks := series, max, ticks;
    }

    method Highest() returns (h: real)
      ensures IsHighest(series, h)
    {
      h := 0.0;
      for i := 0 to |series|
        invariant IsHighest(series[..i], h)
      {
        ghost var before := h;
        for j := 0 to |series[i]|
          invariant h >= before
          invariant forall k :: 0 <= k < j && series[i][k].Some? ==> series[i][k].value <= h
          invariant h == before || exists k :: 0 <= k < j && series[i][k] == Some(h)
        {
          var value := series[i][j];
          if value.Some? && value.value > h {
            h := value.value;
          }
        }
        assert series[..i + 1] == series[..i] + [series[i]];
        HighestMore(series[..i], series[i], before, h);
      }
      assert series[..|series|] == series;
    }

    /** Raises the top if the highest value is above it, and leaves the card alone otherwise. */
    method NormalizeReportChartBounds() returns (highest: real)
      modifies this
      ensures IsHighest(series, highest) && max == TopAfter(old(max), highest)
      ensures ticks == if FitsUnder(old(max), highest) then old(ticks) else [0.0, max / 2.0, max]
      // no value is left above the top, unless the card was configured below one and a value lies in between
      ensures !(old(max) < highest <= 1.0) ==> Bounded(series, max)
      ensures old(max) >= 1.0 ==> Bounded(series, max)
    {
      highest := Highest();
      TopCovers(max, highest);
      if FitsUnder(max, highest) {
        return;
      }
      max := NiceChartMax(highest);
      ticks := [0.0, max / 2.0, max];
    }
  }

  lemma HighestMore(series: seq<Values>, last: Values, before: real, h: real)
    requires IsHighest(series, before) && h >= before
    requires forall k :: 0 <= k < |last| && last[k].Some? ==> last[k].value <= h
    requires h == before || exists k :: 0 <= k < |last| && last[k] == Some(h)
    ensures IsHighest(series + [last], h)
  {
    var all := series + [last];
    if h == before {
      if h != 0.0 {
        var i, j :| 0 <= i < |series| && 0 <= j < |series[i]| && series[i][j] == Some(h);
        assert all[i][j] == Some(h);
      }
    } else {
      var k :| 0 <= k < |last| && last[k] == Some(h);
      assert all[|series|][k] == Some(h);
    }
  }

  // ---------- heights ----------

  const TOP_EDGE := 24.0
  const HEIGHT := 166.0

  /** The vertical position of a value, which grows downwards; what is outside the scale is put on its edge. */
  function YFor(value: real, top: real): real
    requires top > 0.0
  {
    var low := if value > 0.0 then value else 0.0;
    var clamped := if low < top then low else top;
    TOP_EDGE + HEIGHT - clamped / top * HEIGHT
  }

  /** Points stay in the frame, which is 166 high; values on the scale are drawn in proportion, so that they keep
      their order and are told apart. */
  lemma HeightsAreFaithful(a: real, b: real, top: real)
    requires top > 0.0
    ensures 24.0 <= YFor(a, top) <= 190.0
    ensures 0.0 <= a <= top ==> (190.0 - YFor(a, top)) * top == a * 166.0
    ensures a < 0.0 ==> YFor(a, top) == 190.0
    ensures 0.0 <= a <= top && 0.0 <= b <= top ==> (a < b <==> YFor(a, top) > YFor(b, top))
    ensures a > top ==> YFor(a, top) == YFor(top, top)
  {
    var low := if a > 0.0 then a else 0.0;
    var clamped := if low < top then low else top;
    Shares(clamped, 0.0, top);
    InProportion(a, a / top, top);
    Shares(top, clamped, top);
    Shares(a, b, top);
    Shares(b, a, top);
  }

  lemma InProportion(a: real, share: real, top: real)
    requires share * top == a
    ensures (share * 166.0) * top == a * 166.0
  {
  }

  lemma Shares(a: real, b: real, top: real)
    requires top > 0.0
    ensures a / top * top == a
    ensures a > b <==> a / top > b / top
  {
    assert a / top * top == a && b / top * top == b;
    assert (a / top - b / top) * top == a - b;
  }

  // ---------- polylines ----------

  /** A value drawn at the position of its day. */
  datatype Dot = Dot(day: nat, value: real)

  datatype Run = Run(first: nat, end: nat)

  /** A stretch of observed days that cannot be extended. */
  ghost predicate IsRun(values: Values, r: Run) {
    && r.first < r.end <= |values|
    && (forall i :: r.first <= i < r.end ==> values[i].Some?)
    && (r.first == 0 || values[r.first - 1].None?)
    && (r.end == |values| || values[r.end].None?)
  }

  /** The line through one stretch: its days one by one. */
  ghost predicate Traces(values: Values, r: Run, line: seq<Dot>) {
    && r.first <= r.end <= |values| && |line| == r.end - r.first
    && forall k :: 0 <= k < |line| ==> line[k].day == r.first + k && values[r.first + k] == Some(line[k].value)
  }

  /** The lines are exactly the maximal stretches of at least two days, from left to right. */
  ghost predicate AreLines(values: Values, runs: seq<Run>, lines: seq<seq<Dot>>) {
    && |runs| == |lines|
    && (forall i :: 0 <= i < |runs| ==>
        IsRun(values, runs[i]) && runs[i].end - runs[i].first > 1 && Traces(values, runs[i], lines[i]))
    && (forall i, j :: 0 <= i < j < |runs| ==> runs[i].end < runs[j].first)
    && (forall r :: IsRun(values, r) && r.end - r.first > 1 ==> r in runs)
  }

  /** One dot for every observed day, from left to right. */
  ghost predicate AreDots(values: Values, dots: seq<Dot>) {
    && (forall k :: 0 <= k < |dots| ==> dots[k].day < |values| && values[dots[k].day] == Some(dots[k].value))
    && (forall j, k :: 0 <= j < k < |dots| ==> dots[j].day < dots[k].day)
    && (forall i :: 0 <= i < |values| && values[i].Some? ==> Dot(i, values[i].value) in dots)
  }

  /** The line draws a stretch of at least two days that ended at day i or before. */
  ghost predicate DrawsRun(values: Values, i: nat, r: Run, line: seq<Dot>) {
    IsRun(values, r) && 1 < r.end - r.first && r.end <= i && Traces(values, r, line)
  }

  /** The lines drawn so far are the stretches that ended at day i or before. */
  ghost predicate Drawn(values: Values, i: nat, runs: seq<Run>, lines: seq<seq<Dot>>) {
    && |runs| == |lines|
    && (forall k :: 0 <= k < |runs| ==> DrawsRun(values, i, runs[k], lines[k]))
    && (forall j, k :: 0 <= j < k < |runs| ==> runs[j].end < runs[k].first)
    && (forall r :: IsRun(values, r) && r.end - r.first > 1 && r.end <= i ==> r in runs)
  }

  /** The open stretch that began at `start` reaches up to day i. */
  ghost predicate Open(values: Values, start: nat, i: nat, segment: seq<Dot>) {
    && start <= i <= |values| && Traces(values, Run(start, i), segment) && (start == 0 || values[start - 1].None?)
    && forall d :: start <= d < i ==> values[d].Some?
  }

  lemma OnlyRun(values: Values, start: nat, i: nat, r: Run)
    requires IsRun(values, r) && (start > 0 ==> start - 1 < r.end) && r.end <= i
    requires start <= i <= |values| && (start == 0 || values[start - 1].None?) && (i == |values| || values[i].None?)
    requires forall k :: start <= k < i ==> values[k].Some?
    ensures r == Run(start, i)
  {
  }

  /** A stretch that ended before day i was drawn already or is the open one. */
  lemma EndedRun(values: Values, start: nat, i: nat, segment: seq<Dot>, runs: seq<Run>, r: Run)
    requires Open(values, start, i, segment) && r.end - r.first > 1
    requires (start > 0 && r.end <= start - 1 && r in runs) || r == Run(start, i)
    ensures r in if |segment| > 1 then runs + [Run(start, i)] else runs
  {
    assert (runs + [Run(start, i)])[|runs|] == Run(start, i);
  }

  lemma AllEnded(values: Values, start: nat, i: nat, segment: seq<Dot>, lines: seq<seq<Dot>>, runs: seq<Run>)
    requires Open(values, start, i, segment) && (i == |values| || values[i].None?)
    requires if start == 0 then runs == [] && lines == [] else Drawn(values, start - 1, runs, lines)
    ensures forall r :: IsRun(values, r) && r.end - r.first > 1 && r.end <= i ==>
              r in if |segment| > 1 then runs + [Run(start, i)] else runs
  {
    forall r | IsRun(values, r) && r.end - r.first > 1 && r.end <= i
      ensures r in if |segment| > 1 then runs + [Run(start, i)] else runs
    {
      if !(start > 0 && r.end <= start - 1) {
        OnlyRun(values, start, i, r);
      }
      EndedRun(values, start, i, segment, runs, r);
    }
  }

  lemma StillDrawn(values: Values, start: nat, i: nat, lines: seq<seq<Dot>>, runs: seq<Run>)
    requires start <= i && if start == 0 then runs == [] && lines == [] else Drawn(values, start - 1, runs, lines)
    ensures |runs| == |lines|
    ensures forall k :: 0 <= k < |runs| ==> DrawsRun(values, i, runs[k], lines[k]) && runs[k].end < start
    ensures forall j, k :: 0 <= j < k < |runs| ==> runs[j].end < runs[k].first
  {
    forall k | 0 <= k < |runs| ensures DrawsRun(values, i, runs[k], lines[k]) && runs[k].end < start {
      assert DrawsRun(values, start - 1, runs[k], lines[k]);
    }
  }

  lemma Flushed(values: Values, start: nat, i: nat, segment: seq<Dot>, lines: seq<seq<Dot>>, runs: seq<Run>)
    requires Open(values, start, i, segment) && (i == |values| || values[i].None?)
    requires if start == 0 then runs == [] && lines == [] else Drawn(values, start - 1, runs, lines)
    ensures if |segment| > 1 then Drawn(values, i, runs + [Run(start, i)], lines + [segment])
            else Drawn(values, i, runs, lines)
  {
    AllEnded(values, start, i, segment, lines, runs);
    StillDrawn(values, start, i, lines, runs);
    assert |segment| > 1 ==> DrawsRun(values, i, Run(start, i), segment);
    hide IsRun, DrawsRun, Open;
    assert if |segment| > 1 then Drawn(values, i, runs + [Run(start, i)], lines + [segment])
           else Drawn(values, i, runs, lines);
  }

  /** A finished stretch becomes a line if it is longer than a single dot. */
  method Flush(values: Values, ghost start: nat, i: nat, segment: seq<Dot>, lines: seq<seq<Dot>>, ghost runs: seq<Run>)
    returns (more: seq<seq<Dot>>, ghost now: seq<Run>)
    requires Open(values, start, i, segment) && (i == |values| || values[i].None?)
    requires if start == 0 then runs == [] && lines == [] else Drawn(values, start - 1, runs, lines)
    ensures Drawn(values, i, now, more)
  {
    more, now := lines, runs;
    if |segment| > 1 {
      more, now := lines + [segment], runs + [Run(start, i)];
    }
    Flushed(values, start, i, segment, lines, runs);
  }

  method DrawSeries(values: Values) returns (lines: seq<seq<Dot>>, dots: seq<Dot>, ghost runs: seq<Run>)
    ensures AreLines(values, runs, lines) && AreDots(values, dots)
  {
    lines, dots, runs := [], [], [];
    var segment: seq<Dot> := [];
    ghost var start: nat := 0;
    for i := 0 to |values|
      invariant Open(values, start, i, segment)
      invariant if start == 0 then runs == [] && lines == [] else Drawn(values, start - 1, runs, lines)
      invariant AreDots(values[..i], dots)
    {
      var value := values[i];
      assert values[..i + 1] == values[..i] + [value];
      if value.None? {
        lines, runs := Flush(values, start, i, segment, lines, runs);
        segment, start := [], i + 1;
        SkipDot(values[..i], dots);
      } else {
        var dot := Dot(i, value.value);
        AddDot(values[..i], dots, value.value);
        dots, segment := dots + [dot], segment + [dot];
      }
    }
    assert values[..|values|] == values;
    lines, runs := Flush(values, start, |values|, segment, lines, runs);
  }

  lemma SkipDot(values: Values, dots: seq<Dot>)
    requires AreDots(values, dots)
    ensures AreDots(values + [None], dots)
  {
  }

  lemma AddDot(values: Values, dots: seq<Dot>, value: real)
    requires AreDots(values, dots)
    ensures AreDots(values + [Some(value)], dots + [Dot(|values|, value)])
  {
    var all, more := values + [Some(value)], dots + [Dot(|values|, value)];
    assert more[|dots|] == Dot(|values|, value);
    forall i | 0 <= i < |all| && all[i].Some? ensures Dot(i, all[i].value) in more {
      assert i < |values| ==> Dot(i, values[i].value) in dots;
    }
  }

  /** No line crosses a missing day, and no day is on two lines. */
  lemma LinesAreSeparate(values: Values, runs: seq<Run>, lines: seq<seq<Dot>>, i: nat, j: nat, a: nat, b: nat)
    requires AreLines(values, runs, lines) && i < |lines| && j < |lines| && a < |lines[i]| && b < |lines[j]|
    ensures a + 1 < |lines[i]| ==> lines[i][a + 1].day == lines[i][a].day + 1
    ensures lines[i][a].day == lines[j][b].day ==> i == j && a == b
  {
  }

  ghost predicate Ordered(runs: seq<Run>) {
    forall i, j :: 0 <= i < j < |runs| ==> runs[i].first < runs[j].first
  }

  function FromLeft(): (Run, Run) -> bool {
    (r: Run, s: Run) => r.first <= s.first
  }

  lemma OrderedAreEqual(a: seq<Run>, b: seq<Run>)
    requires Ordered(a) && Ordered(b) && forall r :: r in a <==> r in b
    ensures a == b
  {
    DistinctPermuted(a, b);
    forall r, s | r in a && s in a && r.first == s.first ensures r == s {
      var i :| 0 <= i < |a| && a[i] == r;
      var j :| 0 <= j < |a| && a[j] == s;
    }
    SortedUnique(a, b, FromLeft());
  }

  lemma SameLine(values: Values, r: Run, a: seq<Dot>, b: seq<Dot>)
    requires Traces(values, r, a) && Traces(values, r, b)
    ensures a == b
  {
    forall k | 0 <= k < |a| ensures a[k] == b[k] {
      assert values[r.first + k] == Some(a[k].value) == Some(b[k].value);
    }
  }

  lemma LinesAreOrdered(values: Values, runs: seq<Run>, lines: seq<seq<Dot>>)
    requires AreLines(values, runs, lines)
    ensures Ordered(runs) && forall r :: r in runs <==> IsRun(values, r) && r.end - r.first > 1
  {
    forall i, j | 0 <= i < j < |runs| ensures runs[i].first < runs[j].first {
      assert runs[i].end < runs[j].first && IsRun(values, runs[i]);
    }
  }

  /** The values determine the lines. */
  lemma LinesAreDetermined(values: Values, a: seq<Run>, b: seq<Run>, lines: seq<seq<Dot>>, others: seq<seq<Dot>>)
    requires AreLines(values, a, lines) && AreLines(values, b, others)
    ensures a == b && lines == others
  {
    LinesAreOrdered(values, a, lines);
    LinesAreOrdered(values, b, others);
    OrderedAreEqual(a, b);
    forall i | 0 <= i < |a| ensures lines[i] == others[i] {
      SameLine(values, a[i], lines[i], others[i]);
    }
  }
}
