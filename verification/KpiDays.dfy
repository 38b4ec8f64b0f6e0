/** What a day of the roadmap page shows, in the words of the stored rows and the scanned records. */
module KpiDays {
  import opened Basics
  import opened KpiHistory

  // ---------- instants ----------

  /** The day of an instant, in microseconds: eight hours ahead, 86400 seconds long. */
  lemma DayIs(t: nat, d: int)
    ensures Day(t) == d <==> d * 86_400_000_000 <= t + 28_800_000_000 < (d + 1) * 86_400_000_000
  {
  }

  /** Stamps are whole seconds. */
  lemma FloorIs(t: nat)
    ensures FloorSecond(t) <= t < FloorSecond(t) + 1_000_000 && FloorSecond(t) % 1_000_000 == 0
  {
  }

  // ---------- the list that is reduced ----------

  predicate Counts(record: Record, d: int) {
    record.selected && record.at.Some? && Day(record.at.value) == d
  }

  /** Earlier, or at the same instant under a smaller path, or the same in both and scanned earlier. */
  predicate ScansBefore(records: seq<Record>, i: nat, j: nat)
    requires i < |records| && j < |records| && records[i].at.Some? && records[j].at.Some?
  {
    var a, b := records[i], records[j];
    if a.at.value != b.at.value then a.at.value < b.at.value
    else if a.path != b.path then TextLeq(a.path, b.path) else i < j
  }

  /** The selected records of a day, each once, in that order. */
  ghost predicate IsDayList(records: seq<Record>, d: int, own: seq<Record>) {
    exists at: seq<nat> :: IsDayListAt(records, d, own, at)
  }

  ghost predicate IsDayListAt(records: seq<Record>, d: int, own: seq<Record>, at: seq<nat>) {
    && |at| == |own|
    && (forall i :: 0 <= i < |at| ==> at[i] < |records| && own[i] == records[at[i]] && Counts(own[i], d))
    && (forall i, j :: 0 <= i < j < |at| ==> ScansBefore(records, at[i], at[j])) && AllCounted(records, d, at)
  }

  ghost predicate AllCounted(records: seq<Record>, d: int, at: seq<nat>) {
    forall k :: 0 <= k < |records| && Counts(records[k], d) ==> k in at
  }

  lemma TimeAndPathOrder()
    ensures TotalPreorder(ByTimeAndPath())
  {
    TextLeqOrder();
    hide TextLeq;
  }

  lemma SortedBefore(records: seq<Record>, d: int, i: nat, j: nat)
    requires i < |records| && j < |records| && Counts(records[i], d) && Counts(records[j], d)
    requires ByTimeAndPath()(records[i], records[j]) && (ByTimeAndPath()(records[j], records[i]) ==> i < j)
    ensures ScansBefore(records, i, j)
  {
    TextLeqTotal(records[i].path, records[j].path);
    TextLeqTotal(records[i].path, records[i].path);
    hide TextLeq;
  }

  /** What is reduced for a day is the selected records of that day, by instant and then path, and in scan order
      where those are equal. */
  lemma DayListIs(records: seq<Record>, d: int)
    ensures IsDayList(records, d, DayRecords(records, d))
  {
    hide Filter, StableSort, ByTimeAndPath, ScansBefore, Counts;
    var found := Filter(records, RecordedOn(d));
    var place := FilterPositions(records, RecordedOn(d));
    TimeAndPathOrder();
    var order := SortArranges(found, ByTimeAndPath());
    var own := DayRecords(records, d);
    var at: seq<nat> := seq(|own|, i requires 0 <= i < |own| => place[order[i]]);
    DayListAt(records, d, found, place, own, order, at);
  }

  lemma DayListAt(records: seq<Record>, d: int, found: seq<Record>, place: seq<nat>, own: seq<Record>, order: seq<nat>,
                  at: seq<nat>)
    requires ArePositions(records, RecordedOn(d), found, place)
    requires Arranges(found, ByTimeAndPath(), own, order) && forall k :: 0 <= k < |found| ==> k in order
    requires |at| == |own| && forall i :: 0 <= i < |at| ==> at[i] == place[order[i]]
    ensures IsDayListAt(records, d, own, at)
  {
    hide ByTimeAndPath, ScansBefore;
    forall i | 0 <= i < |at| ensures at[i] < |records| && own[i] == records[at[i]] && Counts(own[i], d) {
      assert own[i] == found[order[i]];
    }
    forall i, j | 0 <= i < j < |at| ensures ScansBefore(records, at[i], at[j]) {
      assert ByTimeAndPath()(own[i], own[j]);
      SortedBefore(records, d, at[i], at[j]);
    }
    forall k | 0 <= k < |records| && Counts(records[k], d) ensures k in at {
      assert RecordedOn(d)(records[k]) && k in place;
      var l :| 0 <= l < |place| && place[l] == k;
      assert l in order;
      var i :| 0 <= i < |order| && order[i] == l;
      assert at[i] == k;
    }
  }

  // ---------- the points of a day ----------

  function RowOf(metric: string, d: int): Row -> bool {
    (row: Row) => row.metric == metric && row.point.at.Some? && Day(row.point.at.value) == d
  }

  function SampleOf(metric: string): Sample -> bool {
    (s: Sample) => s.metric == metric
  }

  /** The stored points of a metric on a day, in the order of the table. */
  ghost predicate AreStored(rows: seq<Row>, metric: string, d: int, points: seq<Point>) {
    exists own: seq<Row> ::
      && IsSublist(rows, RowOf(metric, d), own)
      && |points| == |own| && forall i :: 0 <= i < |own| ==> points[i] == own[i].point
  }

  /** The last instant of a list, cut to the second. */
  ghost predicate IsStamp(own: seq<Record>, at: nat) {
    exists r ::
      && r in own && r.at.Some? && (forall q :: q in own && q.at.Some? ==> q.at.value <= r.at.value)
      && at <= r.at.value < at + 1_000_000 && at % 1_000_000 == 0
  }

  /** The sampled points of a metric on a day: its records, as listed, are reduced together, and what comes out
      is stamped with their last instant. */
  ghost predicate AreSampled(records: seq<Record>, reduce: seq<Record> -> seq<Sample>, metric: string, d: int,
                             points: seq<Point>) {
    exists own: seq<Record> ::
      && IsDayList(records, d, own)
      && if own == [] then points == [] else SampledFrom(reduce(own), own, metric, points)
  }

  ghost predicate SampledFrom(samples: seq<Sample>, own: seq<Record>, metric: string, points: seq<Point>) {
    exists kept: seq<Sample>, at: nat ::
      && IsSublist(samples, SampleOf(metric), kept) && IsStamp(own, at)
      && |points| == |kept| && forall i :: 0 <= i < |kept| ==>
           points[i] == Point(Some(at), kept[i].value, kept[i].observed, kept[i].status)
  }

  predicate Dated(p: Point, d: int) {
    p.at.Some? && Day(p.at.value) == d
  }

  /** Of the points of a day an observed one comes first, then the latest instant, then the last listed. */
  ghost predicate IsShown(points: seq<Point>, d: int, i: nat) {
    && i < |points| && Dated(points[i], d)
    && forall j :: 0 <= j < |points| && j != i && Dated(points[j], d) ==>
         if points[i].observed != points[j].observed then points[i].observed
         else points[j].at.value < points[i].at.value || (points[j].at.value == points[i].at.value && j < i)
  }

  ghost predicate Shows(points: seq<Point>, d: int, value: Option<real>, status: string) {
    if forall i :: 0 <= i < |points| ==> !Dated(points[i], d) then value == None && status == "missing"
    else exists i: nat ::
           && IsShown(points, d, i)
           && value == (if points[i].observed then points[i].value else None)
           && status == (if points[i].status != "" then points[i].status else "missing")
  }

  /** What is computed for a day is what its points show. */
  lemma DailyShows(points: seq<Point>, d: int)
    ensures Shows(points, d, DailyValue(Daily(points, d)), DailyStatus(Daily(points, d)))
  {
    PreferenceOrder();
    BestIsLastMaximal(points, AnyOn(d), ByPreference());
    if Daily(points, d).Some? {
      var i: nat :| IsBestAt(points, AnyOn(d), ByPreference(), i) && Daily(points, d) == Some(points[i]);
      BestIsShown(points, d, i);
    } else {
      forall i | 0 <= i < |points| ensures !Dated(points[i], d) {
        assert !AnyOn(d)(points[i]);
      }
    }
  }

  lemma BestIsShown(points: seq<Point>, d: int, i: nat)
    requires IsBestAt(points, AnyOn(d), ByPreference(), i)
    ensures IsShown(points, d, i)
  {
    forall j | 0 <= j < |points| && j != i && Dated(points[j], d)
      ensures if points[i].observed != points[j].observed then points[i].observed
         else points[j].at.value < points[i].at.value || (points[j].at.value == points[i].at.value && j < i)
    {
      assert AnyOn(d)(points[j]);
    }
  }

  // ---------- from the two sources to the points of a day ----------

  /** The fold looks at the points of the day alone. */
  lemma {:induction false} DailyOfDay(points: seq<Point>, d: int)
    ensures Daily(points, d) == Daily(Filter(points, AnyOn(d)), d)
  {
    if points == [] {
    } else {
      var front, last := points[..|points| - 1], points[|points| - 1];
      DailyOfDay(front, d);
      var kept := Filter(front, AnyOn(d));
      assert (kept + [last])[..|kept|] == kept;
    }
  }

  lemma StoredOfDay(rows: seq<Row>, metric: string, d: int)
    ensures AreStored(rows, metric, d, Filter(PointsOf(rows, metric), AnyOn(d)))
  {
    var here := RowOf(metric, d);
    var on := (row: Row) => OnDay(d, row.point);
    FilterMapped(Filter(rows, OfMetric(metric)), PointOf(), AnyOn(d), on);
    FilterTwice(rows, OfMetric(metric), on, here);
    FilterIsSublist(rows, here);
    hide IsSublist;
    assert AreStored(rows, metric, d, Map(Filter(rows, here), PointOf()));
  }

  lemma StampIs(own: seq<Record>, d: int)
    requires own != [] && forall r :: r in own ==> IsOn(d, r)
    ensures IsStamp(own, FloorSecond(LastRecorded(own)))
  {
    FloorIs(LastRecorded(own));
    assert own[0] in own;
    if LastRecorded(own) == 0 {
      assert own[0].at == Some(0);
    }
  }

  lemma SampledOfDay(records: seq<Record>, reduce: seq<Record> -> seq<Sample>, metric: string, d: int)
    ensures AreSampled(records, reduce, metric, d, PointsOf(DayRows(records, d, reduce), metric))
  {
    var own := DayRecords(records, d);
    DayListIs(records, d);
    hide IsDayList, IsSublist;
    if own == [] {
      assert PointsOf([], metric) == [];
    } else {
      OwnOnDay(records, d);
      StampIs(own, d);
      hide DayRecords, IsStamp;
      var at := LastRecorded(own);
      var of := SampleOf(metric);
      FilterMapped(reduce(own), SampleRow(at), OfMetric(metric), of);
      FilterIsSublist(reduce(own), of);
      var kept := Filter(reduce(own), of);
      assert SampledFrom(reduce(own), own, metric, Map(Map(kept, SampleRow(at)), PointOf()));
    }
  }

  lemma OwnOnDay(records: seq<Record>, d: int)
    ensures forall r :: r in DayRecords(records, d) ==> IsOn(d, r)
  {
    SortPermutes(Filter(records, RecordedOn(d)), ByTimeAndPath());
    SameMembers(DayRecords(records, d), Filter(records, RecordedOn(d)));
    FilterMembers(records, RecordedOn(d));
  }

  lemma PointsConcat(a: seq<Row>, b: seq<Row>, metric: string)
    ensures PointsOf(a + b, metric) == PointsOf(a, metric) + PointsOf(b, metric)
  {
    FilterConcat(a, b, OfMetric(metric));
  }

  /** The samples of one day among those of the week. */
  lemma {:induction false} WeekOfDay(days: seq<int>, records: seq<Record>, reduce: seq<Record> -> seq<Sample>,
                                     metric: string, d: int)
    requires Distinct(days)
    ensures Filter(PointsOf(ArtifactRows(days, records, reduce), metric), AnyOn(d))
            == if d in days then PointsOf(DayRows(records, d, reduce), metric) else []
  {
    hide DayRows, PointsOf;
    if days == [] {
      NoPoints(metric);
    } else {
      var front, e := days[..|days| - 1], days[|days| - 1];
      assert days == front + [e];
      WeekOfDay(front, records, reduce, metric, d);
      var a, b := ArtifactRows(front, records, reduce), DayRows(records, e, reduce);
      PointsConcat(a, b, metric);
      FilterConcat(PointsOf(a, metric), PointsOf(b, metric), AnyOn(d));
      OneDay(records, e, reduce, metric, d);
    }
  }

  lemma NoPoints(metric: string)
    ensures PointsOf([], metric) == []
  {
  }

  lemma OneDay(records: seq<Record>, e: int, reduce: seq<Record> -> seq<Sample>, metric: string, d: int)
    ensures Filter(PointsOf(DayRows(records, e, reduce), metric), AnyOn(d))
            == if d == e then PointsOf(DayRows(records, e, reduce), metric) else []
  {
    var points := PointsOf(DayRows(records, e, reduce), metric);
    forall p | p in points ensures OnDay(e, p) {
      PointsMember(DayRows(records, e, reduce), metric, p);
      DayRowsOnDay(records, e, reduce, Row(metric, p));
    }
    if d == e {
      FilterAll(points, AnyOn(d));
    } else {
      FilterNone(points, AnyOn(d));
    }
  }

  /** The value and status of a metric on a day: those of the point shown among the stored ones and, behind
      them, the sampled ones. */
  ghost predicate ShownOn(rows: seq<Row>, records: seq<Record>, reduce: seq<Record> -> seq<Sample>, metric: string,
                          d: int, value: Option<real>, status: string) {
    exists stored: seq<Point>, sampled: seq<Point> ::
      && AreStored(rows, metric, d, stored) && AreSampled(records, reduce, metric, d, sampled)
      && Shows(stored + sampled, d, value, status)
  }

  /** The day of generation, or the newest day of the table if that is later. */
  ghost predicate EndsOn(rows: seq<Row>, generated: nat, d: int) {
    && Day(generated) <= d && (forall row :: row in rows && row.point.at.Some? ==> Day(row.point.at.value) <= d)
    && (d == Day(generated) || exists row :: row in rows && row.point.at.Some? && Day(row.point.at.value) == d)
  }

  lemma NewestIs(rows: seq<Row>, generated: nat)
    ensures EndsOn(rows, generated, NewestDay(rows, generated))
  {
    LatestIsLast(rows);
    forall row | row in rows && row.point.at.Some? ensures Day(row.point.at.value) <= NewestDay(rows, generated) {
      DayMonotone(row.point.at.value, Latest(rows).value);
      if Latest(rows).value <= generated {
        DayMonotone(Latest(rows).value, generated);
      }
    }
    if Latest(rows).Some? && Latest(rows).value > generated {
      DayMonotone(generated, Latest(rows).value);
    }
  }

  lemma WeekDistinct(d: int)
    ensures Distinct(WeekEnding(d))
  {
  }

  lemma DayIsShown(rows: seq<Row>, generated: nat, records: seq<Record>, reduce: seq<Record> -> seq<Sample>,
                   metric: string, d: int)
    requires d in WeekEnding(NewestDay(rows, generated))
    ensures var daily := Daily(PlainPoints(rows, generated, records, reduce, metric), d);
      ShownOn(rows, records, reduce, metric, d, DailyValue(daily), DailyStatus(daily))
  {
    hide Daily, DailyValue, DailyStatus, Shows, AreStored, AreSampled, PointsOf, DayRows, Day, NewestDay;
    var week := WeekEnding(NewestDay(rows, generated));
    var a, b := PointsOf(rows, metric), PointsOf(ArtifactRows(week, records, reduce), metric);
    WeekDistinct(NewestDay(rows, generated));
    DailyOfDay(a + b, d);
    FilterConcat(a, b, AnyOn(d));
    StoredOfDay(rows, metric, d);
    SampledOfDay(records, reduce, metric, d);
    WeekOfDay(week, records, reduce, metric, d);
    DailyShows(Filter(a, AnyOn(d)) + PointsOf(DayRows(records, d, reduce), metric), d);
  }

  // ---------- the stages in between ----------

  /** Of this metric, and not more than six days older than anything in the table. */
  predicate InWindow(rows: seq<Row>, metric: string, row: Row) {
    && row.metric == metric
    && (row.point.at.Some? ==>
          forall other :: other in rows && other.point.at.Some? ==>
            Day(other.point.at.value) - 6 <= Day(row.point.at.value))
  }

  function WindowOf(rows: seq<Row>, metric: string): Row -> bool {
    (row: Row) => InWindow(rows, metric, row)
  }

  lemma WindowKeeps(rows: seq<Row>, metric: string, row: Row)
    ensures row.metric == metric && IsRecent(StartOf(rows), row) <==> InWindow(rows, metric, row)
  {
    LatestIsLast(rows);
    if Latest(rows).Some? && row.point.at.Some? {
      var newest := Latest(rows).value;
      BeforeWindow(row.point.at.value, newest);
      forall other | other in rows && other.point.at.Some? ensures Day(other.point.at.value) <= Day(newest) {
        DayMonotone(other.point.at.value, newest);
      }
    }
    hide Day, WindowStart;
  }

  /** A loaded history has, for every metric, the points of its rows inside the window, in the order of the table. */
  lemma LoadedIs(rows: seq<Row>, h: History, metric: string) returns (own: seq<Row>)
    requires Holds(h, Filter(rows, Recent(StartOf(rows))))
    ensures IsSublist(rows, WindowOf(rows, metric), own) && |Series(h, metric)| == |own|
    ensures forall i :: 0 <= i < |own| ==> Series(h, metric)[i] == own[i].point
  {
    hide InWindow, IsRecent, IsSublist;
    forall row | row in rows
      ensures WindowOf(rows, metric)(row) <==> Recent(StartOf(rows))(row) && OfMetric(metric)(row)
    {
      WindowKeeps(rows, metric, row);
    }
    FilterTwice(rows, Recent(StartOf(rows)), OfMetric(metric), WindowOf(rows, metric));
    own := Filter(rows, WindowOf(rows, metric));
    FilterIsSublist(rows, WindowOf(rows, metric));
  }

  function Instant(p: Point): nat {
    match p.at
    case Some(t) => t
    case None => 0
  }

  /** The same points by instant, unreadable ones first, and as they were where instants are equal. */
  ghost predicate InTimeOrder(points: seq<Point>, sorted: seq<Point>) {
    exists at: seq<nat> :: InTimeOrderAt(points, sorted, at)
  }

  ghost predicate InTimeOrderAt(points: seq<Point>, sorted: seq<Point>, at: seq<nat>) {
    && |at| == |sorted| == |points|
    && (forall i :: 0 <= i < |at| ==> at[i] < |points| && sorted[i] == points[at[i]])
    && (forall i, j :: 0 <= i < j < |at| ==>
          || Instant(sorted[i]) < Instant(sorted[j])
          || (Instant(sorted[i]) == Instant(sorted[j]) && at[i] < at[j]))
  }

  lemma MergedInOrder(points: seq<Point>)
    ensures InTimeOrder(points, StableSort(points, ByTime()))
  {
    var at := SortArranges(points, ByTime());
    SortPermutes(points, ByTime());
    var sorted := StableSort(points, ByTime());
    forall i, j | 0 <= i < j < |at|
      ensures Instant(sorted[i]) < Instant(sorted[j])
              || (Instant(sorted[i]) == Instant(sorted[j]) && at[i] < at[j])
    {
      assert ByTime()(sorted[i], sorted[j]);
    }
    assert InTimeOrderAt(points, sorted, at);
  }

  /** The rows of one day: the samples of its list, stamped with its last instant. */
  ghost predicate AreDayRows(records: seq<Record>, d: int, reduce: seq<Record> -> seq<Sample>, rows: seq<Row>) {
    exists own: seq<Record> ::
      IsDayList(records, d, own) && if own == [] then rows == [] else Stamped(reduce(own), own, rows)
  }

  ghost predicate Stamped(samples: seq<Sample>, own: seq<Record>, rows: seq<Row>) {
    exists at: nat ::
      && IsStamp(own, at) && |rows| == |samples|
      && forall i :: 0 <= i < |samples| ==>
           rows[i] == Row(samples[i].metric, Point(Some(at), samples[i].value, samples[i].observed, samples[i].status))
  }

  /** The rows of the days one after the other. */
  ghost predicate AreWeekRows(days: seq<int>, records: seq<Record>, reduce: seq<Record> -> seq<Sample>,
                              rows: seq<Row>) {
    if days == [] then rows == [] else
    exists before: seq<Row>, last: seq<Row> ::
      && AreWeekRows(days[..|days| - 1], records, reduce, before)
      && AreDayRows(records, days[|days| - 1], reduce, last) && rows == before + last
  }

  lemma DayRowsAre(records: seq<Record>, d: int, reduce: seq<Record> -> seq<Sample>)
    ensures AreDayRows(records, d, reduce, DayRows(records, d, reduce))
  {
    var own := DayRecords(records, d);
    DayListIs(records, d);
    hide IsDayList;
    if own != [] {
      OwnOnDay(records, d);
      StampIs(own, d);
      hide DayRecords, IsStamp;
      assert Stamped(reduce(own), own, DayRows(records, d, reduce));
    }
  }

  /** What is derived from the artifacts is the rows of each bucket day, one day after the other. */
  lemma {:induction false} ArtifactRowsAre(days: seq<int>, records: seq<Record>, reduce: seq<Record> -> seq<Sample>)
    ensures AreWeekRows(days, records, reduce, ArtifactRows(days, records, reduce))
  {
    hide AreDayRows, DayRows;
    if days == [] {
    } else {
      ArtifactRowsAre(days[..|days| - 1], records, reduce);
      DayRowsAre(records, days[|days| - 1], reduce);
    }
  }

  // ---------- the latest record of a day ----------

  /** The last of the day's records, as they are listed. */
  ghost predicate IsLatestRecord(records: seq<Record>, d: int, k: nat) {
    && k < |records| && Counts(records[k], d)
    && forall j :: 0 <= j < |records| && j != k && Counts(records[j], d) ==> ScansBefore(records, j, k)
  }

  /** The table has no observed point of the metric on that day that is later than that. */
  predicate NothingLater(rows: seq<Row>, metric: string, d: int, t: nat) {
    forall row :: row in rows && row.metric == metric && Dated(row.point, d) && row.point.observed ==>
      row.point.at.value <= t
  }

  lemma OneOrder(records: seq<Record>, i: nat, j: nat)
    requires i < |records| && j < |records| && records[i].at.Some? && records[j].at.Some? && i != j
    ensures ScansBefore(records, i, j) ==> !ScansBefore(records, j, i)
    ensures ScansBefore(records, i, j) ==> records[i].at.value <= records[j].at.value
  {
    TextLeqTotal(records[i].path, records[j].path);
    hide TextLeq;
  }

  lemma LastOfDayList(records: seq<Record>, d: int, own: seq<Record>, k: nat)
    requires IsDayList(records, d, own) && IsLatestRecord(records, d, k)
    ensures own != [] && own[|own| - 1] == records[k]
    ensures forall r :: r in own ==> r.at.Some? && r.at.value <= records[k].at.value
  {
    hide ScansBefore, Day;
    var at: seq<nat> :| IsDayListAt(records, d, own, at);
    assert k in at;
    hide AllCounted;
    var i :| 0 <= i < |at| && at[i] == k;
    var n := |at| - 1;
    if i != n {
      if at[n] != k {
        OneOrder(records, at[i], at[n]);
      }
    }
    forall r | r in own ensures r.at.Some? && r.at.value <= records[k].at.value {
      var j :| 0 <= j < |own| && own[j] == r;
      if at[j] != k {
        OneOrder(records, at[j], k);
      }
    }
  }

  lemma SublistOfOne<T>(x: T, p: T -> bool, t: seq<T>)
    requires IsSublist([x], p, t) && p(x)
    ensures t == [x]
  {
    var at :| ArePositions([x], p, t, at);
    assert p([x][0]) && 0 in at;
    hide AllListed;
    FewPositions(at, 1);
  }

  lemma SublistMembers<T>(s: seq<T>, p: T -> bool, t: seq<T>, i: nat)
    requires IsSublist(s, p, t) && i < |t|
    ensures t[i] in s && p(t[i])
  {
    hide AllListed;
    var at :| ArePositions(s, p, t, at);
    assert t[i] == s[at[i]];
  }

  lemma SampleOfLatest(records: seq<Record>, reduce: seq<Record> -> seq<Sample>, read: string -> real, metric: string,
                       d: int, k: nat, points: seq<Point>)
    requires AreSampled(records, reduce, metric, d, points) && IsLatestRecord(records, d, k)
    requires forall own: seq<Record> :: IsDayList(records, d, own) && own != [] ==>
      reduce(own) == [Sample(metric, Some(read(own[|own| - 1].line)), true, "observed")]
    ensures records[k].at.Some?
    ensures points == [Point(Some(FloorSecond(records[k].at.value)), Some(read(records[k].line)), true, "observed")]
  {
    hide IsDayList, SampledFrom;
    var own: seq<Record> :| IsDayList(records, d, own)
        && if own == [] then points == [] else SampledFrom(reduce(own), own, metric, points);
    LastOfDayList(records, d, own, k);
    hide IsLatestRecord;
    SampledOnce(Sample(metric, Some(read(records[k].line)), true, "observed"), own, metric, points, records[k]);
  }

  lemma SampledOnce(s: Sample, own: seq<Record>, metric: string, points: seq<Point>, last: Record)
    requires SampledFrom([s], own, metric, points) && s.metric == metric
    requires last in own && last.at.Some? && forall r :: r in own ==> r.at.Some? && r.at.value <= last.at.value
    ensures points == [Point(Some(FloorSecond(last.at.value)), s.value, s.observed, s.status)]
  {
    hide IsSublist;
    var kept: seq<Sample>, at: nat :|
      && IsSublist([s], SampleOf(metric), kept) && IsStamp(own, at)
      && |points| == |kept| && forall i :: 0 <= i < |kept| ==>
           points[i] == Point(Some(at), kept[i].value, kept[i].observed, kept[i].status);
    SublistOfOne(s, SampleOf(metric), kept);
    FloorIs(last.at.value);
  }

  /** If the reducer reports its last record, the day shows the value of its latest record, unless the table
      has an observed value that is later than that to the second. */
  lemma LatestRecordShown(rows: seq<Row>, records: seq<Record>, reduce: seq<Record> -> seq<Sample>,
                          read: string -> real, metric: string, d: int, k: nat, value: Option<real>, status: string)
    requires ShownOn(rows, records, reduce, metric, d, value, status)
    requires forall own: seq<Record> :: IsDayList(records, d, own) && own != [] ==>
      reduce(own) == [Sample(metric, Some(read(own[|own| - 1].line)), true, "observed")]
    requires IsLatestRecord(records, d, k)
    requires NothingLater(rows, metric, d, FloorSecond(records[k].at.value))
    ensures value == Some(read(records[k].line)) && status == "observed"
  {
    hide AreStored, AreSampled, Shows, IsDayList;
    var stored: seq<Point>, sampled: seq<Point> :|
      && AreStored(rows, metric, d, stored) && AreSampled(records, reduce, metric, d, sampled)
      && Shows(stored + sampled, d, value, status);
    SampleOfLatest(records, reduce, read, metric, d, k, sampled);
    DayOfFloor(records[k].at.value);
    hide Day, FloorSecond;
    forall i | 0 <= i < |stored| && stored[i].observed
      ensures stored[i].at.Some? && stored[i].at.value <= sampled[0].at.value
    {
      StoredNotLater(rows, metric, d, FloorSecond(records[k].at.value), stored, i);
    }
    LastWins(stored, sampled[0], d, value, status);
  }

  lemma StoredNotLater(rows: seq<Row>, metric: string, d: int, t: nat, points: seq<Point>, i: nat)
    requires AreStored(rows, metric, d, points) && NothingLater(rows, metric, d, t)
    requires i < |points| && points[i].observed
    ensures points[i].at.Some? && points[i].at.value <= t
  {
    hide IsSublist;
    var own: seq<Row> :| IsSublist(rows, RowOf(metric, d), own)
      && |points| == |own| && forall i :: 0 <= i < |own| ==> points[i] == own[i].point;
    SublistMembers(rows, RowOf(metric, d), own, i);
  }

  /** An observed point behind the others is shown if no observed one of the day is later. */
  lemma LastWins(points: seq<Point>, last: Point, d: int, value: Option<real>, status: string)
    requires Dated(last, d) && last.observed
    requires forall i :: 0 <= i < |points| && points[i].observed ==>
      points[i].at.Some? && points[i].at.value <= last.at.value
    requires Shows(points + [last], d, value, status)
    ensures value == last.value && status == if last.status != "" then last.status else "missing"
  {
    var all := points + [last];
    assert all[|points|] == last && forall i :: 0 <= i < |points| ==> all[i] == points[i];
    var i: nat :|
      && IsShown(all, d, i)
      && value == (if all[i].observed then all[i].value else None)
      && status == (if all[i].status != "" then all[i].status else "missing");
  }

  // ---------- the whole pipeline ----------

  /** What the daily points are folded from: all stored rows, then all artifacts of the week, nothing sorted. */
  function PlainPoints(rows: seq<Row>, generated: nat, records: seq<Record>, reduce: seq<Record> -> seq<Sample>,
                       metric: string): seq<Point> {
    PointsOf(rows, metric) + PointsOf(ArtifactRows(WeekEnding(NewestDay(rows, generated)), records, reduce), metric)
  }

  /** Loading with truncation, selecting artifacts, merging, sorting and bucketing give what folding the plain
      concatenation gives, over the seven days that end on the newest stored day. */
  method DailySeries(rows: seq<Row>, generated: nat, records: seq<Record>, reduce: seq<Record> -> seq<Sample>,
                     metric: string)
    returns (buckets: seq<int>, values: seq<Option<real>>, statuses: seq<string>)
    ensures buckets == WeekEnding(NewestDay(rows, generated))
    ensures |values| == |statuses| == WINDOW_DAYS
    ensures forall i :: 0 <= i < WINDOW_DAYS ==>
              values[i] == DailyValue(Daily(PlainPoints(rows, generated, records, reduce, metric), buckets[i]))
    ensures forall i :: 0 <= i < WINDOW_DAYS ==>
              statuses[i] == DailyStatus(Daily(PlainPoints(rows, generated, records, reduce, metric), buckets[i]))
    ensures |buckets| == 7 && EndsOn(rows, generated, buckets[6])
    ensures forall i :: 0 <= i < 7 ==> buckets[i] == buckets[6] - 6 + i
    ensures forall i :: 0 <= i < 7 ==> ShownOn(rows, records, reduce, metric, buckets[i], values[i], statuses[i])
  {
    var stored := LoadMetricHistory(rows);
    var artifacts := LoadRuntimeArtifactMetricHistory(stored, generated, records, reduce);
    ghost var d :| IsNewestDay(stored, generated, d) && Holds(artifacts, ArtifactRows(WeekEnding(d), records, reduce));
    var merged := MergeMetricHistories(stored, artifacts);
    buckets := ReportKpiDateBuckets(merged, generated);
    values, statuses := MetricHistoryValues(merged, metric, buckets);
    ArtifactsNeverShiftBuckets(stored, artifacts, merged, generated, d, buckets[WINDOW_DAYS - 1], records, reduce);
    NewestSurvives(rows, stored, generated, d);
    NewestNotBefore(rows, generated);
    ghost var rest := PointsOf(ArtifactRows(WeekEnding(d), records, reduce), metric);
    forall i | 0 <= i < WINDOW_DAYS
      ensures Daily(Series(merged, metric), buckets[i])
              == Daily(PlainPoints(rows, generated, records, reduce, metric), buckets[i])
    {
      SortingIsInvisible(Series(stored, metric) + Series(artifacts, metric), buckets[i]);
      TruncationIsInvisible(rows, metric, rest, buckets[i]);
    }
    NewestIs(rows, generated);
    forall i | 0 <= i < 7 ensures ShownOn(rows, records, reduce, metric, buckets[i], values[i], statuses[i]) {
      DayIsShown(rows, generated, records, reduce, metric, buckets[i]);
    }
  }
}
