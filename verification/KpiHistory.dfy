/** The KPI history of the roadmap page: seven daily values per metric, out of two sources. */
module KpiHistory {
  import opened Basics

  // ---------- instants and days ----------

  // Instants count microseconds from the first representable one, which also stands in for an unreadable
  // timestamp when points are ordered. Days are calendar days eight hours ahead of UTC.
  const SECOND := 1_000_000
  const DAY := 86_400 * SECOND
  const CST := 8 * 3_600 * SECOND

  function Day(t: nat): int {
    (t + CST) / DAY
  }

  function FloorSecond(t: nat): nat {
    t - t % SECOND
  }

  /** Dropping fractions of a second never changes the day. */
  lemma DayOfFloor(t: nat)
    ensures Day(FloorSecond(t)) == Day(t)
  {
    var q, r := t / SECOND, t % SECOND;
    assert FloorSecond(t) == q * SECOND;
    assert (t + CST) / DAY == (q + 28_800) / 86_400;
    assert (q * SECOND + CST) / DAY == (q + 28_800) / 86_400;
  }

  const WINDOW_DAYS := 7

  /** The first instant of the window that ends on the day of the latest one. */
  function WindowStart(latest: nat): int {
    (Day(latest) - (WINDOW_DAYS - 1)) * DAY - CST
  }

  lemma BeforeWindow(t: nat, latest: nat)
    ensures t < WindowStart(latest) <==> Day(t) < Day(latest) - (WINDOW_DAYS - 1)
  {
    var d := Day(latest) - (WINDOW_DAYS - 1);
    assert Day(t) * DAY <= t + CST < Day(t) * DAY + DAY;
    if Day(t) < d {
      assert Day(t) + 1 <= d;
    }
  }

  function WeekEnding(d: int): (days: seq<int>)
    ensures |days| == WINDOW_DAYS && forall i :: 0 <= i < WINDOW_DAYS ==> days[i] == d - (WINDOW_DAYS - 1) + i
  {
    seq(WINDOW_DAYS, i => d - (WINDOW_DAYS - 1) + i)
  }

  // ---------- points ----------

  /** `at` is missing if the timestamp cannot be read, `value` if it is not a number; an empty status counts as
      missing. */
  datatype Point = Point(at: Option<nat>, value: Option<real>, observed: bool, status: string)

  /** A stored row, in the order of the table. */
  datatype Row = Row(metric: string, point: Point)

  type History = map<string, seq<Point>>

  function Series(h: History, metric: string): seq<Point> {
    if metric in h then h[metric] else []
  }

  function OfMetric(metric: string): Row -> bool {
    (row: Row) => row.metric == metric
  }

  function PointOf(): Row -> Point {
    (row: Row) => row.point
  }

  function PointsOf(rows: seq<Row>, metric: string): seq<Point> {
    Map(Filter(rows, OfMetric(metric)), PointOf())
  }

  /** The later of an instant and everything readable in a list. */
  function Later(start: nat, points: seq<Point>): (t: nat)
    ensures t >= start && forall p :: p in points && p.at.Some? ==> p.at.value <= t
    ensures t == start || exists p :: p in points && p.at == Some(t)
  {
    if points == [] then start else
    var p, rest := points[|points| - 1], Later(start, points[..|points| - 1]);
    assert points == points[..|points| - 1] + [p];
    if p.at.Some? && p.at.value > rest then p.at.value else rest
  }

  // ---------- loading with truncation ----------

  function Latest(rows: seq<Row>): Option<nat> {
    if rows == [] then None else
    var at, rest := rows[|rows| - 1].point.at, Latest(rows[..|rows| - 1]);
    if at.Some? && (rest.None? || at.value > rest.value) then at else rest
  }

  lemma {:induction false} LatestIsLast(rows: seq<Row>)
    ensures forall row :: row in rows && row.point.at.Some? ==>
              Latest(rows).Some? && row.point.at.value <= Latest(rows).value
    ensures Latest(rows).Some? ==> exists row :: row in rows && row.point.at == Latest(rows)
  {
    if rows == [] {
    } else {
      LatestIsLast(rows[..|rows| - 1]);
      assert rows == rows[..|rows| - 1] + [rows[|rows| - 1]];
    }
  }

  predicate IsRecent(start: Option<int>, row: Row) {
    start.Some? && row.point.at.Some? ==> row.point.at.value >= start.value
  }

  function Recent(start: Option<int>): Row -> bool {
    (row: Row) => IsRecent(start, row)
  }

  function StartOf(rows: seq<Row>): Option<int> {
    if Latest(rows).Some? then Some(WindowStart(Latest(rows).value)) else None
  }

  ghost predicate Holds(h: History, rows: seq<Row>) {
    forall m :: Series(h, m) == PointsOf(rows, m)
  }

  lemma HoldsMore(h: History, rows: seq<Row>, row: Row)
    requires Holds(h, rows)
    ensures Holds(h[row.metric := Series(h, row.metric) + [row.point]], rows + [row])
  {
    assert (rows + [row])[..|rows|] == rows;
    forall m ensures PointsOf(rows + [row], m) == PointsOf(rows, m) + if row.metric == m then [row.point] else [] {}
  }

  method LatestTimestamp(rows: seq<Row>) returns (latest: Option<nat>)
    ensures latest == Latest(rows)
  {
    latest := None;
    for i := 0 to |rows|
      invariant latest == Latest(rows[..i])
    {
      assert rows[..i + 1][..i] == rows[..i];
      var at := rows[i].point.at;
      if at.Some? && (latest.None? || at.value > latest.value) {
        latest := at;
      }
    }
    assert rows[..|rows|] == rows;
  }

  /** Loads the table without the rows that are older than the window. */
  method LoadMetricHistory(rows: seq<Row>) returns (h: History)
    ensures Holds(h, Filter(rows, Recent(StartOf(rows))))
  {
    var latest := LatestTimestamp(rows);
    var start := if latest.Some? then Some(WindowStart(latest.value)) else None;
    h := map[];
    for i := 0 to |rows|
      invariant Holds(h, Filter(rows[..i], Recent(start)))
    {
      assert rows[..i + 1][..i] == rows[..i];
      if IsRecent(start, rows[i]) {
        HoldsMore(h, Filter(rows[..i], Recent(start)), rows[i]);
        h := h[rows[i].metric := Series(h, rows[i].metric) + [rows[i].point]];
      }
    }
    assert rows[..|rows|] == rows;
  }

  // ---------- bucket days ----------

  ghost predicate HasDay(h: History, d: int) {
    exists m, p :: m in h && p in h[m] && p.at.Some? && Day(p.at.value) == d
  }

  /** The newest day of a history, or the day of generation if that is newer. */
  ghost predicate IsNewestDay(h: History, generated: nat, d: int) {
    && (forall m, p :: m in h && p in h[m] && p.at.Some? ==> Day(p.at.value) <= d)
    && Day(generated) <= d && (d == Day(generated) || HasDay(h, d))
  }

  lemma LatestDay(h: History, generated: nat, latest: nat)
    requires latest >= generated && forall m, p :: m in h && p in h[m] && p.at.Some? ==> p.at.value <= latest
    requires latest == generated || exists m, p :: m in h && p in h[m] && p.at == Some(latest)
    ensures IsNewestDay(h, generated, Day(latest))
  {
  }

  method ReportKpiDateBuckets(h: History, generated: nat) returns (buckets: seq<int>)
    ensures |buckets| == WINDOW_DAYS && buckets == WeekEnding(buckets[WINDOW_DAYS - 1])
    ensures IsNewestDay(h, generated, buckets[WINDOW_DAYS - 1])
  {
    hide Later;
    var latest, metrics := generated, h.Keys;
    while metrics != {}
      invariant metrics <= h.Keys && latest >= generated
      invariant forall m, p :: m in h && m !in metrics && p in h[m] && p.at.Some? ==> p.at.value <= latest
      invariant latest == generated || exists m, p :: m in h && p in h[m] && p.at == Some(latest)
      decreases |metrics|
    {
      var m :| m in metrics;
      metrics := metrics - {m};
      latest := Later(latest, h[m]);
    }
    LatestDay(h, generated, latest);
    hide IsNewestDay, Day;
    buckets := WeekEnding(Day(latest));
  }

  // ---------- the second source ----------

  /** A persisted summary line; `selected` if it belongs to the world shown. */
  datatype Record = Record(at: Option<nat>, path: string, selected: bool, line: string)

  /** One metric of a reduced day. */
  datatype Sample = Sample(metric: string, value: Option<real>, observed: bool, status: string)

  predicate IsOn(d: int, record: Record) {
    record.selected && record.at.Some? && Day(record.at.value) == d
  }

  function RecordedOn(d: int): Record -> bool {
    (record: Record) => IsOn(d, record)
  }

  function ByTimeAndPath(): (Record, Record) -> bool {
    (a: Record, b: Record) =>
      var s, t := if a.at.Some? then a.at.value else 0, if b.at.Some? then b.at.value else 0;
      s < t || (s == t && TextLeq(a.path, b.path))
  }

  function LastRecorded(records: seq<Record>): (t: nat)
    ensures forall r :: r in records && r.at.Some? ==> r.at.value <= t
    ensures t > 0 ==> exists r :: r in records && r.at == Some(t)
  {
    if records == [] then 0 else
    var r, rest := records[|records| - 1], LastRecorded(records[..|records| - 1]);
    assert records == records[..|records| - 1] + [r];
    if r.at.Some? && r.at.value >= rest then r.at.value else rest
  }

  function DayRecords(records: seq<Record>, d: int): seq<Record> {
    StableSort(Filter(records, RecordedOn(d)), ByTimeAndPath())
  }

  function SampleRow(at: nat): Sample -> Row {
    (s: Sample) => Row(s.metric, Point(Some(FloorSecond(at)), s.value, s.observed, s.status))
  }

  /** One day of artifacts is reduced as a whole and stamped with its last instant, to the second. */
  function DayRows(records: seq<Record>, d: int, reduce: seq<Record> -> seq<Sample>): seq<Row> {
    var own := DayRecords(records, d);
    if own == [] then [] else Map(reduce(own), SampleRow(LastRecorded(own)))
  }

  function ArtifactRows(days: seq<int>, records: seq<Record>, reduce: seq<Record> -> seq<Sample>): seq<Row> {
    if days == [] then [] else
    ArtifactRows(days[..|days| - 1], records, reduce) + DayRows(records, days[|days| - 1], reduce)
  }

  lemma LastRecordedOnDay(own: seq<Record>, d: int)
    requires own != [] && forall r :: r in own ==> IsOn(d, r)
    ensures Day(LastRecorded(own)) == d
  {
    assert own[0] in own;
  }

  lemma DayRowsOnDay(records: seq<Record>, d: int, reduce: seq<Record> -> seq<Sample>, row: Row)
    requires row in DayRows(records, d, reduce)
    ensures row.point.at.Some? && Day(row.point.at.value) == d
  {
    var own := DayRecords(records, d);
    SortPermutes(Filter(records, RecordedOn(d)), ByTimeAndPath());
    SameMembers(own, Filter(records, RecordedOn(d)));
    forall r | r in own ensures IsOn(d, r) {
      FilterMember(records, RecordedOn(d), r);
    }
    LastRecordedOnDay(own, d);
    DayOfFloor(LastRecorded(own));
  }

  lemma {:induction false} ArtifactRowsInside(days: seq<int>, records: seq<Record>, reduce: seq<Record> -> seq<Sample>,
                                              row: Row)
    requires row in ArtifactRows(days, records, reduce)
    ensures row.point.at.Some? && Day(row.point.at.value) in days
  {
    var n := |days| - 1;
    if row in ArtifactRows(days[..n], records, reduce) {
      ArtifactRowsInside(days[..n], records, reduce, row);
    } else {
      DayRowsOnDay(records, days[n], reduce, row);
    }
  }

  /** The records of each bucket day, in scan order. */
  method RecordsByDay(records: seq<Record>, buckets: seq<int>) returns (byDay: map<int, seq<Record>>)
    ensures forall d ::
      (if d in byDay then byDay[d] else []) == if d in buckets then Filter(records, RecordedOn(d)) else []
    ensures forall d :: d in byDay ==> byDay[d] != []
  {
    byDay := map[];
    for i := 0 to |records|
      invariant forall d ::
        (if d in byDay then byDay[d] else []) == if d in buckets then Filter(records[..i], RecordedOn(d)) else []
      invariant forall d :: d in byDay ==> byDay[d] != []
    {
      assert records[..i + 1][..i] == records[..i];
      var record := records[i];
      if record.selected && record.at.Some? {
        var d := Day(record.at.value);
        if d in buckets {
          byDay := byDay[d := (if d in byDay then byDay[d] else []) + [record]];
        }
      }
    }
    assert records[..|records|] == records;
  }

  /** Appends rows one by one. */
  method AppendRows(h: History, ghost before: seq<Row>, rows: seq<Row>) returns (r: History)
    requires Holds(h, before)
    ensures Holds(r, before + rows)
  {
    r := h;
    ghost var all := before;
    for i := 0 to |rows|
      invariant all == before + rows[..i] && Holds(r, all)
    {
      HoldsMore(r, all, rows[i]);
      all := all + [rows[i]];
      r := r[rows[i].metric := Series(r, rows[i].metric) + [rows[i].point]];
    }
    assert all == before + rows;
  }

  /** The rows of one day, from its records in scan order. */
  method ReduceDay(found: seq<Record>, reduce: seq<Record> -> seq<Sample>, ghost records: seq<Record>, ghost d: int)
    returns (rows: seq<Row>)
    requires found != [] && found == Filter(records, RecordedOn(d))
    ensures rows == DayRows(records, d, reduce)
  {
    var own := StableSort(found, ByTimeAndPath());
    SortPermutes(found, ByTimeAndPath());
    rows := Map(reduce(own), SampleRow(LastRecorded(own)));
  }

  /** The days with records, oldest first, are the buckets that have any. */
  method LoadRuntimeArtifactMetricHistory(existing: History, generated: nat, records: seq<Record>,
                                          reduce: seq<Record> -> seq<Sample>)
    returns (h: History)
    ensures exists d :: IsNewestDay(existing, generated, d) && Holds(h, ArtifactRows(WeekEnding(d), records, reduce))
  {
    var buckets := ReportKpiDateBuckets(existing, generated);
    h := DeriveHistory(buckets, records, reduce);
    assert IsNewestDay(existing, generated, buckets[WINDOW_DAYS - 1]);
  }

  lemma SkipDay(buckets: seq<int>, i: nat, records: seq<Record>, reduce: seq<Record> -> seq<Sample>)
    requires i < |buckets| && Filter(records, RecordedOn(buckets[i])) == []
    ensures ArtifactRows(buckets[..i + 1], records, reduce) == ArtifactRows(buckets[..i], records, reduce)
  {
    assert DayRows(records, buckets[i], reduce) == [];
    assert buckets[..i + 1][..i] == buckets[..i];
  }

  method DeriveHistory(buckets: seq<int>, records: seq<Record>, reduce: seq<Record> -> seq<Sample>) returns (h: History)
    ensures Holds(h, ArtifactRows(buckets, records, reduce))
  {
    var byDay := RecordsByDay(records, buckets);
    h := map[];
    for i := 0 to |buckets|
      invariant Holds(h, ArtifactRows(buckets[..i], records, reduce))
    {
      var day := buckets[i];
      assert buckets[..i + 1][..i] == buckets[..i];
      if day in byDay {
        var rows := ReduceDay(byDay[day], reduce, records, day);
        h := AppendRows(h, ArtifactRows(buckets[..i], records, reduce), rows);
      } else {
        SkipDay(buckets, i, records, reduce);
      }
    }
    assert buckets[..|buckets|] == buckets;
  }

  // ---------- merging ----------

  function SortInstant(p: Point): nat {
    if p.at.Some? then p.at.value else 0
  }

  function ByTime(): (Point, Point) -> bool {
    (a: Point, b: Point) => SortInstant(a) <= SortInstant(b)
  }

  /** Appends the lists of `more` to those of `h`. */
  method Extend(h: History, more: History) returns (r: History)
    ensures forall m :: Series(r, m) == Series(h, m) + Series(more, m)
  {
    r := h;
    var metrics := more.Keys;
    while metrics != {}
      invariant metrics <= more.Keys
      invariant forall m :: Series(r, m) == Series(h, m) + if m in metrics then [] else Series(more, m)
      decreases |metrics|
    {
      var m :| m in metrics;
      metrics := metrics - {m};
      r := r[m := Series(r, m) + more[m]];
    }
  }

  method SortAll(h: History) returns (sorted: History)
    ensures forall m :: Series(sorted, m) == StableSort(Series(h, m), ByTime())
  {
    sorted := h;
    var metrics := h.Keys;
    while metrics != {}
      invariant metrics <= sorted.Keys == h.Keys
      invariant forall m :: m in h ==> sorted[m] == if m in metrics then h[m] else StableSort(h[m], ByTime())
      decreases |metrics|
    {
      var m :| m in metrics;
      metrics := metrics - {m};
      sorted := sorted[m := StableSort(sorted[m], ByTime())];
    }
  }

  method MergeMetricHistories(a: History, b: History) returns (merged: History)
    ensures forall m :: Series(merged, m) == StableSort(Series(a, m) + Series(b, m), ByTime())
  {
    var first := Extend(map[], a);
    var joined := Extend(first, b);
    merged := SortAll(joined);
    forall m ensures Series(joined, m) == Series(a, m) + Series(b, m) {
      assert [] + Series(a, m) == Series(a, m);
    }
  }

  // ---------- daily values ----------

  function PreferredDailyMetricPoint(current: Option<Point>, candidate: Point): Point {
    if current.None? then candidate
    else if current.value.observed != candidate.observed then if candidate.observed then candidate else current.value
    else if SortInstant(candidate) >= SortInstant(current.value) then candidate else current.value
  }

  predicate OnDay(d: int, p: Point) {
    p.at.Some? && Day(p.at.value) == d
  }

  function AnyOn(d: int): Point -> bool {
    (p: Point) => OnDay(d, p)
  }

  function ObservedOn(d: int): Point -> bool {
    (p: Point) => OnDay(d, p) && p.observed
  }

  /** Observed points rank above the others, later points above earlier ones. */
  function ByPreference(): (Point, Point) -> bool {
    (a: Point, b: Point) => if a.observed != b.observed then b.observed else SortInstant(a) <= SortInstant(b)
  }

  function Daily(points: seq<Point>, d: int): Option<Point> {
    Best(points, AnyOn(d), ByPreference())
  }

  function DailyValue(p: Option<Point>): Option<real> {
    if p.Some? && p.value.observed then p.value.value else None
  }

  function DailyStatus(p: Option<Point>): string {
    if p.Some? && p.value.status != "" then p.value.status else "missing"
  }

  method MetricHistoryValues(h: History, metric: string, buckets: seq<int>)
    returns (values: seq<Option<real>>, statuses: seq<string>)
    ensures |values| == |statuses| == |buckets|
    ensures forall i :: 0 <= i < |buckets| ==> values[i] == DailyValue(Daily(Series(h, metric), buckets[i]))
    ensures forall i :: 0 <= i < |buckets| ==> statuses[i] == DailyStatus(Daily(Series(h, metric), buckets[i]))
  {
    var points := Series(h, metric);
    var latestByDay: map<int, Point> := map[];
    for i := 0 to |points|
      invariant forall d :: (if d in latestByDay then Some(latestByDay[d]) else None) == Daily(points[..i], d)
    {
      assert points[..i + 1][..i] == points[..i];
      if points[i].at.Some? {
        var d := Day(points[i].at.value);
        var current := if d in latestByDay then Some(latestByDay[d]) else None;
        latestByDay := latestByDay[d := PreferredDailyMetricPoint(current, points[i])];
      }
    }
    assert points[..|points|] == points;
    values, statuses := [], [];
    for i := 0 to |buckets|
      invariant |values| == |statuses| == i
      invariant forall j :: 0 <= j < i ==> values[j] == DailyValue(Daily(points, buckets[j]))
      invariant forall j :: 0 <= j < i ==> statuses[j] == DailyStatus(Daily(points, buckets[j]))
    {
      var d := buckets[i];
      if d !in latestByDay {
        values, statuses := values + [None], statuses + ["missing"];
      } else {
        var p := latestByDay[d];
        statuses := statuses + [if p.status != "" then p.status else "missing"];
        values := values + [if p.observed then p.value else None];
      }
    }
  }

  lemma PreferenceOrder()
    ensures TotalPreorder(ByPreference()) && SwapsAreStrict(ByTime(), ByPreference())
  {
  }

  lemma BestObserved(points: seq<Point>, d: int, i: nat, p: Point)
    requires IsBestAt(points, AnyOn(d), ByPreference(), i) && p in points && ObservedOn(d)(p)
    ensures points[i].observed && IsBestAt(points, ObservedOn(d), ByTime(), i)
  {
    var j :| 0 <= j < |points| && points[j] == p;
    assert AnyOn(d)(points[j]);
  }

  lemma BestUnobserved(points: seq<Point>, d: int, i: nat)
    requires IsBestAt(points, AnyOn(d), ByPreference(), i) && forall p :: p in points ==> !ObservedOn(d)(p)
    ensures !points[i].observed && IsBestAt(points, AnyOn(d), ByTime(), i)
  {
    assert points[i] in points;
    assert forall j :: 0 <= j < |points| && AnyOn(d)(points[j]) ==> points[j] in points && !points[j].observed;
  }

  /** The daily point is the last-listed one of the latest instant, among the observed points of the day
      if there are any and among all of them otherwise. */
  lemma DailyPoint(points: seq<Point>, d: int)
    ensures Daily(points, d).None? <==> forall p :: p in points ==> !OnDay(d, p)
    ensures Daily(points, d).Some? ==>
              var observed := exists p :: p in points && ObservedOn(d)(p);
              && Daily(points, d).value.observed == observed
              && exists i: nat ::
                   && IsBestAt(points, if observed then ObservedOn(d) else AnyOn(d), ByTime(), i)
                   && Daily(points, d).value == points[i]
  {
    PreferenceOrder();
    BestIsLastMaximal(points, AnyOn(d), ByPreference());
    var best := Daily(points, d);
    if best.Some? {
      var i: nat :| IsBestAt(points, AnyOn(d), ByPreference(), i) && best == Some(points[i]);
      assert points[i] in points;
      if p :| p in points && ObservedOn(d)(p) {
        BestObserved(points, d, i, p);
      } else {
        BestUnobserved(points, d, i);
      }
    } else {
      forall p | p in points ensures !OnDay(d, p) {
        var j :| 0 <= j < |points| && points[j] == p;
        assert !AnyOn(d)(points[j]);
      }
    }
  }

  /** More points never make an observed day unobserved, wherever they are put. */
  lemma MorePointsKeepObserved(points: seq<Point>, more: seq<Point>, d: int)
    requires forall p :: p in points ==> p in more
    requires Daily(points, d).Some? && Daily(points, d).value.observed
    ensures Daily(more, d).Some? && Daily(more, d).value.observed
  {
    DailyPoint(points, d);
    DailyPoint(more, d);
    var p :| p in points && ObservedOn(d)(p);
    assert p in more && OnDay(d, p);
  }

  /** Sorting by time is invisible in the daily point. */
  lemma SortingIsInvisible(points: seq<Point>, d: int)
    ensures Daily(StableSort(points, ByTime()), d) == Daily(points, d)
  {
    PreferenceOrder();
    BestOfSorted(points, AnyOn(d), ByTime(), ByPreference());
  }

  // ---------- the whole pipeline ----------

  function NewestDay(rows: seq<Row>, generated: nat): int {
    var latest := Latest(rows);
    if latest.Some? && latest.value > generated then Day(latest.value) else Day(generated)
  }

  lemma DayMonotone(s: nat, t: nat)
    requires s <= t
    ensures Day(s) <= Day(t)
  {
  }

  lemma PointsMember(rows: seq<Row>, metric: string, p: Point)
    ensures p in PointsOf(rows, metric) <==> Row(metric, p) in rows
  {
    var own := Filter(rows, OfMetric(metric));
    FilterMember(rows, OfMetric(metric), Row(metric, p));
    if p in PointsOf(rows, metric) {
      var i :| 0 <= i < |own| && own[i].point == p;
      FilterMember(rows, OfMetric(metric), own[i]);
      assert own[i] in own;
    }
    if Row(metric, p) in rows {
      var i :| 0 <= i < |own| && own[i] == Row(metric, p);
      assert PointsOf(rows, metric)[i] == p;
    }
  }

  lemma HeldPoint(h: History, rows: seq<Row>, m: string, p: Point)
    requires Holds(h, rows)
    ensures (m in h && p in h[m]) <==> Row(m, p) in rows
  {
    PointsMember(rows, m, p);
    assert Series(h, m) == PointsOf(rows, m);
  }

  /** Truncation never moves the newest day: the newest row is inside the window that it ends. */
  lemma NewestSurvives(rows: seq<Row>, h: History, generated: nat, d: int)
    requires Holds(h, Filter(rows, Recent(StartOf(rows)))) && IsNewestDay(h, generated, d)
    ensures d == NewestDay(rows, generated)
  {
    var kept := Filter(rows, Recent(StartOf(rows)));
    LatestIsLast(rows);
    if Latest(rows).Some? {
      var row :| row in rows && row.point.at == Latest(rows);
      BeforeWindow(Latest(rows).value, Latest(rows).value);
      FilterMember(rows, Recent(StartOf(rows)), row);
      HeldPoint(h, kept, row.metric, row.point);
      assert Row(row.metric, row.point) == row;
      if Latest(rows).value <= generated {
        DayMonotone(Latest(rows).value, generated);
      } else {
        DayMonotone(generated, Latest(rows).value);
      }
    }
    if d != Day(generated) {
      var m, p :| m in h && p in h[m] && p.at.Some? && Day(p.at.value) == d;
      HeldPoint(h, kept, m, p);
      FilterMember(rows, Recent(StartOf(rows)), Row(m, p));
      DayMonotone(p.at.value, Latest(rows).value);
    }
  }

  /** Artifacts never move it either: they are kept only on days that are buckets already. */
  lemma ArtifactsNeverShiftBuckets(h: History, a: History, merged: History, generated: nat, d: int, e: int,
                                   records: seq<Record>, reduce: seq<Record> -> seq<Sample>)
    requires IsNewestDay(h, generated, d) && Holds(a, ArtifactRows(WeekEnding(d), records, reduce))
    requires forall m :: Series(merged, m) == StableSort(Series(h, m) + Series(a, m), ByTime())
    requires IsNewestDay(merged, generated, e)
    ensures e == d
  {
    forall m, p ensures (m in merged && p in merged[m]) <==> (m in h && p in h[m]) || (m in a && p in a[m]) {
      SortPermutes(Series(h, m) + Series(a, m), ByTime());
      SameMembers(Series(merged, m), Series(h, m) + Series(a, m));
      assert p in Series(merged, m) <==> p in Series(h, m) + Series(a, m);
    }
    forall m, p | m in a && p in a[m] ensures p.at.Some? && Day(p.at.value) <= d {
      HeldPoint(a, ArtifactRows(WeekEnding(d), records, reduce), m, p);
      ArtifactRowsInside(WeekEnding(d), records, reduce, Row(m, p));
    }
  }

  /** Rows that are not on a day do not matter to its daily point. */
  lemma {:induction false} OtherRowsInvisible(rows: seq<Row>, keep: Row -> bool, metric: string, d: int)
    requires forall row :: row in rows && OnDay(d, row.point) ==> keep(row)
    ensures Daily(PointsOf(Filter(rows, keep), metric), d) == Daily(PointsOf(rows, metric), d)
  {
    if rows == [] {
    } else {
      var n := |rows| - 1;
      var front, row := rows[..n], rows[n];
      assert row in rows && forall r :: r in front ==> r in rows;
      OtherRowsInvisible(front, keep, metric, d);
      LastRow(rows, metric, d);
      if keep(row) {
        var kept := Filter(front, keep) + [row];
        assert kept[..|kept| - 1] == Filter(front, keep);
        LastRow(kept, metric, d);
      }
    }
  }

  /** How the last row enters the fold. */
  lemma LastRow(rows: seq<Row>, metric: string, d: int)
    requires rows != []
    ensures var row, rest := rows[|rows| - 1], Daily(PointsOf(rows[..|rows| - 1], metric), d);
            Daily(PointsOf(rows, metric), d) ==
              if row.metric == metric && OnDay(d, row.point) then Better(rest, row.point, ByPreference()) else rest
  {
    var front, row := PointsOf(rows[..|rows| - 1], metric), rows[|rows| - 1];
    var points := PointsOf(rows, metric);
    if row.metric == metric {
      assert points == front + [row.point] && points[..|points| - 1] == front;
    } else {
      assert points == front;
    }
  }

  /** Truncated rows are invisible in every bucket. */
  lemma TruncationIsInvisible(rows: seq<Row>, metric: string, rest: seq<Point>, d: int)
    requires Latest(rows).Some? ==> d >= Day(Latest(rows).value) - (WINDOW_DAYS - 1)
    ensures Daily(PointsOf(Filter(rows, Recent(StartOf(rows))), metric) + rest, d)
            == Daily(PointsOf(rows, metric) + rest, d)
  {
    forall row | row in rows && OnDay(d, row.point) ensures Recent(StartOf(rows))(row) {
      if Latest(rows).Some? {
        BeforeWindow(row.point.at.value, Latest(rows).value);
      }
    }
    OtherRowsInvisible(rows, Recent(StartOf(rows)), metric, d);
    BestThen(PointsOf(Filter(rows, Recent(StartOf(rows))), metric), PointsOf(rows, metric), rest, AnyOn(d),
             ByPreference());
  }

  lemma NewestNotBefore(rows: seq<Row>, generated: nat)
    ensures Latest(rows).Some? ==> NewestDay(rows, generated) >= Day(Latest(rows).value)
  {
    if Latest(rows).Some? && Latest(rows).value <= generated {
      DayMonotone(Latest(rows).value, generated);
    }
  }
}
