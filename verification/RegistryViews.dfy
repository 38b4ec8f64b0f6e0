/** Views derived from the registry records: summary counts, gates, previews and the action plan. */
module RegistryViews {
  import opened Basics
  import opened JsonValues
  import opened Registry

  /** How values are rendered as text, and which issue number (if any) a text refers to. */
  datatype Reader = Reader(show: Json -> string, dump: Json -> string, issueNumber: string -> Option<string>)

  // ---------- reading one record ----------

  function Text(rd: Reader, v: Json): string {
    if v.Str? then v.s else rd.show(v)
  }

  function UpperField(rd: Reader, r: Record, key: string, missing: string): string {
    Upper(Text(rd, if key in r then r[key] else Str(missing)))
  }

  /** The field reads as the word, letter by letter, its letters a to z taken for capitals. */
  ghost predicate Says(rd: Reader, r: Record, key: string, missing: string, word: string) {
    var t := if key !in r then missing else match r[key] case Str(s) => s case v => rd.show(v);
    |t| == |word| && forall i :: 0 <= i < |t| ==>
      word[i] as int == if 97 <= t[i] as int <= 122 then t[i] as int - 32 else t[i] as int
  }

  lemma FieldSays(rd: Reader, r: Record, key: string, missing: string, word: string)
    ensures UpperField(rd, r, key, missing) == word <==> Says(rd, r, key, missing, word)
  {
    var t := Text(rd, if key in r then r[key] else Str(missing));
    forall i | 0 <= i < |t|
      ensures Upper(t)[i] as int == if 97 <= t[i] as int <= 122 then t[i] as int - 32 else t[i] as int
    {
      UpperMeans(t, i);
    }
  }

  function Status(rd: Reader, r: Record): string {
    UpperField(rd, r, "status", "UNKNOWN")
  }

  function Severity(rd: Reader, r: Record): string {
    UpperField(rd, r, "severity", "")
  }

  function Category(r: Record): string {
    var c := Get(r, "category");
    if c.Str? && Strip(c.s) != "" then Strip(c.s) else "UNCATEGORIZED"
  }

  function IdText(rd: Reader, r: Record): string {
    if Truthy(Get(r, "conclusionId")) then Text(rd, Get(r, "conclusionId")) else ""
  }

  function SeenText(rd: Reader, r: Record): string {
    if Truthy(Get(r, "lastSeenAt")) then Text(rd, Get(r, "lastSeenAt"))
    else if Truthy(Get(r, "nextVerification")) then Text(rd, Get(r, "nextVerification"))
    else ""
  }

  predicate HasEvidence(v: Json) {
    match v
    case Null => false
    case Str(s) => Strip(s) != ""
    case Arr(items) => items != []
    case Obj(fields) => fields != map[]
    case _ => true
  }

  /** The linked-issue values of a record: a single value counts as a list of one. */
  function LinkedItems(v: Json): seq<Json> {
    if !HasEvidence(v) then [] else if v.Arr? then v.items else [v]
  }

  const FORBIDDEN_SINKS: set<string> := {"879", "893", "1589", "1543"}

  function StableText(rd: Reader, v: Json): string {
    match v
    case Str(s) => Strip(s)
    case Num(_) => rd.show(v)
    case Bool(_) => rd.show(v)
    case _ => rd.dump(v)
  }

  function StableTextOf(rd: Reader): Json -> string {
    (v: Json) => StableText(rd, v)
  }

  predicate IsText(s: string) {
    s != ""
  }

  /** The linked issues of a record as text: sorted, each once. */
  function LinkedIssues(rd: Reader, r: Record): seq<string> {
    var items := Filter(LinkedItems(Get(r, "linkedIssues")), HasEvidence);
    StableSort(Dedup(Filter(Map(items, StableTextOf(rd)), IsText)), TextLeq)
  }

  function InvalidIssue(rd: Reader): string -> bool {
    (issue: string) => rd.issueNumber(issue).None?
  }

  function ForbiddenIssue(rd: Reader): string -> bool {
    (issue: string) => rd.issueNumber(issue).Some? && rd.issueNumber(issue).value in FORBIDDEN_SINKS
  }

  predicate HasAllowedIssue(rd: Reader, r: Record) {
    exists i :: i in LinkedIssues(rd, r) && !InvalidIssue(rd)(i) && !ForbiddenIssue(rd)(i)
  }

  /** The fields of a record, among the given ones, that say something. */
  function EvidenceIn(r: Record, keys: set<string>): Record {
    map k | k in keys && HasEvidence(Get(r, k)) :: Get(r, k)
  }

  // ---------- ranking ----------

  datatype Rank = Rank(severity: int, status: int, seen: string, category: string, id: string)

  predicate RankLeq(a: Rank, b: Rank) {
    if a.severity != b.severity then a.severity < b.severity
    else if a.status != b.status then a.status < b.status
    else if a.seen != b.seen then TextLeq(a.seen, b.seen)
    else if a.category != b.category then TextLeq(a.category, b.category)
    else TextLeq(a.id, b.id)
  }

  lemma RankOrder()
    ensures forall a, b :: RankLeq(a, b) || RankLeq(b, a)
    ensures forall a, b, c :: RankLeq(a, b) && RankLeq(b, c) ==> RankLeq(a, c)
    ensures forall a, b :: RankLeq(a, b) && RankLeq(b, a) ==> a == b
  {
    TextLeqOrder();
  }

  function SeverityOrder(severity: string): int {
    if severity == "P0" then 0 else if severity == "P1" then 1 else if severity == "P2" then 2 else 99
  }

  function HighSeverityOrder(severity: string): int {
    if severity == "P0" then 0 else if severity == "P1" then 1 else 99
  }

  function StatusOrder(status: string): int {
    if status == "STALE" then 0 else if status == "OPEN" then 1 else 99
  }

  function GateKey(rd: Reader): Record -> Rank {
    (r: Record) => Rank(HighSeverityOrder(Severity(rd, r)), StatusOrder(GateStatus(rd, r)), SeenText(rd, r), "",
                        IdText(rd, r))
  }

  function PlanKey(rd: Reader): Record -> Rank {
    (r: Record) => Rank(HighSeverityOrder(Severity(rd, r)), StatusOrder(Status(rd, r)), SeenText(rd, r), Category(r),
                        IdText(rd, r))
  }

  function IssueKey(rd: Reader): Record -> Rank {
    (r: Record) => Rank(SeverityOrder(Severity(rd, r)), 0, SeenText(rd, r), Category(r), IdText(rd, r))
  }

  function ByRank(key: Record -> Rank): (Record, Record) -> bool {
    (a: Record, b: Record) => RankLeq(key(a), key(b))
  }

  /** The records that satisfy p, in priority order. */
  function Ranked(recs: seq<Record>, p: Record -> bool, key: Record -> Rank): seq<Record> {
    StableSort(Filter(recs, p), ByRank(key))
  }

  function Ids(rd: Reader, recs: seq<Record>): seq<string> {
    Map(Filter(recs, HasTextId), (r: Record) => IdText(rd, r))
  }

  function TextId(r: Record): string {
    if Get(r, "conclusionId").Str? then Get(r, "conclusionId").s else ""
  }

  predicate HasTextId(r: Record) {
    TextId(r) != ""
  }

  // ---------- facts about any ranked view ----------

  /** Different records carry different identifiers. */
  ghost predicate DistinctIds(rd: Reader, recs: seq<Record>) {
    forall a, b :: a in recs && b in recs && IdText(rd, a) == IdText(rd, b) ==> a == b
  }

  /** The ranking looks at the identifier last. */
  ghost predicate EndsWithId(rd: Reader, key: Record -> Rank) {
    forall r :: key(r).id == IdText(rd, r)
  }

  lemma KeysEndWithId(rd: Reader)
    ensures EndsWithId(rd, GateKey(rd)) && EndsWithId(rd, PlanKey(rd)) && EndsWithId(rd, IssueKey(rd))
  {
  }

  lemma ByRankOrder(key: Record -> Rank)
    ensures TotalPreorder(ByRank(key))
  {
    RankOrder();
  }

  lemma RankedFacts(recs: seq<Record>, p: Record -> bool, key: Record -> Rank)
    ensures SortedBy(Ranked(recs, p, key), ByRank(key))
    ensures multiset(Ranked(recs, p, key)) == multiset(Filter(recs, p))
    ensures |Ranked(recs, p, key)| == Count(recs, p)
    ensures forall r :: r in Ranked(recs, p, key) <==> r in recs && p(r)
  {
    ByRankOrder(key);
    SortSorted(Filter(recs, p), ByRank(key));
    SortPermutes(Filter(recs, p), ByRank(key));
    SameMembers(Ranked(recs, p, key), Filter(recs, p));
    FilterMembers(recs, p);
  }

  /** A ranked view does not depend on the order in which the records were inserted. */
  lemma RankedIsOrderFree(rd: Reader, a: seq<Record>, b: seq<Record>, p: Record -> bool, key: Record -> Rank)
    requires multiset(a) == multiset(b) && DistinctIds(rd, a) && EndsWithId(rd, key)
    ensures Ranked(a, p, key) == Ranked(b, p, key)
  {
    RankedFacts(a, p, key);
    RankedFacts(b, p, key);
    PermutedCount(a, b, p);
    RankedNoTies(rd, a, p, key);
    SortedUnique(Ranked(a, p, key), Ranked(b, p, key), ByRank(key));
  }

  lemma RankedNoTies(rd: Reader, recs: seq<Record>, p: Record -> bool, key: Record -> Rank)
    requires DistinctIds(rd, recs) && EndsWithId(rd, key)
    ensures NoTies(Ranked(recs, p, key), ByRank(key))
  {
    RankedFacts(recs, p, key);
    RankOrder();
    var t := Ranked(recs, p, key);
    forall x, y | x in t && y in t && ByRank(key)(x, y) && ByRank(key)(y, x) ensures x == y {
      assert key(x) == key(y);
    }
  }

  lemma TakenElement(t: seq<Record>, limit: nat, j: nat)
    requires j < limit <= |t|
    ensures t[j] in t[..limit]
  {
    assert t[..limit][j] == t[j];
  }

  lemma TopIsBetter(rd: Reader, recs: seq<Record>, p: Record -> bool, key: Record -> Rank, limit: nat, shown: Record,
                    omitted: Record)
    requires DistinctIds(rd, recs) && EndsWithId(rd, key)
    requires shown in Take(Ranked(recs, p, key), limit)
    requires omitted in recs && p(omitted) && omitted !in Take(Ranked(recs, p, key), limit)
    ensures RankLeq(key(shown), key(omitted)) && key(shown) != key(omitted)
  {
    RankedFacts(recs, p, key);
    RankedNoTies(rd, recs, p, key);
    RankOrder();
    var t := Ranked(recs, p, key);
    assert limit < |t|;
    var i :| 0 <= i < limit && t[..limit][i] == shown;
    var j :| 0 <= j < |t| && t[j] == omitted;
    forall k | 0 <= k < limit ensures t[k] in t[..limit] {
      TakenElement(t, limit, k);
    }
    assert ByRank(key)(t[i], t[j]);
    assert shown in t && omitted in t;
  }

  /** The identifiers shown are those of the records at the top. */
  lemma ShownIds(rd: Reader, t: seq<Record>, limit: nat)
    requires forall r :: r in t ==> HasTextId(r)
    ensures Take(Ids(rd, t), limit) == Map(Take(t, limit), (r: Record) => IdText(rd, r))
  {
    FilterAll(t, HasTextId);
  }

  lemma ShownRecord(rd: Reader, t: seq<Record>, limit: nat, r: Record)
    requires DistinctIds(rd, t) && r in t && forall x :: x in t ==> HasTextId(x)
    ensures IdText(rd, r) in Take(Ids(rd, t), limit) <==> r in Take(t, limit)
  {
    var top := Take(t, limit);
    ShownIds(rd, t, limit);
    var ids := Take(Ids(rd, t), limit);
    assert forall x :: x in top ==> x in t;
    if IdText(rd, r) in ids {
      var i :| 0 <= i < |ids| && ids[i] == IdText(rd, r);
      assert top[i] in top;
    }
    if r in top {
      var i :| 0 <= i < |top| && top[i] == r;
      assert ids[i] == IdText(rd, r);
    }
  }

  /** No record whose identifier is left out of a preview outranks, or ties with, one whose identifier is shown. */
  lemma PreviewIsTop(rd: Reader, recs: seq<Record>, p: Record -> bool, key: Record -> Rank, limit: nat, shown: Record,
                     omitted: Record)
    requires DistinctIds(rd, recs) && EndsWithId(rd, key) && forall r :: r in recs ==> HasTextId(r)
    requires shown in recs && p(shown) && omitted in recs && p(omitted)
    requires IdText(rd, shown) in Take(Ids(rd, Ranked(recs, p, key)), limit)
    requires IdText(rd, omitted) !in Take(Ids(rd, Ranked(recs, p, key)), limit)
    ensures RankLeq(key(shown), key(omitted)) && key(shown) != key(omitted)
  {
    RankedFacts(recs, p, key);
    ShownRecord(rd, Ranked(recs, p, key), limit, shown);
    ShownRecord(rd, Ranked(recs, p, key), limit, omitted);
    TopIsBetter(rd, recs, p, key, limit, shown, omitted);
  }

  // ---------- the stale backlog gate ----------

  const PREVIEW_LIMIT := 10
  const STALE_THRESHOLD := 10

  /** The gate reads an absent status as the empty text. */
  function GateStatus(rd: Reader, r: Record): string {
    UpperField(rd, r, "status", "")
  }

  function GateIs(rd: Reader, severity: string, status: string): Record -> bool {
    (r: Record) => Severity(rd, r) == severity && GateStatus(rd, r) == status
  }

  predicate HighSeverity(severity: string) {
    severity == "P0" || severity == "P1"
  }

  function GateUnresolved(rd: Reader): Record -> bool {
    (r: Record) => HighSeverity(Severity(rd, r)) && (GateStatus(rd, r) == "STALE" || GateStatus(rd, r) == "OPEN")
  }

  datatype Gate = Gate(staleP0: nat, staleP1: nat, openP0: nat, openP1: nat, exceeded: bool, preview: seq<string>)

  function GateOf(rd: Reader, recs: seq<Record>): Gate {
    var stale := Count(recs, GateIs(rd, "P0", "STALE")) + Count(recs, GateIs(rd, "P1", "STALE"));
    Gate(Count(recs, GateIs(rd, "P0", "STALE")), Count(recs, GateIs(rd, "P1", "STALE")),
         Count(recs, GateIs(rd, "P0", "OPEN")), Count(recs, GateIs(rd, "P1", "OPEN")), stale > STALE_THRESHOLD,
         Take(Ids(rd, Ranked(recs, GateUnresolved(rd), GateKey(rd))), PREVIEW_LIMIT))
  }

  method HighPriorityStaleIssueGate(rd: Reader, recs: seq<Record>) returns (g: Gate)
    ensures g == GateOf(rd, recs)
  {
    var s0, s1, o0, o1 := 0, 0, 0, 0;
    var unresolved: seq<Record> := [];
    assert recs[..0] == [];
    assert forall p: Record -> bool :: Count([], p) == 0;
    hide Filter, Count, Severity, GateStatus;
    for i := 0 to |recs|
      invariant s0 == Count(recs[..i], GateIs(rd, "P0", "STALE")) && s1 == Count(recs[..i], GateIs(rd, "P1", "STALE"))
      invariant o0 == Count(recs[..i], GateIs(rd, "P0", "OPEN")) && o1 == Count(recs[..i], GateIs(rd, "P1", "OPEN"))
      invariant unresolved == Filter(recs[..i], GateUnresolved(rd))
    {
      FilterStep(recs, i, GateIs(rd, "P0", "STALE"));
      FilterStep(recs, i, GateIs(rd, "P1", "STALE"));
      FilterStep(recs, i, GateIs(rd, "P0", "OPEN"));
      FilterStep(recs, i, GateIs(rd, "P1", "OPEN"));
      FilterStep(recs, i, GateUnresolved(rd));
      var severity, status := Severity(rd, recs[i]), GateStatus(rd, recs[i]);
      if HighSeverity(severity) {
        if status == "STALE" {
          if severity == "P0" { s0 := s0 + 1; } else { s1 := s1 + 1; }
          unresolved := unresolved + [recs[i]];
        } else if status == "OPEN" {
          if severity == "P0" { o0 := o0 + 1; } else { o1 := o1 + 1; }
          unresolved := unresolved + [recs[i]];
        }
      }
    }
    assert recs[..|recs|] == recs;
    g := Gate(s0, s1, o0, o1, s0 + s1 > STALE_THRESHOLD,
              Take(Ids(rd, StableSort(unresolved, ByRank(GateKey(rd)))), PREVIEW_LIMIT));
  }

  // ---------- the steward's action plan ----------

  predicate OpenOrStale(status: string) {
    status == "OPEN" || status == "STALE"
  }

  function IsCandidate(rd: Reader): Record -> bool {
    (r: Record) => HighSeverity(Severity(rd, r)) && OpenOrStale(Status(rd, r))
  }

  function WithStatus(rd: Reader, status: string): Record -> bool {
    (r: Record) => Status(rd, r) == status
  }

  function WithSeverity(rd: Reader, severity: string): Record -> bool {
    (r: Record) => Severity(rd, r) == severity
  }

  datatype Flag =
    | StatusStale | StatementSuperseded | CategorySuperseded | CategoryStale
    | LinkedIssuePresent | LandingEvidencePresent | NextVerificationPresent

  datatype Disposition =
    | CloseIfSuperseded | TriageStaleToActionedOrClosed
    | RouteCurrentBlockerForEvidence | VerifyAndRouteCurrentBlocker

  function FlagIf(condition: bool, flag: Flag): seq<Flag> {
    if condition then [flag] else []
  }

  function EvidenceFlags(rd: Reader, r: Record): seq<Flag> {
    var statement := if Truthy(Get(r, "statement")) then Text(rd, r["statement"]) else "";
    var category := Upper(Category(r));
    FlagIf(Status(rd, r) == "STALE", StatusStale)
    + FlagIf(Contains(Upper(statement), "SUPERSEDED"), StatementSuperseded)
    + FlagIf(Contains(category, "SUPERSEDED") || Contains(category, "OBSOLETE") || Contains(category, "DEPRECATED"),
             CategorySuperseded)
    + FlagIf(Contains(category, "STALE"), CategoryStale)
    + FlagIf(LinkedIssues(rd, r) != [], LinkedIssuePresent)
    + FlagIf(HasEvidence(Get(r, "requiredLandingEvidence")), LandingEvidencePresent)
    + FlagIf(HasEvidence(Get(r, "nextVerification")), NextVerificationPresent)
  }

  predicate Superseded(flags: seq<Flag>) {
    StatementSuperseded in flags || CategorySuperseded in flags
  }

  predicate LikelyStaleFlags(flags: seq<Flag>) {
    Superseded(flags) || StatusStale in flags || CategoryStale in flags
  }

  function DispositionOf(flags: seq<Flag>): Disposition {
    if Superseded(flags) then CloseIfSuperseded
    else if LikelyStaleFlags(flags) then TriageStaleToActionedOrClosed
    else if LandingEvidencePresent in flags || NextVerificationPresent in flags then RouteCurrentBlockerForEvidence
    else VerifyAndRouteCurrentBlocker
  }

  datatype Entry = Entry(id: string, status: string, severity: string, category: string, likelyStale: bool,
                         disposition: Disposition, flags: seq<Flag>, evidence: Record, issues: seq<string>)

  const ENTRY_FIELDS: set<string> := {"lastSeenAt", "requiredLandingEvidence", "nextVerification"}

  function EntryOf(rd: Reader): Record -> Entry {
    (r: Record) =>
      var flags := EvidenceFlags(rd, r);
      Entry(IdText(rd, r), Status(rd, r), Severity(rd, r), Category(r), LikelyStaleFlags(flags), DispositionOf(flags),
            flags,
            EvidenceIn(r, ENTRY_FIELDS), LinkedIssues(rd, r))
  }

  function LikelyStale(rd: Reader): Record -> bool {
    (r: Record) => LikelyStaleFlags(EvidenceFlags(rd, r))
  }

  function CurrentBlocker(rd: Reader): Record -> bool {
    (r: Record) => !LikelyStaleFlags(EvidenceFlags(rd, r))
  }

  /** The aggregate issue that work is routed to. */
  datatype Route = Route(issue: string, number: int)

  const ROUTE := Route("#1543", 1543)
  const MINIMUM_TRANSITIONS := 3

  datatype Plan = Plan(route: Route, total: nat, stale: nat, open: nat, p0: nat, p1: nat, byCategory: map<string, nat>,
                       preview: seq<string>, likelyStale: seq<Entry>, blockers: seq<Entry>, minimum: nat,
                       targetTransitions: nat)

  function WithCategory(category: string): Record -> bool {
    (r: Record) => Category(r) == category
  }

  /** How many records each category has; categories without records are absent. */
  ghost predicate CountsCategories(counts: map<string, nat>, recs: seq<Record>) {
    forall category :: (if category in counts then counts[category] else 0) == Count(recs, WithCategory(category))
                       && (category in counts ==> counts[category] > 0)
  }

  function Categories(recs: seq<Record>): map<string, nat> {
    map r | r in recs :: Category(r) := Count(recs, WithCategory(Category(r)))
  }

  lemma CategoriesCount(recs: seq<Record>)
    ensures CountsCategories(Categories(recs), recs)
  {
    forall category ensures category in Categories(recs) <==> Count(recs, WithCategory(category)) > 0 {
      FilterMembers(recs, WithCategory(category));
      var own := Filter(recs, WithCategory(category));
      if own != [] { assert own[0] in own; }
    }
  }

  lemma SameCategories(a: map<string, nat>, b: map<string, nat>, recs: seq<Record>)
    requires CountsCategories(a, recs) && CountsCategories(b, recs)
    ensures a == b
  {
    forall category ensures category in a <==> category in b {}
  }

  method CountCategories(recs: seq<Record>) returns (counts: map<string, nat>)
    ensures counts == Categories(recs)
  {
    counts := map[];
    for i := 0 to |recs|
      invariant CountsCategories(counts, recs[..i])
    {
      assert recs[..i + 1][..i] == recs[..i];
      var category := Category(recs[i]);
      counts := counts[category := (if category in counts then counts[category] else 0) + 1];
    }
    assert recs[..|recs|] == recs;
    CategoriesCount(recs);
    SameCategories(counts, Categories(recs), recs);
  }

  /** The candidates in priority order. */
  function Candidates(rd: Reader, recs: seq<Record>): seq<Record> {
    Ranked(recs, IsCandidate(rd), PlanKey(rd))
  }

  function PlanOf(rd: Reader, recs: seq<Record>, route: Route, minimum: nat, limit: nat): Plan {
    var c := Candidates(rd, recs);
    var stale := Count(c, WithStatus(rd, "STALE"));
    Plan(route, |c|, stale, Count(c, WithStatus(rd, "OPEN")), Count(c, WithSeverity(rd, "P0")),
         Count(c, WithSeverity(rd, "P1")),
         Categories(c), Take(Ids(rd, c), limit),
         Map(Filter(c, LikelyStale(rd)), EntryOf(rd)), Map(Filter(c, CurrentBlocker(rd)), EntryOf(rd)),
         minimum, if stale < minimum then stale else minimum)
  }

  /** The counts of a plan add up, by status and by severity, to the number of its candidates. */
  lemma PlanCountsAddUp(rd: Reader, recs: seq<Record>, route: Route, minimum: nat, limit: nat)
    ensures var plan := PlanOf(rd, recs, route, minimum, limit);
      && plan.stale + plan.open == plan.total && plan.p0 + plan.p1 == plan.total
      && |plan.likelyStale| + |plan.blockers| == plan.total && plan.targetTransitions <= plan.stale
      && CountsCategories(plan.byCategory, Candidates(rd, recs))
  {
    var c := Candidates(rd, recs);
    RankedFacts(recs, IsCandidate(rd), PlanKey(rd));
    FilterSplits(c, WithStatus(rd, "STALE"), WithStatus(rd, "OPEN"));
    FilterSplits(c, WithSeverity(rd, "P0"), WithSeverity(rd, "P1"));
    FilterSplits(c, LikelyStale(rd), CurrentBlocker(rd));
    CategoriesCount(c);
  }

  /** The records of a table in some order. */
  ghost predicate Lists(m: Records, recs: seq<Record>) {
    && Distinct(recs)
    && forall r :: r in recs <==> HasTextId(r) && TextId(r) in m && m[TextId(r)] == r
  }

  /** Iterating over a table yields its records; the order is up to the table. */
  method Values(m: Records) returns (recs: seq<Record>)
    requires SelfKeyed(m)
    ensures Lists(m, recs)
  {
    recs := [];
    var todo := m.Keys;
    while todo != {}
      invariant todo <= m.Keys && Distinct(recs)
      invariant forall r :: r in recs ==> HasTextId(r) && TextId(r) in m.Keys - todo && m[TextId(r)] == r
      invariant forall id :: id in m && id !in todo ==> m[id] in recs
      decreases todo
    {
      var id :| id in todo;
      assert TextId(m[id]) == id && m[id] !in recs;
      recs := recs + [m[id]];
      todo := todo - {id};
    }
  }

  lemma EntrySaysGroup(rd: Reader, r: Record)
    ensures EntryOf(rd)(r).likelyStale == LikelyStale(rd)(r) == !CurrentBlocker(rd)(r)
  {
  }

  method GroupByTriage(rd: Reader, c: seq<Record>) returns (likely: seq<Entry>, current: seq<Entry>)
    ensures likely == Map(Filter(c, LikelyStale(rd)), EntryOf(rd))
    ensures current == Map(Filter(c, CurrentBlocker(rd)), EntryOf(rd))
  {
    likely, current := [], [];
    for i := 0 to |c|
      invariant likely == Map(Filter(c[..i], LikelyStale(rd)), EntryOf(rd))
      invariant current == Map(Filter(c[..i], CurrentBlocker(rd)), EntryOf(rd))
    {
      FilterMapStep(c, i, LikelyStale(rd), EntryOf(rd));
      FilterMapStep(c, i, CurrentBlocker(rd), EntryOf(rd));
      var entry := EntryOf(rd)(c[i]);
      EntrySaysGroup(rd, c[i]);
      if entry.likelyStale {
        likely := likely + [entry];
      } else {
        current := current + [entry];
      }
    }
    assert c[..|c|] == c;
  }

  method BuildStaleConclusionActionPlan(rd: Reader, registry: Json, route: Route, minimum: int, limit: int)
    returns (r: Result<Plan, Refusal>, ghost recs: seq<Record>)
    ensures minimum < 0 || limit < 0 || Normalize(registry).Err? <==> r.Err?
    ensures r.Ok? ==> Lists(Normalize(registry).value, recs) && r.value == PlanOf(rd, recs, route, minimum, limit)
  {
    recs := [];
    if minimum < 0 || limit < 0 {
      return Err(Refused), recs;
    }
    var normalized := NormalizeConclusions(registry);
    if normalized.Err? {
      return Err(Refused), recs;
    }
    NormalizeSelfKeyed(registry);
    var values := Values(normalized.value);
    recs := values;
    var c := StableSort(Filter(values, IsCandidate(rd)), ByRank(PlanKey(rd)));
    var likely, current := GroupByTriage(rd, c);
    var stale := Count(c, WithStatus(rd, "STALE"));
    var byCategory := CountCategories(c);
    r := Ok(Plan(route, |c|, stale, Count(c, WithStatus(rd, "OPEN")), Count(c, WithSeverity(rd, "P0")),
                 Count(c, WithSeverity(rd, "P1")),
                 byCategory, Take(Ids(rd, c), limit), likely, current,
                 minimum, if stale < minimum then stale else minimum));
  }

  /** The two triage groups partition the candidates, and each keeps the priority order. */
  lemma GroupsPartitionCandidates(rd: Reader, recs: seq<Record>)
    ensures var c := Candidates(rd, recs);
            var likely, current := Filter(c, LikelyStale(rd)), Filter(c, CurrentBlocker(rd));
            && multiset(likely) + multiset(current) == multiset(Filter(recs, IsCandidate(rd)))
            && SortedBy(likely, ByRank(PlanKey(rd))) && SortedBy(current, ByRank(PlanKey(rd)))
            && |likely| + |current| == Count(recs, IsCandidate(rd))
            && (forall r :: r in c && Status(rd, r) == "STALE" ==> r in likely)
  {
    var c := Candidates(rd, recs);
    RankedFacts(recs, IsCandidate(rd), PlanKey(rd));
    FilterSplits(c, LikelyStale(rd), CurrentBlocker(rd));
    FilterSorted(c, LikelyStale(rd), ByRank(PlanKey(rd)));
    FilterSorted(c, CurrentBlocker(rd), ByRank(PlanKey(rd)));
    forall r | r in c && Status(rd, r) == "STALE" ensures r in Filter(c, LikelyStale(rd)) {
      StaleIsFlagged(rd, r);
      FilterMember(c, LikelyStale(rd), r);
    }
  }

  lemma StaleIsFlagged(rd: Reader, r: Record)
    requires Status(rd, r) == "STALE"
    ensures LikelyStale(rd)(r)
  {
    assert EvidenceFlags(rd, r)[0] == StatusStale;
  }

  lemma ListsArePermutations(m: Records, a: seq<Record>, b: seq<Record>)
    requires Lists(m, a) && Lists(m, b)
    ensures multiset(a) == multiset(b)
  {
    DistinctPermuted(a, b);
  }

  lemma ListedIdsDistinct(rd: Reader, m: Records, recs: seq<Record>)
    requires Lists(m, recs)
    ensures DistinctIds(rd, recs)
  {
    forall a, b | a in recs && b in recs && IdText(rd, a) == IdText(rd, b) ensures a == b {
      assert IdText(rd, a) == TextId(a) && IdText(rd, b) == TextId(b);
    }
  }

  /** Plan and gate previews depend only on the records, never on the order they were inserted in. */
  lemma ViewsAreOrderFree(rd: Reader, m: Records, a: seq<Record>, b: seq<Record>, route: Route, minimum: nat,
                          limit: nat)
    requires Lists(m, a) && Lists(m, b)
    ensures PlanOf(rd, a, route, minimum, limit) == PlanOf(rd, b, route, minimum, limit)
    ensures Ranked(a, GateUnresolved(rd), GateKey(rd)) == Ranked(b, GateUnresolved(rd), GateKey(rd))
    ensures Blockers(rd, a) == Blockers(rd, b)
  {
    ListsArePermutations(m, a, b);
    ListedIdsDistinct(rd, m, a);
    KeysEndWithId(rd);
    RankedIsOrderFree(rd, a, b, IsCandidate(rd), PlanKey(rd));
    RankedIsOrderFree(rd, a, b, GateUnresolved(rd), GateKey(rd));
    RankedIsOrderFree(rd, a, b, MissingIssue(rd), IssueKey(rd));
  }

  // ---------- plan against gate ----------

  function StaleHigh(rd: Reader): Record -> bool {
    (r: Record) => HighSeverity(Severity(rd, r)) && Status(rd, r) == "STALE"
  }

  lemma StatusReadersAgree(rd: Reader, r: Record, status: string)
    requires OpenOrStale(status)
    ensures GateStatus(rd, r) == status <==> Status(rd, r) == status
  {
    if "status" !in r {
      assert |Status(rd, r)| == 7 && |GateStatus(rd, r)| == 0;
    }
  }

  lemma GateCountsStaleHigh(rd: Reader, recs: seq<Record>)
    ensures Count(recs, GateIs(rd, "P0", "STALE")) + Count(recs, GateIs(rd, "P1", "STALE"))
            == Count(recs, StaleHigh(rd))
  {
    var stale := Filter(recs, StaleHigh(rd));
    FilterMembers(recs, StaleHigh(rd));
    forall r ensures GateIs(rd, "P0", "STALE")(r) <==> StaleHigh(rd)(r) && WithSeverity(rd, "P0")(r)
             ensures GateIs(rd, "P1", "STALE")(r) <==> StaleHigh(rd)(r) && WithSeverity(rd, "P1")(r)
    {
      StatusReadersAgree(rd, r, "STALE");
    }
    CountBoth(recs, StaleHigh(rd), WithSeverity(rd, "P0"), GateIs(rd, "P0", "STALE"));
    CountBoth(recs, StaleHigh(rd), WithSeverity(rd, "P1"), GateIs(rd, "P1", "STALE"));
    FilterSplits(stale, WithSeverity(rd, "P0"), WithSeverity(rd, "P1"));
  }

  lemma PlanCountsStaleHigh(rd: Reader, recs: seq<Record>)
    ensures Count(Candidates(rd, recs), WithStatus(rd, "STALE")) == Count(recs, StaleHigh(rd))
  {
    RankedFacts(recs, IsCandidate(rd), PlanKey(rd));
    PermutedCount(Candidates(rd, recs), Filter(recs, IsCandidate(rd)), WithStatus(rd, "STALE"));
    CountBoth(recs, IsCandidate(rd), WithStatus(rd, "STALE"), StaleHigh(rd));
  }

  function Survives(ids: set<string>): Record -> bool {
    (r: Record) => HasTextId(r) && TextId(r) in Survivors(ids)
  }

  function LostStale(rd: Reader, ids: set<string>): Record -> bool {
    (r: Record) => StaleHigh(rd)(r) && !Survives(ids)(r)
  }

  lemma SurvivorsListed(m: Records, recs: seq<Record>, kept: seq<Record>)
    requires Lists(m, recs) && Lists(Restrict(m, Survivors(m.Keys)), kept)
    ensures multiset(kept) == multiset(Filter(recs, Survives(m.Keys)))
  {
    FilterMembers(recs, Survives(m.Keys));
    FilterDistinct(recs, Survives(m.Keys));
    DistinctPermuted(kept, Filter(recs, Survives(m.Keys)));
  }

  lemma StaleSplitsByFate(rd: Reader, recs: seq<Record>, ids: set<string>)
    ensures Count(recs, StaleHigh(rd))
            == Count(Filter(recs, Survives(ids)), StaleHigh(rd)) + Count(recs, LostStale(rd, ids))
  {
    var lost := (r: Record) => !Survives(ids)(r);
    CountCommutes(recs, Survives(ids), StaleHigh(rd));
    FilterSplits(Filter(recs, StaleHigh(rd)), Survives(ids), lost);
    CountBoth(recs, StaleHigh(rd), lost, LostStale(rd, ids));
  }

  lemma AllSurvive(m: Records, recs: seq<Record>, r: Record)
    requires Lists(m, recs) && SafeIds(m.Keys) && r in recs
    ensures Survives(m.Keys)(r)
  {
    SafeIdsSurvive(m.Keys);
  }

  lemma NothingLost(rd: Reader, m: Records, recs: seq<Record>)
    requires Lists(m, recs) && SafeIds(m.Keys)
    ensures Count(recs, LostStale(rd, m.Keys)) == 0
  {
    var l := Filter(recs, LostStale(rd, m.Keys));
    if l != [] {
      FilterMember(recs, LostStale(rd, m.Keys), l[0]);
      AllSurvive(m, recs, l[0]);
      assert false;
    }
  }

  /** A summary takes its gate from the table itself but its plan from the table as re-read; the two
      STALE counts differ by exactly the P0/P1 STALE records that reserved identifiers hide. */
  lemma GateCountsPlanPlusLost(rd: Reader, m: Records, recs: seq<Record>, kept: seq<Record>, route: Route,
                               minimum: nat, limit: nat)
    requires SelfKeyed(m) && Lists(m, recs)
    requires Normalize(Obj(Wrap(m))).Ok? && Lists(Normalize(Obj(Wrap(m))).value, kept)
    ensures Count(recs, GateIs(rd, "P0", "STALE")) + Count(recs, GateIs(rd, "P1", "STALE"))
         == PlanOf(rd, kept, route, minimum, limit).stale + Count(recs, LostStale(rd, m.Keys))
    ensures SafeIds(m.Keys) ==> Count(recs, LostStale(rd, m.Keys)) == 0
  {
    NormalizeWrapped(m);
    SurvivorsListed(m, recs, kept);
    GateCountsStaleHigh(rd, recs);
    PlanCountsStaleHigh(rd, kept);
    PermutedCount(kept, Filter(recs, Survives(m.Keys)), StaleHigh(rd));
    StaleSplitsByFate(rd, recs, m.Keys);
    if SafeIds(m.Keys) { NothingLost(rd, m, recs); }
  }

  lemma CountCommutes(recs: seq<Record>, p: Record -> bool, q: Record -> bool)
    ensures Count(Filter(recs, p), q) == Count(Filter(recs, q), p)
  {
    var both := (r: Record) => p(r) && q(r);
    CountBoth(recs, p, q, both);
    CountBoth(recs, q, p, both);
  }

  // ---------- open conclusions without an issue ----------

  const ISSUE_PREVIEW_LIMIT := 20

  /** The severities that have to be linked to an issue while they are open. */
  predicate NeedsIssue(severity: string) {
    HighSeverity(severity) || severity == "P2"
  }

  function MissingIssue(rd: Reader): Record -> bool {
    (r: Record) => Status(rd, r) == "OPEN" && NeedsIssue(Severity(rd, r)) && !HasAllowedIssue(rd, r)
  }

  function Blockers(rd: Reader, recs: seq<Record>): seq<Record> {
    Ranked(recs, MissingIssue(rd), IssueKey(rd))
  }

  /** What the gate says about one blocking record. */
  datatype Blocked = Blocked(id: string, status: string, severity: string, category: string, issues: seq<string>,
                             invalid: seq<string>, forbidden: seq<string>, evidence: Record, statement: string)

  const BLOCKED_FIELDS: set<string> := {"ownerCron", "lastSeenAt", "nextVerification", "requiredLandingEvidence"}

  function BlockedOf(rd: Reader): Record -> Blocked {
    (r: Record) =>
      var issues := LinkedIssues(rd, r);
      Blocked(IdText(rd, r), Status(rd, r), Severity(rd, r), Category(r), issues,
              Filter(issues, InvalidIssue(rd)), Filter(issues, ForbiddenIssue(rd)), EvidenceIn(r, BLOCKED_FIELDS),
              if Get(r, "statement").Str? then Strip(Get(r, "statement").s) else "")
  }

  datatype IssueGate = IssueGate(ok: bool, count: nat, p0: nat, p1: nat, p2: nat, preview: seq<string>,
                                 blocking: seq<Blocked>)

  function IssueGateOf(rd: Reader, recs: seq<Record>, limit: nat): IssueGate {
    var b := Blockers(rd, recs);
    IssueGate(|b| == 0, |b|, Count(b, WithSeverity(rd, "P0")), Count(b, WithSeverity(rd, "P1")),
              Count(b, WithSeverity(rd, "P2")),
              Take(Ids(rd, b), limit), Map(Take(b, limit), BlockedOf(rd)))
  }

  /** The gate passes exactly if no record lacks an issue, its count is that of the records that do, and its
      severities add up to it. */
  lemma IssueGateAddsUp(rd: Reader, recs: seq<Record>, limit: nat, gate: IssueGate)
    requires gate == IssueGateOf(rd, recs, limit)
    ensures gate.ok <==> Count(recs, MissingIssue(rd)) == 0
    ensures gate.count == Count(recs, MissingIssue(rd)) && gate.p0 + gate.p1 + gate.p2 == gate.count
  {
    BlockersAddUp(rd, recs, Blockers(rd, recs));
  }

  lemma IssueGatePasses(rd: Reader, recs: seq<Record>, limit: nat)
    ensures IssueGateOf(rd, recs, limit).ok <==> forall i :: 0 <= i < |recs| ==> !MissingIssue(rd)(recs[i])
  {
    IssueGateAddsUp(rd, recs, limit, IssueGateOf(rd, recs, limit));
    CountZero(recs, MissingIssue(rd));
  }

  lemma BlockersAddUp(rd: Reader, recs: seq<Record>, b: seq<Record>)
    requires b == Blockers(rd, recs)
    ensures |b| == Count(recs, MissingIssue(rd))
    ensures Count(b, WithSeverity(rd, "P0")) + Count(b, WithSeverity(rd, "P1")) + Count(b, WithSeverity(rd, "P2"))
            == |b|
  {
    RankedFacts(recs, MissingIssue(rd), IssueKey(rd));
    forall r | r in b ensures NeedsIssue(Severity(rd, r)) {
      assert MissingIssue(rd)(r);
    }
    BlockerSeverities(rd, b);
  }

  method BuildOpenConclusionLinkedIssueGate(rd: Reader, registry: Json, limit: int)
    returns (r: Result<IssueGate, Refusal>, ghost recs: seq<Record>)
    ensures limit < 0 || Normalize(registry).Err? <==> r.Err?
    ensures r.Ok? ==> Lists(Normalize(registry).value, recs) && r.value == IssueGateOf(rd, recs, limit)
  {
    recs := [];
    if limit < 0 {
      return Err(Refused), recs;
    }
    var normalized := NormalizeConclusions(registry);
    if normalized.Err? {
      return Err(Refused), recs;
    }
    NormalizeSelfKeyed(registry);
    var values := Values(normalized.value);
    recs := values;
    var blockers := StableSort(Filter(values, MissingIssue(rd)), ByRank(IssueKey(rd)));
    r := Ok(IssueGate(|blockers| == 0, |blockers|,
                      Count(blockers, WithSeverity(rd, "P0")), Count(blockers, WithSeverity(rd, "P1")),
                      Count(blockers, WithSeverity(rd, "P2")), Take(Ids(rd, blockers), limit),
                      Map(Take(blockers, limit), BlockedOf(rd))));
  }

  lemma {:induction false} BlockerSeverities(rd: Reader, recs: seq<Record>)
    requires forall r :: r in recs ==> NeedsIssue(Severity(rd, r))
    ensures Count(recs, WithSeverity(rd, "P0")) + Count(recs, WithSeverity(rd, "P1"))
            + Count(recs, WithSeverity(rd, "P2")) == |recs|
  {
    if recs == [] {
    } else {
      var front, last := recs[..|recs| - 1], recs[|recs| - 1];
      assert last in recs && forall r :: r in front ==> r in recs;
      BlockerSeverities(rd, front);
    }
  }

  // ---------- the summary ----------

  datatype StatusCounts = StatusCounts(byStatus: map<string, nat>, open: nat, actioned: nat, validating: nat,
                                       staleOrEscalated: nat, unknown: nat)

  datatype Summary = Summary(total: nat, added: nat, closedThisWindow: nat, statuses: StatusCounts,
                             gate: Gate, plan: Plan, issueGate: IssueGate)

  predicate KnownStatus(status: string) {
    || status == "OPEN" || status == "STALE" || status == "ACTIONED"
    || status == "VALIDATING" || status == "CLOSED" || status == "ESCALATED"
  }

  function UnknownStatus(rd: Reader): Record -> bool {
    (r: Record) => !KnownStatus(Status(rd, r))
  }

  function Tally(counts: map<string, nat>, status: string): nat {
    if status in counts then counts[status] else 0
  }

  /** The six known statuses and the unknown ones account for every record. */
  lemma {:induction false} StatusesAddUp(rd: Reader, recs: seq<Record>)
    ensures Count(recs, WithStatus(rd, "OPEN")) + Count(recs, WithStatus(rd, "STALE"))
          + Count(recs, WithStatus(rd, "ACTIONED"))
          + Count(recs, WithStatus(rd, "VALIDATING")) + Count(recs, WithStatus(rd, "CLOSED"))
          + Count(recs, WithStatus(rd, "ESCALATED"))
          + Count(recs, UnknownStatus(rd)) == |recs|
  {
    if recs == [] {
    } else {
      StatusesAddUp(rd, recs[..|recs| - 1]);
    }
  }

  const KNOWN_STATUSES: set<string> := {"OPEN", "STALE", "ACTIONED", "VALIDATING", "CLOSED", "ESCALATED"}

  /** The count of every status; the known ones are listed even if no record has them. */
  ghost predicate CountsStatuses(rd: Reader, counts: map<string, nat>, recs: seq<Record>) {
    forall status :: Tally(counts, status) == Count(recs, WithStatus(rd, status))
                     && (status in counts <==> status in KNOWN_STATUSES || Count(recs, WithStatus(rd, status)) > 0)
  }

  lemma SameStatuses(rd: Reader, a: map<string, nat>, b: map<string, nat>, recs: seq<Record>)
    requires CountsStatuses(rd, a, recs) && CountsStatuses(rd, b, recs)
    ensures a == b
  {
    forall status ensures (status in a <==> status in b) && Tally(a, status) == Tally(b, status) {}
  }

  function NoCounts(): map<string, nat> {
    map status | status in KNOWN_STATUSES :: 0
  }

  lemma NothingCounted(rd: Reader)
    ensures CountsStatuses(rd, NoCounts(), []) && Count([], UnknownStatus(rd)) == 0
  {
    hide KnownStatus, Status;
  }

  lemma OneStatusMore(rd: Reader, counts: map<string, nat>, recs: seq<Record>, r: Record)
    requires CountsStatuses(rd, counts, recs)
    ensures CountsStatuses(rd, counts[Status(rd, r) := Tally(counts, Status(rd, r)) + 1], recs + [r])
  {
    assert (recs + [r])[..|recs|] == recs;
  }

  lemma OneUnknownMore(rd: Reader, recs: seq<Record>, r: Record)
    ensures Count(recs + [r], UnknownStatus(rd))
            == Count(recs, UnknownStatus(rd)) + if KnownStatus(Status(rd, r)) then 0 else 1
  {
    assert (recs + [r])[..|recs|] == recs;
  }

  method TallyStatuses(rd: Reader, recs: seq<Record>) returns (counts: map<string, nat>, unknown: nat)
    ensures CountsStatuses(rd, counts, recs)
    ensures unknown == Count(recs, UnknownStatus(rd))
  {
    hide CountsStatuses, KnownStatus, Status, Count;
    counts, unknown := NoCounts(), 0;
    NothingCounted(rd);
    assert recs[..0] == [];
    for i := 0 to |recs|
      invariant CountsStatuses(rd, counts, recs[..i])
      invariant unknown == Count(recs[..i], UnknownStatus(rd))
    {
      assert recs[..i + 1] == recs[..i] + [recs[i]];
      OneStatusMore(rd, counts, recs[..i], recs[i]);
      OneUnknownMore(rd, recs[..i], recs[i]);
      var status := Status(rd, recs[i]);
      counts := counts[status := Tally(counts, status) + 1];
      unknown := unknown + if KnownStatus(status) then 0 else 1;
    }
    assert recs[..|recs|] == recs;
  }

  /** All status counters of a list of records. */
  ghost predicate AreStatusCounts(rd: Reader, c: StatusCounts, recs: seq<Record>) {
    && CountsStatuses(rd, c.byStatus, recs)
    && c.open == Count(recs, WithStatus(rd, "OPEN")) && c.actioned == Count(recs, WithStatus(rd, "ACTIONED"))
    && c.validating == Count(recs, WithStatus(rd, "VALIDATING"))
    && c.staleOrEscalated == Count(recs, WithStatus(rd, "STALE")) + Count(recs, WithStatus(rd, "ESCALATED"))
    && c.unknown == Count(recs, UnknownStatus(rd))
  }

  method CountStatuses(rd: Reader, recs: seq<Record>) returns (c: StatusCounts)
    ensures AreStatusCounts(rd, c, recs)
    ensures c.open + c.actioned + c.validating + c.staleOrEscalated + Tally(c.byStatus, "CLOSED") + c.unknown == |recs|
  {
    var counts, unknown := TallyStatuses(rd, recs);
    StatusesAddUp(rd, recs);
    c := StatusCounts(counts, Tally(counts, "OPEN"), Tally(counts, "ACTIONED"), Tally(counts, "VALIDATING"),
                      Tally(counts, "STALE") + Tally(counts, "ESCALATED"), unknown);
  }

  lemma SameStatusCounts(rd: Reader, m: Records, c: StatusCounts, d: StatusCounts, a: seq<Record>, b: seq<Record>)
    requires Lists(m, a) && Lists(m, b) && AreStatusCounts(rd, c, a) && AreStatusCounts(rd, d, b)
    ensures c == d
  {
    ListsArePermutations(m, a, b);
    forall status ensures Count(a, WithStatus(rd, status)) == Count(b, WithStatus(rd, status)) {
      PermutedCount(a, b, WithStatus(rd, status));
    }
    PermutedCount(a, b, UnknownStatus(rd));
    SameStatuses(rd, c.byStatus, d.byStatus, a);
  }

  lemma ListedMember(m: Records, recs: seq<Record>, id: string)
    requires Lists(m, recs) && SelfKeyed(m) && id in m
    ensures m[id] in recs
  {
    assert TextId(m[id]) == id;
  }

  lemma {:induction false} ListLength(m: Records, recs: seq<Record>)
    requires Lists(m, recs) && SelfKeyed(m)
    ensures |recs| == |m|
  {
    if recs == [] {
      if id :| id in m {
        ListedMember(m, recs, id);
        assert false;
      }
    } else {
      hide Lists;
      var id := WithoutLast(m, recs);
      ListLength(m - {id}, recs[..|recs| - 1]);
      assert (m - {id}).Keys == m.Keys - {id};
    }
  }

  lemma WithoutLast(m: Records, recs: seq<Record>) returns (id: string)
    requires recs != [] && Lists(m, recs) && SelfKeyed(m)
    ensures id in m && Lists(m - {id}, recs[..|recs| - 1]) && SelfKeyed(m - {id})
  {
    var last := recs[|recs| - 1];
    assert last in recs;
    id := TextId(last);
    MembersWithoutOne(recs, |recs| - 1);
    assert recs[..|recs| - 1] + recs[|recs| - 1 + 1..] == recs[..|recs| - 1];
  }

  // Every table can be listed; which listing is taken does not show in the summary.

  lemma WithOneMore(m: Records, id: string, rest: seq<Record>)
    requires SelfKeyed(m) && id in m && Lists(m - {id}, rest)
    ensures Lists(m, rest + [m[id]])
  {
    assert TextId(m[id]) == id && m[id] !in rest;
  }

  lemma {:induction false} ListingExists(m: Records) returns (recs: seq<Record>)
    requires SelfKeyed(m)
    ensures Lists(m, recs)
    decreases |m|
  {
    recs := [];
    if m == map[] {
    } else {
      hide Lists;
      var id :| id in m;
      var rest := ListingExists(m - {id});
      WithOneMore(m, id, rest);
      recs := rest + [m[id]];
    }
  }

  /** What a summary of a table is. */
  ghost predicate IsSummary(rd: Reader, m: Records, added: nat, closed: nat, s: Summary) {
    exists recs, kept ::
      && Lists(m, recs) && Lists(Restrict(m, Survivors(m.Keys)), kept)
      && SummarizesLists(rd, m, added, closed, s, recs, kept)
  }

  /** Counters and gate look at the table itself, plan and issue gate at what can be read back. */
  ghost predicate SummarizesLists(rd: Reader, m: Records, added: nat, closed: nat, s: Summary, recs: seq<Record>,
                                  kept: seq<Record>) {
    && s.total == |m| && s.added == added && s.closedThisWindow == closed
    && AreStatusCounts(rd, s.statuses, recs) && s.gate == GateOf(rd, recs)
    && s.plan == PlanOf(rd, kept, ROUTE, MINIMUM_TRANSITIONS, PREVIEW_LIMIT)
    && s.issueGate == IssueGateOf(rd, kept, ISSUE_PREVIEW_LIMIT)
  }

  lemma GateIsOrderFree(rd: Reader, m: Records, a: seq<Record>, b: seq<Record>)
    requires Lists(m, a) && Lists(m, b)
    ensures GateOf(rd, a) == GateOf(rd, b)
  {
    ViewsAreOrderFree(rd, m, a, b, ROUTE, 0, 0);
    ListsArePermutations(m, a, b);
    PermutedCount(a, b, GateIs(rd, "P0", "STALE"));
    PermutedCount(a, b, GateIs(rd, "P1", "STALE"));
    PermutedCount(a, b, GateIs(rd, "P0", "OPEN"));
    PermutedCount(a, b, GateIs(rd, "P1", "OPEN"));
  }

  /** A table has exactly one summary, whatever order its records are visited in. */
  lemma SummaryIsDetermined(rd: Reader, m: Records, added: nat, closed: nat, s: Summary, t: Summary)
    requires IsSummary(rd, m, added, closed, s) && IsSummary(rd, m, added, closed, t)
    ensures s == t
  {
    hide Lists, GateOf, PlanOf, AreStatusCounts, Blockers, Restrict, Survivors;
    var a, x :| Lists(m, a) && Lists(Restrict(m, Survivors(m.Keys)), x)
        && SummarizesLists(rd, m, added, closed, s, a, x);
    var b, y :| Lists(m, b) && Lists(Restrict(m, Survivors(m.Keys)), y)
        && SummarizesLists(rd, m, added, closed, t, b, y);
    SameStatusCounts(rd, m, s.statuses, t.statuses, a, b);
    GateIsOrderFree(rd, m, a, b);
    ViewsAreOrderFree(rd, Restrict(m, Survivors(m.Keys)), x, y, ROUTE, MINIMUM_TRANSITIONS, PREVIEW_LIMIT);
  }

  method SummarizeConclusions(rd: Reader, m: Records, added: nat, closed: nat) returns (s: Summary)
    requires SelfKeyed(m)
    ensures IsSummary(rd, m, added, closed, s)
  {
    var values := Values(m);
    var statuses := CountStatuses(rd, values);
    var gate := HighPriorityStaleIssueGate(rd, values);
    NormalizeWrapped(m);
    ghost var kept, other;
    var plan, issues;
    plan, kept := BuildStaleConclusionActionPlan(rd, Obj(Wrap(m)), ROUTE, MINIMUM_TRANSITIONS, PREVIEW_LIMIT);
    issues, other := BuildOpenConclusionLinkedIssueGate(rd, Obj(Wrap(m)), ISSUE_PREVIEW_LIMIT);
    ViewsAreOrderFree(rd, Restrict(m, Survivors(m.Keys)), kept, other, ROUTE, 0, 0);
    s := Summary(|m|, added, closed, statuses, gate, plan.value, issues.value);
    assert SummarizesLists(rd, m, added, closed, s, values, kept);
  }

  /** The parts of a summary agree: the counters add up to the total, and the gate's STALE count is the
      plan's plus the records that reserved identifiers hide, which are none if the identifiers are safe. */
  lemma SummaryAgrees(rd: Reader, m: Records, added: nat, closed: nat, s: Summary, recs: seq<Record>)
    requires SelfKeyed(m) && IsSummary(rd, m, added, closed, s) && Lists(m, recs)
    ensures var c := s.statuses;
      && c.open + c.actioned + c.validating + c.staleOrEscalated + Tally(c.byStatus, "CLOSED") + c.unknown == s.total
      && s.gate.staleP0 + s.gate.staleP1 == s.plan.stale + Count(recs, LostStale(rd, m.Keys))
      && (SafeIds(m.Keys) ==> s.gate.staleP0 + s.gate.staleP1 == s.plan.stale)
  {
    hide Lists, PlanOf, IssueGateOf, SelfKeyed, Survivors, Restrict;
    var a, kept :| Lists(m, a) && Lists(Restrict(m, Survivors(m.Keys)), kept)
        && SummarizesLists(rd, m, added, closed, s, a, kept);
    StatusesAddUp(rd, a);
    ListLength(m, a);
    NormalizeWrapped(m);
    GateCountsPlanPlusLost(rd, m, a, kept, ROUTE, MINIMUM_TRANSITIONS, PREVIEW_LIMIT);
    ListsArePermutations(m, a, recs);
    PermutedCount(a, recs, LostStale(rd, m.Keys));
  }

  lemma CountsExist(rd: Reader, recs: seq<Record>) returns (counts: map<string, nat>)
    ensures CountsStatuses(rd, counts, recs)
  {
    hide CountsStatuses, Status;
    if recs == [] {
      NothingCounted(rd);
      counts := NoCounts();
    } else {
      var front, last := recs[..|recs| - 1], recs[|recs| - 1];
      var before := CountsExist(rd, front);
      assert recs == front + [last];
      OneStatusMore(rd, before, front, last);
      counts := before[Status(rd, last) := Tally(before, Status(rd, last)) + 1];
    }
  }

  lemma StatusCountsExist(rd: Reader, recs: seq<Record>) returns (c: StatusCounts)
    ensures AreStatusCounts(rd, c, recs)
  {
    var counts := CountsExist(rd, recs);
    hide CountsStatuses, Count;
    c := StatusCounts(counts, Count(recs, WithStatus(rd, "OPEN")), Count(recs, WithStatus(rd, "ACTIONED")),
                      Count(recs, WithStatus(rd, "VALIDATING")),
                      Count(recs, WithStatus(rd, "STALE")) + Count(recs, WithStatus(rd, "ESCALATED")),
                      Count(recs, UnknownStatus(rd)));
  }

  lemma SummaryExists(rd: Reader, m: Records, added: nat, closed: nat) returns (s: Summary)
    requires SelfKeyed(m)
    ensures IsSummary(rd, m, added, closed, s)
  {
    var recs := ListingExists(m);
    var kept := ListingExists(Restrict(m, Survivors(m.Keys)));
    var c := StatusCountsExist(rd, recs);
    s := Summary(|m|, added, closed, c, GateOf(rd, recs), PlanOf(rd, kept, ROUTE, MINIMUM_TRANSITIONS, PREVIEW_LIMIT),
                 IssueGateOf(rd, kept, ISSUE_PREVIEW_LIMIT));
    assert SummarizesLists(rd, m, added, closed, s, recs, kept);
  }

  /** The summary of a table. */
  ghost function SummaryOf(rd: Reader, m: Records, added: nat, closed: nat): (s: Summary)
    requires SelfKeyed(m)
    ensures IsSummary(rd, m, added, closed, s)
  {
    assert exists s :: IsSummary(rd, m, added, closed, s) by {
      var s := SummaryExists(rd, m, added, closed);
    }
    var s :| IsSummary(rd, m, added, closed, s);
    s
  }

  lemma NothingListed(m: Records, kept: seq<Record>)
    requires SelfKeyed(m) && Survivors(m.Keys) == {} && Lists(Restrict(m, Survivors(m.Keys)), kept)
    ensures kept == []
  {
    ListLength(Restrict(m, {}), kept);
    assert Restrict(m, {}) == map[];
  }

  lemma OnlyListed(m: Records, recs: seq<Record>, id: string)
    requires SelfKeyed(m) && m.Keys == {id} && Lists(m, recs)
    ensures recs == [m[id]]
  {
    ListLength(m, recs);
    ListedMember(m, recs, id);
  }

  lemma CountOne(r: Record, p: Record -> bool)
    ensures Count([r], p) == if p(r) then 1 else 0
  {
    FilterOne(r, p);
  }

  /** A table of one urgent stale record that cannot be read back: the gate counts it, the plan does not. */
  lemma HiddenIsNotPlanned(rd: Reader, m: Records, id: string, added: nat, closed: nat, s: Summary)
    requires SelfKeyed(m) && m.Keys == {id} && Survivors(m.Keys) == {} && StaleHigh(rd)(m[id])
    requires IsSummary(rd, m, added, closed, s)
    ensures s.gate.staleP0 + s.gate.staleP1 == 1 && s.plan.stale == 0
  {
    hide Lists, AreStatusCounts, IssueGateOf, Restrict, Survivors, SelfKeyed, StaleHigh, Candidates, Ranked,
         Categories, Count;
    var a, kept :| Lists(m, a) && Lists(Restrict(m, Survivors(m.Keys)), kept)
        && SummarizesLists(rd, m, added, closed, s, a, kept);
    OnlyListed(m, a, id);
    NothingListed(m, kept);
    GateCountsStaleHigh(rd, a);
    CountOne(m[id], StaleHigh(rd));
    PlanCountsStaleHigh(rd, kept);
    CountZero(kept, StaleHigh(rd));
  }

  function UrgentStale(id: string): Record {
    map["conclusionId" := Str(id), "severity" := Str("P0"), "status" := Str("STALE")]
  }

  lemma UrgentStaleIsHigh(rd: Reader, id: string)
    ensures StaleHigh(rd)(UrgentStale(id))
  {
    assert Upper("P0") == "P0";
    assert Upper("STALE") == "STALE";
  }

  /** An urgent stale record filed under the identifier "summary" is counted by the gate but not planned for. */
  lemma GateExceedsPlan(rd: Reader)
    ensures var m: Records := map["summary" := UrgentStale("summary")];
      SelfKeyed(m) && var s := SummaryOf(rd, m, 0, 0); s.gate.staleP0 + s.gate.staleP1 == 1 && s.plan.stale == 0
  {
    var m: Records := map["summary" := UrgentStale("summary")];
    assert METADATA_KEYS[6] == "summary";
    assert m.Keys == {"summary"};
    NoReservedIds(m.Keys);
    UrgentStaleIsHigh(rd, "summary");
    HiddenIsNotPlanned(rd, m, "summary", 0, 0, SummaryOf(rd, m, 0, 0));
  }
}
