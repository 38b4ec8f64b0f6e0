/** Plan, gates and summary of the registry in the words of the records. */
module RegistryReports {
  import opened Basics
  import opened JsonValues
  import opened Registry
  import opened RegistryViews
  import opened RegistryTriage

  // ---------- what is said about one record ----------

  ghost predicate IsSuperseded(rd: Reader, r: Record) {
    Flagged(rd, r, StatementSuperseded) || Flagged(rd, r, CategorySuperseded)
  }

  ghost predicate IsLikelyStale(rd: Reader, r: Record) {
    IsSuperseded(rd, r) || Flagged(rd, r, StatusStale) || Flagged(rd, r, CategoryStale)
  }

  ghost function Advice(rd: Reader, r: Record): Disposition {
    if IsSuperseded(rd, r) then CloseIfSuperseded
    else if IsLikelyStale(rd, r) then TriageStaleToActionedOrClosed
    else if Flagged(rd, r, LandingEvidencePresent) || Flagged(rd, r, NextVerificationPresent)
    then RouteCurrentBlockerForEvidence
    else VerifyAndRouteCurrentBlocker
  }

  /** The fields, of these, that say something. */
  ghost predicate AreTelling(r: Record, keys: set<string>, evidence: Record) {
    && (forall k :: k in evidence <==> k in keys && k in r && Tells(r[k]))
    && forall k :: k in evidence ==> evidence[k] == r[k]
  }

  ghost predicate AreLinked(rd: Reader, r: Record, issues: seq<string>) {
    && (forall issue :: issue in issues <==> IsLinked(rd, r, issue)) && Distinct(issues)
    && forall i, j :: 0 <= i < j < |issues| ==> TextLeq(issues[i], issues[j])
  }

  /** What the plan says about a record. */
  ghost predicate IsEntry(rd: Reader, r: Record, e: Entry) {
    && e.id == Named(rd, r) && StatusIs(rd, r, e.status) && SeverityIs(rd, r, e.severity) && CategoryIs(r, e.category)
    && (e.likelyStale <==> IsLikelyStale(rd, r)) && e.disposition == Advice(rd, r)
    && InFlagOrder(e.flags) && (forall flag :: flag in e.flags <==> Flagged(rd, r, flag))
    && AreTelling(r, {"lastSeenAt", "requiredLandingEvidence", "nextVerification"}, e.evidence)
    && AreLinked(rd, r, e.issues)
  }

  lemma TellingReads(r: Record, keys: set<string>)
    ensures AreTelling(r, keys, EvidenceIn(r, keys))
  {
    forall k ensures HasEvidence(Get(r, k)) <==> k in r && Tells(r[k]) {
      TellsMeans(Get(r, k));
    }
    hide HasEvidence, Tells;
  }

  lemma LikelyReads(rd: Reader, r: Record)
    ensures LikelyStale(rd)(r) <==> IsLikelyStale(rd, r)
    ensures CurrentBlocker(rd)(r) <==> !IsLikelyStale(rd, r)
    ensures DispositionOf(EvidenceFlags(rd, r)) == Advice(rd, r)
  {
    FlagsRead(rd, r);
    hide EvidenceFlags, Flagged;
  }

  /** An entry of the plan says about a record what the record says. */
  lemma EntryReads(rd: Reader, r: Record)
    ensures IsEntry(rd, r, EntryOf(rd)(r))
  {
    FlagsRead(rd, r);
    LikelyReads(rd, r);
    LinkedReads(rd, r);
    CategoryReads(r);
    NamedReads(rd, r);
    StatusReads(rd, r, Status(rd, r));
    StatusReads(rd, r, Severity(rd, r));
    TellingReads(r, ENTRY_FIELDS);
    hide EvidenceFlags, Flagged, LinkedIssues, IsLinked, Category, CategoryIs, Status, Severity, StatusIs, SeverityIs,
         IdText, Named, EvidenceIn, AreTelling, IsLikelyStale, Advice, InFlagOrder, DispositionOf, TextLeq;
  }

  /** An open record that has to be linked to an issue of its own and is not. */
  ghost predicate LacksIssue(rd: Reader, r: Record) {
    && StatusIs(rd, r, "OPEN") && (IsUrgent(rd, r) || SeverityIs(rd, r, "P2")) && !HasOwnIssue(rd, r)
  }

  function NoNumber(rd: Reader): string -> bool {
    (issue: string) => rd.issueNumber(issue).None?
  }

  function SinkNumber(rd: Reader): string -> bool {
    (issue: string) => rd.issueNumber(issue).Some? && IsSink(rd.issueNumber(issue).value)
  }

  /** What the issue gate says about a record. */
  ghost predicate IsBlocked(rd: Reader, r: Record, b: Blocked) {
    && b.id == Named(rd, r) && StatusIs(rd, r, b.status) && SeverityIs(rd, r, b.severity) && CategoryIs(r, b.category)
    && AreLinked(rd, r, b.issues)
    && IsSublist(b.issues, NoNumber(rd), b.invalid) && IsSublist(b.issues, SinkNumber(rd), b.forbidden)
    && AreTelling(r, {"ownerCron", "lastSeenAt", "nextVerification", "requiredLandingEvidence"}, b.evidence)
    && if "statement" in r && r["statement"].Str? then IsStripped(r["statement"].s, b.statement) else b.statement == ""
  }

  lemma SplitIssues(rd: Reader, issues: seq<string>)
    ensures IsSublist(issues, NoNumber(rd), Filter(issues, InvalidIssue(rd)))
    ensures IsSublist(issues, SinkNumber(rd), Filter(issues, ForbiddenIssue(rd)))
  {
    SublistAlso(issues, InvalidIssue(rd), NoNumber(rd));
    SublistAlso(issues, ForbiddenIssue(rd), SinkNumber(rd));
  }

  /** And so does an entry of the issue gate. */
  lemma BlockedReads(rd: Reader, r: Record)
    ensures IsBlocked(rd, r, BlockedOf(rd)(r))
  {
    hide LinkedIssues, IsLinked, Category, CategoryIs, Status, Severity, StatusIs, SeverityIs, IdText, Named,
         EvidenceIn, AreTelling, IsSublist, Filter, Strip, IsStripped, TextLeq, NoNumber, SinkNumber, InvalidIssue,
         ForbiddenIssue;
    LinkedReads(rd, r);
    CategoryReads(r);
    NamedReads(rd, r);
    StatusReads(rd, r, Status(rd, r));
    StatusReads(rd, r, Severity(rd, r));
    TellingReads(r, BLOCKED_FIELDS);
    SplitIssues(rd, LinkedIssues(rd, r));
    if "statement" in r && r["statement"].Str? {
      StripIs(r["statement"].s);
    }
  }

  // ---------- in which order ----------

  ghost function UrgencyPlace(rd: Reader, r: Record): int {
    if SeverityIs(rd, r, "P0") then 0 else if SeverityIs(rd, r, "P1") then 1 else 99
  }

  ghost function SeverityPlace(rd: Reader, r: Record): int {
    if SeverityIs(rd, r, "P2") then 2 else UrgencyPlace(rd, r)
  }

  ghost function StatusPlace(rd: Reader, r: Record): int {
    if StatusIs(rd, r, "STALE") then 0 else if StatusIs(rd, r, "OPEN") then 1 else 99
  }

  /** Seen longer ago, then by category if that matters, then by identifier. */
  ghost predicate OlderFirst(rd: Reader, a: Record, b: Record, byCategory: bool) {
    if Seen(rd, a) != Seen(rd, b) then TextLeq(Seen(rd, a), Seen(rd, b))
    else if byCategory && Category(a) != Category(b) then TextLeq(Category(a), Category(b))
    else TextLeq(Named(rd, a), Named(rd, b))
  }

  /** The order of the gate's preview and of the plan: by severity, then stale before open, then by age. */
  ghost predicate UrgentFirst(rd: Reader, a: Record, b: Record, byCategory: bool) {
    if UrgencyPlace(rd, a) != UrgencyPlace(rd, b) then UrgencyPlace(rd, a) < UrgencyPlace(rd, b)
    else if StatusPlace(rd, a) != StatusPlace(rd, b) then StatusPlace(rd, a) < StatusPlace(rd, b)
    else OlderFirst(rd, a, b, byCategory)
  }

  /** The order of the issue gate: by severity, then by age. */
  ghost predicate SevereFirst(rd: Reader, a: Record, b: Record) {
    if SeverityPlace(rd, a) != SeverityPlace(rd, b) then SeverityPlace(rd, a) < SeverityPlace(rd, b)
    else OlderFirst(rd, a, b, true)
  }

  lemma PlacesRead(rd: Reader, r: Record)
    ensures HighSeverityOrder(Severity(rd, r)) == UrgencyPlace(rd, r)
    ensures SeverityOrder(Severity(rd, r)) == SeverityPlace(rd, r)
    ensures StatusOrder(Status(rd, r)) == StatusPlace(rd, r) && StatusOrder(GateStatus(rd, r)) == StatusPlace(rd, r)
    ensures SeenText(rd, r) == Seen(rd, r) && IdText(rd, r) == Named(rd, r)
  {
    StatusReads(rd, r, "P0");
    StatusReads(rd, r, "P1");
    StatusReads(rd, r, "P2");
    StatusReads(rd, r, "STALE");
    StatusReads(rd, r, "OPEN");
    StatusReadersAgree(rd, r, "STALE");
    StatusReadersAgree(rd, r, "OPEN");
    SeenReads(rd, r);
    NamedReads(rd, r);
    hide Status, Severity, GateStatus, Says, SeenText, Seen, IdText, Named;
  }

  lemma KeysRead(rd: Reader, r: Record)
    ensures GateKey(rd)(r) == Rank(UrgencyPlace(rd, r), StatusPlace(rd, r), Seen(rd, r), "", Named(rd, r))
    ensures PlanKey(rd)(r) == Rank(UrgencyPlace(rd, r), StatusPlace(rd, r), Seen(rd, r), Category(r), Named(rd, r))
    ensures IssueKey(rd)(r) == Rank(SeverityPlace(rd, r), 0, Seen(rd, r), Category(r), Named(rd, r))
  {
    PlacesRead(rd, r);
    hide Status, Severity, GateStatus, SeenText, Seen, IdText, Named, Category, HighSeverityOrder, SeverityOrder,
         StatusOrder, UrgencyPlace, SeverityPlace, StatusPlace;
  }

  /** The ranks compare as the records do. */
  lemma OrderReads(rd: Reader, a: Record, b: Record)
    ensures ByRank(GateKey(rd))(a, b) <==> UrgentFirst(rd, a, b, false)
    ensures ByRank(PlanKey(rd))(a, b) <==> UrgentFirst(rd, a, b, true)
    ensures ByRank(IssueKey(rd))(a, b) <==> SevereFirst(rd, a, b)
  {
    KeysRead(rd, a);
    KeysRead(rd, b);
    hide GateKey, PlanKey, IssueKey, Seen, Named, Category, UrgencyPlace, SeverityPlace, StatusPlace, TextLeq;
  }

  // ---------- the views ----------

  /** The records that qualify, each once, in order. */
  ghost predicate IsRanking(recs: seq<Record>, chosen: Record -> bool, first: (Record, Record) -> bool,
                            ranking: seq<Record>) {
    && (forall r :: r in ranking <==> r in recs && chosen(r)) && Distinct(ranking)
    && forall i, j :: 0 <= i < j < |ranking| ==> first(ranking[i], ranking[j])
  }

  /** The identifiers of the first records, as many as may be shown. */
  ghost predicate IsPreview(ranking: seq<Record>, limit: nat, ids: seq<string>) {
    && |ids| == (if |ranking| < limit then |ranking| else limit)
    && forall i :: 0 <= i < |ids| ==> "conclusionId" in ranking[i] && ranking[i]["conclusionId"] == Str(ids[i])
  }

  lemma RankingReads(recs: seq<Record>, p: Record -> bool, key: Record -> Rank, chosen: Record -> bool,
                     first: (Record, Record) -> bool)
    requires Distinct(recs) && forall r :: r in recs ==> (p(r) <==> chosen(r))
    requires forall a, b :: ByRank(key)(a, b) ==> first(a, b)
    ensures IsRanking(recs, chosen, first, Ranked(recs, p, key))
  {
    RankedFacts(recs, p, key);
    FilterDistinct(recs, p);
    DistinctPermutation(Filter(recs, p), Ranked(recs, p, key));
    hide Ranked;
    var ranking := Ranked(recs, p, key);
    forall i, j | 0 <= i < j < |ranking| ensures first(ranking[i], ranking[j]) {
      assert ByRank(key)(ranking[i], ranking[j]);
    }
  }

  lemma PreviewReads(rd: Reader, ranking: seq<Record>, limit: nat)
    requires forall r :: r in ranking ==> HasTextId(r)
    ensures IsPreview(ranking, limit, Take(Ids(rd, ranking), limit))
  {
    ShownIds(rd, ranking, limit);
    hide Ids;
    var ids := Take(Ids(rd, ranking), limit);
    forall i | 0 <= i < |ids| ensures "conclusionId" in ranking[i] && ranking[i]["conclusionId"] == Str(ids[i]) {
      assert ranking[i] in ranking;
      assert ids[i] == IdText(rd, ranking[i]);
    }
  }

  lemma ListedHaveIds(m: Records, recs: seq<Record>)
    requires Lists(m, recs)
    ensures forall r :: r in recs ==> HasTextId(r)
  {
  }

  ghost function StatusReading(rd: Reader, word: string): Record -> bool {
    (r: Record) => StatusIs(rd, r, word)
  }

  ghost function SeverityReading(rd: Reader, word: string): Record -> bool {
    (r: Record) => SeverityIs(rd, r, word)
  }

  lemma CountsRead(rd: Reader, recs: seq<Record>, word: string)
    ensures Count(recs, WithStatus(rd, word)) == |Places(recs, StatusReading(rd, word))|
    ensures Count(recs, WithSeverity(rd, word)) == |Places(recs, SeverityReading(rd, word))|
  {
    forall r ensures WithStatus(rd, word)(r) <==> StatusReading(rd, word)(r)
             ensures WithSeverity(rd, word)(r) <==> SeverityReading(rd, word)(r)
    {
      StatusReads(rd, r, word);
    }
    CountAlso(recs, WithStatus(rd, word), StatusReading(rd, word));
    CountAlso(recs, WithSeverity(rd, word), SeverityReading(rd, word));
  }

  // the gate

  ghost predicate IsBacklog(rd: Reader, r: Record) {
    IsUrgent(rd, r) && (StatusIs(rd, r, "STALE") || StatusIs(rd, r, "OPEN"))
  }

  ghost function Backlog(rd: Reader): Record -> bool {
    (r: Record) => IsBacklog(rd, r)
  }

  ghost function UrgencyOrder(rd: Reader, byCategory: bool): (Record, Record) -> bool {
    (a: Record, b: Record) => UrgentFirst(rd, a, b, byCategory)
  }

  ghost function Both(rd: Reader, severity: string, status: string): Record -> bool {
    (r: Record) => SeverityIs(rd, r, severity) && StatusIs(rd, r, status)
  }

  /** The gate of a table: how many P0 and P1 records are stale and open, whether more than ten are stale, and
      which of them come first. */
  ghost predicate IsGate(rd: Reader, recs: seq<Record>, g: Gate) {
    && g.staleP0 == |Places(recs, Both(rd, "P0", "STALE"))| && g.staleP1 == |Places(recs, Both(rd, "P1", "STALE"))|
    && g.openP0 == |Places(recs, Both(rd, "P0", "OPEN"))| && g.openP1 == |Places(recs, Both(rd, "P1", "OPEN"))|
    && (g.exceeded <==> g.staleP0 + g.staleP1 > 10)
    && exists ranking ::
         IsRanking(recs, Backlog(rd), UrgencyOrder(rd, false), ranking) && IsPreview(ranking, 10, g.preview)
  }

  lemma GateConditions(rd: Reader, r: Record)
    ensures GateUnresolved(rd)(r) <==> Backlog(rd)(r)
    ensures IsCandidate(rd)(r) <==> Backlog(rd)(r)
    ensures GateIs(rd, "P0", "STALE")(r) <==> Both(rd, "P0", "STALE")(r)
    ensures GateIs(rd, "P1", "STALE")(r) <==> Both(rd, "P1", "STALE")(r)
    ensures GateIs(rd, "P0", "OPEN")(r) <==> Both(rd, "P0", "OPEN")(r)
    ensures GateIs(rd, "P1", "OPEN")(r) <==> Both(rd, "P1", "OPEN")(r)
  {
    StatusReads(rd, r, "P0");
    StatusReads(rd, r, "P1");
    StatusReads(rd, r, "STALE");
    StatusReads(rd, r, "OPEN");
    StatusReadersAgree(rd, r, "STALE");
    StatusReadersAgree(rd, r, "OPEN");
    hide Status, Severity, GateStatus, Says, StatusIs, SeverityIs;
  }

  /** The gate is that of a ranking of the urgent records that are open or stale. */
  lemma GateReads(rd: Reader, m: Records, recs: seq<Record>)
    requires Lists(m, recs)
    ensures IsGate(rd, recs, GateOf(rd, recs))
  {
    forall r ensures (GateUnresolved(rd)(r) <==> Backlog(rd)(r))
        && (GateIs(rd, "P0", "STALE")(r) <==> Both(rd, "P0", "STALE")(r))
        && (GateIs(rd, "P1", "STALE")(r) <==> Both(rd, "P1", "STALE")(r))
        && (GateIs(rd, "P0", "OPEN")(r) <==> Both(rd, "P0", "OPEN")(r))
        && (GateIs(rd, "P1", "OPEN")(r) <==> Both(rd, "P1", "OPEN")(r))
    {
      GateConditions(rd, r);
    }
    forall a, b ensures ByRank(GateKey(rd))(a, b) ==> UrgencyOrder(rd, false)(a, b) {
      OrderReads(rd, a, b);
    }
    ListedHaveIds(m, recs);
    RankedFacts(recs, GateUnresolved(rd), GateKey(rd));
    hide Ranked, Ids, GateUnresolved, GateIs, GateKey, Backlog, Both, UrgencyOrder, Places, Count, IsPreview, IsRanking,
         ByRank;
    CountAlso(recs, GateIs(rd, "P0", "STALE"), Both(rd, "P0", "STALE"));
    CountAlso(recs, GateIs(rd, "P1", "STALE"), Both(rd, "P1", "STALE"));
    CountAlso(recs, GateIs(rd, "P0", "OPEN"), Both(rd, "P0", "OPEN"));
    CountAlso(recs, GateIs(rd, "P1", "OPEN"), Both(rd, "P1", "OPEN"));
    RankingReads(recs, GateUnresolved(rd), GateKey(rd), Backlog(rd), UrgencyOrder(rd, false));
    PreviewReads(rd, Ranked(recs, GateUnresolved(rd), GateKey(rd)), 10);
  }

  // the plan

  ghost function Likely(rd: Reader): Record -> bool {
    (r: Record) => IsLikelyStale(rd, r)
  }

  ghost function Current(rd: Reader): Record -> bool {
    (r: Record) => !IsLikelyStale(rd, r)
  }

  /** One entry for each of these records, in order. */
  ghost predicate AreEntries(rd: Reader, ranking: seq<Record>, p: Record -> bool, entries: seq<Entry>) {
    exists own ::
      IsSublist(ranking, p, own) && |entries| == |own| && forall i :: 0 <= i < |own| ==> IsEntry(rd, own[i], entries[i])
  }

  function InCategory(category: string): Record -> bool {
    (r: Record) => Category(r) == category
  }

  ghost predicate CountsByCategory(ranking: seq<Record>, counts: map<string, nat>) {
    forall category :: |Places(ranking, InCategory(category))| == (if category in counts then counts[category] else 0)
                       && (category in counts ==> counts[category] > 0)
  }

  /** The plan for a table. */
  ghost predicate IsPlan(rd: Reader, recs: seq<Record>, route: Route, minimum: nat, limit: nat, plan: Plan) {
    exists ranking ::
      && IsRanking(recs, Backlog(rd), UrgencyOrder(rd, true), ranking)
      && IsPlanFor(rd, ranking, route, minimum, limit, plan)
  }

  ghost predicate IsPlanFor(rd: Reader, ranking: seq<Record>, route: Route, minimum: nat, limit: nat, plan: Plan) {
    && plan.route == route && plan.minimum == minimum && plan.total == |ranking|
    && plan.stale == |Places(ranking, StatusReading(rd, "STALE"))|
    && plan.open == |Places(ranking, StatusReading(rd, "OPEN"))|
    && plan.p0 == |Places(ranking, SeverityReading(rd, "P0"))|
    && plan.p1 == |Places(ranking, SeverityReading(rd, "P1"))|
    && plan.targetTransitions == (if plan.stale < minimum then plan.stale else minimum)
    && CountsByCategory(ranking, plan.byCategory) && IsPreview(ranking, limit, plan.preview)
    && AreEntries(rd, ranking, Likely(rd), plan.likelyStale) && AreEntries(rd, ranking, Current(rd), plan.blockers)
  }

  lemma EntriesFor(rd: Reader, ranking: seq<Record>, p: Record -> bool, q: Record -> bool)
    requires forall r :: r in ranking ==> (p(r) <==> q(r))
    ensures AreEntries(rd, ranking, q, Map(Filter(ranking, p), EntryOf(rd)))
  {
    SublistAlso(ranking, p, q);
    var own := Filter(ranking, p);
    hide IsEntry, EntryOf, IsSublist, Filter;
    forall i | 0 <= i < |own| ensures IsEntry(rd, own[i], Map(own, EntryOf(rd))[i]) {
      EntryReads(rd, own[i]);
    }
  }

  lemma EntriesRead(rd: Reader, ranking: seq<Record>)
    ensures AreEntries(rd, ranking, Likely(rd), Map(Filter(ranking, LikelyStale(rd)), EntryOf(rd)))
    ensures AreEntries(rd, ranking, Current(rd), Map(Filter(ranking, CurrentBlocker(rd)), EntryOf(rd)))
  {
    forall r ensures (LikelyStale(rd)(r) <==> Likely(rd)(r)) && (CurrentBlocker(rd)(r) <==> Current(rd)(r)) {
      LikelyReads(rd, r);
    }
    hide LikelyStale, CurrentBlocker, Likely, Current, EntryOf, AreEntries, Filter;
    EntriesFor(rd, ranking, LikelyStale(rd), Likely(rd));
    EntriesFor(rd, ranking, CurrentBlocker(rd), Current(rd));
  }

  lemma CategoriesRead(ranking: seq<Record>)
    ensures CountsByCategory(ranking, Categories(ranking))
  {
    CategoriesCount(ranking);
    forall category ensures Count(ranking, WithCategory(category)) == |Places(ranking, InCategory(category))| {
      CountAlso(ranking, WithCategory(category), InCategory(category));
    }
    hide Categories, Category, Count, Places;
  }

  lemma PlanRanking(rd: Reader, m: Records, recs: seq<Record>)
    requires Lists(m, recs)
    ensures IsRanking(recs, Backlog(rd), UrgencyOrder(rd, true), Candidates(rd, recs))
    ensures forall r :: r in Candidates(rd, recs) ==> HasTextId(r)
  {
    forall r ensures IsCandidate(rd)(r) <==> Backlog(rd)(r) {
      GateConditions(rd, r);
    }
    forall a, b ensures ByRank(PlanKey(rd))(a, b) ==> UrgencyOrder(rd, true)(a, b) {
      OrderReads(rd, a, b);
    }
    ListedHaveIds(m, recs);
    hide Ranked, IsCandidate, PlanKey, Backlog, UrgencyOrder, IsRanking, ByRank, HasTextId;
    RankedFacts(recs, IsCandidate(rd), PlanKey(rd));
    RankingReads(recs, IsCandidate(rd), PlanKey(rd), Backlog(rd), UrgencyOrder(rd, true));
  }

  /** The plan is that of a ranking of the same records. */
  lemma PlanReads(rd: Reader, m: Records, recs: seq<Record>, route: Route, minimum: nat, limit: nat)
    requires Lists(m, recs)
    ensures IsPlan(rd, recs, route, minimum, limit, PlanOf(rd, recs, route, minimum, limit))
  {
    var c := Candidates(rd, recs);
    hide Candidates, Ids, Backlog, UrgencyOrder, Places, Count, IsPreview, IsRanking, AreEntries, CountsByCategory,
         Filter, LikelyStale, CurrentBlocker, EntryOf, Categories, Likely, Current, HasTextId, StatusReading,
         SeverityReading, WithStatus, WithSeverity;
    PlanRanking(rd, m, recs);
    PreviewReads(rd, c, limit);
    EntriesRead(rd, c);
    CategoriesRead(c);
    CountsRead(rd, c, "STALE");
    CountsRead(rd, c, "OPEN");
    CountsRead(rd, c, "P0");
    CountsRead(rd, c, "P1");
    assert IsPlanFor(rd, c, route, minimum, limit, PlanOf(rd, recs, route, minimum, limit));
  }

  // the issue gate

  ghost function Lacking(rd: Reader): Record -> bool {
    (r: Record) => LacksIssue(rd, r)
  }

  ghost function SeverityOrdered(rd: Reader): (Record, Record) -> bool {
    (a: Record, b: Record) => SevereFirst(rd, a, b)
  }

  /** The issue gate of a table: it passes if no record lacks an issue, and otherwise counts and shows them. */
  ghost predicate IsIssueGate(rd: Reader, recs: seq<Record>, limit: nat, gate: IssueGate) {
    exists ranking ::
      && IsRanking(recs, Lacking(rd), SeverityOrdered(rd), ranking)
      && (gate.ok <==> ranking == []) && gate.count == |ranking|
      && gate.p0 == |Places(ranking, SeverityReading(rd, "P0"))|
      && gate.p1 == |Places(ranking, SeverityReading(rd, "P1"))|
      && gate.p2 == |Places(ranking, SeverityReading(rd, "P2"))| && IsPreview(ranking, limit, gate.preview)
      && |gate.blocking| == (if |ranking| < limit then |ranking| else limit)
      && forall i :: 0 <= i < |gate.blocking| ==> IsBlocked(rd, ranking[i], gate.blocking[i])
  }

  lemma LackingReads(rd: Reader, r: Record)
    ensures MissingIssue(rd)(r) <==> LacksIssue(rd, r)
  {
    StatusReads(rd, r, "OPEN");
    StatusReads(rd, r, "P0");
    StatusReads(rd, r, "P1");
    StatusReads(rd, r, "P2");
    OwnIssueReads(rd, r);
    hide Status, Severity, Says, HasAllowedIssue, HasOwnIssue, StatusIs, SeverityIs;
  }

  lemma IssueRanking(rd: Reader, m: Records, recs: seq<Record>)
    requires Lists(m, recs)
    ensures IsRanking(recs, Lacking(rd), SeverityOrdered(rd), Blockers(rd, recs))
    ensures forall r :: r in Blockers(rd, recs) ==> HasTextId(r)
  {
    forall r ensures MissingIssue(rd)(r) <==> Lacking(rd)(r) {
      LackingReads(rd, r);
    }
    forall a, b ensures ByRank(IssueKey(rd))(a, b) ==> SeverityOrdered(rd)(a, b) {
      OrderReads(rd, a, b);
    }
    ListedHaveIds(m, recs);
    hide Ranked, MissingIssue, IssueKey, Lacking, SeverityOrdered, IsRanking, ByRank, HasTextId;
    RankedFacts(recs, MissingIssue(rd), IssueKey(rd));
    RankingReads(recs, MissingIssue(rd), IssueKey(rd), Lacking(rd), SeverityOrdered(rd));
  }

  lemma BlockedShown(rd: Reader, ranking: seq<Record>, limit: nat)
    ensures var shown := Map(Take(ranking, limit), BlockedOf(rd));
      && |shown| == (if |ranking| < limit then |ranking| else limit)
      && forall i :: 0 <= i < |shown| ==> IsBlocked(rd, ranking[i], shown[i])
  {
    hide BlockedOf, IsBlocked;
    var shown := Map(Take(ranking, limit), BlockedOf(rd));
    forall i | 0 <= i < |shown| ensures IsBlocked(rd, ranking[i], shown[i]) {
      BlockedReads(rd, ranking[i]);
    }
  }

  /** The issue gate is that of a ranking of the open records that lack an issue. */
  lemma IssueGateReads(rd: Reader, m: Records, recs: seq<Record>, limit: nat)
    requires Lists(m, recs)
    ensures IsIssueGate(rd, recs, limit, IssueGateOf(rd, recs, limit))
  {
    var b := Blockers(rd, recs);
    hide Blockers, Ids, Lacking, SeverityOrdered, Places, Count, IsPreview, IsRanking, BlockedOf, IsBlocked, HasTextId,
         SeverityReading, WithSeverity, Take, Map;
    IssueRanking(rd, m, recs);
    PreviewReads(rd, b, limit);
    BlockedShown(rd, b, limit);
    CountsRead(rd, b, "P0");
    CountsRead(rd, b, "P1");
    CountsRead(rd, b, "P2");
  }

  // ---------- the summary ----------

  predicate IsKnown(word: string) {
    word in {"OPEN", "STALE", "ACTIONED", "VALIDATING", "CLOSED", "ESCALATED"}
  }

  /** Every status counted; the known ones are listed even if no record has them. */
  ghost predicate AreTallies(rd: Reader, recs: seq<Record>, counts: map<string, nat>) {
    forall word :: |Places(recs, StatusReading(rd, word))| == (if word in counts then counts[word] else 0)
                   && (word in counts <==> IsKnown(word) || |Places(recs, StatusReading(rd, word))| > 0)
  }

  ghost predicate AreStatuses(rd: Reader, recs: seq<Record>, c: StatusCounts) {
    && AreTallies(rd, recs, c.byStatus)
    && c.open == |Places(recs, StatusReading(rd, "OPEN"))|
    && c.actioned == |Places(recs, StatusReading(rd, "ACTIONED"))|
    && c.validating == |Places(recs, StatusReading(rd, "VALIDATING"))|
    && c.staleOrEscalated
       == |Places(recs, StatusReading(rd, "STALE"))| + |Places(recs, StatusReading(rd, "ESCALATED"))|
    && c.unknown == |Places(recs, Unlisted(rd))|
  }

  ghost function Unlisted(rd: Reader): Record -> bool {
    (r: Record) => forall word :: IsKnown(word) ==> !StatusIs(rd, r, word)
  }

  lemma UnlistedReads(rd: Reader, r: Record)
    ensures UnknownStatus(rd)(r) <==> Unlisted(rd)(r)
  {
    forall word ensures Status(rd, r) == word <==> StatusIs(rd, r, word) {
      StatusReads(rd, r, word);
    }
    hide Status, Says, StatusIs;
    assert KnownStatus(Status(rd, r)) <==> IsKnown(Status(rd, r));
  }

  lemma KnownReads(word: string)
    ensures word in KNOWN_STATUSES <==> IsKnown(word)
  {
  }

  lemma TallyReads(rd: Reader, recs: seq<Record>, counts: map<string, nat>, word: string)
    requires CountsStatuses(rd, counts, recs)
    ensures |Places(recs, StatusReading(rd, word))| == if word in counts then counts[word] else 0
    ensures word in counts <==> IsKnown(word) || |Places(recs, StatusReading(rd, word))| > 0
  {
    CountsRead(rd, recs, word);
    KnownReads(word);
    hide Count, Places, WithStatus, StatusReading, IsKnown;
    assert Tally(counts, word) == Count(recs, WithStatus(rd, word));
  }

  lemma UnknownRead(rd: Reader, recs: seq<Record>)
    ensures Count(recs, UnknownStatus(rd)) == |Places(recs, Unlisted(rd))|
  {
    forall r ensures UnknownStatus(rd)(r) <==> Unlisted(rd)(r) {
      UnlistedReads(rd, r);
    }
    hide UnknownStatus, Unlisted, Count, Places;
    CountAlso(recs, UnknownStatus(rd), Unlisted(rd));
  }

  lemma TalliesRead(rd: Reader, recs: seq<Record>, counts: map<string, nat>)
    requires CountsStatuses(rd, counts, recs)
    ensures AreTallies(rd, recs, counts)
  {
    hide CountsStatuses, Places, StatusReading, IsKnown;
    forall word
      ensures |Places(recs, StatusReading(rd, word))| == (if word in counts then counts[word] else 0)
      ensures word in counts <==> IsKnown(word) || |Places(recs, StatusReading(rd, word))| > 0
    {
      TallyReads(rd, recs, counts, word);
    }
  }

  lemma StatusesRead(rd: Reader, recs: seq<Record>, c: StatusCounts)
    requires AreStatusCounts(rd, c, recs)
    ensures AreStatuses(rd, recs, c)
  {
    hide Count, Places, WithStatus, StatusReading, UnknownStatus, Unlisted, IsKnown, CountsStatuses, AreTallies;
    UnknownRead(rd, recs);
    TalliesRead(rd, recs, c.byStatus);
    CountsRead(rd, recs, "OPEN");
    CountsRead(rd, recs, "ACTIONED");
    CountsRead(rd, recs, "VALIDATING");
    CountsRead(rd, recs, "STALE");
    CountsRead(rd, recs, "ESCALATED");
  }

  /** The summary of a table m: statuses and gate of all its records; plan and issue gate of those that can be read
      back, with work routed to issue 1543, at least three transitions, and ten and twenty records shown. */
  ghost predicate IsSummaryOf(rd: Reader, m: Records, added: nat, closed: nat, s: Summary) {
    exists recs, kept ::
      && Lists(m, recs) && Lists(Restrict(m, Survivors(m.Keys)), kept)
      && s.total == |m.Keys| && s.added == added && s.closedThisWindow == closed
      && AreStatuses(rd, recs, s.statuses) && IsGate(rd, recs, s.gate)
      && IsPlan(rd, kept, Route("#1543", 1543), 3, 10, s.plan) && IsIssueGate(rd, kept, 20, s.issueGate)
  }

  /** A summary says what the records of the table say. */
  lemma SummaryReads(rd: Reader, m: Records, added: nat, closed: nat, s: Summary)
    requires IsSummary(rd, m, added, closed, s)
    ensures IsSummaryOf(rd, m, added, closed, s)
  {
    hide Lists, AreStatusCounts, GateOf, PlanOf, IssueGateOf, AreStatuses, IsGate, IsPlan, IsIssueGate, Restrict,
         Survivors;
    var recs, kept :| Lists(m, recs) && Lists(Restrict(m, Survivors(m.Keys)), kept)
        && SummarizesLists(rd, m, added, closed, s, recs, kept);
    StatusesRead(rd, recs, s.statuses);
    GateReads(rd, m, recs);
    PlanReads(rd, Restrict(m, Survivors(m.Keys)), kept, ROUTE, MINIMUM_TRANSITIONS, PREVIEW_LIMIT);
    IssueGateReads(rd, Restrict(m, Survivors(m.Keys)), kept, ISSUE_PREVIEW_LIMIT);
  }
}
