/** The views of the registry in the words of the records: which records they take, in which order, and what
    they say about each. */
module RegistryTriage {
  import opened Basics
  import opened JsonValues
  import opened Registry
  import opened RegistryViews

  // ---------- reading one record ----------

  ghost predicate StatusIs(rd: Reader, r: Record, word: string) {
    Says(rd, r, "status", "UNKNOWN", word)
  }

  ghost predicate SeverityIs(rd: Reader, r: Record, word: string) {
    Says(rd, r, "severity", "", word)
  }

  ghost predicate IsUrgent(rd: Reader, r: Record) {
    SeverityIs(rd, r, "P0") || SeverityIs(rd, r, "P1")
  }

  lemma StatusReads(rd: Reader, r: Record, word: string)
    ensures Status(rd, r) == word <==> StatusIs(rd, r, word)
    ensures Severity(rd, r) == word <==> SeverityIs(rd, r, word)
    ensures word != "" ==> (GateStatus(rd, r) == word <==> Says(rd, r, "status", "", word))
  {
    FieldSays(rd, r, "status", "UNKNOWN", word);
    FieldSays(rd, r, "severity", "", word);
    FieldSays(rd, r, "status", "", word);
  }

  predicate IsBlank(s: string) {
    OnlySpaces(s)
  }

  /** A value says something unless it is null, a blank text, or an empty list or object. */
  predicate Tells(v: Json) {
    match v
    case Null => false
    case Str(s) => !IsBlank(s)
    case Arr(items) => |items| > 0
    case Obj(fields) => fields != map[]
    case _ => true
  }

  lemma PartOf(s: string, a: string, t: string, b: string)
    requires s == a + t + b
    ensures OnlySpaces(s) ==> t == "" || OnlySpaces([t[0]])
  {
    assert forall c :: c in t ==> c in s;
    assert t != "" ==> t[0] in t;
  }

  lemma BlankStrips(s: string)
    ensures Strip(s) == "" <==> IsBlank(s)
  {
    var a, b := StripMeans(s);
    var t := Strip(s);
    PartOf(s, a, t, b);
  }

  lemma TellsMeans(v: Json)
    ensures HasEvidence(v) <==> Tells(v)
  {
    if v.Str? {
      BlankStrips(v.s);
    }
  }

  /** What counts as absent where a default is filled in. */
  predicate Falsy(v: Json) {
    v == Null || v == Bool(false) || v == Num(0.0) || v == Str("") || v == Arr([]) || v == Obj(map[])
  }

  lemma TruthyMeans(v: Json)
    ensures Truthy(v) <==> !Falsy(v)
  {
  }

  /** A text without the blanks at its ends. */
  ghost predicate IsStripped(s: string, t: string) {
    && (exists a, b :: s == a + t + b && OnlySpaces(a) && OnlySpaces(b))
    && (t != "" ==> !OnlySpaces([t[0]]) && !OnlySpaces([t[|t| - 1]]))
  }

  lemma StripIs(s: string)
    ensures IsStripped(s, Strip(s))
  {
    var a, b := StripMeans(s);
  }

  /** The category of a record is its text without surrounding blanks, if there is one. */
  ghost predicate CategoryIs(r: Record, category: string) {
    if "category" in r && r["category"].Str? && !IsBlank(r["category"].s) then IsStripped(r["category"].s, category)
    else category == "UNCATEGORIZED"
  }

  lemma CategoryReads(r: Record)
    ensures CategoryIs(r, Category(r))
  {
    hide Strip, IsStripped, OnlySpaces;
    if "category" in r && r["category"].Str? {
      BlankStrips(r["category"].s);
      StripIs(r["category"].s);
    }
  }

  function Shown(rd: Reader, v: Json): string {
    match v
    case Str(s) => s
    case _ => rd.show(v)
  }

  /** When a record was last seen: or, failing that, when it is to be verified next. */
  function Seen(rd: Reader, r: Record): string {
    if "lastSeenAt" in r && !Falsy(r["lastSeenAt"]) then Shown(rd, r["lastSeenAt"])
    else if "nextVerification" in r && !Falsy(r["nextVerification"]) then Shown(rd, r["nextVerification"])
    else ""
  }

  lemma SeenReads(rd: Reader, r: Record)
    ensures SeenText(rd, r) == Seen(rd, r)
  {
  }

  function Named(rd: Reader, r: Record): string {
    if "conclusionId" in r && !Falsy(r["conclusionId"]) then Shown(rd, r["conclusionId"]) else ""
  }

  lemma NamedReads(rd: Reader, r: Record)
    ensures IdText(rd, r) == Named(rd, r)
  {
  }

  // ---------- linked issues ----------

  /** The stable text of a linked value. */
  ghost predicate IsLinkText(rd: Reader, v: Json, text: string) {
    match v
    case Str(s) => IsStripped(s, text)
    case Num(_) => text == rd.show(v)
    case Bool(_) => text == rd.show(v)
    case _ => text == rd.dump(v)
  }

  /** The values linked: those of a list, or a single one. */
  predicate IsLinkedValue(r: Record, v: Json) {
    && "linkedIssues" in r && Tells(v)
    && match r["linkedIssues"]
       case Arr(items) => v in items
       case single => v == single
  }

  ghost predicate IsLinked(rd: Reader, r: Record, issue: string) {
    issue != "" && exists v :: IsLinkedValue(r, v) && issue == StableText(rd, v)
  }

  lemma LinkTextReads(rd: Reader, v: Json)
    ensures IsLinkText(rd, v, StableText(rd, v))
  {
    if v.Str? {
      StripIs(v.s);
    }
  }

  lemma LinkedValues(r: Record)
    ensures forall v :: v in Filter(LinkedItems(Get(r, "linkedIssues")), HasEvidence) <==> IsLinkedValue(r, v)
  {
    var items := LinkedItems(Get(r, "linkedIssues"));
    FilterMembers(items, HasEvidence);
    forall v ensures v in items && HasEvidence(v) <==> IsLinkedValue(r, v) {
      TellsMeans(v);
      TellsMeans(Get(r, "linkedIssues"));
    }
  }

  lemma LinkedTexts(rd: Reader, r: Record)
    ensures var texts := Map(Filter(LinkedItems(Get(r, "linkedIssues")), HasEvidence), StableTextOf(rd));
      forall issue :: issue in Filter(texts, IsText) <==> IsLinked(rd, r, issue)
  {
    var items := Filter(LinkedItems(Get(r, "linkedIssues")), HasEvidence);
    var texts := Map(items, StableTextOf(rd));
    LinkedValues(r);
    hide HasEvidence, StableText, IsLinkedValue, LinkedItems, Filter;
    FilterMembers(texts, IsText);
    forall issue ensures issue in texts && issue != "" <==> IsLinked(rd, r, issue) {
      if issue in texts {
        var k :| 0 <= k < |texts| && texts[k] == issue;
        assert items[k] in items;
      }
      if IsLinked(rd, r, issue) {
        var v :| IsLinkedValue(r, v) && issue == StableText(rd, v);
        var k :| 0 <= k < |items| && items[k] == v;
        assert texts[k] == issue;
      }
    }
  }

  lemma SortedOnce(texts: seq<string>)
    ensures var all := StableSort(Dedup(texts), TextLeq);
      && (forall x :: x in all <==> x in texts) && Distinct(all)
      && forall i, j :: 0 <= i < j < |all| ==> TextLeq(all[i], all[j])
  {
    var dedup := Dedup(texts);
    hide Dedup, TextLeq, StableSort;
    SortPermutes(dedup, TextLeq);
    SameMembers(dedup, StableSort(dedup, TextLeq));
    DistinctPermutation(dedup, StableSort(dedup, TextLeq));
    TextLeqOrder();
    SortSorted(dedup, TextLeq);
  }

  /** The linked issues of a record are its linked texts, each once and in order. */
  lemma LinkedReads(rd: Reader, r: Record)
    ensures forall issue :: issue in LinkedIssues(rd, r) <==> IsLinked(rd, r, issue)
    ensures Distinct(LinkedIssues(rd, r))
    ensures var issues := LinkedIssues(rd, r);
      forall i, j :: 0 <= i < j < |issues| ==> TextLeq(issues[i], issues[j])
  {
    LinkedTexts(rd, r);
    hide TextLeq, IsLinked, Filter, StableSort, Dedup, Map, LinkedItems;
    SortedOnce(Filter(Map(Filter(LinkedItems(Get(r, "linkedIssues")), HasEvidence), StableTextOf(rd)), IsText));
  }

  /** The broad issues that an open conclusion must not be sunk into. */
  predicate IsSink(number: string) {
    number == "879" || number == "893" || number == "1589" || number == "1543"
  }

  /** It is linked to an issue of its own. */
  ghost predicate HasOwnIssue(rd: Reader, r: Record) {
    exists issue :: IsLinked(rd, r, issue) && rd.issueNumber(issue).Some? && !IsSink(rd.issueNumber(issue).value)
  }

  /** A record may pass the issue gate exactly if it is linked to an issue of its own. */
  lemma OwnIssueReads(rd: Reader, r: Record)
    ensures HasAllowedIssue(rd, r) <==> HasOwnIssue(rd, r)
  {
    LinkedReads(rd, r);
    hide LinkedIssues, IsLinked;
    if HasOwnIssue(rd, r) {
      var issue :| IsLinked(rd, r, issue) && rd.issueNumber(issue).Some? && !IsSink(rd.issueNumber(issue).value);
      assert issue in LinkedIssues(rd, r) && !InvalidIssue(rd)(issue) && !ForbiddenIssue(rd)(issue);
    }
  }

  // ---------- what is said about a record ----------

  ghost predicate MentionsAt(text: string, word: string, i: nat) {
    i + |word| <= |text| && forall k :: 0 <= k < |word| ==>
      word[k] as int == if 97 <= text[i + k] as int <= 122 then text[i + k] as int - 32 else text[i + k] as int
  }

  /** The text holds the word somewhere, its letters a to z taken for capitals. */
  ghost predicate Mentions(text: string, word: string) {
    exists i: nat :: MentionsAt(text, word, i)
  }

  lemma PartAt(text: string, word: string, i: nat)
    requires i <= |text|
    ensures word <= Upper(text)[i..] <==> MentionsAt(text, word, i)
  {
    var upper := Upper(text);
    forall k | 0 <= k < |text|
      ensures upper[k] as int == if 97 <= text[k] as int <= 122 then text[k] as int - 32 else text[k] as int
    {
      UpperMeans(text, k);
    }
    hide Upper;
    assert i + |word| <= |text| ==> forall k :: 0 <= k < |word| ==> upper[i..][k] == upper[i + k];
  }

  lemma MentionsMeans(text: string, word: string)
    ensures Contains(Upper(text), word) <==> Mentions(text, word)
  {
    ContainsMeans(Upper(text), word);
    forall i: nat | i <= |text| ensures word <= Upper(text)[i..] <==> MentionsAt(text, word, i) {
      PartAt(text, word, i);
    }
    assert |Upper(text)| == |text|;
    hide Contains, Upper;
    if Mentions(text, word) {
      var i: nat :| MentionsAt(text, word, i);
      assert i <= |text|;
    }
  }

  function Statement(rd: Reader, r: Record): string {
    if "statement" in r && !Falsy(r["statement"]) then Shown(rd, r["statement"]) else ""
  }

  lemma StatementReads(rd: Reader, r: Record)
    ensures (if Truthy(Get(r, "statement")) then Text(rd, r["statement"]) else "") == Statement(rd, r)
  {
    TruthyMeans(Get(r, "statement"));
  }

  function FieldOf(r: Record, key: string): Json {
    if key in r then r[key] else Null
  }

  /** What each flag stands for. */
  ghost predicate Flagged(rd: Reader, r: Record, flag: Flag) {
    match flag
    case StatusStale => StatusIs(rd, r, "STALE")
    case StatementSuperseded => Mentions(Statement(rd, r), "SUPERSEDED")
    case CategorySuperseded =>
      Mentions(Category(r), "SUPERSEDED") || Mentions(Category(r), "OBSOLETE") || Mentions(Category(r), "DEPRECATED")
    case CategoryStale => Mentions(Category(r), "STALE")
    case LinkedIssuePresent => exists issue :: IsLinked(rd, r, issue)
    case LandingEvidencePresent => Tells(FieldOf(r, "requiredLandingEvidence"))
    case NextVerificationPresent => Tells(FieldOf(r, "nextVerification"))
  }

  function FlagPlace(flag: Flag): nat {
    match flag
    case StatusStale => 0
    case StatementSuperseded => 1
    case CategorySuperseded => 2
    case CategoryStale => 3
    case LinkedIssuePresent => 4
    case LandingEvidencePresent => 5
    case NextVerificationPresent => 6
  }

  lemma FlagConditions(rd: Reader, r: Record)
    ensures Status(rd, r) == "STALE" <==> Flagged(rd, r, StatusStale)
    ensures var statement := if Truthy(Get(r, "statement")) then Text(rd, r["statement"]) else "";
      Contains(Upper(statement), "SUPERSEDED") <==> Flagged(rd, r, StatementSuperseded)
    ensures var category := Upper(Category(r));
      && (Contains(category, "SUPERSEDED") || Contains(category, "OBSOLETE") || Contains(category, "DEPRECATED")
          <==> Flagged(rd, r, CategorySuperseded))
      && (Contains(category, "STALE") <==> Flagged(rd, r, CategoryStale))
    ensures LinkedIssues(rd, r) != [] <==> Flagged(rd, r, LinkedIssuePresent)
    ensures HasEvidence(Get(r, "requiredLandingEvidence")) <==> Flagged(rd, r, LandingEvidencePresent)
    ensures HasEvidence(Get(r, "nextVerification")) <==> Flagged(rd, r, NextVerificationPresent)
  {
    StatusReads(rd, r, "STALE");
    LinkedReads(rd, r);
    TellsMeans(Get(r, "requiredLandingEvidence"));
    TellsMeans(Get(r, "nextVerification"));
    MentionsMeans(Statement(rd, r), "SUPERSEDED");
    MentionsMeans(Category(r), "SUPERSEDED");
    MentionsMeans(Category(r), "OBSOLETE");
    MentionsMeans(Category(r), "DEPRECATED");
    MentionsMeans(Category(r), "STALE");
    StatementReads(rd, r);
    hide Contains, Mentions, Upper, Category, IsLinked, LinkedIssues, Says, Status, HasEvidence, Tells, Truthy, Falsy;
    assert LinkedIssues(rd, r) != [] ==> LinkedIssues(rd, r)[0] in LinkedIssues(rd, r);
  }

  ghost predicate InFlagOrder(flags: seq<Flag>) {
    forall i, j :: 0 <= i < j < |flags| ==> FlagPlace(flags[i]) < FlagPlace(flags[j])
  }

  lemma OneFlagMore(flags: seq<Flag>, condition: bool, flag: Flag)
    requires InFlagOrder(flags) && forall x :: x in flags ==> FlagPlace(x) < FlagPlace(flag)
    ensures var more := flags + FlagIf(condition, flag);
      && InFlagOrder(more) && (forall x :: x in more <==> x in flags || (condition && x == flag))
      && forall x :: x in more ==> FlagPlace(x) <= FlagPlace(flag)
  {
  }

  lemma FlagsOf(a: bool, b: bool, c: bool, d: bool, e: bool, f: bool, g: bool)
    ensures var flags := FlagIf(a, StatusStale) + FlagIf(b, StatementSuperseded) + FlagIf(c, CategorySuperseded)
          + FlagIf(d, CategoryStale) + FlagIf(e, LinkedIssuePresent) + FlagIf(f, LandingEvidencePresent)
          + FlagIf(g, NextVerificationPresent);
      && InFlagOrder(flags)
      && forall x :: x in flags <==>
           || (x == StatusStale && a) || (x == StatementSuperseded && b) || (x == CategorySuperseded && c)
           || (x == CategoryStale && d) || (x == LinkedIssuePresent && e) || (x == LandingEvidencePresent && f)
           || (x == NextVerificationPresent && g)
  {
    var f1 := FlagIf(a, StatusStale);
    var f2 := f1 + FlagIf(b, StatementSuperseded);
    var f3 := f2 + FlagIf(c, CategorySuperseded);
    var f4 := f3 + FlagIf(d, CategoryStale);
    var f5 := f4 + FlagIf(e, LinkedIssuePresent);
    var f6 := f5 + FlagIf(f, LandingEvidencePresent);
    FirstFlag(a);
    hide InFlagOrder, FlagIf;
    OneFlagMore(f1, b, StatementSuperseded);
    OneFlagMore(f2, c, CategorySuperseded);
    OneFlagMore(f3, d, CategoryStale);
    OneFlagMore(f4, e, LinkedIssuePresent);
    OneFlagMore(f5, f, LandingEvidencePresent);
    OneFlagMore(f6, g, NextVerificationPresent);
  }

  lemma FirstFlag(a: bool)
    ensures var flags := FlagIf(a, StatusStale);
      && InFlagOrder(flags) && (forall x :: x in flags <==> x == StatusStale && a)
      && forall x :: x in flags ==> FlagPlace(x) == 0
  {
  }

  lemma FlagParts(rd: Reader, r: Record) returns (a: bool, b: bool, c: bool, d: bool, e: bool, f: bool, g: bool)
    ensures EvidenceFlags(rd, r) == FlagIf(a, StatusStale) + FlagIf(b, StatementSuperseded)
          + FlagIf(c, CategorySuperseded) + FlagIf(d, CategoryStale) + FlagIf(e, LinkedIssuePresent)
          + FlagIf(f, LandingEvidencePresent) + FlagIf(g, NextVerificationPresent)
    ensures (a <==> Flagged(rd, r, StatusStale)) && (b <==> Flagged(rd, r, StatementSuperseded))
    ensures (c <==> Flagged(rd, r, CategorySuperseded)) && (d <==> Flagged(rd, r, CategoryStale))
    ensures (e <==> Flagged(rd, r, LinkedIssuePresent)) && (f <==> Flagged(rd, r, LandingEvidencePresent))
    ensures g <==> Flagged(rd, r, NextVerificationPresent)
  {
    FlagConditions(rd, r);
    hide Contains, Upper, Category, LinkedIssues, Status, HasEvidence, Truthy, Flagged, FlagIf;
    a := Status(rd, r) == "STALE";
    StatementReads(rd, r);
    b := Contains(Upper(Statement(rd, r)), "SUPERSEDED");
    var category := Upper(Category(r));
    c := Contains(category, "SUPERSEDED") || Contains(category, "OBSOLETE") || Contains(category, "DEPRECATED");
    d := Contains(category, "STALE");
    e := LinkedIssues(rd, r) != [];
    f := HasEvidence(Get(r, "requiredLandingEvidence"));
    g := HasEvidence(Get(r, "nextVerification"));
  }

  /** The flags of a record are those that apply, in this order. */
  lemma FlagsRead(rd: Reader, r: Record)
    ensures InFlagOrder(EvidenceFlags(rd, r))
    ensures forall flag :: flag in EvidenceFlags(rd, r) <==> Flagged(rd, r, flag)
  {
    hide EvidenceFlags, Flagged, InFlagOrder, FlagIf, FlagPlace;
    var a, b, c, d, e, f, g := FlagParts(rd, r);
    FlagsOf(a, b, c, d, e, f, g);
    forall flag ensures flag in EvidenceFlags(rd, r) <==> Flagged(rd, r, flag) {
      match flag
      case StatusStale =>
      case StatementSuperseded =>
      case CategorySuperseded =>
      case CategoryStale =>
      case LinkedIssuePresent =>
      case LandingEvidencePresent =>
      case NextVerificationPresent =>
    }
  }
}
