/** Which errors the issue completion gate reports, and in which order. */
module IssueGateErrors {
  import opened Basics
  import opened IssueGate
  import opened IssueGateLines
  import Comments

  // ---------- which errors ----------

  /** What is wrong with a Done gate section. */
  ghost predicate DoneReports(p: Patterns, s: seq<Numbered>, problem: Problem) {
    match problem
    case UncheckedDone(n) => exists i :: 0 <= i < |s| && s[i].number == n && Unticked(p, s[i].text)
    case MissingField(f) => forall i :: 0 <= i < |s| ==> !NamesField(p, s[i].text, f)
    case EmptyField(n, f) =>
      exists i :: 0 <= i < |s| && s[i].number == n && NamesField(p, s[i].text, f)
                  && EvidenceAfterColon(p.checked(s[i].text).value) == ""
    case UnresolvedField(n, f) =>
      exists i :: 0 <= i < |s| && s[i].number == n && NamesField(p, s[i].text, f)
                  && p.unresolvedDone(EvidenceAfterColon(p.checked(s[i].text).value))
    case SurfaceUnproved =>
      && p.namedSurface(Said(p, s, ExpectedOutcome))
      && p.notApplicable(Said(p, s, NamedProof)) && !p.substitute(Said(p, s, NamedProof))
    case _ => false
  }

  /** What is wrong with an issue gate section, given the lines that close issues. */
  ghost predicate GateReports(p: Patterns, s: seq<Numbered>, lines: seq<string>, problem: Problem) {
    match problem
    case UncheckedGate(n) => exists i :: 0 <= i < |s| && s[i].number == n && Unticked(p, s[i].text)
    case MissingEvidence(issue) =>
      Closed(p, lines, issue) && forall i :: 0 <= i < |s| ==> !NamesIssue(p, s[i].text, issue)
    case EmptyEvidence(n, issue) =>
      && Closed(p, lines, issue)
      && exists i :: 0 <= i < |s| && s[i].number == n && NamesIssue(p, s[i].text, issue)
                     && Separators(p.withoutRefs(p.checked(s[i].text).value))
    case UnresolvedEvidence(n, issue) =>
      && Closed(p, lines, issue)
      && exists i :: 0 <= i < |s| && s[i].number == n && NamesIssue(p, s[i].text, issue)
                     && p.unresolved(p.checked(s[i].text).value)
    case _ => false
  }

  ghost predicate Closed(p: Patterns, lines: seq<string>, issue: int) {
    exists i :: 0 <= i < |lines| && issue in p.closes(lines[i])
  }

  lemma UncheckedReported(p: Patterns, s: seq<Numbered>, numbered: nat -> Problem, n: nat)
    requires forall k, l :: numbered(k) == numbered(l) ==> k == l
    ensures numbered(n) in FlatMap(GateLines(p, s), UncheckedIn(numbered)) <==>
      exists i :: 0 <= i < |s| && s[i].number == n && Unticked(p, s[i].text)
  {
    var gate := GateLines(p, s);
    hide GateLines, FlatMap, Unticked;
    FlatMapMember(gate, UncheckedIn(numbered), numbered(n));
    UntickedLines(p, s, n);
    if k :| 0 <= k < |gate| && numbered(n) in UncheckedIn(numbered)(gate[k]) {
      assert gate[k] == GateLine(n, gate[k].text, false);
    }
    if text :| GateLine(n, text, false) in gate {
      var k :| 0 <= k < |gate| && gate[k] == GateLine(n, text, false);
      assert numbered(n) in UncheckedIn(numbered)(gate[k]);
    }
  }

  lemma OnlyUnchecked(gate: seq<GateLine>, numbered: nat -> Problem, problem: Problem)
    requires problem in FlatMap(gate, UncheckedIn(numbered))
    ensures exists n :: problem == numbered(n)
  {
    FlatMapMember(gate, UncheckedIn(numbered), problem);
    var k :| 0 <= k < |gate| && problem in UncheckedIn(numbered)(gate[k]);
    assert problem == numbered(gate[k].number);
  }

  // the lines about one field, and about one issue

  lemma FieldLineReported(p: Patterns, f: Field, g: GateLine, problem: Problem)
    ensures problem in FieldLineProblems(p, f)(g) <==>
      || (problem == EmptyField(g.number, f) && EvidenceAfterColon(g.text) == "")
      || (problem == UnresolvedField(g.number, f) && p.unresolvedDone(EvidenceAfterColon(g.text)))
  {
    hide EvidenceAfterColon;
    var e := EvidenceAfterColon(g.text);
    assert FieldLineProblems(p, f)(g)
        == EvidenceProblems(e == "", p.unresolvedDone(e), EmptyField(g.number, f), UnresolvedField(g.number, f));
  }

  /** The problem is about this field. */
  predicate AboutField(problem: Problem, f: Field) {
    (problem.MissingField? || problem.EmptyField? || problem.UnresolvedField?) && problem.field == f
  }

  lemma FieldSound(p: Patterns, s: seq<Numbered>, f: Field, problem: Problem)
    requires problem in FieldProblems(p, GateLines(p, s))(f)
    ensures AboutField(problem, f) && DoneReports(p, s, problem)
  {
    var gate := GateLines(p, s);
    var own := CheckedFor(p, gate, f);
    hide GateLines, FlatMap, FieldLineProblems, EvidenceAfterColon, NamesField, Filter;
    if own == [] {
      forall i | 0 <= i < |s| ensures !NamesField(p, s[i].text, f) {
        if NamesField(p, s[i].text, f) {
          LineFromNamed(p, s, f, i);
        }
      }
    } else {
      FlatMapMember(own, FieldLineProblems(p, f), problem);
      var k :| 0 <= k < |own| && problem in FieldLineProblems(p, f)(own[k]);
      FieldLineReported(p, f, own[k], problem);
      FilterMember(gate, ForField(p, f), own[k]);
      NamedFromLine(p, s, f, own[k]);
    }
  }

  lemma FieldComplete(p: Patterns, s: seq<Numbered>, f: Field, problem: Problem)
    requires AboutField(problem, f) && DoneReports(p, s, problem)
    ensures problem in FieldProblems(p, GateLines(p, s))(f)
  {
    var gate := GateLines(p, s);
    var own := CheckedFor(p, gate, f);
    if problem.MissingField? {
      NothingNamed(p, s, f);
    } else {
      var i: int :| 0 <= i < |s| && s[i].number == problem.line && NamesField(p, s[i].text, f)
        && if problem.EmptyField? then EvidenceAfterColon(p.checked(s[i].text).value) == ""
           else p.unresolvedDone(EvidenceAfterColon(p.checked(s[i].text).value));
      hide GateLines, FlatMap, FieldLineProblems, EvidenceAfterColon, Filter;
      LineFromNamed(p, s, f, i);
      var k :| 0 <= k < |own| && own[k] == GateLine(s[i].number, p.checked(s[i].text).value, true);
      FieldLineReported(p, f, own[k], problem);
      FlatMapMember(own, FieldLineProblems(p, f), problem);
    }
  }

  lemma NothingNamed(p: Patterns, s: seq<Numbered>, f: Field)
    requires forall i :: 0 <= i < |s| ==> !NamesField(p, s[i].text, f)
    ensures CheckedFor(p, GateLines(p, s), f) == []
  {
    forall g | g in GateLines(p, s) ensures !ForField(p, f)(g) {
      var i := BoxInSection(p, s, g);
      assert !NamesField(p, s[i].text, f);
    }
    hide GateLines;
    FilterNone(GateLines(p, s), ForField(p, f));
  }

  lemma NamedFromLine(p: Patterns, s: seq<Numbered>, f: Field, g: GateLine)
    requires g in GateLines(p, s) && g.checked && p.fieldLine(f, g.text)
    ensures exists i :: 0 <= i < |s| && s[i].number == g.number && NamesField(p, s[i].text, f)
                        && p.checked(s[i].text) == Some(g.text)
  {
    var i := BoxInSection(p, s, g);
    assert NamesField(p, s[i].text, f);
  }

  lemma LineFromNamed(p: Patterns, s: seq<Numbered>, f: Field, i: nat)
    requires i < |s| && NamesField(p, s[i].text, f)
    ensures p.checked(s[i].text).Some?
    ensures GateLine(s[i].number, p.checked(s[i].text).value, true) in CheckedFor(p, GateLines(p, s), f)
  {
    var g := BoxOfLine(p, s, i);
    FilterMembers(GateLines(p, s), ForField(p, f));
    assert g == GateLine(s[i].number, p.checked(s[i].text).value, true);
  }

  /** The Done gate reports exactly what is wrong with its section. */
  lemma DoneReported(p: Patterns, s: seq<Numbered>, problem: Problem)
    ensures problem in DoneProblems(p, GateLines(p, s)) <==> DoneReports(p, s, problem)
  {
    var gate := GateLines(p, s);
    SaidInLines(p, s, ExpectedOutcome);
    SaidInLines(p, s, NamedProof);
    hide GateLines, FlatMap, FieldProblems, EvidenceAfterColon, Said, FieldText, NamesField;
    if problem.UncheckedDone? {
      UncheckedReported(p, s, NumberedDone(), problem.line);
    }
    FlatMapMember(FIELDS, FieldProblems(p, gate), problem);
    if problem in FlatMap(gate, UncheckedIn(NumberedDone())) {
      OnlyUnchecked(gate, NumberedDone(), problem);
    }
    if i :| 0 <= i < |FIELDS| && problem in FieldProblems(p, gate)(FIELDS[i]) {
      FieldSound(p, s, FIELDS[i], problem);
    }
    if (problem.MissingField? || problem.EmptyField? || problem.UnresolvedField?) && DoneReports(p, s, problem) {
      FieldComplete(p, s, problem.field, problem);
      AllFields(problem.field);
    }
  }

  predicate AboutIssue(problem: Problem, issue: int) {
    (problem.MissingEvidence? || problem.EmptyEvidence? || problem.UnresolvedEvidence?) && problem.issue == issue
  }

  lemma IssueLineReported(p: Patterns, issue: int, g: GateLine, problem: Problem)
    ensures problem in IssueLineProblems(p, issue)(g) <==>
      || (problem == EmptyEvidence(g.number, issue) && Separators(p.withoutRefs(g.text)))
      || (problem == UnresolvedEvidence(g.number, issue) && p.unresolved(g.text))
  {
    TrimEmpty(p.withoutRefs(g.text));
    EdgesAre(p.withoutRefs(g.text));
    hide Trim, Separators, OnlyEdges;
    assert IssueLineProblems(p, issue)(g)
        == EvidenceProblems(EvidenceWithoutRefs(p, g.text) == "", p.unresolved(g.text), EmptyEvidence(g.number, issue),
                            UnresolvedEvidence(g.number, issue));
  }

  lemma IssueFromLine(p: Patterns, s: seq<Numbered>, issue: int, g: GateLine)
    requires g in GateLines(p, s) && g.checked && issue in p.refs(g.text)
    ensures exists i :: 0 <= i < |s| && s[i].number == g.number && NamesIssue(p, s[i].text, issue)
                        && p.checked(s[i].text) == Some(g.text)
  {
    var i := BoxInSection(p, s, g);
    assert NamesIssue(p, s[i].text, issue);
  }

  lemma LineFromIssue(p: Patterns, s: seq<Numbered>, issue: int, i: nat)
    requires i < |s| && NamesIssue(p, s[i].text, issue)
    ensures p.checked(s[i].text).Some?
    ensures GateLine(s[i].number, p.checked(s[i].text).value, true) in Filter(GateLines(p, s), ForIssue(p, issue))
  {
    var g := BoxOfLine(p, s, i);
    FilterMembers(GateLines(p, s), ForIssue(p, issue));
    assert g == GateLine(s[i].number, p.checked(s[i].text).value, true);
  }

  lemma IssueSound(p: Patterns, s: seq<Numbered>, lines: seq<string>, issue: int, problem: Problem)
    requires problem in IssueProblems(p, GateLines(p, s))(issue) && Closed(p, lines, issue)
    ensures AboutIssue(problem, issue) && GateReports(p, s, lines, problem)
  {
    var gate := GateLines(p, s);
    var own := Filter(gate, ForIssue(p, issue));
    hide GateLines, FlatMap, IssueLineProblems, NamesIssue, Filter, Closed, Separators;
    if own == [] {
      forall i | 0 <= i < |s| ensures !NamesIssue(p, s[i].text, issue) {
        if NamesIssue(p, s[i].text, issue) {
          LineFromIssue(p, s, issue, i);
        }
      }
    } else {
      FlatMapMember(own, IssueLineProblems(p, issue), problem);
      var k :| 0 <= k < |own| && problem in IssueLineProblems(p, issue)(own[k]);
      IssueLineReported(p, issue, own[k], problem);
      FilterMember(gate, ForIssue(p, issue), own[k]);
      IssueFromLine(p, s, issue, own[k]);
    }
  }

  lemma NothingRefers(p: Patterns, s: seq<Numbered>, issue: int)
    requires forall i :: 0 <= i < |s| ==> !NamesIssue(p, s[i].text, issue)
    ensures Filter(GateLines(p, s), ForIssue(p, issue)) == []
  {
    forall g | g in GateLines(p, s) ensures !ForIssue(p, issue)(g) {
      var i := BoxInSection(p, s, g);
      assert !NamesIssue(p, s[i].text, issue);
    }
    hide GateLines;
    FilterNone(GateLines(p, s), ForIssue(p, issue));
  }

  lemma IssueComplete(p: Patterns, s: seq<Numbered>, lines: seq<string>, issue: int, problem: Problem)
    requires AboutIssue(problem, issue) && GateReports(p, s, lines, problem)
    ensures problem in IssueProblems(p, GateLines(p, s))(issue) && Closed(p, lines, issue)
  {
    var gate := GateLines(p, s);
    var own := Filter(gate, ForIssue(p, issue));
    hide Closed, Separators;
    if problem.MissingEvidence? {
      NothingRefers(p, s, issue);
    } else {
      var i: int :| 0 <= i < |s| && s[i].number == problem.line && NamesIssue(p, s[i].text, issue)
        && if problem.EmptyEvidence? then Separators(p.withoutRefs(p.checked(s[i].text).value))
           else p.unresolved(p.checked(s[i].text).value);
      hide GateLines, FlatMap, IssueLineProblems, Filter;
      LineFromIssue(p, s, issue, i);
      var k :| 0 <= k < |own| && own[k] == GateLine(s[i].number, p.checked(s[i].text).value, true);
      IssueLineReported(p, issue, own[k], problem);
      FlatMapMember(own, IssueLineProblems(p, issue), problem);
    }
  }

  /** The issue gate reports exactly what is wrong with its section. */
  lemma GateReported(p: Patterns, s: seq<Numbered>, lines: seq<string>, issues: seq<int>, problem: Problem)
    requires AreClosed(p, lines, issues)
    ensures problem in GateProblems(p, GateLines(p, s), issues) <==> GateReports(p, s, lines, problem)
  {
    var gate := GateLines(p, s);
    hide GateLines, FlatMap, IssueProblems, NamesIssue, Separators;
    if problem.UncheckedGate? {
      UncheckedReported(p, s, NumberedGate(), problem.line);
    }
    FlatMapMember(issues, IssueProblems(p, gate), problem);
    if problem in FlatMap(gate, UncheckedIn(NumberedGate())) {
      OnlyUnchecked(gate, NumberedGate(), problem);
    }
    if i :| 0 <= i < |issues| && problem in IssueProblems(p, gate)(issues[i]) {
      assert issues[i] in issues;
      IssueSound(p, s, lines, issues[i], problem);
    }
    if (problem.MissingEvidence? || problem.EmptyEvidence? || problem.UnresolvedEvidence?)
       && GateReports(p, s, lines, problem) {
      IssueComplete(p, s, lines, problem.issue, problem);
      assert problem.issue in issues;
    }
  }

  // ---------- in which order ----------

  function PlaceOf(f: Field): nat {
    match f
    case TaskType => 0
    case ExpectedOutcome => 1
    case NonGoals => 2
    case Evidence => 3
    case ProjectState => 4
    case PostMergeProof => 5
    case NamedProof => 6
  }

  /** Where a problem is reported: open boxes first, then what concerns a field or an issue, then the surface;
      fields in their order, issues by number; what is missing, and otherwise line by line, emptiness first. */
  function Rank(problem: Problem): (int, int, int, int) {
    match problem
    case NegatedClose(n) => (0, n, 0, 0)
    case UncheckedDone(n) => (0, n, 0, 0)
    case UncheckedGate(n) => (0, n, 0, 0)
    case MissingDoneGate => (0, 0, 0, 0)
    case MissingGate => (0, 0, 0, 0)
    case MissingField(f) => (1, PlaceOf(f), 0, 0)
    case EmptyField(n, f) => (1, PlaceOf(f), n, 0)
    case UnresolvedField(n, f) => (1, PlaceOf(f), n, 1)
    case MissingEvidence(issue) => (1, issue, 0, 0)
    case EmptyEvidence(n, issue) => (1, issue, n, 0)
    case UnresolvedEvidence(n, issue) => (1, issue, n, 1)
    case SurfaceUnproved => (2, 0, 0, 0)
  }

  predicate ComesBefore(a: Problem, b: Problem) {
    var x, y := Rank(a), Rank(b);
    || x.0 < y.0
    || (x.0 == y.0 && (x.1 < y.1 || (x.1 == y.1 && (x.2 < y.2 || (x.2 == y.2 && x.3 < y.3)))))
  }

  /** In order, and so each once. */
  ghost predicate InOrder(problems: seq<Problem>) {
    forall i, j :: 0 <= i < j < |problems| ==> ComesBefore(problems[i], problems[j])
  }

  lemma OrderedConcat(a: seq<Problem>, b: seq<Problem>)
    requires InOrder(a) && InOrder(b) && forall x, y :: x in a && y in b ==> ComesBefore(x, y)
    ensures InOrder(a + b)
  {
    hide ComesBefore;
  }

  lemma {:induction false} OrderedFlat<T>(s: seq<T>, f: T -> seq<Problem>)
    requires forall i :: 0 <= i < |s| ==> InOrder(f(s[i]))
    requires forall i, j, x, y :: 0 <= i < j < |s| && x in f(s[i]) && y in f(s[j]) ==> ComesBefore(x, y)
    ensures InOrder(FlatMap(s, f))
  {
    hide ComesBefore, InOrder;
    if s == [] {
      assert InOrder([]) by { NoneInOrder(); }
    } else {
      var n := |s| - 1;
      OrderedFlat(s[..n], f);
      forall x, y | x in FlatMap(s[..n], f) && y in f(s[n]) ensures ComesBefore(x, y) {
        FlatMapMember(s[..n], f, x);
        var i :| 0 <= i < n && x in f(s[..n][i]);
        assert s[..n][i] == s[i];
      }
      OrderedConcat(FlatMap(s[..n], f), f(s[n]));
    }
  }

  lemma NoneInOrder()
    ensures InOrder([])
  {
  }

  ghost predicate Ascending(gate: seq<GateLine>) {
    forall i, j :: 0 <= i < j < |gate| ==> gate[i].number < gate[j].number
  }

  /** The boxes of a section are numbered upwards. */
  lemma BoxesAscend(p: Patterns, s: seq<Numbered>)
    requires forall i, j :: 0 <= i < j < |s| ==> s[i].number < s[j].number
    ensures Ascending(GateLines(p, s))
  {
    var at := GateLinesAre(p, s);
    var gate := GateLines(p, s);
    hide GateLines, AllListed;
    forall i, j | 0 <= i < j < |gate| ensures gate[i].number < gate[j].number {
      assert at[i] < at[j];
      assert IsBoxOf(p, s[at[i]], gate[i]) && IsBoxOf(p, s[at[j]], gate[j]);
    }
  }

  function Upwards(): (GateLine, GateLine) -> bool {
    (a: GateLine, b: GateLine) => a.number < b.number
  }

  lemma SomeAscend(gate: seq<GateLine>, q: GateLine -> bool)
    requires Ascending(gate)
    ensures Ascending(Filter(gate, q))
  {
    assert SortedBy(gate, Upwards());
    FilterSorted(gate, q, Upwards());
    var own := Filter(gate, q);
    forall i, j | 0 <= i < j < |own| ensures own[i].number < own[j].number {
      assert Upwards()(own[i], own[j]);
    }
  }

  lemma UncheckedInOrder(gate: seq<GateLine>, numbered: nat -> Problem)
    requires Ascending(gate) && forall n: nat :: Rank(numbered(n)) == (0, n, 0, 0)
    ensures InOrder(FlatMap(gate, UncheckedIn(numbered)))
    ensures forall x :: x in FlatMap(gate, UncheckedIn(numbered)) ==> Rank(x).0 == 0
  {
    forall i, x | 0 <= i < |gate| && x in UncheckedIn(numbered)(gate[i]) ensures Rank(x) == (0, gate[i].number, 0, 0) {
      assert x == numbered(gate[i].number);
    }
    OrderedFlat(gate, UncheckedIn(numbered));
    FlatMembers(gate, UncheckedIn(numbered));
    hide UncheckedIn, Rank, FlatMap;
  }

  lemma FieldInOrder(p: Patterns, gate: seq<GateLine>, f: Field)
    requires Ascending(gate)
    ensures InOrder(FieldProblems(p, gate)(f))
    ensures forall x :: x in FieldProblems(p, gate)(f) ==> Rank(x).0 == 1 && Rank(x).1 == PlaceOf(f)
  {
    var own := CheckedFor(p, gate, f);
    SomeAscend(gate, ForField(p, f));
    hide EvidenceAfterColon, Filter;
    forall i, x | 0 <= i < |own| && x in FieldLineProblems(p, f)(own[i])
      ensures Rank(x).0 == 1 && Rank(x).1 == PlaceOf(f) && Rank(x).2 == own[i].number
    {
      FieldLineReported(p, f, own[i], x);
    }
    forall i | 0 <= i < |own| ensures InOrder(FieldLineProblems(p, f)(own[i])) {
      LineInOrder(EvidenceAfterColon(own[i].text) == "", p.unresolvedDone(EvidenceAfterColon(own[i].text)),
                  EmptyField(own[i].number, f), UnresolvedField(own[i].number, f));
    }
    hide FieldLineProblems, Rank, PlaceOf;
    OrderedFlat(own, FieldLineProblems(p, f));
    FlatMembers(own, FieldLineProblems(p, f));
    MissingInOrder(f);
  }

  lemma MissingInOrder(f: Field)
    ensures InOrder([MissingField(f)]) && Rank(MissingField(f)).0 == 1 && Rank(MissingField(f)).1 == PlaceOf(f)
  {
  }

  lemma FlatMembers<T>(s: seq<T>, f: T -> seq<Problem>)
    ensures forall x :: x in FlatMap(s, f) ==> exists i :: 0 <= i < |s| && x in f(s[i])
  {
    forall x | x in FlatMap(s, f) ensures exists i :: 0 <= i < |s| && x in f(s[i]) {
      FlatMapMember(s, f, x);
    }
  }

  lemma LineInOrder(empty: bool, unresolved: bool, a: Problem, b: Problem)
    requires ComesBefore(a, b)
    ensures InOrder(EvidenceProblems(empty, unresolved, a, b))
  {
    hide ComesBefore;
  }

  lemma FieldPlaces(i: nat, j: nat)
    requires i < j < |FIELDS|
    ensures PlaceOf(FIELDS[i]) < PlaceOf(FIELDS[j])
  {
    assert forall k :: 0 <= k < |FIELDS| ==> PlaceOf(FIELDS[k]) == k;
  }

  lemma FieldsInOrder(p: Patterns, gate: seq<GateLine>)
    requires Ascending(gate)
    ensures InOrder(FlatMap(FIELDS, FieldProblems(p, gate)))
    ensures forall x :: x in FlatMap(FIELDS, FieldProblems(p, gate)) ==> Rank(x).0 == 1
  {
    hide FieldProblems, FlatMap, Ascending, InOrder, Rank, PlaceOf;
    forall i | 0 <= i < |FIELDS|
      ensures InOrder(FieldProblems(p, gate)(FIELDS[i]))
      ensures forall x :: x in FieldProblems(p, gate)(FIELDS[i]) ==> Rank(x).0 == 1 && Rank(x).1 == PlaceOf(FIELDS[i])
    {
      FieldInOrder(p, gate, FIELDS[i]);
    }
    forall i, j, x, y | 0 <= i < j < |FIELDS| && x in FieldProblems(p, gate)(FIELDS[i])
        && y in FieldProblems(p, gate)(FIELDS[j])
      ensures ComesBefore(x, y)
    {
      FieldPlaces(i, j);
    }
    OrderedFlat(FIELDS, FieldProblems(p, gate));
    FlatMembers(FIELDS, FieldProblems(p, gate));
  }

  lemma SurfaceInOrder(p: Patterns, gate: seq<GateLine>)
    ensures var c: seq<Problem> := if SurfaceLacksProof(p, gate) then [SurfaceUnproved] else [];
      InOrder(c) && forall y :: y in c ==> Rank(y).0 == 2
  {
    hide SurfaceLacksProof;
  }

  lemma RankedApart(a: seq<Problem>, b: seq<Problem>, r: int)
    requires InOrder(a) && InOrder(b)
    requires (forall x :: x in a ==> Rank(x).0 <= r) && forall y :: y in b ==> Rank(y).0 == r + 1
    ensures InOrder(a + b) && forall z :: z in a + b ==> Rank(z).0 <= r + 1
  {
    hide InOrder, Rank;
    OrderedConcat(a, b);
  }

  /** The Done gate reports its problems in that order, none of them twice. */
  lemma DoneInOrder(p: Patterns, s: seq<Numbered>)
    requires forall i, j :: 0 <= i < j < |s| ==> s[i].number < s[j].number
    ensures InOrder(DoneProblems(p, GateLines(p, s)))
  {
    var gate := GateLines(p, s);
    BoxesAscend(p, s);
    UncheckedInOrder(gate, NumberedDone());
    hide GateLines, FieldProblems, FlatMap, InOrder, Rank, Ascending, SurfaceLacksProof;
    FieldsInOrder(p, gate);
    SurfaceInOrder(p, gate);
    var a, b := FlatMap(gate, UncheckedIn(NumberedDone())), FlatMap(FIELDS, FieldProblems(p, gate));
    RankedApart(a, b, 0);
    RankedApart(a + b, if SurfaceLacksProof(p, gate) then [SurfaceUnproved] else [], 1);
  }

  lemma IssueInOrder(p: Patterns, gate: seq<GateLine>, issue: int)
    requires Ascending(gate)
    ensures InOrder(IssueProblems(p, gate)(issue))
    ensures forall x :: x in IssueProblems(p, gate)(issue) ==> Rank(x).0 == 1 && Rank(x).1 == issue
  {
    var own := Filter(gate, ForIssue(p, issue));
    SomeAscend(gate, ForIssue(p, issue));
    hide EvidenceWithoutRefs, Filter, Separators;
    forall i, x | 0 <= i < |own| && x in IssueLineProblems(p, issue)(own[i])
      ensures Rank(x).0 == 1 && Rank(x).1 == issue && Rank(x).2 == own[i].number
    {
      IssueLineReported(p, issue, own[i], x);
    }
    forall i | 0 <= i < |own| ensures InOrder(IssueLineProblems(p, issue)(own[i])) {
      LineInOrder(EvidenceWithoutRefs(p, own[i].text) == "", p.unresolved(own[i].text),
                  EmptyEvidence(own[i].number, issue), UnresolvedEvidence(own[i].number, issue));
    }
    hide IssueLineProblems, Rank;
    OrderedFlat(own, IssueLineProblems(p, issue));
    FlatMembers(own, IssueLineProblems(p, issue));
    NotVouchedInOrder(issue);
  }

  lemma NotVouchedInOrder(issue: int)
    ensures InOrder([MissingEvidence(issue)])
    ensures Rank(MissingEvidence(issue)).0 == 1 && Rank(MissingEvidence(issue)).1 == issue
  {
  }

  /** And so does the issue gate, the closed issues being in order. */
  lemma GateInOrder(p: Patterns, s: seq<Numbered>, issues: seq<int>)
    requires forall i, j :: 0 <= i < j < |s| ==> s[i].number < s[j].number
    requires forall i, j :: 0 <= i < j < |issues| ==> issues[i] < issues[j]
    ensures InOrder(GateProblems(p, GateLines(p, s), issues))
  {
    var gate := GateLines(p, s);
    BoxesAscend(p, s);
    UncheckedInOrder(gate, NumberedGate());
    hide GateLines, IssueProblems, FlatMap, InOrder, Ascending;
    forall i | 0 <= i < |issues|
      ensures InOrder(IssueProblems(p, gate)(issues[i]))
      ensures forall x :: x in IssueProblems(p, gate)(issues[i]) ==> Rank(x).0 == 1 && Rank(x).1 == issues[i]
    {
      IssueInOrder(p, gate, issues[i]);
    }
    OrderedFlat(issues, IssueProblems(p, gate));
    FlatMembers(issues, IssueProblems(p, gate));
    OrderedConcat(FlatMap(gate, UncheckedIn(NumberedGate())), FlatMap(issues, IssueProblems(p, gate)));
  }

  // ---------- the whole body ----------

  /** A negated closing phrase is reported once for every time it occurs, line by line. */
  lemma {:induction false} NegatedReported(p: Patterns, lines: seq<string>, n: nat)
    ensures multiset(NegatedProblems(p, lines))[NegatedClose(n)]
            == if 1 <= n <= |lines| then p.negated(lines[n - 1]) else 0
    ensures forall i, j :: 0 <= i < j < |NegatedProblems(p, lines)| ==>
      var a, b := NegatedProblems(p, lines)[i], NegatedProblems(p, lines)[j];
      a.NegatedClose? && b.NegatedClose? && a.line <= b.line <= |lines|
  {
    if lines == [] {
    } else {
      var front, k := lines[..|lines| - 1], p.negated(lines[|lines| - 1]);
      NegatedReported(p, front, n);
      CopiesCounted(k, |lines|, n);
      NegatedFrom(p, front);
    }
  }

  lemma {:induction false} CopiesCounted(k: nat, line: nat, n: nat)
    ensures multiset(Copies(k, line))[NegatedClose(n)] == if n == line then k else 0
  {
    if k == 0 {
    } else {
      CopiesCounted(k - 1, line, n);
      var all := Copies(k, line);
      assert all[k - 1] in all;
      assert forall i :: 0 <= i < k ==> all[i] in all;
      assert all == Copies(k - 1, line) + [NegatedClose(line)];
    }
  }

  lemma {:induction false} NegatedFrom(p: Patterns, lines: seq<string>)
    ensures forall e :: e in NegatedProblems(p, lines) ==> e.NegatedClose? && e.line <= |lines|
  {
    if lines == [] {
    } else {
      NegatedFrom(p, lines[..|lines| - 1]);
    }
  }

  lemma SectionNumbered(lines: seq<string>, kind: string -> Option<nat>, any: string -> Option<nat>, s: seq<Numbered>)
    requires IsSection(lines, kind, any, Some(s))
    ensures forall i, j :: 0 <= i < j < |s| ==> s[i].number < s[j].number
  {
  }

  ghost predicate DoneGateReports(p: Patterns, require: bool, section: Option<seq<Numbered>>, problem: Problem) {
    match section
    case None => require && problem == MissingDoneGate
    case Some(s) => DoneReports(p, s, problem)
  }

  ghost predicate IssueGateReports(p: Patterns, lines: seq<string>, section: Option<seq<Numbered>>, problem: Problem) {
    match section
    case None => problem == MissingGate
    case Some(s) => GateReports(p, s, lines, problem)
  }

  ghost predicate SomethingNegated(p: Patterns, lines: seq<string>) {
    exists i :: 0 <= i < |lines| && p.negated(lines[i]) > 0
  }

  ghost predicate SomethingCloses(p: Patterns, lines: seq<string>) {
    exists i :: 0 <= i < |lines| && p.closes(lines[i]) != []
  }

  /** What is wrong with a body: negated closing phrases alone, if there are any; otherwise its Done gate section,
      or that there is none; and its issue gate section, or that there is none, if something is closed. */
  ghost predicate BodyReports(p: Patterns, lines: seq<string>, require: bool, problem: Problem) {
    if SomethingNegated(p, lines)
    then problem.NegatedClose? && 1 <= problem.line <= |lines| && p.negated(lines[problem.line - 1]) > 0
    else || (exists section :: IsSection(lines, p.doneHeading, p.anyHeading, section)
                               && DoneGateReports(p, require, section, problem))
         || (SomethingCloses(p, lines)
             && exists section :: IsSection(lines, p.gateHeading, p.anyHeading, section)
                                  && IssueGateReports(p, lines, section, problem))
  }

  lemma DoneErrorsAre(p: Patterns, lines: seq<string>, require: bool, done: seq<Problem>, problem: Problem)
    requires AreDoneErrors(p, lines, require, done)
    ensures problem in done <==> exists section :: IsSection(lines, p.doneHeading, p.anyHeading, section)
                                                   && DoneGateReports(p, require, section, problem)
    ensures InOrder(done)
  {
    hide IsSection, GateLines, DoneProblems, DoneReports;
    var section :| IsSection(lines, p.doneHeading, p.anyHeading, section)
      && done == SectionProblems(p, require, section);
    if section.Some? {
      DoneReported(p, section.value, problem);
      SectionNumbered(lines, p.doneHeading, p.anyHeading, section.value);
      DoneInOrder(p, section.value);
    }
    assert problem in done <==> DoneGateReports(p, require, section, problem);
    forall other | IsSection(lines, p.doneHeading, p.anyHeading, other) ensures other == section {
      SectionIsDetermined(lines, p.doneHeading, p.anyHeading, other, section);
    }
  }

  lemma GateErrorsAre(p: Patterns, lines: seq<string>, more: seq<Problem>, problem: Problem)
    requires AreGateErrors(p, lines, more)
    ensures problem in more <==> exists section :: IsSection(lines, p.gateHeading, p.anyHeading, section)
                                                   && IssueGateReports(p, lines, section, problem)
    ensures InOrder(more)
  {
    hide IsSection, GateLines, GateProblems, GateReports;
    var section, issues :| IsSection(lines, p.gateHeading, p.anyHeading, section) && AreSortedClosed(p, lines, issues)
      && more == ClosureProblems(p, section, issues);
    if section.Some? {
      GateReported(p, section.value, lines, issues, problem);
      SectionNumbered(lines, p.gateHeading, p.anyHeading, section.value);
      IssuesAscend(p, lines, issues);
      GateInOrder(p, section.value, issues);
    }
    assert problem in more <==> IssueGateReports(p, lines, section, problem);
    forall other | IsSection(lines, p.gateHeading, p.anyHeading, other) ensures other == section {
      SectionIsDetermined(lines, p.gateHeading, p.anyHeading, other, section);
    }
  }

  lemma IssuesAscend(p: Patterns, lines: seq<string>, issues: seq<int>)
    requires AreSortedClosed(p, lines, issues)
    ensures forall i, j :: 0 <= i < j < |issues| ==> issues[i] < issues[j]
  {
    forall i, j | 0 <= i < j < |issues| ensures issues[i] < issues[j] {
      assert AtMost()(issues[i], issues[j]);
    }
  }

  lemma NegatedAre(p: Patterns, lines: seq<string>, problem: Problem)
    ensures problem in NegatedProblems(p, lines) <==>
      problem.NegatedClose? && 1 <= problem.line <= |lines| && p.negated(lines[problem.line - 1]) > 0
  {
    var errors := NegatedProblems(p, lines);
    NegatedFrom(p, lines);
    if problem.NegatedClose? {
      NegatedReported(p, lines, problem.line);
      hide NegatedProblems;
      assert problem in errors <==> multiset(errors)[problem] > 0;
    }
  }

  lemma SomethingIs(p: Patterns, lines: seq<string>)
    ensures SomethingNegated(p, lines) <==> !NothingNegated(p, lines)
    ensures SomethingCloses(p, lines) <==> !NothingCloses(p, lines)
  {
  }

  /** The errors are exactly what is wrong with the body. */
  lemma ErrorsAre(p: Patterns, lines: seq<string>, require: bool, errors: seq<Problem>, problem: Problem)
    requires AreErrors(p, lines, require, errors)
    ensures problem in errors <==> BodyReports(p, lines, require, problem)
  {
    SomethingIs(p, lines);
    hide AreDoneErrors, AreGateErrors, IsSection, DoneGateReports, IssueGateReports, InOrder, NothingNegated,
         NothingCloses, SomethingNegated, SomethingCloses, NegatedProblems;
    if NothingNegated(p, lines) {
      var done, more :| errors == done + more && AreErrorParts(p, lines, require, done, more);
      DoneErrorsAre(p, lines, require, done, problem);
      if !NothingCloses(p, lines) {
        GateErrorsAre(p, lines, more, problem);
      }
    } else {
      NegatedAre(p, lines, problem);
    }
  }

  /** Those of the Done gate in their order, then those of the issue gate in theirs. */
  ghost predicate Grouped(errors: seq<Problem>, k: nat) {
    && k <= |errors| && InOrder(errors[..k]) && InOrder(errors[k..])
    && (forall e :: e in errors[..k] ==>
          e.MissingDoneGate? || e.UncheckedDone? || e.MissingField? || e.EmptyField? || e.UnresolvedField?
          || e.SurfaceUnproved?)
    && (forall e :: e in errors[k..] ==>
          e.MissingGate? || e.UncheckedGate? || e.MissingEvidence? || e.EmptyEvidence? || e.UnresolvedEvidence?)
  }

  lemma ErrorsGrouped(p: Patterns, lines: seq<string>, require: bool, errors: seq<Problem>) returns (k: nat)
    requires AreErrors(p, lines, require, errors) && !SomethingNegated(p, lines)
    ensures Grouped(errors, k)
  {
    hide AreDoneErrors, AreGateErrors, IsSection, InOrder;
    var done, more :| errors == done + more && AreErrorParts(p, lines, require, done, more);
    k := |done|;
    assert errors[..k] == done && errors[k..] == more;
    forall e ensures e in done ==> e.MissingDoneGate? || e.UncheckedDone? || e.MissingField? || e.EmptyField?
                                   || e.UnresolvedField? || e.SurfaceUnproved?
    {
      DoneErrorsAre(p, lines, require, done, e);
    }
    forall e ensures e in more ==> e.MissingGate? || e.UncheckedGate? || e.MissingEvidence? || e.EmptyEvidence?
                                   || e.UnresolvedEvidence?
    {
      if !NothingCloses(p, lines) {
        GateErrorsAre(p, lines, more, e);
      }
    }
    DoneErrorsAre(p, lines, require, done, MissingGate);
    if NothingCloses(p, lines) {
      NoneInOrder();
    } else {
      GateErrorsAre(p, lines, more, MissingGate);
    }
  }

  /** Validation looks at the body without its comments. */
  method ValidateBody(p: Patterns, body: string, require: bool) returns (errors: seq<Problem>)
    ensures AreErrors(p, SplitLines(Comments.VisibleMarkdown(body)), require, errors)
    ensures errors == [] <==> AcceptsLines(p, SplitLines(Comments.VisibleMarkdown(body)), require)
    ensures forall problem :: problem in errors <==>
              BodyReports(p, SplitLines(Comments.VisibleMarkdown(body)), require, problem)
    ensures !SomethingNegated(p, SplitLines(Comments.VisibleMarkdown(body))) ==> exists k: nat :: Grouped(errors, k)
  {
    var lines := SplitLines(Comments.VisibleMarkdown(body));
    hide AreErrors, Accepts, AcceptsLines, BodyReports, SplitLines, Grouped, SomethingNegated;
    errors := ValidateLines(p, lines, require);
    AcceptsMeans(p, lines, require);
    forall problem ensures problem in errors <==> BodyReports(p, lines, require, problem) {
      ErrorsAre(p, lines, require, errors, problem);
    }
    if !SomethingNegated(p, lines) {
      ghost var k := ErrorsGrouped(p, lines, require, errors);
    }
  }
}
