/** The issue completion gate: which pull request bodies may close issues. */
module IssueGate {
  import opened Basics
  import Comments

  // ---------- lines and sections ----------

  function SplitLines(s: string): (lines: seq<string>) {
    if s == "" then [] else
    var k := Comments.FindFrom(s, "\n", 0);
    if k == -1 then [s] else [s[..k]] + SplitLines(s[k + 1..])
  }

  /** What the regular expressions of the gate find. A heading is given by its level. */
  datatype Patterns = Patterns(
    anyHeading: string -> Option<nat>, gateHeading: string -> Option<nat>, doneHeading: string -> Option<nat>,
    checked: string -> Option<string>, unchecked: string -> Option<string>,
    negated: string -> nat, closes: string -> seq<int>, refs: string -> seq<int>,
    withoutRefs: string -> string, unresolved: string -> bool, unresolvedDone: string -> bool,
    fieldLine: (Field, string) -> bool, namedSurface: string -> bool, notApplicable: string -> bool,
    substitute: string -> bool)

  datatype Field = TaskType | ExpectedOutcome | NonGoals | Evidence | ProjectState | PostMergeProof | NamedProof

  const FIELDS: seq<Field> := [TaskType, ExpectedOutcome, NonGoals, Evidence, ProjectState, PostMergeProof, NamedProof]

  /** A line with its number, counted from one. */
  datatype Numbered = Numbered(number: nat, text: string)

  /** The section is what follows the first heading of its kind, up to the next heading that is not deeper. */
  ghost predicate IsSection(lines: seq<string>, kind: string -> Option<nat>, any: string -> Option<nat>,
                            section: Option<seq<Numbered>>) {
    match section
    case None => forall i :: 0 <= i < |lines| ==> kind(lines[i]).None?
    case Some(s) => exists i: nat, e: nat :: SectionAt(lines, kind, any, s, i, e)
  }

  ghost predicate SectionAt(lines: seq<string>, kind: string -> Option<nat>, any: string -> Option<nat>,
                            s: seq<Numbered>, i: nat, e: nat) {
    && i < e <= |lines| && kind(lines[i]).Some? && (forall j :: 0 <= j < i ==> kind(lines[j]).None?)
    && (forall j :: i < j < e ==> any(lines[j]).Some? ==> any(lines[j]).value > kind(lines[i]).value)
    && (e < |lines| ==> any(lines[e]).Some? && any(lines[e]).value <= kind(lines[i]).value)
    && |s| == e - i - 1 && forall k :: 0 <= k < |s| ==> s[k] == Numbered(i + 2 + k, lines[i + 1 + k])
  }

  method ExtractHeadingSection(lines: seq<string>, kind: string -> Option<nat>, any: string -> Option<nat>)
    returns (section: Option<seq<Numbered>>)
    ensures IsSection(lines, kind, any, section)
  {
    var i := 0;
    while i < |lines| && kind(lines[i]).None?
      invariant 0 <= i <= |lines| && forall j :: 0 <= j < i ==> kind(lines[j]).None?
    {
      i := i + 1;
    }
    if i == |lines| {
      return None;
    }
    var level := kind(lines[i]).value;
    var end := |lines|;
    for j := i + 1 to |lines|
      invariant end == |lines|
      invariant forall k :: i < k < j ==> any(lines[k]).Some? ==> any(lines[k]).value > level
    {
      if any(lines[j]).Some? && any(lines[j]).value <= level {
        end := j;
        break;
      }
    }
    var s := [];
    for n := i + 1 to end
      invariant |s| == n - i - 1 && forall k :: 0 <= k < |s| ==> s[k] == Numbered(i + 2 + k, lines[i + 1 + k])
    {
      s := s + [Numbered(n + 1, lines[n])];
    }
    assert SectionAt(lines, kind, any, s, i, end);
    section := Some(s);
  }

  lemma SectionIsDetermined(lines: seq<string>, kind: string -> Option<nat>, any: string -> Option<nat>,
                            a: Option<seq<Numbered>>, b: Option<seq<Numbered>>)
    requires IsSection(lines, kind, any, a) && IsSection(lines, kind, any, b)
    ensures a == b
  {
    if a.Some? && b.Some? {
      var i: nat, e: nat :| SectionAt(lines, kind, any, a.value, i, e);
      var j: nat, f: nat :| SectionAt(lines, kind, any, b.value, j, f);
      assert i == j && e == f;
      assert a.value == b.value;
    }
  }

  function Unlines(lines: seq<string>): string {
    if lines == [] then "" else lines[0] + "\n" + Unlines(lines[1..])
  }

  lemma FirstNewline(s: string)
    ensures var k := Comments.FindFrom(s, "\n", 0);
      if k == -1 then '\n' !in s else k < |s| && s[k] == '\n' && '\n' !in s[..k]
  {
    forall j | 0 <= j <= |s| ensures "\n" <= s[j..] <==> j < |s| && s[j] == '\n' {}
  }

  predicate EndsLine(s: string) {
    s == "" || s[|s| - 1] == '\n'
  }

  lemma EndsAlike(line: string, newline: string, rest: string)
    requires |newline| == 1 && newline[0] == '\n'
    ensures EndsLine(line + newline + rest) <==> EndsLine(rest)
    ensures line + newline + (rest + newline) == line + newline + rest + newline
  {
  }

  lemma JoinOne(line: string, rest: string, lines: seq<string>)
    requires Unlines(lines) == if EndsLine(rest) then rest else rest + "\n"
    ensures Unlines([line] + lines) == if EndsLine(line + "\n" + rest) then line + "\n" + rest
            else line + "\n" + rest + "\n"
  {
    UnlinesStep(line, lines);
    EndsAlike(line, "\n", rest);
  }

  lemma SplitStep(s: string, k: nat)
    requires s != "" && k < |s| && Comments.FindFrom(s, "\n", 0) == k && s[k] == '\n'
    ensures SplitLines(s) == [s[..k]] + SplitLines(s[k + 1..]) && s == s[..k] + "\n" + s[k + 1..]
  {
    Cut(s, k);
    assert s[k..k + 1] == "\n";
  }

  lemma Cut(s: string, k: nat)
    requires k < |s|
    ensures s == s[..k] + s[k..k + 1] + s[k + 1..]
  {
  }

  /** Splitting cuts exactly at the newlines: no line holds one, and put back they give the text. */
  lemma {:induction false} SplitUnlines(s: string)
    ensures Unlines(SplitLines(s)) == if EndsLine(s) then s else s + "\n"
    ensures forall line :: line in SplitLines(s) ==> '\n' !in line
    decreases |s|
  {
    if s == "" {
    } else {
      FirstNewline(s);
      var k := Comments.FindFrom(s, "\n", 0);
      if k != -1 {
        SplitUnlines(s[k + 1..]);
        SplitStep(s, k);
        JoinOne(s[..k], s[k + 1..], SplitLines(s[k + 1..]));
      } else {
        UnlinesStep(s, []);
        assert [s] + [] == [s] && SplitLines(s) == [s];
        assert s[|s| - 1] in s;
      }
    }
  }

  lemma UnlinesStep(line: string, rest: seq<string>)
    ensures Unlines([line] + rest) == line + "\n" + Unlines(rest)
  {
    assert ([line] + rest)[1..] == rest;
  }

  // ---------- checkbox lines ----------

  datatype GateLine = GateLine(number: nat, text: string, checked: bool)

  function IsBox(p: Patterns): Numbered -> bool {
    (n: Numbered) => p.checked(n.text).Some? || p.unchecked(n.text).Some?
  }

  function Box(p: Patterns): Numbered -> GateLine {
    (n: Numbered) =>
      if p.checked(n.text).Some? then GateLine(n.number, p.checked(n.text).value, true)
      else GateLine(n.number, if p.unchecked(n.text).Some? then p.unchecked(n.text).value else "", false)
  }

  function GateLines(p: Patterns, section: seq<Numbered>): seq<GateLine> {
    Map(Filter(section, IsBox(p)), Box(p))
  }

  method ParseGateLines(p: Patterns, section: seq<Numbered>) returns (lines: seq<GateLine>)
    ensures lines == GateLines(p, section)
  {
    lines := [];
    for i := 0 to |section|
      invariant lines == GateLines(p, section[..i])
    {
      var n := section[i];
      FilterMapStep(section, i, IsBox(p), Box(p));
      if p.checked(n.text).Some? {
        lines := lines + [GateLine(n.number, p.checked(n.text).value, true)];
      } else if p.unchecked(n.text).Some? {
        lines := lines + [GateLine(n.number, p.unchecked(n.text).value, false)];
      }
    }
    assert section[..|section|] == section;
  }

  // ---------- evidence ----------

  predicate IsEdge(c: char) {
    c in " \t:-;,./"
  }

  function TrimLeft(s: string): string {
    if s != "" && IsEdge(s[0]) then TrimLeft(s[1..]) else s
  }

  function TrimRight(s: string): string {
    if s != "" && IsEdge(s[|s| - 1]) then TrimRight(s[..|s| - 1]) else s
  }

  function Trim(s: string): string {
    TrimRight(TrimLeft(s))
  }

  function AfterColon(text: string): string {
    var k := Comments.FindFrom(text, ":", 0);
    if k == -1 then "" else text[k + 1..]
  }

  function EvidenceAfterColon(text: string): string {
    Trim(AfterColon(text))
  }

  function EvidenceWithoutRefs(p: Patterns, text: string): string {
    Trim(p.withoutRefs(text))
  }

  predicate OnlyEdges(s: string) {
    forall c :: c in s ==> IsEdge(c)
  }

  lemma {:induction false} TrimLeftEmpty(s: string)
    ensures OnlyEdges(TrimLeft(s)) <==> OnlyEdges(s)
  {
    if s == "" || !IsEdge(s[0]) {
    } else {
      TrimLeftEmpty(s[1..]);
      assert s == [s[0]] + s[1..];
    }
  }

  lemma {:induction false} TrimRightEmpty(s: string)
    ensures TrimRight(s) == "" <==> OnlyEdges(s)
  {
    if s == "" {
    } else {
      assert s[|s| - 1] in s;
      assert s == s[..|s| - 1] + [s[|s| - 1]];
      if IsEdge(s[|s| - 1]) {
        TrimRightEmpty(s[..|s| - 1]);
      }
    }
  }

  /** Evidence counts as empty exactly if it consists of separators. */
  lemma TrimEmpty(s: string)
    ensures Trim(s) == "" <==> OnlyEdges(s)
  {
    TrimLeftEmpty(s);
    TrimRightEmpty(TrimLeft(s));
  }

  // ---------- problems ----------

  datatype Problem =
    | NegatedClose(line: nat)
    | MissingDoneGate
    | UncheckedDone(line: nat)
    | MissingField(field: Field)
    | EmptyField(line: nat, field: Field)
    | UnresolvedField(line: nat, field: Field)
    | SurfaceUnproved
    | MissingGate
    | UncheckedGate(line: nat)
    | MissingEvidence(issue: int)
    | EmptyEvidence(line: nat, issue: int)
    | UnresolvedEvidence(line: nat, issue: int)

  function ForField(p: Patterns, f: Field): GateLine -> bool {
    (g: GateLine) => g.checked && p.fieldLine(f, g.text)
  }

  function CheckedFor(p: Patterns, gate: seq<GateLine>, f: Field): seq<GateLine> {
    Filter(gate, ForField(p, f))
  }

  function EvidenceOf(): GateLine -> string {
    (g: GateLine) => EvidenceAfterColon(g.text)
  }

  function JoinWords(words: seq<string>): string {
    if words == [] then "" else if |words| == 1 then words[0]
       else JoinWords(words[..|words| - 1]) + " " + words[|words| - 1]
  }

  function FieldText(p: Patterns, gate: seq<GateLine>, f: Field): string {
    JoinWords(Map(CheckedFor(p, gate, f), EvidenceOf()))
  }

  /** A surface is named as the outcome but its proof is declared not applicable without a substitute. */
  predicate SurfaceLacksProof(p: Patterns, gate: seq<GateLine>) {
    && p.namedSurface(FieldText(p, gate, ExpectedOutcome))
    && p.notApplicable(FieldText(p, gate, NamedProof)) && !p.substitute(FieldText(p, gate, NamedProof))
  }

  // ---------- the Done gate ----------

  function UncheckedIn(problem: nat -> Problem): GateLine -> seq<Problem> {
    (g: GateLine) => if g.checked then [] else [problem(g.number)]
  }

  function EvidenceProblems(empty: bool, unresolved: bool, a: Problem, b: Problem): (r: seq<Problem>)
    ensures r == [] <==> !empty && !unresolved
  {
    if empty then if unresolved then [a, b] else [a] else if unresolved then [b] else []
  }

  function FieldLineProblems(p: Patterns, f: Field): GateLine -> seq<Problem> {
    (g: GateLine) =>
      EvidenceProblems(EvidenceAfterColon(g.text) == "", p.unresolvedDone(EvidenceAfterColon(g.text)),
                       EmptyField(g.number, f), UnresolvedField(g.number, f))
  }

  function LinesProblems(p: Patterns, f: Field, own: seq<GateLine>): seq<Problem> {
    if own == [] then [MissingField(f)] else FlatMap(own, FieldLineProblems(p, f))
  }

  function FieldProblems(p: Patterns, gate: seq<GateLine>): Field -> seq<Problem> {
    (f: Field) => LinesProblems(p, f, CheckedFor(p, gate, f))
  }

  function NumberedDone(): nat -> Problem { (n: nat) => UncheckedDone(n) }

  function NumberedGate(): nat -> Problem { (n: nat) => UncheckedGate(n) }

  /** The problems of a Done gate, in the order in which they are reported. */
  function DoneProblems(p: Patterns, gate: seq<GateLine>): seq<Problem> {
    FlatMap(gate, UncheckedIn(NumberedDone())) + FlatMap(FIELDS, FieldProblems(p, gate))
    + if SurfaceLacksProof(p, gate) then [SurfaceUnproved] else []
  }

  method UncheckedProblems(gate: seq<GateLine>, problem: nat -> Problem) returns (errors: seq<Problem>)
    ensures errors == FlatMap(gate, UncheckedIn(problem))
  {
    errors := [];
    for i := 0 to |gate|
      invariant errors == FlatMap(gate[..i], UncheckedIn(problem))
    {
      FlatMapStep(gate, i, UncheckedIn(problem));
      if !gate[i].checked {
        errors := errors + [problem(gate[i].number)];
      }
    }
    assert gate[..|gate|] == gate;
  }

  method CheckFieldLine(p: Patterns, f: Field, g: GateLine) returns (errors: seq<Problem>, evidence: string)
    ensures errors == FieldLineProblems(p, f)(g) && evidence == EvidenceOf()(g)
  {
    evidence := EvidenceAfterColon(g.text);
    errors := [];
    if evidence == "" {
      errors := errors + [EmptyField(g.number, f)];
    }
    if p.unresolvedDone(evidence) {
      errors := errors + [UnresolvedField(g.number, f)];
    }
  }

  method CheckField(p: Patterns, gate: seq<GateLine>, f: Field) returns (errors: seq<Problem>, values: seq<string>)
    ensures errors == FieldProblems(p, gate)(f)
    ensures values == Map(CheckedFor(p, gate, f), EvidenceOf())
  {
    errors, values := CheckLines(p, f, CheckedFor(p, gate, f));
  }

  lemma LinesSoFar(p: Patterns, f: Field, own: seq<GateLine>, i: nat)
    requires i < |own|
    ensures FlatMap(own[..0], FieldLineProblems(p, f)) == [] && Map(own[..0], EvidenceOf()) == []
    ensures FlatMap(own[..i + 1], FieldLineProblems(p, f))
            == FlatMap(own[..i], FieldLineProblems(p, f)) + FieldLineProblems(p, f)(own[i])
    ensures Map(own[..i + 1], EvidenceOf()) == Map(own[..i], EvidenceOf()) + [EvidenceOf()(own[i])]
  {
    hide FieldLineProblems, EvidenceOf;
    FlatMapStep(own, i, FieldLineProblems(p, f));
  }

  method CheckLines(p: Patterns, f: Field, own: seq<GateLine>) returns (errors: seq<Problem>, values: seq<string>)
    ensures errors == LinesProblems(p, f, own) && values == Map(own, EvidenceOf())
  {
    hide FieldLineProblems, EvidenceOf, FlatMap, Map;
    if own == [] {
      LinesOfNone();
      return [MissingField(f)], [];
    }
    errors, values := [], [];
    LinesSoFar(p, f, own, 0);
    for i := 0 to |own|
      invariant errors == FlatMap(own[..i], FieldLineProblems(p, f)) && values == Map(own[..i], EvidenceOf())
    {
      LinesSoFar(p, f, own, i);
      var found, evidence := CheckFieldLine(p, f, own[i]);
      values := values + [evidence];
      errors := errors + found;
    }
    assert own[..|own|] == own;
  }

  lemma LinesOfNone()
    ensures Map([], EvidenceOf()) == []
  {
  }

  method CheckDoneGate(p: Patterns, gate: seq<GateLine>) returns (errors: seq<Problem>)
    ensures errors == DoneProblems(p, gate)
  {
    var unchecked := UncheckedProblems(gate, NumberedDone());
    var fields: seq<Problem>, expected: seq<string>, proof: seq<string> := [], [], [];
    for i := 0 to |FIELDS|
      invariant fields == FlatMap(FIELDS[..i], FieldProblems(p, gate))
      invariant i > 1 ==> expected == Map(CheckedFor(p, gate, ExpectedOutcome), EvidenceOf())
      invariant i > 6 ==> proof == Map(CheckedFor(p, gate, NamedProof), EvidenceOf())
    {
      FlatMapStep(FIELDS, i, FieldProblems(p, gate));
      var found, values := CheckField(p, gate, FIELDS[i]);
      fields := fields + found;
      if FIELDS[i] == ExpectedOutcome {
        expected := values;
      }
      if FIELDS[i] == NamedProof {
        proof := values;
      }
    }
    assert FIELDS[..|FIELDS|] == FIELDS;
    errors := unchecked + fields;
    var expectedText, proofText := JoinWords(expected), JoinWords(proof);
    if p.namedSurface(expectedText) && p.notApplicable(proofText) && !p.substitute(proofText) {
      errors := errors + [SurfaceUnproved];
    }
  }

  lemma AllFields(f: Field)
    ensures exists i :: 0 <= i < |FIELDS| && FIELDS[i] == f
  {
    match f
    case TaskType => assert FIELDS[0] == f;
    case ExpectedOutcome => assert FIELDS[1] == f;
    case NonGoals => assert FIELDS[2] == f;
    case Evidence => assert FIELDS[3] == f;
    case ProjectState => assert FIELDS[4] == f;
    case PostMergeProof => assert FIELDS[5] == f;
    case NamedProof => assert FIELDS[6] == f;
  }

  lemma NoUnchecked(gate: seq<GateLine>, problem: nat -> Problem)
    ensures FlatMap(gate, UncheckedIn(problem)) == [] <==> forall i :: 0 <= i < |gate| ==> gate[i].checked
  {
    FlatMapEmpty(gate, UncheckedIn(problem));
    forall i | 0 <= i < |gate| ensures UncheckedIn(problem)(gate[i]) == [] <==> gate[i].checked {}
  }

  /** A field is without problems exactly if it is there and all its lines are in order. */
  ghost predicate FieldHolds(p: Patterns, gate: seq<GateLine>, f: Field) {
    && CheckedFor(p, gate, f) != []
    && forall i :: 0 <= i < |gate| && gate[i].checked && p.fieldLine(f, gate[i].text) ==>
         !OnlyEdges(AfterColon(gate[i].text)) && !p.unresolvedDone(EvidenceAfterColon(gate[i].text))
  }

  /** The Done gate in words: all boxes ticked, every field there, every field line with settled evidence,
      and a named surface proved. */
  ghost predicate DoneHolds(p: Patterns, gate: seq<GateLine>) {
    && (forall i :: 0 <= i < |gate| ==> gate[i].checked)
    && (forall f: Field :: FieldHolds(p, gate, f))
    && !SurfaceLacksProof(p, gate)
  }

  lemma FieldLineHolds(p: Patterns, f: Field, g: GateLine)
    ensures FieldLineProblems(p, f)(g) == [] <==>
              !OnlyEdges(AfterColon(g.text)) && !p.unresolvedDone(EvidenceAfterColon(g.text))
  {
    TrimEmpty(AfterColon(g.text));
    var e := EvidenceAfterColon(g.text);
    assert FieldLineProblems(p, f)(g)
           == EvidenceProblems(e == "", p.unresolvedDone(e), EmptyField(g.number, f), UnresolvedField(g.number, f));
  }

  lemma NoFieldProblems(p: Patterns, gate: seq<GateLine>, f: Field)
    ensures FieldProblems(p, gate)(f) == [] <==> FieldHolds(p, gate, f)
  {
    var own := CheckedFor(p, gate, f);
    FlatMapEmpty(own, FieldLineProblems(p, f));
    FilterMembers(gate, ForField(p, f));
    if forall i :: 0 <= i < |own| ==> FieldLineProblems(p, f)(own[i]) == [] {
      forall i | 0 <= i < |gate| && gate[i].checked && p.fieldLine(f, gate[i].text)
        ensures !OnlyEdges(AfterColon(gate[i].text)) && !p.unresolvedDone(EvidenceAfterColon(gate[i].text))
      {
        assert gate[i] in own;
        var k :| 0 <= k < |own| && own[k] == gate[i];
        FieldLineHolds(p, f, own[k]);
      }
    }
    if FieldHolds(p, gate, f) {
      forall k | 0 <= k < |own| ensures FieldLineProblems(p, f)(own[k]) == [] {
        assert own[k] in own;
        var i :| 0 <= i < |gate| && gate[i] == own[k];
        FieldLineHolds(p, f, own[k]);
      }
    }
  }

  /** The Done gate is accepted exactly if it holds. */
  lemma DoneGateExactly(p: Patterns, gate: seq<GateLine>)
    ensures DoneProblems(p, gate) == [] <==> DoneHolds(p, gate)
  {
    hide FieldHolds, FieldProblems, UncheckedIn, SurfaceLacksProof, FlatMap;
    NoUnchecked(gate, NumberedDone());
    FlatMapEmpty(FIELDS, FieldProblems(p, gate));
    forall f: Field ensures FieldProblems(p, gate)(f) == [] <==> FieldHolds(p, gate, f) {
      NoFieldProblems(p, gate, f);
    }
    if forall i :: 0 <= i < |FIELDS| ==> FieldProblems(p, gate)(FIELDS[i]) == [] {
      forall f: Field ensures FieldHolds(p, gate, f) {
        AllFields(f);
      }
    }
  }

  function SectionProblems(p: Patterns, require: bool, section: Option<seq<Numbered>>): seq<Problem> {
    match section
    case None => if require then [MissingDoneGate] else []
    case Some(s) => DoneProblems(p, GateLines(p, s))
  }

  /** The errors are those of the Done gate section, one by one and in order. */
  ghost predicate AreDoneErrors(p: Patterns, lines: seq<string>, require: bool, errors: seq<Problem>) {
    exists section ::
      && IsSection(lines, p.doneHeading, p.anyHeading, section)
      && errors == SectionProblems(p, require, section)
  }

  method ValidateUniversalDoneGate(p: Patterns, lines: seq<string>, require: bool) returns (errors: seq<Problem>)
    ensures AreDoneErrors(p, lines, require, errors)
    ensures errors == [] <==> DoneGateAccepts(p, lines, require)
  {
    var section := ExtractHeadingSection(lines, p.doneHeading, p.anyHeading);
    DoneGateOf(p, lines, require, section);
    if section.None? {
      return if require then [MissingDoneGate] else [];
    }
    var gate := ParseGateLines(p, section.value);
    errors := CheckDoneGate(p, gate);
    DoneGateExactly(p, gate);
  }

  /** Without a section it depends on whether one is required; with one it has to hold. */
  ghost predicate SectionAccepts(p: Patterns, require: bool, section: Option<seq<Numbered>>) {
    match section
    case None => !require
    case Some(s) => DoneHolds(p, GateLines(p, s))
  }

  ghost predicate DoneGateAccepts(p: Patterns, lines: seq<string>, require: bool) {
    exists section :: IsSection(lines, p.doneHeading, p.anyHeading, section) && SectionAccepts(p, require, section)
  }

  lemma DoneGateOf(p: Patterns, lines: seq<string>, require: bool, section: Option<seq<Numbered>>)
    requires IsSection(lines, p.doneHeading, p.anyHeading, section)
    ensures DoneGateAccepts(p, lines, require) <==> SectionAccepts(p, require, section)
  {
    if DoneGateAccepts(p, lines, require) {
      var other :| IsSection(lines, p.doneHeading, p.anyHeading, other) && SectionAccepts(p, require, other);
      SectionIsDetermined(lines, p.doneHeading, p.anyHeading, section, other);
    }
  }

  // ---------- the issue gate ----------

  function ForIssue(p: Patterns, issue: int): GateLine -> bool {
    (g: GateLine) => g.checked && issue in p.refs(g.text)
  }

  function IssueLineProblems(p: Patterns, issue: int): GateLine -> seq<Problem> {
    (g: GateLine) =>
      EvidenceProblems(EvidenceWithoutRefs(p, g.text) == "", p.unresolved(g.text),
                       EmptyEvidence(g.number, issue), UnresolvedEvidence(g.number, issue))
  }

  function ReferenceProblems(p: Patterns, issue: int, own: seq<GateLine>): seq<Problem> {
    if own == [] then [MissingEvidence(issue)] else FlatMap(own, IssueLineProblems(p, issue))
  }

  function IssueProblems(p: Patterns, gate: seq<GateLine>): int -> seq<Problem> {
    (issue: int) => ReferenceProblems(p, issue, Filter(gate, ForIssue(p, issue)))
  }

  method CheckIssue(p: Patterns, gate: seq<GateLine>, issue: int) returns (errors: seq<Problem>)
    ensures errors == IssueProblems(p, gate)(issue)
  {
    errors := CheckReferences(p, issue, Filter(gate, ForIssue(p, issue)));
  }

  method CheckReference(p: Patterns, issue: int, g: GateLine) returns (errors: seq<Problem>)
    ensures errors == IssueLineProblems(p, issue)(g)
  {
    errors := [];
    if EvidenceWithoutRefs(p, g.text) == "" {
      errors := errors + [EmptyEvidence(g.number, issue)];
    }
    if p.unresolved(g.text) {
      errors := errors + [UnresolvedEvidence(g.number, issue)];
    }
  }

  method CheckReferences(p: Patterns, issue: int, own: seq<GateLine>) returns (errors: seq<Problem>)
    ensures errors == ReferenceProblems(p, issue, own)
  {
    if own == [] {
      return [MissingEvidence(issue)];
    }
    errors := [];
    for i := 0 to |own|
      invariant errors == FlatMap(own[..i], IssueLineProblems(p, issue))
    {
      FlatMapStep(own, i, IssueLineProblems(p, issue));
      var found := CheckReference(p, issue, own[i]);
      errors := errors + found;
    }
    assert own[..|own|] == own;
  }

  /** The problems of an issue gate, in the order in which they are reported. */
  function GateProblems(p: Patterns, gate: seq<GateLine>, issues: seq<int>): seq<Problem> {
    FlatMap(gate, UncheckedIn(NumberedGate())) + FlatMap(issues, IssueProblems(p, gate))
  }

  method CheckIssueGate(p: Patterns, gate: seq<GateLine>, issues: seq<int>) returns (errors: seq<Problem>)
    ensures errors == GateProblems(p, gate, issues)
  {
    var unchecked := UncheckedProblems(gate, NumberedGate());
    var rest: seq<Problem> := [];
    for i := 0 to |issues|
      invariant rest == FlatMap(issues[..i], IssueProblems(p, gate))
    {
      FlatMapStep(issues, i, IssueProblems(p, gate));
      var found := CheckIssue(p, gate, issues[i]);
      rest := rest + found;
    }
    assert issues[..|issues|] == issues;
    errors := unchecked + rest;
  }

  /** A closed issue is vouched for: a ticked line refers to it, and every such line says something settled. */
  ghost predicate IssueHolds(p: Patterns, gate: seq<GateLine>, issue: int) {
    && (exists i :: 0 <= i < |gate| && gate[i].checked && issue in p.refs(gate[i].text))
    && forall i :: 0 <= i < |gate| && gate[i].checked && issue in p.refs(gate[i].text) ==>
         !OnlyEdges(p.withoutRefs(gate[i].text)) && !p.unresolved(gate[i].text)
  }

  ghost predicate GateHolds(p: Patterns, gate: seq<GateLine>, lines: seq<string>) {
    && (forall i :: 0 <= i < |gate| ==> gate[i].checked)
    && forall i, issue :: 0 <= i < |lines| && issue in p.closes(lines[i]) ==> IssueHolds(p, gate, issue)
  }

  lemma ReferenceHolds(p: Patterns, issue: int, g: GateLine)
    ensures IssueLineProblems(p, issue)(g) == [] <==> !OnlyEdges(p.withoutRefs(g.text)) && !p.unresolved(g.text)
  {
    TrimEmpty(p.withoutRefs(g.text));
    var e := EvidenceWithoutRefs(p, g.text);
    assert IssueLineProblems(p, issue)(g)
        == EvidenceProblems(e == "", p.unresolved(g.text), EmptyEvidence(g.number, issue),
                            UnresolvedEvidence(g.number, issue));
  }

  lemma NoIssueProblems(p: Patterns, gate: seq<GateLine>, issue: int)
    ensures IssueProblems(p, gate)(issue) == [] <==> IssueHolds(p, gate, issue)
  {
    var own := Filter(gate, ForIssue(p, issue));
    FlatMapEmpty(own, IssueLineProblems(p, issue));
    FilterMembers(gate, ForIssue(p, issue));
    if own != [] {
      assert own[0] in own;
    }
    if own != [] && forall i :: 0 <= i < |own| ==> IssueLineProblems(p, issue)(own[i]) == [] {
      forall i | 0 <= i < |gate| && gate[i].checked && issue in p.refs(gate[i].text)
        ensures !OnlyEdges(p.withoutRefs(gate[i].text)) && !p.unresolved(gate[i].text)
      {
        assert gate[i] in own;
        var k :| 0 <= k < |own| && own[k] == gate[i];
        ReferenceHolds(p, issue, own[k]);
      }
    }
    if IssueHolds(p, gate, issue) {
      var j :| 0 <= j < |gate| && gate[j].checked && issue in p.refs(gate[j].text);
      assert gate[j] in own;
      forall k | 0 <= k < |own| ensures IssueLineProblems(p, issue)(own[k]) == [] {
        assert own[k] in own;
        var i :| 0 <= i < |gate| && gate[i] == own[k];
        ReferenceHolds(p, issue, own[k]);
      }
    }
  }

  lemma IssueGateExactly(p: Patterns, gate: seq<GateLine>, issues: seq<int>, lines: seq<string>)
    requires AreClosed(p, lines, issues)
    ensures GateProblems(p, gate, issues) == [] <==> GateHolds(p, gate, lines)
  {
    NoUnchecked(gate, NumberedGate());
    FlatMapEmpty(issues, IssueProblems(p, gate));
    forall issue ensures IssueProblems(p, gate)(issue) == [] <==> IssueHolds(p, gate, issue) {
      NoIssueProblems(p, gate, issue);
    }
    if forall i :: 0 <= i < |issues| ==> IssueProblems(p, gate)(issues[i]) == [] {
      forall i, issue | 0 <= i < |lines| && issue in p.closes(lines[i]) ensures IssueHolds(p, gate, issue) {
        assert issue in issues;
      }
    }
    if GateHolds(p, gate, lines) {
      forall i | 0 <= i < |issues| ensures IssueProblems(p, gate)(issues[i]) == [] {
        assert issues[i] in issues;
      }
    }
  }

  // ---------- the whole body ----------

  /** The issues that some line closes. */
  ghost predicate AreClosed(p: Patterns, lines: seq<string>, issues: seq<int>) {
    forall issue :: issue in issues <==> exists i :: 0 <= i < |lines| && issue in p.closes(lines[i])
  }

  method FindClosingRefs(p: Patterns, lines: seq<string>) returns (refs: seq<int>)
    ensures AreClosed(p, lines, refs)
  {
    refs := [];
    for i := 0 to |lines|
      invariant forall issue :: issue in refs <==> exists j :: 0 <= j < i && issue in p.closes(lines[j])
    {
      refs := refs + p.closes(lines[i]);
    }
  }

  function Copies(n: nat, line: nat): (r: seq<Problem>)
    ensures |r| == n && forall e :: e in r ==> e == NegatedClose(line)
  {
    seq(n, _ => NegatedClose(line))
  }

  /** One error for every negated phrase, line by line. */
  function NegatedProblems(p: Patterns, lines: seq<string>): seq<Problem> {
    if lines == [] then []
    else NegatedProblems(p, lines[..|lines| - 1]) + Copies(p.negated(lines[|lines| - 1]), |lines|)
  }

  method FindNegatedPhrases(p: Patterns, lines: seq<string>) returns (errors: seq<Problem>)
    ensures errors == NegatedProblems(p, lines)
    ensures errors == [] <==> forall i :: 0 <= i < |lines| ==> p.negated(lines[i]) == 0
    ensures forall e :: e in errors ==> e.NegatedClose? && 1 <= e.line <= |lines| && p.negated(lines[e.line - 1]) > 0
  {
    errors := [];
    for i := 0 to |lines|
      invariant errors == NegatedProblems(p, lines[..i])
      invariant errors == [] <==> forall j :: 0 <= j < i ==> p.negated(lines[j]) == 0
      invariant forall e :: e in errors ==> e.NegatedClose? && 1 <= e.line <= i && p.negated(lines[e.line - 1]) > 0
    {
      assert lines[..i + 1][..i] == lines[..i];
      var found := Copies(p.negated(lines[i]), i + 1);
      assert found != [] ==> found[0] in found;
      errors := errors + found;
    }
    assert lines[..|lines|] == lines;
  }

  ghost predicate IssueGateAccepts(p: Patterns, lines: seq<string>) {
    exists s :: IsSection(lines, p.gateHeading, p.anyHeading, Some(s)) && GateHolds(p, GateLines(p, s), lines)
  }

  /** What is accepted: no negated closing phrase, a sound Done gate, and either nothing is closed or the
      issue gate vouches for everything that is. */
  ghost predicate Accepts(p: Patterns, lines: seq<string>, require: bool) {
    && (forall i :: 0 <= i < |lines| ==> p.negated(lines[i]) == 0)
    && DoneGateAccepts(p, lines, require)
    && ((forall i :: 0 <= i < |lines| ==> p.closes(lines[i]) == []) || IssueGateAccepts(p, lines))
  }

  lemma IssueGateOf(p: Patterns, lines: seq<string>, section: Option<seq<Numbered>>)
    requires IsSection(lines, p.gateHeading, p.anyHeading, section)
    ensures IssueGateAccepts(p, lines) <==> section.Some? && GateHolds(p, GateLines(p, section.value), lines)
  {
    if IssueGateAccepts(p, lines) {
      var s :| IsSection(lines, p.gateHeading, p.anyHeading, Some(s)) && GateHolds(p, GateLines(p, s), lines);
      SectionIsDetermined(lines, p.gateHeading, p.anyHeading, section, Some(s));
    }
  }

  function AtMost(): (int, int) -> bool {
    (a: int, b: int) => a <= b
  }

  /** The closed issues in order, each once. */
  ghost predicate AreSortedClosed(p: Patterns, lines: seq<string>, issues: seq<int>) {
    AreClosed(p, lines, issues) && SortedBy(issues, AtMost()) && Distinct(issues)
  }

  function ClosureProblems(p: Patterns, section: Option<seq<Numbered>>, issues: seq<int>): seq<Problem> {
    match section
    case None => [MissingGate]
    case Some(s) => GateProblems(p, GateLines(p, s), issues)
  }

  /** The errors are those of the issue gate section, for the closed issues in order. */
  ghost predicate AreGateErrors(p: Patterns, lines: seq<string>, errors: seq<Problem>) {
    exists section, issues ::
      && IsSection(lines, p.gateHeading, p.anyHeading, section) && AreSortedClosed(p, lines, issues)
      && errors == ClosureProblems(p, section, issues)
  }

  lemma SortedIssues(p: Patterns, lines: seq<string>, refs: seq<int>)
    requires AreClosed(p, lines, refs)
    ensures AreSortedClosed(p, lines, StableSort(Dedup(refs), AtMost()))
  {
    var issues := StableSort(Dedup(refs), AtMost());
    SortSorted(Dedup(refs), AtMost());
    SortPermutes(Dedup(refs), AtMost());
    SameMembers(Dedup(refs), issues);
    DistinctPermutation(Dedup(refs), issues);
  }

  method ValidateIssueGate(p: Patterns, lines: seq<string>, refs: seq<int>) returns (errors: seq<Problem>)
    requires AreClosed(p, lines, refs)
    ensures AreGateErrors(p, lines, errors)
    ensures errors == [] <==> IssueGateAccepts(p, lines)
  {
    var section := ExtractHeadingSection(lines, p.gateHeading, p.anyHeading);
    IssueGateOf(p, lines, section);
    var issues := StableSort(Dedup(refs), AtMost());
    SortedIssues(p, lines, refs);
    hide IsSection, GateProblems, GateHolds, GateLines, IssueGateAccepts, StableSort;
    if section.None? {
      errors := [MissingGate];
    } else {
      var gate := ParseGateLines(p, section.value);
      errors := CheckIssueGate(p, gate, issues);
      IssueGateExactly(p, gate, issues, lines);
    }
    assert errors == ClosureProblems(p, section, issues);
  }

  predicate NothingNegated(p: Patterns, lines: seq<string>) {
    forall i :: 0 <= i < |lines| ==> p.negated(lines[i]) == 0
  }

  predicate NothingCloses(p: Patterns, lines: seq<string>) {
    forall i :: 0 <= i < |lines| ==> p.closes(lines[i]) == []
  }

  /** The errors of a body: its negated phrases if there are any; otherwise those of the Done gate, and behind
      them those of the issue gate if anything is closed. */
  ghost predicate AreErrors(p: Patterns, lines: seq<string>, require: bool, errors: seq<Problem>) {
    if !NothingNegated(p, lines) then errors == NegatedProblems(p, lines)
    else exists done, more :: errors == done + more && AreErrorParts(p, lines, require, done, more)
  }

  ghost predicate AreErrorParts(p: Patterns, lines: seq<string>, require: bool, done: seq<Problem>,
                                more: seq<Problem>) {
    && AreDoneErrors(p, lines, require, done)
    && if NothingCloses(p, lines) then more == [] else AreGateErrors(p, lines, more)
  }

  /** The lines determine the errors, one by one and in order. */
  lemma ErrorsAreDetermined(p: Patterns, lines: seq<string>, require: bool, a: seq<Problem>, b: seq<Problem>)
    requires AreErrors(p, lines, require, a) && AreErrors(p, lines, require, b)
    ensures a == b
  {
    if NothingNegated(p, lines) {
      hide AreDoneErrors, AreGateErrors, NothingNegated, NothingCloses;
      var c, d :| a == c + d && AreErrorParts(p, lines, require, c, d);
      var e, f :| b == e + f && AreErrorParts(p, lines, require, e, f);
      SameDoneErrors(p, lines, require, c, e);
      if !NothingCloses(p, lines) {
        SameGateErrors(p, lines, d, f);
      }
    }
  }

  lemma SameDoneErrors(p: Patterns, lines: seq<string>, require: bool, a: seq<Problem>, b: seq<Problem>)
    requires AreDoneErrors(p, lines, require, a) && AreDoneErrors(p, lines, require, b)
    ensures a == b
  {
    hide IsSection, SectionProblems;
    var s :| IsSection(lines, p.doneHeading, p.anyHeading, s) && a == SectionProblems(p, require, s);
    var t :| IsSection(lines, p.doneHeading, p.anyHeading, t) && b == SectionProblems(p, require, t);
    SectionIsDetermined(lines, p.doneHeading, p.anyHeading, s, t);
  }

  lemma SameGateErrors(p: Patterns, lines: seq<string>, a: seq<Problem>, b: seq<Problem>)
    requires AreGateErrors(p, lines, a) && AreGateErrors(p, lines, b)
    ensures a == b
  {
    hide IsSection, AreSortedClosed, ClosureProblems;
    var s, x :| IsSection(lines, p.gateHeading, p.anyHeading, s) && AreSortedClosed(p, lines, x)
        && a == ClosureProblems(p, s, x);
    var t, y :| IsSection(lines, p.gateHeading, p.anyHeading, t) && AreSortedClosed(p, lines, y)
        && b == ClosureProblems(p, t, y);
    SectionIsDetermined(lines, p.gateHeading, p.anyHeading, s, t);
    SameClosed(p, lines, x, y);
  }

  lemma SameClosed(p: Patterns, lines: seq<string>, x: seq<int>, y: seq<int>)
    requires AreSortedClosed(p, lines, x) && AreSortedClosed(p, lines, y)
    ensures x == y
  {
    forall issue ensures issue in x <==> issue in y {
      assert issue in x <==> exists i :: 0 <= i < |lines| && issue in p.closes(lines[i]);
    }
    DistinctPermuted(x, y);
    SortedUnique(x, y, AtMost());
  }

  method ValidateLines(p: Patterns, lines: seq<string>, require: bool) returns (errors: seq<Problem>)
    ensures AreErrors(p, lines, require, errors)
    ensures errors == [] <==> Accepts(p, lines, require)
    ensures (exists i :: 0 <= i < |lines| && p.negated(lines[i]) > 0) ==> forall e :: e in errors ==> e.NegatedClose?
  {
    errors := FindNegatedPhrases(p, lines);
    if errors != [] {
      return;
    }
    hide NegatedProblems, AreDoneErrors, AreGateErrors, DoneGateAccepts, IssueGateAccepts, AreClosed;
    errors := ValidateUniversalDoneGate(p, lines, require);
    ghost var done := errors;
    var refs := FindClosingRefs(p, lines);
    NothingClosed(p, lines, refs);
    if refs == [] {
      assert errors == done + [] && AreErrorParts(p, lines, require, done, []);
      return;
    }
    var more := ValidateIssueGate(p, lines, refs);
    errors := errors + more;
    assert AreErrorParts(p, lines, require, done, more);
  }

  lemma NothingClosed(p: Patterns, lines: seq<string>, refs: seq<int>)
    requires AreClosed(p, lines, refs)
    ensures refs == [] <==> forall i :: 0 <= i < |lines| ==> p.closes(lines[i]) == []
  {
    if refs != [] {
      var issue := refs[0];
      assert issue in refs;
      var i :| 0 <= i < |lines| && issue in p.closes(lines[i]);
    }
    forall i | 0 <= i < |lines| && p.closes(lines[i]) != [] ensures refs != [] {
      var issue := p.closes(lines[i])[0];
      assert issue in p.closes(lines[i]);
      assert issue in refs;
    }
  }
}
