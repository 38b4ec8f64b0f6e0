/** The issue completion gate in the words of its lines: what is accepted, and which errors are reported. */
module IssueGateLines {
  import opened Basics
  import opened IssueGate
  import Comments

  // ---------- ticked and unticked lines ----------

  predicate Ticked(p: Patterns, line: string, text: string) {
    p.checked(line) == Some(text)
  }

  predicate Unticked(p: Patterns, line: string) {
    p.checked(line).None? && p.unchecked(line).Some?
  }

  function BoxLine(p: Patterns): Numbered -> bool {
    (n: Numbered) => p.checked(n.text).Some? || p.unchecked(n.text).Some?
  }

  /** A gate line is a box of the section: under its number, with its text, ticked if its box is. */
  predicate IsBoxOf(p: Patterns, n: Numbered, g: GateLine) {
    && g.number == n.number
    && (if g.checked then Ticked(p, n.text, g.text)
        else Unticked(p, n.text) && p.unchecked(n.text) == Some(g.text))
  }

  /** The gate lines of a section are its boxes, one by one and in order. */
  lemma GateLinesAre(p: Patterns, s: seq<Numbered>) returns (at: seq<nat>)
    ensures var own := Filter(s, IsBox(p)); ArePositions(s, BoxLine(p), own, at) && |own| == |GateLines(p, s)|
    ensures forall i :: 0 <= i < |at| ==> IsBoxOf(p, s[at[i]], GateLines(p, s)[i])
  {
    at := FilterPositions(s, IsBox(p));
    SamePositions(s, IsBox(p), BoxLine(p), Filter(s, IsBox(p)), at);
    hide AllListed;
    forall i | 0 <= i < |at| ensures IsBoxOf(p, s[at[i]], GateLines(p, s)[i]) {
      assert GateLines(p, s)[i] == Box(p)(s[at[i]]);
    }
  }

  lemma SamePositions<T>(s: seq<T>, p: T -> bool, q: T -> bool, t: seq<T>, at: seq<nat>)
    requires ArePositions(s, p, t, at) && forall i :: 0 <= i < |s| ==> (p(s[i]) <==> q(s[i]))
    ensures ArePositions(s, q, t, at)
  {
  }

  lemma BoxInSection(p: Patterns, s: seq<Numbered>, g: GateLine) returns (i: nat)
    requires g in GateLines(p, s)
    ensures i < |s| && IsBoxOf(p, s[i], g)
  {
    var own := Filter(s, IsBox(p));
    var k :| 0 <= k < |own| && GateLines(p, s)[k] == g;
    FilterMember(s, IsBox(p), own[k]);
    i :| 0 <= i < |s| && s[i] == own[k];
  }

  lemma BoxOfLine(p: Patterns, s: seq<Numbered>, i: nat) returns (g: GateLine)
    requires i < |s| && BoxLine(p)(s[i])
    ensures g in GateLines(p, s) && IsBoxOf(p, s[i], g)
  {
    var own := Filter(s, IsBox(p));
    g := Box(p)(s[i]);
    FilterMember(s, IsBox(p), s[i]);
    var k :| 0 <= k < |own| && own[k] == s[i];
    assert GateLines(p, s)[k] == g;
  }

  /** A ticked line of the section is a ticked gate line, and the other way round. */
  lemma TickedLines(p: Patterns, s: seq<Numbered>, number: nat, text: string)
    ensures GateLine(number, text, true) in GateLines(p, s) <==>
      exists i :: 0 <= i < |s| && s[i].number == number && Ticked(p, s[i].text, text)
  {
    if GateLine(number, text, true) in GateLines(p, s) {
      var i := BoxInSection(p, s, GateLine(number, text, true));
    }
    if i :| 0 <= i < |s| && s[i].number == number && Ticked(p, s[i].text, text) {
      var g := BoxOfLine(p, s, i);
      assert g == GateLine(number, text, true);
    }
  }

  lemma UntickedLines(p: Patterns, s: seq<Numbered>, number: nat)
    ensures (exists text :: GateLine(number, text, false) in GateLines(p, s)) <==>
      exists i :: 0 <= i < |s| && s[i].number == number && Unticked(p, s[i].text)
  {
    if text :| GateLine(number, text, false) in GateLines(p, s) {
      var i := BoxInSection(p, s, GateLine(number, text, false));
    }
    if i :| 0 <= i < |s| && s[i].number == number && Unticked(p, s[i].text) {
      var g := BoxOfLine(p, s, i);
      assert g == GateLine(number, g.text, false);
    }
  }

  // ---------- evidence ----------

  predicate Separators(s: string) {
    forall c :: c in s ==> c in {' ', '\t', ':', '-', ';', ',', '.', '/'}
  }

  /** What is left of a text without the separators at its ends. */
  ghost predicate IsTrimmed(text: string, rest: string) {
    && (exists a, b :: text == a + rest + b && Separators(a) && Separators(b))
    && (rest != "" ==> !Separators([rest[0]]) && !Separators([rest[|rest| - 1]]))
  }

  ghost predicate IsAfterColon(text: string, rest: string) {
    if ':' in text then exists k: nat :: k < |text| && text[k] == ':' && ':' !in text[..k] && rest == text[k + 1..]
    else rest == ""
  }

  /** The evidence of a field line: what its first colon introduces, trimmed. */
  ghost predicate IsEvidence(text: string, evidence: string) {
    exists rest :: IsAfterColon(text, rest) && IsTrimmed(rest, evidence)
  }

  lemma EdgesAre(s: string)
    ensures Separators(s) <==> OnlyEdges(s)
  {
    var edges: string := " \t:-;,./";
    assert edges[0] == ' ' && edges[1] == '\t' && edges[2] == ':' && edges[3] == '-' && edges[4] == ';'
        && edges[5] == ',' && edges[6] == '.' && edges[7] == '/' && |edges| == 8;
    forall c ensures c in edges <==> c in {' ', '\t', ':', '-', ';', ',', '.', '/'} {}
  }

  lemma {:induction false} TrimLeftIs(s: string) returns (a: string)
    ensures s == a + TrimLeft(s) && OnlyEdges(a) && (TrimLeft(s) != "" ==> !IsEdge(TrimLeft(s)[0]))
  {
    hide IsEdge;
    if s == "" || !IsEdge(s[0]) {
      a := "";
      assert s == a + s;
    } else {
      var rest := TrimLeftIs(s[1..]);
      a := [s[0]] + rest;
      assert s == [s[0]] + s[1..];
    }
  }

  lemma {:induction false} TrimRightIs(s: string) returns (b: string)
    ensures s == TrimRight(s) + b && OnlyEdges(b)
    ensures TrimRight(s) != "" ==> TrimRight(s)[0] == s[0] && !IsEdge(TrimRight(s)[|TrimRight(s)| - 1])
  {
    hide IsEdge;
    if s == "" || !IsEdge(s[|s| - 1]) {
      b := "";
      assert s == s + b;
    } else {
      var rest := TrimRightIs(s[..|s| - 1]);
      b := rest + [s[|s| - 1]];
      assert s == s[..|s| - 1] + [s[|s| - 1]];
    }
  }

  lemma EdgeOne(c: char)
    ensures IsEdge(c) <==> Separators([c])
  {
    EdgesAre([c]);
    assert c in [c];
  }

  lemma TrimIs(s: string)
    ensures IsTrimmed(s, Trim(s))
  {
    hide IsEdge, Separators;
    var a := TrimLeftIs(s);
    var b := TrimRightIs(TrimLeft(s));
    EdgesAre(a);
    EdgesAre(b);
    var rest := Trim(s);
    assert s == a + rest + b;
    if rest != "" {
      EdgeOne(rest[0]);
      EdgeOne(rest[|rest| - 1]);
    }
  }

  lemma FirstColon(s: string)
    ensures var k := Comments.FindFrom(s, ":", 0);
      if k == -1 then ':' !in s else 0 <= k < |s| && s[k] == ':' && ':' !in s[..k]
  {
    forall j | 0 <= j <= |s| ensures ":" <= s[j..] <==> j < |s| && s[j] == ':' {}
  }

  lemma EvidenceIs(text: string)
    ensures IsEvidence(text, EvidenceAfterColon(text))
  {
    FirstColon(text);
    TrimIs(AfterColon(text));
    hide IsTrimmed;
    assert IsAfterColon(text, AfterColon(text));
  }

  /** Texts are joined with a blank between them. */
  lemma {:induction false} JoinFromFront(words: seq<string>)
    ensures words == [] ==> JoinWords(words) == ""
    ensures |words| == 1 ==> JoinWords(words) == words[0]
    ensures |words| > 1 ==> JoinWords(words) == words[0] + " " + JoinWords(words[1..])
  {
    if |words| > 2 {
      var front, last := words[..|words| - 1], words[|words| - 1];
      JoinFromFront(front);
      assert words[1..][..|words| - 2] == front[1..] && words[1..][|words| - 2] == last;
    } else if |words| == 2 {
      assert words[1..] == [words[1]] && words[..1] == [words[0]];
    }
  }

  // ---------- what is accepted ----------

  predicate NamesField(p: Patterns, line: string, f: Field) {
    p.checked(line).Some? && p.fieldLine(f, p.checked(line).value)
  }

  predicate NamesIssue(p: Patterns, line: string, issue: int) {
    p.checked(line).Some? && issue in p.refs(p.checked(line).value)
  }

  /** A field is named on a ticked line, and wherever it is, settled evidence is given for it. */
  ghost predicate FieldGiven(p: Patterns, s: seq<Numbered>, f: Field) {
    && (exists i :: 0 <= i < |s| && NamesField(p, s[i].text, f))
    && forall i :: 0 <= i < |s| && NamesField(p, s[i].text, f) ==>
         var evidence := EvidenceAfterColon(p.checked(s[i].text).value);
         evidence != "" && !p.unresolvedDone(evidence)
  }

  function FieldNamed(p: Patterns, f: Field): Numbered -> bool {
    (n: Numbered) => NamesField(p, n.text, f)
  }

  function EvidenceOn(p: Patterns): Numbered -> string {
    (n: Numbered) => if p.checked(n.text).Some? then EvidenceAfterColon(p.checked(n.text).value) else ""
  }

  /** All that is said about a field, line after line. */
  function Said(p: Patterns, s: seq<Numbered>, f: Field): string {
    JoinWords(Map(Filter(s, FieldNamed(p, f)), EvidenceOn(p)))
  }

  /** No box is open, every field is given, and if the outcome names a surface its proof is not said to be
      inapplicable without a substitute. */
  ghost predicate DoneLinesHold(p: Patterns, s: seq<Numbered>) {
    && (forall i :: 0 <= i < |s| ==> !Unticked(p, s[i].text))
    && (forall f: Field :: FieldGiven(p, s, f))
    && !(p.namedSurface(Said(p, s, ExpectedOutcome)) && p.notApplicable(Said(p, s, NamedProof))
         && !p.substitute(Said(p, s, NamedProof)))
  }

  /** A closed issue is named on a ticked line, and wherever it is, something settled is said besides. */
  ghost predicate IssueGiven(p: Patterns, s: seq<Numbered>, issue: int) {
    && (exists i :: 0 <= i < |s| && NamesIssue(p, s[i].text, issue))
    && forall i :: 0 <= i < |s| && NamesIssue(p, s[i].text, issue) ==>
         var text := p.checked(s[i].text).value;
         !Separators(p.withoutRefs(text)) && !p.unresolved(text)
  }

  ghost predicate IssueLinesHold(p: Patterns, s: seq<Numbered>, lines: seq<string>) {
    && (forall i :: 0 <= i < |s| ==> !Unticked(p, s[i].text))
    && forall i, issue :: 0 <= i < |lines| && issue in p.closes(lines[i]) ==> IssueGiven(p, s, issue)
  }

  lemma AllTicked(p: Patterns, s: seq<Numbered>)
    ensures (forall k :: 0 <= k < |GateLines(p, s)| ==> GateLines(p, s)[k].checked)
            <==> forall i :: 0 <= i < |s| ==> !Unticked(p, s[i].text)
  {
    var gate := GateLines(p, s);
    if forall k :: 0 <= k < |gate| ==> gate[k].checked {
      forall i | 0 <= i < |s| ensures !Unticked(p, s[i].text) {
        if BoxLine(p)(s[i]) {
          var g := BoxOfLine(p, s, i);
        }
      }
    }
    if forall i :: 0 <= i < |s| ==> !Unticked(p, s[i].text) {
      forall k | 0 <= k < |gate| ensures gate[k].checked {
        var i := BoxInSection(p, s, gate[k]);
      }
    }
  }

  lemma FieldInLines(p: Patterns, s: seq<Numbered>, f: Field)
    ensures FieldHolds(p, GateLines(p, s), f) <==> FieldGiven(p, s, f)
  {
    var gate := GateLines(p, s);
    hide GateLines;
    FilterMembers(gate, ForField(p, f));
    if FieldHolds(p, gate, f) {
      assert CheckedFor(p, gate, f)[0] in CheckedFor(p, gate, f);
      var i := BoxInSection(p, s, CheckedFor(p, gate, f)[0]);
      assert NamesField(p, s[i].text, f);
      forall i | 0 <= i < |s| && NamesField(p, s[i].text, f)
        ensures var evidence := EvidenceAfterColon(p.checked(s[i].text).value);
                evidence != "" && !p.unresolvedDone(evidence)
      {
        var g := BoxOfLine(p, s, i);
        TrimEmpty(AfterColon(g.text));
      }
    }
    if FieldGiven(p, s, f) {
      var i :| 0 <= i < |s| && NamesField(p, s[i].text, f);
      var g := BoxOfLine(p, s, i);
      assert g in CheckedFor(p, gate, f);
      forall k | 0 <= k < |gate| && gate[k].checked && p.fieldLine(f, gate[k].text)
        ensures !OnlyEdges(AfterColon(gate[k].text)) && !p.unresolvedDone(EvidenceAfterColon(gate[k].text))
      {
        var j := BoxInSection(p, s, gate[k]);
        assert NamesField(p, s[j].text, f);
        TrimEmpty(AfterColon(gate[k].text));
      }
    }
  }

  lemma SaidInLines(p: Patterns, s: seq<Numbered>, f: Field)
    ensures FieldText(p, GateLines(p, s), f) == Said(p, s, f)
  {
    var own := Filter(s, IsBox(p));
    var named := FieldNamed(p, f);
    FilterMapped(own, Box(p), ForField(p, f), named);
    FilterTwice(s, IsBox(p), named, named);
    var lines := Filter(s, named);
    FilterMembers(s, named);
    forall i | 0 <= i < |lines| ensures EvidenceOf()(Box(p)(lines[i])) == EvidenceOn(p)(lines[i]) {
      assert lines[i] in lines;
    }
    assert Map(Map(lines, Box(p)), EvidenceOf()) == Map(lines, EvidenceOn(p));
  }

  /** What holds of the gate lines of a Done section holds of its lines, and the other way round. */
  lemma DoneInLines(p: Patterns, s: seq<Numbered>)
    ensures DoneHolds(p, GateLines(p, s)) <==> DoneLinesHold(p, s)
  {
    AllTicked(p, s);
    forall f: Field ensures FieldHolds(p, GateLines(p, s), f) <==> FieldGiven(p, s, f) {
      FieldInLines(p, s, f);
    }
    SaidInLines(p, s, ExpectedOutcome);
    SaidInLines(p, s, NamedProof);
    hide GateLines, FieldHolds, FieldGiven, Said, FieldText, Unticked;
  }

  lemma IssueInLines(p: Patterns, s: seq<Numbered>, issue: int)
    ensures IssueHolds(p, GateLines(p, s), issue) <==> IssueGiven(p, s, issue)
  {
    var gate := GateLines(p, s);
    hide GateLines;
    if IssueHolds(p, gate, issue) {
      var k :| 0 <= k < |gate| && gate[k].checked && issue in p.refs(gate[k].text);
      var j := BoxInSection(p, s, gate[k]);
      assert NamesIssue(p, s[j].text, issue);
      forall i | 0 <= i < |s| && NamesIssue(p, s[i].text, issue)
        ensures var text := p.checked(s[i].text).value; !Separators(p.withoutRefs(text)) && !p.unresolved(text)
      {
        var g := BoxOfLine(p, s, i);
        EdgesAre(p.withoutRefs(g.text));
      }
    }
    if IssueGiven(p, s, issue) {
      var i :| 0 <= i < |s| && NamesIssue(p, s[i].text, issue);
      var g := BoxOfLine(p, s, i);
      forall k | 0 <= k < |gate| && gate[k].checked && issue in p.refs(gate[k].text)
        ensures !OnlyEdges(p.withoutRefs(gate[k].text)) && !p.unresolved(gate[k].text)
      {
        var j := BoxInSection(p, s, gate[k]);
        assert NamesIssue(p, s[j].text, issue);
        EdgesAre(p.withoutRefs(gate[k].text));
      }
    }
  }

  /** Likewise for the lines of a closure section. */
  lemma GateInLines(p: Patterns, s: seq<Numbered>, lines: seq<string>)
    ensures GateHolds(p, GateLines(p, s), lines) <==> IssueLinesHold(p, s, lines)
  {
    AllTicked(p, s);
    forall issue ensures IssueHolds(p, GateLines(p, s), issue) <==> IssueGiven(p, s, issue) {
      IssueInLines(p, s, issue);
    }
    hide GateLines, IssueHolds, IssueGiven, Unticked;
  }

  /** What is accepted: no negated closing phrase; a Done gate section that holds, or none where none is required;
      and if some line closes an issue, an issue gate section that vouches for every issue closed. */
  ghost predicate AcceptsLines(p: Patterns, lines: seq<string>, require: bool) {
    && (forall i :: 0 <= i < |lines| ==> p.negated(lines[i]) == 0)
    && (exists done :: IsSection(lines, p.doneHeading, p.anyHeading, done)
                       && if done.None? then !require else DoneLinesHold(p, done.value))
    && ((forall i :: 0 <= i < |lines| ==> p.closes(lines[i]) == [])
        || exists s :: IsSection(lines, p.gateHeading, p.anyHeading, Some(s)) && IssueLinesHold(p, s, lines))
  }

  lemma DoneAccepted(p: Patterns, require: bool, section: Option<seq<Numbered>>)
    ensures SectionAccepts(p, require, section)
            <==> if section.None? then !require else DoneLinesHold(p, section.value)
  {
    if section.Some? {
      DoneInLines(p, section.value);
    }
  }

  /** A body is accepted exactly if its lines are fit to be. */
  lemma AcceptsMeans(p: Patterns, lines: seq<string>, require: bool)
    ensures Accepts(p, lines, require) <==> AcceptsLines(p, lines, require)
  {
    forall section ensures SectionAccepts(p, require, section)
                           <==> if section.None? then !require else DoneLinesHold(p, section.value)
    {
      DoneAccepted(p, require, section);
    }
    forall s ensures GateHolds(p, GateLines(p, s), lines) <==> IssueLinesHold(p, s, lines) {
      GateInLines(p, s, lines);
    }
    hide IsSection, SectionAccepts, DoneLinesHold, GateHolds, GateLines, IssueLinesHold;
  }
}
