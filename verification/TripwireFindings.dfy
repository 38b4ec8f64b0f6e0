/** What the tripwire reports, in the words of the lines: which items, under which priority, in which order. */
module TripwireFindings {
  import opened Basics
  import opened Tripwire

  // ---------- the priority in force ----------

  /** Heading i names this priority, and every heading after it names none, high or low, and is deeper. */
  ghost predicate InForce(p: Patterns, lines: seq<string>, i: nat, priority: string) {
    && i < |lines| && !p.blank(lines[i]) && p.heading(lines[i]).Some?
    && p.priority(p.heading(lines[i]).value.text) == Some(priority)
    && forall j :: i < j < |lines| && !p.blank(lines[j]) && p.heading(lines[j]).Some? ==>
         var h := p.heading(lines[j]).value;
         p.priority(h.text).None? && !p.anyPriority(h.text) && h.level > p.heading(lines[i]).value.level
  }

  ghost predicate SomeInForce(p: Patterns, lines: seq<string>, priority: string) {
    exists i: nat :: InForce(p, lines, i, priority)
  }

  lemma GovernsReads(p: Patterns, lines: seq<string>, i: nat)
    ensures Governs(p, lines, i) <==>
      i < |lines| && p.heading(lines[i]).Some? && p.priority(p.heading(lines[i]).value.text).Some?
      && InForce(p, lines, i, p.priority(p.heading(lines[i]).value.text).value)
  {
  }

  lemma RegisterReads(p: Patterns, lines: seq<string>, priority: string)
    ensures ContextAfter(p, lines).priority == Some(priority) <==> exists i: nat :: InForce(p, lines, i, priority)
  {
    RegisterClosedForm(p, lines);
    hide ContextAfter;
    forall i: nat ensures Governs(p, lines, i) <==>
      i < |lines| && p.heading(lines[i]).Some? && p.priority(p.heading(lines[i]).value.text).Some?
      && InForce(p, lines, i, p.priority(p.heading(lines[i]).value.text).value)
    {
      GovernsReads(p, lines, i);
    }
    hide Governs;
    if ContextAfter(p, lines).priority == Some(priority) {
      var i: nat :| Governs(p, lines, i);
      assert InForce(p, lines, i, priority);
    }
    if i: nat :| InForce(p, lines, i, priority) {
      assert Governs(p, lines, i);
    }
  }

  // ---------- items ----------

  predicate Opens(p: Patterns, line: string) {
    p.heading(line).Some? || p.listItem(line)
  }

  /** An item: lines with text, of which only the first may start a list item and none is a heading; it is not
      cut short at either end. */
  ghost predicate IsItem(p: Patterns, lines: seq<string>, s: nat, e: nat) {
    && s < e <= |lines| && p.heading(lines[s]).None?
    && (forall i :: s <= i < e ==> !p.blank(lines[i]) && (s < i ==> !Opens(p, lines[i])))
    && (s > 0 ==> p.blank(lines[s - 1]) || p.heading(lines[s - 1]).Some? || p.listItem(lines[s]))
    && (e < |lines| ==> p.blank(lines[e]) || Opens(p, lines[e]))
  }

  lemma KindReads(p: Patterns, line: string)
    ensures KindOf(p, line) == HeadingBlock <==> p.heading(line).Some?
    ensures KindOf(p, line) == ListItem <==> p.heading(line).None? && p.listItem(line)
    ensures KindOf(p, line) == Paragraph <==> !Opens(p, line)
  {
  }

  /** The block that holds a line. */
  lemma BlockAt(p: Patterns, lines: seq<string>, blocks: seq<Block>, i: nat) returns (k: nat)
    requires AreBlocks(p, lines, |lines|, blocks) && i < |lines| && !p.blank(lines[i])
    ensures k < |blocks| && Covers(blocks[k], i) && IsBlock(p, lines, blocks[k])
  {
    k :| 0 <= k < |blocks| && Covers(blocks[k], i);
    assert IsBlock(p, lines, blocks[k]);
  }

  /** Blocks are not empty, and each begins after the one before it. */
  lemma {:induction false} Spans(p: Patterns, lines: seq<string>, blocks: seq<Block>, i: nat, j: nat)
    requires AreBlocks(p, lines, |lines|, blocks) && i <= j < |blocks|
    ensures 1 <= blocks[i].line <= End(blocks[i]) <= |lines| && 1 <= blocks[j].line <= End(blocks[j]) <= |lines|
    ensures i < j ==> End(blocks[i]) + j - i <= blocks[j].line
    decreases j
  {
    if i < j {
      Spans(p, lines, blocks, i, j - 1);
      assert IsBefore(blocks[j - 1], blocks[j]);
    }
  }

  lemma Neighbours(p: Patterns, lines: seq<string>, blocks: seq<Block>, j: nat, k: nat)
    requires AreBlocks(p, lines, |lines|, blocks) && j < |blocks| && k < |blocks|
    requires End(blocks[j]) == blocks[k].line - 1
    ensures blocks[j].kind == HeadingBlock || blocks[k].kind != Paragraph
  {
    if j <= k {
      Spans(p, lines, blocks, j, k);
    } else {
      Spans(p, lines, blocks, k, j);
    }
    assert k == j + 1;
    assert Separated(blocks[j], blocks[k]);
  }

  lemma ItemBegins(p: Patterns, lines: seq<string>, blocks: seq<Block>, k: nat)
    requires AreBlocks(p, lines, |lines|, blocks) && k < |blocks| && blocks[k].kind != HeadingBlock
    requires 0 < blocks[k].line - 1 < |lines| && !p.blank(lines[blocks[k].line - 2])
    ensures p.heading(lines[blocks[k].line - 2]).Some? || p.listItem(lines[blocks[k].line - 1])
  {
    var s := blocks[k].line - 1;
    Spans(p, lines, blocks, k, k);
    var j := BlockAt(p, lines, blocks, s - 1);
    EndsBefore(p, lines, blocks, j, k, s - 1);
    Neighbours(p, lines, blocks, j, k);
    assert IsBlock(p, lines, blocks[k]);
    hide AreBlocks, IsBlock;
    LineOf(p, lines, blocks[j], s - 1);
    LineOf(p, lines, blocks[k], s);
    KindReads(p, lines[s - 1]);
    KindReads(p, lines[s]);
  }

  lemma ItemEnds(p: Patterns, lines: seq<string>, blocks: seq<Block>, k: nat)
    requires AreBlocks(p, lines, |lines|, blocks) && k < |blocks| && blocks[k].kind != HeadingBlock
    requires 0 <= End(blocks[k]) < |lines| && !p.blank(lines[End(blocks[k])])
    ensures Opens(p, lines[End(blocks[k])])
  {
    var e := End(blocks[k]);
    var j := BlockAt(p, lines, blocks, e);
    BeginsAfter(p, lines, blocks, k, j, e);
    Neighbours(p, lines, blocks, k, j);
    hide AreBlocks, IsBlock;
    LineOf(p, lines, blocks[j], e);
    KindReads(p, lines[e]);
  }

  lemma BlockIsItem(p: Patterns, lines: seq<string>, blocks: seq<Block>, k: nat)
    requires AreBlocks(p, lines, |lines|, blocks) && k < |blocks| && blocks[k].kind != HeadingBlock
    ensures IsItem(p, lines, blocks[k].line - 1, End(blocks[k]))
    ensures blocks[k].lines == lines[blocks[k].line - 1..End(blocks[k])]
  {
    var b := blocks[k];
    var s, e := b.line - 1, End(b);
    Spans(p, lines, blocks, k, k);
    assert IsBlock(p, lines, b);
    if s > 0 && !p.blank(lines[s - 1]) {
      ItemBegins(p, lines, blocks, k);
    }
    if e < |lines| && !p.blank(lines[e]) {
      ItemEnds(p, lines, blocks, k);
    }
    assert b.lines == lines[s..e];
    hide AreBlocks, IsBlock;
    forall i | s <= i < e
      ensures !p.blank(lines[i]) && (s < i ==> !Opens(p, lines[i])) && (i == s ==> p.heading(lines[i]).None?)
    {
      LineOf(p, lines, b, i);
      KindReads(p, lines[i]);
    }
  }

  lemma EndsBefore(p: Patterns, lines: seq<string>, blocks: seq<Block>, j: nat, k: nat, i: nat)
    requires AreBlocks(p, lines, |lines|, blocks) && j < |blocks| && k < |blocks|
    requires Covers(blocks[j], i) && i + 1 == blocks[k].line - 1
    ensures End(blocks[j]) == i + 1
  {
    if j <= k {
      Spans(p, lines, blocks, j, k);
    } else {
      Spans(p, lines, blocks, k, j);
    }
  }

  lemma BeginsAfter(p: Patterns, lines: seq<string>, blocks: seq<Block>, k: nat, j: nat, i: nat)
    requires AreBlocks(p, lines, |lines|, blocks) && j < |blocks| && k < |blocks|
    requires Covers(blocks[j], i) && i == End(blocks[k])
    ensures blocks[j].line - 1 == i
  {
    if j <= k {
      Spans(p, lines, blocks, j, k);
    } else {
      Spans(p, lines, blocks, k, j);
    }
  }

  /** A line inside a block goes on with the one before it. */
  lemma GoesOn(p: Patterns, lines: seq<string>, b: Block, i: nat)
    requires IsBlock(p, lines, b) && Covers(b, i) && b.line - 1 < i < |lines|
    ensures !p.blank(lines[i - 1]) && p.heading(lines[i - 1]).None? && !p.blank(lines[i]) && !Opens(p, lines[i])
  {
    LineOf(p, lines, b, i);
    LineOf(p, lines, b, i - 1);
    KindReads(p, lines[i - 1]);
    KindReads(p, lines[i]);
  }

  lemma ItemIsBlock(p: Patterns, lines: seq<string>, blocks: seq<Block>, s: nat, e: nat) returns (k: nat)
    requires AreBlocks(p, lines, |lines|, blocks) && IsItem(p, lines, s, e)
    ensures k < |blocks| && blocks[k].line - 1 == s && End(blocks[k]) == e && blocks[k].kind != HeadingBlock
  {
    k := BlockAt(p, lines, blocks, s);
    var b := blocks[k];
    hide AreBlocks;
    KindReads(p, lines[s]);
    LineOf(p, lines, b, s);
    if b.line - 1 < s {
      GoesOn(p, lines, b, s);
    }
    if End(b) > e {
      GoesOn(p, lines, b, e);
    }
    if End(b) < e {
      ItemEnds(p, lines, blocks, k);
    }
  }

  // ---------- findings ----------

  /** The lines of an item are read as one text, with newlines between them. */
  lemma {:induction false} JoinFromFront(lines: seq<string>)
    ensures lines == [] ==> Join(lines) == ""
    ensures |lines| == 1 ==> Join(lines) == lines[0]
    ensures |lines| > 1 ==> Join(lines) == lines[0] + "\n" + Join(lines[1..])
  {
    if |lines| > 2 {
      var front, last := lines[..|lines| - 1], lines[|lines| - 1];
      JoinFromFront(front);
      assert lines[1..][..|lines| - 2] == front[1..] && lines[1..][|lines| - 2] == last;
    } else if |lines| == 2 {
      assert lines[1..] == [lines[1]] && lines[..1] == [lines[0]];
    }
  }

  /** An untracked action item: it demands something, refers to no issue, does not say that there is nothing to do,
      and has a priority, its own one or the one in force above it. */
  ghost predicate IsUntracked(p: Patterns, lines: seq<string>, f: Finding) {
    f.line >= 1 && exists e: nat :: IsUntrackedItem(p, lines, f, e)
  }

  ghost predicate IsUntrackedItem(p: Patterns, lines: seq<string>, f: Finding, e: nat)
    requires f.line >= 1
  {
    && IsItem(p, lines, f.line - 1, e)
    && var text := Join(lines[f.line - 1..e]);
       && p.action(text) == Some(f.phrase) && !p.issueRef(text) && !p.negativeStatus(text)
       && if p.priority(text).Some? then p.priority(text) == Some(f.priority)
          else SomeInForce(p, lines[..f.line - 1], f.priority)
  }

  lemma ReportReads(p: Patterns, lines: seq<string>, blocks: seq<Block>, k: nat, f: Finding)
    requires AreBlocks(p, lines, |lines|, blocks) && k < |blocks| && blocks[k].kind != HeadingBlock
    requires f.line == blocks[k].line && f.line >= 1
    ensures IsReported(p, blocks[k]) && Report(p)(blocks[k]) == f <==> IsUntrackedItem(p, lines, f, End(blocks[k]))
  {
    var b := blocks[k];
    BlockIsItem(p, lines, blocks, k);
    assert IsBlock(p, lines, b);
    ContextThroughBlock(p, lines, b, End(b));
    RegisterReads(p, lines[..b.line - 1], f.priority);
    hide AreBlocks, IsShape, ContextAfter, Join, InForce, IsItem;
  }

  /** The findings are exactly the untracked action items, in the order of their lines. */
  lemma FindingsAre(p: Patterns, lines: seq<string>, blocks: seq<Block>, findings: seq<Finding>)
    requires AreBlocks(p, lines, |lines|, blocks) && findings == Map(Filter(blocks, Reported(p)), Report(p))
    ensures forall f :: f in findings <==> IsUntracked(p, lines, f)
    ensures forall i, j :: 0 <= i < j < |findings| ==> findings[i].line < findings[j].line
  {
    forall f ensures f in findings <==> IsUntracked(p, lines, f) {
      FindingReads(p, lines, blocks, findings, f);
    }
    FindingsInOrder(p, lines, blocks);
  }

  lemma FindingReads(p: Patterns, lines: seq<string>, blocks: seq<Block>, findings: seq<Finding>, f: Finding)
    requires AreBlocks(p, lines, |lines|, blocks) && findings == Map(Filter(blocks, Reported(p)), Report(p))
    ensures f in findings <==> IsUntracked(p, lines, f)
  {
    var own := Filter(blocks, Reported(p));
    hide AreBlocks, IsItem, IsUntrackedItem, Filter, Join;
    if f in findings {
      var i :| 0 <= i < |own| && Report(p)(own[i]) == f;
      FilterMember(blocks, Reported(p), own[i]);
      var k :| 0 <= k < |blocks| && blocks[k] == own[i];
      LineFromOne(p, lines, blocks, k);
      ReportReads(p, lines, blocks, k, f);
    }
    if IsUntracked(p, lines, f) {
      var e: nat :| IsUntrackedItem(p, lines, f, e);
      ItemOf(p, lines, f, e);
      var k := ItemIsBlock(p, lines, blocks, f.line - 1, e);
      ReportReads(p, lines, blocks, k, f);
      FilterMember(blocks, Reported(p), blocks[k]);
      var i :| 0 <= i < |own| && own[i] == blocks[k];
      assert findings[i] == f;
    }
  }

  lemma ItemOf(p: Patterns, lines: seq<string>, f: Finding, e: nat)
    requires f.line >= 1 && IsUntrackedItem(p, lines, f, e)
    ensures IsItem(p, lines, f.line - 1, e)
  {
  }

  lemma LineFromOne(p: Patterns, lines: seq<string>, blocks: seq<Block>, k: nat)
    requires AreBlocks(p, lines, |lines|, blocks) && k < |blocks|
    ensures blocks[k].line >= 1
  {
    assert IsBlock(p, lines, blocks[k]);
  }

  function Above(): (Block, Block) -> bool {
    (a: Block, b: Block) => a.line < b.line
  }

  lemma FindingsInOrder(p: Patterns, lines: seq<string>, blocks: seq<Block>)
    requires AreBlocks(p, lines, |lines|, blocks)
    ensures var findings := Map(Filter(blocks, Reported(p)), Report(p));
      forall i, j :: 0 <= i < j < |findings| ==> findings[i].line < findings[j].line
  {
    forall i, j | 0 <= i < j < |blocks| ensures Above()(blocks[i], blocks[j]) {
      assert IsBlock(p, lines, blocks[i]) && IsBefore(blocks[i], blocks[j]);
    }
    hide AreBlocks, Reported;
    FilterSorted(blocks, Reported(p), Above());
    var own := Filter(blocks, Reported(p));
    forall i, j | 0 <= i < j < |own| ensures own[i].line < own[j].line {
      assert Above()(own[i], own[j]);
    }
  }
}
