/** Scanning reports for priority action items that no issue tracks. */
module Tripwire {
  import opened Basics

  datatype Heading = Heading(level: nat, text: string)

  /** What the scanner's regular expressions find in a line or in a text. */
  datatype Patterns = Patterns(
    blank: string -> bool, heading: string -> Option<Heading>, listItem: string -> bool,
    priority: string -> Option<string>, anyPriority: string -> bool,
    negativeStatus: string -> bool, action: string -> Option<string>, issueRef: string -> bool)

  datatype Kind = HeadingBlock | ListItem | Paragraph

  /** A block with the number of its first line, counted from one. */
  datatype Block = Block(line: nat, lines: seq<string>, kind: Kind, priority: Option<string>)

  // ---------- the heading register ----------

  /** The priority in force and the level of the heading that set it. */
  datatype Context = Context(priority: Option<string>, level: Option<nat>)

  function PriorityContextFromHeading(p: Patterns, h: Heading, previous: Context): Context {
    if p.priority(h.text).Some? then Context(p.priority(h.text), Some(h.level))
    else if p.anyPriority(h.text) then Context(None, None)
    else if previous.priority.Some? && previous.level.Some? && h.level <= previous.level.value then Context(None, None)
    else previous
  }

  predicate IsHeading(p: Patterns, line: string) {
    !p.blank(line) && p.heading(line).Some?
  }

  /** The register after all lines. */
  function ContextAfter(p: Patterns, lines: seq<string>): Context {
    if lines == [] then Context(None, None) else
    var rest, line := ContextAfter(p, lines[..|lines| - 1]), lines[|lines| - 1];
    if IsHeading(p, line) then PriorityContextFromHeading(p, p.heading(line).value, rest) else rest
  }

  predicate IsTagged(p: Patterns, h: Heading) {
    p.priority(h.text).Some? || p.anyPriority(h.text)
  }

  predicate Sets(p: Patterns, line: string) {
    IsHeading(p, line) && p.priority(p.heading(line).value.text).Some?
  }

  /** The line does not end what the heading governs. */
  predicate Leaves(p: Patterns, heading: string, line: string) {
    IsHeading(p, line) && p.heading(heading).Some? ==>
      !IsTagged(p, p.heading(line).value) && p.heading(line).value.level > p.heading(heading).value.level
  }

  /** Heading i sets the priority, and every heading after it is untagged and strictly deeper. */
  ghost predicate Governs(p: Patterns, lines: seq<string>, i: nat) {
    && i < |lines| && Sets(p, lines[i])
    && forall j :: i < j < |lines| && IsHeading(p, lines[j]) ==>
         !IsTagged(p, p.heading(lines[j]).value) && p.heading(lines[j]).value.level > p.heading(lines[i]).value.level
  }

  lemma GovernsNext(p: Patterns, lines: seq<string>, i: nat)
    requires lines != []
    ensures var n := |lines| - 1;
      Governs(p, lines, i) <==>
        (i == n && Sets(p, lines[n])) || (Governs(p, lines[..n], i) && Leaves(p, lines[i], lines[n]))
  {
  }

  /** The register in closed form: a priority is in force exactly if the last tagged heading sets it and all
      headings since are strictly deeper. */
  lemma {:induction false} RegisterClosedForm(p: Patterns, lines: seq<string>)
    ensures var c := ContextAfter(p, lines);
      && (c.priority.Some? <==> exists i: nat :: Governs(p, lines, i))
      && (c.priority.Some? <==> c.level.Some?)
      && forall i: nat :: Governs(p, lines, i) ==>
           c == Context(p.priority(p.heading(lines[i]).value.text), Some(p.heading(lines[i]).value.level))
  {
    if lines == [] {
    } else {
      var n := |lines| - 1;
      RegisterClosedForm(p, lines[..n]);
      forall i: nat ensures Governs(p, lines, i) <==>
          (i == n && Sets(p, lines[n])) || (Governs(p, lines[..n], i) && Leaves(p, lines[i], lines[n]))
      {
        GovernsNext(p, lines, i);
      }
      hide Governs;
      if Sets(p, lines[n]) {
        assert Governs(p, lines, n);
      } else if ContextAfter(p, lines[..n]).priority.Some? {
        var i: nat :| Governs(p, lines[..n], i);
        assert Leaves(p, lines[i], lines[n]) ==> Governs(p, lines, i);
      }
    }
  }

  // ---------- blocks ----------

  function End(b: Block): int {
    b.line - 1 + |b.lines|
  }

  function KindOf(p: Patterns, line: string): Kind {
    if p.heading(line).Some? then HeadingBlock else if p.listItem(line) then ListItem else Paragraph
  }

  /** Lines that form one block: only the first may be a heading or start a list item, and a heading stands alone. */
  ghost predicate IsShape(p: Patterns, lines: seq<string>, kind: Kind) {
    && lines != [] && kind == KindOf(p, lines[0])
    && (kind == HeadingBlock ==> |lines| == 1)
    && forall k :: 0 <= k < |lines| ==> !p.blank(lines[k]) && (k > 0 ==> KindOf(p, lines[k]) == Paragraph)
  }

  /** A block of the text: its lines are where it says, and its priority is the one in force at its end. */
  ghost predicate IsBlock(p: Patterns, lines: seq<string>, b: Block) {
    && 1 <= b.line && End(b) <= |lines| && b.lines == lines[b.line - 1..End(b)]
    && IsShape(p, b.lines, b.kind)
    && b.priority == ContextAfter(p, lines[..End(b)]).priority
  }

  /** The second block starts right after the first only because one of them demands it. */
  ghost predicate Separated(a: Block, b: Block) {
    End(a) < b.line && (End(a) == b.line - 1 ==> a.kind == HeadingBlock || b.kind != Paragraph)
  }

  ghost predicate Covers(b: Block, i: nat) {
    b.line - 1 <= i < End(b)
  }

  ghost predicate AllBlocks(p: Patterns, lines: seq<string>, n: nat, blocks: seq<Block>) {
    && (forall k {:trigger IsBlock(p, lines, blocks[k])} :: 0 <= k < |blocks| ==> IsBlock(p, lines, blocks[k]))
    && (forall k :: 0 <= k < |blocks| ==> 1 <= blocks[k].line <= End(blocks[k]) <= n)
  }

  ghost predicate IsBefore(a: Block, b: Block) {
    End(a) < b.line
  }

  ghost predicate InOrder(blocks: seq<Block>) {
    forall j, k {:trigger IsBefore(blocks[j], blocks[k])} :: 0 <= j < k < |blocks| ==> IsBefore(blocks[j], blocks[k])
  }

  ghost predicate Apart(blocks: seq<Block>) {
    forall j, k {:trigger Separated(blocks[j], blocks[k])} :: 0 <= j && k == j + 1 < |blocks| ==>
             Separated(blocks[j], blocks[k])
  }

  ghost predicate Covered(p: Patterns, lines: seq<string>, n: nat, blocks: seq<Block>) {
    n <= |lines| && forall i: nat :: i < n && !p.blank(lines[i]) ==>
      exists k :: 0 <= k < |blocks| && Covers(blocks[k], i)
  }

  /** The blocks of the first n lines: in order, every line with text in one of them, none cut short. */
  ghost predicate AreBlocks(p: Patterns, lines: seq<string>, n: nat, blocks: seq<Block>) {
    AllBlocks(p, lines, n, blocks) && InOrder(blocks) && Apart(blocks) && Covered(p, lines, n, blocks)
  }

  /** The lines since the last finished block, if there are any. */
  ghost predicate IsPending(p: Patterns, lines: seq<string>, n: nat, start: nat, kind: Kind, pending: seq<string>,
                            blocks: seq<Block>) {
    && 1 <= start <= n <= |lines| && pending == lines[start - 1..n] && IsShape(p, pending, kind) && kind != HeadingBlock
    && AreBlocks(p, lines, start - 1, blocks)
    && (blocks != [] && End(blocks[|blocks| - 1]) == start - 1 ==>
        blocks[|blocks| - 1].kind == HeadingBlock || kind != Paragraph)
  }

  /** Nothing is pending: the lines up to here are done, and a block that ends right here is a heading. */
  ghost predicate IsIdle(p: Patterns, lines: seq<string>, n: nat, blocks: seq<Block>) {
    && AreBlocks(p, lines, n, blocks)
    && (blocks != [] && End(blocks[|blocks| - 1]) == n ==> blocks[|blocks| - 1].kind == HeadingBlock)
  }

  ghost predicate Scanned(p: Patterns, lines: seq<string>, n: nat, start: nat, kind: Kind, pending: seq<string>,
                          blocks: seq<Block>) {
    if pending == [] then IsIdle(p, lines, n, blocks) else IsPending(p, lines, n, start, kind, pending, blocks)
  }

  lemma CoverMore(p: Patterns, lines: seq<string>, blocks: seq<Block>, b: Block)
    requires 1 <= b.line && Covered(p, lines, b.line - 1, blocks) && End(b) <= |lines|
    ensures Covered(p, lines, End(b), blocks + [b])
  {
    var more := blocks + [b];
    forall i: nat | i < End(b) && !p.blank(lines[i]) ensures exists k :: 0 <= k < |more| && Covers(more[k], i) {
      if i < b.line - 1 {
        var k :| 0 <= k < |blocks| && Covers(blocks[k], i);
        assert Covers(more[k], i);
      } else {
        assert Covers(more[|blocks|], i);
      }
    }
  }

  lemma OrderMore(blocks: seq<Block>, b: Block)
    requires InOrder(blocks) && Apart(blocks) && (blocks != [] ==> Separated(blocks[|blocks| - 1], b))
    requires forall k :: 0 <= k < |blocks| ==> End(blocks[k]) < b.line
    ensures InOrder(blocks + [b]) && Apart(blocks + [b])
  {
  }

  lemma AddBlock(p: Patterns, lines: seq<string>, blocks: seq<Block>, b: Block)
    requires 1 <= b.line && AreBlocks(p, lines, b.line - 1, blocks) && IsBlock(p, lines, b)
    requires blocks != [] ==> Separated(blocks[|blocks| - 1], b)
    ensures AreBlocks(p, lines, End(b), blocks + [b])
  {
    CoverMore(p, lines, blocks, b);
    OrderMore(blocks, b);
    AllMore(p, lines, blocks, b);
  }

  lemma AllMore(p: Patterns, lines: seq<string>, blocks: seq<Block>, b: Block)
    requires 1 <= b.line && AllBlocks(p, lines, b.line - 1, blocks) && IsBlock(p, lines, b)
    ensures AllBlocks(p, lines, End(b), blocks + [b])
  {
    var more := blocks + [b];
    forall k | 0 <= k < |more| ensures IsBlock(p, lines, more[k]) && End(more[k]) <= End(b) {
      assert k < |blocks| ==> more[k] == blocks[k];
    }
  }

  /** A line that opens a block of its own, or a paragraph after a gap or a heading. */
  lemma OpenBlock(p: Patterns, lines: seq<string>, n: nat, blocks: seq<Block>)
    requires n < |lines| && AreBlocks(p, lines, n, blocks) && !p.blank(lines[n]) && KindOf(p, lines[n]) != HeadingBlock
    requires KindOf(p, lines[n]) == Paragraph ==> IsIdle(p, lines, n, blocks)
    ensures IsPending(p, lines, n + 1, n + 1, KindOf(p, lines[n]), [lines[n]], blocks)
  {
    assert lines[n..n + 1] == [lines[n]];
  }

  lemma ExtendBlock(p: Patterns, lines: seq<string>, n: nat, start: nat, kind: Kind, pending: seq<string>,
                    blocks: seq<Block>)
    requires n < |lines| && IsPending(p, lines, n, start, kind, pending, blocks)
    requires !p.blank(lines[n]) && KindOf(p, lines[n]) == Paragraph
    ensures IsPending(p, lines, n + 1, start, kind, pending + [lines[n]], blocks)
  {
    assert lines[start - 1..n + 1] == pending + [lines[n]];
  }

  lemma AddHeading(p: Patterns, lines: seq<string>, n: nat, blocks: seq<Block>)
    requires n < |lines| && AreBlocks(p, lines, n, blocks) && !p.blank(lines[n]) && KindOf(p, lines[n]) == HeadingBlock
    ensures IsIdle(p, lines, n + 1,
                   blocks + [Block(n + 1, [lines[n]], HeadingBlock, ContextAfter(p, lines[..n + 1]).priority)])
  {
    var b := Block(n + 1, [lines[n]], HeadingBlock, ContextAfter(p, lines[..n + 1]).priority);
    assert lines[n..n + 1] == [lines[n]];
    AddBlock(p, lines, blocks, b);
  }

  lemma SkipBlank(p: Patterns, lines: seq<string>, n: nat, blocks: seq<Block>)
    requires n < |lines| && AreBlocks(p, lines, n, blocks) && p.blank(lines[n])
    ensures IsIdle(p, lines, n + 1, blocks)
  {
  }

  /** Finishes the pending block. */
  method Flush(p: Patterns, ghost lines: seq<string>, ghost n: nat, blocks: seq<Block>, pending: seq<string>,
               start: nat, kind: Kind, active: Context)
    returns (more: seq<Block>)
    requires Scanned(p, lines, n, start, kind, pending, blocks)
    requires n <= |lines| && active == ContextAfter(p, lines[..n])
    ensures AreBlocks(p, lines, n, more)
  {
    if pending == [] {
      return blocks;
    }
    var b := Block(start, pending, kind, active.priority);
    AddBlock(p, lines, blocks, b);
    more := blocks + [b];
  }

  /** A heading is a block of its own and sets the register; a list item stays open. */
  method StartBlock(p: Patterns, lines: seq<string>, i: nat, blocks: seq<Block>, active: Context)
    returns (more: seq<Block>, pending: seq<string>, now: Context)
    requires i < |lines| && !p.blank(lines[i]) && KindOf(p, lines[i]) != Paragraph
    requires AreBlocks(p, lines, i, blocks) && active == ContextAfter(p, lines[..i])
    ensures Scanned(p, lines, i + 1, i + 1, KindOf(p, lines[i]), pending, more)
    ensures now == ContextAfter(p, lines[..i + 1])
  {
    var line := lines[i];
    assert lines[..i + 1][..i] == lines[..i];
    more, pending, now := blocks, [line], active;
    if KindOf(p, line) == HeadingBlock {
      now := PriorityContextFromHeading(p, p.heading(line).value, active);
      AddHeading(p, lines, i, blocks);
      more := blocks + [Block(i + 1, pending, HeadingBlock, now.priority)];
      pending := [];
    } else {
      OpenBlock(p, lines, i, blocks);
    }
  }

  /** Any other line with text goes on with what is open, or opens a paragraph. */
  method ContinueBlock(p: Patterns, ghost lines: seq<string>, ghost i: nat, ghost blocks: seq<Block>,
                       line: string, number: nat, pending: seq<string>, start: nat, kind: Kind)
    returns (more: seq<string>, first: nat, now: Kind)
    requires i < |lines| && line == lines[i] && number == i + 1 && !p.blank(line) && KindOf(p, line) == Paragraph
    requires Scanned(p, lines, i, start, kind, pending, blocks)
    ensures Scanned(p, lines, i + 1, first, now, more, blocks)
  {
    if pending == [] {
      OpenBlock(p, lines, i, blocks);
      more, first, now := [line], number, Paragraph;
    } else {
      ExtendBlock(p, lines, i, start, kind, pending, blocks);
      more, first, now := pending + [line], start, kind;
    }
  }

  method IterBlocks(p: Patterns, lines: seq<string>) returns (blocks: seq<Block>)
    ensures AreBlocks(p, lines, |lines|, blocks)
  {
    blocks := [];
    var pending: seq<string>, start: nat, kind, active := [], 1, Paragraph, Context(None, None);
    assert lines[..0] == [] && IsIdle(p, lines, 0, []) && active == ContextAfter(p, lines[..0]);
    hide AreBlocks, KindOf, IsPending, IsIdle, ContextAfter;
    for i := 0 to |lines|
      invariant Scanned(p, lines, i, start, kind, pending, blocks)
      invariant active == ContextAfter(p, lines[..i])
    {
      var line := lines[i];
      assert lines[..i + 1][..i] == lines[..i];
      if p.blank(line) {
        blocks := Flush(p, lines, i, blocks, pending, start, kind, active);
        SkipBlank(p, lines, i, blocks);
        pending := [];
      } else if KindOf(p, line) != Paragraph {
        blocks := Flush(p, lines, i, blocks, pending, start, kind, active);
        start, kind := i + 1, KindOf(p, line);
        blocks, pending, active := StartBlock(p, lines, i, blocks, active);
      } else {
        pending, start, kind := ContinueBlock(p, lines, i, blocks, line, i + 1, pending, start, kind);
      }
    }
    assert lines[..|lines|] == lines;
    blocks := Flush(p, lines, |lines|, blocks, pending, start, kind, active);
  }

  // ---------- what the blocks amount to ----------

  function HasText(p: Patterns): string -> bool {
    (line: string) => !p.blank(line)
  }

  function Contents(blocks: seq<Block>): seq<string> {
    if blocks == [] then [] else Contents(blocks[..|blocks| - 1]) + blocks[|blocks| - 1].lines
  }

  /** What a block says about line i. */
  lemma LineOf(p: Patterns, lines: seq<string>, b: Block, i: nat)
    requires IsBlock(p, lines, b) && Covers(b, i)
    ensures i < |lines| && !p.blank(lines[i])
    ensures KindOf(p, lines[i]) == if i == b.line - 1 then b.kind else Paragraph
    ensures b.kind == HeadingBlock ==> End(b) == b.line
  {
    assert lines[i] == b.lines[i - (b.line - 1)];
  }

  lemma CoveredButLast(p: Patterns, lines: seq<string>, n: nat, blocks: seq<Block>)
    requires blocks != [] && Covered(p, lines, n, blocks) && 1 <= blocks[|blocks| - 1].line <= n + 1
    ensures Covered(p, lines, blocks[|blocks| - 1].line - 1, blocks[..|blocks| - 1])
  {
    var b, front := blocks[|blocks| - 1], blocks[..|blocks| - 1];
    forall i: nat | i < b.line - 1 && !p.blank(lines[i]) ensures exists k :: 0 <= k < |front| && Covers(front[k], i) {
      var k :| 0 <= k < |blocks| && Covers(blocks[k], i);
      assert k < |front| && front[k] == blocks[k];
    }
  }

  lemma ButLast(p: Patterns, lines: seq<string>, n: nat, blocks: seq<Block>)
    requires AreBlocks(p, lines, n, blocks) && blocks != []
    ensures var b := blocks[|blocks| - 1];
            1 <= b.line <= End(b) <= n && IsBlock(p, lines, b)
            && AreBlocks(p, lines, b.line - 1, blocks[..|blocks| - 1])
  {
    var b, front := blocks[|blocks| - 1], blocks[..|blocks| - 1];
    assert IsBlock(p, lines, blocks[|blocks| - 1]);
    CoveredButLast(p, lines, n, blocks);
    forall k | 0 <= k < |front| ensures IsBlock(p, lines, front[k]) && End(front[k]) <= b.line - 1 {
      assert IsBlock(p, lines, blocks[k]) && IsBefore(blocks[k], b);
    }
    assert forall j, k {:trigger IsBefore(front[j], front[k])} :: 0 <= j < k < |front| ==>
             IsBefore(blocks[j], blocks[k]);
  }

  lemma BlankAfter(p: Patterns, lines: seq<string>, n: nat, blocks: seq<Block>, i: nat)
    requires Covered(p, lines, n, blocks) && i < n
    requires forall k :: 0 <= k < |blocks| ==> End(blocks[k]) <= i
    ensures p.blank(lines[i])
  {
  }

  lemma EndsInOrder(p: Patterns, lines: seq<string>, n: nat, blocks: seq<Block>, k: nat)
    requires AreBlocks(p, lines, n, blocks) && k < |blocks|
    ensures End(blocks[k]) <= End(blocks[|blocks| - 1]) <= n
  {
    assert k < |blocks| - 1 ==> IsBefore(blocks[k], blocks[|blocks| - 1]);
  }

  lemma BlankTail(p: Patterns, lines: seq<string>, n: nat, blocks: seq<Block>, e: nat)
    requires AreBlocks(p, lines, n, blocks) && e <= n && (blocks != [] ==> End(blocks[|blocks| - 1]) <= e)
    ensures Filter(lines[e..n], HasText(p)) == []
  {
    forall k | 0 <= k < |blocks| ensures End(blocks[k]) <= e {
      EndsInOrder(p, lines, n, blocks, k);
    }
    forall x | x in lines[e..n] ensures !HasText(p)(x) {
      var i :| 0 <= i < n - e && lines[e..n][i] == x;
      BlankAfter(p, lines, n, blocks, e + i);
    }
    FilterNone(lines[e..n], HasText(p));
  }

  lemma BlockHasText(p: Patterns, lines: seq<string>, b: Block)
    requires IsBlock(p, lines, b)
    ensures b.lines == lines[b.line - 1..End(b)] && Filter(b.lines, HasText(p)) == b.lines
  {
    FilterAll(b.lines, HasText(p));
  }

  /** The blocks hold the lines with text, each once and in order. */
  lemma {:induction false} BlocksPartitionText(p: Patterns, lines: seq<string>, n: nat, blocks: seq<Block>)
    requires AreBlocks(p, lines, n, blocks)
    ensures Contents(blocks) == Filter(lines[..n], HasText(p))
    decreases |blocks|
  {
    if blocks == [] {
      BlankTail(p, lines, n, blocks, 0);
      assert lines[0..n] == lines[..n];
    } else {
      var b := blocks[|blocks| - 1];
      ButLast(p, lines, n, blocks);
      BlankTail(p, lines, n, blocks, End(b));
      BlocksPartitionText(p, lines, b.line - 1, blocks[..|blocks| - 1]);
      BlockHasText(p, lines, b);
      SplitText(lines, b.line - 1, End(b), n, HasText(p));
    }
  }

  lemma SplitText(lines: seq<string>, i: nat, j: nat, n: nat, p: string -> bool)
    requires i <= j <= n <= |lines|
    ensures Filter(lines[..n], p) == Filter(lines[..i], p) + Filter(lines[i..j], p) + Filter(lines[j..n], p)
  {
    assert lines[..n] == lines[..i] + lines[i..j] + lines[j..n];
    FilterConcat(lines[..i] + lines[i..j], lines[j..n], p);
    FilterConcat(lines[..i], lines[i..j], p);
  }

  lemma SameEnd(p: Patterns, lines: seq<string>, n: nat, a: seq<Block>, b: seq<Block>)
    requires AreBlocks(p, lines, n, a) && AreBlocks(p, lines, n, b) && a != []
    ensures b != [] && End(b[|b| - 1]) >= End(a[|a| - 1])
  {
    ButLast(p, lines, n, a);
    var i := End(a[|a| - 1]) - 1;
    LineOf(p, lines, a[|a| - 1], i);
    if k: nat :| k < |b| && Covers(b[k], i) {
      EndsInOrder(p, lines, n, b, k);
    }
  }

  lemma Before(p: Patterns, lines: seq<string>, n: nat, blocks: seq<Block>, i: nat) returns (k: nat)
    requires AreBlocks(p, lines, n, blocks) && blocks != [] && i < n
    requires i + 1 == blocks[|blocks| - 1].line - 1 && !p.blank(lines[i])
    ensures k < |blocks| && Covers(blocks[k], i) && k == |blocks| - 2 && End(blocks[k]) == i + 1
  {
    k :| 0 <= k < |blocks| && Covers(blocks[k], i);
    var last := |blocks| - 1;
    assert k < last - 1 ==> IsBefore(blocks[k], blocks[last - 1]);
    assert last > 0 ==> IsBefore(blocks[last - 1], blocks[last]);
  }

  lemma NotLater(p: Patterns, lines: seq<string>, n: nat, x: Block, b: seq<Block>)
    requires IsBlock(p, lines, x) && AreBlocks(p, lines, n, b) && b != []
    requires End(x) == End(b[|b| - 1])
    ensures b[|b| - 1].line <= x.line
  {
    var y := b[|b| - 1];
    ButLast(p, lines, n, b);
    if x.line < y.line {
      var i := y.line - 1;
      LineOf(p, lines, x, i);
      LineOf(p, lines, y, i);
      LineOf(p, lines, x, i - 1);
      var k := Before(p, lines, n, b, i - 1);
      assert IsBlock(p, lines, b[k]) && Separated(b[k], b[k + 1]);
      LineOf(p, lines, b[k], i - 1);
    }
  }

  lemma SameLast(p: Patterns, lines: seq<string>, x: Block, y: Block)
    requires IsBlock(p, lines, x) && IsBlock(p, lines, y) && End(x) == End(y) && x.line == y.line
    ensures x == y
  {
  }

  lemma SameLastBlock(p: Patterns, lines: seq<string>, n: nat, a: seq<Block>, b: seq<Block>)
    requires AreBlocks(p, lines, n, a) && AreBlocks(p, lines, n, b) && a != []
    ensures b != [] && a[|a| - 1] == b[|b| - 1]
  {
    hide AreBlocks, IsBlock;
    SameEnd(p, lines, n, a, b);
    SameEnd(p, lines, n, b, a);
    LastIsBlock(p, lines, n, a);
    LastIsBlock(p, lines, n, b);
    NotLater(p, lines, n, a[|a| - 1], b);
    NotLater(p, lines, n, b[|b| - 1], a);
    SameLast(p, lines, a[|a| - 1], b[|b| - 1]);
  }

  lemma LastIsBlock(p: Patterns, lines: seq<string>, n: nat, blocks: seq<Block>)
    requires AreBlocks(p, lines, n, blocks) && blocks != []
    ensures IsBlock(p, lines, blocks[|blocks| - 1])
  {
  }

  /** The text determines its blocks. */
  lemma {:induction false} BlocksAreDetermined(p: Patterns, lines: seq<string>, n: nat, a: seq<Block>, b: seq<Block>)
    requires AreBlocks(p, lines, n, a) && AreBlocks(p, lines, n, b)
    ensures a == b
    decreases |a|
  {
    hide AreBlocks, IsBlock;
    if a != [] {
      SameLastBlock(p, lines, n, a, b);
      ButLast(p, lines, n, a);
      ButLast(p, lines, n, b);
      var x := a[|a| - 1];
      BlocksAreDetermined(p, lines, x.line - 1, a[..|a| - 1], b[..|b| - 1]);
      assert a == a[..|a| - 1] + [x] && b == b[..|b| - 1] + [x];
    } else if b != [] {
      SameLastBlock(p, lines, n, b, a);
    }
  }

  // ---------- findings ----------

  function Join(lines: seq<string>): string {
    if lines == [] then "" else if |lines| == 1 then lines[0]
       else Join(lines[..|lines| - 1]) + "\n" + lines[|lines| - 1]
  }

  datatype Finding = Finding(line: nat, priority: string, phrase: string)

  method FindUntrackedActionItems(p: Patterns, lines: seq<string>) returns (findings: seq<Finding>)
    ensures exists blocks ::
              && AreBlocks(p, lines, |lines|, blocks)
              && findings == Map(Filter(blocks, Reported(p)), Report(p))
  {
    var scanned := IterBlocks(p, lines);
    findings := [];
    for i := 0 to |scanned|
      invariant findings == Map(Filter(scanned[..i], Reported(p)), Report(p))
    {
      var b := scanned[i];
      FilterMapStep(scanned, i, Reported(p), Report(p));
      var text := Join(b.lines);
      if b.kind != HeadingBlock && !p.negativeStatus(text) {
        var priority := if p.priority(text).Some? then p.priority(text) else b.priority;
        if priority.Some? {
          var phrase := p.action(text);
          if phrase.Some? && !p.issueRef(text) {
            findings := findings + [Finding(b.line, priority.value, phrase.value)];
          }
        }
      }
    }
    assert scanned[..|scanned|] == scanned;
  }

  /** The block's own priority, or the one in force around it. */
  function PriorityOf(p: Patterns, b: Block): Option<string> {
    if p.priority(Join(b.lines)).Some? then p.priority(Join(b.lines)) else b.priority
  }

  predicate IsReported(p: Patterns, b: Block) {
    && b.kind != HeadingBlock && !p.negativeStatus(Join(b.lines)) && PriorityOf(p, b).Some?
    && p.action(Join(b.lines)).Some? && !p.issueRef(Join(b.lines))
  }

  function Reported(p: Patterns): Block -> bool {
    (b: Block) => IsReported(p, b)
  }

  function Report(p: Patterns): Block -> Finding {
    (b: Block) => Finding(b.line,
      if PriorityOf(p, b).Some? then PriorityOf(p, b).value else "",
      if p.action(Join(b.lines)).Some? then p.action(Join(b.lines)).value else "")
  }

  /** An action item without a priority of its own is reported exactly if some heading above it governs it. */
  lemma ReportedByContext(p: Patterns, lines: seq<string>, blocks: seq<Block>, b: Block)
    requires AreBlocks(p, lines, |lines|, blocks) && b in blocks && b.kind != HeadingBlock
    requires p.priority(Join(b.lines)).None? && p.action(Join(b.lines)).Some?
    requires !p.negativeStatus(Join(b.lines)) && !p.issueRef(Join(b.lines))
    ensures var above := lines[..b.line - 1];
      && (IsReported(p, b) <==> exists i: nat :: Governs(p, above, i))
      && forall i: nat :: Governs(p, above, i) ==>
           Report(p)(b).priority == p.priority(p.heading(above[i]).value.text).value
  {
    var k :| 0 <= k < |blocks| && blocks[k] == b;
    assert IsBlock(p, lines, b);
    ContextThroughBlock(p, lines, b, End(b));
    RegisterClosedForm(p, lines[..b.line - 1]);
  }

  /** The lines of a block that is not a heading leave the register alone. */
  lemma {:induction false} ContextThroughBlock(p: Patterns, lines: seq<string>, b: Block, n: nat)
    requires IsBlock(p, lines, b) && b.kind != HeadingBlock && b.line - 1 <= n <= End(b)
    ensures ContextAfter(p, lines[..n]) == ContextAfter(p, lines[..b.line - 1])
    decreases n
  {
    if n == b.line - 1 {
    } else {
      ContextThroughBlock(p, lines, b, n - 1);
      assert lines[..n][..n - 1] == lines[..n - 1];
      assert lines[n - 1] == b.lines[n - 1 - (b.line - 1)];
    }
  }
}
