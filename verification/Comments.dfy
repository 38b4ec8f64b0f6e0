/** Blanking out HTML comments without moving any line. */
module Comments {
  import opened Basics

  const OPEN := "<!--"
  const CLOSE := "-->"

  /** Where `part` first occurs in s at or after i; -1 if it does not. */
  function FindFrom(s: string, part: string, i: nat): (k: int)
    requires i <= |s|
    ensures k == -1 || (i <= k && k + |part| <= |s| && part <= s[k..] && forall j :: i <= j < k ==> !(part <= s[j..]))
    ensures k == -1 ==> forall j :: i <= j <= |s| ==> !(part <= s[j..])
    decreases |s| - i
  {
    if part <= s[i..] then i else if i == |s| then -1 else FindFrom(s, part, i + 1)
  }

  function Newlines(s: string): (n: nat) {
    if s == "" then 0 else Newlines(s[..|s| - 1]) + if s[|s| - 1] == '\n' then 1 else 0
  }

  function OnlyNewlines(s: string): (r: string)
    ensures |r| == Newlines(s) && forall c :: c in r ==> c == '\n'
  {
    if s == "" then "" else OnlyNewlines(s[..|s| - 1]) + if s[|s| - 1] == '\n' then "\n" else ""
  }

  /** Where the comment at the start of s ends; 0 if no comment starts there. */
  function CommentEnd(s: string): (e: nat)
    ensures e <= |s| && (e > 0 ==> e >= 7)
  {
    if !(OPEN <= s) then 0 else
    var k := FindFrom(s, CLOSE, 4);
    if k == -1 then 0 else k + 3
  }

  /** Every comment is replaced by its newlines, scanning from the left. */
  function VisibleMarkdown(s: string): string
    decreases |s|
  {
    if s == "" then "" else
    var e := CommentEnd(s);
    if e > 0 then OnlyNewlines(s[..e]) + VisibleMarkdown(s[e..])
    else [s[0]] + VisibleMarkdown(s[1..])
  }

  // ---------- newlines stay ----------

  lemma {:induction false} NewlinesConcat(a: string, b: string)
    ensures Newlines(a + b) == Newlines(a) + Newlines(b)
  {
    if b == "" {
      assert a + b == a;
    } else {
      NewlinesConcat(a, b[..|b| - 1]);
      assert (a + b)[..|a + b| - 1] == a + b[..|b| - 1];
    }
  }

  lemma {:induction false} AllNewlines(r: string)
    requires forall c :: c in r ==> c == '\n'
    ensures Newlines(r) == |r|
  {
    if r == "" {
    } else {
      var front := r[..|r| - 1];
      assert r[|r| - 1] in r;
      forall c | c in front ensures c == '\n' {
        assert c in r;
      }
      AllNewlines(front);
    }
  }

  lemma {:induction false} StrippingKeepsNewlines(s: string)
    ensures Newlines(VisibleMarkdown(s)) == Newlines(s)
    decreases |s|
  {
    if s == "" {
    } else {
      var e := CommentEnd(s);
      if e > 0 {
        CommentStep(s);
        StrippingKeepsNewlines(s[e..]);
        AllNewlines(OnlyNewlines(s[..e]));
        SameNewlines(s, e, OnlyNewlines(s[..e]), VisibleMarkdown(s[e..]));
      } else {
        PlainStep(s);
        StrippingKeepsNewlines(s[1..]);
        assert s[..1] == [s[0]];
        SameNewlines(s, 1, [s[0]], VisibleMarkdown(s[1..]));
      }
    }
  }

  lemma SameNewlines(s: string, n: nat, head: string, tail: string)
    requires n <= |s| && Newlines(head) == Newlines(s[..n]) && Newlines(tail) == Newlines(s[n..])
    ensures Newlines(head + tail) == Newlines(s)
  {
    NewlinesConcat(head, tail);
    NewlinesConcat(s[..n], s[n..]);
    assert s == s[..n] + s[n..];
  }

  lemma PlainStep(s: string)
    requires s != "" && CommentEnd(s) == 0
    ensures VisibleMarkdown(s) == [s[0]] + VisibleMarkdown(s[1..])
  {
  }

  lemma CommentStep(s: string)
    requires CommentEnd(s) > 0
    ensures VisibleMarkdown(s) == OnlyNewlines(s[..CommentEnd(s)]) + VisibleMarkdown(s[CommentEnd(s)..])
  {
  }

  // ---------- survivors keep their line ----------

  /** Where the newlines of s are. */
  function NewlinePositions(s: string): (r: seq<nat>)
    ensures |r| == Newlines(s)
    ensures forall j :: 0 <= j < |r| ==> r[j] < |s| && s[r[j]] == '\n' && Newlines(s[..r[j]]) == j
    ensures forall i, j :: 0 <= i < j < |r| ==> r[i] < r[j]
  {
    if s == "" then [] else
    var n := |s| - 1;
    var rest := NewlinePositions(s[..n]);
    assert forall j :: 0 <= j < |rest| ==> s[..n][..rest[j]] == s[..rest[j]];
    if s[n] == '\n' then rest + [n] else rest
  }

  function Shift(positions: seq<nat>, offset: nat): (r: seq<nat>)
    ensures |r| == |positions| && forall j :: 0 <= j < |r| ==> r[j] == positions[j] + offset
  {
    seq(|positions|, j requires 0 <= j < |positions| => positions[j] + offset)
  }

  /** Where each character of the stripped text comes from. */
  function Origins(s: string): seq<nat>
    decreases |s|
  {
    if s == "" then [] else
    var e := CommentEnd(s);
    if e > 0 then NewlinePositions(s[..e]) + Shift(Origins(s[e..]), e)
    else [0] + Shift(Origins(s[1..]), 1)
  }

  /** Character j of the result stands in s, on the same line, and is the same character. */
  ghost predicate SameLine(s: string, out: string, origins: seq<nat>, j: nat) {
    && j < |out| == |origins| && origins[j] < |s| && out[j] == s[origins[j]]
    && Newlines(out[..j]) == Newlines(s[..origins[j]])
  }

  ghost predicate KeepsLines(s: string, out: string, origins: seq<nat>) {
    && |out| == |origins|
    && (forall j :: 0 <= j < |out| ==> SameLine(s, out, origins, j))
    && (forall i, j :: 0 <= i < j < |origins| ==> origins[i] < origins[j])
  }

  lemma HeadLine(front: string, s: string, head: string, out: string, first: seq<nat>, rest: seq<nat>, j: nat)
    requires SameLine(front, head, first, j) && |out| == |rest|
    ensures SameLine(front + s, head + out, first + rest, j)
  {
    assert (head + out)[..j] == head[..j] && (front + s)[..first[j]] == front[..first[j]];
  }

  lemma PrefixNewlines(a: string, b: string, k: nat)
    requires k <= |b|
    ensures Newlines((a + b)[..|a| + k]) == Newlines(a) + Newlines(b[..k])
  {
    assert (a + b)[..|a| + k] == a + b[..k];
    NewlinesConcat(a, b[..k]);
  }

  lemma ConcatAt<T>(a: seq<T>, b: seq<T>, k: nat)
    requires k < |b|
    ensures (a + b)[|a| + k] == b[k]
  {
  }

  lemma TailLine(front: string, s: string, head: string, out: string, first: seq<nat>, shifted: seq<nat>, k: nat,
                 at: nat)
    requires k < |out| == |shifted| && |head| == |first| && Newlines(head) == Newlines(front)
    requires at < |s| && out[k] == s[at] && Newlines(out[..k]) == Newlines(s[..at]) && shifted[k] == |front| + at
    ensures SameLine(front + s, head + out, first + shifted, |head| + k)
  {
    PrefixNewlines(head, out, k);
    PrefixNewlines(front, s, at);
    ConcatAt(first, shifted, k);
    ConcatAt(head, out, k);
    ConcatAt(front, s, at);
  }

  lemma Prepend(front: string, s: string, head: string, out: string, first: seq<nat>, rest: seq<nat>)
    requires KeepsLines(front, head, first) && KeepsLines(s, out, rest) && Newlines(head) == Newlines(front)
    ensures KeepsLines(front + s, head + out, first + Shift(rest, |front|))
  {
    var origins := first + Shift(rest, |front|);
    forall j: nat | j < |head + out| ensures SameLine(front + s, head + out, origins, j) {
      if j < |head| {
        HeadLine(front, s, head, out, first, Shift(rest, |front|), j);
      } else {
        assert SameLine(s, out, rest, j - |head|);
        TailLine(front, s, head, out, first, Shift(rest, |front|), j - |head|, rest[j - |head|]);
      }
    }
    PrependOrder(front, head, first, rest);
  }

  lemma PrependOrder(front: string, head: string, first: seq<nat>, rest: seq<nat>)
    requires KeepsLines(front, head, first) && forall i, j :: 0 <= i < j < |rest| ==> rest[i] < rest[j]
    ensures var origins := first + Shift(rest, |front|); forall i, j :: 0 <= i < j < |origins| ==>
              origins[i] < origins[j]
  {
    forall i | 0 <= i < |first| ensures first[i] < |front| {
      assert SameLine(front, head, first, i);
    }
  }

  lemma CommentKeepsLines(s: string)
    ensures KeepsLines(s, OnlyNewlines(s), NewlinePositions(s)) && Newlines(OnlyNewlines(s)) == Newlines(s)
  {
    var out, origins := OnlyNewlines(s), NewlinePositions(s);
    AllNewlines(out);
    forall j: nat | j < |out| ensures SameLine(s, out, origins, j) {
      assert out[j] in out && forall c :: c in out[..j] ==> c in out;
      AllNewlines(out[..j]);
    }
  }

  /** Every surviving character keeps its line number, and their order. */
  lemma {:induction false} SurvivorsKeepTheirLine(s: string)
    ensures KeepsLines(s, VisibleMarkdown(s), Origins(s))
    decreases |s|
  {
    if s == "" {
    } else {
      var e := CommentEnd(s);
      if e > 0 {
        SurvivorsKeepTheirLine(s[e..]);
        CommentKeepsLines(s[..e]);
        Prepend(s[..e], s[e..], OnlyNewlines(s[..e]), VisibleMarkdown(s[e..]), NewlinePositions(s[..e]),
                Origins(s[e..]));
        assert s == s[..e] + s[e..];
      } else {
        SurvivorsKeepTheirLine(s[1..]);
        assert SameLine([s[0]], [s[0]], [0], 0);
        Prepend([s[0]], s[1..], [s[0]], VisibleMarkdown(s[1..]), [0], Origins(s[1..]));
        assert s == [s[0]] + s[1..];
      }
    }
  }

  // ---------- what is stripped ----------

  ghost predicate StartsComment(s: string, i: nat) {
    i <= |s| && CommentEnd(s[i..]) > 0
  }

  lemma OneMore(s: string, n: nat, out: string)
    requires n < |s| && CommentEnd(s[n..]) == 0 && out == s[..n] + VisibleMarkdown(s[n..])
    ensures out == s[..n + 1] + VisibleMarkdown(s[n + 1..])
  {
    PlainStep(s[n..]);
    assert s[n..][1..] == s[n + 1..];
    assert s[..n + 1] == s[..n] + [s[n]];
  }

  /** Text in front of the first comment stays as it is. */
  lemma {:induction false} FrontStays(s: string, n: nat)
    requires n <= |s| && forall i: nat :: i < n ==> !StartsComment(s, i)
    ensures VisibleMarkdown(s) == s[..n] + VisibleMarkdown(s[n..])
  {
    if n == 0 {
      assert s[..0] == "" && s[0..] == s;
    } else {
      FrontStays(s, n - 1);
      assert !StartsComment(s, n - 1);
      OneMore(s, n - 1, VisibleMarkdown(s));
    }
  }

  lemma {:induction false} OnlyNewlinesConcat(a: string, b: string)
    ensures OnlyNewlines(a + b) == OnlyNewlines(a) + OnlyNewlines(b)
  {
    if b == "" {
      assert a + b == a;
    } else {
      OnlyNewlinesConcat(a, b[..|b| - 1]);
      assert (a + b)[..|a + b| - 1] == a + b[..|b| - 1];
    }
  }

  lemma {:induction false} NoNewlines(s: string)
    requires '\n' !in s
    ensures OnlyNewlines(s) == ""
  {
    if s == "" {
    } else {
      assert s[|s| - 1] in s && '\n' !in s[..|s| - 1];
      NoNewlines(s[..|s| - 1]);
    }
  }

  lemma CommentSpan(body: string, rest: string)
    requires forall i: nat :: i < |body| ==> !(CLOSE <= (body + CLOSE + rest)[i..])
    ensures CommentEnd(OPEN + body + CLOSE + rest) == |body| + 7
  {
    var t := OPEN + body + CLOSE + rest;
    var tail := body + CLOSE + rest;
    assert t == OPEN + tail;
    assert forall i: nat :: i <= |tail| ==> t[4 + i..] == tail[i..];
    assert CLOSE <= tail[|body|..];
    var k := FindFrom(t, CLOSE, 4);
    assert CLOSE <= t[4 + |body|..];
    assert k >= 4;
    assert t[k..] == tail[k - 4..];
  }

  /** The first comment runs to the first terminator behind its opener and leaves its newlines. */
  lemma FirstCommentIsBlanked(front: string, body: string, rest: string)
    requires forall i: nat :: i < |front| ==> !("<!--" <= (front + "<!--" + body + "-->" + rest)[i..])
    requires forall i: nat :: i < |body| ==> !("-->" <= (body + "-->" + rest)[i..])
    ensures VisibleMarkdown(front + "<!--" + body + "-->" + rest)
            == front + OnlyNewlines(body) + VisibleMarkdown(rest)
  {
    var t := OPEN + body + CLOSE + rest;
    assert front + OPEN + body + CLOSE + rest == front + t;
    BehindFront(front, t);
    CommentSpan(body, rest);
    BlankOne(t, body, rest);
    assert front + (OnlyNewlines(body) + VisibleMarkdown(rest)) == front + OnlyNewlines(body) + VisibleMarkdown(rest);
  }

  lemma NeverClosed(t: string)
    requires forall j: nat :: 4 <= j <= |t| ==> !(CLOSE <= t[j..])
    ensures CommentEnd(t) == 0
  {
  }

  lemma Suffixes(s: string, i: nat, j: nat)
    requires i + j <= |s|
    ensures s[i..][j..] == s[i + j..]
  {
  }

  /** Text without a comment that is closed stays as it is. */
  lemma NothingToStrip(s: string)
    requires forall i: nat, j: nat :: i + 4 <= j <= |s| && "<!--" <= s[i..] ==> !("-->" <= s[j..])
    ensures VisibleMarkdown(s) == s
  {
    hide CommentEnd, VisibleMarkdown;
    forall i: nat | i < |s| ensures CommentEnd(s[i..]) == 0 {
      OpensNothing(s, i);
    }
    FrontStays(s, |s|);
    NothingLeft();
    assert s[..|s|] == s && s[|s|..] == "";
  }

  lemma NothingLeft()
    ensures VisibleMarkdown("") == ""
  {
  }

  lemma OpensNothing(s: string, i: nat)
    requires i < |s|
    requires forall j: nat :: i + 4 <= j <= |s| && OPEN <= s[i..] ==> !(CLOSE <= s[j..])
    ensures CommentEnd(s[i..]) == 0
  {
    var t := s[i..];
    if OPEN <= t {
      forall j: nat | 4 <= j <= |t| ensures !(CLOSE <= t[j..]) {
        Suffixes(s, i, j);
      }
      NeverClosed(t);
    }
  }

  lemma BehindFront(front: string, t: string)
    requires forall i: nat :: i < |front| ==> !(OPEN <= (front + t)[i..])
    ensures VisibleMarkdown(front + t) == front + VisibleMarkdown(t)
  {
    forall i: nat | i < |front| ensures !StartsComment(front + t, i) {}
    FrontStays(front + t, |front|);
    assert (front + t)[..|front|] == front && (front + t)[|front|..] == t;
  }

  lemma BlankOne(t: string, body: string, rest: string)
    requires t == OPEN + body + CLOSE + rest && CommentEnd(t) == |body| + 7
    ensures VisibleMarkdown(t) == OnlyNewlines(body) + VisibleMarkdown(rest)
  {
    CommentStep(t);
    NewlinesOfComment(body);
    assert t[..|body| + 7] == OPEN + body + CLOSE && t[|body| + 7..] == rest;
  }

  lemma NewlinesOfComment(body: string)
    ensures OnlyNewlines(OPEN + body + CLOSE) == OnlyNewlines(body)
  {
    OnlyNewlinesConcat(OPEN + body, CLOSE);
    OnlyNewlinesConcat(OPEN, body);
    NoNewlines(OPEN);
    NoNewlines(CLOSE);
  }
}
