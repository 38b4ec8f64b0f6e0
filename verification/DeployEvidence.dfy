/** Counting accepted deploy evidence: greedy deduplication by two identities. */
module DeployEvidence {
  import opened Basics
  import KpiHistory

  /** A deploy evidence file as far as the summary reads it. Empty commits and run ids stand for none. */
  datatype File = File(name: string, succeeded: bool, time: Option<nat>, commit: string, runId: string)

  /** Commit and instant to the second: what was deployed when. */
  datatype Content = Content(commit: string, second: nat)

  datatype EvidenceId = Run(id: string) | CommitTime(content: Content) | Named(name: string)

  function ContentId(f: File): Option<Content> {
    if f.commit == "" || f.time.None? then None else Some(Content(f.commit, KpiHistory.FloorSecond(f.time.value)))
  }

  function IdOf(f: File): EvidenceId {
    if f.runId != "" then Run(f.runId)
    else if ContentId(f).Some? then CommitTime(ContentId(f).value)
    else Named(f.name)
  }

  predicate IsAccepted(start: int, end: int, f: File) {
    f.succeeded && f.time.Some? && start <= f.time.value <= end
  }

  /** The two files stand for the same deploy, by either identity. */
  predicate Conflicts(a: File, b: File) {
    IdOf(a) == IdOf(b) || (ContentId(a).Some? && ContentId(a) == ContentId(b))
  }

  ghost predicate Clashes(kept: seq<File>, f: File) {
    exists k :: k in kept && Conflicts(k, f)
  }

  /** What the scan keeps. */
  ghost function Greedy(files: seq<File>, start: int, end: int): seq<File> {
    if files == [] then [] else
    var kept, f := Greedy(files[..|files| - 1], start, end), files[|files| - 1];
    if IsAccepted(start, end, f) && !Clashes(kept, f) then kept + [f] else kept
  }

  ghost predicate Independent(kept: seq<File>) {
    forall i, j :: 0 <= i < j < |kept| ==> !Conflicts(kept[i], kept[j])
  }

  /** No two kept files stand for the same deploy. */
  lemma {:induction false} KeptAreIndependent(files: seq<File>, start: int, end: int)
    ensures Independent(Greedy(files, start, end))
    ensures forall f :: f in Greedy(files, start, end) ==> f in files && IsAccepted(start, end, f)
  {
    if files == [] {
    } else {
      var n := |files| - 1;
      KeptAreIndependent(files[..n], start, end);
      assert files == files[..n] + [files[n]];
    }
  }

  lemma {:induction false} KeptStay(files: seq<File>, start: int, end: int, n: nat)
    requires n <= |files|
    ensures Greedy(files[..n], start, end) <= Greedy(files, start, end)
  {
    if n < |files| {
      var m := |files| - 1;
      KeptStay(files[..m], start, end, n);
      assert files[..m][..n] == files[..n];
    } else {
      assert files[..n] == files;
    }
  }

  /** Every accepted file that is not kept conflicts with one that was kept before it. */
  lemma DroppedForAReason(files: seq<File>, start: int, end: int, i: nat)
    requires i < |files| && IsAccepted(start, end, files[i])
    ensures files[i] in Greedy(files, start, end) || Clashes(Greedy(files[..i], start, end), files[i])
    ensures Greedy(files[..i], start, end) <= Greedy(files, start, end)
  {
    assert files[..i + 1][..i] == files[..i];
    KeptStay(files, start, end, i + 1);
    KeptStay(files, start, end, i);
  }

  /** The kept set is maximal: no accepted file can be added to it. */
  lemma KeptAreMaximal(files: seq<File>, start: int, end: int, f: File)
    requires f in files && IsAccepted(start, end, f)
    ensures Clashes(Greedy(files, start, end), f)
  {
    var i :| 0 <= i < |files| && files[i] == f;
    DroppedForAReason(files, start, end, i);
    if f in Greedy(files, start, end) {
      assert Conflicts(f, f);
    } else {
      var k :| k in Greedy(files[..i], start, end) && Conflicts(k, f);
      assert k in Greedy(files, start, end);
    }
  }

  /** One more file. */
  lemma KeptNext(files: seq<File>, f: File, start: int, end: int)
    requires IsAccepted(start, end, f)
    ensures Greedy(files + [f], start, end)
         == Greedy(files, start, end) + if Clashes(Greedy(files, start, end), f) then [] else [f]
  {
    assert (files + [f])[..|files|] == files;
  }

  lemma ClashesWithOne(k: File, f: File)
    ensures Clashes([k], f) <==> Conflicts(k, f)
  {
    assert k in [k];
  }

  /** Three accepted files of which the middle one conflicts with both others, which do not conflict. */
  lemma MiddleFirst(a: File, b: File, c: File, start: int, end: int)
    requires IsAccepted(start, end, a) && IsAccepted(start, end, b) && IsAccepted(start, end, c)
    requires Conflicts(a, b) && Conflicts(b, a) && Conflicts(b, c) && !Conflicts(a, c)
    ensures Greedy([a] + [b] + [c], start, end) == [a, c] && Greedy([b] + [a] + [c], start, end) == [b]
  {
    hide Clashes, Conflicts, IsAccepted;
    assert Greedy([a], start, end) == [a] && Greedy([b], start, end) == [b] by {
      KeptNext([], a, start, end);
      KeptNext([], b, start, end);
      NothingClashes(a);
      NothingClashes(b);
      assert [] + [a] == [a] && [] + [b] == [b];
    }
    hide Greedy;
    KeptNext([a], b, start, end);
    KeptNext([a] + [b], c, start, end);
    KeptNext([b], a, start, end);
    KeptNext([b] + [a], c, start, end);
    ClashesWithOne(a, b);
    ClashesWithOne(a, c);
    ClashesWithOne(b, a);
    ClashesWithOne(b, c);
  }

  lemma NothingClashes(f: File)
    ensures !Clashes([], f)
  {
  }

  /** Maximal is not the same as largest: the count depends on the order of the files. */
  lemma CountDependsOnOrder() returns (a: File, b: File, c: File)
    ensures |Greedy([a] + [b] + [c], 0, 100)| == 2 && |Greedy([b] + [a] + [c], 0, 100)| == 1
  {
    a := File("a", true, Some(0), "x", "1");
    b := File("b", true, Some(0), "y", "1");
    c := File("c", true, Some(0), "y", "2");
    assert !Conflicts(a, c) by { assert "x"[0] != "y"[0] && "1"[0] != "2"[0]; }
    MiddleFirst(a, b, c, 0, 100);
  }

  // ---------- how far the count depends on the order ----------

  lemma ConflictsBothWays(a: File, b: File)
    ensures Conflicts(a, b) <==> Conflicts(b, a)
  {
  }

  /** Standing for the same deploy is transitive among the accepted files. */
  ghost predicate Transitive(files: seq<File>, start: int, end: int) {
    forall a, b, c :: (a in files && b in files && c in files
                       && IsAccepted(start, end, a) && IsAccepted(start, end, b) && IsAccepted(start, end, c)
                       && Conflicts(a, b) && Conflicts(b, c)) ==> Conflicts(a, c)
  }

  /** Every file of x clashes with y, and no file of y conflicts with two independent ones. */
  ghost predicate Charged(x: seq<File>, y: seq<File>) {
    && (forall f :: f in x ==> Clashes(y, f))
    && (forall k, f, g :: k in y && f in x && g in x && Conflicts(k, f) && Conflicts(k, g) ==> Conflicts(f, g))
  }

  lemma ChargedWithoutOne(x: seq<File>, y: seq<File>, i: nat)
    requires x != [] && Independent(x) && Charged(x, y) && i < |y| && Conflicts(y[i], x[|x| - 1])
    ensures Charged(x[..|x| - 1], y[..i] + y[i + 1..])
  {
    var front, last, rest := x[..|x| - 1], x[|x| - 1], y[..i] + y[i + 1..];
    assert last in x && y[i] in y;
    forall f | f in front ensures Clashes(rest, f) {
      var h :| 0 <= h < |front| && front[h] == f;
      assert f in x && !Conflicts(x[h], last);
      var k :| k in y && Conflicts(k, f);
      assert k != y[i];
      var j :| 0 <= j < |y| && y[j] == k;
      assert rest[if j < i then j else j - 1] == k;
    }
    assert forall k :: k in rest ==> k in y;
    assert forall f :: f in front ==> f in x;
  }

  /** Independent files that all clash are at most as many as what they clash with. */
  lemma {:induction false} ChargedAreFewer(x: seq<File>, y: seq<File>)
    requires Independent(x) && Charged(x, y)
    ensures |x| <= |y|
  {
    if x == [] {
    } else {
      var last := x[|x| - 1];
      assert last in x;
      var k :| k in y && Conflicts(k, last);
      var i :| 0 <= i < |y| && y[i] == k;
      ChargedWithoutOne(x, y, i);
      ChargedAreFewer(x[..|x| - 1], y[..i] + y[i + 1..]);
    }
  }

  lemma KeptIsCharged(x: seq<File>, y: seq<File>, start: int, end: int)
    requires Transitive(x, start, end) && forall f :: f in x <==> f in y
    ensures Charged(Greedy(x, start, end), Greedy(y, start, end))
  {
    KeptAreIndependent(x, start, end);
    KeptAreIndependent(y, start, end);
    forall f | f in Greedy(x, start, end) ensures Clashes(Greedy(y, start, end), f) {
      KeptAreMaximal(y, start, end, f);
    }
    forall k, f | k in Greedy(y, start, end) && f in Greedy(x, start, end)
      ensures Conflicts(k, f) <==> Conflicts(f, k)
    {
      ConflictsBothWays(k, f);
    }
  }

  /** Where conflicts are transitive, the count is that of the files, whatever their order. */
  lemma CountIsOrderFree(x: seq<File>, y: seq<File>, start: int, end: int)
    requires Transitive(x, start, end) && forall f :: f in x <==> f in y
    ensures |Greedy(x, start, end)| == |Greedy(y, start, end)|
  {
    assert Transitive(y, start, end);
    KeptIsCharged(x, y, start, end);
    KeptIsCharged(y, x, start, end);
    KeptAreIndependent(x, start, end);
    KeptAreIndependent(y, start, end);
    hide Greedy, Charged;
    ChargedAreFewer(Greedy(x, start, end), Greedy(y, start, end));
    ChargedAreFewer(Greedy(y, start, end), Greedy(x, start, end));
  }

  /** Two lists of files, the second a rearrangement of the first, are counted alike. */
  ghost predicate CountedAlike(files: seq<File>, start: int, end: int, x: seq<File>, y: seq<File>) {
    (forall f :: f in x ==> f in files) && multiset(x) == multiset(y) ==>
      |Greedy(x, start, end)| == |Greedy(y, start, end)|
  }

  /** The count never depends on the order, on these files or any part of them, exactly if conflicts are
      transitive among the accepted ones. */
  lemma CountOrderFreeExactly(files: seq<File>, start: int, end: int)
    ensures Transitive(files, start, end) <==> forall x, y :: CountedAlike(files, start, end, x, y)
  {
    if Transitive(files, start, end) {
      forall x, y ensures CountedAlike(files, start, end, x, y) {
        if (forall f :: f in x ==> f in files) && multiset(x) == multiset(y) {
          SameMembers(x, y);
          CountIsOrderFree(x, y, start, end);
        }
      }
    } else {
      var a, b, c :| a in files && b in files && c in files
        && IsAccepted(start, end, a) && IsAccepted(start, end, b) && IsAccepted(start, end, c)
        && Conflicts(a, b) && Conflicts(b, c) && !Conflicts(a, c);
      TwoCounts(files, start, end, a, b, c);
    }
  }

  lemma TwoCounts(files: seq<File>, start: int, end: int, a: File, b: File, c: File)
    requires a in files && b in files && c in files
    requires IsAccepted(start, end, a) && IsAccepted(start, end, b) && IsAccepted(start, end, c)
    requires Conflicts(a, b) && Conflicts(b, c) && !Conflicts(a, c)
    ensures !CountedAlike(files, start, end, [a] + [b] + [c], [b] + [a] + [c])
  {
    ConflictsBothWays(a, b);
    MiddleFirst(a, b, c, start, end);
  }

  // ---------- the counts that the orders of given files reach ----------

  /** Accepted files of the list that do not conflict, and to which none can be added. */
  ghost predicate MaximalIn(x: seq<File>, files: seq<File>, start: int, end: int) {
    && Independent(x) && (forall f :: f in x ==> f in files && IsAccepted(start, end, f))
    && forall f :: f in files && IsAccepted(start, end, f) ==> Clashes(x, f)
  }

  lemma NoClash(front: seq<File>, last: File)
    requires Independent(front + [last])
    ensures !Clashes(front, last) && Independent(front)
  {
    var x := front + [last];
    forall i | 0 <= i < |front| ensures !Conflicts(front[i], last) {
      assert !Conflicts(x[i], x[|front|]);
    }
    forall i, j | 0 <= i < j < |front| ensures !Conflicts(front[i], front[j]) {
      assert !Conflicts(x[i], x[j]);
    }
  }

  lemma {:induction false} IndependentAreKept(x: seq<File>, start: int, end: int)
    requires Independent(x) && forall f :: f in x ==> IsAccepted(start, end, f)
    ensures Greedy(x, start, end) == x
  {
    hide Clashes, IsAccepted, Independent;
    if x == [] {
    } else {
      var front, last := x[..|x| - 1], x[|x| - 1];
      assert last in x && x == front + [last];
      NoClash(front, last);
      IndependentAreKept(front, start, end);
    }
  }

  /** Independent accepted files are all kept if they come first, and nothing else if all the rest clashes. */
  lemma {:induction false} FirstAreKept(x: seq<File>, rest: seq<File>, start: int, end: int)
    requires Independent(x) && forall f :: f in x ==> IsAccepted(start, end, f)
    requires forall f :: f in rest && IsAccepted(start, end, f) ==> Clashes(x, f)
    ensures Greedy(x + rest, start, end) == x
  {
    hide Clashes, IsAccepted, Independent;
    if rest == [] {
      assert x + rest == x;
      IndependentAreKept(x, start, end);
    } else {
      var front, last := rest[..|rest| - 1], rest[|rest| - 1];
      assert last in rest && forall f :: f in front ==> f in rest;
      FirstAreKept(x, front, start, end);
      var all := x + rest;
      assert all[..|all| - 1] == x + front && all[|all| - 1] == last;
    }
  }

  lemma StillThere(files: seq<File>, i: nat, f: File)
    requires i < |files| && f in files && f != files[i]
    ensures f in files[..i] + files[i + 1..]
  {
    var j :| 0 <= j < |files| && files[j] == f;
    assert (files[..i] + files[i + 1..])[if j < i then j else j - 1] == f;
  }

  /** Distinct members of a list can be put in front of the rest of it. */
  lemma {:induction false} PutFirst(x: seq<File>, files: seq<File>) returns (rest: seq<File>)
    requires Distinct(x) && forall f :: f in x ==> f in files
    ensures multiset(x + rest) == multiset(files)
  {
    if x == [] {
      rest := files;
      assert x + rest == files;
    } else {
      var front, last := x[..|x| - 1], x[|x| - 1];
      assert last in x;
      var i :| 0 <= i < |files| && files[i] == last;
      forall f | f in front ensures f in files[..i] + files[i + 1..] {
        assert f in x && f != last;
        StillThere(files, i, f);
      }
      rest := PutFirst(front, files[..i] + files[i + 1..]);
      DropOne(files, i);
      DropLast(x);
      assert multiset(x + rest) == multiset(x) + multiset(rest);
      assert multiset(front + rest) == multiset(front) + multiset(rest);
    }
  }

  lemma IndependentAreDistinct(x: seq<File>)
    requires Independent(x)
    ensures Distinct(x)
  {
    forall i, j | 0 <= i < j < |x| ensures x[i] != x[j] {
      assert !Conflicts(x[i], x[j]);
    }
  }

  lemma KeptIsMaximal(files: seq<File>, start: int, end: int)
    ensures MaximalIn(Greedy(files, start, end), files, start, end)
  {
    KeptAreIndependent(files, start, end);
    forall f | f in files && IsAccepted(start, end, f) ensures Clashes(Greedy(files, start, end), f) {
      KeptAreMaximal(files, start, end, f);
    }
  }

  lemma OrderKeepsMaximal(files: seq<File>, start: int, end: int, y: seq<File>)
    requires multiset(y) == multiset(files)
    ensures MaximalIn(Greedy(y, start, end), files, start, end)
  {
    KeptIsMaximal(y, start, end);
    SameMembers(y, files);
  }

  /** What the orders of a list keep is exactly its maximal independent files: each order keeps such files, and
      each such list is what some order keeps. */
  lemma OrdersReachMaximal(files: seq<File>, start: int, end: int, x: seq<File>)
    ensures MaximalIn(x, files, start, end) <==>
              exists y :: multiset(y) == multiset(files) && Greedy(y, start, end) == x
  {
    if MaximalIn(x, files, start, end) {
      IndependentAreDistinct(x);
      var rest := PutFirst(x, files);
      SameMembers(x + rest, files);
      assert forall f :: f in rest ==> f in x + rest;
      FirstAreKept(x, rest, start, end);
    }
    if y :| multiset(y) == multiset(files) && Greedy(y, start, end) == x {
      OrderKeepsMaximal(files, start, end, y);
    }
  }

  /** The order y of the files keeps n of them. */
  ghost predicate OrderKeeps(files: seq<File>, start: int, end: int, y: seq<File>, n: nat) {
    multiset(y) == multiset(files) ==> |Greedy(y, start, end)| == n
  }

  ghost predicate MaximalHas(files: seq<File>, start: int, end: int, x: seq<File>, n: nat) {
    MaximalIn(x, files, start, end) ==> |x| == n
  }

  /** So the count of just these files is free of their order exactly if all their maximal independent lists
      have one length. */
  lemma WholeCountOrderFreeExactly(files: seq<File>, start: int, end: int, n: nat)
    ensures (forall y :: OrderKeeps(files, start, end, y, n)) <==> (forall x :: MaximalHas(files, start, end, x, n))
  {
    hide MaximalIn, Greedy;
    if forall y :: OrderKeeps(files, start, end, y, n) {
      forall x ensures MaximalHas(files, start, end, x, n) {
        OrdersReachMaximal(files, start, end, x);
        if y :| multiset(y) == multiset(files) && Greedy(y, start, end) == x {
          assert OrderKeeps(files, start, end, y, n);
        }
      }
    }
    if forall x :: MaximalHas(files, start, end, x, n) {
      forall y ensures OrderKeeps(files, start, end, y, n) {
        if multiset(y) == multiset(files) {
          OrderKeepsMaximal(files, start, end, y);
          assert MaximalHas(files, start, end, Greedy(y, start, end), n);
        }
      }
    }
  }

  // ---------- how far the count is from the largest ----------

  function ConflictsWith(k: File): File -> bool {
    (f: File) => Conflicts(k, f)
  }

  function SparedBy(k: File): File -> bool {
    (f: File) => !Conflicts(k, f)
  }

  lemma {:induction false} FilterIndependent(x: seq<File>, p: File -> bool)
    requires Independent(x)
    ensures Independent(Filter(x, p))
  {
    if x == [] {
    } else {
      var front, last := x[..|x| - 1], x[|x| - 1];
      FilterIndependent(front, p);
      forall i | 0 <= i < |Filter(front, p)| ensures !Conflicts(Filter(front, p)[i], last) {
        FilterMember(front, p, Filter(front, p)[i]);
        assert Filter(front, p)[i] in Filter(front, p);
        var j :| 0 <= j < |front| && front[j] == Filter(front, p)[i];
        assert !Conflicts(x[j], x[|x| - 1]);
      }
    }
  }

  /** Of three files that conflict with one, two share the same identity with it. */
  lemma SharedTwice(k: File, f: File, g: File, h: File)
    requires Conflicts(k, f) && Conflicts(k, g) && Conflicts(k, h)
    ensures Conflicts(f, g) || Conflicts(f, h) || Conflicts(g, h)
  {
  }

  lemma AtMostTwo(x: seq<File>, k: File)
    requires Independent(x) && forall f :: f in x ==> Conflicts(k, f)
    ensures |x| <= 2
  {
    if |x| > 2 {
      assert x[0] in x && x[1] in x && x[2] in x;
      SharedTwice(k, x[0], x[1], x[2]);
      assert false;
    }
  }

  lemma {:induction false} ClashingAreFew(x: seq<File>, y: seq<File>)
    requires Independent(x) && forall f :: f in x ==> Clashes(y, f)
    ensures |x| <= 2 * |y|
    decreases |y|
  {
    if x == [] {
    } else {
      assert x[0] in x;
      var first :| first in y && Conflicts(first, x[0]);
      var front, k := y[..|y| - 1], y[|y| - 1];
      var hit, spared := Filter(x, ConflictsWith(k)), Filter(x, SparedBy(k));
      FilterMembers(x, ConflictsWith(k));
      FilterMembers(x, SparedBy(k));
      FilterIndependent(x, ConflictsWith(k));
      FilterIndependent(x, SparedBy(k));
      AtMostTwo(hit, k);
      forall f | f in spared ensures Clashes(front, f) {
        var j :| j in y && Conflicts(j, f);
        assert j in front || j == k;
      }
      ClashingAreFew(spared, front);
      FilterSplits(x, ConflictsWith(k), SparedBy(k));
    }
  }

  /** The kept files are at least half as many as any independent accepted ones. */
  lemma KeptAreHalf(files: seq<File>, start: int, end: int, x: seq<File>)
    requires Independent(x) && forall f :: f in x ==> f in files && IsAccepted(start, end, f)
    ensures |x| <= 2 * |Greedy(files, start, end)|
  {
    forall f | f in x ensures Clashes(Greedy(files, start, end), f) {
      KeptAreMaximal(files, start, end, f);
    }
    ClashingAreFew(x, Greedy(files, start, end));
  }

  // ---------- the summary ----------

  function ByTimeAndName(): (File, File) -> bool {
    (a: File, b: File) =>
      var s, t := if a.time.Some? then a.time.value else 0, if b.time.Some? then b.time.value else 0;
      s < t || (s == t && TextLeq(a.name, b.name))
  }

  /** The text of an evidence id; `stamp` writes an instant. */
  function TextOf(stamp: nat -> string, id: EvidenceId): string {
    match id
    case Run(run) => "run:" + run
    case CommitTime(c) => "commit-time:" + (c.commit + ":" + stamp(c.second))
    case Named(name) => "file:" + name
  }

  function IdText(stamp: nat -> string): File -> string {
    (f: File) => TextOf(stamp, IdOf(f))
  }

  /** All instants are written at the same length and told apart. */
  ghost predicate FixedWidth(stamp: nat -> string) {
    forall a, b :: |stamp(a)| == |stamp(b)| && (stamp(a) == stamp(b) ==> a == b)
  }

  lemma AfterPrefix(prefix: string, a: string, b: string)
    requires prefix + a == prefix + b
    ensures a == b
  {
    assert (prefix + a)[|prefix|..] == a && (prefix + b)[|prefix|..] == b;
  }

  lemma BeforeSuffix(a: string, b: string, s: string, t: string)
    requires a + s == b + t && |s| == |t|
    ensures a == b && s == t
  {
    assert (a + s)[..|a|] == a && (b + t)[..|b|] == b;
    assert (a + s)[|a|..] == s && (b + t)[|b|..] == t;
  }

  /** Different evidence ids are written differently. */
  lemma TextsDiffer(stamp: nat -> string, x: EvidenceId, y: EvidenceId)
    requires FixedWidth(stamp) && TextOf(stamp, x) == TextOf(stamp, y)
    ensures x == y
  {
    assert "run:"[0] == 'r' && "commit-time:"[0] == 'c' && "file:"[0] == 'f';
    assert TextOf(stamp, x)[0] == if x.Run? then 'r' else if x.CommitTime? then 'c' else 'f';
    assert TextOf(stamp, y)[0] == if y.Run? then 'r' else if y.CommitTime? then 'c' else 'f';
    match (x, y)
    case (Run(a), Run(b)) => AfterPrefix("run:", a, b);
    case (Named(a), Named(b)) => AfterPrefix("file:", a, b);
    case (CommitTime(a), CommitTime(b)) =>
      AfterPrefix("commit-time:", a.commit + ":" + stamp(a.second), b.commit + ":" + stamp(b.second));
      BeforeSuffix(a.commit + ":", b.commit + ":", stamp(a.second), stamp(b.second));
      BeforeSuffix(a.commit, b.commit, ":", ":");
    case _ => assert false;
  }

  /** The texts of the kept ids in order, none of them twice. */
  ghost predicate AreIdTexts(stamp: nat -> string, kept: seq<File>, ids: seq<string>) {
    && SortedBy(ids, TextLeq) && multiset(ids) == multiset(Map(kept, IdText(stamp)))
    && (FixedWidth(stamp) ==> Distinct(ids))
  }

  lemma SortedTexts(stamp: nat -> string, kept: seq<File>)
    requires Independent(kept)
    ensures AreIdTexts(stamp, kept, StableSort(Map(kept, IdText(stamp)), TextLeq))
  {
    var texts := Map(kept, IdText(stamp));
    TextLeqOrder();
    SortSorted(texts, TextLeq);
    SortPermutes(texts, TextLeq);
    if FixedWidth(stamp) {
      forall i, j | 0 <= i < j < |texts| ensures texts[i] != texts[j] {
        assert !Conflicts(kept[i], kept[j]);
        if texts[i] == texts[j] {
          TextsDiffer(stamp, IdOf(kept[i]), IdOf(kept[j]));
        }
      }
      DistinctPermutation(texts, StableSort(texts, TextLeq));
    }
  }

  datatype Summary = Summary(count: nat, latest: Option<File>, capturedStart: Option<nat>, capturedEnd: Option<nat>,
                             evidenceIds: seq<string>, candidates: nat)

  /** The seen sets hold the identities of what was kept. */
  ghost predicate Seen(kept: seq<File>, ids: set<EvidenceId>, contents: set<Content>) {
    && (forall id :: id in ids <==> exists k :: k in kept && IdOf(k) == id)
    && (forall c :: c in contents <==> exists k :: k in kept && ContentId(k) == Some(c))
  }

  lemma SeenMore(kept: seq<File>, ids: set<EvidenceId>, contents: set<Content>, f: File)
    requires Seen(kept, ids, contents)
    ensures Seen(kept + [f], ids + {IdOf(f)}, if ContentId(f).Some? then contents + {ContentId(f).value} else contents)
  {
    var more := kept + [f];
    assert f in more;
    forall id ensures (id in ids || id == IdOf(f)) <==> exists k :: k in more && IdOf(k) == id {
      if k :| k in kept && IdOf(k) == id { assert k in more; }
      if k :| k in more && IdOf(k) == id { assert k in kept || k == f; }
    }
    forall c ensures (c in contents || Some(c) == ContentId(f)) <==> exists k :: k in more && ContentId(k) == Some(c) {
      if k :| k in kept && ContentId(k) == Some(c) { assert k in more; }
      if k :| k in more && ContentId(k) == Some(c) { assert k in kept || k == f; }
    }
  }

  lemma SeenIsClash(kept: seq<File>, ids: set<EvidenceId>, contents: set<Content>, f: File)
    requires Seen(kept, ids, contents)
    ensures Clashes(kept, f) <==> IdOf(f) in ids || (ContentId(f).Some? && ContentId(f).value in contents)
  {
    if k :| k in kept && IdOf(k) == IdOf(f) {
      assert Conflicts(k, f);
    }
    if ContentId(f).Some? {
      if k :| k in kept && ContentId(k) == Some(ContentId(f).value) {
        assert Conflicts(k, f);
      }
    }
  }

  method Deduplicate(files: seq<File>, start: int, end: int) returns (records: seq<File>)
    ensures records == Greedy(files, start, end)
  {
    records := [];
    var seenEvidence: set<EvidenceId>, seenContent: set<Content> := {}, {};
    for i := 0 to |files|
      invariant records == Greedy(files[..i], start, end)
      invariant Seen(records, seenEvidence, seenContent)
    {
      assert files[..i + 1][..i] == files[..i];
      var f := files[i];
      SeenIsClash(records, seenEvidence, seenContent, f);
      if IsAccepted(start, end, f)
         && !(IdOf(f) in seenEvidence || (ContentId(f).Some? && ContentId(f).value in seenContent)) {
        SeenMore(records, seenEvidence, seenContent, f);
        seenEvidence := seenEvidence + {IdOf(f)};
        if ContentId(f).Some? {
          seenContent := seenContent + {ContentId(f).value};
        }
        records := records + [f];
      }
    }
    assert files[..|files|] == files;
  }

  /** The first of the latest files. */
  ghost predicate IsLatest(kept: seq<File>, f: File) {
    exists i :: IsFirstLatest(kept, i) && kept[i] == f
  }

  ghost predicate IsFirstLatest(kept: seq<File>, i: int) {
    && 0 <= i < |kept|
    && (forall j :: 0 <= j < |kept| ==> ByTimeAndName()(kept[j], kept[i]))
    && (forall j :: 0 <= j < i ==> !ByTimeAndName()(kept[i], kept[j]))
  }

  lemma ByTimeAndNameOrder()
    ensures TotalPreorder(ByTimeAndName())
  {
    TextLeqOrder();
  }

  method LatestRecord(records: seq<File>) returns (latest: Option<File>)
    ensures if records == [] then latest.None? else latest.Some? && IsLatest(records, latest.value)
  {
    if records == [] {
      return None;
    }
    ByTimeAndNameOrder();
    var k := 0;
    for i := 1 to |records|
      invariant 0 <= k < i && IsFirstLatest(records[..i], k)
    {
      assert records[..i + 1] == records[..i] + [records[i]];
      ghost var before := k;
      if !ByTimeAndName()(records[i], records[k]) {
        k := i;
      }
      LatestMore(records[..i], records[i], before);
    }
    assert records[..|records|] == records;
    latest := Some(records[k]);
  }

  /** A further file is the first latest one if it is later than all others. */
  lemma LatestMore(kept: seq<File>, f: File, k: int)
    requires IsFirstLatest(kept, k) && TotalPreorder(ByTimeAndName())
    ensures IsFirstLatest(kept + [f], if ByTimeAndName()(f, kept[k]) then k else |kept|)
  {
    var leq := ByTimeAndName();
    if !leq(f, kept[k]) {
      forall j | 0 <= j < |kept| ensures leq(kept[j], f) && !leq(f, kept[j]) {
        assert leq(kept[j], kept[k]);
      }
    }
  }

  /** The tightest range that holds every instant. */
  ghost predicate IsRange(kept: seq<File>, start: nat, end: nat) {
    && (forall k :: k in kept ==> k.time.Some? && start <= k.time.value <= end)
    && (exists k :: k in kept && k.time == Some(start)) && (exists k :: k in kept && k.time == Some(end))
  }

  method CapturedTimes(records: seq<File>) returns (start: nat, end: nat)
    requires records != [] && forall k :: k in records ==> k.time.Some?
    ensures IsRange(records, start, end)
  {
    assert records[0] in records;
    start, end := records[0].time.value, records[0].time.value;
    for i := 1 to |records|
      invariant IsRange(records[..i], start, end)
    {
      var f := records[i];
      assert records[..i + 1] == records[..i] + [f];
      assert f in records;
      if f.time.value < start {
        start := f.time.value;
      }
      if f.time.value > end {
        end := f.time.value;
      }
    }
    assert records[..|records|] == records;
  }

  /** The summary counts the kept files, names the first of the latest of them, lists their ids in order, and
      gives the range of their instants, which ends with the one that is named. */
  method SummarizeOfficialDeployEvidence(files: seq<File>, start: int, end: int, stamp: nat -> string)
    returns (s: Summary)
    ensures s.count == |Greedy(files, start, end)| && s.candidates == |files|
    ensures AreIdTexts(stamp, Greedy(files, start, end), s.evidenceIds)
    ensures s.count == 0 ==> s.latest.None? && s.capturedStart.None? && s.capturedEnd.None?
    ensures s.count > 0 ==> s.latest.Some? && IsLatest(Greedy(files, start, end), s.latest.value)
    ensures s.count > 0 ==> s.capturedStart.Some? && s.capturedEnd.Some?
    ensures s.count > 0 ==> IsRange(Greedy(files, start, end), s.capturedStart.value, s.capturedEnd.value)
    ensures s.count > 0 ==>
              s.latest.value.time == s.capturedEnd && start <= s.capturedStart.value <= s.capturedEnd.value <= end
  {
    hide AreIdTexts, IsLatest;
    var records := Deduplicate(files, start, end);
    KeptAreIndependent(files, start, end);
    var ids := StableSort(Map(records, IdText(stamp)), TextLeq);
    SortedTexts(stamp, records);
    if records == [] {
      return Summary(0, None, None, None, ids, |files|);
    }
    var latest := LatestRecord(records);
    var first, last := CapturedTimes(records);
    s := Summary(|records|, latest, Some(first), Some(last), ids, |files|);
    LatestEndsRange(records, latest.value, first, last);
  }

  lemma LatestEndsRange(kept: seq<File>, f: File, start: nat, end: nat)
    requires IsLatest(kept, f) && IsRange(kept, start, end)
    ensures f.time == Some(end)
  {
    var i :| IsFirstLatest(kept, i) && kept[i] == f;
    var k :| k in kept && k.time == Some(end);
    var j :| 0 <= j < |kept| && kept[j] == k;
    assert ByTimeAndName()(kept[j], f);
    assert f in kept;
  }

  // ---------- the same in the words of the files ----------

  /** A finished deploy inside the window. */
  predicate InWindow(f: File, start: int, end: int) {
    f.succeeded && match f.time case Some(t) => start <= t && t <= end case None => false
  }

  /** The same commit, captured in the same second. */
  predicate SameContent(a: File, b: File) {
    && a.commit != "" && a.commit == b.commit && a.time.Some? && b.time.Some?
    && a.time.value / 1_000_000 == b.time.value / 1_000_000
  }

  predicate HasContent(f: File) {
    f.commit != "" && f.time.Some?
  }

  /** Two files stand for one deploy if they have the same content or the same run, or if they have neither but
      the same name. */
  predicate SameDeploy(a: File, b: File) {
    || SameContent(a, b)
    || (a.runId != "" && a.runId == b.runId)
    || (a.runId == "" && b.runId == "" && !HasContent(a) && !HasContent(b) && a.name == b.name)
  }

  lemma SameSecond(s: nat, t: nat)
    ensures KpiHistory.FloorSecond(s) == KpiHistory.FloorSecond(t) <==> s / 1_000_000 == t / 1_000_000
  {
    assert KpiHistory.FloorSecond(s) == s / 1_000_000 * 1_000_000;
    assert KpiHistory.FloorSecond(t) == t / 1_000_000 * 1_000_000;
  }

  /** Files that conflict are those of one deploy. */
  lemma ConflictsAre(a: File, b: File)
    ensures Conflicts(a, b) <==> SameDeploy(a, b)
  {
    if a.time.Some? && b.time.Some? {
      SameSecond(a.time.value, b.time.value);
    }
  }

  /** The files kept: those inside the window that stand for no deploy that an earlier kept file stands for. */
  ghost predicate AreKept(files: seq<File>, start: int, end: int, kept: seq<File>, at: seq<nat>) {
    && |at| == |kept| && (forall i :: 0 <= i < |at| ==> at[i] < |files| && kept[i] == files[at[i]])
    && (forall i, j :: 0 <= i < j < |at| ==> at[i] < at[j])
    && AllKept(files, start, end, at)
  }

  ghost predicate AllKept(files: seq<File>, start: int, end: int, at: seq<nat>) {
    forall k: nat :: k < |files| ==> (k in at <==> InWindow(files[k], start, end) && !Repeats(files, at, k))
  }

  /** An earlier kept file stands for the same deploy. */
  ghost predicate Repeats(files: seq<File>, at: seq<nat>, k: nat)
    requires k < |files|
  {
    exists j: nat :: j in at && j < k && SameDeploy(files[j], files[k])
  }

  lemma ClashesAre(kept: seq<File>, f: File)
    ensures Clashes(kept, f) <==> exists i :: 0 <= i < |kept| && SameDeploy(kept[i], f)
  {
    if k :| k in kept && Conflicts(k, f) {
      var i :| 0 <= i < |kept| && kept[i] == k;
      ConflictsAre(k, f);
    }
    if i :| 0 <= i < |kept| && SameDeploy(kept[i], f) {
      ConflictsAre(kept[i], f);
      assert kept[i] in kept;
    }
  }

  lemma AllKeptMore(files: seq<File>, f: File, start: int, end: int, kept: seq<File>, at: seq<nat>, all: seq<nat>)
    requires |at| == |kept| && forall i :: 0 <= i < |at| ==> at[i] < |files| && kept[i] == files[at[i]]
    requires AllKept(files, start, end, at)
    requires var keep := InWindow(f, start, end) && forall i :: 0 <= i < |kept| ==> !SameDeploy(kept[i], f);
      all == if keep then at + [|files|] else at
    ensures AllKept(files + [f], start, end, all)
  {
    var more := files + [f];
    hide SameDeploy, InWindow, Repeats;
    LastRepeats(files, f, kept, at, all);
    forall k: nat | k < |files|
      ensures k in all <==> InWindow(more[k], start, end) && !Repeats(more, all, k)
    {
      EarlierRepeats(files, f, at, all, k);
      assert more[k] == files[k];
    }
  }

  lemma KeepOneMore(files: seq<File>, f: File, start: int, end: int, kept: seq<File>, at: seq<nat>, keep: bool)
    requires AreKept(files, start, end, kept, at)
    requires keep <==> InWindow(f, start, end) && forall i :: 0 <= i < |kept| ==> !SameDeploy(kept[i], f)
    ensures AreKept(files + [f], start, end, if keep then kept + [f] else kept, if keep then at + [|files|] else at)
  {
    hide SameDeploy, InWindow, AllKept;
    AllKeptMore(files, f, start, end, kept, at, if keep then at + [|files|] else at);
    assert forall i :: 0 <= i < |files| ==> (files + [f])[i] == files[i];
  }

  lemma EarlierRepeats(files: seq<File>, f: File, at: seq<nat>, all: seq<nat>, k: nat)
    requires k < |files| && (all == at || all == at + [|files|])
    ensures Repeats(files + [f], all, k) <==> Repeats(files, at, k)
  {
    hide SameDeploy;
    var more := files + [f];
    forall j: nat | j < k ensures (j in all <==> j in at) && more[j] == files[j] {}
    if Repeats(files, at, k) {
      var j: nat :| j in at && j < k && SameDeploy(files[j], files[k]);
      assert SameDeploy(more[j], more[k]);
    }
  }

  lemma LastRepeats(files: seq<File>, f: File, kept: seq<File>, at: seq<nat>, all: seq<nat>)
    requires |at| == |kept| && forall i :: 0 <= i < |at| ==> at[i] < |files| && kept[i] == files[at[i]]
    requires all == at || all == at + [|files|]
    ensures |files| in all <==> all != at
    ensures forall k: nat :: k < |files| ==> (k in all <==> k in at)
    ensures Repeats(files + [f], all, |files|) <==> exists i :: 0 <= i < |kept| && SameDeploy(kept[i], f)
  {
    hide SameDeploy;
    var more := files + [f];
    if all != at {
      assert all[|at|] == |files|;
    }
    if Repeats(more, all, |files|) {
      var j: nat :| j in all && j < |files| && SameDeploy(more[j], more[|files|]);
      var i :| 0 <= i < |all| && all[i] == j;
      assert kept[i] == more[j];
    }
    if i :| 0 <= i < |kept| && SameDeploy(kept[i], f) {
      assert all[i] == at[i] && more[at[i]] == kept[i];
      assert at[i] in all;
    }
  }

  /** What the scan keeps, in the order of the paths. */
  lemma {:induction false} KeptAre(files: seq<File>, start: int, end: int) returns (at: seq<nat>)
    ensures AreKept(files, start, end, Greedy(files, start, end), at)
  {
    if files == [] {
      at := [];
    } else {
      var front, f := files[..|files| - 1], files[|files| - 1];
      at := KeptAre(front, start, end);
      var kept := Greedy(front, start, end);
      assert files == front + [f];
      ClashesAre(kept, f);
      assert IsAccepted(start, end, f) <==> InWindow(f, start, end);
      hide AreKept, Clashes, SameDeploy;
      var keep := IsAccepted(start, end, f) && !Clashes(kept, f);
      KeepOneMore(front, f, start, end, kept, at, keep);
      at := if keep then at + [|front|] else at;
    }
  }

  /** The one that is named as the latest: no kept file is later, or as late with a greater name, and of those
      equal in both it is the first. */
  lemma LatestIs(kept: seq<File>, f: File) returns (i: nat)
    requires IsLatest(kept, f) && forall k :: k in kept ==> k.time.Some?
    ensures i < |kept| && kept[i] == f && f.time.Some?
    ensures forall j :: 0 <= j < |kept| ==> kept[j].time.Some? && kept[j].time.value <= f.time.value
    ensures forall j :: 0 <= j < |kept| && kept[j].time == f.time ==> TextLeq(kept[j].name, f.name)
    ensures forall j :: 0 <= j < i ==> kept[j].time != f.time || kept[j].name != f.name
  {
    i :| IsFirstLatest(kept, i) && kept[i] == f;
    hide TextLeq;
    assert f in kept;
    forall j | 0 <= j < |kept|
      ensures kept[j].time.Some? && kept[j].time.value <= f.time.value
      ensures kept[j].time == f.time ==> TextLeq(kept[j].name, f.name)
      ensures j < i ==> kept[j].time != f.time || kept[j].name != f.name
    {
      assert kept[j] in kept;
      assert ByTimeAndName()(kept[j], kept[i]);
    }
  }

  /** How an evidence id reads: by run, or by commit and second, or by name. */
  lemma IdReads(stamp: nat -> string, f: File)
    ensures f.runId != "" ==> IdText(stamp)(f) == "run:" + f.runId
    ensures f.runId == "" && HasContent(f) ==>
      exists second: nat ::
        && second <= f.time.value < second + 1_000_000 && second % 1_000_000 == 0
        && IdText(stamp)(f) == "commit-time:" + (f.commit + ":" + stamp(second))
    ensures f.runId == "" && !HasContent(f) ==> IdText(stamp)(f) == "file:" + f.name
  {
    if f.runId == "" && HasContent(f) {
      var second := KpiHistory.FloorSecond(f.time.value);
      assert second <= f.time.value < second + 1_000_000 && second % 1_000_000 == 0;
      assert IdText(stamp)(f) == TextOf(stamp, CommitTime(Content(f.commit, second)));
    }
  }
}
