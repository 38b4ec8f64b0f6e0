/** Rolling back: finding the last healthy deploy, putting it back, and the command line run around it. */
module Rollback {
  import opened Basics
  import opened JsonValues
  import opened Deploy
  import opened RollbackTriggers
  import opened RollbackRecovery

  // ---------- stored evidence ----------

  datatype Content = Missing | Unreadable | Parsed(payload: Record)

  /** The evidence directory: the stems of its JSON files in path order, and how they read. */
  datatype EvidenceDir = EvidenceDir(folder: string, stems: seq<string>, file: string -> Content,
                                     modified: string -> string)

  const JSON_SUFFIX := ".json"

  function At(dir: EvidenceDir, stem: string): Place {
    Place(dir.folder, stem, JSON_SUFFIX)
  }

  const DEPLOY_STEM := "official-screeps-deploy"
  const GATE_STEM := "postdeploy-health-gate"

  /** A deploy file with a suffix of its own. */
  predicate IsNumbered(stem: string) {
    DEPLOY_STEM + "-" <= stem
  }

  /** The health gate that belongs to a deploy file. */
  function PairedHealthGate(stem: string): string {
    if IsNumbered(stem) then GATE_STEM + "-" + stem[|DEPLOY_STEM| + 1..] else GATE_STEM
  }

  /** Replacing a prefix is undone by putting it back. */
  lemma RestoresPrefix(cut: string, put: string, a: string, b: string)
    requires cut <= a && cut <= b && put + a[|cut|..] == put + b[|cut|..]
    ensures a == b
  {
    var x, y := a[|cut|..], b[|cut|..];
    assert x == (put + x)[|put|..] && y == (put + y)[|put|..];
    assert a == cut + x && b == cut + y;
  }

  /** Numbered deploys have a gate of their own; all other names share the plain one. */
  lemma PairingIsExclusive(a: string, b: string)
    ensures PairedHealthGate(a) == PairedHealthGate(b) <==>
              a == b || (!IsNumbered(a) && !IsNumbered(b))
  {
    if IsNumbered(a) && IsNumbered(b) && PairedHealthGate(a) == PairedHealthGate(b) {
      RestoresPrefix(DEPLOY_STEM + "-", GATE_STEM + "-", a, b);
    }
  }

  function CommitOf(payload: Record): Json {
    Field(Get(payload, "git"), "commit")
  }

  /** The file is named as a deploy and shows a finished live one of a known commit. */
  predicate IsDeploy(dir: EvidenceDir, stem: string) {
    var deploy := dir.file(stem);
    && DEPLOY_STEM <= stem
    && deploy.Parsed? && Get(deploy.payload, "ok") == Bool(true) && Get(deploy.payload, "mode") == Str("deploy")
    && CommitOf(deploy.payload).Str? && CommitOf(deploy.payload).s !in ["", "unknown"]
  }

  predicate GatePassed(gate: Content) {
    gate.Parsed? && Get(gate.payload, "ok") == Bool(true)
  }

  /** A finished live deploy of a known commit whose paired health gate passed. */
  predicate IsHealthy(dir: EvidenceDir, stem: string) {
    IsDeploy(dir, stem) && GatePassed(dir.file(PairedHealthGate(stem)))
  }

  datatype Previous = Previous(stem: string, commit: string, target: Json, sortKey: string)

  function SortKey(dir: EvidenceDir, stem: string, payload: Record): string {
    var timestamp := Get(payload, "timestampUtc");
    if timestamp.Str? && timestamp.s != "" then timestamp.s else dir.modified(stem)
  }

  /** What a deploy file is remembered as. */
  function PreviousOf(dir: EvidenceDir, stem: string): Previous {
    if !IsDeploy(dir, stem) then Previous(stem, "", Null, "") else
    var payload := dir.file(stem).payload;
    Previous(stem, CommitOf(payload).s, Get(payload, "target"), SortKey(dir, stem, payload))
  }

  /** What a deploy ranks by: the time its evidence gives, or else the modification stamp of the file. */
  function Recency(dir: EvidenceDir, stem: string): string {
    match dir.file(stem)
    case Parsed(payload) =>
      if "timestampUtc" in payload && payload["timestampUtc"].Str? && payload["timestampUtc"].s != ""
      then payload["timestampUtc"].s else dir.modified(stem)
    case _ => dir.modified(stem)
  }

  lemma RecencyMeans(dir: EvidenceDir, stem: string)
    requires IsDeploy(dir, stem)
    ensures PreviousOf(dir, stem).sortKey == Recency(dir, stem)
  {
  }

  function Healthy(dir: EvidenceDir): string -> bool {
    (stem: string) => IsHealthy(dir, stem)
  }

  function Remember(dir: EvidenceDir): string -> Previous {
    (stem: string) => PreviousOf(dir, stem)
  }

  function Pool(dir: EvidenceDir): seq<Previous> {
    Map(Filter(dir.stems, Healthy(dir)), Remember(dir))
  }

  lemma PoolMember(dir: EvidenceDir, p: Previous)
    requires p in Pool(dir)
    ensures p.stem in dir.stems && IsHealthy(dir, p.stem) && p == PreviousOf(dir, p.stem)
    ensures p.sortKey == Recency(dir, p.stem)
  {
    var i :| 0 <= i < |Pool(dir)| && Pool(dir)[i] == p;
    var stem := Filter(dir.stems, Healthy(dir))[i];
    FilterMember(dir.stems, Healthy(dir), stem);
    RecencyMeans(dir, stem);
  }

  lemma InPool(dir: EvidenceDir, stem: string)
    requires stem in dir.stems && IsHealthy(dir, stem)
    ensures PreviousOf(dir, stem) in Pool(dir)
  {
    FilterMember(dir.stems, Healthy(dir), stem);
    var i :| 0 <= i < |Filter(dir.stems, Healthy(dir))| && Filter(dir.stems, Healthy(dir))[i] == stem;
    assert Pool(dir)[i] == PreviousOf(dir, stem);
  }

  method IterSuccessfulDeployEvidence(dir: EvidenceDir) returns (records: seq<Previous>)
    ensures records == Pool(dir)
    ensures forall p :: p in records ==> p.sortKey == Recency(dir, p.stem)
  {
    records := [];
    for i := 0 to |dir.stems|
      invariant records == Map(Filter(dir.stems[..i], Healthy(dir)), Remember(dir))
    {
      var stem := dir.stems[i];
      FilterMapStep(dir.stems, i, Healthy(dir), Remember(dir));
      var deploy := dir.file(stem);
      if DEPLOY_STEM <= stem && deploy.Parsed? && Get(deploy.payload, "ok") == Bool(true)
         && Get(deploy.payload, "mode") == Str("deploy") {
        var commit := CommitOf(deploy.payload);
        if commit.Str? && commit.s !in ["", "unknown"] {
          var gate := dir.file(PairedHealthGate(stem));
          if GatePassed(gate) {
            records := records + [Previous(stem, commit.s, Get(deploy.payload, "target"),
                                           SortKey(dir, stem, deploy.payload))];
          }
        }
      }
    }
    assert dir.stems[..|dir.stems|] == dir.stems;
    forall p | p in records ensures p.sortKey == Recency(dir, p.stem) {
      PoolMember(dir, p);
    }
  }

  predicate Filled(v: Json) {
    v.Str? && v.s != ""
  }

  /** The four fields that identify a deploy target, if all are there. */
  function TargetValues(t: Json): Option<Target> {
    if Filled(Field(t, "apiUrl")) && Filled(Field(t, "branch")) && Filled(Field(t, "shard")) && Filled(Field(t, "room"))
    then Some(Target(Field(t, "apiUrl").s, Field(t, "branch").s, Field(t, "shard").s, Field(t, "room").s)) else None
  }

  predicate Complete(t: Target) {
    t.apiUrl != "" && t.branch != "" && t.shard != "" && t.room != ""
  }

  predicate IsEligible(dir: EvidenceDir, target: Target, currentCommit: string, currentPath: Option<Place>,
                       p: Previous) {
    && TargetValues(p.target) == Some(target)
    && (currentCommit != "" ==> p.commit != currentCommit)
    && (currentPath.Some? ==> At(dir, p.stem) != currentPath.value)
  }

  function Eligible(dir: EvidenceDir, target: Target, currentCommit: string,
                    currentPath: Option<Place>): Previous -> bool {
    (p: Previous) => IsEligible(dir, target, currentCommit, currentPath, p)
  }

  function ByKey(): (Previous, Previous) -> bool {
    (a: Previous, b: Previous) => TextLeq(a.sortKey, b.sortKey)
  }

  lemma ByKeyOrder()
    ensures TotalPreorder(ByKey())
  {
    TextLeqOrder();
  }

  /** The choice among all candidates: the last-listed one of the highest sort key. */
  ghost predicate IsLatest(dir: EvidenceDir, target: Target, currentCommit: string, currentPath: Option<Place>,
                           p: Previous) {
    exists i: nat ::
      && IsBestAt(Pool(dir), Eligible(dir, target, currentCommit, currentPath), ByKey(), i)
      && p == Pool(dir)[i]
  }

  // ---------- the choice in the words of the files ----------

  /** A gate file belongs to a deploy file if it carries the same number, or if the deploy file carries none. */
  ghost predicate GateOf(stem: string, gate: string) {
    && (forall number :: stem == "official-screeps-deploy-" + number ==> gate == "postdeploy-health-gate-" + number)
    && ((forall number :: stem != "official-screeps-deploy-" + number) ==> gate == "postdeploy-health-gate")
  }

  predicate Holds(payload: Record, key: string, value: Json) {
    key in payload && payload[key] == value
  }

  function Inner(payload: Record, key: string): Record {
    if key in payload && payload[key].Obj? then payload[key].fields else map[]
  }

  /** The evidence of a finished live deploy of this commit to this target, with a gate file that passed. */
  ghost predicate IsHealthyDeploy(dir: EvidenceDir, stem: string, commit: string, target: Target) {
    && "official-screeps-deploy" <= stem && stem in dir.stems && dir.file(stem).Parsed?
    && commit != "" && commit != "unknown" && ShowsDeploy(dir.file(stem).payload, commit, target)
    && forall gate :: GateOf(stem, gate) ==>
         dir.file(gate).Parsed? && Holds(dir.file(gate).payload, "ok", Bool(true))
  }

  predicate ShowsDeploy(payload: Record, commit: string, target: Target) {
    && Holds(payload, "ok", Bool(true)) && Holds(payload, "mode", Str("deploy"))
    && Holds(Inner(payload, "git"), "commit", Str(commit))
    && target.apiUrl != "" && target.branch != "" && target.shard != "" && target.room != ""
    && Holds(Inner(payload, "target"), "apiUrl", Str(target.apiUrl))
    && Holds(Inner(payload, "target"), "branch", Str(target.branch))
    && Holds(Inner(payload, "target"), "shard", Str(target.shard))
    && Holds(Inner(payload, "target"), "room", Str(target.room))
  }

  /** Such a deploy can be returned to from another commit, if it is not the run's own evidence. */
  ghost predicate MayReturnTo(dir: EvidenceDir, target: Target, currentCommit: string, currentPath: Option<Place>,
                              stem: string) {
    && (exists commit :: IsHealthyDeploy(dir, stem, commit, target)
                         && (commit != currentCommit || currentCommit == ""))
    && currentPath != Some(Place(dir.folder, stem, ".json"))
  }

  /** The k-th file is the most recent one to return to, and the last listed of those equally recent. */
  ghost predicate IsMostRecent(dir: EvidenceDir, target: Target, currentCommit: string, currentPath: Option<Place>,
                               k: nat) {
    && k < |dir.stems| && MayReturnTo(dir, target, currentCommit, currentPath, dir.stems[k])
    && (forall j :: 0 <= j < |dir.stems| && MayReturnTo(dir, target, currentCommit, currentPath, dir.stems[j]) ==>
          TextLeq(Recency(dir, dir.stems[j]), Recency(dir, dir.stems[k])))
    && (forall j :: k < j < |dir.stems| && MayReturnTo(dir, target, currentCommit, currentPath, dir.stems[j]) ==>
          !TextLeq(Recency(dir, dir.stems[k]), Recency(dir, dir.stems[j])))
  }

  lemma GateOfPaired(stem: string, gate: string)
    ensures GateOf(stem, gate) <==> gate == PairedHealthGate(stem)
  {
    assert DEPLOY_STEM + "-" == "official-screeps-deploy-" && GATE_STEM + "-" == "postdeploy-health-gate-";
    var prefix: string := "official-screeps-deploy-";
    if IsNumbered(stem) {
      assert stem == prefix + stem[|prefix|..];
      forall number | stem == prefix + number ensures number == stem[|prefix|..] {
        assert (prefix + number)[|prefix|..] == number;
      }
    } else {
      forall number ensures stem != prefix + number {
        assert prefix <= prefix + number;
      }
    }
  }

  lemma HealthyMeans(dir: EvidenceDir, stem: string, commit: string, target: Target)
    ensures IsHealthyDeploy(dir, stem, commit, target) <==>
      && stem in dir.stems && IsHealthy(dir, stem) && PreviousOf(dir, stem).commit == commit
      && TargetValues(PreviousOf(dir, stem).target) == Some(target)
  {
    forall gate ensures GateOf(stem, gate) <==> gate == PairedHealthGate(stem) {
      GateOfPaired(stem, gate);
    }
    hide GateOf, PairedHealthGate;
  }

  lemma CandidateMeans(dir: EvidenceDir, target: Target, currentCommit: string, currentPath: Option<Place>,
                       stem: string)
    ensures MayReturnTo(dir, target, currentCommit, currentPath, stem) <==>
      stem in dir.stems && IsHealthy(dir, stem)
      && IsEligible(dir, target, currentCommit, currentPath, PreviousOf(dir, stem))
  {
    forall commit ensures IsHealthyDeploy(dir, stem, commit, target) <==>
      && stem in dir.stems && IsHealthy(dir, stem) && PreviousOf(dir, stem).commit == commit
      && TargetValues(PreviousOf(dir, stem).target) == Some(target)
    {
      HealthyMeans(dir, stem, commit, target);
    }
    assert PreviousOf(dir, stem).stem == stem;
    hide IsHealthyDeploy, TargetValues, PairedHealthGate, CommitOf, IsHealthy, PreviousOf;
    if stem in dir.stems && IsHealthy(dir, stem)
       && IsEligible(dir, target, currentCommit, currentPath, PreviousOf(dir, stem)) {
      assert IsHealthyDeploy(dir, stem, PreviousOf(dir, stem).commit, target);
    }
  }

  /** What is remembered is the healthy files, in path order. */
  lemma PoolPositions(dir: EvidenceDir) returns (at: seq<nat>)
    ensures |at| == |Pool(dir)|
    ensures forall i :: 0 <= i < |at| ==>
      && at[i] < |dir.stems| && IsHealthy(dir, dir.stems[at[i]]) && Pool(dir)[i] == PreviousOf(dir, dir.stems[at[i]])
      && Pool(dir)[i].sortKey == Recency(dir, dir.stems[at[i]])
    ensures forall i, j :: 0 <= i < j < |at| ==> at[i] < at[j]
    ensures forall k :: 0 <= k < |dir.stems| && IsHealthy(dir, dir.stems[k]) ==> k in at
  {
    hide IsDeploy, GatePassed, PreviousOf, Filter, Recency;
    at := FilterPositions(dir.stems, Healthy(dir));
    forall i | 0 <= i < |at| ensures PreviousOf(dir, dir.stems[at[i]]).sortKey == Recency(dir, dir.stems[at[i]]) {
      RecencyMeans(dir, dir.stems[at[i]]);
    }
  }

  /** The choice among the remembered deploys is the most recent file. */
  lemma LatestIsMostRecent(dir: EvidenceDir, target: Target, currentCommit: string, currentPath: Option<Place>,
                           p: Previous) returns (k: nat)
    requires IsLatest(dir, target, currentCommit, currentPath, p)
    ensures IsMostRecent(dir, target, currentCommit, currentPath, k) && dir.stems[k] == p.stem
    ensures IsHealthyDeploy(dir, p.stem, p.commit, target)
  {
    hide MayReturnTo, IsHealthy, IsEligible, PreviousOf, Recency, IsHealthyDeploy, TextLeq, Filter, Pool;
    var i: nat :| IsBestAt(Pool(dir), Eligible(dir, target, currentCommit, currentPath), ByKey(), i)
        && p == Pool(dir)[i];
    var at := PoolPositions(dir);
    k := at[i];
    ChosenAt(dir, target, currentCommit, currentPath, p, k);
    forall j | 0 <= j < |dir.stems| && MayReturnTo(dir, target, currentCommit, currentPath, dir.stems[j])
      ensures TextLeq(Recency(dir, dir.stems[j]), Recency(dir, dir.stems[k]))
      ensures k < j ==> !TextLeq(Recency(dir, dir.stems[k]), Recency(dir, dir.stems[j]))
    {
      CandidateMeans(dir, target, currentCommit, currentPath, dir.stems[j]);
      var l :| 0 <= l < |at| && at[l] == j;
      assert Pool(dir)[l] == PreviousOf(dir, dir.stems[j]);
      assert ByKey()(Pool(dir)[l], Pool(dir)[i]);
    }
  }

  lemma ChosenAt(dir: EvidenceDir, target: Target, currentCommit: string, currentPath: Option<Place>, p: Previous,
                 k: nat)
    requires k < |dir.stems| && IsHealthy(dir, dir.stems[k]) && p == PreviousOf(dir, dir.stems[k])
    requires IsEligible(dir, target, currentCommit, currentPath, p)
    ensures p.stem == dir.stems[k] && p.sortKey == Recency(dir, dir.stems[k])
    ensures MayReturnTo(dir, target, currentCommit, currentPath, p.stem)
    ensures IsHealthyDeploy(dir, p.stem, p.commit, target)
  {
    assert p.stem == dir.stems[k];
    RecencyMeans(dir, p.stem);
    CandidateMeans(dir, target, currentCommit, currentPath, p.stem);
    HealthyMeans(dir, p.stem, p.commit, target);
  }

  lemma NothingToReturnTo(dir: EvidenceDir, target: Target, currentCommit: string, currentPath: Option<Place>)
    ensures (forall p :: p in Pool(dir) ==> !IsEligible(dir, target, currentCommit, currentPath, p))
            <==> forall stem :: !MayReturnTo(dir, target, currentCommit, currentPath, stem)
  {
    hide MayReturnTo, IsHealthy, IsEligible, PreviousOf, Pool;
    forall p | p in Pool(dir) && IsEligible(dir, target, currentCommit, currentPath, p)
      ensures exists stem :: MayReturnTo(dir, target, currentCommit, currentPath, stem)
    {
      PoolMember(dir, p);
      CandidateMeans(dir, target, currentCommit, currentPath, p.stem);
    }
    forall stem | MayReturnTo(dir, target, currentCommit, currentPath, stem)
      ensures exists p :: p in Pool(dir) && IsEligible(dir, target, currentCommit, currentPath, p)
    {
      CandidateMeans(dir, target, currentCommit, currentPath, stem);
      InPool(dir, stem);
    }
  }

  method FindPreviousHealthyDeploy(dir: EvidenceDir, target: Target, currentCommit: string, currentPath: Option<Place>)
    returns (r: Result<Previous, string>)
    ensures r.Err? <==>
      || target.apiUrl == "" || target.branch == "" || target.shard == "" || target.room == ""
      || forall stem :: !MayReturnTo(dir, target, currentCommit, currentPath, stem)
    ensures r.Ok? ==> IsLatest(dir, target, currentCommit, currentPath, r.value)
    ensures r.Ok? ==> IsHealthyDeploy(dir, r.value.stem, r.value.commit, target)
    ensures r.Ok? ==> exists k: nat ::
              IsMostRecent(dir, target, currentCommit, currentPath, k) && dir.stems[k] == r.value.stem
  {
    hide MayReturnTo, IsMostRecent, IsHealthyDeploy;
    NothingToReturnTo(dir, target, currentCommit, currentPath);
    if !Complete(target) {
      return Err("rollback target must include complete fields");
    }
    var records := IterSuccessfulDeployEvidence(dir);
    var candidates := StableSort(records, ByKey());
    ghost var p := Eligible(dir, target, currentCommit, currentPath);
    ByKeyOrder();
    var i := LastEligible(dir, target, currentCommit, currentPath, candidates);
    if i == -1 {
      NoneOfSorted(records, p, ByKey());
      return Err("no previous healthy deploy evidence found");
    }
    LastOfSorted(records, p, ByKey(), i);
    r := Ok(candidates[i]);
    ghost var k := LatestIsMostRecent(dir, target, currentCommit, currentPath, r.value);
  }

  /** The candidates from the end: the first that qualifies, or -1. */
  method LastEligible(dir: EvidenceDir, target: Target, currentCommit: string, currentPath: Option<Place>,
                      candidates: seq<Previous>)
    returns (i: int)
    ensures -1 <= i < |candidates| && (i >= 0 ==> Eligible(dir, target, currentCommit, currentPath)(candidates[i]))
    ensures forall j :: i < j < |candidates| ==> !Eligible(dir, target, currentCommit, currentPath)(candidates[j])
  {
    ghost var p := Eligible(dir, target, currentCommit, currentPath);
    i := |candidates| - 1;
    while i >= 0 && !IsEligible(dir, target, currentCommit, currentPath, candidates[i])
      invariant -1 <= i < |candidates|
      invariant forall j :: i < j < |candidates| ==> !p(candidates[j])
    {
      i := i - 1;
    }
  }

  /** What the choice guarantees: a healthy deploy of the same target and of another commit. */
  lemma LatestIsHealthy(dir: EvidenceDir, target: Target, currentCommit: string, currentPath: Option<Place>,
                        p: Previous)
    requires IsLatest(dir, target, currentCommit, currentPath, p)
    ensures p.stem in dir.stems && IsHealthy(dir, p.stem) && p == PreviousOf(dir, p.stem)
    ensures TargetValues(p.target) == Some(target) && (p.commit == currentCommit ==> currentCommit == "")
    ensures MayReturnTo(dir, target, currentCommit, currentPath, p.stem)
    ensures IsHealthyDeploy(dir, p.stem, p.commit, target)
    ensures forall stem :: MayReturnTo(dir, target, currentCommit, currentPath, stem) ==>
              stem in dir.stems && TextLeq(Recency(dir, stem), Recency(dir, p.stem))
  {
    var i: nat :| IsBestAt(Pool(dir), Eligible(dir, target, currentCommit, currentPath), ByKey(), i)
        && p == Pool(dir)[i];
    PoolMember(dir, p);
    var k := LatestIsMostRecent(dir, target, currentCommit, currentPath, p);
    hide MayReturnTo, IsHealthyDeploy, Recency, TextLeq;
    forall stem | MayReturnTo(dir, target, currentCommit, currentPath, stem)
      ensures stem in dir.stems && TextLeq(Recency(dir, stem), Recency(dir, p.stem))
    {
      CandidateMeans(dir, target, currentCommit, currentPath, stem);
      var j :| 0 <= j < |dir.stems| && dir.stems[j] == stem;
    }
  }

  // ---------- escalation ----------

  const ESCALATION := "AUTO-ROLLBACK ESCALATION:"
  const LEAD := "rollback failed; manual intervention required. Reason: "

  function Escalate(reason: string): string {
    ESCALATION + " " + (LEAD + reason)
  }

  /** How an error leaves the rollback. */
  function Surface(message: string): string {
    if ESCALATION <= message then message else Escalate(message)
  }

  lemma NotDoubled(prefix: string, c: char, rest: string)
    requires prefix != [] && prefix[0] != c
    ensures !(prefix + prefix <= prefix + [c] + rest)
  {
    assert (prefix + prefix)[|prefix|] == prefix[0] && (prefix + [c] + rest)[|prefix|] == c;
  }

  /** Every error carries the prefix once: it is there, it is not put in front of itself, and surfacing
      twice is surfacing once. */
  lemma SurfaceOnce(message: string)
    ensures ESCALATION <= Surface(message) && Surface(Surface(message)) == Surface(message)
    ensures !(ESCALATION + ESCALATION <= message) ==> !(ESCALATION + ESCALATION <= Surface(message))
    ensures Surface(message) ==
      if "AUTO-ROLLBACK ESCALATION:" <= message then message
      else "AUTO-ROLLBACK ESCALATION:" + " " + ("rollback failed; manual intervention required. Reason: " + message)
  {
    assert ESCALATION[0] == 'A';
    NotDoubled(ESCALATION, ' ', LEAD + message);
  }
}
