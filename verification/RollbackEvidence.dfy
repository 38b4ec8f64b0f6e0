/** What a run writes into the evidence directory before its rollback looks there, and what that costs. */
module RollbackEvidence {
  import opened Basics
  import opened JsonValues
  import opened Deploy
  import opened Rollback

  // ---------- writing ----------

  function Elsewhere(dir: EvidenceDir, place: Place): string -> bool {
    (stem: string) => At(dir, stem) != place
  }

  /** At most the file at this place is new or changed. */
  ghost predicate Touched(before: EvidenceDir, after: EvidenceDir, place: Place) {
    && after.folder == before.folder
    && (forall stem :: At(before, stem) != place ==>
        after.file(stem) == before.file(stem) && after.modified(stem) == before.modified(stem))
    && Filter(after.stems, Elsewhere(before, place)) == Filter(before.stems, Elsewhere(before, place))
  }

  /** And it holds this payload, if the place is in the directory at all. */
  ghost predicate Overwritten(before: EvidenceDir, after: EvidenceDir, place: Place, payload: Record) {
    && Touched(before, after, place)
    && forall stem :: At(before, stem) == place ==> after.file(stem) == Parsed(payload)
  }

  lemma StillListed(before: EvidenceDir, after: EvidenceDir, place: Place, stem: string)
    requires Touched(before, after, place) && At(before, stem) != place
    ensures stem in after.stems <==> stem in before.stems
  {
    FilterMember(before.stems, Elsewhere(before, place), stem);
    FilterMember(after.stems, Elsewhere(before, place), stem);
  }

  /** Where the health gate of a run is written. */
  function GatePlace(folder: string, evidencePath: Option<Place>): Place {
    match evidencePath
    case None => Place(folder, GATE_STEM, JSON_SUFFIX)
    case Some(p) => Place(p.folder, PairedHealthGate(p.stem), JSON_SUFFIX)
  }

  /** A run has written its own evidence, if it was told where, and then its health gate. */
  ghost predicate Prepared(before: EvidenceDir, after: EvidenceDir, evidencePath: Option<Place>, evidence: Record,
                           gate: Record) {
    exists mid :: PreparedBy(before, mid, after, evidencePath, evidence, gate)
  }

  ghost predicate PreparedBy(before: EvidenceDir, mid: EvidenceDir, after: EvidenceDir, evidencePath: Option<Place>,
                             evidence: Record, gate: Record) {
    && (if evidencePath.Some? then Overwritten(before, mid, evidencePath.value, evidence) else mid == before)
    && Overwritten(mid, after, GatePlace(before.folder, evidencePath), gate)
  }

  // ---------- shared gates ----------

  /** The run writes its gate over that of the stem. */
  predicate SharesGate(folder: string, evidencePath: Option<Place>, stem: string) {
    match evidencePath
    case None => !IsNumbered(stem)
    case Some(p) => p.folder == folder && (p.stem == stem || (!IsNumbered(p.stem) && !IsNumbered(stem)))
  }

  lemma SharesGateExactly(dir: EvidenceDir, evidencePath: Option<Place>, stem: string)
    ensures SharesGate(dir.folder, evidencePath, stem) <==>
              GatePlace(dir.folder, evidencePath) == At(dir, PairedHealthGate(stem))
  {
    match evidencePath
    case None =>
    case Some(p) => PairingIsExclusive(p.stem, stem);
  }

  lemma GateIsNoDeploy(stem: string)
    ensures !(DEPLOY_STEM <= PairedHealthGate(stem))
  {
    assert DEPLOY_STEM[0] == 'o' && GATE_STEM[0] == 'p';
    assert PairedHealthGate(stem)[0] == GATE_STEM[0];
  }

  // ---------- what is left to roll back to ----------

  /** A rollback may choose this deploy. */
  predicate IsCandidate(dir: EvidenceDir, target: Target, commit: string, evidencePath: Option<Place>, stem: string) {
    stem in dir.stems && IsHealthy(dir, stem) && IsEligible(dir, target, commit, evidencePath, PreviousOf(dir, stem))
  }

  /** What is found as the gate of the stem once the run's evidence is written. */
  predicate GateStands(dir: EvidenceDir, evidencePath: Option<Place>, evidence: Record, stem: string) {
    if evidencePath == Some(At(dir, PairedHealthGate(stem))) then Get(evidence, "ok") == Bool(true)
    else GatePassed(dir.file(PairedHealthGate(stem)))
  }

  /** The same, judged before the run: the deploy does not share the run's gate. */
  predicate StaysCandidate(dir: EvidenceDir, target: Target, commit: string, evidencePath: Option<Place>,
                           evidence: Record, stem: string) {
    && stem in dir.stems && IsDeploy(dir, stem) && GateStands(dir, evidencePath, evidence, stem)
    && IsEligible(dir, target, commit, evidencePath, PreviousOf(dir, stem))
    && !SharesGate(dir.folder, evidencePath, stem)
  }

  /** A deploy file other than the run's own reads as before. */
  lemma DeployUntouched(before: EvidenceDir, mid: EvidenceDir, after: EvidenceDir, evidencePath: Option<Place>,
                        evidence: Record, gate: Record, stem: string)
    requires PreparedBy(before, mid, after, evidencePath, evidence, gate)
    requires DEPLOY_STEM <= stem && evidencePath != Some(At(before, stem))
    ensures (stem in after.stems <==> stem in before.stems) && IsDeploy(after, stem) == IsDeploy(before, stem)
    ensures PreviousOf(after, stem) == PreviousOf(before, stem) && At(after, stem) == At(before, stem)
  {
    var place := GatePlace(before.folder, evidencePath);
    GateIsNoDeploy(if evidencePath.Some? then evidencePath.value.stem else GATE_STEM);
    assert place.stem == PairedHealthGate(if evidencePath.Some? then evidencePath.value.stem else GATE_STEM);
    assert At(mid, stem) != place;
    StillListed(mid, after, place, stem);
    if evidencePath.Some? {
      StillListed(before, mid, evidencePath.value, stem);
    }
  }

  /** Its gate reads as the run's if they share one, and otherwise as the evidence left it. */
  lemma GateAfter(before: EvidenceDir, mid: EvidenceDir, after: EvidenceDir, evidencePath: Option<Place>,
                  evidence: Record, gate: Record, stem: string)
    requires PreparedBy(before, mid, after, evidencePath, evidence, gate)
    ensures GatePassed(after.file(PairedHealthGate(stem))) <==>
      if SharesGate(before.folder, evidencePath, stem) then Get(gate, "ok") == Bool(true)
      else GateStands(before, evidencePath, evidence, stem)
  {
    SharesGateExactly(before, evidencePath, stem);
    assert At(mid, PairedHealthGate(stem)) == At(before, PairedHealthGate(stem));
  }

  /** A failing run loses exactly the candidates that share its gate. */
  lemma CandidatesLeft(before: EvidenceDir, after: EvidenceDir, target: Target, commit: string,
                       evidencePath: Option<Place>, evidence: Record, gate: Record, stem: string)
    requires Prepared(before, after, evidencePath, evidence, gate) && Get(gate, "ok") != Bool(true)
    ensures IsCandidate(after, target, commit, evidencePath, stem) <==>
              StaysCandidate(before, target, commit, evidencePath, evidence, stem)
    ensures IsCandidate(after, target, commit, evidencePath, stem) ==>
              PreviousOf(after, stem) == PreviousOf(before, stem)
  {
    var mid :| PreparedBy(before, mid, after, evidencePath, evidence, gate);
    assert after.folder == before.folder;
    GateAfter(before, mid, after, evidencePath, evidence, gate, stem);
    if DEPLOY_STEM <= stem && evidencePath != Some(At(before, stem)) {
      DeployUntouched(before, mid, after, evidencePath, evidence, gate, stem);
    }
  }

  predicate NamedLikeGate(evidencePath: Option<Place>) {
    evidencePath.Some? && GATE_STEM <= evidencePath.value.stem
  }

  /** Unless the evidence is filed under the name of a gate, these are the candidates before the run that do
      not share its gate. */
  lemma CandidatesBefore(dir: EvidenceDir, target: Target, commit: string, evidencePath: Option<Place>,
                         evidence: Record, stem: string)
    requires !NamedLikeGate(evidencePath)
    ensures StaysCandidate(dir, target, commit, evidencePath, evidence, stem) <==>
      IsCandidate(dir, target, commit, evidencePath, stem) && !SharesGate(dir.folder, evidencePath, stem)
    ensures evidencePath.Some? && IsNumbered(evidencePath.value.stem) && evidencePath.value.suffix == JSON_SUFFIX ==>
      (StaysCandidate(dir, target, commit, evidencePath, evidence, stem) <==>
       IsCandidate(dir, target, commit, evidencePath, stem))
  {
  }

  /** The rollback's choice was a candidate before the run, and the most recent of those that stay. */
  lemma ChosenBefore(before: EvidenceDir, after: EvidenceDir, target: Target, commit: string,
                     evidencePath: Option<Place>, evidence: Record, gate: Record, p: Previous)
    requires Prepared(before, after, evidencePath, evidence, gate) && Get(gate, "ok") != Bool(true)
    requires IsLatest(after, target, commit, evidencePath, p)
    ensures StaysCandidate(before, target, commit, evidencePath, evidence, p.stem) && p == PreviousOf(before, p.stem)
    ensures forall stem :: StaysCandidate(before, target, commit, evidencePath, evidence, stem) ==>
              TextLeq(Recency(before, stem), Recency(before, p.stem))
  {
    hide Prepared, StaysCandidate, IsCandidate, PreviousOf, Recency, TextLeq;
    LatestIsCandidate(after, target, commit, evidencePath, p);
    CandidatesLeft(before, after, target, commit, evidencePath, evidence, gate, p.stem);
    StaysRanked(before, target, commit, evidencePath, evidence, p.stem);
    forall stem | StaysCandidate(before, target, commit, evidencePath, evidence, stem)
      ensures TextLeq(Recency(before, stem), Recency(before, p.stem))
    {
      CandidatesLeft(before, after, target, commit, evidencePath, evidence, gate, stem);
      StaysRanked(before, target, commit, evidencePath, evidence, stem);
    }
  }

  lemma StaysRanked(dir: EvidenceDir, target: Target, commit: string, evidencePath: Option<Place>, evidence: Record,
                    stem: string)
    requires StaysCandidate(dir, target, commit, evidencePath, evidence, stem)
    ensures PreviousOf(dir, stem).sortKey == Recency(dir, stem)
  {
    RecencyMeans(dir, stem);
  }

  /** A candidate, in the words of the files. */
  lemma CandidateIs(dir: EvidenceDir, target: Target, commit: string, evidencePath: Option<Place>, stem: string)
    ensures IsCandidate(dir, target, commit, evidencePath, stem) <==>
              MayReturnTo(dir, target, commit, evidencePath, stem)
  {
    CandidateMeans(dir, target, commit, evidencePath, stem);
  }

  /** Where the gates are: beside the evidence, under the name that goes with it. */
  lemma GatePlaces(folder: string, evidencePath: Option<Place>)
    ensures evidencePath.None? ==> GatePlace(folder, evidencePath) == Place(folder, "postdeploy-health-gate", ".json")
    ensures evidencePath.Some? ==>
      exists gate ::
        && GateOf(evidencePath.value.stem, gate)
        && GatePlace(folder, evidencePath) == Place(evidencePath.value.folder, gate, ".json")
  {
    if evidencePath.Some? {
      GateOfPaired(evidencePath.value.stem, PairedHealthGate(evidencePath.value.stem));
    }
  }

  lemma LatestIsCandidate(dir: EvidenceDir, target: Target, commit: string, evidencePath: Option<Place>, p: Previous)
    requires IsLatest(dir, target, commit, evidencePath, p)
    ensures IsCandidate(dir, target, commit, evidencePath, p.stem) && p == PreviousOf(dir, p.stem)
    ensures forall stem :: IsCandidate(dir, target, commit, evidencePath, stem) ==>
              TextLeq(PreviousOf(dir, stem).sortKey, p.sortKey)
  {
    LatestIsEligible(dir, target, commit, evidencePath, p);
    PoolMember(dir, p);
    var i: nat :| IsBestAt(Pool(dir), Eligible(dir, target, commit, evidencePath), ByKey(), i) && p == Pool(dir)[i];
    forall stem | IsCandidate(dir, target, commit, evidencePath, stem)
      ensures TextLeq(PreviousOf(dir, stem).sortKey, p.sortKey)
    {
      InPool(dir, stem);
      var j :| 0 <= j < |Pool(dir)| && Pool(dir)[j] == PreviousOf(dir, stem);
      assert ByKey()(Pool(dir)[j], Pool(dir)[i]);
    }
  }

  lemma LatestIsEligible(dir: EvidenceDir, target: Target, commit: string, evidencePath: Option<Place>, p: Previous)
    requires IsLatest(dir, target, commit, evidencePath, p)
    ensures IsEligible(dir, target, commit, evidencePath, p)
  {
    var i: nat :| IsBestAt(Pool(dir), Eligible(dir, target, commit, evidencePath), ByKey(), i) && p == Pool(dir)[i];
  }

  // ---------- two deploys under one gate ----------

  function TargetRecord(t: Target): Json {
    Obj(map["apiUrl" := Str(t.apiUrl), "branch" := Str(t.branch), "shard" := Str(t.shard), "room" := Str(t.room)])
  }

  function DeployRecord(commit: string, t: Target): Record {
    map["ok" := Bool(true), "mode" := Str("deploy"), "git" := Obj(map["commit" := Str(commit)]),
        "target" := TargetRecord(t)]
  }

  /** Two deploys of one target and of different commits, whose names carry no number, and the plain gate. */
  function OneGateDir(folder: string, t: Target): EvidenceDir {
    EvidenceDir(folder, [DEPLOY_STEM, DEPLOY_STEM + "2", GATE_STEM],
                (stem: string) => if DEPLOY_STEM <= stem then Parsed(DeployRecord(stem, t))
                                  else if stem == GATE_STEM then Parsed(map["ok" := Bool(true)]) else Missing,
                (stem: string) => "")
  }

  lemma PlainNames()
    ensures DEPLOY_STEM <= DEPLOY_STEM + "2" && !IsNumbered(DEPLOY_STEM) && !IsNumbered(DEPLOY_STEM + "2")
    ensures !(DEPLOY_STEM <= GATE_STEM) && !IsNumbered(GATE_STEM)
  {
    assert (DEPLOY_STEM + "2")[|DEPLOY_STEM|] == '2' && (DEPLOY_STEM + "-")[|DEPLOY_STEM|] == '-';
    assert DEPLOY_STEM[0] == 'o' && GATE_STEM[0] == 'p';
  }

  lemma TargetOfRecord(commit: string, t: Target)
    requires Complete(t)
    ensures TargetValues(Get(DeployRecord(commit, t), "target")) == Some(t)
  {
  }

  lemma PlainStem(folder: string, t: Target, stem: string)
    requires DEPLOY_STEM <= stem && !IsNumbered(stem)
    ensures IsHealthy(OneGateDir(folder, t), stem)
    ensures var p := PreviousOf(OneGateDir(folder, t), stem);
      p.stem == stem && p.commit == stem && p.target == Get(DeployRecord(stem, t), "target")
  {
    PlainNames();
    hide IsNumbered;
    assert OneGateDir(folder, t).file(stem) == Parsed(DeployRecord(stem, t));
    assert |stem| > |"unknown"|;
  }

  lemma OneGateStems(folder: string, t: Target, stem: string)
    ensures stem in OneGateDir(folder, t).stems <==>
              stem == DEPLOY_STEM || stem == DEPLOY_STEM + "2" || stem == GATE_STEM
  {
  }

  /** One gate file vouches for two deploys. */
  lemma OneGateForTwo(folder: string, t: Target)
    ensures var dir := OneGateDir(folder, t);
      && IsHealthy(dir, DEPLOY_STEM) && IsHealthy(dir, DEPLOY_STEM + "2")
      && PreviousOf(dir, DEPLOY_STEM).commit != PreviousOf(dir, DEPLOY_STEM + "2").commit
      && forall stem :: !(DEPLOY_STEM <= stem) && dir.file(stem) != Missing ==> stem == GATE_STEM
  {
    PlainNames();
    hide IsNumbered, IsHealthy, PreviousOf;
    PlainStem(folder, t, DEPLOY_STEM);
    PlainStem(folder, t, DEPLOY_STEM + "2");
  }

  /** Both can be rolled back to, from any other commit of their target. */
  lemma BothAreCandidates(folder: string, t: Target, commit: string)
    requires Complete(t) && commit != DEPLOY_STEM && commit != DEPLOY_STEM + "2"
    ensures IsCandidate(OneGateDir(folder, t), t, commit, None, DEPLOY_STEM)
    ensures IsCandidate(OneGateDir(folder, t), t, commit, None, DEPLOY_STEM + "2")
  {
    PlainNames();
    hide IsNumbered, IsHealthy, PreviousOf, TargetValues, OneGateDir, DeployRecord;
    PlainStem(folder, t, DEPLOY_STEM);
    PlainStem(folder, t, DEPLOY_STEM + "2");
    TargetOfRecord(DEPLOY_STEM, t);
    TargetOfRecord(DEPLOY_STEM + "2", t);
    OneGateStems(folder, t, DEPLOY_STEM);
    OneGateStems(folder, t, DEPLOY_STEM + "2");
  }

  /** A failing run that was not told where to put its evidence loses both, and leaves nothing to roll back to. */
  lemma OneFailureLosesBoth(folder: string, after: EvidenceDir, t: Target, commit: string, evidence: Record,
                            gate: Record)
    requires Complete(t) && commit != DEPLOY_STEM && commit != DEPLOY_STEM + "2"
    requires Prepared(OneGateDir(folder, t), after, None, evidence, gate) && Get(gate, "ok") != Bool(true)
    ensures IsCandidate(OneGateDir(folder, t), t, commit, None, DEPLOY_STEM)
    ensures IsCandidate(OneGateDir(folder, t), t, commit, None, DEPLOY_STEM + "2")
    ensures forall stem :: !IsCandidate(after, t, commit, None, stem)
  {
    hide IsCandidate, OneGateDir, Prepared;
    BothAreCandidates(folder, t, commit);
    forall stem ensures !IsCandidate(after, t, commit, None, stem) {
      NothingLeft(folder, after, t, commit, evidence, gate, stem);
    }
  }

  lemma NothingLeft(folder: string, after: EvidenceDir, t: Target, commit: string, evidence: Record, gate: Record,
                    stem: string)
    requires Prepared(OneGateDir(folder, t), after, None, evidence, gate) && Get(gate, "ok") != Bool(true)
    ensures !IsCandidate(after, t, commit, None, stem)
  {
    PlainNames();
    hide IsNumbered, IsCandidate, IsEligible, OneGateDir, Prepared;
    OneGateStems(folder, t, stem);
    CandidatesLeft(OneGateDir(folder, t), after, t, commit, None, evidence, gate, stem);
  }

  /** There is such a run: nothing else has to happen for it. */
  lemma SuchARunExists(folder: string, t: Target, evidence: Record, gate: Record) returns (after: EvidenceDir)
    ensures Prepared(OneGateDir(folder, t), after, None, evidence, gate)
  {
    var before := OneGateDir(folder, t);
    after := before.(file := (stem: string) => if stem == GATE_STEM then Parsed(gate) else before.file(stem));
    assert PreparedBy(before, before, after, None, evidence, gate);
  }
}
