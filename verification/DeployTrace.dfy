/** What a deploy sends and which replies it accepts, request by request. */
module DeployTrace {
  import opened Basics
  import opened JsonValues
  import opened Deploy

  // ---------- replies ----------

  predicate Affirmed(fields: Record) {
    "ok" in fields && (fields["ok"] == Bool(true) || fields["ok"] == Num(1.0))
  }

  /** A status of 200 to 299, and if the payload is an object, an affirmative `ok`; without an error field it may
      also be null or missing. */
  predicate AcceptedReply(r: Reply) {
    r.Http? && 200 <= r.status <= 299
    && match r.payload
       case Obj(fields) => Affirmed(fields) || ("error" !in fields && ("ok" in fields ==> fields["ok"] == Null))
       case _ => true
  }

  /** An upload has to be affirmed, or answered with a timestamp. */
  predicate AcceptedUpload(r: Reply) {
    AcceptedReply(r)
    && match r.payload
       case Obj(fields) => Affirmed(fields) || "timestamp" in fields
       case _ => false
  }

  /** The reply shows a main module of this hash. */
  predicate ShowsModule(r: Reply, digest: string, sha: string -> string) {
    AcceptedReply(r)
    && match r.payload
       case Obj(fields) =>
         && "modules" in fields && fields["modules"].Obj?
         && var modules := fields["modules"].fields;
            "main" in modules && modules["main"].Str? && sha(modules["main"].s) == digest
       case _ => false
  }

  /** The first active branch of the list is this one. */
  ghost predicate ShowsActive(r: Reply, branch: string, read: Json -> seq<Branch>) {
    AcceptedReply(r)
    && exists i: nat ::
         && i < |read(r.payload)| && read(r.payload)[i] == Branch(branch, true)
         && forall j :: 0 <= j < i ==> !read(r.payload)[j].activeWorld
  }

  lemma ReplyJudged(j: Judge, r: Reply, branch: string)
    ensures Passes(j, Accepted, r) <==> AcceptedReply(r)
    ensures Passes(j, UploadAccepted, r) <==> AcceptedUpload(r)
    ensures Passes(j, HashMatches, r) <==> ShowsModule(r, j.digest, j.sha)
    ensures Passes(j, ActiveIs(branch), r) <==> ShowsActive(r, branch, j.read)
  {
    if r.Http? {
      FirstActive(j.read(r.payload), branch);
    }
  }

  lemma {:induction false} FirstActive(list: seq<Branch>, branch: string)
    ensures ActiveName(list) == Some(branch) <==>
      exists i: nat :: i < |list| && list[i] == Branch(branch, true) && forall j :: 0 <= j < i ==> !list[j].activeWorld
  {
    if list == [] {
    } else if list[0].activeWorld {
      if list[0].name == branch {
        assert list[0] == Branch(branch, true);
      }
    } else {
      var rest := list[1..];
      FirstActive(rest, branch);
      if i: nat :| i < |rest| && rest[i] == Branch(branch, true) && forall j :: 0 <= j < i ==> !rest[j].activeWorld {
        assert list[i + 1] == rest[i];
        assert forall j :: 0 < j < i + 1 ==> list[j] == rest[j - 1];
      }
      if i: nat :| i < |list| && list[i] == Branch(branch, true) && forall j :: 0 <= j < i ==> !list[j].activeWorld {
        assert i > 0 && rest[i - 1] == list[i];
        assert forall j :: 0 <= j < i - 1 ==> rest[j] == list[j + 1];
      }
    }
  }

  // ---------- requests ----------

  /** Where the second listing comes: after the clone, if there is one. */
  function Refresh(missing: bool): nat {
    if missing then 2 else 1
  }

  function FullLength(cfg: DeployConfig, missing: bool): nat {
    Refresh(missing) + if cfg.activateWorld then 6 else 3
  }

  /** The i-th request of a run: list, clone if the branch is missing, list again, upload, read back; and then,
      if that was asked for, activate, list, and read back what is active. */
  predicate IsRequest(cfg: DeployConfig, code: string, missing: bool, source: string, i: nat, req: Request) {
    var k, branch := Refresh(missing), cfg.target.branch;
    if i == 0 || i == k || i == k + 4 then req == ListBranches
    else if i < k then req == Clone(source, branch)
    else if i == k + 1 then req == Upload(branch, code)
    else if i == k + 2 then req == GetCode(branch)
    else if i == k + 3 then req == SetActive(branch)
    else req == GetCode("$activeWorld")
  }

  /** What its reply has to show. */
  ghost predicate IsAnswered(cfg: DeployConfig, code: string, missing: bool, sha: string -> string,
                             read: Json -> seq<Branch>, i: nat, r: Reply) {
    var k := Refresh(missing);
    if i == k + 1 then AcceptedUpload(r)
    else if i == k + 2 || i == k + 5 then ShowsModule(r, sha(code), sha)
    else if i == k + 4 then ShowsActive(r, cfg.target.branch, read)
    else AcceptedReply(r)
  }

  lemma StepsAre(cfg: DeployConfig, code: string, missing: bool, source: string, j: Judge)
    requires j.digest == j.sha(code)
    ensures var steps := ExpectedSteps(cfg, code, missing, source);
      && |steps| == FullLength(cfg, missing)
      && (forall i :: 0 <= i < |steps| ==> IsRequest(cfg, code, missing, source, i, steps[i].request))
      && (forall i, r :: 0 <= i < |steps| ==>
            (Passes(j, steps[i].check, r) <==> IsAnswered(cfg, code, missing, j.sha, j.read, i, r)))
  {
    var steps := ExpectedSteps(cfg, code, missing, source);
    hide Passes, AcceptedReply, AcceptedUpload, ShowsModule, ShowsActive;
    forall i, r | 0 <= i < |steps|
      ensures Passes(j, steps[i].check, r) <==> IsAnswered(cfg, code, missing, j.sha, j.read, i, r)
    {
      ReplyJudged(j, r, cfg.target.branch);
    }
  }

  /** A live run sends these requests in this order, stops at the first reply that does not show what it has to,
      and is complete exactly if there was none. */
  lemma RunSends(cfg: DeployConfig, code: string, j: Judge, sent: seq<Exchange>, missing: bool, source: string,
                 completed: bool)
    requires LiveRun(cfg, code, j, sent, missing, source, completed) && j.digest == j.sha(code)
    ensures 0 < |sent| <= FullLength(cfg, missing)
    ensures forall i :: 0 <= i < |sent| ==> IsRequest(cfg, code, missing, source, i, sent[i].request)
    ensures forall i :: 0 <= i < |sent| - 1 ==> IsAnswered(cfg, code, missing, j.sha, j.read, i, sent[i].reply)
    ensures var last := IsAnswered(cfg, code, missing, j.sha, j.read, |sent| - 1, sent[|sent| - 1].reply);
      && (completed ==> |sent| == FullLength(cfg, missing) && last)
      && (!completed ==> !last)
  {
    StepsAre(cfg, code, missing, source, j);
    hide Passes, IsRequest, IsAnswered, ExpectedSteps, FullLength;
  }

  // ---------- what is kept, planned and allowed ----------

  /** Evidence keeps every request as it is, but of an upload only the hash of its module. */
  lemma RecordedIs(sha: string -> string, sent: seq<Exchange>, i: nat)
    requires i < |sent|
    ensures |Recorded(sha, sent)| == |sent|
    ensures Recorded(sha, sent)[i] == match sent[i].request
                                      case Upload(branch, body) => Upload(branch, sha(body))
                                      case _ => sent[i].request
  {
  }

  /** The dry-run plan, request by request. */
  lemma PlanIs(cfg: DeployConfig, digest: string)
    ensures var plan, branch := PlannedRequests(cfg, digest), cfg.target.branch;
      && |plan| == (if cfg.activateWorld then 7 else 4)
      && plan[0] == ListBranches && plan[2] == Upload(branch, digest) && plan[3] == GetCode(branch)
      && plan[1] == (if cfg.cloneSource == "" then Clone("<activeWorld-or-default>", branch)
                     else Clone(cfg.cloneSource, branch))
      && (cfg.activateWorld ==>
            plan[4] == SetActive(branch) && plan[5] == ListBranches && plan[6] == GetCode("$activeWorld"))
  {
  }

  /** Requests go out only for a confirmed deploy of a readable module to the persistent world, with a token. */
  lemma AuthorizedExactly(cfg: DeployConfig, token: string, artifact: Artifact)
    ensures Authorized(cfg, token, artifact) <==>
      && cfg.deploy && cfg.persistentRoot && token != "" && artifact.Module?
      && cfg.confirm == "deploy " + cfg.target.branch + " to " + cfg.target.shard + "/" + cfg.target.room
  {
  }

  /** A missing branch is cloned from the one that was named, or else from the active one, or else from "default". */
  lemma SourceIs(cfg: DeployConfig, active: Option<string>)
    ensures cfg.cloneSource != "" ==> CloneSource(cfg, active) == cfg.cloneSource
    ensures cfg.cloneSource == "" && active.Some? && active.value != "" ==> CloneSource(cfg, active) == active.value
    ensures cfg.cloneSource == "" && (active.None? || active.value == "") ==> CloneSource(cfg, active) == "default"
  {
  }
}
