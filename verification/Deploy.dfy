/** One deploy: a fixed sequence of requests against a remote store of code branches. */
module Deploy {
  import opened Basics
  import opened JsonValues

  // ---------- requests and replies ----------

  /** An upload carries the module on the wire and only its hash in evidence. */
  datatype Request =
    | ListBranches
    | Clone(source: string, newName: string)
    | Upload(branch: string, body: string)
    | GetCode(branch: string)
    | SetActive(branch: string)

  /** A request either raises in the transport or brings back a status and a payload. */
  datatype Reply = Raised(message: string) | Http(status: int, payload: Json)

  datatype Exchange = Exchange(request: Request, reply: Reply)

  datatype Branch = Branch(name: string, activeWorld: bool)

  const ACTIVE_WORLD := "$activeWorld"

  predicate OkValue(v: Json) {
    v == Bool(true) || v == Num(1.0)
  }

  predicate ApiSucceeded(r: Reply) {
    && r.Http? && 200 <= r.status < 300
    && (r.payload.Obj? ==>
          var ok := Get(r.payload.fields, "ok");
          && ("error" in r.payload.fields ==> OkValue(ok))
          && (ok == Null || OkValue(ok)))
  }

  predicate UploadSucceeded(r: Reply) {
    && ApiSucceeded(r) && r.payload.Obj?
    && (OkValue(Get(r.payload.fields, "ok")) || "timestamp" in r.payload.fields)
  }

  datatype Verification = MissingModules | MissingMain | Mismatch | Matched

  /** Compares the remote main module by hash. */
  function VerifyRemoteModule(payload: Json, expected: string, sha: string -> string): Verification {
    var modules := Field(payload, "modules");
    if !modules.Obj? then MissingModules
    else if !Field(modules, "main").Str? then MissingMain
    else if sha(Field(modules, "main").s) == expected then Matched else Mismatch
  }

  function ActiveName(list: seq<Branch>): Option<string> {
    if list == [] then None else if list[0].activeWorld then Some(list[0].name) else ActiveName(list[1..])
  }

  predicate Lists(list: seq<Branch>, name: string) {
    exists b :: b in list && b.name == name
  }

  // ---------- the remote store ----------

  /** The store answers reads truthfully. A write may take effect or not, whatever the reply says, and an
      upload or clone may leave anything in its target branch; nobody else writes. */
  class Server {
    /** The main module of every branch. */
    var branches: map<string, Option<string>>
    var active: Option<string>
    /** How branch lists are read out of payloads. */
    const read: Json -> seq<Branch>
    ghost var log: seq<Exchange>

    constructor (branches: map<string, Option<string>>, active: Option<string>, read: Json -> seq<Branch>)
      ensures this.branches == branches && this.active == active && this.read == read && log == []
    {
      this.branches, this.active, this.read, log := branches, active, read, [];
    }

    predicate TruthfulList(payload: Json)
      reads this
    {
      && (forall name :: name in branches ==> Lists(read(payload), name))
      && (forall b :: b in read(payload) ==> b.name in branches)
      && (active.Some? ==> ActiveName(read(payload)) == active)
      && (active.None? ==> ActiveName(read(payload)).None?)
    }

    predicate TruthfulCode(payload: Json, branch: string)
      reads this
    {
      var name := if branch == ACTIVE_WORLD then active else Some(branch);
      var modules := Field(payload, "modules");
      if name.Some? && name.value in branches && branches[name.value].Some?
      then modules.Obj? && Field(modules, "main") == Str(branches[name.value].value)
      else !modules.Obj? || !Field(modules, "main").Str?
    }

    predicate Truthful(e: Exchange)
      reads this
    {
      && (e.request.ListBranches? && ApiSucceeded(e.reply) ==> TruthfulList(e.reply.payload))
      && (e.request.GetCode? && ApiSucceeded(e.reply) ==> TruthfulCode(e.reply.payload, e.request.branch))
    }

    /** What one request may do to the store. */
    twostate predicate Effect(req: Request)
      reads this
    {
      && (req.ListBranches? || req.GetCode? || req.SetActive? ==> branches == old(branches))
      && (req.SetActive? ==> active == old(active) || active == Some(req.branch))
      && (!req.SetActive? ==> active == old(active))
      && (forall b :: (req.Clone? ==> b != req.newName) && (req.Upload? ==> b != req.branch) ==>
            (b in branches <==> b in old(branches)) && (b in branches ==> branches[b] == old(branches)[b]))
    }

    method Send(req: Request) returns (reply: Reply)
      modifies this
      ensures log == old(log) + [Exchange(req, reply)]
      ensures Truthful(Exchange(req, reply))
      ensures Effect(req)
    {
      reply := *;
      var content: Option<string> := *;
      var takesEffect: bool := *;
      match req {
        case Clone(_, newName) => if takesEffect { branches := branches[newName := content]; }
        case Upload(branch, _) => if takesEffect { branches := branches[branch := content]; }
        case SetActive(branch) => if takesEffect { active := Some(branch); }
        case _ =>
      }
      if !Truthful(Exchange(req, reply)) {
        reply := Raised("request failed");
      }
      log := log + [Exchange(req, reply)];
    }
  }

  // ---------- the client ----------

  function Redact(sha: string -> string, req: Request): Request {
    if req.Upload? then Upload(req.branch, sha(req.body)) else req
  }

  /** The authenticated client of one deploy; it remembers the requests that were answered. */
  class ScreepsApi {
    const server: Server
    const sha: string -> string
    var requests: seq<Request>

    constructor (server: Server, sha: string -> string)
      ensures this.server == server && this.sha == sha && requests == []
    {
      this.server, this.sha, requests := server, sha, [];
    }

    method Request(req: Request) returns (reply: Reply)
      modifies `requests, server
      ensures server.log == old(server.log) + [Exchange(req, reply)]
      ensures server.Truthful(Exchange(req, reply)) && server.Effect(req)
      ensures requests == old(requests) + if reply.Http? then [Redact(sha, req)] else []
    {
      reply := server.Send(req);
      if reply.Http? {
        requests := requests + [Redact(sha, req)];
      }
    }
  }

  datatype Target = Target(apiUrl: string, branch: string, shard: string, room: string)

  /** A file: its folder with all links resolved, its name up to the last dot, and the rest of it. */
  datatype Place = Place(folder: string, stem: string, suffix: string)

  /** An empty clone source or confirmation stands for one that was not given. */
  datatype DeployConfig = DeployConfig(
    target: Target, persistentRoot: bool, deploy: bool, activateWorld: bool, confirm: string, cloneSource: string,
    autoRollback: bool, evidencePath: Option<Place>, evidenceDir: string, recoveryTimeout: int, recoveryPoll: int)

  function ExpectedConfirmation(t: Target): string {
    "deploy " + t.branch + " to " + t.shard + "/" + t.room
  }

  datatype Artifact = Absent | NotAFile | Empty | Undecodable(digest: string) | Module(code: string)

  predicate Readable(a: Artifact) {
    a.Undecodable? || a.Module?
  }

  function Digest(a: Artifact, sha: string -> string): string
    requires Readable(a)
  {
    if a.Undecodable? then a.digest else sha(a.code)
  }

  // ---------- what a deploy is supposed to send ----------

  datatype Check = Accepted | UploadAccepted | HashMatches | ActiveIs(branch: string)

  /** A request together with what its reply has to show. */
  datatype Step = Step(request: Request, check: Check)

  /** How replies are judged. */
  datatype Judge = Judge(read: Json -> seq<Branch>, sha: string -> string, digest: string)

  predicate Passes(j: Judge, check: Check, r: Reply) {
    match check
    case Accepted => ApiSucceeded(r)
    case UploadAccepted => UploadSucceeded(r)
    case HashMatches => ApiSucceeded(r) && VerifyRemoteModule(r.payload, j.digest, j.sha) == Matched
    case ActiveIs(branch) => ApiSucceeded(r) && ActiveName(j.read(r.payload)) == Some(branch)
  }

  const REFRESH: Step := Step(ListBranches, Accepted)

  function BranchSteps(branch: string, missing: bool, source: string): seq<Step> {
    [Step(ListBranches, Accepted)] + (if missing then [Step(Clone(source, branch), Accepted)] else []) + [REFRESH]
  }

  function UploadSteps(branch: string, code: string): seq<Step> {
    [Step(Upload(branch, code), UploadAccepted), Step(GetCode(branch), HashMatches)]
  }

  function ActivationSteps(branch: string): seq<Step> {
    [Step(SetActive(branch), Accepted), Step(ListBranches, ActiveIs(branch)), Step(GetCode(ACTIVE_WORLD), HashMatches)]
  }

  function ExpectedSteps(cfg: DeployConfig, code: string, missing: bool, source: string): seq<Step> {
    var b := cfg.target.branch;
    BranchSteps(b, missing, source) + UploadSteps(b, code) + if cfg.activateWorld then ActivationSteps(b) else []
  }

  /** The exchanges are the first steps in order; all but the last passed, and the last one passed
      exactly if `ok`, in which case no step is left. */
  ghost predicate Follows(j: Judge, sent: seq<Exchange>, steps: seq<Step>, ok: bool) {
    && |sent| <= |steps|
    && (forall i :: 0 <= i < |sent| ==> sent[i].request == steps[i].request)
    && (forall i :: 0 <= i < |sent| && (ok || i < |sent| - 1) ==> Passes(j, steps[i].check, sent[i].reply))
    && (ok ==> |sent| == |steps|)
    && (!ok ==> sent != [] && !Passes(j, steps[|sent| - 1].check, sent[|sent| - 1].reply))
  }

  lemma FollowsThen(j: Judge, a: seq<Exchange>, p: seq<Step>, b: seq<Exchange>, q: seq<Step>, ok: bool)
    requires Follows(j, a, p, true) && Follows(j, b, q, ok)
    ensures Follows(j, a + b, p + q, ok)
  {
  }

  /** The dry-run plan. */
  function PlannedRequests(cfg: DeployConfig, digest: string): seq<Request> {
    var b := cfg.target.branch;
    [ListBranches, Clone(if cfg.cloneSource != "" then cfg.cloneSource else "<activeWorld-or-default>", b),
     Upload(b, digest), GetCode(b)]
    + if cfg.activateWorld then [SetActive(b), ListBranches, GetCode(ACTIVE_WORLD)] else []
  }

  predicate IsWrite(req: Request) {
    req.Clone? || req.Upload? || req.SetActive?
  }

  function StepRequests(sha: string -> string, steps: seq<Step>): seq<Request> {
    Map(steps, (s: Step) => Redact(sha, s.request))
  }

  /** The plan is what a live run sends: only the clone drops out when the branch exists (and names its
      real source when it does not), and one refresh of the branch list comes before the upload. */
  lemma PlanIsFaithful(cfg: DeployConfig, code: string, sha: string -> string, missing: bool, source: string)
    ensures var plan := PlannedRequests(cfg, sha(code));
            var live := StepRequests(sha, ExpectedSteps(cfg, code, missing, source));
            && (missing ==> live == [plan[0], Clone(source, cfg.target.branch), ListBranches] + plan[2..])
            && (!missing ==> live == [plan[0], ListBranches] + plan[2..])
            && (missing && cfg.cloneSource != "" && source == cfg.cloneSource ==>
                  Filter(live, IsWrite) == Filter(plan, IsWrite))
            && (!missing ==> Filter(live, IsWrite) == Filter(plan[2..], IsWrite))
  {
    var plan := PlannedRequests(cfg, sha(code));
    var live := StepRequests(sha, ExpectedSteps(cfg, code, missing, source));
    if missing {
      var front := [plan[0], Clone(source, cfg.target.branch), ListBranches];
      assert live == front + plan[2..];
      FilterConcat(front, plan[2..], IsWrite);
      assert plan == plan[..2] + plan[2..];
      FilterConcat(plan[..2], plan[2..], IsWrite);
      assert plan[..2][..1] == [plan[0]] && front[..2] == [plan[0], Clone(source, cfg.target.branch)]
             && front[..2][..1] == [plan[0]];
    } else {
      var front := [plan[0], ListBranches];
      assert live == front + plan[2..];
      FilterConcat(front, plan[2..], IsWrite);
      assert front[..1] == [plan[0]] && [plan[0]][..0] == [];
      assert Filter([plan[0]], IsWrite) == [];
      assert Filter(front, IsWrite) == [];
    }
  }

  // ---------- running a deploy ----------

  /** What a deploy never touches: every branch but the target. */
  twostate predicate OthersUntouched(server: Server, branch: string)
    reads server
  {
    forall b :: b != branch ==>
      (b in server.branches <==> b in old(server.branches))
      && (b in server.branches ==> server.branches[b] == old(server.branches)[b])
  }

  /** The target branch holds a main module with the artifact's hash. */
  ghost predicate Uploaded(server: Server, branch: string, digest: string, sha: string -> string)
    reads server
  {
    branch in server.branches && server.branches[branch].Some? && sha(server.branches[branch].value) == digest
  }

  /** The evidence form of what was sent. */
  function Recorded(sha: string -> string, sent: seq<Exchange>): seq<Request> {
    Map(sent, (e: Exchange) => Redact(sha, e.request))
  }

  /** How far a run has come: what it sent beyond `base`, against the steps done so far. */
  ghost predicate Progress(api: ScreepsApi, j: Judge, base: seq<Exchange>, sent: seq<Exchange>, steps: seq<Step>,
                           ok: bool)
    reads api, api.server
  {
    && api.server.log == base + sent && Follows(j, sent, steps, ok)
    && (ok ==> api.requests == Recorded(api.sha, sent))
  }

  /** Sends one request and insists on what its reply has to show. */
  method Perform(api: ScreepsApi, j: Judge, step: Step, failure: string,
                 ghost base: seq<Exchange>, ghost sent: seq<Exchange>, ghost steps: seq<Step>)
    returns (r: Result<Json, string>, ghost all: seq<Exchange>)
    requires Progress(api, j, base, sent, steps, true)
    modifies api`requests, api.server
    ensures Progress(api, j, base, all, steps + [step], r.Ok?)
    ensures |all| == |sent| + 1 && all[..|sent|] == sent && all[|sent|].request == step.request
    ensures r.Ok? ==>
              ApiSucceeded(all[|sent|].reply) && r.value == all[|sent|].reply.payload
              && Passes(j, step.check, all[|sent|].reply)
    ensures api.server.Truthful(all[|sent|]) && api.server.Effect(step.request)
    ensures r.Err? ==> r.error == failure || all[|sent|].reply == Raised(r.error)
  {
    var reply := api.Request(step.request);
    var e := Exchange(step.request, reply);
    all := sent + [e];
    if Passes(j, step.check, reply) {
      r := Ok(reply.payload);
    } else {
      r := Err(if reply.Raised? then reply.message else failure);
    }
    assert Follows(j, [e], [step], r.Ok?);
    FollowsThen(j, sent, steps, [e], [step], r.Ok?);
  }

  function CloneSource(cfg: DeployConfig, active: Option<string>): string {
    if cfg.cloneSource != "" then cfg.cloneSource
    else if active.Some? && active.value != "" then active.value else "default"
  }

  /** A failed run has followed the whole sequence as far as it went. */
  lemma FailedPart(api: ScreepsApi, j: Judge, base: seq<Exchange>, sent: seq<Exchange>, steps: seq<Step>,
                   all: seq<Step>)
    requires Progress(api, j, base, sent, steps, false) && steps <= all
    ensures Progress(api, j, base, sent, all, false)
  {
  }

  lemma NothingSent(api: ScreepsApi, j: Judge, base: seq<Exchange>)
    requires api.requests == [] && api.server.log == base
    ensures Progress(api, j, base, [], [], true)
  {
  }

  /** Lists the branches, clones the target if it is missing, and refreshes the list. */
  method EnsureBranch(cfg: DeployConfig, api: ScreepsApi, j: Judge, ghost base: seq<Exchange>)
    returns (r: Result<bool, string>, source: string, ghost sent: seq<Exchange>, ghost missing: bool)
    requires j.read == api.server.read && api.requests == [] && api.server.log == base
    modifies api`requests, api.server
    ensures Progress(api, j, base, sent, BranchSteps(cfg.target.branch, missing, source), r.Ok?)
    ensures sent != [] && (r.Ok? ==> |sent| > 1)
    ensures |sent| > 1 ==> (missing <==> cfg.target.branch !in old(api.server.branches))
    ensures |sent| > 1 ==> source == CloneSource(cfg, old(api.server.active))
    ensures r.Ok? ==> r.value == missing
    ensures OthersUntouched(api.server, cfg.target.branch) && api.server.active == old(api.server.active)
  {
    hide Progress, Passes;
    NothingSent(api, j, base);
    var branch := cfg.target.branch;
    missing, source := false, "";
    var first;
    first, sent := Perform(api, j, REFRESH, "list branches failed", base, [], []);
    if first.Err? {
      FailedPart(api, j, base, sent, [] + [REFRESH], BranchSteps(branch, missing, source));
      return Err(first.error), source, sent, missing;
    }
    var list := api.server.read(first.value);
    var create := !Lists(list, branch);
    missing, source := create, CloneSource(cfg, ActiveName(list));
    ghost var steps := [] + [REFRESH];
    if create {
      var step := Step(Clone(source, branch), Accepted);
      var cloned;
      cloned, sent := Perform(api, j, step, "clone branch failed", base, sent, steps);
      steps := steps + [step];
      if cloned.Err? {
        FailedPart(api, j, base, sent, steps, BranchSteps(branch, missing, source));
        return Err(cloned.error), source, sent, missing;
      }
    }
    assert steps + [REFRESH] == BranchSteps(branch, missing, source);
    var second;
    second, sent := Perform(api, j, REFRESH, "refresh branches failed", base, sent, steps);
    r := if second.Ok? then Ok(create) else Err(second.error);
  }

  /** Uploads the module and reads it back. */
  method UploadAndVerify(cfg: DeployConfig, api: ScreepsApi, j: Judge, code: string,
                         ghost base: seq<Exchange>, ghost before: seq<Exchange>, ghost steps: seq<Step>)
    returns (r: Result<Json, string>, ghost sent: seq<Exchange>)
    requires Progress(api, j, base, before, steps, true) && cfg.target.branch != ACTIVE_WORLD
    modifies api`requests, api.server
    ensures Progress(api, j, base, sent, steps + UploadSteps(cfg.target.branch, code), r.Ok?)
    ensures before <= sent
    ensures r.Ok? ==> Uploaded(api.server, cfg.target.branch, j.digest, j.sha)
    ensures OthersUntouched(api.server, cfg.target.branch) && api.server.active == old(api.server.active)
  {
    hide Progress;
    var branch := cfg.target.branch;
    var first, second := Step(Upload(branch, code), UploadAccepted), Step(GetCode(branch), HashMatches);
    assert steps + [first] + [second] == steps + UploadSteps(branch, code);
    r, sent := Perform(api, j, first, "upload code failed", base, before, steps);
    if r.Err? {
      FailedPart(api, j, base, sent, steps + [first], steps + UploadSteps(branch, code));
      return;
    }
    r, sent := Perform(api, j, second, "uploaded branch hash verification failed", base, sent, steps + [first]);
  }

  /** Points the active world at the branch and verifies both the pointer and the code behind it. */
  method Activate(cfg: DeployConfig, api: ScreepsApi, j: Judge,
                  ghost base: seq<Exchange>, ghost before: seq<Exchange>, ghost steps: seq<Step>)
    returns (r: Result<Json, string>, ghost sent: seq<Exchange>)
    requires Progress(api, j, base, before, steps, true) && j.read == api.server.read
    modifies api`requests, api.server
    ensures Progress(api, j, base, sent, steps + ActivationSteps(cfg.target.branch), r.Ok?)
    ensures before <= sent
    ensures r.Ok? ==> api.server.active == Some(cfg.target.branch)
    ensures api.server.branches == old(api.server.branches)
    ensures api.server.active == old(api.server.active) || api.server.active == Some(cfg.target.branch)
  {
    hide Progress, VerifyRemoteModule;
    var branch := cfg.target.branch;
    var first, second := Step(SetActive(branch), Accepted), Step(ListBranches, ActiveIs(branch));
    var third := Step(GetCode(ACTIVE_WORLD), HashMatches);
    assert steps + [first] + [second] + [third] == steps + ActivationSteps(branch);
    r, sent := Perform(api, j, first, "set activeWorld branch failed", base, before, steps);
    if r.Err? {
      FailedPart(api, j, base, sent, steps + [first], steps + ActivationSteps(branch));
      return;
    }
    r, sent := Perform(api, j, second, "activeWorld branch mismatch", base, sent, steps + [first]);
    if r.Err? {
      FailedPart(api, j, base, sent, steps + [first] + [second], steps + ActivationSteps(branch));
      return;
    }
    r, sent := Perform(api, j, third, "activeWorld hash verification failed", base, sent, steps + [first] + [second]);
  }

  datatype Evidence = Evidence(live: bool, target: Target, commit: string, digest: string, requests: seq<Request>,
                               existedBefore: bool, clonedFrom: Option<string>, activeVerified: bool)

  const LEAK := "evidence contains a secret value or uploaded code contents"

  /** Everything that has to hold before the first request goes out. */
  predicate Authorized(cfg: DeployConfig, token: string, artifact: Artifact) {
    && cfg.deploy && cfg.persistentRoot && token != ""
    && cfg.confirm == ExpectedConfirmation(cfg.target) && artifact.Module?
  }

  /** Activation comes only after the branch was read back with the right hash. */
  lemma ActivationNeedsMatch(cfg: DeployConfig, j: Judge, sent: seq<Exchange>, code: string, missing: bool,
                             source: string, ok: bool, i: nat)
    requires Follows(j, sent, ExpectedSteps(cfg, code, missing, source), ok)
    requires i < |sent| && sent[i].request.SetActive?
    ensures cfg.activateWorld && 0 < i && sent[i - 1].request == GetCode(cfg.target.branch)
    ensures Passes(j, HashMatches, sent[i - 1].reply)
  {
  }

  method RunLive(cfg: DeployConfig, code: string, commit: string, server: Server, j: Judge, leaks: bool)
    returns (r: Result<Evidence, string>, ghost sent: seq<Exchange>, ghost missing: bool, ghost source: string,
             ghost completed: bool)
    requires cfg.target.branch != ACTIVE_WORLD && j.read == server.read
    modifies server
    ensures server.log == old(server.log) + sent && sent != []
    ensures Follows(j, sent, ExpectedSteps(cfg, code, missing, source), completed)
    ensures r.Ok? <==> completed && !leaks
    ensures completed && r.Err? ==> r.error == LEAK
    ensures |sent| > 1 ==> (missing <==> cfg.target.branch !in old(server.branches))
    ensures |sent| > 1 ==> source == CloneSource(cfg, old(server.active))
    ensures OthersUntouched(server, cfg.target.branch)
    ensures server.active == old(server.active) || server.active == Some(cfg.target.branch)
    ensures completed || server.active != old(server.active)
            || (exists i :: 0 <= i < |sent| && sent[i].request.SetActive?) ==>
              Uploaded(server, cfg.target.branch, j.digest, j.sha)
    ensures completed && cfg.activateWorld ==> server.active == Some(cfg.target.branch)
    ensures r.Ok? ==>
              r.value.requests == Recorded(j.sha, sent) && r.value.live && r.value.target == cfg.target
              && r.value.digest == j.digest
    ensures r.Ok? ==> r.value.commit == commit
    ensures r.Ok? ==>
              r.value.existedBefore == !missing && r.value.clonedFrom == (if missing then Some(source) else None)
    ensures r.Ok? ==> r.value.activeVerified == cfg.activateWorld
  {
    hide Follows, Recorded, Passes;
    var api := new ScreepsApi(server, j.sha);
    ghost var base := server.log;
    ghost var branchSteps, steps;
    var created, from;
    created, from, sent, missing := EnsureBranch(cfg, api, j, base);
    source := from;
    completed := false;
    branchSteps := BranchSteps(cfg.target.branch, missing, source);
    steps := ExpectedSteps(cfg, code, missing, source);
    if created.Err? {
      FailedPart(api, j, base, sent, branchSteps, steps);
      NoSwitchYet(j, sent, branchSteps);
      return Err(created.error), sent, missing, source, false;
    }
    var uploaded;
    uploaded, sent := UploadAndVerify(cfg, api, j, code, base, sent, branchSteps);
    if uploaded.Err? {
      FailedPart(api, j, base, sent, branchSteps + UploadSteps(cfg.target.branch, code), steps);
      NoSwitchYet(j, sent, branchSteps + UploadSteps(cfg.target.branch, code));
      return Err(uploaded.error), sent, missing, source, false;
    }
    if cfg.activateWorld {
      var activated;
      activated, sent := Activate(cfg, api, j, base, sent, branchSteps + UploadSteps(cfg.target.branch, code));
      if activated.Err? {
        return Err(activated.error), sent, missing, source, false;
      }
    } else {
      assert steps == branchSteps + UploadSteps(cfg.target.branch, code);
    }
    completed := true;
    if leaks {
      return Err(LEAK), sent, missing, source, true;
    }
    r := Ok(Evidence(true, cfg.target, commit, j.digest, api.requests, !created.value,
                     if created.value then Some(from) else None, cfg.activateWorld));
  }

  lemma NoSwitchYet(j: Judge, sent: seq<Exchange>, steps: seq<Step>)
    requires Follows(j, sent, steps, false)
    requires forall i :: 0 <= i < |steps| ==> !steps[i].request.SetActive?
    ensures forall i :: 0 <= i < |sent| ==> !sent[i].request.SetActive?
  {
  }

  /** What a run amounted to: whether it was allowed to send anything, what it sent, which branch it
      cloned from, and whether every step of the sequence went through. */
  ghost predicate LiveRun(cfg: DeployConfig, code: string, j: Judge, sent: seq<Exchange>, missing: bool,
                          source: string, completed: bool) {
    sent != [] && Follows(j, sent, ExpectedSteps(cfg, code, missing, source), completed)
  }

  method RunDeploy(cfg: DeployConfig, token: string, artifact: Artifact, commit: string,
                   server: Server, sha: string -> string, leaks: bool)
    returns (r: Result<Evidence, string>, ghost sent: seq<Exchange>, ghost missing: bool, ghost source: string,
             ghost completed: bool)
    requires cfg.target.branch != ACTIVE_WORLD
    modifies server
    ensures server.log == old(server.log) + sent
    // without authorization nothing is sent, and a dry run reports the plan
    ensures !Authorized(cfg, token, artifact) ==>
      && sent == [] && server.branches == old(server.branches) && server.active == old(server.active)
      && (r.Ok? <==> !cfg.deploy && Readable(artifact))
      && (r.Ok? ==> !r.value.live && r.value.requests == PlannedRequests(cfg, Digest(artifact, sha)))
    // a live run follows the sequence, and succeeds exactly if it completed it and its evidence is clean
    ensures Authorized(cfg, token, artifact) ==>
      && LiveRun(cfg, artifact.code, Judge(server.read, sha, sha(artifact.code)), sent, missing, source, completed)
      && (r.Ok? <==> completed && !leaks)
      && (|sent| > 1 ==>
          (missing <==> cfg.target.branch !in old(server.branches)) && source == CloneSource(cfg, old(server.active)))
      && (r.Ok? ==> r.value.live && r.value.requests == Recorded(sha, sent) && r.value.existedBefore == !missing)
      && (r.Ok? ==> r.value.digest == sha(artifact.code) && r.value.activeVerified == cfg.activateWorld)
      && (r.Ok? ==> r.value.clonedFrom == if missing then Some(source) else None)
    // whatever happens, only the target branch and the active pointer can change
    ensures OthersUntouched(server, cfg.target.branch)
    ensures server.active == old(server.active) || server.active == Some(cfg.target.branch)
    // nothing is activated, or asked to be, unless the branch holds the artifact
    ensures server.active != old(server.active) || (exists i :: 0 <= i < |sent| && sent[i].request.SetActive?) ==>
              artifact.Module? && Uploaded(server, cfg.target.branch, sha(artifact.code), sha)
    // a successful live run leaves the artifact on the branch, and active if that was requested
    ensures r.Ok? && cfg.deploy ==>
      && artifact.Module? && Uploaded(server, cfg.target.branch, sha(artifact.code), sha)
      && (cfg.activateWorld ==> server.active == Some(cfg.target.branch))
    ensures r.Ok? ==> r.value.target == cfg.target && r.value.commit == commit
  {
    sent, missing, source, completed := [], false, "", false;
    if cfg.deploy && !cfg.persistentRoot {
      return Err("Seasonal live deploy is not enabled"), sent, missing, source, completed;
    }
    if !Readable(artifact) {
      return Err("artifact cannot be read"), sent, missing, source, completed;
    }
    if !cfg.deploy {
      return Ok(Evidence(false, cfg.target, commit, Digest(artifact, sha), PlannedRequests(cfg, Digest(artifact, sha)),
                         false, None, false)),
             sent, missing, source, completed;
    }
    if token == "" {
      return Err("SCREEPS_AUTH_TOKEN is required for --deploy"), sent, missing, source, completed;
    }
    if cfg.confirm != ExpectedConfirmation(cfg.target) {
      return Err("--confirm must match"), sent, missing, source, completed;
    }
    if artifact.Undecodable? {
      return Err("artifact must be UTF-8 JavaScript"), sent, missing, source, completed;
    }
    r, sent, missing, source, completed :=
      RunLive(cfg, artifact.code, commit, server, Judge(server.read, sha, sha(artifact.code)), leaks);
  }

  lemma CompletedTrace(cfg: DeployConfig, code: string, j: Judge, sent: seq<Exchange>, missing: bool, source: string)
    requires LiveRun(cfg, code, j, sent, missing, source, true)
    ensures Recorded(j.sha, sent) == StepRequests(j.sha, ExpectedSteps(cfg, code, missing, source))
  {
  }

  /** What a completed live run recorded is the dry-run plan: the branch list, the clone if the branch was
      missing, one refresh, and then the rest of the plan request by request. */
  lemma LiveRunFollowsPlan(cfg: DeployConfig, code: string, j: Judge, sent: seq<Exchange>, missing: bool,
                           source: string)
    requires LiveRun(cfg, code, j, sent, missing, source, true)
    ensures var plan, live := PlannedRequests(cfg, j.sha(code)), Recorded(j.sha, sent);
      && live == (if missing then [plan[0], Clone(source, cfg.target.branch), ListBranches]
                  else [plan[0], ListBranches]) + plan[2..]
      && (missing && cfg.cloneSource != "" && source == cfg.cloneSource ==>
          Filter(live, IsWrite) == Filter(plan, IsWrite))
      && (!missing ==> Filter(live, IsWrite) == Filter(plan[2..], IsWrite))
  {
    CompletedTrace(cfg, code, j, sent, missing, source);
    PlanIsFaithful(cfg, code, j.sha, missing, source);
  }
}
