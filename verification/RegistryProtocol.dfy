/** Interleavings of producers over the registry file: every run is serial, in lock order. */
module RegistryProtocol {
  import opened Basics
  import opened JsonValues
  import opened Registry
  import opened RegistryMerges
  import opened RegistryStore

  type Pid = int

  /** What a call does to the file it loads. */
  type Committer = (File, Op) -> Result<Json, Refusal>

  datatype Phase =
    | Idle
    | Waiting(op: Op)
    | Holding(op: Op, ticket: nat)
    | Loaded(op: Op, ticket: nat, existing: File)
    | Computed(op: Op, ticket: nat, doc: Json)
    | Staged(op: Op, ticket: nat, doc: Json)
    | Replaced(op: Op, ticket: nat, index: nat, doc: Json, raising: bool)
    | Unwinding(op: Op, ticket: nat)

  datatype LogEntry = LogEntry(pid: Pid, ticket: nat, op: Op)

  datatype Snapshot = Snapshot(content: File, at: nat)

  /** How a call ended: it replaced the file and then returned or raised, or it raised before. */
  datatype Outcome = Finished(op: Op, index: nat, doc: Json, raised: bool) | Raised(op: Op, ticket: nat)

  /** The file system and the processes. The log of replaces, the tickets and the histories of reads
      and outcomes only record what happened. */
  datatype World = World(file: File, holder: Option<Pid>, phases: map<Pid, Phase>, temps: map<Pid, Json>,
                         log: seq<LogEntry>, tickets: nat, seen: seq<Snapshot>, outcomes: seq<Outcome>)

  datatype Action =
    | Start(pid: Pid, op: Op)
    | Acquire(pid: Pid)
    | Load(pid: Pid)
    | Compute(pid: Pid)
    | Stage(pid: Pid)
    | Replace(pid: Pid)
    | Release(pid: Pid)
    | Fail(pid: Pid)
    | Crash(pid: Pid)
    | Read

  function PhaseOf(w: World, p: Pid): Phase {
    if p in w.phases then w.phases[p] else Idle
  }

  predicate Critical(ph: Phase) {
    !ph.Idle? && !ph.Waiting?
  }

  function Enter(w: World, p: Pid, ph: Phase): World {
    w.(phases := w.phases[p := ph])
  }

  function Begin(file: File): World {
    World(file, None, map[], map[], [], 0, [], [])
  }

  /** One step of one process; an action that is not enabled does nothing. A crash drops the lock but
      may leave a temporary file behind. */
  function Step(commit: Committer, w: World, a: Action): World {
    match a
    case Read => w.(seen := w.seen + [Snapshot(w.file, |w.log|)])
    case Start(p, op) => if PhaseOf(w, p).Idle? then Enter(w, p, Waiting(op)) else w
    case Acquire(p) =>
      if PhaseOf(w, p).Waiting? && w.holder.None?
      then Enter(w, p, Holding(PhaseOf(w, p).op, w.tickets)).(holder := Some(p), tickets := w.tickets + 1) else w
    case Load(p) =>
      (match PhaseOf(w, p)
       case Holding(op, t) => Enter(w, p, Loaded(op, t, w.file))
       case _ => w)
    case Compute(p) =>
      (match PhaseOf(w, p)
       case Loaded(op, t, existing) =>
         (match commit(existing, op)
          case Ok(doc) => Enter(w, p, Computed(op, t, doc))
          case Err(_) => Enter(w, p, Unwinding(op, t)))
       case _ => w)
    case Stage(p) =>
      (match PhaseOf(w, p)
       case Computed(op, t, doc) => Enter(w, p, Staged(op, t, doc)).(temps := w.temps[p := doc])
       case _ => w)
    case Replace(p) =>
      (match PhaseOf(w, p)
       case Staged(op, t, doc) =>
         if p in w.temps
         then Enter(w, p, Replaced(op, t, |w.log|, doc, false)).(file := Doc(w.temps[p]), temps := w.temps - {p},
                                                         log := w.log + [LogEntry(p, t, op)])
         else w
       case _ => w)
    case Release(p) =>
      (match PhaseOf(w, p)
       case Replaced(op, t, i, doc, raising) =>
         Enter(w, p, Idle).(holder := None, outcomes := w.outcomes + [Finished(op, i, doc, raising)])
       case Unwinding(op, t) => Enter(w, p, Idle).(holder := None, outcomes := w.outcomes + [Raised(op, t)])
       case _ => w)
    case Fail(p) =>
      var ph := PhaseOf(w, p);
      if ph.Holding? || ph.Loaded? || ph.Computed? || ph.Staged?
      then Enter(w, p, Unwinding(ph.op, ph.ticket)).(temps := w.temps - {p})
      else if ph.Replaced? then Enter(w, p, ph.(raising := true)) else w
    case Crash(p) =>
      Enter(w, p, Idle).(holder := if Critical(PhaseOf(w, p)) then None else w.holder)
  }

  function Run(commit: Committer, w: World, actions: seq<Action>): World {
    if actions == [] then w
    else Step(commit, Run(commit, w, actions[..|actions| - 1]), actions[|actions| - 1])
  }

  /** The serial meaning of a log: each logged call applied to what the earlier ones left. */
  function Replay(commit: Committer, init: File, log: seq<LogEntry>): File {
    if log == [] then init else
    var before := Replay(commit, init, log[..|log| - 1]);
    match commit(before, log[|log| - 1].op)
    case Ok(doc) => Doc(doc)
    case Err(_) => before
  }

  // ---------- the invariant ----------

  ghost predicate LockInv(w: World) {
    forall p :: Critical(PhaseOf(w, p)) <==> w.holder == Some(p)
  }

  /** Every logged call succeeded where the log puts it. */
  ghost predicate LogInv(commit: Committer, init: File, log: seq<LogEntry>) {
    forall i :: 0 <= i < |log| ==> commit(Replay(commit, init, log[..i]), log[i].op).Ok?
  }

  /** Log order is the order in which the lock was taken. */
  ghost predicate TicketInv(log: seq<LogEntry>, tickets: nat) {
    && (forall i, j :: 0 <= i < j < |log| ==> log[i].ticket < log[j].ticket)
    && (forall i :: 0 <= i < |log| ==> log[i].ticket < tickets)
  }

  /** What a process in the critical section knows. */
  ghost predicate HolderInv(commit: Committer, w: World, p: Pid, ph: Phase) {
    && (Critical(ph) ==> ph.ticket < w.tickets)
    && (Critical(ph) && !ph.Replaced? ==> forall i :: 0 <= i < |w.log| ==> w.log[i].ticket < ph.ticket)
    && (ph.Loaded? ==> ph.existing == w.file)
    && (ph.Computed? || ph.Staged? ==> commit(w.file, ph.op) == Ok(ph.doc))
    && (ph.Staged? ==> p in w.temps && w.temps[p] == ph.doc)
    && (ph.Replaced? ==>
        |w.log| == ph.index + 1 && w.log[ph.index] == LogEntry(p, ph.ticket, ph.op) && w.file == Doc(ph.doc))
    && (ph.Replaced? ==> forall k :: 0 <= k < |w.outcomes| && w.outcomes[k].Finished? ==>
        w.outcomes[k].index != ph.index)
    && (Critical(ph) ==> forall k :: 0 <= k < |w.outcomes| && w.outcomes[k].Raised? ==>
        w.outcomes[k].ticket != ph.ticket)
  }

  ghost predicate HoldersInv(commit: Committer, w: World) {
    forall p {:trigger HolderInv(commit, w, p, PhaseOf(w, p))} :: HolderInv(commit, w, p, PhaseOf(w, p))
  }

  /** Every call that replaced the file is in the log, at a place of its own, with the document it wrote,
      even if it raised afterwards. */
  ghost predicate OutcomeInv(commit: Committer, init: File, log: seq<LogEntry>, outcomes: seq<Outcome>) {
    && (forall k :: 0 <= k < |outcomes| && outcomes[k].Finished? ==>
          && outcomes[k].index < |log| && log[outcomes[k].index].op == outcomes[k].op
          && Replay(commit, init, log[..outcomes[k].index + 1]) == Doc(outcomes[k].doc))
    && (forall k, l :: 0 <= k < l < |outcomes| && outcomes[k].Finished? && outcomes[l].Finished? ==>
          outcomes[k].index != outcomes[l].index)
  }

  /** A call that raised before its replace never wrote. */
  ghost predicate RaisedInv(log: seq<LogEntry>, tickets: nat, outcomes: seq<Outcome>) {
    forall k :: 0 <= k < |outcomes| && outcomes[k].Raised? ==>
      && outcomes[k].ticket < tickets
      && forall i :: 0 <= i < |log| ==> log[i].ticket != outcomes[k].ticket
  }

  /** A reader that takes no lock sees the result of a prefix of the log, and never an older one again. */
  ghost predicate ReadInv(commit: Committer, init: File, log: seq<LogEntry>, seen: seq<Snapshot>) {
    && (forall k :: 0 <= k < |seen| ==>
        seen[k].at <= |log| && seen[k].content == Replay(commit, init, log[..seen[k].at]))
    && (forall k, l :: 0 <= k < l < |seen| ==> seen[k].at <= seen[l].at)
  }

  ghost predicate Inv(commit: Committer, init: File, w: World) {
    && LockInv(w) && HoldersInv(commit, w)
    && w.file == Replay(commit, init, w.log)
    && LogInv(commit, init, w.log) && TicketInv(w.log, w.tickets)
    && OutcomeInv(commit, init, w.log, w.outcomes) && ReadInv(commit, init, w.log, w.seen)
    && RaisedInv(w.log, w.tickets, w.outcomes)
  }

  /** What a process knows about itself. */
  lemma Knows(commit: Committer, init: File, w: World, p: Pid)
    requires Inv(commit, init, w)
    ensures HolderInv(commit, w, p, PhaseOf(w, p)) && (Critical(PhaseOf(w, p)) <==> w.holder == Some(p))
  {
    hide HolderInv;
  }

  // ---------- every step keeps it ----------

  lemma LogGrows(commit: Committer, init: File, log: seq<LogEntry>, e: LogEntry)
    requires LogInv(commit, init, log) && commit(Replay(commit, init, log), e.op).Ok?
    ensures LogInv(commit, init, log + [e])
    ensures Replay(commit, init, log + [e]) == Doc(commit(Replay(commit, init, log), e.op).value)
  {
    var more := log + [e];
    assert more[..|log|] == log;
    forall i | 0 <= i < |more| ensures commit(Replay(commit, init, more[..i]), more[i].op).Ok? {
      if i < |log| { assert more[..i] == log[..i]; }
    }
  }

  lemma OutcomesStay(commit: Committer, init: File, log: seq<LogEntry>, e: LogEntry, outcomes: seq<Outcome>)
    requires OutcomeInv(commit, init, log, outcomes)
    ensures OutcomeInv(commit, init, log + [e], outcomes)
  {
    var more := log + [e];
    forall k | 0 <= k < |outcomes| && outcomes[k].Finished?
      ensures Replay(commit, init, more[..outcomes[k].index + 1]) == Doc(outcomes[k].doc)
    {
      assert more[..outcomes[k].index + 1] == log[..outcomes[k].index + 1];
    }
  }

  lemma ReadsStay(commit: Committer, init: File, log: seq<LogEntry>, e: LogEntry, seen: seq<Snapshot>)
    requires ReadInv(commit, init, log, seen)
    ensures ReadInv(commit, init, log + [e], seen)
  {
    var more := log + [e];
    forall k | 0 <= k < |seen| ensures seen[k].content == Replay(commit, init, more[..seen[k].at]) {
      assert more[..seen[k].at] == log[..seen[k].at];
    }
  }

  lemma OutcomesGrow(commit: Committer, init: File, log: seq<LogEntry>, outcomes: seq<Outcome>, o: Outcome)
    requires OutcomeInv(commit, init, log, outcomes)
    requires o.Finished? ==>
      && o.index < |log| && log[o.index].op == o.op && Replay(commit, init, log[..o.index + 1]) == Doc(o.doc)
      && forall k :: 0 <= k < |outcomes| && outcomes[k].Finished? ==> outcomes[k].index != o.index
    ensures OutcomeInv(commit, init, log, outcomes + [o])
  {
  }

  lemma ReadsGrow(commit: Committer, init: File, log: seq<LogEntry>, seen: seq<Snapshot>)
    requires ReadInv(commit, init, log, seen)
    ensures ReadInv(commit, init, log, seen + [Snapshot(Replay(commit, init, log), |log|)])
  {
    assert log[..|log|] == log;
  }

  /** A step of process p that leaves the others where they are keeps the lock and their knowledge. */
  lemma ProcessesStep(commit: Committer, w: World, v: World, p: Pid, ph: Phase)
    requires LockInv(w) && HoldersInv(commit, w)
    requires v.phases == w.phases[p := ph]
    requires v.holder == if Critical(ph) then Some(p) else if Critical(PhaseOf(w, p)) then None else w.holder
    requires Critical(ph) ==> w.holder == None || w.holder == Some(p)
    requires HolderInv(commit, v, p, ph)
    requires (v.file == w.file && v.log == w.log && v.outcomes == w.outcomes && w.tickets <= v.tickets)
             || Critical(PhaseOf(w, p))
    requires forall q :: q != p && q in w.temps ==> q in v.temps && v.temps[q] == w.temps[q]
    ensures LockInv(v) && HoldersInv(commit, v)
  {
    assert PhaseOf(v, p) == ph;
    forall q | q != p ensures PhaseOf(v, q) == PhaseOf(w, q) {}
    forall q ensures HolderInv(commit, v, q, PhaseOf(v, q)) {
      assert HolderInv(commit, w, q, PhaseOf(w, q));
    }
  }

  lemma TicketsGrow(log: seq<LogEntry>, tickets: nat, e: LogEntry)
    requires TicketInv(log, tickets) && e.ticket < tickets
    requires forall i :: 0 <= i < |log| ==> log[i].ticket < e.ticket
    ensures TicketInv(log + [e], tickets)
  {
  }

  lemma AfterReplace(commit: Committer, w: World, p: Pid)
    requires PhaseOf(w, p).Staged? && HolderInv(commit, w, p, PhaseOf(w, p))
    ensures var ph, v := PhaseOf(w, p), Step(commit, w, Replace(p));
            && v.log == w.log + [LogEntry(p, ph.ticket, ph.op)] && v.file == Doc(ph.doc)
            && v.phases == w.phases[p := Replaced(ph.op, ph.ticket, |w.log|, ph.doc, false)]
            && v.holder == w.holder && v.outcomes == w.outcomes && v.seen == w.seen && v.tickets == w.tickets
            && forall q :: q != p && q in w.temps ==> q in v.temps && v.temps[q] == w.temps[q]
  {
  }

  lemma ReplaceKeeps(commit: Committer, init: File, w: World, p: Pid)
    requires Inv(commit, init, w) && PhaseOf(w, p).Staged?
    ensures Inv(commit, init, Step(commit, w, Replace(p)))
  {
    var ph := PhaseOf(w, p);
    Knows(commit, init, w, p);
    hide LockInv, HoldersInv, LogInv, OutcomeInv, ReadInv, TicketInv, Step;
    var e := LogEntry(p, ph.ticket, ph.op);
    AfterReplace(commit, w, p);
    LogGrows(commit, init, w.log, e);
    TicketsGrow(w.log, w.tickets, e);
    OutcomesStay(commit, init, w.log, e, w.outcomes);
    ReadsStay(commit, init, w.log, e, w.seen);
    FreshIndex(commit, init, w);
    assert RaisedInv(w.log + [e], w.tickets, w.outcomes);
    ReplaceHolders(commit, w, p);
  }

  lemma ReplaceHolders(commit: Committer, w: World, p: Pid)
    requires PhaseOf(w, p).Staged? && LockInv(w) && HoldersInv(commit, w)
    requires forall k :: 0 <= k < |w.outcomes| && w.outcomes[k].Finished? ==> w.outcomes[k].index != |w.log|
    ensures var v := Step(commit, w, Replace(p)); LockInv(v) && HoldersInv(commit, v)
  {
    var ph := PhaseOf(w, p);
    assert HolderInv(commit, w, p, ph);
    AfterReplace(commit, w, p);
    ProcessesStep(commit, w, Step(commit, w, Replace(p)), p, Replaced(ph.op, ph.ticket, |w.log|, ph.doc, false));
  }

  lemma FreshIndex(commit: Committer, init: File, w: World)
    requires OutcomeInv(commit, init, w.log, w.outcomes)
    ensures forall k :: 0 <= k < |w.outcomes| && w.outcomes[k].Finished? ==> w.outcomes[k].index != |w.log|
  {
  }

  lemma RaisedGrow(log: seq<LogEntry>, tickets: nat, outcomes: seq<Outcome>, o: Outcome)
    requires RaisedInv(log, tickets, outcomes)
    requires o.Raised? ==> o.ticket < tickets && forall i :: 0 <= i < |log| ==> log[i].ticket != o.ticket
    ensures RaisedInv(log, tickets, outcomes + [o])
  {
  }

  lemma ReleaseHolders(commit: Committer, w: World, p: Pid, o: Outcome)
    requires LockInv(w) && HoldersInv(commit, w) && Critical(PhaseOf(w, p))
    ensures var v := Enter(w, p, Idle).(holder := None, outcomes := w.outcomes + [o]);
            LockInv(v) && HoldersInv(commit, v)
  {
    ProcessesStep(commit, w, Enter(w, p, Idle).(holder := None, outcomes := w.outcomes + [o]), p, Idle);
  }

  lemma ReleaseKeeps(commit: Committer, init: File, w: World, p: Pid)
    requires Inv(commit, init, w) && (PhaseOf(w, p).Replaced? || PhaseOf(w, p).Unwinding?)
    ensures Inv(commit, init, Step(commit, w, Release(p)))
  {
    var ph := PhaseOf(w, p);
    Knows(commit, init, w, p);
    hide LockInv, HoldersInv, LogInv, OutcomeInv, ReadInv, TicketInv, RaisedInv;
    var o := if ph.Replaced? then Finished(ph.op, ph.index, ph.doc, ph.raising) else Raised(ph.op, ph.ticket);
    assert w.log[..|w.log|] == w.log;
    OutcomesGrow(commit, init, w.log, w.outcomes, o);
    RaisedGrow(w.log, w.tickets, w.outcomes, o);
    ReleaseHolders(commit, w, p, o);
  }

  lemma ReadKeeps(commit: Committer, init: File, w: World)
    requires Inv(commit, init, w)
    ensures Inv(commit, init, Step(commit, w, Read))
  {
    var v := Step(commit, w, Read);
    ReadsGrow(commit, init, w.log, w.seen);
    forall q ensures PhaseOf(v, q) == PhaseOf(w, q) {}
    forall q ensures HolderInv(commit, v, q, PhaseOf(v, q)) {
      assert HolderInv(commit, w, q, PhaseOf(w, q));
    }
  }

  /** Steps that touch neither the file, the log nor the histories. */
  lemma QuietKeeps(commit: Committer, init: File, w: World, v: World, p: Pid)
    requires Inv(commit, init, w)
    requires p in v.phases
    requires v == w.(phases := w.phases[p := v.phases[p]], holder := v.holder, temps := v.temps, tickets := v.tickets)
    requires w.tickets <= v.tickets
    requires forall q :: q != p && q in w.temps ==> q in v.temps && v.temps[q] == w.temps[q]
    requires v.holder == if Critical(v.phases[p]) then Some(p) else if Critical(PhaseOf(w, p)) then None else w.holder
    requires Critical(v.phases[p]) ==> w.holder == None || w.holder == Some(p)
    requires HolderInv(commit, v, p, v.phases[p])
    ensures Inv(commit, init, v)
  {
    ProcessesStep(commit, w, v, p, v.phases[p]);
  }

  lemma LockStepsKeep(commit: Committer, init: File, w: World, a: Action)
    requires Inv(commit, init, w) && (a.Start? || a.Acquire? || a.Crash?)
    ensures Inv(commit, init, Step(commit, w, a))
  {
    var v := Step(commit, w, a);
    Knows(commit, init, w, a.pid);
    hide LockInv, HoldersInv, LogInv, OutcomeInv, ReadInv;
    if v != w {
      QuietKeeps(commit, init, w, v, a.pid);
    }
  }

  lemma LoadKeeps(commit: Committer, init: File, w: World, p: Pid)
    requires Inv(commit, init, w) && PhaseOf(w, p).Holding?
    ensures Inv(commit, init, Step(commit, w, Load(p)))
  {
    hide Inv;
    Knows(commit, init, w, p);
    QuietKeeps(commit, init, w, Step(commit, w, Load(p)), p);
  }

  lemma ComputeKeeps(commit: Committer, init: File, w: World, p: Pid)
    requires Inv(commit, init, w) && PhaseOf(w, p).Loaded?
    ensures Inv(commit, init, Step(commit, w, Compute(p)))
  {
    hide Inv;
    Knows(commit, init, w, p);
    QuietKeeps(commit, init, w, Step(commit, w, Compute(p)), p);
  }

  lemma StageKeeps(commit: Committer, init: File, w: World, p: Pid)
    requires Inv(commit, init, w) && PhaseOf(w, p).Computed?
    ensures Inv(commit, init, Step(commit, w, Stage(p)))
  {
    hide Inv;
    Knows(commit, init, w, p);
    QuietKeeps(commit, init, w, Step(commit, w, Stage(p)), p);
  }

  lemma FailKeeps(commit: Committer, init: File, w: World, p: Pid)
    requires Inv(commit, init, w)
    requires var ph := PhaseOf(w, p); ph.Holding? || ph.Loaded? || ph.Computed? || ph.Staged?
    ensures Inv(commit, init, Step(commit, w, Fail(p)))
  {
    hide Inv;
    Knows(commit, init, w, p);
    QuietKeeps(commit, init, w, Step(commit, w, Fail(p)), p);
  }

  lemma LateFailKeeps(commit: Committer, init: File, w: World, p: Pid)
    requires Inv(commit, init, w) && PhaseOf(w, p).Replaced?
    ensures Inv(commit, init, Step(commit, w, Fail(p)))
  {
    hide Inv;
    Knows(commit, init, w, p);
    QuietKeeps(commit, init, w, Step(commit, w, Fail(p)), p);
  }

  lemma WorkStepsKeep(commit: Committer, init: File, w: World, a: Action)
    requires Inv(commit, init, w) && (a.Load? || a.Compute? || a.Stage? || a.Fail?)
    ensures Inv(commit, init, Step(commit, w, a))
  {
    var ph := PhaseOf(w, a.pid);
    match a
    case Load(p) => if ph.Holding? { LoadKeeps(commit, init, w, p); }
    case Compute(p) => if ph.Loaded? { ComputeKeeps(commit, init, w, p); }
    case Stage(p) => if ph.Computed? { StageKeeps(commit, init, w, p); }
    case Fail(p) =>
      if ph.Replaced? { LateFailKeeps(commit, init, w, p); }
      else if ph.Holding? || ph.Loaded? || ph.Computed? || ph.Staged? { FailKeeps(commit, init, w, p); }
  }

  lemma StepKeeps(commit: Committer, init: File, w: World, a: Action)
    requires Inv(commit, init, w)
    ensures Inv(commit, init, Step(commit, w, a))
  {
    match a
    case Read => ReadKeeps(commit, init, w);
    case Replace(p) => if PhaseOf(w, p).Staged? { ReplaceKeeps(commit, init, w, p); }
    case Release(p) =>
      if PhaseOf(w, p).Replaced? || PhaseOf(w, p).Unwinding? { ReleaseKeeps(commit, init, w, p); }
    case Start(_, _) => LockStepsKeep(commit, init, w, a);
    case Acquire(_) => LockStepsKeep(commit, init, w, a);
    case Crash(_) => LockStepsKeep(commit, init, w, a);
    case _ => WorkStepsKeep(commit, init, w, a);
  }

  lemma BeginInv(commit: Committer, init: File)
    ensures Inv(commit, init, Begin(init))
  {
  }

  /** Whatever the schedule, and wherever processes fail or crash, the invariant holds. */
  lemma {:induction false} RunKeeps(commit: Committer, init: File, actions: seq<Action>)
    ensures Inv(commit, init, Run(commit, Begin(init), actions))
  {
    if actions == [] {
      BeginInv(commit, init);
    } else {
      var front := actions[..|actions| - 1];
      RunKeeps(commit, init, front);
      StepKeeps(commit, init, Run(commit, Begin(init), front), actions[|actions| - 1]);
    }
  }

  // ---------- what it means ----------

  /** For every schedule of any number of producers, with failures and crashes anywhere: the file is the
      serial replay of the completed replaces, in the order the lock was taken; each of them succeeded on
      what the earlier ones left; every call that got as far as replacing, whether it returned or raised
      afterwards, is among them with the document it wrote, no two at one place; no call that raised before
      is; and unlocked readers only see such prefixes, in order. */
  lemma EveryRunIsSerial(commit: Committer, init: File, actions: seq<Action>)
    ensures var w := Run(commit, Begin(init), actions);
      && w.file == Replay(commit, init, w.log)
      && (forall i :: 0 <= i < |w.log| ==> commit(Replay(commit, init, w.log[..i]), w.log[i].op).Ok?)
      && (forall i, j :: 0 <= i < j < |w.log| ==> w.log[i].ticket < w.log[j].ticket)
      && (forall k :: 0 <= k < |w.outcomes| && w.outcomes[k].Finished? ==>
            && w.outcomes[k].index < |w.log| && w.log[w.outcomes[k].index].op == w.outcomes[k].op
            && Replay(commit, init, w.log[..w.outcomes[k].index + 1]) == Doc(w.outcomes[k].doc))
      && (forall k, l :: 0 <= k < l < |w.outcomes| && w.outcomes[k].Finished? && w.outcomes[l].Finished? ==>
            w.outcomes[k].index != w.outcomes[l].index)
      && (forall k, i :: 0 <= k < |w.outcomes| && w.outcomes[k].Raised? && 0 <= i < |w.log| ==>
            w.log[i].ticket != w.outcomes[k].ticket)
      && (forall k :: 0 <= k < |w.seen| ==>
          w.seen[k].at <= |w.log| && w.seen[k].content == Replay(commit, init, w.log[..w.seen[k].at]))
      && (forall k, l :: 0 <= k < l < |w.seen| ==> w.seen[k].at <= w.seen[l].at)
      && (forall p, q :: Critical(PhaseOf(w, p)) && Critical(PhaseOf(w, q)) ==> p == q)
  {
    RunKeeps(commit, init, actions);
  }

  /** Only a replace changes the file, and only into what its call makes of the file as it stands. */
  lemma OnlyReplaceWrites(commit: Committer, init: File, actions: seq<Action>, a: Action)
    ensures var w := Run(commit, Begin(init), actions);
            var v := Step(commit, w, a);
            v.file != w.file || v.log != w.log ==>
              && a.Replace? && PhaseOf(w, a.pid).Staged?
              && commit(w.file, PhaseOf(w, a.pid).op).Ok?
              && v.file == Doc(commit(w.file, PhaseOf(w, a.pid).op).value)
              && |v.log| == |w.log| + 1 && v.log[|w.log|].op == PhaseOf(w, a.pid).op
  {
    RunKeeps(commit, init, actions);
    var w := Run(commit, Begin(init), actions);
    if a.Replace? {
      Knows(commit, init, w, a.pid);
    }
  }

  ghost function CommitWith(draw: Draw): Committer {
    (file: File, op: Op) => Commit(file, op, draw)
  }

  lemma {:induction false} ReplaySound(draw: Draw, init: File, log: seq<LogEntry>)
    requires Sound(init)
    ensures Sound(Replay(CommitWith(draw), init, log))
  {
    if log == [] {
    } else {
      var before := Replay(CommitWith(draw), init, log[..|log| - 1]);
      ReplaySound(draw, init, log[..|log| - 1]);
      if Commit(before, log[|log| - 1].op, draw).Ok? {
        CommitKeepsSound(before, log[|log| - 1].op, draw);
      }
    }
  }

  /** Starting from a sound file, which includes none, at every moment of every run the registry is readable and
      all its records are owned and filed under their own identifiers. */
  lemma RunsStaySound(draw: Draw, init: File, actions: seq<Action>)
    requires Sound(init)
    ensures Sound(Run(CommitWith(draw), Begin(init), actions).file)
  {
    RunKeeps(CommitWith(draw), init, actions);
    ReplaySound(draw, init, Run(CommitWith(draw), Begin(init), actions).log);
  }

  // ---------- what others do to a record ----------

  /** A call leaves identifiers behind that hide the record. */
  ghost predicate Hides(draw: Draw, before: File, op: Op, id: string) {
    Commit(before, op, draw).Ok? && id !in Survivors(MergedTable(LoadRegistry(before).value, op).value.Keys)
  }

  /** No call logged at place n or later does so. */
  ghost predicate NeverHidden(draw: Draw, init: File, log: seq<LogEntry>, n: nat, id: string) {
    |log| <= n ||
      var front, last := log[..|log| - 1], log[|log| - 1];
      NeverHidden(draw, init, front, n, id) && !Hides(draw, Replay(CommitWith(draw), init, front), last.op, id)
  }

  /** The owner's record is in the file. */
  ghost predicate Holds(file: File, id: string, owner: string) {
    id in Table(file) && OwnerOf(Table(file)[id]) == Str(owner)
  }

  /** One more call by somebody else. */
  lemma NextCall(draw: Draw, before: File, op: Op, after: File, id: string, owner: string)
    requires Sound(before) && op.owner != owner
    requires after == match Commit(before, op, draw) case Ok(doc) => Doc(doc) case Err(_) => before
    ensures Holds(after, id, owner) <==>
      Holds(before, id, owner) && !Hides(draw, before, op, id)
    ensures Holds(after, id, owner) ==> Table(after)[id] == Table(before)[id]
  {
    if Commit(before, op, draw).Ok? {
      if Holds(before, id, owner) {
        CommitKeepsForeign(before, op, draw, id);
      }
      CommitMakesOwnRecords(before, op, draw, id);
    }
  }

  lemma {:induction false} FateInLog(draw: Draw, init: File, log: seq<LogEntry>, n: nat, id: string, owner: string)
    requires Sound(init) && n <= |log| && Holds(Replay(CommitWith(draw), init, log[..n]), id, owner)
    requires forall i :: n <= i < |log| ==> log[i].op.owner != owner
    ensures var file := Replay(CommitWith(draw), init, log);
      && (Holds(file, id, owner) <==> NeverHidden(draw, init, log, n, id))
      && (Holds(file, id, owner) ==> Table(file)[id] == Table(Replay(CommitWith(draw), init, log[..n]))[id])
  {
    if n == |log| {
      assert log[..n] == log;
    } else {
      var front, last := log[..|log| - 1], log[|log| - 1];
      assert front[..n] == log[..n];
      FateInLog(draw, init, front, n, id, owner);
      ReplaySound(draw, init, front);
      NextCall(draw, Replay(CommitWith(draw), init, front), last.op, Replay(CommitWith(draw), init, log), id, owner);
    }
  }

  lemma StepExtendsLog(commit: Committer, w: World, a: Action)
    ensures w.log <= Step(commit, w, a).log
  {
  }

  lemma {:induction false} RunExtendsLog(commit: Committer, w: World, more: seq<Action>)
    ensures w.log <= Run(commit, w, more).log
  {
    hide Step;
    if more == [] {
    } else {
      RunExtendsLog(commit, w, more[..|more| - 1]);
      StepExtendsLog(commit, Run(commit, w, more[..|more| - 1]), more[|more| - 1]);
    }
  }

  lemma {:induction false} RunInTwo(commit: Committer, w: World, a: seq<Action>, b: seq<Action>)
    ensures Run(commit, w, a + b) == Run(commit, Run(commit, w, a), b)
  {
    hide Step;
    if b == [] {
      assert a + b == a;
    } else {
      RunInTwo(commit, w, a, b[..|b| - 1]);
      assert (a + b)[..|a + b| - 1] == a + b[..|b| - 1];
    }
  }

  /** In any run that starts from a sound file, through any stretch in which its owner does not write: a record
      is still its owner's, unchanged, exactly if no call in between left identifiers behind that hide it. */
  lemma ForeignRecordsSurvive(draw: Draw, init: File, actions: seq<Action>, more: seq<Action>, id: string,
                              owner: string)
    requires Sound(init) && Holds(Run(CommitWith(draw), Begin(init), actions).file, id, owner)
    requires var w := Run(CommitWith(draw), Begin(init), actions);
             var v := Run(CommitWith(draw), w, more);
             forall i :: |w.log| <= i < |v.log| ==> v.log[i].op.owner != owner
    ensures var w := Run(CommitWith(draw), Begin(init), actions);
            var v := Run(CommitWith(draw), w, more);
      && (Holds(v.file, id, owner) <==> NeverHidden(draw, init, v.log, |w.log|, id))
      && (Holds(v.file, id, owner) ==> Table(v.file)[id] == Table(w.file)[id])
  {
    var w := Run(CommitWith(draw), Begin(init), actions);
    RunExtendsLog(CommitWith(draw), w, more);
    RunInTwo(CommitWith(draw), Begin(init), actions, more);
    RunReplays(CommitWith(draw), init, actions);
    RunReplays(CommitWith(draw), init, actions + more);
    FateBetween(draw, init, w, Run(CommitWith(draw), w, more), id, owner);
  }

  lemma RunReplays(commit: Committer, init: File, actions: seq<Action>)
    ensures var w := Run(commit, Begin(init), actions); w.file == Replay(commit, init, w.log)
  {
    RunKeeps(commit, init, actions);
  }

  lemma FateBetween(draw: Draw, init: File, w: World, v: World, id: string, owner: string)
    requires w.file == Replay(CommitWith(draw), init, w.log) && v.file == Replay(CommitWith(draw), init, v.log)
    requires Sound(init) && w.log <= v.log && Holds(w.file, id, owner)
    requires forall i :: |w.log| <= i < |v.log| ==> v.log[i].op.owner != owner
    ensures Holds(v.file, id, owner) <==> NeverHidden(draw, init, v.log, |w.log|, id)
    ensures Holds(v.file, id, owner) ==> Table(v.file)[id] == Table(w.file)[id]
  {
    assert v.log[..|w.log|] == w.log;
    FateInLog(draw, init, v.log, |w.log|, id, owner);
  }

  // ---------- serial runs ----------

  /** One undisturbed call of a process. */
  function CallActions(p: Pid, op: Op): seq<Action> {
    [Start(p, op), Acquire(p), Load(p), Compute(p), Stage(p), Replace(p), Release(p)]
  }

  lemma RunOne(commit: Committer, w: World, actions: seq<Action>, a: Action)
    ensures Run(commit, w, actions + [a]) == Step(commit, Run(commit, w, actions), a)
  {
    assert (actions + [a])[..|actions|] == actions;
  }

  /** Up to the computed document nothing outside the process has changed but the lock. */
  lemma CallComputes(commit: Committer, w: World, p: Pid, op: Op)
    requires w.holder.None? && PhaseOf(w, p).Idle? && commit(w.file, op).Ok?
    ensures var u := Run(commit, w, [Start(p, op), Acquire(p), Load(p), Compute(p)]);
      && u.file == w.file && u.log == w.log && PhaseOf(u, p) == Computed(op, w.tickets, commit(w.file, op).value)
  {
    var none: seq<Action> := [];
    RunOne(commit, w, none, Start(p, op));
    RunOne(commit, w, none + [Start(p, op)], Acquire(p));
    RunOne(commit, w, none + [Start(p, op)] + [Acquire(p)], Load(p));
    RunOne(commit, w, none + [Start(p, op)] + [Acquire(p)] + [Load(p)], Compute(p));
    assert none + [Start(p, op)] + [Acquire(p)] + [Load(p)] + [Compute(p)]
           == [Start(p, op), Acquire(p), Load(p), Compute(p)];
  }

  lemma CallWrites(commit: Committer, u: World, p: Pid, op: Op, ticket: nat, doc: Json)
    requires PhaseOf(u, p) == Computed(op, ticket, doc)
    ensures var v := Run(commit, u, [Stage(p), Replace(p), Release(p)]);
      && v.file == Doc(doc) && v.log == u.log + [LogEntry(p, ticket, op)] && v.holder.None? && PhaseOf(v, p).Idle?
  {
    var none: seq<Action> := [];
    RunOne(commit, u, none, Stage(p));
    RunOne(commit, u, none + [Stage(p)], Replace(p));
    RunOne(commit, u, none + [Stage(p)] + [Replace(p)], Release(p));
    assert none + [Stage(p)] + [Replace(p)] + [Release(p)] == [Stage(p), Replace(p), Release(p)];
  }

  /** With the lock free, a call that commits goes through and leaves its document. */
  lemma UndisturbedCall(commit: Committer, w: World, p: Pid, op: Op)
    requires w.holder.None? && PhaseOf(w, p).Idle? && commit(w.file, op).Ok?
    ensures var v := Run(commit, w, CallActions(p, op));
      && v.file == Doc(commit(w.file, op).value) && v.log == w.log + [LogEntry(p, w.tickets, op)]
      && v.holder.None? && PhaseOf(v, p).Idle?
  {
    var first: seq<Action>, second: seq<Action> :=
          [Start(p, op), Acquire(p), Load(p), Compute(p)], [Stage(p), Replace(p), Release(p)];
    assert first + second == CallActions(p, op);
    RunInTwo(commit, w, first, second);
    CallComputes(commit, w, p, op);
    CallWrites(commit, Run(commit, w, first), p, op, w.tickets, commit(w.file, op).value);
  }

  /** A run in which one owner's record is filed and somebody else's call destroys it. */
  lemma RunThatDestroys(owner: string, other: string, id: string, draw: Draw)
    returns (first: seq<Action>, second: seq<Action>)
    requires owner != "" && other != "" && owner != other && |id| == 1
    ensures Holds(Run(CommitWith(draw), Begin(Missing), first).file, id, owner)
    ensures id !in Table(Run(CommitWith(draw), Begin(Missing), first + second).file)
  {
    first, second := CallActions(1, ReportOp(owner, id)), CallActions(1, ReportOp(other, "entries"));
    OthersCanDestroy(owner, other, id, draw);
    UndisturbedCall(CommitWith(draw), Begin(Missing), 1, ReportOp(owner, id));
    var w := Run(CommitWith(draw), Begin(Missing), first);
    UndisturbedCall(CommitWith(draw), w, 1, ReportOp(other, "entries"));
    RunInTwo(CommitWith(draw), Begin(Missing), first, second);
  }
}
