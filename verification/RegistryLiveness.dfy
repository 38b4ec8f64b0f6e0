/** What becomes of one call under the lock, however it ends, and that nobody is locked out for good. */
module RegistryLiveness {
  import opened Basics
  import opened JsonValues
  import opened Registry
  import opened RegistryStore
  import opened RegistryProtocol

  // ---------- one call, from a free lock ----------

  /** The file and the log are as before, the lock is free, and the process is done. */
  ghost predicate Untouched(w: World, v: World, p: Pid) {
    v.file == w.file && v.log == w.log && v.holder.None? && PhaseOf(v, p).Idle?
  }

  /** The call has replaced the file and is logged once, the lock is free, and the process is done. */
  ghost predicate Written(w: World, v: World, p: Pid, op: Op, doc: Json) {
    && v.file == Doc(doc) && v.log == w.log + [LogEntry(p, w.tickets, op)] && v.holder.None? && PhaseOf(v, p).Idle?
  }

  /** Where a call is after its first n actions. */
  ghost predicate Reached(commit: Committer, w: World, v: World, p: Pid, op: Op, n: nat)
    requires 2 <= n <= 6 && (4 < n ==> commit(w.file, op).Ok?)
  {
    && v.holder == Some(p) && v.tickets == w.tickets + 1 && v.outcomes == w.outcomes
    && (n < 6 ==> v.file == w.file && v.log == w.log) && (n < 5 ==> v.temps == w.temps)
    && match n
       case 2 => PhaseOf(v, p) == Holding(op, w.tickets)
       case 3 => PhaseOf(v, p) == Loaded(op, w.tickets, w.file)
       case 4 =>
         (match commit(w.file, op)
          case Ok(doc) => PhaseOf(v, p) == Computed(op, w.tickets, doc)
          case Err(_) => PhaseOf(v, p) == Unwinding(op, w.tickets))
       case 5 =>
         var doc := commit(w.file, op).value;
         PhaseOf(v, p) == Staged(op, w.tickets, doc) && p in v.temps && v.temps[p] == doc
       case _ =>
         var doc := commit(w.file, op).value;
         && PhaseOf(v, p) == Replaced(op, w.tickets, |w.log|, doc, false) && p !in v.temps
         && v.file == Doc(doc) && v.log == w.log + [LogEntry(p, w.tickets, op)]
  }

  lemma TakesLock(commit: Committer, w: World, p: Pid, op: Op)
    requires w.holder.None? && PhaseOf(w, p).Idle?
    ensures Reached(commit, w, Step(commit, Step(commit, w, Start(p, op)), Acquire(p)), p, op, 2)
  {
  }

  lemma OneActionMore(commit: Committer, w: World, v: World, p: Pid, op: Op, n: nat)
    requires 2 <= n < 6 && (3 < n ==> commit(w.file, op).Ok?) && Reached(commit, w, v, p, op, n)
    ensures Reached(commit, w, Step(commit, v, CallActions(p, op)[n]), p, op, n + 1)
  {
    match n
    case 2 =>
    case 3 =>
    case 4 =>
    case _ =>
  }

  lemma {:induction false} CallReaches(commit: Committer, w: World, p: Pid, op: Op, n: nat)
    requires w.holder.None? && PhaseOf(w, p).Idle? && 2 <= n <= 6 && (4 < n ==> commit(w.file, op).Ok?)
    ensures Reached(commit, w, Run(commit, w, CallActions(p, op)[..n]), p, op, n)
  {
    hide Step, Reached;
    var call := CallActions(p, op);
    assert call[..n] == call[..n - 1] + [call[n - 1]];
    RunOne(commit, w, call[..n - 1], call[n - 1]);
    if n == 2 {
      assert call[..1] == call[..0] + [call[0]];
      RunOne(commit, w, call[..0], call[0]);
      TakesLock(commit, w, p, op);
    } else {
      CallReaches(commit, w, p, op, n - 1);
      OneActionMore(commit, w, Run(commit, w, call[..n - 1]), p, op, n - 1);
    }
  }

  /** A call that the file refuses raises, changes nothing and leaves the lock free. */
  lemma RefusedCall(commit: Committer, w: World, p: Pid, op: Op)
    requires w.holder.None? && PhaseOf(w, p).Idle? && commit(w.file, op).Err?
    ensures var v := Run(commit, w, [Start(p, op), Acquire(p), Load(p), Compute(p), Release(p)]);
      && Untouched(w, v, p) && v.temps == w.temps && v.outcomes == w.outcomes + [Raised(op, w.tickets)]
  {
    var four: seq<Action> := [Start(p, op), Acquire(p), Load(p), Compute(p)];
    assert four == CallActions(p, op)[..4];
    CallReaches(commit, w, p, op, 4);
    RunOne(commit, w, four, Release(p));
    assert four + [Release(p)] == [Start(p, op), Acquire(p), Load(p), Compute(p), Release(p)];
    ReleaseEnds(commit, Run(commit, w, four), p);
  }

  /** Releasing ends a call with one outcome. */
  lemma ReleaseEnds(commit: Committer, v: World, p: Pid)
    requires PhaseOf(v, p).Replaced? || PhaseOf(v, p).Unwinding?
    ensures var ph, u := PhaseOf(v, p), Step(commit, v, Release(p));
      && Untouched(v, u, p) && u.temps == v.temps && u.tickets == v.tickets
      && (forall q :: q != p ==> PhaseOf(u, q) == PhaseOf(v, q))
      && u.outcomes == v.outcomes
           + [if ph.Replaced? then Finished(ph.op, ph.index, ph.doc, ph.raising) else Raised(ph.op, ph.ticket)]
  {
  }

  /** Raising only marks the call, and takes back its temporary file. */
  lemma FailMarks(commit: Committer, w: World, p: Pid)
    requires Critical(PhaseOf(w, p))
    ensures var ph, v := PhaseOf(w, p), Step(commit, w, Fail(p));
      && v.file == w.file && v.log == w.log && v.tickets == w.tickets && v.outcomes == w.outcomes
      && (forall q :: q != p ==> PhaseOf(v, q) == PhaseOf(w, q))
      && (if ph.Replaced? then PhaseOf(v, p) == Replaced(ph.op, ph.ticket, ph.index, ph.doc, true)
          else PhaseOf(v, p) == Unwinding(ph.op, ph.ticket))
      && (ph.Replaced? || ph.Unwinding? ==> v.temps == w.temps)
      && (!ph.Replaced? && !ph.Unwinding? ==> v.temps == w.temps - {p})
  {
  }

  /** Raising and unwinding, from any moment under the lock. */
  lemma FailAndRelease(commit: Committer, w: World, p: Pid)
    requires Critical(PhaseOf(w, p))
    ensures var ph, v := PhaseOf(w, p), Run(commit, w, [Fail(p), Release(p)]);
      && Untouched(w, v, p) && (forall q :: q != p ==> PhaseOf(v, q) == PhaseOf(w, q))
      && (p in v.temps ==> p in w.temps && (ph.Replaced? || ph.Unwinding?))
      && v.outcomes == w.outcomes
           + [if ph.Replaced? then Finished(ph.op, ph.index, ph.doc, true) else Raised(ph.op, ph.ticket)]
  {
    hide Step;
    var none: seq<Action> := [];
    RunOne(commit, w, none, Fail(p));
    RunOne(commit, w, none + [Fail(p)], Release(p));
    assert none + [Fail(p)] + [Release(p)] == [Fail(p), Release(p)];
    FailMarks(commit, w, p);
    ReleaseEnds(commit, Step(commit, w, Fail(p)), p);
  }

  /** A call that raises under the lock, after its first n actions. Before the replace it changes nothing and
      leaves no temporary file; after the replace its document stays. Either way the lock is free. */
  lemma FailingCall(commit: Committer, w: World, p: Pid, op: Op, n: nat)
    requires w.holder.None? && PhaseOf(w, p).Idle? && 2 <= n <= 6 && (3 < n ==> commit(w.file, op).Ok?)
    ensures var v := Run(commit, w, CallActions(p, op)[..n] + [Fail(p), Release(p)]);
      && p !in v.temps
      && (n < 6 ==> Untouched(w, v, p) && v.outcomes == w.outcomes + [Raised(op, w.tickets)])
      && (n == 6 ==> var doc := commit(w.file, op).value;
            Written(w, v, p, op, doc) && v.outcomes == w.outcomes + [Finished(op, |w.log|, doc, true)])
  {
    hide Step, Run;
    CallReaches(commit, w, p, op, n);
    var u := Run(commit, w, CallActions(p, op)[..n]);
    RunInTwo(commit, w, CallActions(p, op)[..n], [Fail(p), Release(p)]);
    assert Critical(PhaseOf(u, p)) && !PhaseOf(u, p).Unwinding?;
    FailAndRelease(commit, u, p);
  }

  /** A call that goes through returns, and is recorded as such. */
  lemma ReturningCall(commit: Committer, w: World, p: Pid, op: Op)
    requires w.holder.None? && PhaseOf(w, p).Idle? && commit(w.file, op).Ok?
    ensures var doc, v := commit(w.file, op).value, Run(commit, w, CallActions(p, op));
      Written(w, v, p, op, doc) && p !in v.temps && v.outcomes == w.outcomes + [Finished(op, |w.log|, doc, false)]
  {
    hide Step, Run;
    CallReaches(commit, w, p, op, 6);
    assert CallActions(p, op) == CallActions(p, op)[..6] + [Release(p)];
    RunOne(commit, w, CallActions(p, op)[..6], Release(p));
    ReleaseEnds(commit, Run(commit, w, CallActions(p, op)[..6]), p);
  }

  // ---------- nobody is locked out ----------

  /** What is left of a call, whatever it has done so far. */
  function Finishing(p: Pid): seq<Action> {
    [Load(p), Compute(p), Stage(p), Replace(p), Release(p)]
  }

  /** The lock is free, the process is done, and the others are where they were. */
  ghost predicate Frees(w: World, v: World, p: Pid) {
    v.holder.None? && PhaseOf(v, p).Idle? && forall q :: q != p ==> PhaseOf(v, q) == PhaseOf(w, q)
  }

  /** How far the call of a process is. */
  function Stages(ph: Phase): nat {
    match ph
    case Idle => 0
    case Waiting(_) => 1
    case Holding(_, _) => 2
    case Loaded(_, _, _) => 3
    case Computed(_, _, _) => 4
    case Staged(_, _, _) => 5
    case _ => 6
  }

  /** Still the holder, at least so far, and the others where they were. */
  ghost predicate Ahead(w: World, v: World, p: Pid, n: nat) {
    && Critical(PhaseOf(v, p)) && n <= Stages(PhaseOf(v, p)) && (PhaseOf(v, p).Staged? ==> p in v.temps)
    && forall q :: q != p ==> PhaseOf(v, q) == PhaseOf(w, q)
  }

  lemma GoesOn(commit: Committer, w: World, v: World, p: Pid, n: nat)
    requires n < 4 && Ahead(w, v, p, n + 2)
    ensures Ahead(w, Step(commit, v, Finishing(p)[n]), p, n + 3)
  {
    match n
    case 0 =>
    case 1 =>
    case 2 =>
    case _ =>
  }

  lemma {:induction false} GoesOnTo(commit: Committer, w: World, p: Pid, n: nat)
    requires n <= 4 && Ahead(w, w, p, 2)
    ensures Ahead(w, Run(commit, w, Finishing(p)[..n]), p, n + 2)
  {
    hide Step, Ahead;
    if n == 0 {
    } else {
      GoesOnTo(commit, w, p, n - 1);
      var all := Finishing(p);
      assert all[..n] == all[..n - 1] + [all[n - 1]];
      RunOne(commit, w, all[..n - 1], all[n - 1]);
      GoesOn(commit, w, Run(commit, w, all[..n - 1]), p, n - 1);
    }
  }

  lemma FinishingFrees(commit: Committer, w: World, p: Pid)
    requires Ahead(w, w, p, 2)
    ensures Frees(w, Run(commit, w, Finishing(p)), p)
  {
    hide Step, Run;
    GoesOnTo(commit, w, p, 4);
    assert Finishing(p) == Finishing(p)[..4] + [Release(p)];
    RunOne(commit, w, Finishing(p)[..4], Release(p));
    ReleaseEnds(commit, Run(commit, w, Finishing(p)[..4]), p);
  }

  lemma HolderIsAhead(commit: Committer, init: File, w: World, p: Pid)
    requires Inv(commit, init, w) && w.holder == Some(p)
    ensures Critical(PhaseOf(w, p)) && Ahead(w, w, p, 2)
  {
    hide Inv;
    Knows(commit, init, w, p);
  }

  lemma CrashFrees(commit: Committer, w: World, p: Pid)
    requires Critical(PhaseOf(w, p))
    ensures var v := Step(commit, w, Crash(p));
      Frees(w, v, p) && v.file == w.file && v.log == w.log && v.outcomes == w.outcomes && v.temps == w.temps
  {
  }

  /** In every reachable world the holder can free the lock by going on, by raising, or by crashing. */
  lemma HolderCanFree(commit: Committer, init: File, actions: seq<Action>, p: Pid)
    requires Run(commit, Begin(init), actions).holder == Some(p)
    ensures var w := Run(commit, Begin(init), actions);
      && Frees(w, Run(commit, w, Finishing(p)), p) && Frees(w, Run(commit, w, [Fail(p), Release(p)]), p)
      && Frees(w, Step(commit, w, Crash(p)), p)
      && Step(commit, w, Crash(p)).file == w.file && Step(commit, w, Crash(p)).log == w.log
      && Step(commit, w, Crash(p)).outcomes == w.outcomes && Step(commit, w, Crash(p)).temps == w.temps
  {
    hide Inv, Step, Run, Ahead;
    var w := Run(commit, Begin(init), actions);
    RunKeeps(commit, init, actions);
    HolderIsAhead(commit, init, w, p);
    FailAndRelease(commit, w, p);
    FinishingFrees(commit, w, p);
    CrashFrees(commit, w, p);
  }

  /** Only its own release or crash takes the lock from a process. */
  lemma OnlyHolderFrees(commit: Committer, init: File, actions: seq<Action>, a: Action)
    ensures var w := Run(commit, Begin(init), actions);
      w.holder.Some? && Step(commit, w, a).holder != w.holder ==>
        (a.Release? || a.Crash?) && w.holder == Some(a.pid) && Step(commit, w, a).holder.None?
  {
    var w := Run(commit, Begin(init), actions);
    RunKeeps(commit, init, actions);
    if !a.Read? {
      Knows(commit, init, w, a.pid);
    }
  }

  /** As soon as the lock is free, a waiting call gets it, with the next ticket. */
  lemma WaitingAcquires(commit: Committer, v: World, q: Pid)
    requires v.holder.None? && PhaseOf(v, q).Waiting?
    ensures var u := Step(commit, v, Acquire(q));
      && u.holder == Some(q) && PhaseOf(u, q) == Holding(PhaseOf(v, q).op, v.tickets) && u.tickets == v.tickets + 1
      && u.file == v.file && u.log == v.log
  {
  }

  /** So from every reachable world in which a call waits for another one, it gets the lock in the next step
      after that one has gone on, raised or crashed. */
  lemma WaitingGetsIn(commit: Committer, init: File, actions: seq<Action>, p: Pid, q: Pid)
    requires var w := Run(commit, Begin(init), actions); w.holder == Some(p) && PhaseOf(w, q).Waiting?
    ensures var w := Run(commit, Begin(init), actions);
      && Step(commit, Run(commit, w, Finishing(p)), Acquire(q)).holder == Some(q)
      && Step(commit, Run(commit, w, [Fail(p), Release(p)]), Acquire(q)).holder == Some(q)
      && Step(commit, Step(commit, w, Crash(p)), Acquire(q)).holder == Some(q)
  {
    var w := Run(commit, Begin(init), actions);
    RunKeeps(commit, init, actions);
    Knows(commit, init, w, p);
    Knows(commit, init, w, q);
    HolderCanFree(commit, init, actions, p);
    hide Run, Inv;
    WaitingAcquires(commit, Run(commit, w, Finishing(p)), q);
    WaitingAcquires(commit, Run(commit, w, [Fail(p), Release(p)]), q);
    WaitingAcquires(commit, Step(commit, w, Crash(p)), q);
  }

  /** A reader sees the file as it is, whoever holds the lock. */
  lemma ReaderSees(commit: Committer, w: World)
    ensures var v := Step(commit, w, Read);
      |v.seen| == |w.seen| + 1 && v.seen[|w.seen|].content == w.file && v == w.(seen := v.seen)
  {
  }
}
