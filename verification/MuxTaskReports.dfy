/** Address reports under interleaving: at most once between two forgettings, and never after a failed send. */
module MuxTaskReports {
  import opened Addresses
  import opened MuxState
  import opened ReportLog
  import opened MuxTasks
  import opened MuxTaskIndex

  predicate WorkerOnly(section: Section) {
    section.Idle? || section.Route? || section.RouteStun? || section.Seen? || section.Announce? || section.Mark?
  }

  ghost predicate WorkerAlone(s: State) {
    WORKER in s.tasks && forall t :: t in s.tasks && t != WORKER ==> !WorkerOnly(s.tasks[t].section)
  }

  /** What the worker knows about its own address while it reports it. */
  ghost predicate WorkerKnows(s: State)
    requires WORKER in s.tasks
  {
    var section := s.tasks[WORKER].section;
    && (section.Announce? ==> !Outstanding(s.trace.log, section.p.source))
    && (section.Mark? ==> Sent(section.a) in s.trace.log)
  }

  ghost predicate SetKnows(s: State)
    requires WORKER in s.tasks
  {
    && (forall a :: Outstanding(s.trace.log, a) ==> a in s.mux.newAddrs || s.tasks[WORKER].section == Mark(a))
    && (forall a :: a in s.mux.newAddrs ==> Sent(a) in s.trace.log)
  }

  ghost predicate Reporting(s: State) {
    WorkerAlone(s) && AtMostOnce(s.trace.log) && WorkerKnows(s) && SetKnows(s)
  }

  /** The worker's section after the step does not depend on what it knows. */
  ghost predicate Indifferent(s: State, n: State)
    requires WORKER in s.tasks && WORKER in n.tasks
  {
    || n.tasks[WORKER].section == s.tasks[WORKER].section
    || (!n.tasks[WORKER].section.Announce? && !n.tasks[WORKER].section.Mark? && !s.tasks[WORKER].section.Mark?)
  }

  lemma ReportFrame(s: State, n: State)
    requires Reporting(s) && WorkerAlone(n) && Indifferent(s, n)
    requires n.trace.log == s.trace.log && n.mux.newAddrs == s.mux.newAddrs
    ensures Reporting(n)
  {}

  /** Something is forgotten: reports become fewer. */
  lemma ForgetFrame(s: State, n: State, e: Event)
    requires Reporting(s) && WorkerAlone(n) && Indifferent(s, n) && !e.Sent?
    requires n.trace.log == s.trace.log + [e]
    requires forall a :: a in n.mux.newAddrs <==> a in s.mux.newAddrs && !Forgets(e, a)
    ensures Reporting(n)
  {
    AtMostOnceAfter(s.trace.log, e);
    forall a ensures Outstanding(n.trace.log, a) <==> !Forgets(e, a) && Outstanding(s.trace.log, a) {
      OutstandingAfter(s.trace.log, e, a);
    }
  }

  lemma SendKeepsReporting(s: State)
    requires Reporting(s) && Enabled(s, TrySend(true))
    ensures Reporting(Next(s, TrySend(true)))
  {
    var n := Next(s, TrySend(true));
    var a := s.tasks[WORKER].section.p.source;
    AtMostOnceAfter(s.trace.log, Sent(a));
    forall b ensures Outstanding(n.trace.log, b) <==> b == a || Outstanding(s.trace.log, b) {
      OutstandingAfter(s.trace.log, Sent(a), b);
    }
    assert n.trace.log[|s.trace.log|] == Sent(a);
    forall b | b in n.mux.newAddrs ensures Sent(b) in n.trace.log {
      assert Sent(b) in s.trace.log;
    }
  }

  /** A refused send marks nothing. */
  lemma RefusedSendMarksNothing(s: State)
    requires Reporting(s) && Enabled(s, TrySend(false))
    ensures Next(s, TrySend(false)).mux == s.mux && Next(s, TrySend(false)).trace == s.trace
    ensures Next(s, TrySend(false)).tasks[WORKER].section.Idle?
    ensures Reporting(Next(s, TrySend(false)))
  {
    ReportFrame(s, Next(s, TrySend(false)));
  }

  lemma OutsideKeepsReporting(s: State, step: Step)
    requires LocksOk(s) && Reporting(s) && Enabled(s, step) && !step.Finish? && !step.TrySend?
    ensures Reporting(Next(s, step))
  {
    var n := Next(s, step);
    assert s.nextTask !in s.tasks;
    assert WorkerAlone(n) && Indifferent(s, n);
    hide Next, Enabled;
    ReportFrame(s, n);
  }

  // ---- the sections ---------------------------------------------------------------

  lemma LeadWorker(m: Mux<ConnId>, task: Task, busy: bool)
    ensures WorkerOnly(Lead(m, task, busy)) ==> WorkerOnly(task.section)
    ensures Lead(m, task, busy).Announce? ==> task.section.Seen?
    ensures !Lead(m, task, busy).Mark?
    ensures task.section.Seen? && Lead(m, task, busy).Announce? ==>
      Lead(m, task, busy).p == task.section.p && task.section.p.source !in m.newAddrs
  {
    hide Announcement, LocalSegment;
  }

  lemma FinishMovesWorker(s: State, t: TaskId, localAddr: bool)
    requires LocksOk(s) && WorkerAlone(s) && Enabled(s, Finish(t, localAddr))
    ensures var n := Next(s, Finish(t, localAddr));
      && WorkerAlone(n)
      && (t != WORKER || (!s.tasks[t].section.Mark? && !n.tasks[t].section.Announce?) ==> Indifferent(s, n))
  {
    var n := Next(s, Finish(t, localAddr));
    FinishParts(s, t, localAddr);
    LeadWorker(s.mux, s.tasks[t], Busy(s, s.tasks[t].section));
    hide Next, Enabled, Lead, Effect;
  }

  /** Sections that touch neither the history nor the reported set. */
  predicate Silent(section: Section) {
    !section.RegForget? && !section.CloseNew? && !section.Mark?
  }

  lemma SilentEffect(m: Mux<ConnId>, task: Task, busy: bool, made: ConnId, localAddr: bool)
    requires Silent(task.section)
    ensures Effect(m, task, busy, made, localAddr).newAddrs == m.newAddrs
  {
    hide Effect;
    if task.section.Seen? {
      SeenEffect(m, task, busy, made, localAddr);
    } else if Quiet(task.section) {
      FlagEffect(m, task, busy, made, localAddr);
    } else if task.section.GetInsert? || task.section.RegEntry? {
      InsertionEffect(m, task, busy, made, localAddr);
    } else if task.section.RemoveTake? || task.section.RemoveEntries? {
      RemovalEffect(m, task, busy, made, localAddr);
    } else {
      RestEffect(m, task, busy, made, localAddr);
    }
  }

  lemma SeenEffect(m: Mux<ConnId>, task: Task, busy: bool, made: ConnId, localAddr: bool)
    requires task.section.Seen?
    ensures Effect(m, task, busy, made, localAddr).newAddrs == m.newAddrs
  {
    hide Announcement;
  }

  lemma InsertionEffect(m: Mux<ConnId>, task: Task, busy: bool, made: ConnId, localAddr: bool)
    requires task.section.GetInsert? || task.section.RegEntry?
    ensures Effect(m, task, busy, made, localAddr).newAddrs == m.newAddrs
  {}

  lemma RemovalEffect(m: Mux<ConnId>, task: Task, busy: bool, made: ConnId, localAddr: bool)
    requires task.section.RemoveTake? || task.section.RemoveEntries?
    ensures Effect(m, task, busy, made, localAddr).newAddrs == m.newAddrs
  {}

  lemma RestEffect(m: Mux<ConnId>, task: Task, busy: bool, made: ConnId, localAddr: bool)
    requires Silent(task.section) && !Quiet(task.section) && !task.section.GetInsert? && !task.section.RegEntry?
    requires !task.section.RemoveTake? && !task.section.RemoveEntries?
    ensures Effect(m, task, busy, made, localAddr).newAddrs == m.newAddrs
  {}

  lemma SilentLog(s: State, t: TaskId, localAddr: bool)
    requires Enabled(s, Finish(t, localAddr)) && Silent(s.tasks[t].section)
    ensures Next(s, Finish(t, localAddr)).trace.log == s.trace.log
  {
    hide Effect, Lead, PendingAfter;
  }

  lemma SilentKeepsReporting(s: State, t: TaskId, localAddr: bool)
    requires LocksOk(s) && Reporting(s) && Enabled(s, Finish(t, localAddr)) && Silent(s.tasks[t].section)
    ensures Reporting(Next(s, Finish(t, localAddr)))
  {
    var n := Next(s, Finish(t, localAddr));
    FinishMovesWorker(s, t, localAddr);
    SilentEffect(s.mux, s.tasks[t], Busy(s, s.tasks[t].section), s.nextConn, localAddr);
    LeadWorker(s.mux, s.tasks[t], Busy(s, s.tasks[t].section));
    FinishParts(s, t, localAddr);
    SilentLog(s, t, localAddr);
    hide Next, Enabled, Effect, Lead;
    if t == WORKER && n.tasks[t].section.Announce? {
      assert !Outstanding(s.trace.log, s.tasks[t].section.p.source);
    } else {
      ReportFrame(s, n);
    }
  }

  lemma MarkKeepsReporting(s: State, localAddr: bool)
    requires LocksOk(s) && Reporting(s) && Enabled(s, Finish(WORKER, localAddr)) && s.tasks[WORKER].section.Mark?
    ensures Reporting(Next(s, Finish(WORKER, localAddr)))
  {
    var n := Next(s, Finish(WORKER, localAddr));
    FinishMovesWorker(s, WORKER, localAddr);
    FinishParts(s, WORKER, localAddr);
    assert n.mux == MarkReported(s.mux, s.tasks[WORKER].section.a) && n.trace == s.trace;
    hide Next, Enabled;
  }

  lemma ForgetKeepsReporting(s: State, t: TaskId, localAddr: bool)
    requires LocksOk(s) && Reporting(s) && Enabled(s, Finish(t, localAddr))
    requires s.tasks[t].section.RegForget? || s.tasks[t].section.CloseNew?
    ensures Reporting(Next(s, Finish(t, localAddr)))
  {
    var n := Next(s, Finish(t, localAddr));
    FinishMovesWorker(s, t, localAddr);
    FinishParts(s, t, localAddr);
    var e := if s.tasks[t].section.RegForget? then Forgot(s.tasks[t].section.a) else Cleared;
    assert n.trace.log == s.trace.log + [e];
    assert forall a :: a in n.mux.newAddrs <==> a in s.mux.newAddrs && !Forgets(e, a);
    hide Next, Enabled;
    ForgetFrame(s, n, e);
  }

  lemma StepKeepsReporting(s: State, step: Step)
    requires LocksOk(s) && Reporting(s) && Enabled(s, step)
    ensures Reporting(Next(s, step))
  {
    hide Next, LocksOk, WorkerKnows, SetKnows;
    match step
    case TrySend(accepted) => if accepted { SendKeepsReporting(s); } else { RefusedSendMarksNothing(s); }
    case Finish(t, localAddr) =>
      if Silent(s.tasks[t].section) {
        SilentKeepsReporting(s, t, localAddr);
      } else if s.tasks[t].section.Mark? {
        MarkKeepsReporting(s, localAddr);
      } else {
        ForgetKeepsReporting(s, t, localAddr);
      }
    case _ => OutsideKeepsReporting(s, step);
  }

  lemma {:induction false} RunReporting(steps: seq<Step>, states: seq<State>, i: nat)
    requires Run(steps, states) && i <= |steps|
    ensures Reporting(states[i])
  {
    if i > 0 {
      RunReporting(steps, states, i - 1);
      RunLocks(steps, states, i - 1);
      assert Happens(steps, states, i - 1);
      hide Next, Enabled, LocksOk, Reporting, Run;
      StepKeepsReporting(states[i - 1], steps[i - 1]);
    }
  }

  /** In every interleaving: between two successful sends of one address a registration or a close
      made the mux forget it; an outstanding report is in the set or about to be; and whatever is in
      the set was sent. */
  lemma ReportedAtMostOnce(steps: seq<Step>, states: seq<State>, i: nat, a: SocketAddr)
    requires Run(steps, states) && i <= |steps|
    ensures AtMostOnce(states[i].trace.log)
    ensures WORKER in states[i].tasks
    ensures SentSinceForgotten(states[i].trace.log, a) ==>
      a in states[i].mux.newAddrs || states[i].tasks[WORKER].section == Mark(a)
    ensures a in states[i].mux.newAddrs ==> Sent(a) in states[i].trace.log
  {
    RunReporting(steps, states, i);
    OutstandingMeans(states[i].trace.log, a);
  }

  // ---- only an accepted send marks ----------------------------------------------------

  /** At step `j` the channel accepts the worker's report of `a`. */
  ghost predicate Accepts(steps: seq<Step>, states: seq<State>, j: nat, a: SocketAddr) {
    && j < |steps| && j < |states| && steps[j] == TrySend(true) && WORKER in states[j].tasks
    && states[j].tasks[WORKER].section.Announce? && states[j].tasks[WORKER].section.p.source == a
  }

  /** The worker is about to mark `a`. */
  ghost predicate Marking(s: State, a: SocketAddr) {
    WORKER in s.tasks && s.tasks[WORKER].section == Mark(a)
  }

  lemma BeginsMarking(s: State, step: Step, a: SocketAddr)
    requires LocksOk(s) && Enabled(s, step) && Marking(Next(s, step), a)
    ensures Marking(s, a) ||
      (step == TrySend(true) && s.tasks[WORKER].section.Announce? && s.tasks[WORKER].section.p.source == a)
  {
    if step.Finish? {
      FinishParts(s, step.t, step.localAddr);
      LeadWorker(s.mux, s.tasks[step.t], Busy(s, s.tasks[step.t].section));
      hide Next, Enabled, Lead, Effect;
    }
  }

  lemma MarkingStays(s: State, step: Step, a: SocketAddr)
    requires Enabled(s, step) && Marking(s, a)
    ensures !step.TrySend?
  {}

  lemma {:induction false} MarkingFollowsSend(steps: seq<Step>, states: seq<State>, i: nat, a: SocketAddr)
    returns (j: nat)
    requires Run(steps, states) && i <= |steps| && Marking(states[i], a)
    ensures j < i && Accepts(steps, states, j, a)
    ensures forall k :: j < k <= i ==> Marking(states[k], a)
  {
    assert i > 0;
    RunLocks(steps, states, i - 1);
    assert Happens(steps, states, i - 1);
    BeginsMarking(states[i - 1], steps[i - 1], a);
    hide Next, Enabled, LocksOk;
    if Marking(states[i - 1], a) {
      j := MarkingFollowsSend(steps, states, i - 1, a);
    } else {
      j := i - 1;
    }
  }

  lemma SetGrows(s: State, step: Step, a: SocketAddr)
    requires LocksOk(s) && WorkerAlone(s) && Enabled(s, step)
    requires a !in s.mux.newAddrs && a in Next(s, step).mux.newAddrs
    ensures step.Finish? && step.t == WORKER && Marking(s, a)
  {
    if step.Finish? {
      SectionGrows(s, step.t, step.localAddr, a);
    }
  }

  lemma SectionGrows(s: State, t: TaskId, localAddr: bool, a: SocketAddr)
    requires LocksOk(s) && WorkerAlone(s) && Enabled(s, Finish(t, localAddr))
    requires a !in s.mux.newAddrs && a in Next(s, Finish(t, localAddr)).mux.newAddrs
    ensures t == WORKER && Marking(s, a)
  {
    var task, busy := s.tasks[t], Busy(s, s.tasks[t].section);
    FinishParts(s, t, localAddr);
    hide Next, LocksOk, Enabled;
    if Silent(task.section) {
      SilentEffect(s.mux, task, busy, s.nextConn, localAddr);
    } else {
      LoudEffect(s.mux, task, busy, s.nextConn, localAddr, a);
    }
    hide Effect;
  }

  lemma LoudEffect(m: Mux<ConnId>, task: Task, busy: bool, made: ConnId, localAddr: bool, a: SocketAddr)
    requires !Silent(task.section) && a in Effect(m, task, busy, made, localAddr).newAddrs && a !in m.newAddrs
    ensures task.section == Mark(a)
  {}

  /** In every interleaving an address enters the reported set only where the worker marks it, the latest send
      before that was the worker's report of this very address, and the channel accepted it. */
  lemma OnlyAcceptedSendsMark(steps: seq<Step>, states: seq<State>, i: nat, a: SocketAddr) returns (j: nat)
    requires Run(steps, states) && i < |steps|
    requires a !in states[i].mux.newAddrs && a in states[i + 1].mux.newAddrs
    ensures steps[i].Finish? && steps[i].t == WORKER && Marking(states[i], a)
    ensures j < i && Accepts(steps, states, j, a)
    ensures forall k :: j < k <= i ==> !steps[k].TrySend?
  {
    RunLocks(steps, states, i);
    RunReporting(steps, states, i);
    assert Happens(steps, states, i);
    SetGrows(states[i], steps[i], a);
    j := MarkingFollowsSend(steps, states, i, a);
    forall k | j < k <= i ensures !steps[k].TrySend? {
      assert Happens(steps, states, k);
      MarkingStays(states[k], steps[k], a);
    }
    hide Next, LocksOk, Reporting;
  }
}
