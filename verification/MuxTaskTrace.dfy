/**
 The history variables of the interleaved mux, read off the steps alone; and with them what survives a drain
 and which connections were closed, said of steps only.
*/
module MuxTaskTrace {
  import opened Addresses
  import opened MuxState
  import opened ReportLog
  import opened MuxTasks
  import opened MuxTaskIndex
  import opened MuxTaskDrain
  import opened MuxTaskWatch
  import opened MuxTaskConns
  import MuxTaskReports

  /** The step finishes the section. */
  ghost predicate FinishesNow(s: State, step: Step, section: Section) {
    step.Finish? && step.t in s.tasks && s.tasks[step.t].section == section
  }

  ghost predicate Finishes(steps: seq<Step>, states: seq<State>, k: nat, section: Section) {
    k < |steps| && k < |states| && FinishesNow(states[k], steps[k], section)
  }

  /** The step of `close` that finds the close sender and takes it. */
  ghost predicate Flips(steps: seq<Step>, states: seq<State>, f: nat) {
    Finishes(steps, states, f, CloseTake) && !states[f].mux.closed
  }

  ghost function GetsInFlight(s: State): set<TaskId> {
    set t | t in s.tasks && s.tasks[t].section.GetInsert?
  }

  ghost function RegistrationsInFlight(s: State): set<TaskId> {
    set t | t in s.tasks && s.tasks[t].section.RegEntry?
  }

  /** What a step adds to the history of reports. */
  ghost function Logged(s: State, step: Step): seq<Event> {
    match step
    case TrySend(true) =>
      if WORKER in s.tasks && s.tasks[WORKER].section.Announce? then [Sent(s.tasks[WORKER].section.p.source)] else []
    case Finish(t, _) =>
      if t !in s.tasks then []
      else if s.tasks[t].section.RegForget? then [Forgot(s.tasks[t].section.a)]
      else if s.tasks[t].section.CloseNew? then [Cleared]
      else []
    case _ => []
  }

  /** The history of reports of the first `k` steps. */
  ghost function LogOf(steps: seq<Step>, states: seq<State>, k: nat): seq<Event>
    requires k <= |steps| && k <= |states|
  {
    if k == 0 then [] else LogOf(steps, states, k - 1) + Logged(states[k - 1], steps[k - 1])
  }

  // ---- one step ---------------------------------------------------------------

  ghost predicate TraceStep(s: State, step: Step, n: State) {
    && n.trace.log == s.trace.log + Logged(s, step)
    && (n.trace.connsDrained <==> s.trace.connsDrained || FinishesNow(s, step, CloseConns))
    && (n.trace.mapDrained <==> s.trace.mapDrained || FinishesNow(s, step, CloseMap))
    && (n.mux.closed <==> s.mux.closed || FinishesNow(s, step, CloseTake))
    && (if FinishesNow(s, step, CloseTake) && !s.mux.closed
        then n.trace.lateGets == GetsInFlight(s) && n.trace.lateRegs == RegistrationsInFlight(s)
        else n.trace.lateGets == s.trace.lateGets && n.trace.lateRegs == s.trace.lateRegs)
  }

  lemma EffectCloses(m: Mux<ConnId>, task: Task, busy: bool, made: ConnId, localAddr: bool)
    ensures Effect(m, task, busy, made, localAddr).closed <==> m.closed || task.section.CloseTake?
  {
    hide Effect;
    if task.section.CloseTake? {
      TakeCloses(m, task, busy, made, localAddr);
    } else if task.section.GetInsert? || task.section.RegEntry? {
      InsertionKeepsFlag(m, task, busy, made, localAddr);
    } else {
      EffectShrinks(m, task, busy, made, localAddr);
    }
  }

  lemma TakeCloses(m: Mux<ConnId>, task: Task, busy: bool, made: ConnId, localAddr: bool)
    requires task.section.CloseTake?
    ensures Effect(m, task, busy, made, localAddr).closed
  {}

  lemma InsertionKeepsFlag(m: Mux<ConnId>, task: Task, busy: bool, made: ConnId, localAddr: bool)
    requires task.section.GetInsert? || task.section.RegEntry?
    ensures Effect(m, task, busy, made, localAddr).closed == m.closed
  {}

  lemma InFlight(s: State)
    ensures TasksIn(s, (x: Section) => x.GetInsert?) == GetsInFlight(s)
    ensures TasksIn(s, (x: Section) => x.RegEntry?) == RegistrationsInFlight(s)
  {}

  lemma LateAfter(s: State, t: TaskId, n: Mux<ConnId>, localAddr: bool)
    requires t in s.tasks
    ensures var r := TraceAfter(s, t, n);
      if FinishesNow(s, Finish(t, localAddr), CloseTake) && !s.mux.closed
      then r.lateGets == GetsInFlight(s) && r.lateRegs == RegistrationsInFlight(s)
      else r.lateGets == s.trace.lateGets && r.lateRegs == s.trace.lateRegs
  {
    InFlight(s);
    hide TasksIn, GetsInFlight, RegistrationsInFlight;
  }

  lemma LogAfter(s: State, t: TaskId, n: Mux<ConnId>, localAddr: bool)
    requires t in s.tasks
    ensures var r, step := TraceAfter(s, t, n), Finish(t, localAddr);
      && r.log == s.trace.log + Logged(s, step)
      && (r.connsDrained <==> s.trace.connsDrained || FinishesNow(s, step, CloseConns))
      && (r.mapDrained <==> s.trace.mapDrained || FinishesNow(s, step, CloseMap))
  {
    hide TasksIn;
  }

  lemma FinishTraces(s: State, t: TaskId, localAddr: bool)
    requires Enabled(s, Finish(t, localAddr))
    ensures TraceStep(s, Finish(t, localAddr), Next(s, Finish(t, localAddr)))
  {
    var n := Next(s, Finish(t, localAddr));
    EffectCloses(s.mux, s.tasks[t], Busy(s, s.tasks[t].section), s.nextConn, localAddr);
    LateAfter(s, t, n.mux, localAddr);
    LogAfter(s, t, n.mux, localAddr);
    hide Effect, Lead, PendingAfter, TraceAfter, Logged, GetsInFlight, RegistrationsInFlight;
    assert n.trace == TraceAfter(s, t, n.mux);
    assert n.mux == Effect(s.mux, s.tasks[t], Busy(s, s.tasks[t].section), s.nextConn, localAddr);
    hide Next, Enabled;
  }

  lemma OtherTraces(s: State, step: Step)
    requires Enabled(s, step) && !step.Finish?
    ensures TraceStep(s, step, Next(s, step))
  {
    var n := Next(s, step);
    assert n.trace == s.trace.(log := s.trace.log + Logged(s, step)) && n.mux.closed == s.mux.closed;
    hide Next, Enabled;
  }

  lemma RunTraces(steps: seq<Step>, states: seq<State>, i: nat)
    requires Run(steps, states) && i < |steps|
    ensures TraceStep(states[i], steps[i], states[i + 1])
  {
    assert Happens(steps, states, i);
    hide Run, TraceStep, Next, Enabled;
    if steps[i].Finish? {
      FinishTraces(states[i], steps[i].t, steps[i].localAddr);
    } else {
      OtherTraces(states[i], steps[i]);
    }
  }

  // ---- runs ------------------------------------------------------------------------

  /** The history of reports is that of the steps. */
  lemma {:induction false} LogExactly(steps: seq<Step>, states: seq<State>, i: nat)
    requires Run(steps, states) && i <= |steps|
    ensures states[i].trace.log == LogOf(steps, states, i)
  {
    if i > 0 {
      LogExactly(steps, states, i - 1);
      RunTraces(steps, states, i - 1);
      hide Run, Logged;
    }
  }

  /** Some step before `i` finishes the section. */
  ghost predicate Ever(steps: seq<Step>, states: seq<State>, i: nat, section: Section) {
    exists k: nat :: k < i && Finishes(steps, states, k, section)
  }

  lemma EverNext(steps: seq<Step>, states: seq<State>, i: nat, section: Section)
    requires i < |steps| && i < |states|
    ensures Ever(steps, states, i + 1, section)
      <==> Ever(steps, states, i, section) || FinishesNow(states[i], steps[i], section)
  {
    assert Finishes(steps, states, i, section) <==> FinishesNow(states[i], steps[i], section);
    hide Finishes, FinishesNow;
  }

  /** The two drains are recorded exactly when a close finished them, and the flag is up exactly when one took
      the close sender. */
  lemma {:induction false} DrainedExactly(steps: seq<Step>, states: seq<State>, i: nat)
    requires Run(steps, states) && i <= |steps|
    ensures states[i].trace.connsDrained <==> Ever(steps, states, i, CloseConns)
    ensures states[i].trace.mapDrained <==> Ever(steps, states, i, CloseMap)
    ensures states[i].mux.closed <==> Ever(steps, states, i, CloseTake)
  {
    if i > 0 {
      DrainedExactly(steps, states, i - 1);
      RunTraces(steps, states, i - 1);
      EverNext(steps, states, i - 1, CloseConns);
      EverNext(steps, states, i - 1, CloseMap);
      EverNext(steps, states, i - 1, CloseTake);
      hide Run, Ever, FinishesNow, Logged;
    }
  }

  /** The calls recorded as in flight are those at their insertion when the flag flipped. */
  lemma {:induction false} LateExactly(steps: seq<Step>, states: seq<State>, i: nat) returns (f: nat)
    requires Run(steps, states) && i <= |steps| && states[i].mux.closed
    ensures f < i && Flips(steps, states, f)
    ensures states[i].trace.lateGets == GetsInFlight(states[f])
    ensures states[i].trace.lateRegs == RegistrationsInFlight(states[f])
  {
    assert i > 0;
    assert |states| == |steps| + 1;
    hide Run;
    RunTraces(steps, states, i - 1);
    if states[i - 1].mux.closed {
      f := LateExactly(steps, states, i - 1);
    } else {
      f := i - 1;
    }
    hide GetsInFlight, RegistrationsInFlight;
  }

  /** In every interleaving two successful sends of one address have a registration of it or a clearing close
      between them: said of the steps alone. */
  lemma ReportsApart(steps: seq<Step>, states: seq<State>, i: nat)
    requires Run(steps, states) && i <= |steps|
    ensures AtMostOnce(LogOf(steps, states, i))
  {
    LogExactly(steps, states, i);
    MuxTaskReports.ReportedAtMostOnce(steps, states, i, SocketAddr(V4(0), 0));
  }

  // ---- what survives a drain ---------------------------------------------------------

  /** Once a close has drained `conns`, there are never more connections in it than there were `get_conn` calls at
      their insertion when the flag flipped; and the same for `address_map`. */
  lemma SurvivorsBounded(steps: seq<Step>, states: seq<State>, i: nat) returns (f: nat)
    requires Run(steps, states) && i <= |steps|
    requires Ever(steps, states, i, CloseConns)
    ensures f < i && Flips(steps, states, f)
    ensures |states[i].mux.conns| <= |GetsInFlight(states[f])|
    ensures Ever(steps, states, i, CloseMap) ==>
      |states[i].mux.addressMap| <= |RegistrationsInFlight(states[f])|
  {
    DrainedExactly(steps, states, i);
    RunTraced(steps, states, i);
    assert ConnsTraced(states[i]);
    hide Run, Ever, Flips, GetsInFlight, RegistrationsInFlight;
    f := LateExactly(steps, states, i);
    var _ := ConnsAfterDrain(steps, states, i, "");
    if states[i].trace.mapDrained {
      var _ := EntriesAfterDrain(steps, states, i, SocketAddr(V4(0), 0));
    }
    hide Traced;
  }

  lemma NewByInsert(s: State, step: Step, u: Ufrag)
    requires LocksOk(s) && Enabled(s, step) && u !in s.mux.conns && u in Next(s, step).mux.conns
    ensures FinishesNow(s, step, GetInsert(u))
  {
    if step.Finish? {
      hide TraceAfter, PendingAfter, Effect, Lead;
      var task, busy := s.tasks[step.t], Busy(s, s.tasks[step.t].section);
      var n := Next(s, step);
      assert n.mux == Effect(s.mux, task, busy, s.nextConn, step.localAddr);
      hide Next, Enabled, LocksOk;
      EffectConns(s.mux, task, busy, s.nextConn, step.localAddr);
      if task.section.GetInsert? {
        InsertConns(s.mux, task, busy, s.nextConn, step.localAddr);
      }
    } else {
      OutsideParts(s, step);
    }
    hide Next, Enabled, LocksOk;
  }

  /** A connection that is mapped after a drain was put there after it by a `get_conn` that was at its insertion when
      the flag flipped, having read it as false before. */
  lemma SurvivorWasInFlight(steps: seq<Step>, states: seq<State>, k: nat, i: nat, u: Ufrag)
    returns (r: nat, f: nat, p: nat)
    requires Run(steps, states) && k < i <= |steps| && Finishes(steps, states, k, CloseConns)
    requires u in states[i].mux.conns
    ensures r < f < k < p < i && Flips(steps, states, f) && Finishes(steps, states, p, GetInsert(u))
    ensures steps[p].t in GetsInFlight(states[f]) && ReadsOpen(states, steps, r, steps[p].t)
  {
    assert |states| == |steps| + 1;
    hide Run;
    p := LastMapped(steps, states, i, u);
    RunConns(steps, states, k);
    assert TakenAt(steps, states, k, u) && u !in states[k + 1].mux.conns;
    r, f := InsertedLate(steps, states, k, p, u);
  }

  lemma InsertedLate(steps: seq<Step>, states: seq<State>, k: nat, p: nat, u: Ufrag) returns (r: nat, f: nat)
    requires Run(steps, states) && k < p < |steps| && Finishes(steps, states, k, CloseConns)
    requires MapsNew(steps, states, p, u)
    ensures r < f < k && Flips(steps, states, f) && Finishes(steps, states, p, GetInsert(u))
    ensures steps[p].t in GetsInFlight(states[f]) && ReadsOpen(states, steps, r, steps[p].t)
  {
    RunLocks(steps, states, p);
    assert Happens(steps, states, p);
    NewByInsert(states[p], steps[p], u);
    RunTraced(steps, states, k);
    assert states[k].mux.closed;
    hide Run, Next, Enabled, LocksOk;
    ClosedFrom(steps, states, k, p);
    RunTraced(steps, states, p);
    assert steps[p].t in states[p].trace.lateGets;
    f := LateExactly(steps, states, k);
    r := InsideReadOpen(steps, states, f, steps[p].t);
  }

  lemma ClosedNext(steps: seq<Step>, states: seq<State>, i: nat)
    requires Run(steps, states) && i < |steps| && states[i].mux.closed
    ensures states[i + 1].mux.closed && states[i + 1].trace.lateGets == states[i].trace.lateGets
    ensures states[i + 1].trace.lateRegs == states[i].trace.lateRegs
  {
    RunTraces(steps, states, i);
    hide Run, Logged, FinishesNow;
  }

  lemma {:induction false} ClosedFrom(steps: seq<Step>, states: seq<State>, k: nat, i: nat)
    requires Run(steps, states) && k <= i <= |steps| && states[k].mux.closed
    ensures states[i].mux.closed && states[i].trace.lateGets == states[k].trace.lateGets
    ensures states[i].trace.lateRegs == states[k].trace.lateRegs
    decreases i
  {
    if k < i {
      ClosedFrom(steps, states, k, i - 1);
      ClosedNext(steps, states, i - 1);
    }
    hide Run, Next, Enabled;
  }

  lemma EntryByRegistration(m: Mux<ConnId>, task: Task, busy: bool, made: ConnId, localAddr: bool, a: SocketAddr)
    requires a !in m.addressMap && a in Effect(m, task, busy, made, localAddr).addressMap
    ensures task.section.RegEntry? && task.section.a == a
  {
    if task.section.RegEntry? {
      hide Displaces;
    } else {
      hide Effect;
      if task.section.GetInsert? {
        InsertKeepsEntries(m, task, busy, made, localAddr);
      } else if Quiet(task.section) {
        QuietEffect(m, task, busy, made, localAddr);
      } else {
        EffectShrinks(m, task, busy, made, localAddr);
      }
    }
  }

  lemma InsertKeepsEntries(m: Mux<ConnId>, task: Task, busy: bool, made: ConnId, localAddr: bool)
    requires task.section.GetInsert?
    ensures Effect(m, task, busy, made, localAddr).addressMap == m.addressMap
  {}

  /** The step finishes the entry section of a registration of `a`. */
  ghost predicate RegistersNow(s: State, step: Step, a: SocketAddr) {
    step.Finish? && step.t in s.tasks && s.tasks[step.t].section.RegEntry? && s.tasks[step.t].section.a == a
  }

  lemma NewEntryByRegistration(s: State, step: Step, a: SocketAddr)
    requires LocksOk(s) && Enabled(s, step) && a !in s.mux.addressMap && a in Next(s, step).mux.addressMap
    ensures RegistersNow(s, step, a)
  {
    if step.Finish? {
      hide TraceAfter, PendingAfter, Effect, Lead;
      var task, busy := s.tasks[step.t], Busy(s, s.tasks[step.t].section);
      assert Next(s, step).mux == Effect(s.mux, task, busy, s.nextConn, step.localAddr);
      EntryByRegistration(s.mux, task, busy, s.nextConn, step.localAddr, a);
    } else {
      OutsideParts(s, step);
    }
    hide Next, Enabled, LocksOk;
  }

  lemma {:induction false} LastEntered(steps: seq<Step>, states: seq<State>, k: nat, i: nat, a: SocketAddr)
    returns (p: nat)
    requires Run(steps, states) && k <= i <= |steps| && a !in states[k].mux.addressMap && a in states[i].mux.addressMap
    ensures k <= p < i && RegistersNow(states[p], steps[p], a)
    decreases i
  {
    assert |states| == |steps| + 1;
    if a in states[i - 1].mux.addressMap {
      p := LastEntered(steps, states, k, i - 1, a);
    } else {
      EnteredAt(steps, states, i - 1, a);
      p := i - 1;
    }
    hide Run, RegistersNow, Next, Enabled;
  }

  lemma EnteredAt(steps: seq<Step>, states: seq<State>, i: nat, a: SocketAddr)
    requires Run(steps, states) && i < |steps| && a !in states[i].mux.addressMap && a in states[i + 1].mux.addressMap
    ensures RegistersNow(states[i], steps[i], a)
  {
    RunLocks(steps, states, i);
    assert Happens(steps, states, i);
    NewEntryByRegistration(states[i], steps[i], a);
    hide Next, Enabled, LocksOk;
  }

  lemma MapEmptied(steps: seq<Step>, states: seq<State>, k: nat)
    requires Run(steps, states) && Finishes(steps, states, k, CloseMap)
    ensures k < |steps| && states[k + 1].mux.addressMap == map[]
  {
    var s, step := states[k], steps[k];
    assert Happens(steps, states, k);
    hide TraceAfter, PendingAfter, Effect, Lead;
    var task, busy := s.tasks[step.t], Busy(s, s.tasks[step.t].section);
    assert Next(s, step).mux == Effect(s.mux, task, busy, s.nextConn, step.localAddr);
    DrainShrinks(s.mux, task, busy, s.nextConn, step.localAddr);
    hide Next, Enabled;
  }

  /** The same for the entries and the registrations. */
  lemma EntryWasInFlight(steps: seq<Step>, states: seq<State>, k: nat, i: nat, a: SocketAddr)
    returns (r: nat, f: nat, p: nat)
    requires Run(steps, states) && k < i <= |steps| && Finishes(steps, states, k, CloseMap)
    requires a in states[i].mux.addressMap
    ensures r < f < k < p < i && Flips(steps, states, f) && RegistersNow(states[p], steps[p], a)
    ensures steps[p].t in RegistrationsInFlight(states[f]) && ReadsOpen(states, steps, r, steps[p].t)
  {
    assert |states| == |steps| + 1;
    MapEmptied(steps, states, k);
    p := LastEntered(steps, states, k + 1, i, a);
    RunTraced(steps, states, k);
    assert states[k].mux.closed;
    hide Run;
    ClosedFrom(steps, states, k, p);
    RunTraced(steps, states, p);
    assert steps[p].t in states[p].trace.lateRegs;
    f := LateExactly(steps, states, k);
    r := InsideReadOpen(steps, states, f, steps[p].t);
  }

  // ---- what the mux closes -------------------------------------------------------------

  /** The step closes `c`: its owner does, or a close drains it. */
  ghost predicate ShutsNow(s: State, step: Step, c: ConnId) {
    step == Shut(c) || (FinishesNow(s, step, CloseConns) && exists u :: Mapped(s, u, c))
  }

  lemma EffectShuts(m: Mux<ConnId>, task: Task, busy: bool, made: ConnId, localAddr: bool)
    ensures Effect(m, task, busy, made, localAddr).shut ==
      if task.section.CloseConns? then m.shut + m.conns.Values else m.shut
  {
    hide Effect;
    if task.section.CloseConns? || task.section.CloseMap? {
      DrainShuts(m, task, busy, made, localAddr);
    } else if task.section.GetInsert? || task.section.RegEntry? {
      InsertionKeepsShut(m, task, busy, made, localAddr);
    } else if task.section.RemoveTake? || task.section.RemoveEntries? {
      RemovalShrinks(m, task, busy, made, localAddr);
    } else if Quiet(task.section) {
      QuietKeepsShut(m, task, busy, made, localAddr);
    } else {
      RestShrinks(m, task, busy, made, localAddr);
    }
  }

  lemma DrainShuts(m: Mux<ConnId>, task: Task, busy: bool, made: ConnId, localAddr: bool)
    requires task.section.CloseConns? || task.section.CloseMap?
    ensures Effect(m, task, busy, made, localAddr).shut ==
      if task.section.CloseConns? then m.shut + m.conns.Values else m.shut
  {}

  lemma InsertionKeepsShut(m: Mux<ConnId>, task: Task, busy: bool, made: ConnId, localAddr: bool)
    requires task.section.GetInsert? || task.section.RegEntry?
    ensures Effect(m, task, busy, made, localAddr).shut == m.shut
  {}

  lemma QuietKeepsShut(m: Mux<ConnId>, task: Task, busy: bool, made: ConnId, localAddr: bool)
    requires Quiet(task.section)
    ensures Effect(m, task, busy, made, localAddr).shut == m.shut
  {
    hide Effect;
    if task.section.RegForget? || task.section.Mark? || task.section.CloseNew? || task.section.Seen? {
      ReportEffect(m, task, busy, made, localAddr);
    } else {
      FlagEffect(m, task, busy, made, localAddr);
    }
  }

  lemma MappedValues(s: State, c: ConnId)
    ensures c in s.mux.conns.Values <==> exists u :: Mapped(s, u, c)
  {
    if c in s.mux.conns.Values {
      var u :| u in s.mux.conns && s.mux.conns[u] == c;
      assert Mapped(s, u, c);
    }
  }

  lemma StepShuts(s: State, step: Step, c: ConnId)
    requires Enabled(s, step)
    ensures c in Next(s, step).mux.shut <==> c in s.mux.shut || ShutsNow(s, step, c)
  {
    if step.Finish? {
      var task := s.tasks[step.t];
      EffectShuts(s.mux, task, Busy(s, task.section), s.nextConn, step.localAddr);
      hide Effect, Lead, PendingAfter, TraceAfter;
      assert Next(s, step).mux == Effect(s.mux, task, Busy(s, task.section), s.nextConn, step.localAddr);
      MappedValues(s, c);
    } else {
      assert Next(s, step).mux.shut == if step.Shut? then s.mux.shut + {step.c} else s.mux.shut;
    }
    hide Next, Enabled;
  }

  ghost predicate ShutsAt(steps: seq<Step>, states: seq<State>, k: nat, c: ConnId) {
    k < |steps| && k < |states| && ShutsNow(states[k], steps[k], c)
  }

  /** In every interleaving the closed connections are exactly those that their owner closed or a close drained. */
  lemma {:induction false} ShutExactly(steps: seq<Step>, states: seq<State>, i: nat, c: ConnId)
    requires Run(steps, states) && i <= |steps|
    ensures c in states[i].mux.shut <==> exists k: nat :: k < i && ShutsAt(steps, states, k, c)
  {
    if i > 0 {
      ShutExactly(steps, states, i - 1, c);
      assert Happens(steps, states, i - 1);
      StepShuts(states[i - 1], steps[i - 1], c);
      assert ShutsAt(steps, states, i - 1, c) <==> ShutsNow(states[i - 1], steps[i - 1], c);
      hide Run, Next, Enabled, ShutsAt, ShutsNow;
    }
  }

  /** So the watcher of a connection can wake, for as long as it watches, exactly once the owner has closed the
      connection or a close has drained it. */
  lemma WakesWhenShut(steps: seq<Step>, states: seq<State>, i: nat, c: ConnId, t: TaskId)
    requires Run(steps, states) && i <= |steps| && Watching(states[i], t, c)
    ensures Enabled(states[i], Wake(t)) <==> exists k: nat :: k < i && ShutsAt(steps, states, k, c)
  {
    ShutExactly(steps, states, i, c);
    var j, w := OneWatcherTask(steps, states, i, c);
    hide Run;
  }
}
