/**
 Closing under interleaving: what survives in the two maps was put there by calls already past their
 closed check when the flag flipped.
*/
module MuxTaskDrain {
  import opened Addresses
  import opened MuxState
  import opened MuxTasks
  import opened MuxTaskIndex

  ghost predicate PutOk(s: State, u: Ufrag) {
    u in s.trace.putBy && s.trace.putBy[u] in s.tasks && s.tasks[s.trace.putBy[u]].section.Done?
  }

  ghost predicate EntryByOk(s: State, a: SocketAddr) {
    && a in s.trace.entryBy && s.trace.entryBy[a] in s.tasks
    && (s.tasks[s.trace.entryBy[a]].section.RegForget? || s.tasks[s.trace.entryBy[a]].section.Done?)
  }

  /** Every entry was put by a call that is past inserting, and no call put two. */
  ghost predicate ConnsTraced(s: State) {
    && (forall u :: u in s.mux.conns ==> PutOk(s, u))
    && (forall u, v :: u in s.mux.conns && v in s.mux.conns && PutOk(s, u) && PutOk(s, v) && u != v
          ==> s.trace.putBy[u] != s.trace.putBy[v])
    && (s.trace.connsDrained ==> s.mux.closed)
    && (s.trace.connsDrained ==> forall u :: u in s.mux.conns && PutOk(s, u) ==> s.trace.putBy[u] in s.trace.lateGets)
  }

  ghost predicate EntriesTraced(s: State) {
    && (forall a :: a in s.mux.addressMap ==> EntryByOk(s, a))
    && (forall a, b :: a in s.mux.addressMap && b in s.mux.addressMap && EntryByOk(s, a) && EntryByOk(s, b) && a != b
          ==> s.trace.entryBy[a] != s.trace.entryBy[b])
    && (s.trace.mapDrained ==> s.mux.closed)
    && (s.trace.mapDrained ==> forall a :: a in s.mux.addressMap && EntryByOk(s, a) ==>
          s.trace.entryBy[a] in s.trace.lateRegs)
  }

  /** Past the closed check with the insertion still ahead. */
  predicate Inside(section: Section) {
    section.GetInsert? || section.RegEntry?
  }

  ghost predicate LateOk(s: State) {
    s.mux.closed ==> forall t :: t in s.tasks ==>
      && (s.tasks[t].section.GetInsert? ==> t in s.trace.lateGets)
      && (s.tasks[t].section.RegEntry? ==> t in s.trace.lateRegs)
  }

  /** A close that is draining has flipped the flag. */
  ghost predicate ClosersOk(s: State) {
    forall t :: t in s.tasks && (s.tasks[t].section.CloseConns? || s.tasks[t].section.CloseMap?) ==> s.mux.closed
  }

  ghost predicate Traced(s: State) {
    ConnsTraced(s) && EntriesTraced(s) && LateOk(s) && ClosersOk(s)
  }

  // ---- one step ---------------------------------------------------------------

  /** A task that is through with inserting stays so, and nobody begins to insert or to drain unless
      the flag allows it. */
  ghost predicate Progress(s: State, n: State, t: TaskId)
    requires t in s.tasks
  {
    t in n.tasks
    && (s.tasks[t].section.Done? ==> n.tasks[t].section.Done?)
    && (s.tasks[t].section.RegForget? ==> n.tasks[t].section.RegForget? || n.tasks[t].section.Done?)
  }

  ghost predicate Admitted(s: State, n: State, t: TaskId)
    requires t in n.tasks
  {
    && (Inside(n.tasks[t].section) ==> !s.mux.closed || (t in s.tasks && s.tasks[t].section == n.tasks[t].section))
    && (n.tasks[t].section.CloseConns? || n.tasks[t].section.CloseMap? ==>
          n.mux.closed || (t in s.tasks && s.tasks[t].section == n.tasks[t].section))
  }

  ghost predicate Moves(s: State, n: State) {
    (forall t :: t in s.tasks ==> Progress(s, n, t)) && (forall t :: t in n.tasks ==> Admitted(s, n, t))
  }

  lemma ConnsFrame(s: State, n: State)
    requires ConnsTraced(s) && Moves(s, n) && (s.mux.closed ==> n.mux.closed)
    requires forall u :: u in n.mux.conns ==> u in s.mux.conns
    requires n.trace.putBy == s.trace.putBy && (s.mux.closed ==> n.trace.lateGets == s.trace.lateGets)
    requires n.trace.connsDrained ==> s.trace.connsDrained || (n.mux.closed && n.mux.conns == map[])
    ensures ConnsTraced(n)
  {
    forall u | u in n.mux.conns ensures PutOk(n, u) && PutOk(s, u) {
      assert PutOk(s, u);
      assert Progress(s, n, s.trace.putBy[u]);
    }
  }

  lemma EntriesFrame(s: State, n: State)
    requires EntriesTraced(s) && Moves(s, n) && (s.mux.closed ==> n.mux.closed)
    requires forall a :: a in n.mux.addressMap ==> a in s.mux.addressMap
    requires n.trace.entryBy == s.trace.entryBy && (s.mux.closed ==> n.trace.lateRegs == s.trace.lateRegs)
    requires n.trace.mapDrained ==> s.trace.mapDrained || (n.mux.closed && n.mux.addressMap == map[])
    ensures EntriesTraced(n)
  {
    forall a | a in n.mux.addressMap ensures EntryByOk(n, a) && EntryByOk(s, a) {
      assert EntryByOk(s, a);
      assert Progress(s, n, s.trace.entryBy[a]);
    }
  }

  lemma LateFrame(s: State, n: State)
    requires LateOk(s) && ClosersOk(s) && Moves(s, n) && n.mux.closed == s.mux.closed
    requires n.trace.lateGets == s.trace.lateGets && n.trace.lateRegs == s.trace.lateRegs
    ensures LateOk(n) && ClosersOk(n)
  {
    forall t | t in n.tasks && n.mux.closed
      ensures n.tasks[t].section.GetInsert? ==> t in n.trace.lateGets
      ensures n.tasks[t].section.RegEntry? ==> t in n.trace.lateRegs
    {
      assert Admitted(s, n, t);
    }
    forall t | t in n.tasks && (n.tasks[t].section.CloseConns? || n.tasks[t].section.CloseMap?) ensures n.mux.closed {
      assert Admitted(s, n, t);
    }
  }

  /** Steps outside the sections. */
  lemma OutsideKeeps(s: State, step: Step)
    requires LocksOk(s) && Traced(s) && Enabled(s, step) && !step.Finish?
    ensures Traced(Next(s, step))
  {
    var n := Next(s, step);
    OutsideParts(s, step);
    hide Next, Enabled, ConnsTraced, EntriesTraced, LateOk, ClosersOk, Moves;
    ConnsFrame(s, n);
    EntriesFrame(s, n);
    LateFrame(s, n);
  }

  /** Nobody gets past a closed check. */
  ghost predicate NoEntry(s: State, n: State) {
    forall t :: t in n.tasks && Inside(n.tasks[t].section) ==> t in s.tasks && s.tasks[t].section == n.tasks[t].section
  }

  /** A step outside the sections moves one task, and not into an insertion or a drain. */
  lemma OutsideParts(s: State, step: Step)
    requires LocksOk(s) && Enabled(s, step) && !step.Finish?
    ensures var n := Next(s, step);
      && Moves(s, n) && NoEntry(s, n) && n.mux.closed == s.mux.closed && n.mux.conns == s.mux.conns
      && n.mux.addressMap == s.mux.addressMap && n.trace.(log := s.trace.log) == s.trace
  {
    assert s.nextTask !in s.tasks;
    if step.Acquire? || step.AcquireInner? || step.LeaveInner? {
      LockStepParts(s, step);
    } else if step.Arrive? || step.WorkerStops? || step.TrySend? {
      WorkerParts(s, step);
    }
  }

  lemma LockStepParts(s: State, step: Step)
    requires Enabled(s, step) && (step.Acquire? || step.AcquireInner? || step.LeaveInner?)
    ensures var n := Next(s, step);
      && Moves(s, n) && NoEntry(s, n) && n.mux.closed == s.mux.closed && n.mux.conns == s.mux.conns
      && n.mux.addressMap == s.mux.addressMap && n.trace == s.trace
  {
    var n := Next(s, step);
    assert n.tasks.Keys == s.tasks.Keys;
    assert forall t :: t in s.tasks ==> n.tasks[t].section == s.tasks[t].section;
  }

  lemma WorkerParts(s: State, step: Step)
    requires Enabled(s, step) && (step.Arrive? || step.WorkerStops? || step.TrySend?)
    ensures var n := Next(s, step);
      && Moves(s, n) && NoEntry(s, n) && n.mux.closed == s.mux.closed && n.mux.conns == s.mux.conns
      && n.mux.addressMap == s.mux.addressMap && n.trace.(log := s.trace.log) == s.trace
  {
    WorkerStepParts(s, step);
    var n := Next(s, step);
    assert n.trace.(log := s.trace.log) == s.trace && n.mux.closed == s.mux.closed;
    hide Next, Enabled;
  }

  /** Sections other than the two insertions and the flip. */
  lemma OtherSectionKeeps(s: State, t: TaskId, localAddr: bool)
    requires LocksOk(s) && Traced(s) && Enabled(s, Finish(t, localAddr))
    requires !Inside(s.tasks[t].section) && !s.tasks[t].section.CloseTake?
    ensures Traced(Next(s, Finish(t, localAddr)))
  {
    var n := Next(s, Finish(t, localAddr));
    OtherSectionParts(s, t, localAddr);
    hide Next, Enabled, ConnsTraced, EntriesTraced, LateOk, ClosersOk, Moves;
    ConnsFrame(s, n);
    EntriesFrame(s, n);
    LateFrame(s, n);
  }

  lemma OtherSectionParts(s: State, t: TaskId, localAddr: bool)
    requires LocksOk(s) && ClosersOk(s) && Enabled(s, Finish(t, localAddr))
    requires !Inside(s.tasks[t].section) && !s.tasks[t].section.CloseTake?
    ensures var n := Next(s, Finish(t, localAddr));
      && Moves(s, n) && n.mux.closed == s.mux.closed
      && (forall u :: u in n.mux.conns ==> u in s.mux.conns)
      && (forall a :: a in n.mux.addressMap ==> a in s.mux.addressMap)
      && n.trace.putBy == s.trace.putBy && n.trace.entryBy == s.trace.entryBy
      && n.trace.lateGets == s.trace.lateGets && n.trace.lateRegs == s.trace.lateRegs
      && (n.trace.connsDrained ==> s.trace.connsDrained || (n.mux.closed && n.mux.conns == map[]))
      && (n.trace.mapDrained ==> s.trace.mapDrained || (n.mux.closed && n.mux.addressMap == map[]))
  {
    FinishParts(s, t, localAddr);
    EffectShrinks(s.mux, s.tasks[t], Busy(s, s.tasks[t].section), s.nextConn, localAddr);
    BodyLeads(s.mux, s.tasks[t], Busy(s, s.tasks[t].section), s.nextConn, localAddr);
    var n := Next(s, Finish(t, localAddr));
    assert n.trace == TraceAfter(s, t, n.mux);
    hide Next, Body, Enabled;
  }

  /** What a section other than the insertions and the flip can do to the mux. */
  lemma EffectShrinks(m: Mux<ConnId>, task: Task, busy: bool, made: ConnId, localAddr: bool)
    requires !Inside(task.section) && !task.section.CloseTake?
    ensures var n := Effect(m, task, busy, made, localAddr);
      && n.closed == m.closed && n.key == m.key
      && (forall u :: u in n.conns ==> u in m.conns)
      && (forall a :: a in n.addressMap ==> a in m.addressMap)
      && (task.section.CloseConns? ==> n.conns == map[])
      && (task.section.CloseMap? ==> n.addressMap == map[])
  {
    hide Effect;
    match task.section {
      case RemoveTake(_) => RemovalShrinks(m, task, busy, made, localAddr);
      case RemoveEntries(_) => RemovalShrinks(m, task, busy, made, localAddr);
      case CloseConns => DrainShrinks(m, task, busy, made, localAddr);
      case CloseMap => DrainShrinks(m, task, busy, made, localAddr);
      case _ =>
        if Quiet(task.section) {
          QuietEffect(m, task, busy, made, localAddr);
        } else {
          RestShrinks(m, task, busy, made, localAddr);
        }
    }
  }

  lemma RemovalShrinks(m: Mux<ConnId>, task: Task, busy: bool, made: ConnId, localAddr: bool)
    requires task.section.RemoveTake? || task.section.RemoveEntries?
    ensures var n := Effect(m, task, busy, made, localAddr);
      && n == m.(conns := n.conns, addressMap := n.addressMap)
      && (forall u :: u in n.conns ==> u in m.conns)
      && (forall a :: a in n.addressMap ==> a in m.addressMap)
  {
    hide Announcement, LocalSegment, InsertConn, AddAddress, SetEntry, Forget, DrainConns, MarkReported;
  }

  lemma DrainShrinks(m: Mux<ConnId>, task: Task, busy: bool, made: ConnId, localAddr: bool)
    requires task.section.CloseConns? || task.section.CloseMap?
    ensures var n := Effect(m, task, busy, made, localAddr);
      && n == m.(conns := n.conns, addressMap := n.addressMap, shut := n.shut)
      && n.conns == (if task.section.CloseConns? then map[] else m.conns)
      && n.addressMap == (if task.section.CloseMap? then map[] else m.addressMap)
  {}

  lemma RestShrinks(m: Mux<ConnId>, task: Task, busy: bool, made: ConnId, localAddr: bool)
    requires !Quiet(task.section) && !Inside(task.section)
    requires !task.section.RemoveTake? && !task.section.RemoveEntries?
    requires !task.section.CloseConns? && !task.section.CloseMap?
    ensures var n := Effect(m, task, busy, made, localAddr);
      n == m.(addresses := n.addresses)
  {}

  /** Where it can lead. */
  lemma BodyLeads(m: Mux<ConnId>, task: Task, busy: bool, made: ConnId, localAddr: bool)
    requires !Inside(task.section) && !task.section.CloseTake?
    ensures var next := Body(m, task, busy, made, localAddr).1;
      && (Inside(next) ==> !m.closed)
      && !next.CloseConns? && (next.CloseMap? ==> task.section.CloseConns?)
      && (task.section.Done? || task.section.RegForget? ==> next.Done?)
  {
    hide Announcement, LocalSegment, Effect;
  }

  lemma EntersBody(m: Mux<ConnId>, task: Task, busy: bool, made: ConnId, localAddr: bool)
    requires Inside(Body(m, task, busy, made, localAddr).1) && !Inside(task.section)
    ensures task.section.GetCheck? || task.section.RegCheck?
    ensures !m.closed
  {
    hide Announcement, LocalSegment;
  }

  // ---- the insertions and the flip -----------------------------------------------

  lemma GetInsertTraced(s: State, t: TaskId, localAddr: bool)
    requires LocksOk(s) && Traced(s) && Enabled(s, Finish(t, localAddr)) && s.tasks[t].section.GetInsert?
    ensures Traced(Next(s, Finish(t, localAddr)))
  {
    var n := Next(s, Finish(t, localAddr));
    var u := s.tasks[t].section.u;
    FinishParts(s, t, localAddr);
    assert s.nextTask !in s.tasks;
    assert n.trace.putBy == s.trace.putBy || n.trace.putBy == s.trace.putBy[u := t];
    assert n.trace == s.trace.(putBy := n.trace.putBy);
    assert n.mux.closed == s.mux.closed && n.mux.addressMap == s.mux.addressMap;
    assert Moves(s, n);
    assert n.mux.conns == s.mux.conns || (u !in s.mux.conns && n.mux.conns == s.mux.conns[u := s.nextConn]);
    assert u !in s.mux.conns && u in n.mux.conns ==> n.trace.putBy == s.trace.putBy[u := t];
    assert u in s.mux.conns || u !in n.mux.conns ==> n.trace.putBy == s.trace.putBy;
    hide Next, Enabled, LocksOk;
    Inserted(s, n, t, u);
  }

  /** The ufrag was inserted, or was already there: the rest of the bookkeeping follows. */
  lemma Inserted(s: State, n: State, t: TaskId, u: Ufrag)
    requires Traced(s) && Moves(s, n) && t in s.tasks && t in n.tasks
    requires s.tasks[t].section.GetInsert? && n.tasks[t].section.Done?
    requires n.mux.closed == s.mux.closed && n.mux.addressMap == s.mux.addressMap
    requires n.trace == s.trace.(putBy := n.trace.putBy)
    requires n.mux.conns == s.mux.conns || (u !in s.mux.conns && n.mux.conns.Keys == s.mux.conns.Keys + {u})
    requires n.trace.putBy == if u !in s.mux.conns && u in n.mux.conns then s.trace.putBy[u := t] else s.trace.putBy
    ensures Traced(n)
  {
    hide ConnsTraced, EntriesTraced, LateOk, ClosersOk, Moves;
    EntriesFrame(s, n);
    LateFrame(s, n);
    if n.mux.conns == s.mux.conns {
      ConnsFrame(s, n);
    } else {
      PutKeeps(s, n, t, u);
    }
  }

  lemma PutKeeps(s: State, n: State, t: TaskId, u: Ufrag)
    requires ConnsTraced(s) && LateOk(s) && Moves(s, n) && n.mux.closed == s.mux.closed
    requires t in s.tasks && s.tasks[t].section.GetInsert? && n.tasks[t].section.Done?
    requires u !in s.mux.conns && n.mux.conns.Keys == s.mux.conns.Keys + {u}
    requires n.trace == s.trace.(putBy := s.trace.putBy[u := t])
    ensures ConnsTraced(n)
  {
    forall v | v in n.mux.conns ensures PutOk(n, v) && (v != u ==> PutOk(s, v)) {
      if v != u {
        assert PutOk(s, v);
        assert Progress(s, n, s.trace.putBy[v]);
      } else {
        assert Progress(s, n, t);
      }
    }
  }

  lemma RegEntryTraced(s: State, t: TaskId, localAddr: bool)
    requires LocksOk(s) && Traced(s) && Enabled(s, Finish(t, localAddr)) && s.tasks[t].section.RegEntry?
    ensures Traced(Next(s, Finish(t, localAddr)))
  {
    var n := Next(s, Finish(t, localAddr));
    var a := s.tasks[t].section.a;
    FinishParts(s, t, localAddr);
    assert n.mux.closed == s.mux.closed && n.mux.conns == s.mux.conns;
    assert n.tasks[t] == Task(RegForget(a), Waiting);
    assert (n.mux == s.mux && n.trace == s.trace)
      || (n.mux.addressMap.Keys == s.mux.addressMap.Keys + {a}
          && n.trace == s.trace.(entryBy := s.trace.entryBy[a := t]));
    hide Next, Enabled, LocksOk;
    assert OnlyTask(s, n, t);
    Entered(s, n, t, a);
  }

  /** The entry of `a` was written, or was already there: the rest of the bookkeeping follows. */
  lemma Entered(s: State, n: State, t: TaskId, a: SocketAddr)
    requires Traced(s) && OnlyTask(s, n, t) && t in s.tasks
    requires s.tasks[t].section.RegEntry? && n.tasks[t] == Task(RegForget(a), Waiting)
    requires n.mux.closed == s.mux.closed && n.mux.conns == s.mux.conns
    requires (n.mux == s.mux && n.trace == s.trace)
      || (n.mux.addressMap.Keys == s.mux.addressMap.Keys + {a}
          && n.trace == s.trace.(entryBy := s.trace.entryBy[a := t]))
    ensures Traced(n)
  {
    assert Moves(s, n);
    hide ConnsTraced, EntriesTraced, LateOk, ClosersOk, Moves;
    ConnsFrame(s, n);
    LateFrame(s, n);
    if n.mux == s.mux && n.trace == s.trace {
      EntriesFrame(s, n);
    } else {
      WriteKeeps(s, n, t, a);
    }
  }

  lemma WriteKeeps(s: State, n: State, t: TaskId, a: SocketAddr)
    requires EntriesTraced(s) && LateOk(s) && Moves(s, n) && n.mux.closed == s.mux.closed
    requires t in s.tasks && s.tasks[t].section.RegEntry? && t in n.tasks && n.tasks[t].section.RegForget?
    requires n.mux.addressMap.Keys == s.mux.addressMap.Keys + {a}
    requires n.trace == s.trace.(entryBy := s.trace.entryBy[a := t])
    ensures EntriesTraced(n)
  {
    forall b | b in n.mux.addressMap ensures EntryByOk(n, b) && (b != a ==> EntryByOk(s, b)) {
      if b != a {
        assert EntryByOk(s, b);
        assert Progress(s, n, s.trace.entryBy[b]);
      }
    }
  }

  lemma FlipTraced(s: State, t: TaskId, localAddr: bool)
    requires LocksOk(s) && Traced(s) && Enabled(s, Finish(t, localAddr)) && s.tasks[t].section.CloseTake?
    ensures Traced(Next(s, Finish(t, localAddr)))
  {
    var n := Next(s, Finish(t, localAddr));
    FinishParts(s, t, localAddr);
    assert n.mux == s.mux.(closed := true);
    assert Moves(s, n);
    assert n.trace.putBy == s.trace.putBy && n.trace.entryBy == s.trace.entryBy;
    assert n.trace.connsDrained == s.trace.connsDrained && n.trace.mapDrained == s.trace.mapDrained;
    assert s.mux.closed ==> n.trace == s.trace;
    assert LateOk(n);
    hide Next, Enabled, ConnsTraced, EntriesTraced;
    ConnsFrame(s, n);
    EntriesFrame(s, n);
  }

  // ---- runs ------------------------------------------------------------------------

  lemma StepTraced(s: State, step: Step)
    requires LocksOk(s) && Traced(s) && Enabled(s, step)
    ensures Traced(Next(s, step))
  {
    hide Next, Traced, LocksOk;
    match step
    case Finish(t, localAddr) =>
      match s.tasks[t].section {
        case GetInsert(_) => GetInsertTraced(s, t, localAddr);
        case RegEntry(_, _) => RegEntryTraced(s, t, localAddr);
        case CloseTake => FlipTraced(s, t, localAddr);
        case _ => OtherSectionKeeps(s, t, localAddr);
      }
    case _ => OutsideKeeps(s, step);
  }

  lemma {:induction false} RunTraced(steps: seq<Step>, states: seq<State>, i: nat)
    requires Run(steps, states) && i <= |steps|
    ensures Traced(states[i])
  {
    if i > 0 {
      RunTraced(steps, states, i - 1);
      RunLocks(steps, states, i - 1);
      assert Happens(steps, states, i - 1);
      hide Next, Enabled, LocksOk, Traced, Run;
      StepTraced(states[i - 1], steps[i - 1]);
    }
  }

  /** Task `t` reads the closed flag as false at step `j`. */
  ghost predicate ReadsOpen(states: seq<State>, steps: seq<Step>, j: nat, t: TaskId) {
    && j < |steps| && j < |states| && steps[j].Finish? && steps[j].t == t && t in states[j].tasks
    && (states[j].tasks[t].section.GetCheck? || states[j].tasks[t].section.RegCheck?)
    && !states[j].mux.closed
  }

  /** Whoever is about to insert has read the flag as false. */
  lemma {:induction false} InsideReadOpen(steps: seq<Step>, states: seq<State>, i: nat, t: TaskId) returns (j: nat)
    requires Run(steps, states) && i <= |steps|
    requires t in states[i].tasks && Inside(states[i].tasks[t].section)
    ensures j < i && ReadsOpen(states, steps, j, t)
  {
    assert i > 0;
    var s, step := states[i - 1], steps[i - 1];
    RunLocks(steps, states, i - 1);
    assert Happens(steps, states, i - 1);
    hide Next, Enabled, LocksOk;
    if t in s.tasks && Inside(s.tasks[t].section) {
      j := InsideReadOpen(steps, states, i - 1, t);
    } else {
      EntersInside(s, step, t);
      j := i - 1;
    }
  }

  lemma EntersInside(s: State, step: Step, t: TaskId)
    requires LocksOk(s) && Enabled(s, step)
    requires t in Next(s, step).tasks && Inside(Next(s, step).tasks[t].section)
    requires !(t in s.tasks && Inside(s.tasks[t].section))
    ensures step.Finish? && step.t == t && !s.mux.closed
    ensures s.tasks[t].section.GetCheck? || s.tasks[t].section.RegCheck?
  {
    var n := Next(s, step);
    if step.Finish? {
      FinishParts(s, step.t, step.localAddr);
      var task := s.tasks[step.t];
      if !Inside(task.section) && !task.section.CloseTake? {
        EntersBody(s.mux, task, Busy(s, task.section), s.nextConn, step.localAddr);
      }
      hide Next;
    } else {
      OutsideParts(s, step);
      hide Next;
    }
  }

  /** The recorded late calls read the flag as false. */
  lemma {:induction false} LateReadOpen(steps: seq<Step>, states: seq<State>, i: nat, t: TaskId) returns (j: nat)
    requires Run(steps, states) && i <= |steps| && states[i].mux.closed
    requires t in states[i].trace.lateGets || t in states[i].trace.lateRegs
    ensures j < i && ReadsOpen(states, steps, j, t)
  {
    assert i > 0;
    var s := states[i - 1];
    RunLocks(steps, states, i - 1);
    assert Happens(steps, states, i - 1);
    FlagParts(s, steps[i - 1]);
    if s.mux.closed {
      j := LateReadOpen(steps, states, i - 1, t);
    } else {
      j := InsideReadOpen(steps, states, i - 1, t);
    }
  }

  /** The late calls are recorded when the flag flips and never again. */
  lemma FlagParts(s: State, step: Step)
    requires LocksOk(s) && Enabled(s, step)
    ensures var n := Next(s, step);
      && (s.mux.closed ==> n.mux.closed && n.trace.lateGets == s.trace.lateGets && n.trace.lateRegs == s.trace.lateRegs)
      && (!s.mux.closed && n.mux.closed ==>
            forall t :: t in n.trace.lateGets || t in n.trace.lateRegs ==> t in s.tasks && Inside(s.tasks[t].section))
  {
    if step.Finish? {
      FinishFlagParts(s, step.t, step.localAddr);
    } else {
      OutsideParts(s, step);
      hide Next, Enabled, LocksOk;
    }
  }

  lemma FinishFlagParts(s: State, t: TaskId, localAddr: bool)
    requires LocksOk(s) && Enabled(s, Finish(t, localAddr))
    ensures var n := Next(s, Finish(t, localAddr));
      && (s.mux.closed ==> n.mux.closed && n.trace.lateGets == s.trace.lateGets && n.trace.lateRegs == s.trace.lateRegs)
      && (!s.mux.closed && n.mux.closed ==>
            forall x :: x in n.trace.lateGets || x in n.trace.lateRegs ==> x in s.tasks && Inside(s.tasks[x].section))
  {
    var task := s.tasks[t];
    FinishParts(s, t, localAddr);
    if !Inside(task.section) && !task.section.CloseTake? {
      EffectShrinks(s.mux, task, Busy(s, task.section), s.nextConn, localAddr);
    }
    hide LocksOk;
  }

  lemma {:induction false} InjectiveBound<K>(keys: set<K>, image: map<K, nat>, bound: set<nat>)
    requires forall k :: k in keys ==> k in image && image[k] in bound
    requires forall j, k :: j in keys && k in keys && j != k ==> image[j] != image[k]
    ensures |keys| <= |bound|
  {
    if keys != {} {
      var k :| k in keys;
      InjectiveBound(keys - {k}, image, bound - {image[k]});
    }
  }

  /** After the connections were drained, every connection in the map was put there by a `get_conn`
      that had read the flag as false, each by a different one, so there are at most as many as there
      were such calls in flight when the flag flipped. */
  lemma ConnsAfterDrain(steps: seq<Step>, states: seq<State>, i: nat, u: Ufrag) returns (j: nat)
    requires Run(steps, states) && i <= |steps| && states[i].trace.connsDrained
    ensures |states[i].mux.conns| <= |states[i].trace.lateGets|
    ensures u in states[i].mux.conns ==>
      && u in states[i].trace.putBy && states[i].trace.putBy[u] in states[i].trace.lateGets
      && j < i && ReadsOpen(states, steps, j, states[i].trace.putBy[u])
  {
    RunTraced(steps, states, i);
    var s := states[i];
    forall v | v in s.mux.conns ensures PutOk(s, v) {}
    InjectiveBound(s.mux.conns.Keys, s.trace.putBy, s.trace.lateGets);
    j := 0;
    if u in s.mux.conns {
      j := LateReadOpen(steps, states, i, s.trace.putBy[u]);
    }
  }

  /** The same for the address map and the registrations in flight. */
  lemma EntriesAfterDrain(steps: seq<Step>, states: seq<State>, i: nat, a: SocketAddr) returns (j: nat)
    requires Run(steps, states) && i <= |steps| && states[i].trace.mapDrained
    ensures |states[i].mux.addressMap| <= |states[i].trace.lateRegs|
    ensures a in states[i].mux.addressMap ==>
      && a in states[i].trace.entryBy && states[i].trace.entryBy[a] in states[i].trace.lateRegs
      && j < i && ReadsOpen(states, steps, j, states[i].trace.entryBy[a])
  {
    RunTraced(steps, states, i);
    var s := states[i];
    forall b | b in s.mux.addressMap ensures EntryByOk(s, b) {}
    InjectiveBound(s.mux.addressMap.Keys, s.trace.entryBy, s.trace.lateRegs);
    j := 0;
    if a in s.mux.addressMap {
      j := LateReadOpen(steps, states, i, s.trace.entryBy[a]);
    }
  }
}
