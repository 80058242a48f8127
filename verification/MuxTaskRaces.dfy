/** Every field of the mux is written, and decides where a section leads, only under its own lock. */
module MuxTaskRaces {
  import opened Wrappers
  import opened Addresses
  import opened MuxState
  import opened MuxTasks
  import opened MuxTaskIndex

  ghost predicate HeldBy(s: State, l: Lock, t: TaskId) {
    l in s.holder && s.holder[l] == t
  }

  // ---- writes ---------------------------------------------------------------------

  /** Whatever a section changes belongs to the lock it runs under. */
  ghost predicate Confined(m: Mux<ConnId>, n: Mux<ConnId>, section: Section, made: ConnId) {
    && (n.conns != m.conns ==> OuterLock(section) == Some(Conns))
    && (n.addressMap != m.addressMap ==> OuterLock(section) == Some(AddressMap))
    && (n.newAddrs != m.newAddrs ==> OuterLock(section) == Some(NewAddrs))
    && (n.closed != m.closed ==> OuterLock(section) == Some(ClosedTx))
    && (forall c :: c in m.addresses && c != made ==>
          c in n.addresses && (n.addresses[c] != m.addresses[c] ==> OuterLock(section) == Some(AddrSet(c))))
  }

  lemma InsertConfined(m: Mux<ConnId>, task: Task, busy: bool, made: ConnId, localAddr: bool)
    requires task.section.GetInsert?
    ensures Confined(m, Effect(m, task, busy, made, localAddr), task.section, made)
  {}

  lemma RemovalConfined(m: Mux<ConnId>, task: Task, busy: bool, made: ConnId, localAddr: bool)
    requires task.section.RemoveTake? || task.section.RemoveEntries?
    ensures Confined(m, Effect(m, task, busy, made, localAddr), task.section, made)
  {}

  lemma AddressConfined(m: Mux<ConnId>, task: Task, busy: bool, made: ConnId, localAddr: bool)
    requires task.section.RegEntry? || task.section.Add?
    ensures Confined(m, Effect(m, task, busy, made, localAddr), task.section, made)
  {}

  lemma CloseConfined(m: Mux<ConnId>, task: Task, busy: bool, made: ConnId, localAddr: bool)
    requires task.section.CloseTake? || task.section.CloseConns? || task.section.CloseMap? || task.section.CloseNew?
    ensures Confined(m, Effect(m, task, busy, made, localAddr), task.section, made)
  {}

  lemma WorkerConfined(m: Mux<ConnId>, task: Task, busy: bool, made: ConnId, localAddr: bool)
    requires task.section.Seen? || task.section.Mark? || task.section.RegForget?
    ensures Confined(m, Effect(m, task, busy, made, localAddr), task.section, made)
  {
    hide Effect;
    ReportEffect(m, task, busy, made, localAddr);
  }

  lemma EffectConfined(m: Mux<ConnId>, task: Task, busy: bool, made: ConnId, localAddr: bool)
    ensures Confined(m, Effect(m, task, busy, made, localAddr), task.section, made)
  {
    hide Confined;
    match task.section {
      case GetInsert(_) => InsertConfined(m, task, busy, made, localAddr);
      case RemoveTake(_) => RemovalConfined(m, task, busy, made, localAddr);
      case RemoveEntries(_) => RemovalConfined(m, task, busy, made, localAddr);
      case RegEntry(_, _) => AddressConfined(m, task, busy, made, localAddr);
      case Add(_, _) => AddressConfined(m, task, busy, made, localAddr);
      case CloseTake => CloseConfined(m, task, busy, made, localAddr);
      case CloseConns => CloseConfined(m, task, busy, made, localAddr);
      case CloseMap => CloseConfined(m, task, busy, made, localAddr);
      case CloseNew => CloseConfined(m, task, busy, made, localAddr);
      case Seen(_) => WorkerConfined(m, task, busy, made, localAddr);
      case Mark(_) => WorkerConfined(m, task, busy, made, localAddr);
      case RegForget(_) => WorkerConfined(m, task, busy, made, localAddr);
      case _ => Unchanged(m, task.section, made);
    }
  }

  lemma Unchanged(m: Mux<ConnId>, section: Section, made: ConnId)
    ensures Confined(m, m, section, made)
  {}

  /** The task whose section or inner lock a step advances. */
  ghost predicate Writes(s: State, step: Step, l: Lock) {
    (step.Finish? || step.LeaveInner?) && HeldBy(s, l, step.t)
  }

  lemma SectionWrites(s: State, t: TaskId, localAddr: bool, c: ConnId)
    requires LocksOk(s) && Enabled(s, Finish(t, localAddr)) && s.nextConn !in s.mux.key
    ensures WriteStep(s, Finish(t, localAddr), Next(s, Finish(t, localAddr)), c)
  {
    hide PendingAfter, TraceAfter, Effect, Lead;
    var n := Next(s, Finish(t, localAddr));
    FinishParts(s, t, localAddr);
    EffectConfined(s.mux, s.tasks[t], Busy(s, s.tasks[t].section), s.nextConn, localAddr);
    var l := OuterLock(s.tasks[t].section).value;
    assert HeldBy(s, l, t);
    assert n.mux == Effect(s.mux, s.tasks[t], Busy(s, s.tasks[t].section), s.nextConn, localAddr);
    hide Next, Enabled, LocksOk;
  }

  ghost predicate WriteStep(s: State, step: Step, n: State, c: ConnId) {
    && (n.mux.conns != s.mux.conns ==> Writes(s, step, Conns))
    && (n.mux.addressMap != s.mux.addressMap ==> Writes(s, step, AddressMap))
    && (n.mux.newAddrs != s.mux.newAddrs ==> Writes(s, step, NewAddrs))
    && (n.mux.closed != s.mux.closed ==> Writes(s, step, ClosedTx))
    && (c in s.mux.addresses && c != s.nextConn ==>
          c in n.mux.addresses && (n.mux.addresses[c] != s.mux.addresses[c] ==> Writes(s, step, AddrSet(c))))
  }

  lemma DisplacementWrites(s: State, t: TaskId, c: ConnId)
    requires LocksOk(s) && Enabled(s, LeaveInner(t))
    ensures WriteStep(s, LeaveInner(t), Next(s, LeaveInner(t)), c)
  {
    assert HeldBy(s, AddrSet(s.tasks[t].phase.conn), t) by {
      assert Holds(s.tasks[t], AddrSet(s.tasks[t].phase.conn));
    }
    hide LocksOk;
  }

  lemma OtherStepsWriteNothing(s: State, step: Step, c: ConnId)
    requires Enabled(s, step) && !step.Finish? && !step.LeaveInner?
    ensures WriteStep(s, step, Next(s, step), c)
  {
    var n := Next(s, step);
    assert n.mux == s.mux.(shut := n.mux.shut, listening := n.mux.listening);
    hide Next, Enabled;
  }

  /** In every interleaving a step that changes a field of the mux, or the address set of a connection, is a step
      of the task that holds the lock of that field or set. */
  lemma WritesUnderLock(steps: seq<Step>, states: seq<State>, i: nat, c: ConnId)
    requires Run(steps, states) && i < |steps| && c in states[i].mux.addresses
    ensures var s, n := states[i], states[i + 1];
      && (n.mux.conns != s.mux.conns ==> Writes(s, steps[i], Conns))
      && (n.mux.addressMap != s.mux.addressMap ==> Writes(s, steps[i], AddressMap))
      && (n.mux.newAddrs != s.mux.newAddrs ==> Writes(s, steps[i], NewAddrs))
      && (n.mux.closed != s.mux.closed ==> Writes(s, steps[i], ClosedTx))
      && c in n.mux.addresses && (n.mux.addresses[c] != s.mux.addresses[c] ==> Writes(s, steps[i], AddrSet(c)))
  {
    RunSound(steps, states, i);
    var s, step := states[i], steps[i];
    assert Happens(steps, states, i);
    assert c != s.nextConn && s.nextConn !in s.mux.key;
    hide Run;
    if step.Finish? {
      SectionWrites(s, step.t, step.localAddr, c);
    } else if step.LeaveInner? {
      DisplacementWrites(s, step.t, c);
    } else {
      OtherStepsWriteNothing(s, step, c);
    }
    hide Next, Enabled, LocksOk, IndexOk;
  }

  // ---- reads ----------------------------------------------------------------------

  /** The two agree on what the lock guards. */
  ghost predicate AgreeUnder(m: Mux<ConnId>, n: Mux<ConnId>, lock: Option<Lock>) {
    match lock
    case Some(Conns) => n.conns == m.conns
    case Some(AddressMap) => n.addressMap == m.addressMap
    case Some(NewAddrs) => n.newAddrs == m.newAddrs
    case Some(ClosedTx) => n.closed == m.closed
    case Some(AddrSet(_)) => n.addresses == m.addresses
    case None => true
  }

  lemma WorkerReads(m: Mux<ConnId>, n: Mux<ConnId>, task: Task, busy: bool)
    requires AgreeUnder(m, n, OuterLock(task.section))
    requires task.section.Route? || task.section.RouteStun? || task.section.Seen?
    ensures Lead(n, task, busy) == Lead(m, task, busy)
  {
    hide Announcement, LocalSegment;
  }

  lemma CallReads(m: Mux<ConnId>, n: Mux<ConnId>, task: Task, busy: bool)
    requires AgreeUnder(m, n, OuterLock(task.section))
    requires !task.section.Route? && !task.section.RouteStun? && !task.section.Seen?
    ensures Lead(n, task, busy) == Lead(m, task, busy)
  {
    hide Announcement, LocalSegment;
  }

  /** Where a section leads depends on nothing but what its lock guards. */
  lemma ReadsUnderLock(m: Mux<ConnId>, n: Mux<ConnId>, task: Task, busy: bool)
    requires AgreeUnder(m, n, OuterLock(task.section))
    ensures Lead(n, task, busy) == Lead(m, task, busy)
  {
    hide Lead, AgreeUnder;
    if task.section.Route? || task.section.RouteStun? || task.section.Seen? {
      WorkerReads(m, n, task, busy);
    } else {
      CallReads(m, n, task, busy);
    }
  }
}
