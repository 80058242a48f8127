/**
 The address index under arbitrary interleaving, removed connections still registering: an entry of
 `address_map` always points at a connection that has the address in its own set.
*/
module MuxTaskIndex {
  import opened Wrappers
  import opened Addresses
  import opened MuxState
  import opened MuxTasks

  /** A registration holds `address_map` and has taken `a` from the entry's connection, but has not
      written the entry yet. */
  ghost predicate Displacing(s: State, a: SocketAddr) {
    && AddressMap in s.holder && s.holder[AddressMap] in s.tasks
    && var task := s.tasks[s.holder[AddressMap]];
       task.section.RegEntry? && task.section.a == a && task.phase.Displaced?
  }

  ghost predicate EntryOk(s: State, a: SocketAddr)
    requires Known(s.mux) && a in s.mux.addressMap
  {
    a in s.mux.addresses[s.mux.addressMap[a]] || Displacing(s, a)
  }

  predicate Registers(section: Section, q: (ConnId, SocketAddr)) {
    section == RegCheck(q.0, q.1) || section == RegEntry(q.0, q.1)
  }

  ghost predicate PendingOk(s: State, q: (ConnId, SocketAddr))
    requires q in s.pending
  {
    && q.0 in s.mux.key && q.0 in s.mux.addresses
    && s.pending[q] in s.tasks && Registers(s.tasks[s.pending[q]].section, q)
    && q.1 in s.mux.addresses[q.0]
    && (q.1 in s.mux.addressMap && s.mux.addressMap[q.1] == q.0 ==> Displacing(s, q.1))
  }

  ghost predicate RegOk(s: State, t: TaskId)
    requires t in s.tasks
  {
    forall q :: Registers(s.tasks[t].section, q) ==> q in s.pending && s.pending[q] == t
  }

  ghost predicate TaskOk(m: Mux<ConnId>, task: Task) {
    match task.section
    case Add(c, _) => c in m.key
    case RemoveEntries(c) =>
      c in m.key && (task.phase.Listed? ==>
        forall a :: a in m.addressMap && m.addressMap[a] == c ==> a in task.phase.addrs)
    case RegEntry(c, a) =>
      && (task.phase.Inner? ==> Displaces(m, c, a) && m.addressMap[a] == task.phase.conn)
      && (task.phase.Displaced? ==> Displaces(m, c, a))
    case _ => true
  }

  ghost predicate ConnsOk(s: State) {
    && Known(s.mux)
    && (forall c :: c in s.mux.key ==> c < s.nextConn)
    && (forall u :: u in s.mux.conns ==> s.mux.key[s.mux.conns[u]] == u)
  }

  ghost predicate EntriesOk(s: State)
    requires Known(s.mux)
  {
    forall a :: a in s.mux.addressMap ==> EntryOk(s, a)
  }

  ghost predicate PendingsOk(s: State) {
    forall q :: q in s.pending ==> PendingOk(s, q)
  }

  ghost predicate TasksOk(s: State) {
    forall t :: t in s.tasks ==> TaskOk(s.mux, s.tasks[t]) && RegOk(s, t)
  }

  ghost predicate IndexOk(s: State) {
    ConnsOk(s) && EntriesOk(s) && PendingsOk(s) && TasksOk(s)
  }

  ghost predicate Sound(s: State) {
    LocksOk(s) && IndexOk(s)
  }

  // ---- framing ---------------------------------------------------------------

  ghost predicate SameIndex(m: Mux<ConnId>, n: Mux<ConnId>) {
    m.addressMap == n.addressMap && m.addresses == n.addresses && m.key == n.key
  }

  ghost predicate OnlyTask(s: State, n: State, t: TaskId) {
    && t in n.tasks && n.tasks.Keys == s.tasks.Keys + {t}
    && forall x :: x in s.tasks && x != t ==> n.tasks[x] == s.tasks[x]
  }

  /** The holder of `address_map` is not in the middle of a displacement, or it did not move. */
  ghost predicate Steady(s: State, n: State) {
    forall a :: Displacing(n, a) <==> Displacing(s, a)
  }

  /** Only one task is ever inside `address_map`. */
  lemma MapHolderAlone(s: State, t: TaskId, x: TaskId)
    requires LocksOk(s) && t in s.tasks && x in s.tasks && x != t
    requires Holds(s.tasks[t], AddressMap)
    ensures s.tasks[x].section.RegEntry? || s.tasks[x].section.RemoveEntries? ==> s.tasks[x].phase.Waiting?
    ensures forall a :: Displacing(s, a) ==>
      s.tasks[t].section.RegEntry? && s.tasks[t].section.a == a && s.tasks[t].phase.Displaced?
  {
    assert s.holder[AddressMap] == t;
    assert !Holds(s.tasks[x], AddressMap);
  }

  lemma TaskIsOk(s: State, t: TaskId)
    requires TasksOk(s) && t in s.tasks
    ensures TaskOk(s.mux, s.tasks[t]) && RegOk(s, t)
  {}

  lemma HolderIs(s: State, t: TaskId, l: Lock)
    requires LocksOk(s) && t in s.tasks && Holds(s.tasks[t], l)
    ensures l in s.holder && s.holder[l] == t
  {}

  /** A step that leaves the index, the registrations under way and the displacement alone. */
  lemma Frame(s: State, n: State, t: TaskId)
    requires IndexOk(s) && OnlyTask(s, n, t) && Steady(s, n)
    requires SameIndex(s.mux, n.mux) && n.pending == s.pending && s.nextConn <= n.nextConn
    requires forall u :: u in n.mux.conns ==> u in s.mux.conns && n.mux.conns[u] == s.mux.conns[u]
    requires TaskOk(n.mux, n.tasks[t])
    requires forall q :: Registers(n.tasks[t].section, q) <==> t in s.tasks && Registers(s.tasks[t].section, q)
    ensures IndexOk(n)
  {
    forall x | x in n.tasks ensures TaskOk(n.mux, n.tasks[x]) && RegOk(n, x) {
      if x != t {
        assert TaskOk(s.mux, s.tasks[x]) && RegOk(s, x);
        SameTaskOk(s.mux, n.mux, s.tasks[x]);
      }
    }
    forall a | a in n.mux.addressMap ensures EntryOk(n, a) {
      assert EntryOk(s, a);
    }
    forall q | q in n.pending ensures PendingOk(n, q) {
      assert PendingOk(s, q);
    }
  }

  lemma SameTaskOk(m: Mux<ConnId>, n: Mux<ConnId>, task: Task)
    requires SameIndex(m, n)
    ensures TaskOk(m, task) == TaskOk(n, task)
  {}

  /** The tasks are fine if the one that moved is, and what the others read of the index is unchanged or
      the one that moved holds `address_map`, and the others' registrations are still under way. */
  lemma TasksFrame(s: State, n: State, t: TaskId)
    requires LocksOk(s) && TasksOk(s) && t in s.tasks && OnlyTask(s, n, t)
    requires s.mux.key == n.mux.key
    requires s.mux.addressMap == n.mux.addressMap || Holds(s.tasks[t], AddressMap)
    requires forall q :: q in s.pending && s.pending[q] != t ==> q in n.pending && n.pending[q] == s.pending[q]
    requires TaskOk(n.mux, n.tasks[t]) && RegOk(n, t)
    ensures TasksOk(n)
  {
    forall x | x in n.tasks ensures TaskOk(n.mux, n.tasks[x]) && RegOk(n, x) {
      if x != t {
        assert TaskOk(s.mux, s.tasks[x]) && RegOk(s, x);
        if Holds(s.tasks[t], AddressMap) {
          MapHolderAlone(s, t, x);
          assert ShapeOk(s.tasks[x]);
        }
      }
    }
  }

  // ---- steps outside the sections ----------------------------------------------

  lemma CallKeeps(s: State, entry: Section)
    requires Sound(s) && Enabled(s, Call(entry))
    ensures IndexOk(Next(s, Call(entry)))
  {
    Frame(s, Next(s, Call(entry)), s.nextTask);
  }

  lemma WorkerStepKeeps(s: State, step: Step)
    requires Sound(s) && Enabled(s, step) && (step.Arrive? || step.WorkerStops? || step.TrySend?)
    ensures IndexOk(Next(s, step))
  {
    WorkerStepParts(s, step);
    var n := Next(s, step);
    hide Next, Enabled, LocksOk, IndexOk;
    WorkerMoved(s, n);
  }

  lemma WorkerMoved(s: State, n: State)
    requires Sound(s) && SameIndex(s.mux, n.mux) && n.mux.conns == s.mux.conns && n.pending == s.pending
    requires OnlyTask(s, n, WORKER) && n.holder == s.holder && n.nextConn == s.nextConn
    requires s.tasks[WORKER].section.Idle? || s.tasks[WORKER].section.Announce?
    requires var section := n.tasks[WORKER].section;
      section.Route? || section.Done? || section.Mark? || section.Idle?
    ensures IndexOk(n)
  {
    SteadyElsewhere(s, n, WORKER);
    hide LocksOk, Steady;
    Frame(s, n, WORKER);
  }

  /** A task that does not hold `address_map` does not change what is being displaced. */
  lemma SteadyElsewhere(s: State, n: State, t: TaskId)
    requires LocksOk(s) && OnlyTask(s, n, t) && n.holder == s.holder && t in s.tasks && !Holds(s.tasks[t], AddressMap)
    ensures Steady(s, n)
  {}

  lemma WorkerStepParts(s: State, step: Step)
    requires Enabled(s, step) && (step.Arrive? || step.WorkerStops? || step.TrySend?)
    ensures var n := Next(s, step);
      && SameIndex(s.mux, n.mux) && n.mux.conns == s.mux.conns && n.pending == s.pending
      && OnlyTask(s, n, WORKER) && n.holder == s.holder && n.nextConn == s.nextConn
      && var section := n.tasks[WORKER].section;
         section.Route? || section.Done? || section.Mark? || section.Idle?
    ensures s.tasks[WORKER].section.Idle? || s.tasks[WORKER].section.Announce?
  {}

  lemma WakeKeeps(s: State, t: TaskId)
    requires Sound(s) && Enabled(s, Wake(t))
    ensures IndexOk(Next(s, Wake(t)))
  {
    assert !Holds(s.tasks[t], AddressMap);
    Frame(s, Next(s, Wake(t)), t);
  }

  lemma ShutKeeps(s: State, c: ConnId)
    requires Sound(s) && Enabled(s, Shut(c))
    ensures IndexOk(Next(s, Shut(c)))
  {
    assert TaskOk(s.mux, s.tasks[WORKER]);
    SameTaskOk(s.mux, Next(s, Shut(c)).mux, s.tasks[WORKER]);
    Frame(s, Next(s, Shut(c)), WORKER);
  }

  lemma AcquireKeeps(s: State, t: TaskId)
    requires Sound(s) && Enabled(s, Acquire(t))
    ensures IndexOk(Next(s, Acquire(t)))
  {
    assert !Holds(s.tasks[t], AddressMap);
    assert TaskOk(s.mux, s.tasks[t]);
    Frame(s, Next(s, Acquire(t)), t);
  }

  lemma AcquireInnerKeeps(s: State, t: TaskId)
    requires Sound(s) && Enabled(s, AcquireInner(t))
    ensures IndexOk(Next(s, AcquireInner(t)))
  {
    assert Holds(s.tasks[t], AddressMap);
    assert TaskOk(s.mux, s.tasks[t]);
    Frame(s, Next(s, AcquireInner(t)), t);
  }

  lemma ListKeeps(s: State, t: TaskId)
    requires Sound(s) && Enabled(s, LeaveInner(t)) && s.tasks[t].section.RemoveEntries?
    ensures IndexOk(Next(s, LeaveInner(t)))
  {
    assert ShapeOk(s.tasks[t]);
    assert Holds(s.tasks[t], AddressMap);
    assert TaskOk(s.mux, s.tasks[t]);
    var n := Next(s, LeaveInner(t));
    forall a | a in n.mux.addressMap && n.mux.addressMap[a] == s.tasks[t].section.c
      ensures a in n.tasks[t].phase.addrs
    {
      assert EntryOk(s, a);
    }
    Frame(s, n, t);
  }

  /** The displaced connection loses the address; its entry is now the one being displaced. */
  lemma DisplaceKeeps(s: State, t: TaskId)
    requires Sound(s) && Enabled(s, LeaveInner(t)) && s.tasks[t].section.RegEntry?
    ensures IndexOk(Next(s, LeaveInner(t)))
  {
    var task := s.tasks[t];
    assert Holds(task, AddressMap);
    assert TaskOk(s.mux, task) && RegOk(s, t);
    assert s.holder[AddressMap] == t;
    var n := Next(s, LeaveInner(t));
    assert TaskOk(n.mux, n.tasks[t]) && RegOk(n, t);
    assert n.holder[AddressMap] == t;
    hide Next, Enabled, TasksOk, EntriesOk, PendingsOk;
    DisplaceEntries(s, n, t, task.section.c, task.section.a, task.phase.conn);
    TasksFrame(s, n, t);
  }

  lemma DisplaceEntries(s: State, n: State, t: TaskId, c: ConnId, a: SocketAddr, e: ConnId)
    requires ConnsOk(s) && EntriesOk(s) && PendingsOk(s) && OnlyTask(s, n, t) && t in s.tasks
    requires AddressMap in s.holder && s.holder[AddressMap] == t && AddressMap in n.holder && n.holder[AddressMap] == t
    requires s.tasks[t] == Task(RegEntry(c, a), Inner(e)) && n.tasks[t] == Task(RegEntry(c, a), Displaced)
    requires Displaces(s.mux, c, a) && s.mux.addressMap[a] == e
    requires n.mux == DropAddress(s.mux, e, a) && n.pending == s.pending && n.nextConn == s.nextConn
    ensures ConnsOk(n) && EntriesOk(n) && PendingsOk(n)
  {
    assert forall b :: !Displacing(s, b);
    assert Displacing(n, a);
    assert n.mux.addressMap == s.mux.addressMap && n.mux.addresses.Keys == s.mux.addresses.Keys;
    assert forall x :: x in s.mux.addresses ==>
      forall b :: b != a ==> (b in n.mux.addresses[x] <==> b in s.mux.addresses[x]);
    assert forall x :: x in s.mux.addresses && x != e ==> n.mux.addresses[x] == s.mux.addresses[x];
    forall b | b in n.mux.addressMap ensures EntryOk(n, b) {
      assert EntryOk(s, b);
    }
    forall q | q in n.pending ensures PendingOk(n, q) {
      assert PendingOk(s, q);
    }
  }

  // ---- the sections ---------------------------------------------------------------

  /** What finishing a section does to everything the index depends on. */
  lemma FinishParts(s: State, t: TaskId, localAddr: bool)
    requires LocksOk(s) && Enabled(s, Finish(t, localAddr))
    ensures var n := Next(s, Finish(t, localAddr));
      var (m, next) := Body(s.mux, s.tasks[t], Busy(s, s.tasks[t].section), s.nextConn, localAddr);
      && n.mux == m && n.pending == PendingAfter(s, t, s.tasks[t].section, next)
      && n.nextConn >= s.nextConn && t in n.tasks && n.tasks[t] == Task(next, Waiting)
      && n.holder == s.holder - {OuterLock(s.tasks[t].section).value}
      && (forall x :: x in s.tasks && x != t ==> x in n.tasks && n.tasks[x] == s.tasks[x])
      && (m.key == s.mux.key ==> OnlyTask(s, n, t))
      && (m.key != s.mux.key ==> n.tasks.Keys == s.tasks.Keys + {s.nextTask})
      && (m.key != s.mux.key ==> n.nextConn == s.nextConn + 1)
      && (m.key != s.mux.key ==> n.tasks[s.nextTask] == Task(Watch(s.nextConn), Waiting))
      && Holds(s.tasks[t], OuterLock(s.tasks[t].section).value)
  {
    hide Body, PendingAfter, TraceAfter;
    assert s.nextTask !in s.tasks;
    assert ShapeOk(s.tasks[t]);
  }

  /** After a section that was not displacing anything, the displacements are the same, or none if it
      ran under `address_map`. */
  lemma FinishSteady(s: State, n: State, t: TaskId)
    requires LocksOk(s) && t in s.tasks && t in n.tasks && n.tasks[t].phase.Waiting?
    requires OuterLock(s.tasks[t].section).Some? && Holds(s.tasks[t], OuterLock(s.tasks[t].section).value)
    requires n.holder == s.holder - {OuterLock(s.tasks[t].section).value}
    requires forall x :: x in s.tasks && x != t ==> x in n.tasks && n.tasks[x] == s.tasks[x]
    requires !(s.tasks[t].section.RegEntry? && s.tasks[t].phase.Displaced?)
    ensures Steady(s, n)
    ensures OuterLock(s.tasks[t].section) == Some(AddressMap) ==> forall a :: !Displacing(s, a)
  {
    if OuterLock(s.tasks[t].section) == Some(AddressMap) {
      assert s.holder[AddressMap] == t;
    } else {
      assert !Holds(s.tasks[t], AddressMap) by { assert ShapeOk(s.tasks[t]); }
    }
  }

  /** Sections that touch neither the index nor the registrations under way. */
  predicate Quiet(section: Section) {
    section.GetCheck? || section.RegForget? || section.CloseCheck? || section.CloseTake? || section.CloseNew?
    || section.Route? || section.RouteStun? || section.Seen? || section.Mark?
  }

  lemma QuietEffect(m: Mux<ConnId>, task: Task, busy: bool, made: ConnId, localAddr: bool)
    requires Quiet(task.section)
    ensures var n := Effect(m, task, busy, made, localAddr);
      SameIndex(m, n) && n.conns == m.conns && (!task.section.CloseTake? ==> n.closed == m.closed)
  {
    hide Effect;
    if task.section.RegForget? || task.section.Mark? || task.section.CloseNew? || task.section.Seen? {
      ReportEffect(m, task, busy, made, localAddr);
    } else {
      FlagEffect(m, task, busy, made, localAddr);
    }
  }

  lemma ReportEffect(m: Mux<ConnId>, task: Task, busy: bool, made: ConnId, localAddr: bool)
    requires task.section.RegForget? || task.section.Mark? || task.section.CloseNew? || task.section.Seen?
    ensures var n := Effect(m, task, busy, made, localAddr);
      n == m.(newAddrs := n.newAddrs, listening := n.listening)
  {
    hide Announcement;
  }

  lemma FlagEffect(m: Mux<ConnId>, task: Task, busy: bool, made: ConnId, localAddr: bool)
    requires Quiet(task.section)
    requires !(task.section.RegForget? || task.section.Mark? || task.section.CloseNew? || task.section.Seen?)
    ensures var n := Effect(m, task, busy, made, localAddr);
      n == m.(closed := n.closed) && (!task.section.CloseTake? ==> n == m)
  {}

  lemma QuietLead(m: Mux<ConnId>, n: Mux<ConnId>, task: Task, busy: bool)
    requires Quiet(task.section)
    ensures TaskOk(n, Task(Lead(m, task, busy), Waiting))
    ensures forall q :: !Registers(Lead(m, task, busy), q)
  {
    hide Announcement, LocalSegment;
  }

  lemma QuietKeeps(s: State, t: TaskId, localAddr: bool)
    requires Sound(s) && Enabled(s, Finish(t, localAddr)) && Quiet(s.tasks[t].section)
    ensures IndexOk(Next(s, Finish(t, localAddr)))
  {
    var n := Next(s, Finish(t, localAddr));
    FinishParts(s, t, localAddr);
    QuietEffect(s.mux, s.tasks[t], Busy(s, s.tasks[t].section), s.nextConn, localAddr);
    QuietLead(s.mux, n.mux, s.tasks[t], Busy(s, s.tasks[t].section));
    hide Effect, Lead, Next;
    FinishSteady(s, n, t);
    Frame(s, n, t);
  }

  lemma RemoveTakeKeeps(s: State, t: TaskId, localAddr: bool)
    requires Sound(s) && Enabled(s, Finish(t, localAddr)) && s.tasks[t].section.RemoveTake?
    ensures IndexOk(Next(s, Finish(t, localAddr)))
  {
    var n := Next(s, Finish(t, localAddr));
    var u := s.tasks[t].section.u;
    FinishParts(s, t, localAddr);
    assert n.mux == TakeConn(s.mux, u) && n.pending == s.pending;
    assert n.tasks[t].section == if u in s.mux.conns then RemoveEntries(s.mux.conns[u]) else Done;
    hide Next, Body, Effect, Lead, EntriesOk, PendingsOk, TasksOk;
    FinishSteady(s, n, t);
    Frame(s, n, t);
  }

  lemma CloseConnsKeeps(s: State, t: TaskId, localAddr: bool)
    requires Sound(s) && Enabled(s, Finish(t, localAddr)) && s.tasks[t].section.CloseConns?
    ensures IndexOk(Next(s, Finish(t, localAddr)))
  {
    var n := Next(s, Finish(t, localAddr));
    FinishParts(s, t, localAddr);
    hide Next;
    FinishSteady(s, n, t);
    Frame(s, n, t);
  }

  /** Dropping entries while holding `address_map`, with nothing being displaced. */
  lemma DropEntriesKeeps(s: State, n: State, t: TaskId)
    requires Sound(s) && OnlyTask(s, n, t) && Steady(s, n) && t in s.tasks && Holds(s.tasks[t], AddressMap)
    requires n.mux.key == s.mux.key && n.mux.addresses == s.mux.addresses && n.mux.conns == s.mux.conns
    requires n.pending == s.pending && n.nextConn == s.nextConn
    requires forall a :: a in n.mux.addressMap ==> a in s.mux.addressMap && n.mux.addressMap[a] == s.mux.addressMap[a]
    requires s.tasks[t].section.RemoveEntries? || s.tasks[t].section.CloseMap?
    requires n.tasks[t].section.Done? || n.tasks[t].section.CloseNew?
    ensures IndexOk(n)
  {
    hide TasksOk;
    DropEntries(s, n, t);
    assert RegOk(n, t);
    hide EntriesOk, PendingsOk;
    TasksFrame(s, n, t);
  }

  lemma DropEntries(s: State, n: State, t: TaskId)
    requires ConnsOk(s) && EntriesOk(s) && PendingsOk(s) && OnlyTask(s, n, t) && t in s.tasks && Steady(s, n)
    requires n.mux.key == s.mux.key && n.mux.addresses == s.mux.addresses && n.mux.conns == s.mux.conns
    requires n.pending == s.pending && n.nextConn == s.nextConn
    requires forall a :: a in n.mux.addressMap ==> a in s.mux.addressMap && n.mux.addressMap[a] == s.mux.addressMap[a]
    requires s.tasks[t].section.RemoveEntries? || s.tasks[t].section.CloseMap?
    ensures ConnsOk(n) && EntriesOk(n) && PendingsOk(n)
  {
    forall a | a in n.mux.addressMap ensures EntryOk(n, a) {
      assert EntryOk(s, a);
    }
    forall q | q in n.pending ensures PendingOk(n, q) {
      assert PendingOk(s, q);
    }
  }

  lemma RemoveEntriesKeeps(s: State, t: TaskId, localAddr: bool)
    requires Sound(s) && Enabled(s, Finish(t, localAddr)) && s.tasks[t].section.RemoveEntries?
    ensures IndexOk(Next(s, Finish(t, localAddr)))
  {
    var n := Next(s, Finish(t, localAddr));
    FinishParts(s, t, localAddr);
    hide Next, IndexOk;
    FinishSteady(s, n, t);
    DropEntriesKeeps(s, n, t);
  }

  lemma CloseMapKeeps(s: State, t: TaskId, localAddr: bool)
    requires Sound(s) && Enabled(s, Finish(t, localAddr)) && s.tasks[t].section.CloseMap?
    ensures IndexOk(Next(s, Finish(t, localAddr)))
  {
    var n := Next(s, Finish(t, localAddr));
    FinishParts(s, t, localAddr);
    hide Next, IndexOk;
    FinishSteady(s, n, t);
    DropEntriesKeeps(s, n, t);
  }

  lemma RegCheckKeeps(s: State, t: TaskId, localAddr: bool)
    requires Sound(s) && Enabled(s, Finish(t, localAddr)) && s.tasks[t].section.RegCheck?
    ensures IndexOk(Next(s, Finish(t, localAddr)))
  {
    var n := Next(s, Finish(t, localAddr));
    FinishParts(s, t, localAddr);
    hide Next, IndexOk;
    FinishSteady(s, n, t);
    if s.mux.closed {
      EndRegistrationKeeps(s, n, t, (s.tasks[t].section.c, s.tasks[t].section.a));
    } else {
      Frame(s, n, t);
    }
  }

  /** A registration that gives up. */
  lemma EndRegistrationKeeps(s: State, n: State, t: TaskId, q: (ConnId, SocketAddr))
    requires Sound(s) && OnlyTask(s, n, t) && Steady(s, n) && t in s.tasks
    requires n.mux == s.mux && n.nextConn == s.nextConn && n.pending == s.pending - {q}
    requires Registers(s.tasks[t].section, q) && n.tasks[t].section.Done?
    ensures IndexOk(n)
  {
    assert RegOk(s, t) && RegOk(n, t);
    hide TasksOk;
    EndRegistration(s, n, t, q);
    hide EntriesOk, PendingsOk;
    TasksFrame(s, n, t);
  }

  lemma EndRegistration(s: State, n: State, t: TaskId, q: (ConnId, SocketAddr))
    requires ConnsOk(s) && EntriesOk(s) && PendingsOk(s) && OnlyTask(s, n, t) && Steady(s, n) && t in s.tasks
    requires n.mux == s.mux && n.nextConn == s.nextConn && n.pending == s.pending - {q}
    requires Registers(s.tasks[t].section, q)
    ensures ConnsOk(n) && EntriesOk(n) && PendingsOk(n)
  {
    forall a | a in n.mux.addressMap ensures EntryOk(n, a) {
      assert EntryOk(s, a);
    }
    forall p | p in n.pending ensures PendingOk(n, p) {
      assert PendingOk(s, p);
    }
  }

  lemma AddKeeps(s: State, t: TaskId, localAddr: bool)
    requires Sound(s) && Enabled(s, Finish(t, localAddr)) && s.tasks[t].section.Add?
    ensures IndexOk(Next(s, Finish(t, localAddr)))
  {
    var n := Next(s, Finish(t, localAddr));
    var c, a := s.tasks[t].section.c, s.tasks[t].section.a;
    FinishParts(s, t, localAddr);
    assert TaskOk(s.mux, s.tasks[t]);
    assert c in s.mux.addresses;
    assert if a in s.mux.addresses[c] || (c, a) in s.pending
      then n.mux == s.mux && n.pending == s.pending && n.tasks[t].section.Done?
      else n.mux == AddAddress(s.mux, c, a) && n.pending == s.pending[(c, a) := t]
           && n.tasks[t].section == RegCheck(c, a);
    hide Next, Body, Effect, Lead, PendingAfter, IndexOk;
    FinishSteady(s, n, t);
    if a in s.mux.addresses[c] || (c, a) in s.pending {
      Frame(s, n, t);
    } else {
      BeginRegistrationKeeps(s, n, t, c, a);
    }
  }

  /** A connection puts a new address in its set and begins to register it. */
  lemma BeginRegistrationKeeps(s: State, n: State, t: TaskId, c: ConnId, a: SocketAddr)
    requires Sound(s) && OnlyTask(s, n, t) && Steady(s, n) && t in s.tasks
    requires c in s.mux.key && c in s.mux.addresses && a !in s.mux.addresses[c] && (c, a) !in s.pending
    requires n.mux == AddAddress(s.mux, c, a) && n.nextConn == s.nextConn && n.pending == s.pending[(c, a) := t]
    requires s.tasks[t].section.Add? && n.tasks[t] == Task(RegCheck(c, a), Waiting)
    ensures IndexOk(n)
  {
    assert RegOk(n, t);
    hide TasksOk, LocksOk;
    BeginRegistration(s, n, t, c, a);
    hide EntriesOk, PendingsOk;
    TasksFrame(s, n, t);
  }

  lemma BeginRegistration(s: State, n: State, t: TaskId, c: ConnId, a: SocketAddr)
    requires ConnsOk(s) && EntriesOk(s) && PendingsOk(s) && OnlyTask(s, n, t) && Steady(s, n) && t in s.tasks
    requires c in s.mux.key && c in s.mux.addresses && a !in s.mux.addresses[c]
    requires n.mux == AddAddress(s.mux, c, a) && n.nextConn == s.nextConn && n.pending == s.pending[(c, a) := t]
    requires s.tasks[t].section.Add? && n.tasks[t] == Task(RegCheck(c, a), Waiting)
    ensures ConnsOk(n) && EntriesOk(n) && PendingsOk(n)
  {
    forall b | b in n.mux.addressMap ensures EntryOk(n, b) {
      assert EntryOk(s, b);
    }
    forall p | p in n.pending ensures PendingOk(n, p) {
      if p == (c, a) {
        assert a in s.mux.addressMap ==> EntryOk(s, a);
      } else {
        assert PendingOk(s, p);
      }
    }
  }

  /** The entry is written, or kept because its connection carries the same ufrag. */
  lemma EnterKeeps(s: State, n: State, t: TaskId, c: ConnId, a: SocketAddr)
    requires Sound(s) && OnlyTask(s, n, t) && t in s.tasks && s.tasks[t].section == RegEntry(c, a)
    requires Holds(s.tasks[t], AddressMap) && n.holder == s.holder - {AddressMap}
    requires n.mux == SetEntry(s.mux, c, a) || (n.mux == s.mux && a in s.mux.addressMap && !s.tasks[t].phase.Displaced?)
    requires n.nextConn == s.nextConn && n.pending == s.pending - {(c, a)}
    requires n.tasks[t] == Task(RegForget(a), Waiting)
    ensures IndexOk(n)
  {
    hide TasksOk, EntriesOk, PendingsOk, LocksOk;
    TaskIsOk(s, t);
    HolderIs(s, t, AddressMap);
    assert Registers(s.tasks[t].section, (c, a));
    assert RegOk(n, t);
    Enter(s, n, t, c, a);
    TasksFrame(s, n, t);
  }

  lemma Enter(s: State, n: State, t: TaskId, c: ConnId, a: SocketAddr)
    requires ConnsOk(s) && EntriesOk(s) && PendingsOk(s) && OnlyTask(s, n, t) && t in s.tasks
    requires s.tasks[t].section == RegEntry(c, a)
    requires AddressMap in s.holder && s.holder[AddressMap] == t && n.holder == s.holder - {AddressMap}
    requires (c, a) in s.pending && s.pending[(c, a)] == t
    requires n.mux == SetEntry(s.mux, c, a) || (n.mux == s.mux && a in s.mux.addressMap && !s.tasks[t].phase.Displaced?)
    requires n.nextConn == s.nextConn && n.pending == s.pending - {(c, a)}
    ensures ConnsOk(n) && EntriesOk(n) && PendingsOk(n)
  {
    assert PendingOk(s, (c, a));
    assert forall b :: Displacing(s, b) ==> b == a && s.tasks[t].phase.Displaced?;
    forall b | b in n.mux.addressMap ensures EntryOk(n, b) {
      assert b in s.mux.addressMap ==> EntryOk(s, b);
    }
    forall p | p in n.pending ensures PendingOk(n, p) {
      assert PendingOk(s, p);
    }
  }

  lemma RegEntryKeeps(s: State, t: TaskId, localAddr: bool)
    requires Sound(s) && Enabled(s, Finish(t, localAddr)) && s.tasks[t].section.RegEntry?
    ensures IndexOk(Next(s, Finish(t, localAddr)))
  {
    var n := Next(s, Finish(t, localAddr));
    FinishParts(s, t, localAddr);
    hide Next, Lead, IndexOk;
    EnterKeeps(s, n, t, s.tasks[t].section.c, s.tasks[t].section.a);
  }

  /** A new connection: nobody knows it yet. */
  lemma CreateKeeps(s: State, n: State, t: TaskId, u: Ufrag)
    requires Sound(s) && t in s.tasks && s.tasks[t].section == GetInsert(u) && Steady(s, n)
    requires n.mux == InsertConn(s.mux, u, s.nextConn) && n.nextConn == s.nextConn + 1 && n.pending == s.pending
    requires n.tasks.Keys == s.tasks.Keys + {s.nextTask} && s.nextTask !in s.tasks
    requires n.tasks[t] == Task(Done, Waiting) && n.tasks[s.nextTask] == Task(Watch(s.nextConn), Waiting)
    requires forall x :: x in s.tasks && x != t ==> n.tasks[x] == s.tasks[x]
    ensures IndexOk(n)
  {
    assert s.nextConn !in s.mux.key;
    hide TasksOk, EntriesOk, PendingsOk;
    CreateTasks(s, n, t, u);
    CreateEntries(s, n, t, u);
  }

  lemma CreateEntries(s: State, n: State, t: TaskId, u: Ufrag)
    requires ConnsOk(s) && EntriesOk(s) && PendingsOk(s) && s.nextConn !in s.mux.key && Steady(s, n)
    requires n.mux == InsertConn(s.mux, u, s.nextConn) && n.nextConn == s.nextConn + 1 && n.pending == s.pending
    requires t in s.tasks && s.tasks[t].section.GetInsert?
    requires forall x :: x in s.tasks && x != t ==> x in n.tasks && n.tasks[x] == s.tasks[x]
    ensures ConnsOk(n) && EntriesOk(n) && PendingsOk(n)
  {
    forall a | a in n.mux.addressMap ensures EntryOk(n, a) {
      assert EntryOk(s, a);
    }
    forall q | q in n.pending ensures PendingOk(n, q) {
      assert PendingOk(s, q);
    }
  }

  lemma CreateTasks(s: State, n: State, t: TaskId, u: Ufrag)
    requires ConnsOk(s) && TasksOk(s) && s.nextConn !in s.mux.key && t in s.tasks
    requires n.mux == InsertConn(s.mux, u, s.nextConn) && n.pending == s.pending
    requires n.tasks.Keys == s.tasks.Keys + {s.nextTask} && s.nextTask !in s.tasks
    requires n.tasks[t] == Task(Done, Waiting) && n.tasks[s.nextTask] == Task(Watch(s.nextConn), Waiting)
    requires forall x :: x in s.tasks && x != t ==> n.tasks[x] == s.tasks[x]
    ensures TasksOk(n)
  {
    forall x | x in n.tasks ensures TaskOk(n.mux, n.tasks[x]) && RegOk(n, x) {
      if x in s.tasks && x != t {
        assert TaskOk(s.mux, s.tasks[x]) && RegOk(s, x);
        OlderTaskOk(s.mux, u, s.nextConn, s.tasks[x]);
      }
    }
  }

  lemma OlderTaskOk(m: Mux<ConnId>, u: Ufrag, made: ConnId, task: Task)
    requires Known(m) && made !in m.key && TaskOk(m, task)
    ensures TaskOk(InsertConn(m, u, made), task)
  {}

  lemma GetInsertKeeps(s: State, t: TaskId, localAddr: bool)
    requires Sound(s) && Enabled(s, Finish(t, localAddr)) && s.tasks[t].section.GetInsert?
    ensures IndexOk(Next(s, Finish(t, localAddr)))
  {
    var n := Next(s, Finish(t, localAddr));
    var u := s.tasks[t].section.u;
    FinishParts(s, t, localAddr);
    assert s.nextConn !in s.mux.key && s.nextTask !in s.tasks;
    assert n.pending == s.pending && n.tasks[t].section.Done?;
    assert n.mux == if u in s.mux.conns || !localAddr then s.mux else InsertConn(s.mux, u, s.nextConn);
    hide Next, Body, Effect, Lead, PendingAfter, IndexOk;
    FinishSteady(s, n, t);
    if u in s.mux.conns || !localAddr {
      Frame(s, n, t);
    } else {
      assert s.nextConn in n.mux.key;
      CreateKeeps(s, n, t, u);
    }
  }

  // ---- runs -------------------------------------------------------------------------

  lemma FinishKeeps(s: State, t: TaskId, localAddr: bool)
    requires Sound(s) && Enabled(s, Finish(t, localAddr))
    ensures IndexOk(Next(s, Finish(t, localAddr)))
  {
    hide Next, IndexOk;
    match s.tasks[t].section
    case GetInsert(_) => GetInsertKeeps(s, t, localAddr);
    case RemoveTake(_) => RemoveTakeKeeps(s, t, localAddr);
    case RemoveEntries(_) => RemoveEntriesKeeps(s, t, localAddr);
    case Add(_, _) => AddKeeps(s, t, localAddr);
    case RegCheck(_, _) => RegCheckKeeps(s, t, localAddr);
    case RegEntry(_, _) => RegEntryKeeps(s, t, localAddr);
    case CloseConns => CloseConnsKeeps(s, t, localAddr);
    case CloseMap => CloseMapKeeps(s, t, localAddr);
    case _ => QuietKeeps(s, t, localAddr);
  }

  lemma StepKeeps(s: State, step: Step)
    requires Sound(s) && Enabled(s, step)
    ensures Sound(Next(s, step))
  {
    LocksKept(s, step);
    hide Next, IndexOk, LocksOk;
    match step
    case Call(entry) => CallKeeps(s, entry);
    case Shut(c) => ShutKeeps(s, c);
    case Wake(t) => WakeKeeps(s, t);
    case Acquire(t) => AcquireKeeps(s, t);
    case AcquireInner(t) => AcquireInnerKeeps(s, t);
    case LeaveInner(t) =>
      if s.tasks[t].section.RemoveEntries? { ListKeeps(s, t); } else { DisplaceKeeps(s, t); }
    case Finish(t, localAddr) => FinishKeeps(s, t, localAddr);
    case _ => WorkerStepKeeps(s, step);
  }

  lemma {:induction false} RunSound(steps: seq<Step>, states: seq<State>, i: nat)
    requires Run(steps, states) && i <= |steps|
    ensures Sound(states[i])
  {
    if i > 0 {
      RunSound(steps, states, i - 1);
      assert Happens(steps, states, i - 1);
      hide Next, Enabled, Sound, Run;
      StepKeeps(states[i - 1], steps[i - 1]);
    }
  }

  /** In every state of every interleaving in which nobody holds `address_map`, an entry points at a
      connection that has the address in its own set, and `conns[u]` has key `u`. */
  lemma EntriesBackedBySets(steps: seq<Step>, states: seq<State>, i: nat, a: SocketAddr, u: Ufrag)
    requires Run(steps, states) && i <= |steps|
    ensures var m := states[i].mux;
      a in m.addressMap && AddressMap !in states[i].holder ==>
        m.addressMap[a] in m.addresses && a in m.addresses[m.addressMap[a]]
    ensures var m := states[i].mux;
      u in m.conns ==> m.conns[u] in m.key && m.key[m.conns[u]] == u
  {
    RunSound(steps, states, i);
    assert a in states[i].mux.addressMap ==> EntryOk(states[i], a);
  }

  /** Right after the second section of a removal, in any interleaving, no entry points at the removed
      connection, and no entry of another connection was created or redirected. */
  lemma RemovalLeavesNoEntry(steps: seq<Step>, states: seq<State>, i: nat, t: TaskId, a: SocketAddr)
    requires Run(steps, states) && i < |steps| && steps[i].Finish? && steps[i].t == t
    requires t in states[i].tasks && states[i].tasks[t].section.RemoveEntries?
    ensures a in states[i + 1].mux.addressMap ==>
      && states[i + 1].mux.addressMap[a] != states[i].tasks[t].section.c
      && a in states[i].mux.addressMap && states[i].mux.addressMap[a] == states[i + 1].mux.addressMap[a]
  {
    RunSound(steps, states, i);
    assert Happens(steps, states, i);
    assert TaskOk(states[i].mux, states[i].tasks[t]);
  }
}
