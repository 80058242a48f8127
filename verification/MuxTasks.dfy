/**
 The mux with every lock acquisition and every lock-delimited section as a separate step of a task,
 so that any number of calls, the receive worker and the removal watchers interleave freely.
*/
module MuxTasks {
  import opened Wrappers
  import opened Addresses
  import opened MuxState
  import opened ReportLog

  type ConnId = nat
  type TaskId = nat

  datatype Lock = ClosedTx | Conns | AddressMap | NewAddrs | AddrSet(conn: ConnId)

  /** Where a task stands: the section it is in, or is about to enter. */
  datatype Section =
    | GetCheck(u: Ufrag) | GetInsert(u: Ufrag)
    | Watch(c: ConnId)
    | RemoveTake(u: Ufrag) | RemoveEntries(c: ConnId)
    | Add(c: ConnId, a: SocketAddr)
    | RegCheck(c: ConnId, a: SocketAddr) | RegEntry(c: ConnId, a: SocketAddr) | RegForget(a: SocketAddr)
    | CloseCheck | CloseTake | CloseConns | CloseMap | CloseNew
    | Idle | Route(p: Packet) | RouteStun(p: Packet) | Seen(p: Packet) | Announce(p: Packet) | Mark(a: SocketAddr)
    | Done

  /** Progress inside a section; the last three occur while `AddressMap` is held. */
  datatype Phase =
    | Waiting
    | Holding
    | Inner(conn: ConnId)             // also holding that connection's address set
    | Listed(addrs: set<SocketAddr>)  // copied the removed connection's addresses
    | Displaced                       // took the address away from its previous connection

  datatype Task = Task(section: Section, phase: Phase)

  /** Bookkeeping that no task reads. */
  datatype Trace = Trace(
    log: seq<Event>,
    lateGets: set<TaskId>,             // get_conn calls past their check when the flag flipped
    lateRegs: set<TaskId>,             // registrations past their check when the flag flipped
    connsDrained: bool,
    mapDrained: bool,
    putBy: map<Ufrag, TaskId>,         // which call last inserted each ufrag in conns
    entryBy: map<SocketAddr, TaskId>)  // which call last wrote each entry of address_map

  datatype State = State(
    mux: Mux<ConnId>,
    tasks: map<TaskId, Task>,
    holder: map<Lock, TaskId>,
    pending: map<(ConnId, SocketAddr), TaskId>,  // registrations begun and not yet entered
    nextTask: TaskId,
    nextConn: ConnId,
    trace: Trace)

  const WORKER: TaskId := 0

  ghost function Start(): State {
    State(Initial(), map[WORKER := Task(Idle, Waiting)], map[], map[], 1, 0,
          Trace([], {}, {}, false, false, map[], map[]))
  }

  /** The lock a section runs under. */
  function OuterLock(section: Section): Option<Lock> {
    match section
    case GetCheck(_) => Some(ClosedTx)
    case GetInsert(_) => Some(Conns)
    case RemoveTake(_) => Some(Conns)
    case RemoveEntries(_) => Some(AddressMap)
    case Add(c, _) => Some(AddrSet(c))
    case RegCheck(_, _) => Some(ClosedTx)
    case RegEntry(_, _) => Some(AddressMap)
    case RegForget(_) => Some(NewAddrs)
    case CloseCheck => Some(ClosedTx)
    case CloseTake => Some(ClosedTx)
    case CloseConns => Some(Conns)
    case CloseMap => Some(AddressMap)
    case CloseNew => Some(NewAddrs)
    case Route(_) => Some(AddressMap)
    case RouteStun(_) => Some(Conns)
    case Seen(_) => Some(NewAddrs)
    case Mark(_) => Some(NewAddrs)
    case _ => None
  }

  /** The connection whose address set a section must also lock. */
  ghost function InnerNeed(m: Mux<ConnId>, section: Section): Option<ConnId> {
    match section
    case RemoveEntries(c) => Some(c)
    case RegEntry(c, a) => if Displaces(m, c, a) then Some(m.addressMap[a]) else None
    case _ => None
  }

  /** A section's effect on the mux. `busy`: a registration of the same connection and address is under
      way, so the connection does not begin a second one. */
  ghost function Effect(m: Mux<ConnId>, task: Task, busy: bool, made: ConnId, localAddr: bool): Mux<ConnId> {
    match task.section
    case GetInsert(u) => if u in m.conns || !localAddr then m else InsertConn(m, u, made)
    case RemoveTake(u) => TakeConn(m, u)
    case RemoveEntries(c) => if task.phase.Listed? then EraseEntries(m, task.phase.addrs) else m
    case Add(c, a) => if c in m.addresses && a !in m.addresses[c] && !busy then AddAddress(m, c, a) else m
    case RegEntry(c, a) => if a !in m.addressMap || task.phase.Displaced? then SetEntry(m, c, a) else m
    case RegForget(a) => Forget(m, a)
    case CloseTake => m.(closed := true)
    case CloseConns => DrainConns(m)
    case CloseMap => m.(addressMap := map[])
    case CloseNew => m.(newAddrs := {})
    case Seen(p) =>
      if p.source !in m.newAddrs && p.username.Some? && Announcement(p).None? then m.(listening := false) else m
    case Mark(a) => MarkReported(m, a)
    case _ => m
  }

  /** Where the task goes next. */
  ghost function Lead(m: Mux<ConnId>, task: Task, busy: bool): Section {
    match task.section
    case GetCheck(u) => if m.closed then Done else GetInsert(u)
    case RemoveTake(u) => if u in m.conns then RemoveEntries(m.conns[u]) else Done
    case Add(c, a) => if c in m.addresses && a !in m.addresses[c] && !busy then RegCheck(c, a) else Done
    case RegCheck(c, a) => if m.closed then Done else RegEntry(c, a)
    case RegEntry(c, a) => RegForget(a)
    case CloseCheck => if m.closed then Done else CloseTake
    case CloseTake => if m.closed then Done else CloseConns
    case CloseConns => CloseMap
    case CloseMap => CloseNew
    case Route(p) =>
      if p.source in m.addressMap then Idle else if p.stun && p.username.Some? then RouteStun(p) else Seen(p)
    case RouteStun(p) =>
      if p.username.Some? && LocalSegment(p.username.value) in m.conns then Idle else Seen(p)
    case Seen(p) =>
      if p.source in m.newAddrs || p.username.None? then Idle
      else if Announcement(p).None? then Done
      else Announce(p)
    case Mark(_) => Idle
    case _ => Done
  }

  ghost function Body(m: Mux<ConnId>, task: Task, busy: bool, made: ConnId, localAddr: bool): (Mux<ConnId>, Section) {
    (Effect(m, task, busy, made, localAddr), Lead(m, task, busy))
  }

  ghost function PendingAfter(s: State, t: TaskId, section: Section, next: Section): map<(ConnId, SocketAddr), TaskId> {
    match section
    case Add(c, a) => if next.RegCheck? then s.pending[(c, a) := t] else s.pending
    case RegCheck(c, a) => if next.Done? then s.pending - {(c, a)} else s.pending
    case RegEntry(c, a) => s.pending - {(c, a)}
    case _ => s.pending
  }

  ghost function TasksIn(s: State, inside: Section -> bool): set<TaskId> {
    set t | t in s.tasks && inside(s.tasks[t].section)
  }

  ghost function TraceAfter(s: State, t: TaskId, n: Mux<ConnId>): Trace
    requires t in s.tasks
  {
    var r := s.trace;
    match s.tasks[t].section
    case GetInsert(u) => if u in n.conns && u !in s.mux.conns then r.(putBy := r.putBy[u := t]) else r
    case RegEntry(c, a) =>
      if a !in s.mux.addressMap || s.tasks[t].phase.Displaced? then r.(entryBy := r.entryBy[a := t]) else r
    case RegForget(a) => r.(log := r.log + [Forgot(a)])
    case CloseTake =>
      if s.mux.closed then r
      else r.(lateGets := TasksIn(s, (x: Section) => x.GetInsert?), lateRegs := TasksIn(s, (x: Section) => x.RegEntry?))
    case CloseConns => r.(connsDrained := true)
    case CloseMap => r.(mapDrained := true)
    case CloseNew => r.(log := r.log + [Cleared])
    case _ => r
  }

  datatype Step =
    | Call(entry: Section)        // somebody calls the mux, or a connection sends to an address
    | Arrive(packet: Packet)      // the worker receives
    | Shut(c: ConnId)             // the owner of a connection closes it
    | Wake(t: TaskId)             // a removal watcher sees its connection closed
    | WorkerStops                 // a receive error or the close signal
    | TrySend(accepted: bool)     // the worker sends the new address to the listeners
    | Acquire(t: TaskId)
    | AcquireInner(t: TaskId)
    | LeaveInner(t: TaskId)
    | Finish(t: TaskId, localAddr: bool)

  /** A registration of the same connection and address is already under way. */
  ghost predicate Busy(s: State, section: Section) {
    section.Add? && (section.c, section.a) in s.pending
  }

  ghost predicate Enabled(s: State, step: Step) {
    match step
    case Call(entry) =>
      entry.GetCheck? || entry.RemoveTake? || entry.CloseCheck? || (entry.Add? && entry.c in s.mux.key)
    case Arrive(_) => WORKER in s.tasks && s.tasks[WORKER].section.Idle?
    case Shut(c) => c in s.mux.key
    case Wake(t) =>
      t in s.tasks && s.tasks[t].section.Watch? && s.tasks[t].section.c in s.mux.shut
      && s.tasks[t].section.c in s.mux.key
    case WorkerStops => WORKER in s.tasks && s.tasks[WORKER].section.Idle?
    case TrySend(_) => WORKER in s.tasks && s.tasks[WORKER].section.Announce?
    case Acquire(t) =>
      t in s.tasks && s.tasks[t].phase.Waiting? && OuterLock(s.tasks[t].section).Some?
      && OuterLock(s.tasks[t].section).value !in s.holder
    case AcquireInner(t) =>
      t in s.tasks && s.tasks[t].phase.Holding? && InnerNeed(s.mux, s.tasks[t].section).Some?
      && AddrSet(InnerNeed(s.mux, s.tasks[t].section).value) !in s.holder
    case LeaveInner(t) =>
      t in s.tasks && s.tasks[t].phase.Inner? && s.tasks[t].phase.conn in s.mux.addresses
      && (s.tasks[t].section.RemoveEntries? || s.tasks[t].section.RegEntry?)
    case Finish(t, _) =>
      t in s.tasks && OuterLock(s.tasks[t].section).Some?
      && match s.tasks[t].phase
         case Holding => InnerNeed(s.mux, s.tasks[t].section).None?
         case Listed(_) => true
         case Displaced => true
         case _ => false
  }

  ghost function Next(s: State, step: Step): State
    requires Enabled(s, step)
  {
    match step
    case Call(entry) =>
      s.(tasks := s.tasks[s.nextTask := Task(entry, Waiting)], nextTask := s.nextTask + 1)
    case Arrive(p) => s.(tasks := s.tasks[WORKER := Task(Route(p), Waiting)])
    case Shut(c) => s.(mux := s.mux.(shut := s.mux.shut + {c}))
    case Wake(t) => s.(tasks := s.tasks[t := Task(RemoveTake(s.mux.key[s.tasks[t].section.c]), Waiting)])
    case WorkerStops =>
      s.(mux := s.mux.(listening := false), tasks := s.tasks[WORKER := Task(Done, Waiting)])
    case TrySend(accepted) =>
      var a := s.tasks[WORKER].section.p.source;
      if accepted then
        s.(tasks := s.tasks[WORKER := Task(Mark(a), Waiting)], trace := s.trace.(log := s.trace.log + [Sent(a)]))
      else s.(tasks := s.tasks[WORKER := Task(Idle, Waiting)])
    case Acquire(t) =>
      s.(tasks := s.tasks[t := s.tasks[t].(phase := Holding)],
         holder := s.holder[OuterLock(s.tasks[t].section).value := t])
    case AcquireInner(t) =>
      var c := InnerNeed(s.mux, s.tasks[t].section).value;
      s.(tasks := s.tasks[t := s.tasks[t].(phase := Inner(c))], holder := s.holder[AddrSet(c) := t])
    case LeaveInner(t) =>
      var task := s.tasks[t];
      var c := task.phase.conn;
      if task.section.RemoveEntries? then
        s.(tasks := s.tasks[t := task.(phase := Listed(s.mux.addresses[c]))], holder := s.holder - {AddrSet(c)})
      else
        s.(mux := DropAddress(s.mux, c, task.section.a),
           tasks := s.tasks[t := task.(phase := Displaced)], holder := s.holder - {AddrSet(c)})
    case Finish(t, localAddr) =>
      var task := s.tasks[t];
      var (n, next) := Body(s.mux, task, Busy(s, task.section), s.nextConn, localAddr);
      var creates := n.key != s.mux.key;
      var moved := s.tasks[t := Task(next, Waiting)];
      State(n,
            if creates then moved[s.nextTask := Task(Watch(s.nextConn), Waiting)] else moved,
            s.holder - {OuterLock(task.section).value},
            PendingAfter(s, t, task.section, next),
            if creates then s.nextTask + 1 else s.nextTask,
            if creates then s.nextConn + 1 else s.nextConn,
            TraceAfter(s, t, n))
  }

  /** Step `i` is enabled and leads from the state before it to the state after it. */
  ghost predicate Happens(steps: seq<Step>, states: seq<State>, i: nat) {
    && i < |steps| && i + 1 < |states|
    && Enabled(states[i], steps[i]) && states[i + 1] == Next(states[i], steps[i])
  }

  /** The state after each step of an interleaving. */
  ghost predicate Run(steps: seq<Step>, states: seq<State>) {
    && |states| == |steps| + 1 && states[0] == Start()
    && forall i: nat :: i < |steps| ==> Happens(steps, states, i)
  }

  // ---- locks ---------------------------------------------------------------

  ghost predicate Holds(task: Task, l: Lock) {
    || (!task.phase.Waiting? && OuterLock(task.section) == Some(l))
    || (task.phase.Inner? && l == AddrSet(task.phase.conn))
  }

  ghost predicate ShapeOk(task: Task) {
    match task.phase
    case Waiting => true
    case Holding => OuterLock(task.section).Some?
    case Inner(c) => task.section.RegEntry? || task.section == RemoveEntries(c)
    case Listed(_) => task.section.RemoveEntries?
    case Displaced => task.section.RegEntry?
  }

  /** Who holds which lock, seen from the locks and from the tasks. */
  ghost predicate LocksOk(s: State) {
    && WORKER in s.tasks
    && (forall t :: t in s.tasks ==> t < s.nextTask && ShapeOk(s.tasks[t]))
    && (forall l :: l in s.holder ==> s.holder[l] in s.tasks && Holds(s.tasks[s.holder[l]], l))
    && (forall t, l :: t in s.tasks && Holds(s.tasks[t], l) ==> l in s.holder && s.holder[l] == t)
  }

  /** Replacing one task keeps the lock bookkeeping if its locks are replaced with it. */
  lemma ReplaceTask(s: State, n: State, t: TaskId)
    requires LocksOk(s) && t in n.tasks && t < n.nextTask && s.nextTask <= n.nextTask && ShapeOk(n.tasks[t])
    requires n.tasks.Keys == s.tasks.Keys + {t}
    requires forall x :: x in s.tasks && x != t ==> n.tasks[x] == s.tasks[x]
    requires forall l :: l in n.holder ==> if n.holder[l] == t then Holds(n.tasks[t], l)
                                           else l in s.holder && s.holder[l] == n.holder[l]
    requires forall l :: Holds(n.tasks[t], l) ==> l in n.holder && n.holder[l] == t
    requires forall l :: l in s.holder && s.holder[l] != t ==> l in n.holder && n.holder[l] == s.holder[l]
    ensures LocksOk(n)
  {}

  lemma LocksKept(s: State, step: Step)
    requires LocksOk(s) && Enabled(s, step)
    ensures LocksOk(Next(s, step))
  {
    match step
    case Call(entry) => ReplaceTask(s, Next(s, step), s.nextTask);
    case Arrive(_) => WorkerStepKeepsLocks(s, step);
    case Shut(c) =>
    case Wake(t) => ReplaceTask(s, Next(s, step), t);
    case WorkerStops => WorkerStepKeepsLocks(s, step);
    case TrySend(_) => WorkerStepKeepsLocks(s, step);
    case Acquire(t) => AcquireKeepsLocks(s, t);
    case AcquireInner(t) => AcquireInnerKeepsLocks(s, t);
    case LeaveInner(t) => LeaveInnerKeepsLocks(s, t);
    case Finish(t, localAddr) => FinishKeepsLocks(s, t, localAddr);
  }

  lemma WorkerStepKeepsLocks(s: State, step: Step)
    requires LocksOk(s) && Enabled(s, step) && (step.Arrive? || step.WorkerStops? || step.TrySend?)
    ensures LocksOk(Next(s, step))
  {
    var n := Next(s, step);
    assert n.holder == s.holder && n.nextTask == s.nextTask && n.tasks[WORKER].phase.Waiting?;
    assert OuterLock(s.tasks[WORKER].section).None?;
    assert n.tasks == s.tasks[WORKER := n.tasks[WORKER]];
    hide Next, Enabled;
    ReplaceTask(s, n, WORKER);
  }

  lemma AcquireKeepsLocks(s: State, t: TaskId)
    requires LocksOk(s) && Enabled(s, Acquire(t))
    ensures LocksOk(Next(s, Acquire(t)))
  {
    ReplaceTask(s, Next(s, Acquire(t)), t);
  }

  lemma AcquireInnerKeepsLocks(s: State, t: TaskId)
    requires LocksOk(s) && Enabled(s, AcquireInner(t))
    ensures LocksOk(Next(s, AcquireInner(t)))
  {
    ReplaceTask(s, Next(s, AcquireInner(t)), t);
  }

  lemma LeaveInnerKeepsLocks(s: State, t: TaskId)
    requires LocksOk(s) && Enabled(s, LeaveInner(t))
    ensures LocksOk(Next(s, LeaveInner(t)))
  {
    var n := Next(s, LeaveInner(t));
    LeaveInnerParts(s, t);
    hide Next, Enabled;
    ReleaseInner(s, n, t, s.tasks[t].phase.conn);
  }

  lemma LeaveInnerParts(s: State, t: TaskId)
    requires Enabled(s, LeaveInner(t))
    ensures var n := Next(s, LeaveInner(t));
      && n.holder == s.holder - {AddrSet(s.tasks[t].phase.conn)} && n.nextTask == s.nextTask
      && n.tasks == s.tasks[t := n.tasks[t]] && n.tasks[t].section == s.tasks[t].section
      && (n.tasks[t].phase == Displaced || n.tasks[t].phase.Listed?) && ShapeOk(n.tasks[t])
  {}

  lemma ReleaseInner(s: State, n: State, t: TaskId, c: ConnId)
    requires LocksOk(s) && t in s.tasks && s.tasks[t].phase == Inner(c) && t in n.tasks
    requires n.holder == s.holder - {AddrSet(c)} && n.nextTask == s.nextTask && n.tasks == s.tasks[t := n.tasks[t]]
    requires n.tasks[t].section == s.tasks[t].section && ShapeOk(n.tasks[t])
    requires n.tasks[t].phase == Displaced || n.tasks[t].phase.Listed?
    ensures LocksOk(n)
  {
    assert forall l :: Holds(s.tasks[t], l) <==> l == AddressMap || l == AddrSet(c);
    assert forall l :: Holds(n.tasks[t], l) <==> l == AddressMap;
    hide Holds, ShapeOk, OuterLock;
    ReplaceTask(s, n, t);
  }

  lemma FinishKeepsLocks(s: State, t: TaskId, localAddr: bool)
    requires LocksOk(s) && Enabled(s, Finish(t, localAddr))
    ensures LocksOk(Next(s, Finish(t, localAddr)))
  {
    hide Body, TraceAfter, PendingAfter;
    var n := Next(s, Finish(t, localAddr));
    var (m, next) := Body(s.mux, s.tasks[t], Busy(s, s.tasks[t].section), s.nextConn, localAddr);
    var mid := s.(tasks := s.tasks[t := Task(next, Waiting)], holder := n.holder);
    var l := OuterLock(s.tasks[t].section).value;
    assert n.holder == s.holder - {l};
    assert m.key == s.mux.key ==> n.tasks == mid.tasks && n.nextTask == s.nextTask;
    assert m.key != s.mux.key ==> n.nextTask == s.nextTask + 1;
    assert m.key != s.mux.key ==> n.tasks == mid.tasks[s.nextTask := Task(Watch(s.nextConn), Waiting)];
    assert ShapeOk(s.tasks[t]) && !s.tasks[t].phase.Inner?;
    assert forall k :: Holds(s.tasks[t], k) <==> k == l;
    hide Next, Enabled;
    ReplaceTask(s, mid, t);
    if m.key != s.mux.key {
      ReplaceTask(mid, n, s.nextTask);
    }
  }

  lemma StartLocks()
    ensures LocksOk(Start())
  {}

  lemma NextLocks(steps: seq<Step>, states: seq<State>, i: nat)
    requires Run(steps, states) && i < |steps| && LocksOk(states[i])
    ensures LocksOk(states[i + 1])
  {
    assert Happens(steps, states, i);
    LocksKept(states[i], steps[i]);
    hide LocksOk, Next, Enabled;
  }

  lemma {:induction false} RunLocks(steps: seq<Step>, states: seq<State>, i: nat)
    requires Run(steps, states) && i <= |steps|
    ensures LocksOk(states[i])
    decreases i
  {
    hide LocksOk, Next, Enabled;
    if i == 0 {
      StartLocks();
    } else {
      RunLocks(steps, states, i - 1);
      NextLocks(steps, states, i - 1);
    }
  }
}
