/**
 The interleaved sections add up to the operations: a call whose task runs alone, from a state in which
 nobody holds a lock, has exactly the effect of the operation of the sequential model.
*/
module MuxTaskAlone {
  import opened Wrappers
  import opened Addresses
  import opened MuxState
  import opened MuxTasks
  import opened MuxTaskIndex
  import opened MuxTaskDrain

  /** The only step a task inside or before a section can take by itself. */
  ghost function Own(s: State, t: TaskId, localAddr: bool): Step
    requires t in s.tasks
  {
    match s.tasks[t].phase
    case Waiting => Acquire(t)
    case Holding => if InnerNeed(s.mux, s.tasks[t].section).Some? then AcquireInner(t) else Finish(t, localAddr)
    case Inner(_) => LeaveInner(t)
    case _ => Finish(t, localAddr)
  }

  ghost predicate Acts(s: State, t: TaskId, localAddr: bool, n: State) {
    t in s.tasks && Enabled(s, Own(s, t, localAddr)) && n == Next(s, Own(s, t, localAddr))
  }

  /** `n` is what `k` steps of task `t` alone make of `s`. */
  ghost predicate Alone(s: State, t: TaskId, localAddr: bool, k: nat, n: State)
    decreases k
  {
    if k == 0 then n == s else exists m :: Acts(s, t, localAddr, m) && Alone(m, t, localAddr, k - 1, n)
  }

  lemma {:induction false} AloneThen(s: State, t: TaskId, localAddr: bool, j: nat, m: State, k: nat, n: State)
    requires Alone(s, t, localAddr, j, m) && Alone(m, t, localAddr, k, n)
    ensures Alone(s, t, localAddr, j + k, n)
    decreases j
  {
    hide Acts;
    if j > 0 {
      var x :| Acts(s, t, localAddr, x) && Alone(x, t, localAddr, j - 1, m);
      AloneThen(x, t, localAddr, j - 1, m, k, n);
    }
  }

  lemma AloneOnce(s: State, t: TaskId, localAddr: bool, m: State, k: nat, n: State)
    requires Acts(s, t, localAddr, m) && Alone(m, t, localAddr, k, n)
    ensures Alone(s, t, localAddr, k + 1, n)
  {
    hide Acts;
  }

  /** Task `t` is about to enter `section` and nobody holds a lock. */
  ghost predicate At(s: State, t: TaskId, section: Section) {
    t in s.tasks && s.tasks[t] == Task(section, Waiting) && s.holder == map[] && t < s.nextTask
  }

  /** A section that needs only its own lock. */
  lemma PlainSection(s: State, t: TaskId, section: Section, localAddr: bool) returns (n: State)
    requires At(s, t, section) && OuterLock(section).Some? && InnerNeed(s.mux, section).None?
    ensures Alone(s, t, localAddr, 2, n)
    ensures n.mux == Effect(s.mux, Task(section, Holding), Busy(s, section), s.nextConn, localAddr)
    ensures At(n, t, Lead(s.mux, Task(section, Holding), Busy(s, section)))
    ensures n.nextConn == s.nextConn || section.GetInsert?
  {
    hide Effect, Lead, PendingAfter, TraceAfter;
    var m := Next(s, Acquire(t));
    assert Acts(s, t, localAddr, m);
    n := Next(m, Finish(t, localAddr));
    assert Acts(m, t, localAddr, n);
    EffectCreates(s.mux, Task(section, Holding), Busy(s, section), s.nextConn, localAddr);
    hide Acts;
    AloneOnce(m, t, localAddr, n, 0, n);
    AloneOnce(s, t, localAddr, m, 1, n);
  }

  lemma EffectCreates(m: Mux<ConnId>, task: Task, busy: bool, made: ConnId, localAddr: bool)
    ensures Effect(m, task, busy, made, localAddr).key != m.key ==> task.section.GetInsert?
  {
    hide Effect;
    if task.section.RegEntry? {
      EntryEffect(m, task, busy, made, localAddr);
    } else if task.section.CloseTake? {
      QuietEffect(m, task, busy, made, localAddr);
    } else if !task.section.GetInsert? {
      EffectShrinks(m, task, busy, made, localAddr);
    }
  }

  lemma EntryEffect(m: Mux<ConnId>, task: Task, busy: bool, made: ConnId, localAddr: bool)
    requires task.section.RegEntry?
    ensures Effect(m, task, busy, made, localAddr).key == m.key
  {}

  /** The second section of a removal, which locks the removed connection's address set inside. */
  lemma EntriesSection(s: State, t: TaskId, c: ConnId, localAddr: bool) returns (n: State)
    requires At(s, t, RemoveEntries(c)) && c in s.mux.addresses
    ensures Alone(s, t, localAddr, 4, n)
    ensures n.mux == EraseEntries(s.mux, s.mux.addresses[c]) && At(n, t, Done)
  {
    var m1 := Next(s, Acquire(t));
    assert Acts(s, t, localAddr, m1);
    var m2 := Next(m1, AcquireInner(t));
    assert Acts(m1, t, localAddr, m2);
    assert m2.tasks[t] == Task(RemoveEntries(c), Inner(c)) && m2.mux == s.mux;
    assert m2.holder == map[AddressMap := t, AddrSet(c) := t] && t < m2.nextTask;
    hide Acts;
    AloneOnce(s, t, localAddr, m1, 0, m1);
    AloneOnce(m1, t, localAddr, m2, 0, m2);
    AloneThen(s, t, localAddr, 1, m1, 1, m2);
    n := LeaveEntries(m2, t, c, localAddr);
    AloneThen(s, t, localAddr, 2, m2, 2, n);
  }

  lemma LeaveEntries(s: State, t: TaskId, c: ConnId, localAddr: bool) returns (n: State)
    requires t in s.tasks && s.tasks[t] == Task(RemoveEntries(c), Inner(c)) && c in s.mux.addresses
    requires s.holder == map[AddressMap := t, AddrSet(c) := t] && t < s.nextTask
    ensures Alone(s, t, localAddr, 2, n)
    ensures n.mux == EraseEntries(s.mux, s.mux.addresses[c]) && At(n, t, Done)
  {
    var m := Next(s, LeaveInner(t));
    assert Acts(s, t, localAddr, m);
    assert m.tasks[t] == Task(RemoveEntries(c), Listed(s.mux.addresses[c])) && m.mux == s.mux;
    n := FinishLast(m, t, localAddr);
    hide Acts;
    AloneOnce(s, t, localAddr, m, 1, n);
  }

  /** The last step inside `address_map`. */
  lemma FinishLast(s: State, t: TaskId, localAddr: bool) returns (n: State)
    requires t in s.tasks && (s.tasks[t].phase.Listed? || s.tasks[t].phase.Displaced?)
    requires s.tasks[t].section.RemoveEntries? || s.tasks[t].section.RegEntry?
    requires s.holder == map[AddressMap := t] && t < s.nextTask
    ensures Alone(s, t, localAddr, 1, n)
    ensures n.mux == Effect(s.mux, s.tasks[t], false, s.nextConn, localAddr)
    ensures At(n, t, Lead(s.mux, s.tasks[t], false))
  {
    n := Next(s, Finish(t, localAddr));
    assert Acts(s, t, localAddr, n) by { hide Effect, Lead, PendingAfter, TraceAfter; }
    EffectCreates(s.mux, s.tasks[t], false, s.nextConn, localAddr);
    hide Effect, Lead, PendingAfter, TraceAfter, Acts;
    AloneOnce(s, t, localAddr, n, 0, n);
  }

  /** The entry section of a registration that displaces another connection. */
  lemma DisplacingSection(s: State, t: TaskId, c: ConnId, a: SocketAddr, localAddr: bool) returns (n: State)
    requires At(s, t, RegEntry(c, a)) && Displaces(s.mux, c, a) && s.mux.addressMap[a] in s.mux.addresses
    ensures Alone(s, t, localAddr, 4, n)
    ensures n.mux == SetEntry(DropAddress(s.mux, s.mux.addressMap[a], a), c, a) && At(n, t, RegForget(a))
  {
    var e := s.mux.addressMap[a];
    var m1 := Next(s, Acquire(t));
    assert Acts(s, t, localAddr, m1);
    var m2 := Next(m1, AcquireInner(t));
    assert Acts(m1, t, localAddr, m2);
    assert m2.tasks[t] == Task(RegEntry(c, a), Inner(e)) && m2.mux == s.mux;
    assert m2.holder == map[AddressMap := t, AddrSet(e) := t] && t < m2.nextTask;
    hide Acts;
    AloneOnce(s, t, localAddr, m1, 0, m1);
    AloneOnce(m1, t, localAddr, m2, 0, m2);
    AloneThen(s, t, localAddr, 1, m1, 1, m2);
    n := LeaveDisplaced(m2, t, c, a, e, localAddr);
    AloneThen(s, t, localAddr, 2, m2, 2, n);
  }

  lemma LeaveDisplaced(s: State, t: TaskId, c: ConnId, a: SocketAddr, e: ConnId, localAddr: bool) returns (n: State)
    requires t in s.tasks && s.tasks[t] == Task(RegEntry(c, a), Inner(e)) && e in s.mux.addresses
    requires s.holder == map[AddressMap := t, AddrSet(e) := t] && t < s.nextTask
    ensures Alone(s, t, localAddr, 2, n)
    ensures n.mux == SetEntry(DropAddress(s.mux, e, a), c, a) && At(n, t, RegForget(a))
  {
    var m := Next(s, LeaveInner(t));
    assert Acts(s, t, localAddr, m);
    assert m.tasks[t] == Task(RegEntry(c, a), Displaced) && m.mux == DropAddress(s.mux, e, a);
    n := FinishLast(m, t, localAddr);
    hide Acts;
    AloneOnce(s, t, localAddr, m, 1, n);
  }

  // ---- whole calls -----------------------------------------------------------------

  /** A removal. */
  lemma RemoveAlone(s: State, t: TaskId, u: Ufrag, localAddr: bool) returns (k: nat, n: State)
    requires At(s, t, RemoveTake(u)) && Known(s.mux)
    ensures Alone(s, t, localAddr, k, n) && At(n, t, Done)
    ensures n.mux == RemoveConn(s.mux, u)
  {
    hide Alone;
    var m := PlainSection(s, t, RemoveTake(u), localAddr);
    k, n := 2, m;
    if u in s.mux.conns {
      n := EntriesSection(m, t, s.mux.conns[u], localAddr);
      AloneThen(s, t, localAddr, 2, m, 4, n);
      k := 6;
    } else {
      assert s.mux.conns - {u} == s.mux.conns;
    }
  }

  /** A connection's send, registration included. */
  lemma SendToAlone(s: State, t: TaskId, c: ConnId, a: SocketAddr, localAddr: bool) returns (k: nat, n: State)
    requires At(s, t, Add(c, a)) && Known(s.mux) && c in s.mux.key && (c, a) !in s.pending
    ensures Alone(s, t, localAddr, k, n) && At(n, t, Done)
    ensures n.mux == SendTo(s.mux, c, a)
  {
    hide Alone;
    var m := PlainSection(s, t, Add(c, a), localAddr);
    k, n := 2, m;
    if a !in s.mux.addresses[c] {
      assert m.mux == AddAddress(s.mux, c, a) && Known(m.mux);
      var j;
      j, n := RegisterAlone(m, t, c, a, localAddr);
      AloneThen(s, t, localAddr, 2, m, j, n);
      k := 2 + j;
    }
  }

  lemma RegisterAlone(s: State, t: TaskId, c: ConnId, a: SocketAddr, localAddr: bool) returns (k: nat, n: State)
    requires At(s, t, RegCheck(c, a)) && Known(s.mux) && c in s.mux.key
    ensures Alone(s, t, localAddr, k, n) && At(n, t, Done)
    ensures n.mux == Register(s.mux, c, a)
  {
    hide Alone;
    var m1 := PlainSection(s, t, RegCheck(c, a), localAddr);
    k, n := 2, m1;
    assert m1.mux == s.mux;
    if !s.mux.closed {
      var j, m2 := PutEntryAlone(m1, t, c, a, localAddr);
      AloneThen(s, t, localAddr, 2, m1, j, m2);
      n := PlainSection(m2, t, RegForget(a), localAddr);
      AloneThen(s, t, localAddr, 2 + j, m2, 2, n);
      k := 4 + j;
    }
  }

  lemma PutEntryAlone(s: State, t: TaskId, c: ConnId, a: SocketAddr, localAddr: bool) returns (k: nat, n: State)
    requires At(s, t, RegEntry(c, a)) && Known(s.mux) && c in s.mux.key
    ensures Alone(s, t, localAddr, k, n) && At(n, t, RegForget(a))
    ensures n.mux == PutEntry(s.mux, c, a)
  {
    if Displaces(s.mux, c, a) {
      n := DisplacingSection(s, t, c, a, localAddr);
      k := 4;
    } else {
      n := PlainSection(s, t, RegEntry(c, a), localAddr);
      k := 2;
    }
  }

  /** `get_conn`. */
  lemma GetConnAlone(s: State, t: TaskId, u: Ufrag, localAddr: bool) returns (k: nat, n: State)
    requires At(s, t, GetCheck(u))
    ensures Alone(s, t, localAddr, k, n) && At(n, t, Done)
    ensures n.mux == GetConn(s.mux, u, s.nextConn, localAddr).0
  {
    hide Alone;
    var m := PlainSection(s, t, GetCheck(u), localAddr);
    k, n := 2, m;
    if !s.mux.closed {
      n := PlainSection(m, t, GetInsert(u), localAddr);
      AloneThen(s, t, localAddr, 2, m, 2, n);
      k := 4;
    }
  }

  /** `close`. */
  lemma CloseAlone(s: State, t: TaskId, localAddr: bool) returns (k: nat, n: State)
    requires At(s, t, CloseCheck)
    ensures Alone(s, t, localAddr, k, n) && At(n, t, Done)
    ensures n.mux == MuxState.Close(s.mux).0
  {
    hide Alone;
    var m1 := PlainSection(s, t, CloseCheck, localAddr);
    k, n := 2, m1;
    if !s.mux.closed {
      var m2 := PlainSection(m1, t, CloseTake, localAddr);
      AloneThen(s, t, localAddr, 2, m1, 2, m2);
      n := DrainAlone(m2, t, localAddr);
      AloneThen(s, t, localAddr, 4, m2, 6, n);
      k := 10;
    }
  }

  lemma DrainAlone(s: State, t: TaskId, localAddr: bool) returns (n: State)
    requires At(s, t, CloseConns)
    ensures Alone(s, t, localAddr, 6, n) && At(n, t, Done)
    ensures n.mux == DrainConns(s.mux).(addressMap := map[], newAddrs := {})
  {
    hide Alone;
    var m1 := PlainSection(s, t, CloseConns, localAddr);
    var m2 := PlainSection(m1, t, CloseMap, localAddr);
    AloneThen(s, t, localAddr, 2, m1, 2, m2);
    n := PlainSection(m2, t, CloseNew, localAddr);
    AloneThen(s, t, localAddr, 4, m2, 2, n);
  }

  /** The worker on one packet, up to the send. */
  lemma ReceiveAlone(s: State, p: Packet, localAddr: bool) returns (k: nat, n: State)
    requires At(s, WORKER, Route(p)) && s.mux.listening
    ensures Alone(s, WORKER, localAddr, k, n)
    ensures n.mux == if Receive(s.mux, p, true).1.Reported? then s.mux else Receive(s.mux, p, true).0
    ensures At(n, WORKER, if Receive(s.mux, p, true).1.Reported? then Announce(p)
                          else if Receive(s.mux, p, true).1.Panicked? then Done else Idle)
  {
    hide Alone, Announcement, LocalSegment;
    var m := PlainSection(s, WORKER, Route(p), localAddr);
    k, n := 2, m;
    if p.source !in s.mux.addressMap {
      if p.stun && p.username.Some? {
        n := PlainSection(m, WORKER, RouteStun(p), localAddr);
        AloneThen(s, WORKER, localAddr, 2, m, 2, n);
        k := 4;
      }
      if Lookup(s.mux, p).None? {
        assert n.mux == s.mux && At(n, WORKER, Seen(p));
        var l := PlainSection(n, WORKER, Seen(p), localAddr);
        AloneThen(s, WORKER, localAddr, k, n, 2, l);
        k, n := k + 2, l;
      }
    }
  }

  /** The send and what follows it. */
  lemma AnnounceAlone(s: State, p: Packet, accepted: bool, localAddr: bool) returns (n: State)
    requires At(s, WORKER, Announce(p)) && Receive(s.mux, p, true).1.Reported?
    ensures Enabled(s, TrySend(accepted))
    ensures Alone(Next(s, TrySend(accepted)), WORKER, localAddr, if accepted then 2 else 0, n)
    ensures n.mux == Receive(s.mux, p, accepted).0 && At(n, WORKER, Idle)
  {
    hide Announcement, Lookup;
    var m := Next(s, TrySend(accepted));
    n := m;
    if accepted {
      n := PlainSection(m, WORKER, Mark(p.source), localAddr);
    }
  }
}
