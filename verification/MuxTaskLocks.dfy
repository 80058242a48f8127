/** Lock discipline of the interleaved mux: no hold-and-wait between its locks, and no deadlock. */
module MuxTaskLocks {
  import opened Wrappers
  import opened MuxTasks
  import opened MuxTaskIndex

  /** The lock a task is waiting for, whether or not it is free. */
  ghost predicate Wants(s: State, t: TaskId, l: Lock)
    requires t in s.tasks
  {
    var task := s.tasks[t];
    || (task.phase.Waiting? && OuterLock(task.section) == Some(l))
    || (task.phase.Holding? && InnerNeed(s.mux, task.section).Some?
        && l == AddrSet(InnerNeed(s.mux, task.section).value))
  }

  /** The task itself can go on. */
  ghost predicate CanStep(s: State, t: TaskId) {
    Enabled(s, Acquire(t)) || Enabled(s, AcquireInner(t)) || Enabled(s, LeaveInner(t)) || Enabled(s, Finish(t, true))
  }

  /** The only nesting is an address set inside `address_map`; in particular a task that waits for one
      of the mux's four locks holds no lock at all, and one that waits for an address set holds
      nothing but `address_map`. */
  lemma NoHoldAndWait(steps: seq<Step>, states: seq<State>, i: nat, t: TaskId, wanted: Lock, held: Lock, other: Lock)
    requires Run(steps, states) && i <= |steps| && t in states[i].tasks
    ensures Wants(states[i], t, wanted) && Holds(states[i].tasks[t], held) ==> wanted.AddrSet? && held == AddressMap
    ensures Holds(states[i].tasks[t], held) && Holds(states[i].tasks[t], other) && held != other ==>
      (held == AddressMap && other.AddrSet?) || (held.AddrSet? && other == AddressMap)
  {
    RunLocks(steps, states, i);
    assert ShapeOk(states[i].tasks[t]);
  }

  /** Whoever holds an address set can go on at once. */
  lemma AddrSetHolderSteps(s: State, l: Lock)
    requires Sound(s) && l in s.holder && l.AddrSet?
    ensures CanStep(s, s.holder[l])
  {
    var t := s.holder[l];
    var task := s.tasks[t];
    assert Holds(task, l) && ShapeOk(task) && TaskOk(s.mux, task);
    if task.phase.Inner? {
      assert task.phase.conn in s.mux.addresses;
      assert Enabled(s, LeaveInner(t));
    } else {
      assert task.section.Add? && task.phase.Holding?;
      assert Enabled(s, Finish(t, true));
    }
  }

  /** `x` holds the lock, or the address set that the lock's holder is waiting for. */
  ghost predicate Blames(s: State, l: Lock, x: TaskId)
    requires l in s.holder && s.holder[l] in s.tasks
  {
    || x == s.holder[l]
    || exists k :: k in s.holder && k.AddrSet? && s.holder[k] == x && Wants(s, s.holder[l], k)
  }

  /** Whoever holds a lock can go on, or waits for an address set whose holder can. */
  lemma HolderSteps(s: State, l: Lock) returns (x: TaskId)
    requires Sound(s) && l in s.holder
    ensures x in s.tasks && CanStep(s, x) && Blames(s, l, x)
  {
    var t := s.holder[l];
    var task := s.tasks[t];
    assert Holds(task, l) && ShapeOk(task);
    if l.AddrSet? {
      AddrSetHolderSteps(s, l);
      x := t;
    } else if task.phase.Inner? {
      assert Holds(task, AddrSet(task.phase.conn));
      AddrSetHolderSteps(s, AddrSet(task.phase.conn));
      x := t;
    } else if task.phase.Holding? && InnerNeed(s.mux, task.section).Some? {
      var inner := AddrSet(InnerNeed(s.mux, task.section).value);
      if inner in s.holder {
        AddrSetHolderSteps(s, inner);
        x := s.holder[inner];
        assert Wants(s, t, inner);
      } else {
        assert Enabled(s, AcquireInner(t));
        x := t;
      }
    } else {
      assert Enabled(s, Finish(t, true));
      x := t;
    }
  }

  /** No deadlock, among all the tasks or some of them: in every reachable state, for every task at or
      inside a lock-delimited section, its next step is enabled, or that of the holder of the lock it
      is at or inside, or that of the holder of the address set this holder waits for. So every wait
      ends, after at most two others, in a task that needs no new call, packet or outside event. */
  lemma NoDeadlock(steps: seq<Step>, states: seq<State>, i: nat, t: TaskId) returns (x: TaskId)
    requires Run(steps, states) && i <= |steps| && t in states[i].tasks
    requires OuterLock(states[i].tasks[t].section).Some?
    ensures x in states[i].tasks && CanStep(states[i], x)
    ensures var l := OuterLock(states[i].tasks[t].section).value;
      x == t || (l in states[i].holder && states[i].holder[l] in states[i].tasks && Blames(states[i], l, x))
    ensures var l := OuterLock(states[i].tasks[t].section).value;
      !states[i].tasks[t].phase.Waiting? ==> l in states[i].holder && states[i].holder[l] == t
  {
    RunSound(steps, states, i);
    var s := states[i];
    var l := OuterLock(s.tasks[t].section).value;
    if l in s.holder {
      x := HolderSteps(s, l);
      assert Holds(s.tasks[t], l) ==> s.holder[l] == t;
    } else {
      assert !Holds(s.tasks[t], l);
      assert Enabled(s, Acquire(t));
      x := t;
    }
  }
}
