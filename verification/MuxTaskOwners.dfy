/**
 Runs in which nobody but the watchers removes connections and nobody closes the mux: there every watcher
 removes its own connection. And a run in which somebody else removes one.
*/
module MuxTaskOwners {
  import opened MuxState
  import opened MuxTasks
  import opened MuxTaskIndex
  import opened MuxTaskDrain
  import opened MuxTaskWatch
  import opened MuxTaskConns

  ghost predicate Undisturbed(steps: seq<Step>) {
    forall k :: 0 <= k < |steps| && steps[k].Call? ==> !steps[k].entry.RemoveTake? && !steps[k].entry.CloseCheck?
  }

  /** The task `t` is at the first section of a removal of `u`. */
  ghost predicate Removing(s: State, t: TaskId, u: Ufrag) {
    t in s.tasks && s.tasks[t].section == RemoveTake(u)
  }

  predicate Closing(section: Section) {
    section.CloseCheck? || section.CloseTake? || section.CloseConns? || section.CloseMap? || section.CloseNew?
  }

  // ---- one step ---------------------------------------------------------------

  lemma LeadsToNoRemoval(m: Mux<ConnId>, task: Task, busy: bool)
    ensures !Lead(m, task, busy).RemoveTake?
    ensures Closing(Lead(m, task, busy)) ==> Closing(task.section)
  {
    hide Announcement, LocalSegment;
  }

  /** Only a call or a wake begins a removal, only a call begins a close, and a finished section is left. */
  ghost predicate BeginStep(s: State, step: Step, n: State, x: TaskId) {
    && (x in n.tasks && n.tasks[x].section.RemoveTake? && !Removing(s, x, n.tasks[x].section.u) ==>
          || step == Call(RemoveTake(n.tasks[x].section.u))
          || (step == Wake(x) && x in s.tasks && s.tasks[x].section.Watch? && s.tasks[x].section.c in s.mux.key
              && s.mux.key[s.tasks[x].section.c] == n.tasks[x].section.u))
    && (x in n.tasks && Closing(n.tasks[x].section) ==>
          step == Call(CloseCheck) || (x in s.tasks && Closing(s.tasks[x].section)))
    && (x in n.tasks && step.Finish? && step.t == x ==> !n.tasks[x].section.RemoveTake?)
  }

  lemma Begins(s: State, step: Step, x: TaskId)
    requires LocksOk(s) && Enabled(s, step)
    ensures BeginStep(s, step, Next(s, step), x)
  {
    hide BeginStep;
    if step.Finish? {
      FinishBegins(s, step.t, step.localAddr, x);
    } else if step.Acquire? || step.AcquireInner? || step.LeaveInner? {
      LockStepBegins(s, step, x);
    } else {
      CallBegins(s, step, x);
    }
    hide Next, Enabled, LocksOk;
  }

  lemma FinishBegins(s: State, t: TaskId, localAddr: bool, x: TaskId)
    requires LocksOk(s) && Enabled(s, Finish(t, localAddr))
    ensures BeginStep(s, Finish(t, localAddr), Next(s, Finish(t, localAddr)), x)
  {
    FinishParts(s, t, localAddr);
    LeadsToNoRemoval(s.mux, s.tasks[t], Busy(s, s.tasks[t].section));
    hide Next, Enabled, Lead, Effect, LocksOk;
  }

  lemma LockStepBegins(s: State, step: Step, x: TaskId)
    requires Enabled(s, step) && (step.Acquire? || step.AcquireInner? || step.LeaveInner?)
    ensures BeginStep(s, step, Next(s, step), x)
  {
    var n := Next(s, step);
    assert n.tasks.Keys == s.tasks.Keys && forall t :: t in s.tasks ==> n.tasks[t].section == s.tasks[t].section;
    hide Next, Enabled;
  }

  lemma CallBegins(s: State, step: Step, x: TaskId)
    requires LocksOk(s) && Enabled(s, step)
    requires !step.Finish? && !step.Acquire? && !step.AcquireInner? && !step.LeaveInner?
    ensures BeginStep(s, step, Next(s, step), x)
  {
    hide LocksOk;
  }

  // ---- undisturbed runs -----------------------------------------------------------

  lemma RunBegins(steps: seq<Step>, states: seq<State>, i: nat, x: TaskId)
    requires Run(steps, states) && i < |steps|
    ensures BeginStep(states[i], steps[i], states[i + 1], x)
  {
    RunLocks(steps, states, i);
    assert Happens(steps, states, i);
    Begins(states[i], steps[i], x);
    hide BeginStep, Next, Enabled, LocksOk;
  }

  lemma {:induction false} NobodyCloses(steps: seq<Step>, states: seq<State>, i: nat, x: TaskId)
    requires Run(steps, states) && Undisturbed(steps) && i <= |steps| && x in states[i].tasks
    ensures !Closing(states[i].tasks[x].section)
  {
    if i > 0 {
      assert |states| == |steps| + 1;
      hide Run;
      RunBegins(steps, states, i - 1, x);
      if x in states[i - 1].tasks {
        NobodyCloses(steps, states, i - 1, x);
      }
    }
  }

  /** Every removal was begun by a watcher of a connection of that ufrag, and has not left its first section. */
  lemma {:induction false} RemoverWoke(steps: seq<Step>, states: seq<State>, i: nat, x: TaskId, u: Ufrag)
    returns (w: nat, c: ConnId)
    requires Run(steps, states) && Undisturbed(steps) && i <= |steps| && Removing(states[i], x, u)
    ensures w < i && Wakes(steps, states, w, c, x) && c in states[i].mux.key && states[i].mux.key[c] == u
    ensures forall m :: w < m <= i ==> Removing(states[m], x, u)
  {
    assert i > 0;
    assert |states| == |steps| + 1;
    hide Run;
    RunBegins(steps, states, i - 1, x);
    if Removing(states[i - 1], x, u) {
      w, c := RemoverWoke(steps, states, i - 1, x, u);
    } else {
      w, c := i - 1, states[i - 1].tasks[x].section.c;
    }
    KeyKept(steps, states, i - 1, i, c);
  }

  /** Step `i` finishes the first section of a removal of `u` by `x`. */
  ghost predicate Removes(steps: seq<Step>, states: seq<State>, i: nat, x: TaskId, u: Ufrag) {
    i < |steps| && i < |states| && steps[i].Finish? && steps[i].t == x && Removing(states[i], x, u)
  }

  ghost predicate Woke(steps: seq<Step>, states: seq<State>, i: nat, c: ConnId, x: TaskId) {
    exists w :: 0 <= w < i && Wakes(steps, states, w, c, x)
  }

  /** In every run without other removals and without a close, what a watcher removes is the connection it was
      spawned for. */
  lemma {:induction false} WatchersTakeOwn(steps: seq<Step>, states: seq<State>, i: nat, x: TaskId, u: Ufrag)
    returns (c: ConnId)
    requires Run(steps, states) && Undisturbed(steps) && Removes(steps, states, i, x, u)
    ensures c in states[i].mux.key && states[i].mux.key[c] == u && Mapped(states[i], u, c)
    ensures Woke(steps, states, i, c, x)
    decreases i, i + 1
  {
    var w;
    w, c := RemoverWoke(steps, states, i, x, u);
    var j, t := OneWatcherTask(steps, states, i, c);
    assert x == t;
    hide Run, Undisturbed;
    StillOwn(steps, states, i, x, u, c, w, j, i);
  }

  /** It is still mapped at every moment `k` up to the removal. */
  lemma {:induction false} StillOwn(steps: seq<Step>, states: seq<State>, i: nat, x: TaskId, u: Ufrag, c: ConnId,
                                    w: nat, j: nat, k: nat)
    requires Run(steps, states) && Undisturbed(steps) && Removes(steps, states, i, x, u)
    requires c in states[i].mux.key && states[i].mux.key[c] == u
    requires WatchedBy(steps, states, i, c, j, x) && w < i && Wakes(steps, states, w, c, x) && j < k <= i
    requires forall m :: w < m <= i ==> Removing(states[m], x, u)
    ensures Mapped(states[k], u, c)
    decreases i, k
  {
    if k == j + 1 {
      SpawnMaps(steps, states, j, c, x);
      KeyKept(steps, states, j + 1, i, c);
    } else {
      assert |states| == |steps| + 1;
      hide Run, WatchedBy, Removes, Wakes, Undisturbed, Mapped;
      StillOwn(steps, states, i, x, u, c, w, j, k - 1);
      NotTaken(steps, states, i, x, u, c, w, j, k - 1);
      RunConns(steps, states, k - 1);
      hide ConnStep;
      KeptStep(states[k - 1], steps[k - 1], states[k], u, c);
    }
  }

  lemma {:induction false} NotTaken(steps: seq<Step>, states: seq<State>, i: nat, x: TaskId, u: Ufrag, c: ConnId,
                                    w: nat, j: nat, k: nat)
    requires Run(steps, states) && Undisturbed(steps) && Removes(steps, states, i, x, u)
    requires WatchedBy(steps, states, i, c, j, x) && w < i && Wakes(steps, states, w, c, x) && k < i
    requires forall m :: w < m <= i ==> Removing(states[m], x, u)
    requires Mapped(states[k], u, c)
    ensures !TakenAt(steps, states, k, u)
    decreases i, k
  {
    if TakenAt(steps, states, k, u) {
      var y := steps[k].t;
      NobodyCloses(steps, states, k, y);
      assert Removes(steps, states, k, y, u);
      hide Run, Undisturbed, WatchedBy;
      var d := WatchersTakeOwn(steps, states, k, y, u);
      OnlyOnce(steps, states, i, x, u, c, w, j, k, y);
    }
  }

  /** Nobody, not even the watcher itself, has removed on behalf of `c` before. */
  lemma OnlyOnce(steps: seq<Step>, states: seq<State>, i: nat, x: TaskId, u: Ufrag, c: ConnId,
                 w: nat, j: nat, k: nat, y: TaskId)
    requires Run(steps, states) && i < |steps| && k < i && WatchedBy(steps, states, i, c, j, x)
    requires w < i && Wakes(steps, states, w, c, x) && forall m :: w < m <= i ==> Removing(states[m], x, u)
    ensures !(Removes(steps, states, k, y, u) && Woke(steps, states, k, c, y))
  {
    if Removes(steps, states, k, y, u) && Woke(steps, states, k, c, y) {
      var v :| 0 <= v < k && Wakes(steps, states, v, c, y);
      assert y == x && v == w && Removing(states[k + 1], x, u);
      hide Run, WatchedBy;
      RunBegins(steps, states, k, x);
    }
  }

  // ---- a disturbed run ---------------------------------------------------------------

  ghost predicate Leads(s: State, more: seq<Step>, n: State)
    decreases |more|
  {
    if more == [] then n == s else Enabled(s, more[0]) && Leads(Next(s, more[0]), more[1..], n)
  }

  lemma {:induction false} LeadsThen(s: State, more: seq<Step>, m: State, rest: seq<Step>, n: State)
    requires Leads(s, more, m) && Leads(m, rest, n)
    ensures Leads(s, more + rest, n)
    decreases |more|
  {
    if more == [] {
      assert more + rest == rest;
    } else {
      assert (more + rest)[1..] == more[1..] + rest;
      LeadsThen(Next(s, more[0]), more[1..], m, rest, n);
    }
    hide Next, Enabled;
  }

  lemma RunExtends(steps: seq<Step>, states: seq<State>, step: Step)
    requires Run(steps, states) && Enabled(states[|steps|], step)
    ensures Run(steps + [step], states + [Next(states[|steps|], step)])
  {
    forall i: nat | i < |steps + [step]|
      ensures Happens(steps + [step], states + [Next(states[|steps|], step)], i)
    {
      assert i < |steps| ==> Happens(steps, states, i);
    }
    hide Next, Enabled;
  }

  lemma {:induction false} GoOn(steps: seq<Step>, states: seq<State>, more: seq<Step>, n: State)
    returns (longer: seq<State>)
    requires Run(steps, states) && Leads(states[|steps|], more, n)
    ensures Run(steps + more, longer) && longer[|steps + more|] == n
    ensures forall k :: 0 <= k < |states| ==> longer[k] == states[k]
    decreases |more|
  {
    if more == [] {
      longer := states;
      assert steps + more == steps;
    } else {
      var m := Next(states[|steps|], more[0]);
      RunExtends(steps, states, more[0]);
      longer := GoOn(steps + [more[0]], states + [m], more[1..], n);
      assert steps + more == (steps + [more[0]]) + more[1..];
    }
    hide Next, Enabled;
  }

  /** One section of a task, from a state in which nobody holds a lock. */
  lemma SectionLeads(s: State, t: TaskId, section: Section) returns (n: State)
    requires s.holder == map[] && t in s.tasks && s.tasks[t] == Task(section, Waiting)
    requires OuterLock(section).Some? && InnerNeed(s.mux, section).None?
    ensures Leads(s, [Acquire(t), Finish(t, true)], n) && n.holder == map[]
    ensures var (m, next) := Body(s.mux, Task(section, Holding), Busy(s, section), s.nextConn, true);
      && n.mux == m
      && (m.key == s.mux.key ==>
            n.tasks == s.tasks[t := Task(next, Waiting)] && n.nextTask == s.nextTask && n.nextConn == s.nextConn)
      && (m.key != s.mux.key ==>
            && n.tasks == s.tasks[t := Task(next, Waiting)][s.nextTask := Task(Watch(s.nextConn), Waiting)]
            && n.nextTask == s.nextTask + 1 && n.nextConn == s.nextConn + 1)
  {
    hide Body, TraceAfter, PendingAfter;
    var m := Next(s, Acquire(t));
    assert m == s.(tasks := s.tasks[t := Task(section, Holding)], holder := map[OuterLock(section).value := t]);
    n := Next(m, Finish(t, true));
    assert Leads(n, [], n);
    assert Leads(m, [Finish(t, true)], n);
    assert [Acquire(t), Finish(t, true)][1..] == [Finish(t, true)];
  }

  /** The part of a state that the run below is about. */
  ghost predicate Calm(s: State, conns: map<Ufrag, ConnId>) {
    && s.holder == map[] && !s.mux.closed && s.mux.conns == conns
    && (forall c :: c in s.mux.key ==> c < s.nextConn)
    && (forall t :: t in s.tasks ==> t < s.nextTask)
  }

  function GetSteps(t: TaskId, u: Ufrag): seq<Step> {
    [Call(GetCheck(u))] + [Acquire(t), Finish(t, true)] + [Acquire(t), Finish(t, true)]
  }

  /** A `get_conn` of a ufrag without a connection. */
  lemma GetLeads(s: State, u: Ufrag) returns (n: State)
    requires Calm(s, map[])
    ensures Leads(s, GetSteps(s.nextTask, u), n) && Calm(n, map[u := s.nextConn])
    ensures n.nextTask == s.nextTask + 2 && n.nextConn == s.nextConn + 1
    ensures n.mux.key == s.mux.key[s.nextConn := u] && n.mux.shut == s.mux.shut
    ensures s.nextTask + 1 in n.tasks && n.tasks[s.nextTask + 1] == Task(Watch(s.nextConn), Waiting)
    ensures forall t :: t in s.tasks ==> t in n.tasks && n.tasks[t] == s.tasks[t]
  {
    var t := s.nextTask;
    var m1 := Next(s, Call(GetCheck(u)));
    assert Leads(m1, [], m1) && Leads(s, [Call(GetCheck(u))], m1);
    var m2 := SectionLeads(m1, t, GetCheck(u));
    assert m2.mux == s.mux && m2.tasks[t] == Task(GetInsert(u), Waiting);
    n := SectionLeads(m2, t, GetInsert(u));
    assert n.mux == InsertConn(s.mux, u, s.nextConn);
    assert s.nextConn !in s.mux.key && s.nextConn in n.mux.key;
    hide Leads, Body, Next;
    LeadsThen(s, [Call(GetCheck(u))], m1, [Acquire(t), Finish(t, true)], m2);
    LeadsThen(s, [Call(GetCheck(u))] + [Acquire(t), Finish(t, true)], m2, [Acquire(t), Finish(t, true)], n);
  }

  function RemoveSteps(t: TaskId, u: Ufrag): seq<Step> {
    [Call(RemoveTake(u))] + [Acquire(t), Finish(t, true)]
  }

  /** The first section of a removal that somebody calls. */
  lemma RemoveLeads(s: State, u: Ufrag, c: ConnId) returns (n: State)
    requires Calm(s, map[u := c])
    ensures Leads(s, RemoveSteps(s.nextTask, u), n) && Calm(n, map[])
    ensures n.nextTask == s.nextTask + 1 && n.nextConn == s.nextConn
    ensures n.mux.key == s.mux.key && n.mux.shut == s.mux.shut
    ensures forall t :: t in s.tasks ==> t in n.tasks && n.tasks[t] == s.tasks[t]
  {
    var t := s.nextTask;
    var m := Next(s, Call(RemoveTake(u)));
    assert Leads(m, [], m) && Leads(s, [Call(RemoveTake(u))], m);
    n := SectionLeads(m, t, RemoveTake(u));
    assert n.mux == TakeConn(s.mux, u);
    hide Leads, Body, Next;
    LeadsThen(s, [Call(RemoveTake(u))], m, [Acquire(t), Finish(t, true)], n);
  }

  /** The old watcher, task 2 of connection 0, wakes after the ufrag got connection 1. */
  function LateWatcher(u: Ufrag): seq<Step> {
    GetSteps(1, u) + RemoveSteps(3, u) + GetSteps(4, u) + [Shut(0), Wake(2), Acquire(2)] + [Finish(2, true)]
  }

  lemma Replaced(u: Ufrag) returns (s: State)
    ensures Leads(Start(), GetSteps(1, u) + RemoveSteps(3, u) + GetSteps(4, u), s)
    ensures Calm(s, map[u := 1]) && s.mux.key == map[0 := u, 1 := u] && 2 in s.tasks
    ensures s.tasks[2] == Task(Watch(0), Waiting)
  {
    var m1 := GetLeads(Start(), u);
    var m2 := RemoveLeads(m1, u, 0);
    s := GetLeads(m2, u);
    hide Leads;
    LeadsThen(Start(), GetSteps(1, u), m1, RemoveSteps(3, u), m2);
    LeadsThen(Start(), GetSteps(1, u) + RemoveSteps(3, u), m2, GetSteps(4, u), s);
  }

  lemma OldOneWakes(s: State, u: Ufrag) returns (n: State)
    requires Calm(s, map[u := 1]) && s.mux.key == map[0 := u, 1 := u] && 2 in s.tasks
    requires s.tasks[2] == Task(Watch(0), Waiting)
    ensures Leads(s, [Shut(0), Wake(2), Acquire(2)], n) && Mapped(n, u, 1)
    ensures Enabled(s, Shut(0)) && Watching(Next(s, Shut(0)), 2, 0)
    ensures n.mux.key == s.mux.key && Removing(n, 2, u)
    ensures Enabled(n, Finish(2, true)) && Next(n, Finish(2, true)).mux.conns == map[]
  {
    var m1 := Next(s, Shut(0));
    var m2 := Next(m1, Wake(2));
    n := Next(m2, Acquire(2));
    assert n.tasks[2] == Task(RemoveTake(u), Holding) && n.mux.conns == map[u := 1];
    assert Next(n, Finish(2, true)).mux == TakeConn(n.mux, u);
  }

  lemma GoOnce(steps: seq<Step>, states: seq<State>, step: Step) returns (longer: seq<State>)
    requires Run(steps, states) && Enabled(states[|steps|], step)
    ensures Run(steps + [step], longer) && longer == states + [Next(states[|steps|], step)]
  {
    RunExtends(steps, states, step);
    longer := states + [Next(states[|steps|], step)];
    hide Run, Next, Enabled;
  }

  /** The run, from the two parts it leads through and its last step. */
  lemma LateRun(u: Ufrag, s: State, n: State) returns (states: seq<State>)
    requires Leads(Start(), GetSteps(1, u) + RemoveSteps(3, u) + GetSteps(4, u), s)
    requires Leads(s, [Shut(0), Wake(2), Acquire(2)], n) && Enabled(n, Finish(2, true))
    ensures Run(LateWatcher(u), states) && |LateWatcher(u)| == 17
    ensures states[13] == s && states[16] == n && states[17] == Next(n, Finish(2, true))
  {
    var first, wake := GetSteps(1, u) + RemoveSteps(3, u) + GetSteps(4, u), [Shut(0), Wake(2), Acquire(2)];
    assert |first| == 13 && LateWatcher(u) == first + wake + [Finish(2, true)];
    assert Run([], [Start()]) && [] + first == first;
    hide Leads, Next, Enabled, GetSteps, RemoveSteps, LateWatcher;
    var replaced := GoOn([], [Start()], first, s);
    var woken := GoOn(first, replaced, wake, n);
    states := GoOnce(first + wake, woken, Finish(2, true));
    assert |replaced| == 14 && |woken| == 17;
    hide Run;
  }

  /** With a removal that somebody else called, a watcher removes the successor of its connection. */
  lemma LateWatcherRemovesSuccessor(u: Ufrag) returns (states: seq<State>)
    ensures Run(LateWatcher(u), states) && |LateWatcher(u)| == 17
    ensures Wakes(LateWatcher(u), states, 14, 0, 2) && states[16].mux.key == map[0 := u, 1 := u]
    ensures Removes(LateWatcher(u), states, 16, 2, u) && Mapped(states[16], u, 1) && states[17].mux.conns == map[]
  {
    var s := Replaced(u);
    var n := OldOneWakes(s, u);
    hide Leads;
    states := LateRun(u, s, n);
    AtWake(u, states, s);
    hide Run, Next, Enabled, GetSteps, RemoveSteps;
  }

  lemma AtWake(u: Ufrag, states: seq<State>, s: State)
    requires Run(LateWatcher(u), states) && |LateWatcher(u)| == 17 && states[13] == s
    ensures LateWatcher(u)[13] == Shut(0) && LateWatcher(u)[14] == Wake(2) && LateWatcher(u)[16] == Finish(2, true)
    ensures Enabled(s, Shut(0)) && states[14] == Next(s, Shut(0))
  {
    assert Happens(LateWatcher(u), states, 13);
    hide Run, Next, Enabled;
  }
}
