/** Removal watchers under interleaving: one task for each connection ever created, waking at most once. */
module MuxTaskWatch {
  import opened MuxState
  import opened MuxTasks
  import opened MuxTaskIndex
  import opened MuxTaskDrain

  /** The task `t` watches `c`. */
  ghost predicate Watching(s: State, t: TaskId, c: ConnId) {
    t in s.tasks && s.tasks[t].section == Watch(c)
  }

  /** Step `j` creates `c` and its watcher `t`. */
  ghost predicate Spawns(steps: seq<Step>, states: seq<State>, j: nat, c: ConnId, t: TaskId) {
    && j < |steps| && j + 1 < |states| && steps[j].Finish?
    && c !in states[j].mux.key && c in states[j + 1].mux.key
    && t !in states[j].tasks && Watching(states[j + 1], t, c)
  }

  /** At step `j` the watcher `t` of `c` wakes and begins its removal. */
  ghost predicate Wakes(steps: seq<Step>, states: seq<State>, j: nat, c: ConnId, t: TaskId) {
    j < |steps| && j < |states| && steps[j] == Wake(t) && Watching(states[j], t, c)
  }

  // ---- one step ---------------------------------------------------------------

  /** No section leads to a watcher, and a section creates at most the next connection. */
  lemma LeadsNowhere(m: Mux<ConnId>, task: Task, busy: bool)
    ensures !Lead(m, task, busy).Watch?
  {
    hide Announcement, LocalSegment;
  }

  lemma EffectCreates(m: Mux<ConnId>, task: Task, busy: bool, made: ConnId, localAddr: bool)
    ensures Effect(m, task, busy, made, localAddr).key.Keys <= m.key.Keys + {made}
    ensures Effect(m, task, busy, made, localAddr).key == m.key || made in Effect(m, task, busy, made, localAddr).key
    ensures m.key.Keys <= Effect(m, task, busy, made, localAddr).key.Keys
  {
    hide Effect;
    if task.section.GetInsert? {
      InsertCreates(m, task, busy, made, localAddr);
    } else if task.section.RegEntry? || task.section.CloseTake? {
      OthersCreateNone(m, task, busy, made, localAddr);
    } else {
      EffectShrinks(m, task, busy, made, localAddr);
    }
  }

  lemma InsertCreates(m: Mux<ConnId>, task: Task, busy: bool, made: ConnId, localAddr: bool)
    requires task.section.GetInsert?
    ensures Effect(m, task, busy, made, localAddr).key.Keys <= m.key.Keys + {made}
    ensures Effect(m, task, busy, made, localAddr).key == m.key || made in Effect(m, task, busy, made, localAddr).key
    ensures m.key.Keys <= Effect(m, task, busy, made, localAddr).key.Keys
  {}

  lemma OthersCreateNone(m: Mux<ConnId>, task: Task, busy: bool, made: ConnId, localAddr: bool)
    requires task.section.RegEntry? || task.section.CloseTake?
    ensures Effect(m, task, busy, made, localAddr).key == m.key
  {}

  /** What one step does to the watchers: a watcher stays until it wakes, and the only new one, on a new
      task, watches the connection the step creates. */
  ghost predicate WatchStep(s: State, step: Step, n: State) {
    && s.mux.key.Keys <= n.mux.key.Keys <= s.mux.key.Keys + {s.nextConn}
    && s.tasks.Keys <= n.tasks.Keys
    && (forall t, c :: Watching(s, t, c) && step != Wake(t) ==> Watching(n, t, c))
    && (forall t, c :: Watching(s, t, c) && step == Wake(t) ==> !Watching(n, t, c))
    && (n.mux.key == s.mux.key ==> forall t, c :: Watching(n, t, c) ==> Watching(s, t, c))
    && (n.mux.key != s.mux.key ==>
          && step.Finish? && s.nextTask !in s.tasks && s.nextConn in n.mux.key && Watching(n, s.nextTask, s.nextConn)
          && forall t, c :: Watching(n, t, c) ==> Watching(s, t, c) || (t == s.nextTask && c == s.nextConn))
  }

  lemma StepWatches(s: State, step: Step)
    requires LocksOk(s) && Enabled(s, step)
    ensures WatchStep(s, step, Next(s, step))
  {
    if step.Finish? {
      FinishWatches(s, step.t, step.localAddr);
    } else if step.Acquire? || step.AcquireInner? || step.LeaveInner? {
      LockStepWatches(s, step);
    } else if step.Arrive? || step.WorkerStops? || step.TrySend? {
      WorkerStepParts(s, step);
      hide Next, Enabled, LocksOk;
    } else {
      CallerWatches(s, step);
    }
  }

  lemma LockStepWatches(s: State, step: Step)
    requires Enabled(s, step) && (step.Acquire? || step.AcquireInner? || step.LeaveInner?)
    ensures WatchStep(s, step, Next(s, step))
  {
    var n := Next(s, step);
    assert n.mux.key == s.mux.key && n.tasks.Keys == s.tasks.Keys;
    assert forall t :: t in s.tasks ==> n.tasks[t].section == s.tasks[t].section;
    hide Next, Enabled;
  }

  lemma CallerWatches(s: State, step: Step)
    requires LocksOk(s) && Enabled(s, step) && (step.Call? || step.Shut? || step.Wake?)
    ensures WatchStep(s, step, Next(s, step))
  {
    assert Next(s, step).mux.key == s.mux.key && s.nextTask !in s.tasks;
    hide LocksOk;
  }

  lemma FinishWatches(s: State, t: TaskId, localAddr: bool)
    requires LocksOk(s) && Enabled(s, Finish(t, localAddr))
    ensures WatchStep(s, Finish(t, localAddr), Next(s, Finish(t, localAddr)))
  {
    var busy := Busy(s, s.tasks[t].section);
    FinishParts(s, t, localAddr);
    LeadsNowhere(s.mux, s.tasks[t], busy);
    EffectCreates(s.mux, s.tasks[t], busy, s.nextConn, localAddr);
    assert s.nextTask !in s.tasks && !s.tasks[t].section.Watch?;
    var n := Next(s, Finish(t, localAddr));
    assert n.mux.key != s.mux.key || n.tasks.Keys == s.tasks.Keys + {t};
    hide Next, Enabled, Effect, Lead, LocksOk;
    MovedWatches(s, n, t, localAddr);
  }

  lemma MovedWatches(s: State, n: State, t: TaskId, localAddr: bool)
    requires s.mux.key.Keys <= n.mux.key.Keys <= s.mux.key.Keys + {s.nextConn}
    requires t in s.tasks && t in n.tasks && !s.tasks[t].section.Watch? && !n.tasks[t].section.Watch?
    requires s.nextTask !in s.tasks && forall x :: x in s.tasks && x != t ==> x in n.tasks && n.tasks[x] == s.tasks[x]
    requires n.mux.key == s.mux.key ==> n.tasks.Keys == s.tasks.Keys + {t}
    requires n.mux.key != s.mux.key ==>
      && s.nextConn in n.mux.key && n.tasks.Keys == s.tasks.Keys + {s.nextTask}
      && n.tasks[s.nextTask] == Task(Watch(s.nextConn), Waiting)
    ensures WatchStep(s, Finish(t, localAddr), n)
  {}

  // ---- runs -----------------------------------------------------------------------

  lemma RunWatches(steps: seq<Step>, states: seq<State>, i: nat)
    requires Run(steps, states) && i < |steps|
    ensures WatchStep(states[i], steps[i], states[i + 1])
    ensures forall c :: c in states[i].mux.key ==> c < states[i].nextConn
  {
    RunSound(steps, states, i);
    assert Happens(steps, states, i);
    StepWatches(states[i], steps[i]);
    hide Next, Enabled, LocksOk, WatchStep, Run;
  }

  ghost predicate NeverWatched(steps: seq<Step>, states: seq<State>, i: nat, c: ConnId)
    requires i < |states|
  {
    && c !in states[i].mux.key
    && (forall x :: !Watching(states[i], x, c))
    && (forall k, x :: 0 <= k < i ==> !Wakes(steps, states, k, c, x))
  }

  /** The task `t`, created together with `c` at step `j`, is the only one that watches `c` or ever woke from
      watching it; it woke at most once, and it still watches exactly if it has not. */
  ghost predicate WatchedBy(steps: seq<Step>, states: seq<State>, i: nat, c: ConnId, j: nat, t: TaskId)
    requires i < |states|
  {
    && c in states[i].mux.key && j < i && Spawns(steps, states, j, c, t)
    && (forall x :: Watching(states[i], x, c) ==> x == t)
    && (forall k, x :: 0 <= k < i && Wakes(steps, states, k, c, x) ==> x == t)
    && (forall k, l :: 0 <= k < l < i && Wakes(steps, states, k, c, t) ==> !Wakes(steps, states, l, c, t))
    && (Watching(states[i], t, c) <==> !exists k :: 0 <= k < i && Wakes(steps, states, k, c, t))
  }

  lemma StaysUnwatched(steps: seq<Step>, states: seq<State>, i: nat, c: ConnId)
    requires i < |steps| && i + 1 < |states| && NeverWatched(steps, states, i, c)
    requires WatchStep(states[i], steps[i], states[i + 1]) && c !in states[i + 1].mux.key
    ensures NeverWatched(steps, states, i + 1, c)
  {
  }

  lemma BecomesWatched(steps: seq<Step>, states: seq<State>, i: nat, c: ConnId)
    requires i < |steps| && i + 1 < |states| && NeverWatched(steps, states, i, c)
    requires WatchStep(states[i], steps[i], states[i + 1]) && c in states[i + 1].mux.key
    ensures WatchedBy(steps, states, i + 1, c, i, states[i].nextTask)
  {
    assert c == states[i].nextConn;
  }

  lemma StaysWatched(steps: seq<Step>, states: seq<State>, i: nat, c: ConnId, j: nat, t: TaskId)
    requires i < |steps| && i + 1 < |states| && WatchedBy(steps, states, i, c, j, t)
    requires WatchStep(states[i], steps[i], states[i + 1]) && c < states[i].nextConn
    ensures WatchedBy(steps, states, i + 1, c, j, t)
  {
    if Wakes(steps, states, i, c, t) {
      assert Watching(states[i], t, c);
    }
  }

  /** In every interleaving a connection that was not created has no watcher and never had one, and every
      connection that was created has exactly one, which wakes at most once. */
  lemma {:induction false} OneWatcherTask(steps: seq<Step>, states: seq<State>, i: nat, c: ConnId)
    returns (j: nat, t: TaskId)
    requires Run(steps, states) && i <= |steps|
    ensures if c in states[i].mux.key then WatchedBy(steps, states, i, c, j, t) else NeverWatched(steps, states, i, c)
  {
    if i == 0 {
      j, t := 0, 0;
    } else {
      hide WatchedBy, NeverWatched, Next, Enabled;
      var before, watcher := OneWatcherTask(steps, states, i - 1, c);
      RunWatches(steps, states, i - 1);
      hide Run;
      j, t := WatchedNext(steps, states, i - 1, c, before, watcher);
    }
  }

  lemma WatchedNext(steps: seq<Step>, states: seq<State>, i: nat, c: ConnId, before: nat, watcher: TaskId)
    returns (j: nat, t: TaskId)
    requires i < |steps| && i + 1 < |states| && WatchStep(states[i], steps[i], states[i + 1])
    requires forall d :: d in states[i].mux.key ==> d < states[i].nextConn
    requires if c in states[i].mux.key then WatchedBy(steps, states, i, c, before, watcher)
             else NeverWatched(steps, states, i, c)
    ensures if c in states[i + 1].mux.key then WatchedBy(steps, states, i + 1, c, j, t)
            else NeverWatched(steps, states, i + 1, c)
  {
    hide WatchedBy, NeverWatched;
    j, t := before, watcher;
    if c in states[i].mux.key {
      StaysWatched(steps, states, i, c, j, t);
      assert c in states[i + 1].mux.key;
    } else if c in states[i + 1].mux.key {
      j, t := i, states[i].nextTask;
      BecomesWatched(steps, states, i, c);
    } else {
      StaysUnwatched(steps, states, i, c);
    }
  }
}
