/** One close at most drains the mux, under any interleaving: the one that found the close sender. */
module MuxTaskClosers {
  import opened MuxState
  import opened MuxTasks
  import opened MuxTaskIndex
  import opened MuxTaskTrace

  predicate Draining(section: Section) {
    section.CloseConns? || section.CloseMap? || section.CloseNew?
  }

  ghost predicate DrainsNext(s: State, x: TaskId) {
    x in s.tasks && Draining(s.tasks[x].section)
  }

  ghost predicate AboutToDrain(s: State, x: TaskId) {
    x in s.tasks && s.tasks[x].section.CloseConns?
  }

  ghost predicate FlipsNow(s: State, step: Step, x: TaskId) {
    FinishesNow(s, step, CloseTake) && step.t == x && !s.mux.closed
  }

  // ---- one step ---------------------------------------------------------------

  lemma LeadsToDrain(m: Mux<ConnId>, task: Task, busy: bool)
    ensures Lead(m, task, busy).CloseConns? ==> task.section.CloseTake? && !m.closed
    ensures Draining(Lead(m, task, busy)) ==> Lead(m, task, busy).CloseConns? || Draining(task.section)
  {
    hide Announcement, LocalSegment;
  }

  /** A task begins to drain only by flipping the flag, and is about to empty `conns` only right after it. */
  ghost predicate DrainStep(s: State, step: Step, n: State, x: TaskId) {
    && (DrainsNext(n, x) ==> DrainsNext(s, x) || FlipsNow(s, step, x))
    && (AboutToDrain(n, x) ==>
          (AboutToDrain(s, x) && !(step.Finish? && step.t == x)) || FlipsNow(s, step, x))
  }

  lemma FinishDrains(s: State, t: TaskId, localAddr: bool, x: TaskId)
    requires LocksOk(s) && Enabled(s, Finish(t, localAddr))
    ensures DrainStep(s, Finish(t, localAddr), Next(s, Finish(t, localAddr)), x)
  {
    hide TraceAfter, PendingAfter;
    FinishParts(s, t, localAddr);
    LeadsToDrain(s.mux, s.tasks[t], Busy(s, s.tasks[t].section));
    hide Next, Enabled, Lead, Effect, LocksOk;
  }

  lemma LockStepDrains(s: State, step: Step, x: TaskId)
    requires Enabled(s, step) && (step.Acquire? || step.AcquireInner? || step.LeaveInner?)
    ensures DrainStep(s, step, Next(s, step), x)
  {
    var n := Next(s, step);
    assert n.tasks.Keys == s.tasks.Keys && forall t :: t in s.tasks ==> n.tasks[t].section == s.tasks[t].section;
    hide Next, Enabled;
  }

  lemma CallDrains(s: State, step: Step, x: TaskId)
    requires LocksOk(s) && Enabled(s, step)
    requires !step.Finish? && !step.Acquire? && !step.AcquireInner? && !step.LeaveInner?
    ensures DrainStep(s, step, Next(s, step), x)
  {
    hide LocksOk;
  }

  lemma RunDrains(steps: seq<Step>, states: seq<State>, i: nat, x: TaskId)
    requires Run(steps, states) && i < |steps|
    ensures DrainStep(states[i], steps[i], states[i + 1], x)
  {
    RunLocks(steps, states, i);
    var s, step := states[i], steps[i];
    assert Happens(steps, states, i);
    hide Run, DrainStep;
    if step.Finish? {
      FinishDrains(s, step.t, step.localAddr, x);
    } else if step.Acquire? || step.AcquireInner? || step.LeaveInner? {
      LockStepDrains(s, step, x);
    } else {
      CallDrains(s, step, x);
    }
    hide Next, Enabled, LocksOk;
  }

  // ---- runs ------------------------------------------------------------------------

  /** Whoever drains flipped the flag before. */
  lemma {:induction false} DrainerFlipped(steps: seq<Step>, states: seq<State>, i: nat, x: TaskId) returns (f: nat)
    requires Run(steps, states) && i <= |steps| && DrainsNext(states[i], x)
    ensures f < i && Flips(steps, states, f) && steps[f].t == x
  {
    assert i > 0;
    assert |states| == |steps| + 1;
    RunDrains(steps, states, i - 1, x);
    hide Run, Next, Enabled;
    if DrainsNext(states[i - 1], x) {
      f := DrainerFlipped(steps, states, i - 1, x);
    } else {
      f := i - 1;
    }
  }

  /** The flag flips once. */
  lemma FlipsOnce(steps: seq<Step>, states: seq<State>, f: nat, g: nat)
    requires Run(steps, states) && Flips(steps, states, f) && Flips(steps, states, g)
    ensures f == g
  {
    if f < g {
      DrainedExactly(steps, states, g);
    } else if g < f {
      DrainedExactly(steps, states, f);
    }
    hide Run;
  }

  lemma NobodyElseDrains(steps: seq<Step>, states: seq<State>, i: nat, x: TaskId)
    requires Run(steps, states) && i < |steps| && AboutToDrain(states[i], x)
    requires !(steps[i].Finish? && steps[i].t == x)
    ensures !FinishesNow(states[i], steps[i], CloseConns)
  {
    assert |states| == |steps| + 1;
    hide Run;
    if FinishesNow(states[i], steps[i], CloseConns) {
      var f := DrainerFlipped(steps, states, i, x);
      var g := DrainerFlipped(steps, states, i, steps[i].t);
      FlipsOnce(steps, states, f, g);
    }
  }

  /** A task about to empty `conns` is the first to do so. */
  lemma {:induction false} NotDrainedBefore(steps: seq<Step>, states: seq<State>, i: nat, x: TaskId)
    requires Run(steps, states) && i <= |steps| && AboutToDrain(states[i], x)
    ensures !Ever(steps, states, i, CloseConns)
  {
    assert i > 0 && |states| == |steps| + 1;
    RunDrains(steps, states, i - 1, x);
    EverNext(steps, states, i - 1, CloseConns);
    hide Run, Next, Enabled, Ever, Finishes;
    if AboutToDrain(states[i - 1], x) && !(steps[i - 1].Finish? && steps[i - 1].t == x) {
      NotDrainedBefore(steps, states, i - 1, x);
      NobodyElseDrains(steps, states, i - 1, x);
    } else {
      FlipIsFirst(steps, states, i - 1, x);
    }
  }

  lemma FlipIsFirst(steps: seq<Step>, states: seq<State>, f: nat, x: TaskId)
    requires Run(steps, states) && f < |steps| && FlipsNow(states[f], steps[f], x)
    ensures !Ever(steps, states, f, CloseConns) && !FinishesNow(states[f], steps[f], CloseConns)
  {
    assert Flips(steps, states, f);
    NoDrainBeforeFlip(steps, states, f);
    hide Run;
  }

  lemma NoDrainBeforeFlip(steps: seq<Step>, states: seq<State>, f: nat)
    requires Run(steps, states) && Flips(steps, states, f)
    ensures !Ever(steps, states, f, CloseConns)
  {
    assert |states| == |steps| + 1;
    hide Run;
    if Ever(steps, states, f, CloseConns) {
      var k: nat :| k < f && Finishes(steps, states, k, CloseConns);
      var g := DrainerFlipped(steps, states, k, steps[k].t);
      FlipsOnce(steps, states, f, g);
    }
  }

  /** In every interleaving, however many tasks call `close`, at most one empties `conns`, at most once, and it is
      the one that flipped the flag. */
  lemma OneDrain(steps: seq<Step>, states: seq<State>, i: nat, k: nat) returns (f: nat)
    requires Run(steps, states)
    requires Finishes(steps, states, i, CloseConns) && Finishes(steps, states, k, CloseConns)
    ensures i == k && f < i && Flips(steps, states, f) && steps[f].t == steps[i].t
  {
    f := DrainerFlipped(steps, states, i, steps[i].t);
    NotDrainedBefore(steps, states, i, steps[i].t);
    NotDrainedBefore(steps, states, k, steps[k].t);
    hide Run;
  }
}
