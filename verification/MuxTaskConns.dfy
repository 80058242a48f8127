/** The connections of one ufrag under interleaving: what `get_conn` answers and what a watcher removes. */
module MuxTaskConns {
  import opened MuxState
  import opened MuxTasks
  import opened MuxTaskIndex
  import opened MuxTaskDrain
  import opened MuxTaskWatch
  import MuxTaskAlone

  /** A step that takes `u` out of `conns`, if it is there. */
  ghost predicate Takes(s: State, step: Step, u: Ufrag) {
    && step.Finish? && step.t in s.tasks
    && (s.tasks[step.t].section == RemoveTake(u) || s.tasks[step.t].section.CloseConns?)
  }

  ghost predicate TakenAt(steps: seq<Step>, states: seq<State>, k: nat, u: Ufrag) {
    k < |steps| && k < |states| && Takes(states[k], steps[k], u)
  }

  /** `c` is the connection of `u`. */
  ghost predicate Mapped(s: State, u: Ufrag, c: ConnId) {
    u in s.mux.conns && s.mux.conns[u] == c
  }

  // ---- one step ---------------------------------------------------------------

  lemma EffectConns(m: Mux<ConnId>, task: Task, busy: bool, made: ConnId, localAddr: bool)
    ensures var n := Effect(m, task, busy, made, localAddr);
      && (task.section.RemoveTake? ==> n.conns == m.conns - {task.section.u})
      && (task.section.CloseConns? ==> n.conns == map[])
      && (!task.section.RemoveTake? && !task.section.CloseConns? && !task.section.GetInsert? ==> n.conns == m.conns)
  {
    hide Effect;
    if task.section.RemoveTake? || task.section.RemoveEntries? {
      RemovalConns(m, task, busy, made, localAddr);
    } else if task.section.CloseConns? || task.section.CloseMap? {
      DrainShrinks(m, task, busy, made, localAddr);
    } else if task.section.RegEntry? {
      EntryConns(m, task, busy, made, localAddr);
    } else if Quiet(task.section) {
      QuietEffect(m, task, busy, made, localAddr);
    } else if !task.section.GetInsert? {
      RestShrinks(m, task, busy, made, localAddr);
    }
  }

  lemma RemovalConns(m: Mux<ConnId>, task: Task, busy: bool, made: ConnId, localAddr: bool)
    requires task.section.RemoveTake? || task.section.RemoveEntries?
    ensures Effect(m, task, busy, made, localAddr).conns ==
      if task.section.RemoveTake? then m.conns - {task.section.u} else m.conns
  {}

  lemma EntryConns(m: Mux<ConnId>, task: Task, busy: bool, made: ConnId, localAddr: bool)
    requires task.section.RegEntry?
    ensures Effect(m, task, busy, made, localAddr).conns == m.conns
  {}

  lemma InsertConns(m: Mux<ConnId>, task: Task, busy: bool, made: ConnId, localAddr: bool)
    requires task.section.GetInsert?
    ensures var n := Effect(m, task, busy, made, localAddr);
      || (n.conns == m.conns && n.key == m.key)
      || (task.section.u !in m.conns && n.conns == m.conns[task.section.u := made]
          && n.key == m.key[made := task.section.u])
  {}

  /** What one step does to `conns` and to the keys: a mapped ufrag stays mapped to its connection until it is
      taken, the only connection a step can map is the next new one, and keys do not change. */
  ghost predicate ConnStep(s: State, step: Step, n: State) {
    && (forall u :: Takes(s, step, u) ==> u !in n.mux.conns)
    && (forall u, c :: Mapped(s, u, c) && !Takes(s, step, u) ==> Mapped(n, u, c))
    && (forall u, c :: Mapped(n, u, c) && !Mapped(s, u, c) ==>
          u !in s.mux.conns && c == s.nextConn && c !in s.mux.key && n.mux.key == s.mux.key[c := u])
    && (n.mux.key == s.mux.key
        || exists u :: Mapped(n, u, s.nextConn) && s.nextConn !in s.mux.key && n.mux.key == s.mux.key[s.nextConn := u])
  }

  lemma SectionConns(s: State, t: TaskId, localAddr: bool)
    requires LocksOk(s) && Enabled(s, Finish(t, localAddr)) && s.nextConn !in s.mux.key
    ensures ConnStep(s, Finish(t, localAddr), Next(s, Finish(t, localAddr)))
  {
    var n := Next(s, Finish(t, localAddr));
    FinishParts(s, t, localAddr);
    assert n.mux == Effect(s.mux, s.tasks[t], Busy(s, s.tasks[t].section), s.nextConn, localAddr);
    hide Next, Enabled, Effect, LocksOk, ConnStep;
    MovedConns(s, n, t, localAddr);
  }

  lemma MovedConns(s: State, n: State, t: TaskId, localAddr: bool)
    requires t in s.tasks && s.nextConn !in s.mux.key
    requires n.mux == Effect(s.mux, s.tasks[t], Busy(s, s.tasks[t].section), s.nextConn, localAddr)
    ensures ConnStep(s, Finish(t, localAddr), n)
  {
    var task, busy := s.tasks[t], Busy(s, s.tasks[t].section);
    hide Effect;
    EffectConns(s.mux, task, busy, s.nextConn, localAddr);
    if task.section.GetInsert? {
      InsertConns(s.mux, task, busy, s.nextConn, localAddr);
      assert n.mux.key != s.mux.key ==> Mapped(n, task.section.u, s.nextConn);
    } else {
      MuxTaskAlone.EffectCreates(s.mux, task, busy, s.nextConn, localAddr);
    }
  }

  lemma StepConns(s: State, step: Step)
    requires LocksOk(s) && Enabled(s, step) && s.nextConn !in s.mux.key
    ensures ConnStep(s, step, Next(s, step))
  {
    hide ConnStep;
    if step.Finish? {
      SectionConns(s, step.t, step.localAddr);
    } else {
      OutsideParts(s, step);
      OutsideKey(s, step);
      SameConns(s, step, Next(s, step));
    }
    hide Next, Enabled, LocksOk;
  }

  lemma OutsideKey(s: State, step: Step)
    requires Enabled(s, step) && !step.Finish?
    ensures Next(s, step).mux.key == s.mux.key
  {}

  lemma SameConns(s: State, step: Step, n: State)
    requires !step.Finish? && n.mux.conns == s.mux.conns && n.mux.key == s.mux.key
    ensures ConnStep(s, step, n)
  {}

  lemma RunConns(steps: seq<Step>, states: seq<State>, i: nat)
    requires Run(steps, states) && i < |steps|
    ensures ConnStep(states[i], steps[i], states[i + 1])
  {
    RunSound(steps, states, i);
    assert Happens(steps, states, i);
    StepConns(states[i], steps[i]);
    hide ConnStep, Next, Enabled;
  }

  lemma KeptStep(s: State, step: Step, n: State, u: Ufrag, c: ConnId)
    requires ConnStep(s, step, n) && Mapped(s, u, c) && !Takes(s, step, u)
    ensures Mapped(n, u, c)
  {}

  // ---- one connection per ufrag -----------------------------------------------------

  /** In every interleaving the connection of a ufrag stays the same for as long as no removal of the ufrag and
      no drain finishes its section on `conns`. */
  lemma {:induction false} ConnKept(steps: seq<Step>, states: seq<State>, i: nat, j: nat, u: Ufrag, c: ConnId)
    requires Run(steps, states) && i <= j <= |steps| && Mapped(states[i], u, c)
    requires forall k :: i <= k < j ==> !TakenAt(steps, states, k, u)
    ensures Mapped(states[j], u, c)
  {
    assert |states| == |steps| + 1;
    hide Run, ConnStep, Mapped, Takes;
    if i < j {
      ConnKept(steps, states, i, j - 1, u, c);
      RunConns(steps, states, j - 1);
      assert !TakenAt(steps, states, j - 1, u);
      KeptStep(states[j - 1], steps[j - 1], states[j], u, c);
    }
  }

  /** A `get_conn` of `u` finishes at step `k` with the answer `c`. */
  ghost predicate Answers(steps: seq<Step>, states: seq<State>, k: nat, u: Ufrag, c: ConnId) {
    && k < |steps| && k + 1 < |states| && steps[k].Finish? && steps[k].t in states[k].tasks
    && states[k].tasks[steps[k].t].section == GetInsert(u) && Mapped(states[k + 1], u, c)
  }

  /** So two `get_conn` calls of one ufrag answer the same connection, whatever runs in between, unless that is a
      removal of the ufrag or a drain. */
  lemma SameAnswer(steps: seq<Step>, states: seq<State>, i: nat, j: nat, u: Ufrag, c: ConnId, d: ConnId)
    requires Run(steps, states) && i < j && Answers(steps, states, i, u, c) && Answers(steps, states, j, u, d)
    requires forall k :: i < k < j ==> !TakenAt(steps, states, k, u)
    ensures c == d
  {
    assert !TakenAt(steps, states, j, u);
    ConnKept(steps, states, i + 1, j + 1, u, c);
  }

  // ---- what a watcher removes --------------------------------------------------------

  lemma KeyNext(steps: seq<Step>, states: seq<State>, i: nat, c: ConnId)
    requires Run(steps, states) && i < |steps| && c in states[i].mux.key
    ensures c in states[i + 1].mux.key && states[i + 1].mux.key[c] == states[i].mux.key[c]
  {
    RunConns(steps, states, i);
    hide Run;
  }

  lemma {:induction false} KeyKept(steps: seq<Step>, states: seq<State>, i: nat, j: nat, c: ConnId)
    requires Run(steps, states) && i <= j <= |steps| && c in states[i].mux.key
    ensures c in states[j].mux.key && states[j].mux.key[c] == states[i].mux.key[c]
    decreases j
  {
    if i < j {
      KeyKept(steps, states, i, j - 1, c);
      KeyNext(steps, states, j - 1, c);
    }
    hide Run, Next, Enabled;
  }

  lemma AwayNext(steps: seq<Step>, states: seq<State>, i: nat, u: Ufrag, c: ConnId)
    requires Run(steps, states) && i < |steps| && c in states[i].mux.key && !Mapped(states[i], u, c)
    ensures !Mapped(states[i + 1], u, c)
  {
    RunConns(steps, states, i);
    hide Run;
  }

  /** A connection that is no longer mapped is never mapped again. */
  lemma {:induction false} NeverBack(steps: seq<Step>, states: seq<State>, i: nat, j: nat, u: Ufrag, c: ConnId)
    requires Run(steps, states) && i <= j <= |steps| && c in states[i].mux.key && !Mapped(states[i], u, c)
    ensures !Mapped(states[j], u, c)
    decreases j
  {
    if i < j {
      NeverBack(steps, states, i, j - 1, u, c);
      KeyKept(steps, states, i, j - 1, c);
      AwayNext(steps, states, j - 1, u, c);
    }
    hide Run, Next, Enabled, Mapped;
  }

  lemma SpawnMaps(steps: seq<Step>, states: seq<State>, j: nat, c: ConnId, t: TaskId)
    requires Run(steps, states) && Spawns(steps, states, j, c, t)
    ensures j + 1 <= |steps| && c in states[j + 1].mux.key && Mapped(states[j + 1], states[j + 1].mux.key[c], c)
    ensures states[j + 1].mux.key[c] !in states[j].mux.conns
  {
    RunConns(steps, states, j);
    RunSound(steps, states, j);
    assert ConnsOk(states[j]);
    hide Run, Next, Enabled, Takes;
    assert forall u :: !Mapped(states[j], u, c);
  }

  /** A connection is still the one of its ufrag, and so the one its watcher would remove, if and only if since its
      creation no removal of the ufrag and no drain has finished its section on `conns`. */
  lemma OwnExactly(steps: seq<Step>, states: seq<State>, j: nat, i: nat, c: ConnId, t: TaskId, u: Ufrag)
    requires Run(steps, states) && Spawns(steps, states, j, c, t) && j < i <= |steps|
    requires c in states[i].mux.key && states[i].mux.key[c] == u
    ensures Mapped(states[i], u, c) <==> forall k :: j < k < i ==> !TakenAt(steps, states, k, u)
  {
    SpawnMaps(steps, states, j, c, t);
    assert |states| == |steps| + 1;
    hide Run;
    KeyKept(steps, states, j + 1, i, c);
    if k :| j < k < i && TakenAt(steps, states, k, u) {
      RunConns(steps, states, k);
      KeyKept(steps, states, j + 1, k + 1, c);
      NeverBack(steps, states, k + 1, i, u, c);
    } else {
      ConnKept(steps, states, j + 1, i, u, c);
    }
  }

  /** At step `l` the ufrag gets a connection. */
  ghost predicate MapsNew(steps: seq<Step>, states: seq<State>, l: nat, u: Ufrag) {
    l < |steps| && l + 1 < |states| && u !in states[l].mux.conns && u in states[l + 1].mux.conns
  }

  lemma StillMapped(s: State, step: Step, n: State, u: Ufrag)
    requires ConnStep(s, step, n) && u in n.mux.conns
    ensures !Takes(s, step, u)
  {}

  lemma {:induction false} LastMapped(steps: seq<Step>, states: seq<State>, i: nat, u: Ufrag) returns (l: nat)
    requires Run(steps, states) && i <= |steps| && u in states[i].mux.conns
    ensures l < i && MapsNew(steps, states, l, u)
    ensures forall k :: l < k < i ==> !TakenAt(steps, states, k, u)
  {
    assert i > 0;
    assert |states| == |steps| + 1;
    hide Run;
    RunConns(steps, states, i - 1);
    StillMapped(states[i - 1], steps[i - 1], states[i], u);
    hide ConnStep, Takes;
    if u in states[i - 1].mux.conns {
      l := LastMapped(steps, states, i - 1, u);
    } else {
      l := i - 1;
    }
  }

  /** A watcher would remove a successor of its connection if and only if the ufrag got a connection after it and
      no removal of the ufrag and no drain has come since. */
  lemma SuccessorExactly(steps: seq<Step>, states: seq<State>, j: nat, i: nat, c: ConnId, t: TaskId, u: Ufrag)
    requires Run(steps, states) && Spawns(steps, states, j, c, t) && j < i <= |steps|
    requires c in states[i].mux.key && states[i].mux.key[c] == u
    ensures u in states[i].mux.conns && !Mapped(states[i], u, c) <==>
      exists l :: j < l < i && MapsNew(steps, states, l, u) && forall k :: l < k < i ==> !TakenAt(steps, states, k, u)
  {
    SpawnMaps(steps, states, j, c, t);
    assert |states| == |steps| + 1;
    KeyKept(steps, states, j + 1, i, c);
    if u in states[i].mux.conns && !Mapped(states[i], u, c) {
      var l := LastMapped(steps, states, i, u);
      if l <= j {
        OwnExactly(steps, states, j, i, c, t, u);
      }
    }
    if l: nat :| j < l < i && MapsNew(steps, states, l, u) && forall k :: l < k < i ==> !TakenAt(steps, states, k, u) {
      NewIsAnother(steps, states, j, l, u, c);
      ConnKept(steps, states, l + 1, i, u, states[l + 1].mux.conns[u]);
    }
    hide Run;
  }

  lemma NewIsAnother(steps: seq<Step>, states: seq<State>, j: nat, l: nat, u: Ufrag, c: ConnId)
    requires Run(steps, states) && j < l < |steps| && c in states[j + 1].mux.key && MapsNew(steps, states, l, u)
    ensures states[l + 1].mux.conns[u] != c
  {
    RunConns(steps, states, l);
    KeyKept(steps, states, j + 1, l, c);
    assert !Mapped(states[l], u, states[l + 1].mux.conns[u]);
    hide Run;
  }
}
