/**
 Runs in which any connection ever created may send, removed ones included. The mux then need not be
 the last-writer-wins router; this is when it is, and two runs in which it is not.
*/
module MuxFreeRuns {
  import opened Wrappers
  import opened Addresses
  import opened MuxState
  import opened MuxRouting

  datatype FreeOp<C> =
    | Call(op: Op<C>)
    | SendBy(c: C, addr: SocketAddr)   // the connection `c`, live or not, sends to `addr`

  ghost predicate Permitted<C>(m: Mux<C>, f: FreeOp<C>) {
    match f
    case Call(op) => !op.OpSendTo? && Legal(m, op)
    case SendBy(c, _) => c in m.key
  }

  ghost function FreeApply<C>(m: Mux<C>, f: FreeOp<C>): (Mux<C>, Output<C>)
    requires Known(m) && Permitted(m, f)
  {
    match f
    case Call(op) => Apply(m, op)
    case SendBy(c, a) => (SendTo(m, c, a), Nothing)
  }

  ghost predicate FreeRun<C>(ops: seq<FreeOp<C>>, states: seq<Mux<C>>, outputs: seq<Output<C>>) {
    && |states| == |ops| + 1 && |outputs| == |ops|
    && states[0] == Initial()
    && forall i :: 0 <= i < |ops| ==>
         && Known(states[i]) && Permitted(states[i], ops[i])
         && (states[i + 1], outputs[i]) == FreeApply(states[i], ops[i])
  }

  /** The router is told the ufrag of the sender: registration is last-writer-wins for every sender. */
  ghost function FreeRoute<C>(r: Router, f: FreeOp<C>, key: map<C, Ufrag>): (Router, Output<Ufrag>) {
    match f
    case Call(op) => Route(r, op)
    case SendBy(c, a) =>
      if r.closed || c !in key then (r, Nothing)
      else (r.(routes := r.routes[a := key[c]], reported := r.reported - {a}), Nothing)
  }

  ghost predicate FreeRouterRun<C>(ops: seq<FreeOp<C>>, states: seq<Mux<C>>, routers: seq<Router>,
                                   answers: seq<Output<Ufrag>>) {
    && |states| == |ops| + 1 && |routers| == |ops| + 1 && |answers| == |ops|
    && routers[0] == FRESH_ROUTER
    && forall i :: 0 <= i < |ops| ==> (routers[i + 1], answers[i]) == FreeRoute(routers[i], ops[i], states[i].key)
  }

  // ---- the exact condition -----------------------------------------------------

  /** What has to hold before a call for it to do what the router does. */
  ghost predicate Guard<C>(m: Mux<C>, f: FreeOp<C>)
    requires Known(m) && Permitted(m, f)
  {
    match f
    case Call(OpRemove(u)) => RoutesListed(m, u)
    case SendBy(c, a) =>
      || m.closed || a !in m.addresses[c]
      || (a in m.addressMap && m.key[m.addressMap[a]] == m.key[c] && a !in m.newAddrs)
    case _ => true
  }

  ghost predicate FreeStepMatches<C>(m: Mux<C>, r: Router, f: FreeOp<C>)
    requires Known(m) && Permitted(m, f)
  {
    var (n, out) := FreeApply(m, f);
    var (s, answer) := FreeRoute(r, f, m.key);
    Known(n) && Matches(n, s) && answer == ViewOutput(n.key, out)
  }

  lemma StepKeepsWellFormed<C>(m: Mux<C>, f: FreeOp<C>)
    requires WellFormed(m) && Permitted(m, f)
    ensures WellFormed(FreeApply(m, f).0)
  {
    match f
    case SendBy(c, a) => SendToKeeps(m, c, a);
    case Call(OpGetConn(u, made, localAddr)) => GetConnKeeps(m, u, made, localAddr);
    case Call(OpRemove(u)) => RemoveKeeps(m, u);
    case Call(OpClose) => CloseKeeps(m);
    case Call(OpReceive(p, accepted)) => ReceiveKeeps(m, p, accepted);
    case Call(OpWorkerStops) =>
  }

  lemma FirstSendMatches<C>(m: Mux<C>, r: Router, c: C, a: SocketAddr)
    requires Known(m) && Matches(m, r) && !m.closed && c in m.key && a !in m.addresses[c]
    ensures FreeStepMatches(m, r, SendBy(c, a))
  {
    hide SendTo;
    SendToEffect(m, c, a);
    var n := SendTo(m, c, a);
    assert n.key[n.addressMap[a]] == m.key[c];
  }

  lemma SendMatches<C>(m: Mux<C>, r: Router, c: C, a: SocketAddr)
    requires Known(m) && Matches(m, r) && c in m.key
    ensures FreeStepMatches(m, r, SendBy(c, a)) <==> Guard(m, SendBy(c, a))
  {
    if m.closed {
      var n := SendTo(m, c, a);
      assert n.addressMap == m.addressMap && n.key == m.key && n.newAddrs == m.newAddrs && n.conns == m.conns;
      assert Known(n);
    } else if a !in m.addresses[c] {
      FirstSendMatches(m, r, c, a);
    } else {
      assert SendTo(m, c, a) == m;
      var s := r.(routes := r.routes[a := m.key[c]], reported := r.reported - {a});
      assert a in s.routes && s.routes[a] == m.key[c] && a !in s.reported;
    }
  }

  /** From matching states one operation of the mux is one of the router, with the same answer, if and only
      if the guard holds before it. */
  lemma FreeStepRefines<C>(m: Mux<C>, r: Router, f: FreeOp<C>)
    requires WellFormed(m) && Matches(m, r) && Permitted(m, f)
    ensures FreeStepMatches(m, r, f) <==> Guard(m, f)
  {
    match f
    case SendBy(c, a) => SendMatches(m, r, c, a);
    case Call(OpGetConn(u, made, localAddr)) => GetConnRefines(m, r, u, made, localAddr);
    case Call(OpRemove(u)) => RemovalMatches(m, r, u);
    case Call(OpClose) => CloseRefines(m, r);
    case Call(OpReceive(p, accepted)) =>
      LookupRefines(m, r, p);
      ReceiveRefines(m, r, p, accepted);
    case Call(OpWorkerStops) =>
  }

  lemma {:induction false} FreeRunWellFormed<C>(ops: seq<FreeOp<C>>, states: seq<Mux<C>>, outputs: seq<Output<C>>,
                                                i: nat)
    requires FreeRun(ops, states, outputs) && i <= |ops|
    ensures WellFormed(states[i])
  {
    if i > 0 {
      FreeRunWellFormed(ops, states, outputs, i - 1);
      StepKeepsWellFormed(states[i - 1], ops[i - 1]);
      assert (states[i], outputs[i - 1]) == FreeApply(states[i - 1], ops[i - 1]);
    }
  }

  ghost predicate Tracks<C>(states: seq<Mux<C>>, outputs: seq<Output<C>>, routers: seq<Router>,
                            answers: seq<Output<Ufrag>>, i: nat)
    requires i < |states| && |outputs| == |states| - 1 && |routers| == |states| && |answers| == |outputs|
  {
    && Known(states[i]) && Matches(states[i], routers[i])
    && (i > 0 ==> answers[i - 1] == ViewOutput(states[i].key, outputs[i - 1]))
  }

  ghost predicate Guarded<C>(ops: seq<FreeOp<C>>, states: seq<Mux<C>>, i: nat) {
    i < |ops| && i < |states| && Known(states[i]) && Permitted(states[i], ops[i]) && Guard(states[i], ops[i])
  }

  lemma TracksStep<C>(ops: seq<FreeOp<C>>, states: seq<Mux<C>>, outputs: seq<Output<C>>,
                      routers: seq<Router>, answers: seq<Output<Ufrag>>, k: nat)
    requires FreeRun(ops, states, outputs) && FreeRouterRun(ops, states, routers, answers) && k < |ops|
    requires Tracks(states, outputs, routers, answers, k)
    ensures Tracks(states, outputs, routers, answers, k + 1) <==> Guarded(ops, states, k)
  {
    FreeRunWellFormed(ops, states, outputs, k);
    var m, r, f := states[k], routers[k], ops[k];
    assert Known(m) && Permitted(m, f) && (states[k + 1], outputs[k]) == FreeApply(m, f);
    assert (routers[k + 1], answers[k]) == FreeRoute(r, f, m.key);
    FreeStepRefines(m, r, f);
    hide FreeApply, FreeRoute, Guard, WellFormed, FreeRun, FreeRouterRun, Known, Permitted, Matches;
  }

  ghost predicate TracksUpTo<C>(states: seq<Mux<C>>, outputs: seq<Output<C>>, routers: seq<Router>,
                                answers: seq<Output<Ufrag>>, k: nat)
    requires k < |states| && |outputs| == |states| - 1 && |routers| == |states| && |answers| == |outputs|
  {
    forall i: nat :: i <= k ==> Tracks(states, outputs, routers, answers, i)
  }

  ghost predicate GuardedUpTo<C>(ops: seq<FreeOp<C>>, states: seq<Mux<C>>, k: nat) {
    forall i: nat :: i < k ==> Guarded(ops, states, i)
  }

  lemma UpToStep<C>(ops: seq<FreeOp<C>>, states: seq<Mux<C>>, outputs: seq<Output<C>>,
                    routers: seq<Router>, answers: seq<Output<Ufrag>>, k: nat)
    requires k + 1 < |states| && |outputs| == |states| - 1 && |routers| == |states| && |answers| == |outputs|
    ensures TracksUpTo(states, outputs, routers, answers, k + 1)
      <==> TracksUpTo(states, outputs, routers, answers, k) && Tracks(states, outputs, routers, answers, k + 1)
    ensures TracksUpTo(states, outputs, routers, answers, k) ==> Tracks(states, outputs, routers, answers, k)
    ensures GuardedUpTo(ops, states, k + 1) <==> GuardedUpTo(ops, states, k) && Guarded(ops, states, k)
  {
    hide Tracks, Guarded;
  }

  lemma RouterNext<C>(ops: seq<FreeOp<C>>, states: seq<Mux<C>>, outputs: seq<Output<C>>,
                      routers: seq<Router>, answers: seq<Output<Ufrag>>, k: nat)
    requires FreeRun(ops, states, outputs) && FreeRouterRun(ops, states, routers, answers) && k < |ops|
    requires TracksUpTo(states, outputs, routers, answers, k) <==> GuardedUpTo(ops, states, k)
    ensures TracksUpTo(states, outputs, routers, answers, k + 1) <==> GuardedUpTo(ops, states, k + 1)
  {
    UpToStep(ops, states, outputs, routers, answers, k);
    if TracksUpTo(states, outputs, routers, answers, k) {
      TracksStep(ops, states, outputs, routers, answers, k);
    }
    hide TracksUpTo, GuardedUpTo, Tracks, Guarded, FreeRun, FreeRouterRun;
  }

  lemma TracksAtFirst<C>(ops: seq<FreeOp<C>>, states: seq<Mux<C>>, outputs: seq<Output<C>>,
                         routers: seq<Router>, answers: seq<Output<Ufrag>>)
    requires FreeRun(ops, states, outputs) && FreeRouterRun(ops, states, routers, answers)
    ensures TracksUpTo(states, outputs, routers, answers, 0)
  {
    assert Tracks(states, outputs, routers, answers, 0);
  }

  /** Over every run, whoever sends, the mux is the last-writer-wins router state by state and answer by
      answer if and only if the guard held before every operation. */
  lemma {:induction false} RouterExactlyWhenGuarded<C>(ops: seq<FreeOp<C>>, states: seq<Mux<C>>,
                                                       outputs: seq<Output<C>>, routers: seq<Router>,
                                                       answers: seq<Output<Ufrag>>, k: nat)
    requires FreeRun(ops, states, outputs) && FreeRouterRun(ops, states, routers, answers) && k <= |ops|
    ensures TracksUpTo(states, outputs, routers, answers, k) <==> GuardedUpTo(ops, states, k)
    decreases k
  {
    if k == 0 {
      TracksAtFirst(ops, states, outputs, routers, answers);
    } else {
      RouterExactlyWhenGuarded(ops, states, outputs, routers, answers, k - 1);
      RouterNext(ops, states, outputs, routers, answers, k - 1);
    }
  }

  /** While the indexes agree, a removal and a send by a live connection meet their guards. */
  lemma AgreementGuards<C>(m: Mux<C>, f: FreeOp<C>)
    requires Good(m) && Permitted(m, f)
    requires f.SendBy? ==> Live(m, f.c)
    ensures Guard(m, f)
  {
    match f
    case SendBy(c, a) =>
      if a in m.addresses[c] {
        LiveOwns(m, c, a);
      }
    case Call(OpRemove(u)) =>
      AgreementLists(m, u);
    case _ =>
  }

  // ---- runs in which it is not ----------------------------------------------------

  /** One more operation at the end of a run. */
  lemma Extend<C>(ops: seq<FreeOp<C>>, states: seq<Mux<C>>, outputs: seq<Output<C>>, f: FreeOp<C>, n: Mux<C>,
                  out: Output<C>)
    requires FreeRun(ops, states, outputs)
    requires Known(states[|ops|]) && Permitted(states[|ops|], f) && (n, out) == FreeApply(states[|ops|], f)
    ensures FreeRun(ops + [f], states + [n], outputs + [out])
  {
    hide FreeApply, Known, Permitted;
  }

  function Replaced(u: Ufrag, a: SocketAddr): seq<FreeOp<nat>> {
    [Call(OpGetConn(u, 1, true)), Call(OpRemove(u)), SendBy(1, a), Call(OpGetConn(u, 2, true))]
  }

  /** Connection 1 of `u` registers `a` after its removal. */
  lemma RemovedConnRegisters(u: Ufrag, a: SocketAddr) returns (states: seq<Mux<nat>>, outputs: seq<Output<nat>>)
    ensures FreeRun(Replaced(u, a)[..3], states, outputs)
    ensures states[3].addressMap == map[a := 1] && states[3].conns == map[] && !states[3].closed
    ensures states[3].key == map[1 := u] && states[3].addresses == map[1 := {a}]
    ensures !Live(states[2], 1)
  {
    var m0: Mux<nat> := Initial();
    var m1 := InsertConn(m0, u, 1);
    assert (m1, Conn(Ok(1))) == Apply(m0, OpGetConn(u, 1, true));
    var m2 := RemoveConn(m1, u);
    assert m2.conns == map[] && m2.addressMap == map[] && m2.key == map[1 := u] && m2.addresses == map[1 := {}];
    SendToEffect(m2, 1, a);
    var m3 := SendTo(m2, 1, a);
    states, outputs := [m0, m1, m2, m3], [Conn(Ok(1)), Nothing, Nothing];
    hide SendTo;
    assert m3.addresses.Keys == {1} && m3.addresses[1] == {a};
    assert m3.addresses == map[1 := {a}];
  }

  /** And then 2 becomes the connection of `u`. */
  lemma ReplacedRun(u: Ufrag, a: SocketAddr) returns (states: seq<Mux<nat>>, outputs: seq<Output<nat>>)
    ensures FreeRun(Replaced(u, a), states, outputs)
    ensures states[4].addressMap == map[a := 1] && states[4].conns == map[u := 2] && !states[4].closed
    ensures states[4].key == map[1 := u, 2 := u] && states[4].addresses == map[1 := {a}, 2 := {}]
    ensures !Live(states[2], 1)
  {
    states, outputs := RemovedConnRegisters(u, a);
    var f, m := Replaced(u, a)[3], states[3];
    var n := InsertConn(m, u, 2);
    assert (n, Conn(Ok(2))) == Apply(m, OpGetConn(u, 2, true));
    assert Replaced(u, a)[..3] + [f] == Replaced(u, a);
    Extend(Replaced(u, a)[..3], states, outputs, f, n, Conn(Ok(2)));
    states, outputs := states + [n], outputs + [Conn(Ok(2))];
    hide FreeRun;
  }

  /** The removal that misses a route. The set of the live connection 2 is empty, so the removal of `u` does
      delete every entry pointing at 2 and no other; but `a` stays routed to `u`, by way of 1. */
  lemma RemovalMissesRoute(u: Ufrag, a: SocketAddr) returns (states: seq<Mux<nat>>, outputs: seq<Output<nat>>)
    ensures FreeRun(Replaced(u, a) + [Call(OpRemove(u))], states, outputs)
    ensures u in states[4].conns && states[4].addresses[states[4].conns[u]] == {}
    ensures Known(states[4]) && !RoutesListed(states[4], u)
    ensures u !in states[5].conns && states[5].addressMap == map[a := 1]
    ensures 1 in states[5].key && states[5].key[1] == u
  {
    states, outputs := ReplacedRun(u, a);
    var m := states[4];
    assert m.key[m.addressMap[a]] == u;
    var n := RemoveConn(m, u);
    assert n.addressMap == m.addressMap - {};
    Extend(Replaced(u, a), states, outputs, Call(OpRemove(u)), n, Nothing);
    states, outputs := states + [n], outputs + [Nothing];
    hide FreeRun;
  }

  function Overtaken(u: Ufrag, v: Ufrag, a: SocketAddr): seq<FreeOp<nat>> {
    Replaced(u, a) + [SendBy(2, a), Call(OpGetConn(v, 3, true)), SendBy(3, a)]
  }

  /** Connection 2 of `u` sends to `a` but the entry stays with 1, because the keys are equal. */
  lemma SuccessorSends(u: Ufrag, v: Ufrag, a: SocketAddr) returns (states: seq<Mux<nat>>, outputs: seq<Output<nat>>)
    ensures FreeRun(Overtaken(u, v, a)[..5], states, outputs) && !Live(states[2], 1) && Live(states[4], 2)
    ensures states[5].addressMap == map[a := 1] && states[5].conns == map[u := 2] && !states[5].closed
    ensures states[5].key == map[1 := u, 2 := u] && states[5].addresses == map[1 := {a}, 2 := {a}]
  {
    states, outputs := ReplacedRun(u, a);
    var m := states[4];
    var n := SendTo(m, 2, a);
    SendToEffect(m, 2, a);
    assert Overtaken(u, v, a)[..5] == Replaced(u, a) + [SendBy(2, a)];
    Extend(Replaced(u, a), states, outputs, SendBy(2, a), n, Nothing);
    states, outputs := states + [n], outputs + [Nothing];
    hide FreeRun, SendTo;
    assert n.addresses[1] == {a} && n.addresses[2] == {a};
  }

  lemma ThirdAppears(u: Ufrag, v: Ufrag, a: SocketAddr) returns (states: seq<Mux<nat>>, outputs: seq<Output<nat>>)
    requires u != v
    ensures FreeRun(Overtaken(u, v, a)[..6], states, outputs) && !Live(states[2], 1) && Live(states[4], 2)
    ensures states[6].addressMap == map[a := 1] && states[6].conns == map[u := 2, v := 3] && !states[6].closed
    ensures states[6].key == map[1 := u, 2 := u, 3 := v] && states[6].addresses == map[1 := {a}, 2 := {a}, 3 := {}]
  {
    states, outputs := SuccessorSends(u, v, a);
    var m, f := states[5], Call(OpGetConn(v, 3, true));
    var n := InsertConn(m, v, 3);
    assert (n, Conn(Ok(3))) == Apply(m, f.op);
    assert Overtaken(u, v, a)[..6] == Overtaken(u, v, a)[..5] + [f];
    Extend(Overtaken(u, v, a)[..5], states, outputs, f, n, Conn(Ok(3)));
    states, outputs := states + [n], outputs + [Conn(Ok(3))];
    hide FreeRun;
  }

  /** Connection 3 of `v` takes the entry from 1, while 2 keeps `a` in its set. */
  lemma ThirdOvertakes(m: Mux<nat>, a: SocketAddr)
    requires Known(m) && m.addressMap == map[a := 1] && !m.closed && m.key.Keys == {1, 2, 3}
    requires m.key[1] != m.key[3] && m.addresses[1] == m.addresses[2] == {a} && m.addresses[3] == {}
    ensures var n := SendTo(m, 3, a);
      && n.addressMap == map[a := 3] && n.conns == m.conns && n.key == m.key && n.addresses.Keys == {1, 2, 3}
      && n.addresses[1] == {} && n.addresses[2] == {a} && n.addresses[3] == {a}
  {
    hide SendTo;
    assert Loses(m, 3, a, 1) && !Loses(m, 3, a, 2) && !Loses(m, 3, a, 3);
    SendToEffect(m, 3, a);
    hide Loses, Known;
  }

  lemma OvertakenRun(u: Ufrag, v: Ufrag, a: SocketAddr) returns (states: seq<Mux<nat>>, outputs: seq<Output<nat>>)
    requires u != v
    ensures FreeRun(Overtaken(u, v, a), states, outputs)
    ensures !Live(states[2], 1) && Live(states[4], 2) && Live(states[6], 3)
    ensures states[7].addressMap == map[a := 3] && states[7].conns == map[u := 2, v := 3]
    ensures states[7].key == map[1 := u, 2 := u, 3 := v] && states[7].addresses == map[1 := {}, 2 := {a}, 3 := {a}]
  {
    states, outputs := ThirdAppears(u, v, a);
    assert Known(states[6]) && Live(states[6], 3);
    ThirdOvertakes(states[6], a);
    hide SendTo;
    var n := SendTo(states[6], 3, a);
    assert Overtaken(u, v, a) == Overtaken(u, v, a)[..6] + [SendBy(3, a)];
    Extend(Overtaken(u, v, a)[..6], states, outputs, SendBy(3, a), n, Nothing);
    states, outputs := states + [n], outputs + [Nothing];
    hide FreeRun;
  }

  lemma OvertakenRemoval(m: Mux<nat>, u: Ufrag, v: Ufrag, a: SocketAddr) returns (n: Mux<nat>)
    requires u != v && m.addressMap == map[a := 3] && m.conns == map[u := 2, v := 3]
    requires m.key == map[1 := u, 2 := u, 3 := v] && m.addresses == map[1 := {}, 2 := {a}, 3 := {a}]
    ensures Known(m) && Live(m, 3) && !RoutesListed(m, u) && !Agreement(m)
    ensures n == RemoveConn(m, u) && n.addressMap == map[] && Live(n, 3)
  {
    n := RemoveConn(m, u);
    assert m.key[m.addressMap[a]] == v && a in m.addresses[m.conns[u]];
  }

  /** The removal that deletes another ufrag's route. In this run, whose only stale send is the first one, `a`
      ends up routed to the live connection 3 of `v`, and removing `u` deletes that route. */
  lemma StaleSenderBreaksRouting(u: Ufrag, v: Ufrag, a: SocketAddr)
    returns (states: seq<Mux<nat>>, outputs: seq<Output<nat>>)
    requires u != v
    ensures FreeRun(Overtaken(u, v, a) + [Call(OpRemove(u))], states, outputs)
    ensures !Live(states[2], 1) && Live(states[4], 2) && Live(states[6], 3)
    ensures Live(states[7], 3) && states[7].key[3] == v && states[7].addressMap == map[a := 3]
    ensures Known(states[7]) && !RoutesListed(states[7], u) && !Agreement(states[7])
    ensures Live(states[8], 3) && states[8].addressMap == map[]
  {
    states, outputs := OvertakenRun(u, v, a);
    var final := OvertakenRemoval(states[7], u, v, a);
    hide RemoveConn, RoutesListed, Agreement;
    Extend(Overtaken(u, v, a), states, outputs, Call(OpRemove(u)), final, Nothing);
    states, outputs := states + [final], outputs + [Nothing];
    hide FreeRun;
  }
}
