/**
 Runs of the mux, operation by operation, against a reference router that has neither connection
 objects nor a reverse index: a plain map from addresses to ufrags.
*/
module MuxRouting {
  import opened Wrappers
  import opened Addresses
  import opened MuxState
  import opened ReportLog

  datatype Op<C> =
    | OpGetConn(u: Ufrag, made: C, localAddr: bool)
    | OpRemove(u: Ufrag)
    | OpSendTo(u: Ufrag, addr: SocketAddr)        // the live connection of `u` sends to `addr`
    | OpClose
    | OpReceive(packet: Packet, accepted: bool)
    | OpWorkerStops                               // a receive error or the close signal

  datatype Output<X> =
    | Nothing
    | Conn(result: Result<X, Error>)
    | Closed(outcome: Result<(), Error>)
    | Handled(what: Outcome<X>)

  // ---- the implementation ----------------------------------------------

  ghost predicate Legal<C>(m: Mux<C>, op: Op<C>) {
    op.OpGetConn? ==> op.made !in m.key
  }

  ghost function Apply<C>(m: Mux<C>, op: Op<C>): (Mux<C>, Output<C>)
    requires Known(m)
  {
    match op
    case OpGetConn(u, made, localAddr) =>
      var (n, r) := GetConn(m, u, made, localAddr);
      (n, Conn(r))
    case OpRemove(u) => (RemoveConn(m, u), Nothing)
    case OpSendTo(u, a) => (if u in m.conns then SendTo(m, m.conns[u], a) else m, Nothing)
    case OpClose =>
      var (n, r) := MuxState.Close(m);
      (n, Closed(r))
    case OpReceive(p, accepted) =>
      var (n, o) := Receive(m, p, accepted);
      (n, Handled(o))
    case OpWorkerStops => (m.(listening := false), Nothing)
  }

  /** A run: the states it passes through and what each operation answered. */
  ghost predicate Run<C>(ops: seq<Op<C>>, states: seq<Mux<C>>, outputs: seq<Output<C>>) {
    && |states| == |ops| + 1 && |outputs| == |ops|
    && states[0] == Initial()
    && forall i :: 0 <= i < |ops| ==>
         Known(states[i]) && Legal(states[i], ops[i]) && (states[i + 1], outputs[i]) == Apply(states[i], ops[i])
  }

  // ---- the reference router --------------------------------------------

  datatype Router = Router(
    live: set<Ufrag>,
    routes: map<SocketAddr, Ufrag>,
    reported: set<SocketAddr>,
    closed: bool,
    listening: bool)

  const FRESH_ROUTER := Router({}, map[], {}, false, true)

  /** Whose packet it is: the source's route, else the live ufrag its username names first. */
  ghost predicate Claims(r: Router, p: Packet, u: Ufrag) {
    if p.source in r.routes then u == r.routes[p.source]
    else p.stun && p.username.Some? && LocalSegment(p.username.value) == u && u in r.live
  }

  ghost function RouterReceive(r: Router, p: Packet, accepted: bool): (Router, Outcome<Ufrag>) {
    if !r.listening then (r, NotListening)
    else if exists u :: Claims(r, p, u) then
      var u :| Claims(r, p, u);
      (r, Routed(u))
    else if p.source in r.reported then (r, AlreadyReported)
    else if p.username.None? then (r, Undecodable)
    else match Announcement(p)
      case None => (r.(listening := false), Panicked)
      case Some(addr) =>
        if accepted then (r.(reported := r.reported + {p.source}), Reported(addr)) else (r, SendFailed(addr))
  }

  /** Registration is last-writer-wins, removal deletes every route of the ufrag, close deletes all. */
  ghost function Route<C>(r: Router, op: Op<C>): (Router, Output<Ufrag>) {
    match op
    case OpGetConn(u, _, localAddr) =>
      if r.closed then (r, Conn(Err(ErrUseClosedNetworkConn)))
      else if u in r.live then (r, Conn(Ok(u)))
      else if !localAddr then (r, Conn(Err(ErrLocalAddr)))
      else (r.(live := r.live + {u}), Conn(Ok(u)))
    case OpRemove(u) =>
      (r.(live := r.live - {u}, routes := map a | a in r.routes && r.routes[a] != u :: r.routes[a]), Nothing)
    case OpSendTo(u, a) =>
      if u in r.live then (r.(routes := r.routes[a := u], reported := r.reported - {a}), Nothing)
      else (r, Nothing)
    case OpClose =>
      if r.closed then (r, Closed(Err(ErrAlreadyClosed)))
      else (Router({}, map[], {}, true, r.listening), Closed(Ok(())))
    case OpReceive(p, accepted) =>
      var (q, o) := RouterReceive(r, p, accepted);
      (q, Handled(o))
    case OpWorkerStops => (r.(listening := false), Nothing)
  }

  ghost predicate RouterRun<C>(ops: seq<Op<C>>, routers: seq<Router>, answers: seq<Output<Ufrag>>) {
    && |routers| == |ops| + 1 && |answers| == |ops|
    && routers[0] == FRESH_ROUTER
    && forall i :: 0 <= i < |ops| ==> (routers[i + 1], answers[i]) == Route(routers[i], ops[i])
  }

  // ---- refinement --------------------------------------------------------

  /** The router's state, seen through the connections: a route is the key of the mapped connection. */
  ghost predicate Matches<C>(m: Mux<C>, r: Router)
    requires Known(m)
  {
    && r.live == m.conns.Keys
    && r.routes.Keys == m.addressMap.Keys
    && (forall a :: a in m.addressMap ==> r.routes[a] == m.key[m.addressMap[a]])
    && r.reported == m.newAddrs && r.closed == m.closed && r.listening == m.listening
  }

  ghost function ViewOutcome<C>(key: map<C, Ufrag>, o: Outcome<C>): Outcome<Ufrag> {
    match o
    case Routed(c) => Routed(if c in key then key[c] else "")
    case AlreadyReported => AlreadyReported
    case Undecodable => Undecodable
    case Panicked => Panicked
    case Reported(addr) => Reported(addr)
    case SendFailed(addr) => SendFailed(addr)
    case NotListening => NotListening
  }

  ghost function ViewOutput<C>(key: map<C, Ufrag>, o: Output<C>): Output<Ufrag> {
    match o
    case Nothing => Nothing
    case Conn(Ok(c)) => Conn(Ok(if c in key then key[c] else ""))
    case Conn(Err(e)) => Conn(Err(e))
    case Closed(r) => Closed(r)
    case Handled(what) => Handled(ViewOutcome(key, what))
  }

  ghost predicate Good<C>(m: Mux<C>) {
    WellFormed(m) && Agreement(m)
  }

  lemma StepKeepsGood<C>(m: Mux<C>, op: Op<C>)
    requires Good(m) && Legal(m, op)
    ensures Good(Apply(m, op).0)
  {
    match op
    case OpGetConn(u, made, localAddr) => GetConnKeeps(m, u, made, localAddr);
    case OpRemove(u) => RemoveKeeps(m, u);
    case OpSendTo(u, a) => if u in m.conns { SendToKeeps(m, m.conns[u], a); }
    case OpClose => CloseKeeps(m);
    case OpReceive(p, accepted) => ReceiveKeeps(m, p, accepted);
    case OpWorkerStops =>
  }

  /** One step of both machines from matching states. */
  ghost predicate StepMatches<C>(m: Mux<C>, r: Router, op: Op<C>)
    requires Known(m)
  {
    var (n, out) := Apply(m, op);
    var (s, answer) := Route(r, op);
    Known(n) && Matches(n, s) && answer == ViewOutput(n.key, out)
  }

  lemma GetConnRefines<C>(m: Mux<C>, r: Router, u: Ufrag, made: C, localAddr: bool)
    requires WellFormed(m) && Matches(m, r) && made !in m.key
    ensures StepMatches(m, r, OpGetConn(u, made, localAddr))
  {
    if !m.closed && u !in m.conns && localAddr {
      var n := InsertConn(m, u, made);
      assert Matches(n, r.(live := r.live + {u}));
    }
  }

  lemma CloseRefines<C>(m: Mux<C>, r: Router)
    requires WellFormed(m) && Matches(m, r)
    ensures StepMatches<C>(m, r, OpClose)
  {}

  /** A removal, field by field. */
  lemma RemovalFields<C>(m: Mux<C>, u: Ufrag)
    requires Known(m)
    ensures var n := RemoveConn(m, u);
      && Known(n) && n.conns.Keys == m.conns.Keys - {u} && n.key == m.key && n.newAddrs == m.newAddrs
      && n.closed == m.closed && n.listening == m.listening
      && forall a :: a in n.addressMap ==> a in m.addressMap && n.addressMap[a] == m.addressMap[a]
  {}

  /** A removal is the router's if and only if the routes of the ufrag are the routed addresses in the set of its
      live connection. */
  lemma RemovalMatches<C>(m: Mux<C>, r: Router, u: Ufrag)
    requires WellFormed(m) && Matches(m, r)
    ensures StepMatches<C>(m, r, OpRemove(u)) <==> RoutesListed(m, u)
  {
    RemoveDeletesRoutes(m, u);
    RemovalFields(m, u);
    hide RemoveConn, RoutesListed;
    var n := RemoveConn(m, u);
    var left := map a | a in m.addressMap && m.key[m.addressMap[a]] != u :: m.addressMap[a];
    assert Route<C>(r, OpRemove(u)).0.routes.Keys == left.Keys;
    if n.addressMap.Keys == left.Keys {
      assert n.addressMap == left;
    }
  }

  lemma RemoveRefines<C>(m: Mux<C>, r: Router, u: Ufrag)
    requires Good(m) && Matches(m, r)
    ensures StepMatches<C>(m, r, OpRemove(u))
  {
    AgreementLists(m, u);
    RemovalMatches(m, r, u);
  }

  lemma FirstSendRefines<C>(m: Mux<C>, r: Router, u: Ufrag, a: SocketAddr)
    requires Known(m) && Matches(m, r) && !m.closed && u in m.conns
    requires m.key[m.conns[u]] == u && a !in m.addresses[m.conns[u]]
    ensures StepMatches<C>(m, r, OpSendTo(u, a))
  {
    hide SendTo;
    SendToEffect(m, m.conns[u], a);
    var n := SendTo(m, m.conns[u], a);
    assert n.key[n.addressMap[a]] == u;
  }

  lemma SendToRefines<C>(m: Mux<C>, r: Router, u: Ufrag, a: SocketAddr)
    requires Good(m) && Matches(m, r)
    ensures StepMatches<C>(m, r, OpSendTo(u, a))
  {
    if u in m.conns && a in m.addresses[m.conns[u]] {
      LiveOwns(m, m.conns[u], a);
      assert SendTo(m, m.conns[u], a) == m;
      assert Matches(m, r.(routes := r.routes[a := u], reported := r.reported - {a}));
    } else if u in m.conns {
      FirstSendRefines(m, r, u, a);
    }
  }

  lemma LookupRefines<C>(m: Mux<C>, r: Router, p: Packet)
    requires WellFormed(m) && Matches(m, r)
    ensures Lookup(m, p).Some? ==> Lookup(m, p).value in m.key
    ensures forall u :: Claims(r, p, u) <==> Lookup(m, p).Some? && m.key[Lookup(m, p).value] == u
  {}

  lemma ReceiveRefines<C>(m: Mux<C>, r: Router, p: Packet, accepted: bool)
    requires Known(m) && Matches(m, r)
    requires Lookup(m, p).Some? ==> Lookup(m, p).value in m.key
    requires forall u :: Claims(r, p, u) <==> Lookup(m, p).Some? && m.key[Lookup(m, p).value] == u
    ensures StepMatches(m, r, OpReceive(p, accepted))
  {
    hide Announcement, LocalSegment, Claims, Lookup;
    if m.listening && Lookup(m, p).Some? {
      var u := m.key[Lookup(m, p).value];
      assert Claims(r, p, u);
      assert Receive(m, p, accepted) == (m, Routed(Lookup(m, p).value));
      assert RouterReceive(r, p, accepted) == (r, Routed(u));
    } else if m.listening {
      assert forall u :: !Claims(r, p, u);
      UnclaimedRefines(m, r, p, accepted);
    }
  }

  lemma UnclaimedRefines<C>(m: Mux<C>, r: Router, p: Packet, accepted: bool)
    requires Known(m) && Matches(m, r) && m.listening
    requires Lookup(m, p).None? && forall u :: !Claims(r, p, u)
    ensures StepMatches(m, r, OpReceive(p, accepted))
  {
    hide Announcement, LocalSegment, Claims, Lookup;
    assert !exists u :: Claims(r, p, u);
    if p.source !in m.newAddrs && p.username.Some? {
      match Announcement(p) {
        case None =>
          assert Receive(m, p, accepted) == (m.(listening := false), Panicked);
          assert RouterReceive(r, p, accepted) == (r.(listening := false), Panicked);
        case Some(addr) =>
          if accepted {
            assert Receive(m, p, accepted) == (MarkReported(m, p.source), Reported(addr));
            assert RouterReceive(r, p, accepted) == (r.(reported := r.reported + {p.source}), Reported(addr));
          }
      }
    }
  }

  /** One operation of the mux is one operation of the router, with the same answer. */
  lemma StepRefines<C>(m: Mux<C>, r: Router, op: Op<C>)
    requires Good(m) && Matches(m, r) && Legal(m, op)
    ensures Good(Apply(m, op).0) && StepMatches(m, r, op)
  {
    StepKeepsGood(m, op);
    match op
    case OpGetConn(u, made, localAddr) => GetConnRefines(m, r, u, made, localAddr);
    case OpRemove(u) => RemoveRefines(m, r, u);
    case OpSendTo(u, a) => SendToRefines(m, r, u, a);
    case OpClose => CloseRefines(m, r);
    case OpReceive(p, accepted) =>
      LookupRefines(m, r, p);
      ReceiveRefines(m, r, p, accepted);
    case OpWorkerStops =>
  }

  /** Over every run the mux is the reference router, state by state and answer by answer, and its
      two indexes agree in every state. */
  lemma {:induction false} RunRefines<C>(ops: seq<Op<C>>, states: seq<Mux<C>>, outputs: seq<Output<C>>,
                                         routers: seq<Router>, answers: seq<Output<Ufrag>>, i: nat)
    requires Run(ops, states, outputs) && RouterRun(ops, routers, answers) && i <= |ops|
    ensures Good(states[i]) && Matches(states[i], routers[i])
    ensures i > 0 ==> answers[i - 1] == ViewOutput(states[i].key, outputs[i - 1])
  {
    if i > 0 {
      RunRefines(ops, states, outputs, routers, answers, i - 1);
      StepRefines(states[i - 1], routers[i - 1], ops[i - 1]);
      assert (states[i], outputs[i - 1]) == Apply(states[i - 1], ops[i - 1]);
      assert (routers[i], answers[i - 1]) == Route(routers[i - 1], ops[i - 1]);
    }
  }

  // ---- consequences over runs ---------------------------------------------

  lemma RunIsGood<C>(ops: seq<Op<C>>, states: seq<Mux<C>>, outputs: seq<Output<C>>, i: nat)
    requires Run(ops, states, outputs) && i <= |ops|
    ensures Good(states[i])
  {
    if i > 0 {
      RunIsGood(ops, states, outputs, i - 1);
      StepKeepsGood(states[i - 1], ops[i - 1]);
      assert (states[i], outputs[i - 1]) == Apply(states[i - 1], ops[i - 1]);
    }
  }

  /** Two `get_conn` calls for one ufrag return the same connection unless the ufrag was removed or
      the mux closed in between. */
  lemma {:induction false} OneConnectionPerUfrag<C>(ops: seq<Op<C>>, states: seq<Mux<C>>, outputs: seq<Output<C>>,
                                                    i: nat, j: nat, u: Ufrag)
    requires Run(ops, states, outputs) && i < j < |ops|
    requires ops[i].OpGetConn? && ops[i].u == u && outputs[i].Conn? && outputs[i].result.Ok?
    requires forall k :: i < k < j ==> ops[k] != OpRemove(u) && ops[k] != OpClose
    ensures u in states[j].conns && states[j].conns[u] == outputs[i].result.value
    ensures ops[j].OpGetConn? && ops[j].u == u ==> outputs[j] == outputs[i]
  {
    hide Apply;
    RunIsGood(ops, states, outputs, j);
    assert (states[j], outputs[j - 1]) == Apply(states[j - 1], ops[j - 1]);
    assert (states[j + 1], outputs[j]) == Apply(states[j], ops[j]);
    if ops[j].OpGetConn? && ops[j].u == u {
      GetConnAnswers(states[j], ops[j], u);
    }
    if i + 1 < j {
      OneConnectionPerUfrag(ops, states, outputs, i, j - 1, u);
      ConnStays(states[j - 1], ops[j - 1], u);
    } else {
      GetConnAnswers(states[i], ops[i], u);
    }
  }

  lemma GetConnAnswers<C>(m: Mux<C>, op: Op<C>, u: Ufrag)
    requires Known(m) && op.OpGetConn? && op.u == u
    ensures var (n, out) := Apply(m, op);
      && (out.Conn? && out.result.Ok? ==> u in n.conns && n.conns[u] == out.result.value)
      && (u in m.conns && !m.closed ==> out == Conn(Ok(m.conns[u])))
  {}

  lemma ConnStays<C>(m: Mux<C>, op: Op<C>, u: Ufrag)
    requires Known(m) && u in m.conns && op != OpRemove(u) && op != OpClose
    ensures u in Apply(m, op).0.conns && Apply(m, op).0.conns[u] == m.conns[u]
  {
    hide Announcement, LocalSegment;
  }

  /** Closing is final: from then on no connection and no route ever exists again, and every
      removal watcher that still runs changes nothing. */
  lemma {:induction false} ClosedIsFinal<C>(ops: seq<Op<C>>, states: seq<Mux<C>>, outputs: seq<Output<C>>,
                                            i: nat, j: nat, u: Ufrag)
    requires Run(ops, states, outputs) && i <= j <= |ops| && states[i].closed
    ensures states[j].closed && states[j].conns == map[] && states[j].addressMap == map[]
    ensures Known(states[j]) && RemoveConn(states[j], u) == states[j]
  {
    hide Apply;
    RunIsGood(ops, states, outputs, j);
    if i < j {
      ClosedIsFinal(ops, states, outputs, i, j - 1, u);
      assert (states[j], outputs[j - 1]) == Apply(states[j - 1], ops[j - 1]);
      RunIsGood(ops, states, outputs, j - 1);
      ClosedStays(states[j - 1], ops[j - 1]);
    }
    ClosedIsEmpty(states[j]);
  }

  lemma ClosedStays<C>(m: Mux<C>, op: Op<C>)
    requires Known(m) && m.closed
    ensures Apply(m, op).0.closed
  {
    hide Announcement, LocalSegment;
  }

  lemma ClosedIsEmpty<C>(m: Mux<C>)
    requires Good(m) && m.closed
    ensures m.conns == map[] && m.addressMap == map[]
  {
    forall a ensures a !in m.addressMap {
      assert a in m.addressMap ==> Live(m, m.addressMap[a]);
    }
  }

  /** At operation `k` a close finds the mux open and `c` mapped. */
  ghost predicate Closes<C>(ops: seq<Op<C>>, states: seq<Mux<C>>, k: nat, c: C) {
    && k < |ops| && k < |states| && ops[k] == OpClose && !states[k].closed
    && exists u :: u in states[k].conns && states[k].conns[u] == c
  }

  lemma StepShuts<C>(m: Mux<C>, op: Op<C>, c: C)
    requires Known(m)
    ensures c in Apply(m, op).0.shut <==>
      c in m.shut || (op == OpClose && !m.closed && exists u :: u in m.conns && m.conns[u] == c)
  {
    hide Announcement, LocalSegment;
    if op.OpSendTo? && op.u in m.conns && op.addr !in m.addresses[m.conns[op.u]] && !m.closed {
      SendToEffect(m, m.conns[op.u], op.addr);
      hide SendTo;
    }
  }

  /** In every state of every run the connections the mux has closed are exactly those that were mapped when a
      close found it open. */
  lemma {:induction false} ClosedExactly<C>(ops: seq<Op<C>>, states: seq<Mux<C>>, outputs: seq<Output<C>>, i: nat, c: C)
    requires Run(ops, states, outputs) && i <= |ops|
    ensures c in states[i].shut <==> exists k: nat :: k < i && Closes(ops, states, k, c)
  {
    if i > 0 {
      ClosedExactly(ops, states, outputs, i - 1, c);
      assert Known(states[i - 1]) && (states[i], outputs[i - 1]) == Apply(states[i - 1], ops[i - 1]);
      StepShuts(states[i - 1], ops[i - 1], c);
      assert c in states[i].shut <==> c in states[i - 1].shut || Closes(ops, states, i - 1, c);
      hide Run, Closes, Apply;
    }
  }

  lemma StepKeepsWatched<C>(m: Mux<C>, op: Op<C>)
    requires Known(m) && Watched(m) && Legal(m, op)
    ensures Watched(Apply(m, op).0)
  {
    hide Announcement, LocalSegment;
    if op.OpSendTo? && op.u in m.conns && op.addr !in m.addresses[m.conns[op.u]] && !m.closed {
      SendToEffect(m, m.conns[op.u], op.addr);
    }
  }

  /** In every state of every run each connection ever created has exactly one removal watcher. */
  lemma {:induction false} OneWatcherPerConnection<C>(ops: seq<Op<C>>, states: seq<Mux<C>>, outputs: seq<Output<C>>,
                                                      i: nat)
    requires Run(ops, states, outputs) && i <= |ops|
    ensures Watched(states[i])
  {
    if i > 0 {
      OneWatcherPerConnection(ops, states, outputs, i - 1);
      StepKeepsWatched(states[i - 1], ops[i - 1]);
      assert (states[i], outputs[i - 1]) == Apply(states[i - 1], ops[i - 1]);
    }
  }

  /** What one operation adds to the history of reports. */
  ghost function Events<C>(m: Mux<C>, op: Op<C>): seq<Event>
    requires Known(m)
  {
    match op
    case OpReceive(p, accepted) => if Receive(m, p, accepted).1.Reported? then [Sent(p.source)] else []
    case OpSendTo(u, a) =>
      if u in m.conns && a !in m.addresses[m.conns[u]] && !m.closed then [Forgot(a)] else []
    case OpClose => if m.closed then [] else [Cleared]
    case _ => []
  }

  ghost function History<C>(ops: seq<Op<C>>, states: seq<Mux<C>>, i: nat): seq<Event>
    requires |states| == |ops| + 1 && i <= |ops|
    requires forall k :: 0 <= k < i ==> Known(states[k])
  {
    if i == 0 then [] else History(ops, states, i - 1) + Events(states[i - 1], ops[i - 1])
  }

  ghost predicate RemembersHistory<C>(m: Mux<C>, log: seq<Event>) {
    AtMostOnce(log) && forall a :: a in m.newAddrs <==> Outstanding(log, a)
  }

  lemma StepRemembers<C>(m: Mux<C>, op: Op<C>, log: seq<Event>)
    requires Good(m) && RemembersHistory(m, log)
    ensures RemembersHistory(Apply(m, op).0, log + Events(m, op))
  {
    hide Announcement, LocalSegment;
    var e := Events(m, op);
    var n := Apply(m, op).0;
    if e == [] {
      assert log + e == log;
      assert n.newAddrs == m.newAddrs;
    } else {
      assert e == [e[0]];
      if op.OpSendTo? {
        SendToEffect(m, m.conns[op.u], op.addr);
      }
      forall a ensures a in n.newAddrs <==> Outstanding(log + e, a) {
        OutstandingAfter(log, e[0], a);
      }
      AtMostOnceAfter(log, e[0]);
    }
  }

  /** In every state of every run, the reported set is exactly the addresses successfully sent and
      not registered or cleared since, no address is both reported and routed, and no address was
      sent twice without being forgotten in between. */
  lemma {:induction false} ReportedSinceForgotten<C>(ops: seq<Op<C>>, states: seq<Mux<C>>, outputs: seq<Output<C>>,
                                                     i: nat, a: SocketAddr)
    requires Run(ops, states, outputs) && i <= |ops|
    ensures a in states[i].newAddrs <==> SentSinceForgotten(History(ops, states, i), a)
    ensures !(a in states[i].newAddrs && a in states[i].addressMap)
    ensures AtMostOnce(History(ops, states, i))
  {
    RunRemembers(ops, states, outputs, i);
    RunIsGood(ops, states, outputs, i);
    OutstandingMeans(History(ops, states, i), a);
  }

  lemma {:induction false} RunRemembers<C>(ops: seq<Op<C>>, states: seq<Mux<C>>, outputs: seq<Output<C>>, i: nat)
    requires Run(ops, states, outputs) && i <= |ops|
    ensures RemembersHistory(states[i], History(ops, states, i))
  {
    if i > 0 {
      RunRemembers(ops, states, outputs, i - 1);
      RunIsGood(ops, states, outputs, i - 1);
      StepRemembers(states[i - 1], ops[i - 1], History(ops, states, i - 1));
      assert (states[i], outputs[i - 1]) == Apply(states[i - 1], ops[i - 1]);
    }
  }
}
