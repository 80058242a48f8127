/**
 The mux and the listeners as one system. The worker owns the only sending half of the report
 channel, so the channel is over exactly when the worker has stopped.
*/
module Pipeline {
  import opened Wrappers
  import opened Addresses
  import opened MuxState
  import opened MuxRouting
  import Listener
  import ListenerRuns

  datatype Move<C> = AtMux(op: Op<C>) | AtListeners(act: ListenerRuns.Action)

  datatype System<C> = System(mux: Mux<C>, pool: ListenerRuns.Pool)

  ghost predicate Enabled<C>(s: System<C>, move: Move<C>) {
    match move
    case AtMux(op) => Known(s.mux) && Legal(s.mux, op)
    case AtListeners(act) => !act.Send? && !act.SendersGo? && ListenerRuns.Enabled(s.pool, act)
  }

  /** The addresses an operation of the mux sends successfully. */
  ghost function Reports<C>(m: Mux<C>, move: Move<C>): seq<Multiaddr> {
    if move.AtMux? && move.op.OpReceive? then
      var outcome := Receive(m, move.op.packet, move.op.accepted).1;
      if outcome.Reported? then [outcome.addr] else []
    else []
  }

  ghost function Next<C>(s: System<C>, move: Move<C>): (System<C>, Listener.Poll)
    requires Enabled(s, move)
  {
    match move
    case AtMux(op) =>
      var m := Apply(s.mux, op).0;
      var queue := s.pool.queue + Reports(s.mux, move);
      (System(m, s.pool.(queue := queue, sendersGone := !m.listening)), Listener.PollPending)
    case AtListeners(act) =>
      var (pool, r) := ListenerRuns.Next(s.pool, act);
      (System(s.mux, pool), r)
  }

  /** Move `k` is enabled and leads from the system before it to the one after it, with its answer. */
  ghost predicate Makes<C>(moves: seq<Move<C>>, systems: seq<System<C>>, results: seq<Listener.Poll>, k: nat) {
    && k < |moves| && k + 1 < |systems| && k < |results|
    && Enabled(systems[k], moves[k]) && (systems[k + 1], results[k]) == Next(systems[k], moves[k])
  }

  ghost predicate Run<C>(moves: seq<Move<C>>, systems: seq<System<C>>, results: seq<Listener.Poll>) {
    && |systems| == |moves| + 1 && |results| == |moves|
    && systems[0] == System(Initial(), ListenerRuns.Pool([], [], false))
    && forall k: nat :: k < |moves| ==> Makes(moves, systems, results, k)
  }

  /** Everything the mux has successfully sent, in order. */
  ghost function ReportedBy<C>(moves: seq<Move<C>>, systems: seq<System<C>>, k: nat): seq<Multiaddr>
    requires |systems| == |moves| + 1 && k <= |moves|
  {
    if k == 0 then [] else ReportedBy(moves, systems, k - 1) + Reports(systems[k - 1].mux, moves[k - 1])
  }

  lemma StepDelivers<C>(s: System<C>, move: Move<C>, upgrades: seq<Multiaddr>, results: seq<Listener.Poll>)
    requires Enabled(s, move) && s.pool.sendersGone == !s.mux.listening && upgrades == ListenerRuns.UpgradedBy(results)
    ensures var (n, r) := Next(s, move);
      && n.pool.sendersGone == !n.mux.listening
      && ListenerRuns.UpgradedBy(results + [r]) + n.pool.queue == upgrades + s.pool.queue + Reports(s.mux, move)
      && (r.PollEnd? ==> s.pool.queue == [] && n == s.(pool := n.pool) && !n.mux.listening)
  {
    var (n, r) := Next(s, move);
    assert (results + [r])[..|results|] == results;
    hide Apply, Known, Receive, Listener.PollOnce;
    if move.AtListeners? {
      ListenerRuns.QueueStep(s.pool, move.act);
      hide ListenerRuns.Next;
    }
  }

  /** Across the whole system, under any schedule of mux operations and of polls of any number of
      listeners: the upgrades handed out followed by the queue are exactly the addresses the mux sent;
      and when a listener's stream ends, the worker has stopped and every address the mux ever sent
      has been handed out. */
  lemma {:induction false} Delivered<C>(moves: seq<Move<C>>, systems: seq<System<C>>, results: seq<Listener.Poll>,
                                        k: nat)
    requires Run(moves, systems, results) && k <= |moves|
    ensures systems[k].pool.sendersGone == !systems[k].mux.listening
    ensures ListenerRuns.UpgradedBy(results[..k]) + systems[k].pool.queue == ReportedBy(moves, systems, k)
    ensures k > 0 && results[k - 1].PollEnd? ==>
      !systems[k].mux.listening && ListenerRuns.UpgradedBy(results[..k]) == ReportedBy(moves, systems, k)
  {
    if k > 0 {
      Delivered(moves, systems, results, k - 1);
      var s, move := systems[k - 1], moves[k - 1];
      assert Makes(moves, systems, results, k - 1);
      assert results[..k] == results[..k - 1] + [results[k - 1]];
      StepDelivers(s, move, ListenerRuns.UpgradedBy(results[..k - 1]), results[..k - 1]);
      if results[k - 1].PollEnd? {
        ListenerEnds(s, move);
      }
      hide Next, Enabled, Run, Reports, ListenerRuns.UpgradedBy;
    }
  }

  lemma ListenerEnds<C>(s: System<C>, move: Move<C>)
    requires Enabled(s, move) && Next(s, move).1.PollEnd?
    ensures Next(s, move).0.pool.queue == [] && Reports(s.mux, move) == []
  {
    hide Apply, Known, Receive, Listener.PollOnce;
    if move.AtListeners? {
      ListenerRuns.QueueStep(s.pool, move.act);
    }
  }

  /** Every upgrade a listener hands out is for the source of a packet the worker received, with the
      fingerprint of the packet's username, and the listener's upgrade accepts that address. */
  lemma {:induction false} UpgradesAcceptable<C>(moves: seq<Move<C>>, systems: seq<System<C>>,
                                                 results: seq<Listener.Poll>,
                                                 k: nat, addr: Multiaddr)
    requires Run(moves, systems, results) && k <= |moves| && addr in ListenerRuns.UpgradedBy(results[..k])
    ensures Upgradable(addr)
    ensures exists j: nat :: j < k && FromPacket(moves[j], addr)
  {
    Delivered(moves, systems, results, k);
    assert addr in ReportedBy(moves, systems, k);
    var j := ReportOf(moves, systems, k, addr);
    PacketReported(systems[j].mux, moves[j], addr);
  }

  /** The move is the receipt of a packet that announces `addr`. */
  ghost predicate FromPacket<C>(move: Move<C>, addr: Multiaddr) {
    && move.AtMux? && move.op.OpReceive? && move.op.accepted
    && move.op.packet.username.Some? && Announcement(move.op.packet) == Some(addr)
    && SocketAddrOf(addr) == Some(move.op.packet.source)
  }

  lemma {:induction false} ReportOf<C>(moves: seq<Move<C>>, systems: seq<System<C>>, k: nat, addr: Multiaddr)
    returns (j: nat)
    requires |systems| == |moves| + 1 && k <= |moves| && addr in ReportedBy(moves, systems, k)
    ensures j < k && addr in Reports(systems[j].mux, moves[j])
  {
    if addr in Reports(systems[k - 1].mux, moves[k - 1]) {
      j := k - 1;
    } else {
      j := ReportOf(moves, systems, k - 1, addr);
    }
  }

  lemma PacketReported<C>(m: Mux<C>, move: Move<C>, addr: Multiaddr)
    requires addr in Reports(m, move)
    ensures FromPacket(move, addr) && Upgradable(addr)
  {
    var p := move.op.packet;
    AnnouncementShape(p);
    hide Announcement;
  }

  lemma AnnouncementShape(p: Packet)
    ensures p.username.Some? && Announcement(p).Some? ==>
      Upgradable(Announcement(p).value) && SocketAddrOf(Announcement(p).value) == Some(p.source)
  {
    if p.username.Some? && Announcement(p).Some? {
      ReportedAddrAccepted(p.source, Announcement(p).value[2].hash);
      assert Announcement(p).value == ReportedAddr(p.source, Announcement(p).value[2].hash);
    }
  }

  /** What a move adds to the sent addresses: the one announced by a packet that the channel accepts, that no
      connection wants and whose source is not reported, while the worker listens; else nothing. */
  lemma ReportsExactly<C>(m: Mux<C>, move: Move<C>)
    ensures var sends := move.AtMux? && move.op.OpReceive? && move.op.accepted && m.listening
        && Lookup(m, move.op.packet).None? && move.op.packet.source !in m.newAddrs
        && move.op.packet.username.Some? && Announcement(move.op.packet).Some?;
      Reports(m, move) == if sends then [Announcement(move.op.packet).value] else []
  {
    hide Announcement, Lookup;
  }
}
