/** The receive worker over whole runs: its loop as a run of operations, and what stops it. */
module MuxWorker {
  import opened Wrappers
  import opened Text
  import opened Fingerprint
  import opened Addresses
  import opened MuxState
  import opened MuxRouting

  // ---- the panic -----------------------------------------------------------------

  /** 64 hex digits: what the decoder of fingerprints accepts. */
  predicate IsFingerprint(segment: string) {
    |segment| == 64 && forall i :: 0 <= i < |segment| ==> IsHex(segment[i])
  }

  /** A packet is announced, if the worker gets that far, exactly when its last segment is a fingerprint. */
  lemma AnnouncedExactly(p: Packet)
    requires p.username.Some?
    ensures Announcement(p).Some? <==> IsFingerprint(RemoteSegment(p.username.value))
  {
    var username := p.username.value;
    var segment := RemoteSegment(username);
    JoinUndoesSplit(username, COLON);
    assert segment in Split(username, COLON);
    StripIsIdentityOnFree(segment, COLON);
    HexToHashDomain(segment);
  }

  /** The worker panics exactly on a packet that no connection wants, from a source not yet reported, with a
      username whose last segment is not a fingerprint. */
  lemma PanicsExactly<C>(m: Mux<C>, p: Packet, accepted: bool)
    ensures Receive(m, p, accepted).1.Panicked? <==>
      && m.listening && Lookup(m, p).None? && p.source !in m.newAddrs
      && p.username.Some? && !IsFingerprint(RemoteSegment(p.username.value))
  {
    if p.username.Some? {
      AnnouncedExactly(p);
    }
    hide Announcement, Lookup, IsFingerprint, RemoteSegment;
  }

  /** One packet to a fresh mux is enough, if its username does not end in a fingerprint. */
  lemma OnePacketStops(source: SocketAddr, stun: bool, accepted: bool)
    ensures var p := Packet(source, stun, Some("intruder"));
      Receive(Initial<nat>(), p, accepted) == (Initial<nat>().(listening := false), Panicked)
  {
    var p := Packet(source, stun, Some("intruder"));
    SplitOfFree("intruder", COLON);
    assert RemoteSegment("intruder") == "intruder";
    PanicsExactly(Initial<nat>(), p, accepted);
  }

  lemma StoppedStays<C>(m: Mux<C>, op: Op<C>)
    requires Known(m) && !m.listening
    ensures !Apply(m, op).0.listening
    ensures op.OpReceive? ==> Apply(m, op) == (m, Handled(NotListening))
    ensures Apply(m, op).0.newAddrs <= m.newAddrs
  {
    if op.OpSendTo? && op.u in m.conns && op.addr !in m.addresses[m.conns[op.u]] && !m.closed {
      SendToEffect(m, m.conns[op.u], op.addr);
    }
  }

  /** After the worker has stopped, by a panic, an error or the close signal, no packet of the run is ever
      routed or reported again, and no address becomes a reported one. */
  lemma {:induction false} StoppedForGood<C>(ops: seq<Op<C>>, states: seq<Mux<C>>, outputs: seq<Output<C>>, i: nat,
                                             j: nat)
    requires Run(ops, states, outputs) && i < j <= |ops|
    requires outputs[i] == Handled(Panicked) || ops[i] == OpWorkerStops || !states[i].listening
    ensures !states[j].listening && states[j].newAddrs <= states[i].newAddrs
    ensures j < |ops| && ops[j].OpReceive? ==> outputs[j] == Handled(NotListening) && states[j + 1] == states[j]
  {
    assert Known(states[j - 1]) && (states[j], outputs[j - 1]) == Apply(states[j - 1], ops[j - 1]);
    if i + 1 < j {
      StoppedForGood(ops, states, outputs, i, j - 1);
      StoppedStays(states[j - 1], ops[j - 1]);
    } else if states[i].listening {
      StopsNow(states[i], ops[i]);
    } else {
      StoppedStays(states[i], ops[i]);
    }
    if j < |ops| && ops[j].OpReceive? {
      assert Known(states[j]) && (states[j + 1], outputs[j]) == Apply(states[j], ops[j]);
      StoppedStays(states[j], ops[j]);
    }
    hide Apply;
  }

  lemma StopsNow<C>(m: Mux<C>, op: Op<C>)
    requires Known(m) && (op == OpWorkerStops || Apply(m, op).1 == Handled(Panicked))
    ensures !Apply(m, op).0.listening && Apply(m, op).0.newAddrs == m.newAddrs
  {
    hide Announcement, Lookup;
  }

  // ---- the loop ------------------------------------------------------------------------

  /** The operations the worker performs on its inputs: none for a timeout, and an error or the close
      signal is the last. */
  ghost function Performed<C>(m: Mux<C>, inputs: seq<Input>): seq<Op<C>>
    decreases |inputs|
  {
    if inputs == [] || !m.listening then []
    else match inputs[0]
      case TimedOut => Performed(m, inputs[1..])
      case Broken => [OpWorkerStops]
      case CloseSignal => [OpWorkerStops]
      case Datagram(p, accepted) => [OpReceive(p, accepted)] + Performed(Receive(m, p, accepted).0, inputs[1..])
  }

  /** What the packets among the operations came to. */
  function Outcomes<X>(outputs: seq<Output<X>>): seq<Outcome<X>> {
    if outputs == [] then []
    else (if outputs[0].Handled? then [outputs[0].what] else []) + Outcomes(outputs[1..])
  }

  lemma RunExtends<C>(ops: seq<Op<C>>, states: seq<Mux<C>>, outputs: seq<Output<C>>, op: Op<C>, n: Mux<C>,
                      out: Output<C>)
    requires Run(ops, states, outputs)
    requires Known(states[|ops|]) && Legal(states[|ops|], op) && (n, out) == Apply(states[|ops|], op)
    ensures Run(ops + [op], states + [n], outputs + [out])
  {
    hide Apply, Known, Legal;
  }

  /** The worker's loop after any run is a run: it goes on with the operations performed on the inputs, ends
      in the loop's final state, and its packets have the loop's outcomes. So everything proved of
      runs holds of the loop. */
  lemma {:induction false} WorkIsRun<C>(ops: seq<Op<C>>, states: seq<Mux<C>>, outputs: seq<Output<C>>,
                                        inputs: seq<Input>)
    returns (moreStates: seq<Mux<C>>, moreOutputs: seq<Output<C>>)
    requires Run(ops, states, outputs)
    ensures Run(ops + Performed(states[|ops|], inputs), states + moreStates, outputs + moreOutputs)
    ensures (states + moreStates)[|ops| + |moreStates|] == Work(states[|ops|], inputs).0
    ensures Outcomes(moreOutputs) == Work(states[|ops|], inputs).1
    decreases |inputs|, 0
  {
    var m := states[|ops|];
    RunIsGood(ops, states, outputs, |ops|);
    moreStates, moreOutputs := [], [];
    if inputs == [] || !m.listening {
      assert ops + [] == ops && states + [] == states && outputs + [] == outputs;
    } else {
      match inputs[0] {
        case TimedOut => moreStates, moreOutputs := WorkIsRun(ops, states, outputs, inputs[1..]);
        case Broken => moreStates, moreOutputs := StopIsRun(ops, states, outputs);
        case CloseSignal => moreStates, moreOutputs := StopIsRun(ops, states, outputs);
        case Datagram(p, accepted) =>
          moreStates, moreOutputs := PacketThenRest(ops, states, outputs, p, accepted, inputs[1..]);
      }
    }
    hide Run, Receive;
  }

  lemma StopIsRun<C>(ops: seq<Op<C>>, states: seq<Mux<C>>, outputs: seq<Output<C>>)
    returns (moreStates: seq<Mux<C>>, moreOutputs: seq<Output<C>>)
    requires Run(ops, states, outputs) && Known(states[|ops|])
    ensures moreStates == [states[|ops|].(listening := false)] && moreOutputs == [Nothing]
    ensures Run(ops + [OpWorkerStops], states + moreStates, outputs + moreOutputs)
  {
    moreStates, moreOutputs := [states[|ops|].(listening := false)], [Nothing];
    RunExtends(ops, states, outputs, OpWorkerStops, moreStates[0], Nothing);
  }

  lemma {:induction false} PacketThenRest<C>(ops: seq<Op<C>>, states: seq<Mux<C>>, outputs: seq<Output<C>>,
                                             p: Packet, accepted: bool, inputs: seq<Input>)
    returns (moreStates: seq<Mux<C>>, moreOutputs: seq<Output<C>>)
    requires Run(ops, states, outputs) && Known(states[|ops|])
    ensures var (n, o) := Receive(states[|ops|], p, accepted);
      && Run(ops + ([OpReceive(p, accepted)] + Performed(n, inputs)), states + moreStates, outputs + moreOutputs)
      && (states + moreStates)[|ops| + |moreStates|] == Work(n, inputs).0
      && Outcomes(moreOutputs) == [o] + Work(n, inputs).1
    decreases |inputs|, 1
  {
    var (n, o) := Receive(states[|ops|], p, accepted);
    var op := OpReceive(p, accepted);
    RunExtends(ops, states, outputs, op, n, Handled(o));
    var restStates, restOutputs := WorkIsRun(ops + [op], states + [n], outputs + [Handled(o)], inputs);
    hide Run, Receive, Work;
    moreStates, moreOutputs := [n] + restStates, [Handled(o)] + restOutputs;
    assert ops + ([op] + Performed(n, inputs)) == (ops + [op]) + Performed(n, inputs);
    assert states + moreStates == (states + [n]) + restStates;
    assert outputs + moreOutputs == (outputs + [Handled(o)]) + restOutputs;
    assert moreOutputs[1..] == restOutputs;
  }
}
