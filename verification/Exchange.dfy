/**
 The fingerprint exchange that follows the Noise handshake: each side writes its own fingerprint once,
 flushes, reads as many bytes as its own write reported, and compares them with what it expects.
*/
module Exchange {
  import opened Fingerprint

  /** Each side's own program counter. */
  datatype Stage =
    | Writing                 // before `write`
    | Flushing                // `write` reported `wrote` bytes
    | Reading                 // inside `read_exact`
    | Passed
    | Failed                  // an I/O error, bytes that are not text, or a mismatch

  datatype Side = Side(
    own: string,              // this side's fingerprint
    expected: string,         // the fingerprint it was promised for the other side
    stage: Stage,
    wrote: nat,               // what `write` reported
    got: string,              // what `read_exact` has filled so far
    unflushed: string,        // accepted by the pipe, not yet on the wire
    wire: string)             // on the wire towards the other side

  datatype Party = Dialer | Listener

  /** Both sides of one handshake, over a faithful byte pipe in each direction. */
  datatype Pair = Pair(dialer: Side, listener: Side) {
    function Get(p: Party): Side {
      if p.Dialer? then dialer else listener
    }
    function Set(p: Party, side: Side): Pair {
      if p.Dialer? then this.(dialer := side) else this.(listener := side)
    }
  }

  function Other(p: Party): Party {
    if p.Dialer? then Listener else Dialer
  }

  function Fresh(own: string, expected: string): Side {
    Side(own, expected, Writing, 0, "", "", "")
  }

  datatype Step =
    | Write(who: Party, n: nat)    // `write` accepts the first n bytes, possibly not all of them
    | Carry(who: Party, n: nat)    // n accepted bytes reach the wire, flushed or not
    | Flush(who: Party)            // `flush` returns: everything accepted is on the wire
    | Read(who: Party, n: nat)     // `read_exact` takes n more bytes
    | Compare(who: Party)          // the buffer is full
    | Break(who: Party)            // an I/O error

  ghost predicate Enabled(c: Pair, step: Step) {
    var me := c.Get(step.who);
    match step
    case Write(_, n) => me.stage == Writing && n <= |me.own|
    case Carry(_, n) => n <= |me.unflushed|
    case Flush(_) => me.stage == Flushing && me.unflushed == ""
    case Read(who, n) => me.stage == Reading && |me.got| + n <= me.wrote && n <= |c.Get(Other(who)).wire|
    case Compare(_) => me.stage == Reading && |me.got| == me.wrote
    case Break(_) => me.stage != Passed && me.stage != Failed
  }

  ghost function Next(c: Pair, step: Step): Pair
    requires Enabled(c, step)
  {
    var me := c.Get(step.who);
    match step
    case Write(who, n) =>
      c.Set(who, me.(stage := Flushing, wrote := n, unflushed := me.own[..n]))
    case Carry(who, n) =>
      c.Set(who, me.(unflushed := me.unflushed[n..], wire := me.wire + me.unflushed[..n]))
    case Flush(who) => c.Set(who, me.(stage := Reading))
    case Read(who, n) =>
      var peer := c.Get(Other(who));
      c.Set(who, me.(got := me.got + peer.wire[..n])).Set(Other(who), peer.(wire := peer.wire[n..]))
    case Compare(who) => c.Set(who, me.(stage := if me.got == me.expected then Passed else Failed))
    case Break(who) => c.Set(who, me.(stage := Failed))
  }

  ghost predicate Run(start: Pair, steps: seq<Step>, states: seq<Pair>) {
    && |states| == |steps| + 1 && states[0] == start
    && forall i :: 0 <= i < |steps| ==> Enabled(states[i], steps[i]) && states[i + 1] == Next(states[i], steps[i])
  }

  // ---- what every step keeps ---------------------------------------------------

  /** Byte conservation in one direction: received, on the wire and unflushed bytes together are the
      part of the sender's fingerprint that its `write` accepted. */
  ghost predicate Conserved(from: Side, to: Side) {
    && from.wrote <= |from.own|
    && to.got + from.wire + from.unflushed == from.own[..from.wrote]
    && (from.stage == Writing ==> from.wrote == 0)
    && (from.stage == Reading || from.stage == Passed ==> from.unflushed == "")
    && |from.got| <= from.wrote
    && (from.stage == Passed ==> |from.got| == from.wrote && from.got == from.expected)
    && (from.stage == Writing || from.stage == Flushing ==> from.got == "")
  }

  ghost predicate Inv(c: Pair) {
    Conserved(c.dialer, c.listener) && Conserved(c.listener, c.dialer)
  }

  /** Both directions, seen from one side. */
  ghost predicate Both(me: Side, peer: Side) {
    Conserved(me, peer) && Conserved(peer, me)
  }

  lemma WriteKeeps(me: Side, peer: Side, n: nat)
    requires Both(me, peer) && me.stage == Writing && n <= |me.own|
    ensures Both(me.(stage := Flushing, wrote := n, unflushed := me.own[..n]), peer)
  {
    assert me.own[..0] == "";
    assert |peer.got + me.wire + me.unflushed| == 0;
    assert peer.got == "" && me.wire == "" && me.unflushed == "";
  }

  lemma CarryKeeps(me: Side, peer: Side, n: nat)
    requires Both(me, peer) && n <= |me.unflushed|
    ensures Both(me.(unflushed := me.unflushed[n..], wire := me.wire + me.unflushed[..n]), peer)
  {
    assert peer.got + (me.wire + me.unflushed[..n]) + me.unflushed[n..] == peer.got + me.wire + me.unflushed;
  }

  lemma ReadKeeps(me: Side, peer: Side, n: nat)
    requires Both(me, peer) && me.stage == Reading && |me.got| + n <= me.wrote && n <= |peer.wire|
    ensures Both(me.(got := me.got + peer.wire[..n]), peer.(wire := peer.wire[n..]))
  {
    assert (me.got + peer.wire[..n]) + peer.wire[n..] + peer.unflushed == me.got + peer.wire + peer.unflushed;
  }

  lemma StepKeeps(c: Pair, step: Step)
    requires Inv(c) && Enabled(c, step)
    ensures Inv(Next(c, step))
    ensures Next(c, step).dialer.own == c.dialer.own && Next(c, step).dialer.expected == c.dialer.expected
    ensures Next(c, step).listener.own == c.listener.own && Next(c, step).listener.expected == c.listener.expected
  {
    var me, peer := c.Get(step.who), c.Get(Other(step.who));
    assert Both(me, peer);
    match step
    case Write(_, n) => WriteKeeps(me, peer, n);
    case Carry(_, n) => CarryKeeps(me, peer, n);
    case Read(_, n) => ReadKeeps(me, peer, n);
    case _ =>
  }

  lemma {:induction false} RunKeeps(own: string, peer: string, expectedByDialer: string, expectedByListener: string,
                                    steps: seq<Step>, states: seq<Pair>, i: nat)
    requires Run(Pair(Fresh(own, expectedByDialer), Fresh(peer, expectedByListener)), steps, states) && i <= |steps|
    ensures Inv(states[i])
    ensures states[i].dialer.own == own && states[i].dialer.expected == expectedByDialer
    ensures states[i].listener.own == peer && states[i].listener.expected == expectedByListener
  {
    if i > 0 {
      RunKeeps(own, peer, expectedByDialer, expectedByListener, steps, states, i - 1);
      StepKeeps(states[i - 1], steps[i - 1]);
    }
  }

  // ---- agreement -----------------------------------------------------------------

  /** Whoever passes its comparison wrote its whole fingerprint, the other side's write was complete
      too, and what was read is the other side's whole fingerprint. */
  lemma PassedMeans(c: Pair, who: Party, own: Hash, peer: Hash, promised: Hash)
    requires Inv(c) && c.Get(who).stage == Passed
    requires c.Get(who).own == ToString(own) && c.Get(Other(who)).own == ToString(peer)
    requires c.Get(who).expected == ToString(promised)
    ensures c.Get(who).wrote == |ToString(own)|
    ensures c.Get(Other(who)).wrote == |ToString(peer)|
    ensures c.Get(who).got == ToString(peer)
    ensures promised == peer
  {
    PrintedLength(own);
    PrintedLength(peer);
    PrintedLength(promised);
    var me, other := c.Get(who), c.Get(Other(who));
    assert Conserved(me, other) && Conserved(other, me);
    var written := other.own[..other.wrote];
    assert |me.got| <= |me.got + other.wire + other.unflushed|;
    assert me.got == written[..|me.got|];
    UfragIsInjective(promised, peer);
  }

  /** Over every run from the start of the exchange, with any short writes and any chunking: if one
      side passes, both writes were complete and its remote fingerprint is the other's own; so if
      both pass, each one's remote fingerprint is the other's own. */
  lemma FingerprintsAgree(dialerHash: Hash, listenerHash: Hash, promisedToDialer: Hash, promisedToListener: Hash,
                          steps: seq<Step>, states: seq<Pair>, i: nat)
    requires Run(Pair(Fresh(ToString(dialerHash), ToString(promisedToDialer)),
                      Fresh(ToString(listenerHash), ToString(promisedToListener))), steps, states)
    requires i <= |steps|
    ensures states[i].dialer.stage == Passed ==> promisedToDialer == listenerHash
    ensures states[i].listener.stage == Passed ==> promisedToListener == dialerHash
    ensures states[i].dialer.stage == Passed || states[i].listener.stage == Passed ==>
      states[i].dialer.wrote == 95 && states[i].listener.wrote == 95
  {
    RunKeeps(ToString(dialerHash), ToString(listenerHash), ToString(promisedToDialer), ToString(promisedToListener),
             steps, states, i);
    PrintedLength(dialerHash);
    PrintedLength(listenerHash);
    if states[i].dialer.stage == Passed {
      PassedMeans(states[i], Dialer, dialerHash, listenerHash, promisedToDialer);
    }
    if states[i].listener.stage == Passed {
      PassedMeans(states[i], Listener, listenerHash, dialerHash, promisedToListener);
    }
  }

  /** When a side's buffer is full, its verdict is decided by its own write and the other's fingerprint
      alone: it passes exactly if its write was complete and the promise was true. In particular a
      short write makes it reject even an honest peer. */
  lemma VerdictExactly(c: Pair, who: Party, own: Hash, peer: Hash, promised: Hash)
    requires Inv(c) && Enabled(c, Compare(who))
    requires c.Get(who).own == ToString(own) && c.Get(Other(who)).own == ToString(peer)
    requires c.Get(who).expected == ToString(promised)
    ensures Next(c, Compare(who)).Get(who).stage == Passed
      <==> c.Get(who).wrote == |ToString(own)| && promised == peer
  {
    PrintedLength(own);
    PrintedLength(peer);
    PrintedLength(promised);
    var n := Next(c, Compare(who));
    StepKeeps(c, Compare(who));
    if n.Get(who).stage == Passed {
      PassedMeans(n, who, own, peer, promised);
    }
    if c.Get(who).wrote == |ToString(own)| && promised == peer {
      var me, other := c.Get(who), c.Get(Other(who));
      assert Conserved(other, me);
      assert me.got == (me.got + other.wire + other.unflushed)[..|me.got|];
      assert other.own[..other.wrote][..95] == other.own;
    }
  }

  /** Once everything the other side wrote is on the wire, whatever has become of that side since, a side can
      fill its buffer exactly if it did not write more than the other: otherwise its `read_exact` waits
      for bytes that were never written. */
  lemma ReadCanFinish(c: Pair, who: Party)
    requires Inv(c) && c.Get(who).stage == Reading
    requires c.Get(Other(who)).unflushed == ""
    ensures Enabled(c, Read(who, c.Get(who).wrote - |c.Get(who).got|)) <==> c.Get(who).wrote <= c.Get(Other(who)).wrote
  {
    var me, other := c.Get(who), c.Get(Other(who));
    assert Conserved(other, me) && Conserved(me, other);
    assert |me.got| + |other.wire| == |me.got + other.wire + other.unflushed|;
  }

  /** A side that wrote more than the other ever will. */
  ghost predicate Starved(c: Pair, who: Party) {
    c.Get(Other(who)).stage != Writing && c.Get(Other(who)).wrote < c.Get(who).wrote && c.Get(who).stage != Writing
  }

  lemma StarvedStays(c: Pair, who: Party, step: Step)
    requires Inv(c) && Starved(c, who) && Enabled(c, step)
    ensures step != Compare(who) && Starved(Next(c, step), who)
  {
    var me, other := c.Get(who), c.Get(Other(who));
    assert Conserved(other, me);
    assert |me.got| <= |me.got + other.wire + other.unflushed|;
  }

  /** It never gets to its comparison: in every continuation it waits until an I/O error ends it. */
  lemma {:induction false} StarvedForever(start: Pair, steps: seq<Step>, states: seq<Pair>, who: Party, i: nat)
    requires Run(start, steps, states) && Inv(start) && Starved(start, who) && i <= |steps|
    ensures Inv(states[i]) && Starved(states[i], who)
    ensures i < |steps| ==> steps[i] != Compare(who)
  {
    if i > 0 {
      StarvedForever(start, steps, states, who, i - 1);
      StepKeeps(states[i - 1], steps[i - 1]);
      StarvedStays(states[i - 1], who, steps[i - 1]);
    }
    if i < |steps| {
      StarvedStays(states[i], who, steps[i]);
    }
  }

  /** The dialer's `write` accepts only the first `n` bytes; everything else goes well. */
  function ShortWrite(n: nat): seq<Step> {
    [Write(Listener, 95), Carry(Listener, 95), Flush(Listener),
     Write(Dialer, n), Carry(Dialer, n), Flush(Dialer), Read(Dialer, n), Compare(Dialer)]
  }

  lemma ListenerWrites(start: Pair) returns (states: seq<Pair>)
    requires start.listener.stage == Writing && |start.listener.own| == 95
    requires start.listener.unflushed == "" && start.listener.wire == ""
    ensures Run(start, [Write(Listener, 95), Carry(Listener, 95), Flush(Listener)], states)
    ensures states[3] == start.(listener := start.listener.(stage := Reading, wrote := 95, wire := start.listener.own))
  {
    var l := start.listener;
    var c1 := start.(listener := l.(stage := Flushing, wrote := 95, unflushed := l.own[..95]));
    var c2 := Next(c1, Carry(Listener, 95));
    assert l.own[..95] == l.own && l.own[..95][95..] == "" && "" + l.own[..95][..95] == l.own;
    states := [start, c1, c2, Next(c2, Flush(Listener))];
  }

  lemma DialerWritesShort(start: Pair, n: nat) returns (states: seq<Pair>)
    requires start.dialer.stage == Writing && n < |start.dialer.own| == 95
    requires start.dialer.unflushed == start.dialer.wire == start.dialer.got == "" && |start.dialer.expected| == 95
    requires |start.listener.wire| == 95
    ensures Run(start, ShortWrite(n)[3..], states) && states[5].dialer.stage == Failed && states[5].dialer.wrote == n
    ensures states[5].listener == start.listener.(wire := start.listener.wire[n..])
  {
    var d := start.dialer;
    var c1 := start.(dialer := d.(stage := Flushing, wrote := n, unflushed := d.own[..n]));
    var c2 := Next(c1, Carry(Dialer, n));
    assert d.own[..n][n..] == "";
    var c3 := Next(c2, Flush(Dialer));
    var c4 := Next(c3, Read(Dialer, n));
    assert |c4.dialer.got| == n;
    states := [start, c1, c2, c3, c4, Next(c4, Compare(Dialer))];
  }

  /** Between honest peers, with the right promises, any short write of the dialer makes the dialer reject and
      leaves the listener without an end to its wait. */
  lemma ShortWriteRejects(dialer: Hash, listener: Hash, n: nat) returns (states: seq<Pair>)
    requires n < 95
    ensures var start := Pair(Fresh(ToString(dialer), ToString(listener)), Fresh(ToString(listener), ToString(dialer)));
      && Run(start, ShortWrite(n), states) && Inv(states[8])
      && states[8].dialer.stage == Failed && states[8].listener.stage == Reading && Starved(states[8], Listener)
  {
    PrintedLength(dialer);
    PrintedLength(listener);
    var start := Pair(Fresh(ToString(dialer), ToString(listener)), Fresh(ToString(listener), ToString(dialer)));
    var first := ListenerWrites(start);
    var second := DialerWritesShort(first[3], n);
    assert ShortWrite(n) == ShortWrite(n)[..3] + ShortWrite(n)[3..];
    states := first[..3] + second;
    forall k | 0 <= k < 8
      ensures Enabled(states[k], ShortWrite(n)[k]) && states[k + 1] == Next(states[k], ShortWrite(n)[k])
    {
      if k >= 3 {
        assert states[k] == second[k - 3] && ShortWrite(n)[k] == ShortWrite(n)[3..][k - 3];
      }
    }
    RunKeeps(ToString(dialer), ToString(listener), ToString(listener), ToString(dialer), ShortWrite(n), states, 8);
  }
}
