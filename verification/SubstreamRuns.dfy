/**
 Runs of one connection's substream bookkeeping. `close` is two steps, one for each time it takes the
 lock: anything may happen between the flushing and the shutting down.
*/
module SubstreamRuns {
  import opened Wrappers
  import opened Substreams

  datatype Op =
    | Arrive(ch: Chan, room: bool)   // an incoming channel opens and is detached
    | Event(sendersGone: bool)       // `poll_event`
    | Dialled(answer: Outbound)      // `poll_outbound`
    | Drop(ch: Chan)                 // `destroy_substream`
    | FlushPass(flush: Chan -> Answer, visited: seq<StreamId>)
    | ShutdownPass(shutdown: Chan -> Answer, visited: seq<StreamId>)

  ghost predicate Legal(b: Bookkeeping, op: Op) {
    && (op.FlushPass? ==> Visit(b.channels, op.flush, op.visited))
    && (op.ShutdownPass? ==> Visit(b.channels, op.shutdown, op.visited))
  }

  ghost function Apply(b: Bookkeeping, op: Op): Bookkeeping
    requires Legal(b, op)
  {
    match op
    case Arrive(ch, room) => Enqueue(b, ch, room)
    case Event(sendersGone) => PollEventOnce(b, sendersGone).0
    case Dialled(answer) => PollOutboundOnce(b, answer)
    case Drop(ch) => Destroy(b, ch)
    case FlushPass(_, _) => b
    case ShutdownPass(shutdown, visited) =>
      b.(rxClosed := b.rxClosed || Outcome(b.channels, shutdown, visited) == Done)
  }

  ghost predicate Run(ops: seq<Op>, states: seq<Bookkeeping>) {
    && |states| == |ops| + 1 && states[0] == FRESH
    && forall k :: 0 <= k < |ops| ==> Legal(states[k], ops[k]) && states[k + 1] == Apply(states[k], ops[k])
  }

  // ---- the channel map ---------------------------------------------------------------

  /** The substream the operation gives to its caller, if any. */
  function Given(b: Bookkeeping, op: Op): Option<Chan> {
    match op
    case Event(sendersGone) =>
      var e := PollEventOnce(b, sendersGone).1;
      if e.Inbound? then Some(e.ch) else None
    case Dialled(Opened(ch)) => Some(ch)
    case _ => None
  }

  function InUseAfter(inUse: set<Chan>, b: Bookkeeping, op: Op): set<Chan> {
    if Given(b, op).Some? then inUse + {Given(b, op).value}
    else if op.Drop? then inUse - {op.ch}
    else inUse
  }

  /** The substreams handed out and not destroyed since. */
  function InUse(ops: seq<Op>, states: seq<Bookkeeping>, k: nat): set<Chan>
    requires |states| == |ops| + 1 && k <= |ops|
  {
    if k == 0 then {} else InUseAfter(InUse(ops, states, k - 1), states[k - 1], ops[k - 1])
  }

  /** Only a substream in use is destroyed: its owner gives it up by doing so. */
  ghost predicate Owned(ops: seq<Op>, states: seq<Bookkeeping>)
    requires |states| == |ops| + 1
  {
    forall k :: 0 <= k < |ops| && ops[k].Drop? ==> ops[k].ch in InUse(ops, states, k)
  }

  /** The map holds exactly the given substreams, each under its own identifier. */
  ghost predicate Exact(b: Bookkeeping, inUse: set<Chan>) {
    && (forall id :: id in b.channels ==> b.channels[id].id == id && b.channels[id] in inUse)
    && (forall ch :: ch in inUse ==> ch.id in b.channels && b.channels[ch.id] == ch)
  }

  /** The operation hands out a substream whose identifier another one still has. */
  predicate Collides(b: Bookkeeping, op: Op) {
    Given(b, op).Some? && Given(b, op).value.id in b.channels && b.channels[Given(b, op).value.id] != Given(b, op).value
  }

  lemma ExactStep(b: Bookkeeping, inUse: set<Chan>, op: Op)
    requires Legal(b, op) && Exact(b, inUse) && (op.Drop? ==> op.ch in inUse)
    ensures Exact(Apply(b, op), InUseAfter(inUse, b, op)) <==> !Collides(b, op)
  {
    if Collides(b, op) {
      var ch := Given(b, op).value;
      var other := b.channels[ch.id];
      assert other in InUseAfter(inUse, b, op) && Apply(b, op).channels[other.id] == ch;
    }
    hide Visit;
  }

  lemma ExactNext(ops: seq<Op>, states: seq<Bookkeeping>, k: nat)
    requires Run(ops, states) && Owned(ops, states) && k < |ops| && Exact(states[k], InUse(ops, states, k))
    ensures Exact(states[k + 1], InUse(ops, states, k + 1)) <==> !Collides(states[k], ops[k])
  {
    assert Legal(states[k], ops[k]) && states[k + 1] == Apply(states[k], ops[k]);
    ExactStep(states[k], InUse(ops, states, k), ops[k]);
    hide Exact, Collides, Apply, Legal;
  }

  ghost predicate ExactUpTo(ops: seq<Op>, states: seq<Bookkeeping>, k: nat)
    requires |states| == |ops| + 1 && k <= |ops|
  {
    forall j: nat :: j <= k ==> Exact(states[j], InUse(ops, states, j))
  }

  ghost predicate DistinctUpTo(ops: seq<Op>, states: seq<Bookkeeping>, k: nat)
    requires |states| == |ops| + 1 && k <= |ops|
  {
    forall j: nat :: j < k ==> !Collides(states[j], ops[j])
  }

  lemma UpToStep(ops: seq<Op>, states: seq<Bookkeeping>, k: nat)
    requires |states| == |ops| + 1 && k < |ops|
    ensures ExactUpTo(ops, states, k + 1)
      <==> ExactUpTo(ops, states, k) && Exact(states[k + 1], InUse(ops, states, k + 1))
    ensures ExactUpTo(ops, states, k) ==> Exact(states[k], InUse(ops, states, k))
    ensures DistinctUpTo(ops, states, k + 1) <==> DistinctUpTo(ops, states, k) && !Collides(states[k], ops[k])
  {
    hide Exact, InUse, Collides;
  }

  lemma MapHoldsNext(ops: seq<Op>, states: seq<Bookkeeping>, k: nat)
    requires Run(ops, states) && Owned(ops, states) && k < |ops|
    requires ExactUpTo(ops, states, k) <==> DistinctUpTo(ops, states, k)
    ensures ExactUpTo(ops, states, k + 1) <==> DistinctUpTo(ops, states, k + 1)
  {
    UpToStep(ops, states, k);
    if ExactUpTo(ops, states, k) {
      ExactNext(ops, states, k);
    }
    hide ExactUpTo, DistinctUpTo, Exact, Collides, InUse, Run, Owned;
  }

  /** The map holds exactly the substreams in use, at every moment, if and only if no substream is ever
      handed out under an identifier that another one still has. */
  lemma {:induction false} MapHoldsInUse(ops: seq<Op>, states: seq<Bookkeeping>, k: nat)
    requires Run(ops, states) && Owned(ops, states) && k <= |ops|
    ensures ExactUpTo(ops, states, k) <==> DistinctUpTo(ops, states, k)
    decreases k
  {
    if k > 0 {
      MapHoldsInUse(ops, states, k - 1);
      MapHoldsNext(ops, states, k - 1);
    }
  }

  // ---- incoming channels ----------------------------------------------------------------

  function ArrivedNow(op: Op): seq<Chan> {
    if op.Arrive? then [op.ch] else []
  }

  /** The incoming channels that opened, in order. */
  function Arrivals(ops: seq<Op>, k: nat): seq<Chan>
    requires k <= |ops|
  {
    if k == 0 then [] else Arrivals(ops, k - 1) + ArrivedNow(ops[k - 1])
  }

  function DeliveredNow(b: Bookkeeping, op: Op): seq<Chan> {
    if op.Event? && Given(b, op).Some? then [Given(b, op).value] else []
  }

  /** The channels `poll_event` handed out, in order. */
  function Delivered(ops: seq<Op>, states: seq<Bookkeeping>, k: nat): seq<Chan>
    requires |states| == |ops| + 1 && k <= |ops|
  {
    if k == 0 then [] else Delivered(ops, states, k - 1) + DeliveredNow(states[k - 1], ops[k - 1])
  }

  function KeptNow(b: Bookkeeping, op: Op): seq<Chan> {
    if op.Arrive? && op.room && !b.rxClosed then [op.ch] else []
  }

  function DroppedNow(b: Bookkeeping, op: Op): seq<Chan> {
    if op.Arrive? && (!op.room || b.rxClosed) then [op.ch] else []
  }

  /** The channels dropped because the queue was full or its receiver closed, in order. */
  function Dropped(ops: seq<Op>, states: seq<Bookkeeping>, k: nat): seq<Chan>
    requires |states| == |ops| + 1 && k <= |ops|
  {
    if k == 0 then [] else Dropped(ops, states, k - 1) + DroppedNow(states[k - 1], ops[k - 1])
  }

  /** `all` is `a` and `b` merged, each in its own order. */
  ghost predicate Merged<T>(all: seq<T>, a: seq<T>, b: seq<T>)
    decreases |all|
  {
    if all == [] then a == [] && b == []
    else
      var last, front := all[|all| - 1], all[..|all| - 1];
      || (a != [] && a[|a| - 1] == last && Merged(front, a[..|a| - 1], b))
      || (b != [] && b[|b| - 1] == last && Merged(front, a, b[..|b| - 1]))
  }

  lemma MergedAfter<T>(all: seq<T>, a: seq<T>, b: seq<T>, x: T)
    requires Merged(all, a, b)
    ensures Merged(all + [x], a + [x], b) && Merged(all + [x], a, b + [x])
  {
    assert (all + [x])[..|all|] == all && (a + [x])[..|a|] == a && (b + [x])[..|b|] == b;
  }

  lemma MergedStep(all: seq<Chan>, taken: seq<Chan>, dropped: seq<Chan>, b: Bookkeeping, op: Op)
    requires Merged(all, taken, dropped)
    ensures Merged(all + ArrivedNow(op), taken + KeptNow(b, op), dropped + DroppedNow(b, op))
  {
    if op.Arrive? {
      MergedAfter(all, taken, dropped, op.ch);
    }
    hide Merged;
    assert taken + [] == taken && dropped + [] == dropped && all + [] == all;
  }

  lemma QueueStep(b: Bookkeeping, op: Op, before: seq<Chan>)
    requires Legal(b, op)
    ensures before + DeliveredNow(b, op) + Apply(b, op).incoming == before + b.incoming + KeptNow(b, op)
  {
    hide Visit;
    assert DeliveredNow(b, op) + Apply(b, op).incoming == b.incoming + KeptNow(b, op);
  }

  /** The channels that opened are the delivered ones, then the queued ones, merged in order with the
      dropped ones: none is lost unnoticed, delivered twice or out of order. */
  lemma {:induction false} ArrivalsAccountedFor(ops: seq<Op>, states: seq<Bookkeeping>, k: nat)
    requires Run(ops, states) && k <= |ops|
    ensures Merged(Arrivals(ops, k), Delivered(ops, states, k) + states[k].incoming, Dropped(ops, states, k))
  {
    if k > 0 {
      ArrivalsAccountedFor(ops, states, k - 1);
      var b, op := states[k - 1], ops[k - 1];
      assert Legal(b, op) && states[k] == Apply(b, op);
      var delivered := Delivered(ops, states, k - 1);
      QueueStep(b, op, delivered);
      MergedStep(Arrivals(ops, k - 1), delivered + b.incoming, Dropped(ops, states, k - 1), b, op);
      hide Merged, Apply, Legal, Run, ArrivedNow, DeliveredNow, KeptNow, DroppedNow;
    }
  }

  /** A closed receiver takes nothing more: what was queued at the close is all that is delivered after it,
      in order, and no poll waits any longer. */
  lemma {:induction false} ClosedQueueDrains(ops: seq<Op>, states: seq<Bookkeeping>, c: nat, k: nat)
    requires Run(ops, states) && c <= k <= |ops| && states[c].rxClosed
    ensures states[k].rxClosed
    ensures Delivered(ops, states, k) + states[k].incoming == Delivered(ops, states, c) + states[c].incoming
    ensures forall gone :: PollEventOnce(states[k], gone).1 != EventPending
  {
    if k > c {
      ClosedQueueDrains(ops, states, c, k - 1);
      var b, op := states[k - 1], ops[k - 1];
      assert Legal(b, op) && states[k] == Apply(b, op);
      QueueStep(b, op, Delivered(ops, states, k - 1));
    }
    hide Visit;
  }

  /** The channels the queue took, in order. */
  function Kept(ops: seq<Op>, states: seq<Bookkeeping>, k: nat): seq<Chan>
    requires |states| == |ops| + 1 && k <= |ops|
  {
    if k == 0 then [] else Kept(ops, states, k - 1) + KeptNow(states[k - 1], ops[k - 1])
  }

  lemma {:induction false} KeptIsDeliveredAndQueued(ops: seq<Op>, states: seq<Bookkeeping>, k: nat)
    requires Run(ops, states) && k <= |ops|
    ensures Kept(ops, states, k) == Delivered(ops, states, k) + states[k].incoming
  {
    if k > 0 {
      KeptIsDeliveredAndQueued(ops, states, k - 1);
      var b, op := states[k - 1], ops[k - 1];
      assert Legal(b, op) && states[k] == Apply(b, op);
      QueueStep(b, op, Delivered(ops, states, k - 1));
      hide Run, Legal, Apply, KeptNow, DeliveredNow;
    }
  }

  /** At operation `c` a `close` finds every channel shut down. */
  ghost predicate ClosesAt(ops: seq<Op>, states: seq<Bookkeeping>, c: nat) {
    && c < |ops| && c < |states| && ops[c].ShutdownPass?
    && forall id :: id in states[c].channels ==> ops[c].shutdown(states[c].channels[id]) == Done
  }

  lemma {:induction false} ReceiverClosedExactly(ops: seq<Op>, states: seq<Bookkeeping>, k: nat)
    requires Run(ops, states) && k <= |ops|
    ensures states[k].rxClosed <==> exists c: nat :: c < k && ClosesAt(ops, states, c)
  {
    if k > 0 {
      ReceiverClosedExactly(ops, states, k - 1);
      var b, op := states[k - 1], ops[k - 1];
      assert Legal(b, op) && states[k] == Apply(b, op);
      if op.ShutdownPass? {
        VisitMeans(b.channels, op.shutdown, op.visited);
      }
      assert states[k].rxClosed <==> b.rxClosed || ClosesAt(ops, states, k - 1);
      hide Run, ClosesAt, Legal, Apply;
    }
  }

  /** What a `poll_event` answers, from the history alone: the oldest kept channel that is not yet delivered; if
      there is none, the error exactly when no sender is left or a `close` has succeeded; and else it
      waits. */
  lemma EventExactly(ops: seq<Op>, states: seq<Bookkeeping>, k: nat)
    requires Run(ops, states) && k < |ops| && ops[k].Event?
    ensures var kept, delivered := Kept(ops, states, k), Delivered(ops, states, k);
      var over := ops[k].sendersGone || exists c: nat :: c < k && ClosesAt(ops, states, c);
      var answer := PollEventOnce(states[k], ops[k].sendersGone).1;
      && delivered <= kept
      && (kept != delivered ==> answer == Inbound(kept[|delivered|]))
      && (answer == ChannelClosed <==> kept == delivered && over)
      && (answer == EventPending <==> kept == delivered && !over)
  {
    KeptIsDeliveredAndQueued(ops, states, k);
    ReceiverClosedExactly(ops, states, k);
    hide Run, Kept, Delivered, ClosesAt;
  }

  // ---- close across its two lock sections --------------------------------------------------

  lemma {:induction false} NewSince(ops: seq<Op>, states: seq<Bookkeeping>, i: nat, j: nat, id: StreamId)
    requires Run(ops, states) && i <= j <= |ops| && id in states[j].channels
    requires !(id in states[i].channels && states[i].channels[id] == states[j].channels[id])
    ensures exists t :: i <= t < j && Given(states[t], ops[t]) == Some(states[j].channels[id])
  {
    var b, op := states[j - 1], ops[j - 1];
    assert Legal(b, op) && states[j] == Apply(b, op);
    if Given(b, op) != Some(states[j].channels[id]) {
      NewSince(ops, states, i, j - 1, id);
    }
  }

  /** A `close` that answers Ok flushed every channel mapped at its first lock, shut down every channel mapped
      at its second, and closed the receiver. What it shut down without flushing was handed out between
      the two; so with nothing handed out there, everything it shut down it had flushed before. */
  lemma CloseFlushesFirst(ops: seq<Op>, states: seq<Bookkeeping>, i: nat, j: nat, id: StreamId)
    requires Run(ops, states) && i < j < |ops| && ops[i].FlushPass? && ops[j].ShutdownPass?
    requires Outcome(states[i].channels, ops[i].flush, ops[i].visited) == Done
    requires Outcome(states[j].channels, ops[j].shutdown, ops[j].visited) == Done
    ensures states[j + 1].rxClosed
    ensures id in ops[i].visited <==> id in states[i].channels
    ensures id in ops[j].visited <==> id in states[j].channels
    ensures id in ops[j].visited ==>
      || (id in ops[i].visited && states[i].channels[id] == states[j].channels[id])
      || exists t :: i < t < j && Given(states[t], ops[t]) == Some(states[j].channels[id])
  {
    assert Legal(states[i], ops[i]) && states[i + 1] == Apply(states[i], ops[i]);
    assert Legal(states[j], ops[j]) && states[j + 1] == Apply(states[j], ops[j]);
    VisitMeans(states[i].channels, ops[i].flush, ops[i].visited);
    VisitMeans(states[j].channels, ops[j].shutdown, ops[j].visited);
    hide Visit, Outcome;
    if id in states[j].channels && !(id in states[i].channels && states[i].channels[id] == states[j].channels[id]) {
      NewSince(ops, states, i + 1, j, id);
    }
  }

  /** The flush of the first lock covered what the second lock shuts down under `id`. */
  ghost predicate Flushed(ops: seq<Op>, states: seq<Bookkeeping>, i: nat, j: nat, id: StreamId)
    requires i < |ops| && j < |states| && i < |states| && ops[i].FlushPass? && id in states[j].channels
  {
    id in ops[i].visited && id in states[i].channels && states[i].channels[id] == states[j].channels[id]
  }

  /** A detached channel is one object: it is handed out at most once in a run. */
  ghost predicate Once(ops: seq<Op>, states: seq<Bookkeeping>)
    requires |states| == |ops| + 1
  {
    forall s, t :: 0 <= s < t < |ops| && Given(states[s], ops[s]).Some? ==>
      Given(states[t], ops[t]) != Given(states[s], ops[s])
  }

  ghost predicate GivenBetween(ops: seq<Op>, states: seq<Bookkeeping>, i: nat, j: nat, ch: Chan)
    requires |states| == |ops| + 1 && j <= |ops|
  {
    exists t :: i < t < j && Given(states[t], ops[t]) == Some(ch)
  }

  lemma VisitedMapped(ops: seq<Op>, states: seq<Bookkeeping>, i: nat)
    requires Run(ops, states) && i < |ops|
    ensures ops[i].FlushPass? || ops[i].ShutdownPass? ==>
      forall id :: id in ops[i].visited ==> id in states[i].channels
    ensures (ops[i].FlushPass?
             && forall id :: id in states[i].channels ==> ops[i].flush(states[i].channels[id]) == Done) ==>
      forall id :: id in states[i].channels ==> id in ops[i].visited
  {
    assert Legal(states[i], ops[i]);
    if ops[i].FlushPass? {
      VisitMeans(states[i].channels, ops[i].flush, ops[i].visited);
    }
  }

  /** What a `close` shuts down, whether or not it comes to its end, it shuts down without having flushed it if
      and only if it was handed out between the two locks. */
  lemma UnflushedExactly(ops: seq<Op>, states: seq<Bookkeeping>, i: nat, j: nat, id: StreamId)
    requires Run(ops, states) && Once(ops, states) && i < j < |ops| && ops[i].FlushPass? && ops[j].ShutdownPass?
    requires forall x :: x in states[i].channels ==> ops[i].flush(states[i].channels[x]) == Done
    requires id in ops[j].visited
    ensures id in states[j].channels
    ensures !Flushed(ops, states, i, j, id) <==> GivenBetween(ops, states, i, j, states[j].channels[id])
  {
    VisitedMapped(ops, states, i);
    VisitedMapped(ops, states, j);
    var ch := states[j].channels[id];
    if Flushed(ops, states, i, j, id) {
      NewSince(ops, states, 0, i, id);
      assert !GivenBetween(ops, states, i, j, ch);
    } else {
      assert Legal(states[i], ops[i]) && states[i + 1] == Apply(states[i], ops[i]);
      NewSince(ops, states, i + 1, j, id);
    }
  }

  lemma {:induction false} MappedByOwnId(ops: seq<Op>, states: seq<Bookkeeping>, k: nat, id: StreamId)
    requires Run(ops, states) && k <= |ops| && id in states[k].channels
    ensures states[k].channels[id].id == id
  {
    var b, op := states[k - 1], ops[k - 1];
    assert Legal(b, op) && states[k] == Apply(b, op);
    if id in b.channels && states[k].channels[id] == b.channels[id] {
      MappedByOwnId(ops, states, k - 1, id);
    }
  }

  ghost predicate Maps(b: Bookkeeping, ch: Chan) {
    ch.id in b.channels && b.channels[ch.id] == ch
  }

  /** So a `close` that answers Ok flushed everything before it shut it down if and only if nothing handed out
      between its two locks was still mapped at the second. */
  lemma FlushedBeforeShutdownExactly(ops: seq<Op>, states: seq<Bookkeeping>, i: nat, j: nat)
    requires Run(ops, states) && Once(ops, states) && i < j < |ops| && ops[i].FlushPass? && ops[j].ShutdownPass?
    requires forall x :: x in states[i].channels ==> ops[i].flush(states[i].channels[x]) == Done
    requires forall x :: x in states[j].channels ==> ops[j].shutdown(states[j].channels[x]) == Done
    ensures (forall id :: id in states[j].channels ==> Flushed(ops, states, i, j, id))
      <==> (forall ch :: GivenBetween(ops, states, i, j, ch) ==> !Maps(states[j], ch))
  {
    assert Legal(states[j], ops[j]);
    VisitMeans(states[j].channels, ops[j].shutdown, ops[j].visited);
    forall id | id in states[j].channels
      ensures Flushed(ops, states, i, j, id) <==> !GivenBetween(ops, states, i, j, states[j].channels[id])
      ensures Maps(states[j], states[j].channels[id])
    {
      UnflushedExactly(ops, states, i, j, id);
      MappedByOwnId(ops, states, j, id);
    }
    hide Flushed, GivenBetween, Run, Once, Visit;
  }

  function AlwaysDone(ch: Chan): Answer {
    Done
  }

  function OpenedDuringClose(ch: Chan): seq<Op> {
    [FlushPass(AlwaysDone, []), Dialled(Opened(ch)), ShutdownPass(AlwaysDone, [ch.id])]
  }

  /** A substream opened between the two locks of a `close` that answers Ok is shut down unflushed. */
  lemma UnflushedShutdown(ch: Chan) returns (states: seq<Bookkeeping>)
    ensures Run(OpenedDuringClose(ch), states) && Once(OpenedDuringClose(ch), states)
    ensures states[0].channels == map[] && states[2].channels == map[ch.id := ch] && states[3].rxClosed
    ensures !Flushed(OpenedDuringClose(ch), states, 0, 2, ch.id)
  {
    var mapped := HandOut(FRESH, ch);
    states := [FRESH, FRESH, mapped, mapped.(rxClosed := true)];
  }
}
