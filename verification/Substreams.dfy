/** The substreams of one connection: the channel map, the queue of incoming channels and `close`. */
module Substreams {
  import opened Wrappers

  type StreamId = n: nat | n < 0x1_0000

  /** A detached data channel; `handle` tells channels with the same stream identifier apart. */
  datatype Chan = Chan(id: StreamId, handle: nat)

  /** What polling a channel, or all of them, answers. */
  datatype Answer = Pending | Done | Failed(code: nat)

  /** What a connection asks of its channels. */
  datatype Request = Flush(ch: Chan) | Shutdown(ch: Chan)

  datatype Event = EventPending | Inbound(ch: Chan) | ChannelClosed

  datatype Outbound = OutboundPending | Opened(ch: Chan) | OutboundFailed(code: nat)

  datatype Bookkeeping = Bookkeeping(channels: map<StreamId, Chan>, incoming: seq<Chan>, rxClosed: bool)

  const FRESH := Bookkeeping(map[], [], false)

  function HandOut(b: Bookkeeping, ch: Chan): Bookkeeping {
    b.(channels := b.channels[ch.id := ch])
  }

  /** An incoming channel opens and is detached; `room` is what `try_send` finds in the queue. */
  function Enqueue(b: Bookkeeping, ch: Chan, room: bool): Bookkeeping {
    if room && !b.rxClosed then b.(incoming := b.incoming + [ch]) else b
  }

  function PollEventOnce(b: Bookkeeping, sendersGone: bool): (Bookkeeping, Event) {
    if b.incoming != [] then (HandOut(b.(incoming := b.incoming[1..]), b.incoming[0]), Inbound(b.incoming[0]))
    else (b, if b.rxClosed || sendersGone then ChannelClosed else EventPending)
  }

  function PollOutboundOnce(b: Bookkeeping, answer: Outbound): Bookkeeping {
    if answer.Opened? then HandOut(b, answer.ch) else b
  }

  function Destroy(b: Bookkeeping, ch: Chan): Bookkeeping {
    b.(channels := b.channels - {ch.id})
  }

  // ---- one pass over the map -------------------------------------------------------

  /** The identifiers a loop over the map visits, in its order: each once, up to the first channel that
      is not done. */
  ghost predicate Visit(channels: map<StreamId, Chan>, answers: Chan -> Answer, visited: seq<StreamId>) {
    && (forall i, j :: 0 <= i < j < |visited| ==> visited[i] != visited[j])
    && (forall i :: 0 <= i < |visited| ==> visited[i] in channels)
    && (forall i :: 0 <= i < |visited| - 1 ==> answers(channels[visited[i]]) == Done)
    && (Outcome(channels, answers, visited) == Done ==> forall id :: id in channels ==> id in visited)
  }

  ghost function Outcome(channels: map<StreamId, Chan>, answers: Chan -> Answer, visited: seq<StreamId>): Answer
    requires forall i :: 0 <= i < |visited| ==> visited[i] in channels
  {
    if visited == [] then Done else answers(channels[visited[|visited| - 1]])
  }

  function Requests(channels: map<StreamId, Chan>, visited: seq<StreamId>, request: Chan -> Request): (r: seq<Request>)
    requires forall i :: 0 <= i < |visited| ==> visited[i] in channels
    ensures |r| == |visited|
  {
    seq(|visited|, i requires 0 <= i < |visited| => request(channels[visited[i]]))
  }

  /** Whatever the order, a pass is done exactly when every channel is, and then it visited every one
      of them exactly once. */
  lemma VisitMeans(channels: map<StreamId, Chan>, answers: Chan -> Answer, visited: seq<StreamId>)
    requires Visit(channels, answers, visited)
    ensures Outcome(channels, answers, visited) == Done
      <==> forall id :: id in channels ==> answers(channels[id]) == Done
    ensures Outcome(channels, answers, visited) == Done ==>
      |visited| == |channels| && forall id :: id in visited <==> id in channels
  {
    if Outcome(channels, answers, visited) == Done {
      CountDistinct(visited, channels.Keys);
      assert forall id :: id in channels ==> exists i :: 0 <= i < |visited| && visited[i] == id;
    } else {
      assert visited[|visited| - 1] in channels;
    }
  }

  lemma {:induction false} CountDistinct(s: seq<StreamId>, elements: set<StreamId>)
    requires forall i, j :: 0 <= i < j < |s| ==> s[i] != s[j]
    requires forall id :: id in s <==> id in elements
    ensures |s| == |elements|
  {
    if s == [] {
      assert elements == {};
    } else {
      var last := s[|s| - 1];
      assert last in elements;
      forall id ensures id in s[..|s| - 1] <==> id in elements - {last} {
        if id in s && id != last {
          var i :| 0 <= i < |s| && s[i] == id;
          assert s[..|s| - 1][i] == id;
        }
      }
      CountDistinct(s[..|s| - 1], elements - {last});
    }
  }

  // ---- the object -------------------------------------------------------------------------

  class Connection {
    var channels: map<StreamId, Chan>
    var incoming: seq<Chan>
    var rxClosed: bool
    ghost var asked: seq<Request>   // everything asked of the channels, in order

    function State(): Bookkeeping
      reads this
    {
      Bookkeeping(channels, incoming, rxClosed)
    }

    constructor ()
      ensures State() == FRESH && asked == []
    {
      channels, incoming, rxClosed := map[], [], false;
      asked := [];
    }

    /** The handler of an incoming channel that has opened; `detached` is None when detaching fails. */
    method OnOpen(detached: Option<Chan>, room: bool)
      modifies this`incoming
      ensures State() == if detached.Some? then Enqueue(old(State()), detached.value, room) else old(State())
    {
      if detached.Some? && room && !rxClosed {
        incoming := incoming + [detached.value];
      }
    }

    method PollEvent(sendersGone: bool) returns (r: Event)
      modifies this`incoming, this`channels
      ensures (State(), r) == PollEventOnce(old(State()), sendersGone)
      ensures old(incoming) != [] ==>
        && r == Inbound(old(incoming)[0]) && incoming == old(incoming)[1..]
        && channels == old(channels)[r.ch.id := r.ch]
      ensures old(incoming) == [] ==> incoming == [] && channels == old(channels)
      ensures r == ChannelClosed <==> old(incoming) == [] && (rxClosed || sendersGone)
      ensures r == EventPending <==> old(incoming) == [] && !rxClosed && !sendersGone
    {
      if incoming == [] {
        return if rxClosed || sendersGone then ChannelClosed else EventPending;
      }
      var ch := incoming[0];
      incoming := incoming[1..];
      channels := channels[ch.id := ch];
      return Inbound(ch);
    }

    method PollOutbound(s: Outbound) returns (r: Outbound)
      modifies this`channels
      ensures State() == PollOutboundOnce(old(State()), s) && r == s
    {
      match s {
        case OutboundPending => return OutboundPending;
        case Opened(ch) =>
          channels := channels[ch.id := ch];
          return Opened(ch);
        case OutboundFailed(code) => return OutboundFailed(code);
      }
    }

    method DestroySubstream(s: Chan)
      modifies this`channels
      ensures State() == Destroy(old(State()), s)
    {
      channels := channels - {s.id};
    }

    method FlushAll(flush: Chan -> Answer) returns (r: Answer, ghost visited: seq<StreamId>)
      modifies this`asked
      ensures Visit(channels, flush, visited) && r == Outcome(channels, flush, visited)
      ensures asked == old(asked) + Requests(channels, visited, ch => Flush(ch))
    {
      r, visited := Done, [];
      var todo := channels.Keys;
      while todo != {}
        invariant r == Done && todo <= channels.Keys
        invariant forall i :: 0 <= i < |visited| ==>
          visited[i] in channels.Keys - todo && flush(channels[visited[i]]) == Done
        invariant forall i, j :: 0 <= i < j < |visited| ==> visited[i] != visited[j]
        invariant forall id :: id in channels.Keys - todo ==> id in visited
        invariant asked == old(asked) + Requests(channels, visited, ch => Flush(ch))
        decreases todo
      {
        var id :| id in todo;
        todo := todo - {id};
        visited := visited + [id];
        asked := asked + [Flush(channels[id])];
        match flush(channels[id]) {
          case Done => continue;
          case Pending => return Pending, visited;
          case Failed(code) => return Failed(code), visited;
        }
      }
    }

    /** Flushes every channel, then shuts every channel down, then closes the receiver; the first channel
        that is not done ends the call. `flushed` and `ended` are the orders in which it went. */
    method Close(flush: Chan -> Answer, shutdown: Chan -> Answer)
      returns (r: Answer, ghost flushed: seq<StreamId>, ghost ended: seq<StreamId>)
      modifies this`asked, this`rxClosed
      ensures Visit(channels, flush, flushed)
      ensures Outcome(channels, flush, flushed) != Done ==> ended == [] && r == Outcome(channels, flush, flushed)
      ensures Outcome(channels, flush, flushed) == Done ==>
        Visit(channels, shutdown, ended) && r == Outcome(channels, shutdown, ended)
      ensures (forall i :: 0 <= i < |ended| ==> ended[i] in channels) && asked == old(asked)
        + Requests(channels, flushed, ch => Flush(ch)) + Requests(channels, ended, ch => Shutdown(ch))
      ensures rxClosed == (old(rxClosed) || r == Done)
      ensures r == Done <==>
        forall id :: id in channels ==> flush(channels[id]) == Done && shutdown(channels[id]) == Done
    {
      ended := [];
      r, flushed := FlushAll(flush);
      VisitMeans(channels, flush, flushed);
      if r != Done {
        return;
      }
      var todo := channels.Keys;
      while todo != {}
        invariant r == Done && todo <= channels.Keys && rxClosed == old(rxClosed)
        invariant forall i :: 0 <= i < |ended| ==>
          ended[i] in channels.Keys - todo && shutdown(channels[ended[i]]) == Done
        invariant forall i, j :: 0 <= i < j < |ended| ==> ended[i] != ended[j]
        invariant forall id :: id in channels.Keys - todo ==> id in ended
        invariant asked == old(asked)
          + Requests(channels, flushed, ch => Flush(ch)) + Requests(channels, ended, ch => Shutdown(ch))
        decreases todo
      {
        var id :| id in todo;
        todo := todo - {id};
        ended := ended + [id];
        asked := asked + [Shutdown(channels[id])];
        match shutdown(channels[id]) {
          case Done => continue;
          case Pending => return Pending, flushed, ended;
          case Failed(code) => return Failed(code), flushed, ended;
        }
      }
      VisitMeans(channels, shutdown, ended);
      rxClosed := true;
    }
  }
}
