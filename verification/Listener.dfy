/**
 The listener stream: interface announcements, the pause after an error, and the upgrades it takes
 from the receiver it shares with the transport's other listeners.
*/
module Listener {
  import opened Wrappers
  import opened Addresses

  datatype IfEvent = Up(ip: IpAddr) | Down(ip: IpAddr) | WatchError(code: nat)

  /** The interface watcher: still being set up, or ready with the events it has to deliver. */
  datatype IfWatch = Pending | Ready(events: seq<IfEvent>)

  datatype InAddr = One(out: Option<Multiaddr>) | Any(ifWatch: IfWatch)

  datatype ListenerEvent =
    | NewAddress(addr: Multiaddr)
    | AddressExpired(addr: Multiaddr)
    | Upgrade(localAddr: Multiaddr, remoteAddr: Multiaddr)
    | Error(code: nat)

  datatype Poll = PollPending | PollEnd | PollEvent(event: ListenerEvent)

  /** What polling the watcher's set-up future answers, if it is polled. */
  datatype Setup = NotYet | Started(events: seq<IfEvent>) | Refused(code: nat)

  /** What the environment answers during one poll. */
  datatype Answers = Answers(setup: Setup, delayExpired: bool)

  /** A listener's own fields. */
  datatype Stream = Stream(listenAddr: SocketAddr, inAddr: InAddr, paused: bool)

  predicate SameFamily(a: IpAddr, b: IpAddr) {
    a.V4? == b.V4?
  }

  /** What an interface event makes the listener say, if anything. */
  function Image(listen: SocketAddr, e: IfEvent): Option<ListenerEvent> {
    match e
    case Up(ip) => if SameFamily(listen.ip, ip) then Some(NewAddress(IpToMultiaddr(ip, listen.port))) else None
    case Down(ip) => if SameFamily(listen.ip, ip) then Some(AddressExpired(IpToMultiaddr(ip, listen.port))) else None
    case WatchError(code) => Some(ListenerEvent.Error(code))
  }

  /** How many leading events have no image: the ones one poll skips. */
  function Skipped(listen: SocketAddr, events: seq<IfEvent>): (k: nat)
    ensures k <= |events|
    ensures forall j :: 0 <= j < k ==> Image(listen, events[j]).None?
    ensures k < |events| ==> Image(listen, events[k]).Some?
  {
    if events == [] || Image(listen, events[0]).Some? then 0 else 1 + Skipped(listen, events[1..])
  }

  function NewStream(listenAddr: SocketAddr): Stream {
    Stream(listenAddr,
           if listenAddr.ip.IsUnspecified() then Any(Pending)
           else One(Some(IpToMultiaddr(listenAddr.ip, listenAddr.port))),
           false)
  }

  /** The end of a poll: nothing to announce, so wait out the pause and then take a reported address. */
  function TakeReported(s: Stream, answers: Answers, queue: seq<Multiaddr>, sendersGone: bool):
    (Stream, seq<Multiaddr>, Poll)
  {
    if s.paused && !answers.delayExpired then (s, queue, PollPending)
    else
      var resumed := s.(paused := false);
      if queue != [] then
        (resumed, queue[1..], PollEvent(Upgrade(IpToMultiaddr(s.listenAddr.ip, s.listenAddr.port), queue[0])))
      else (resumed, queue, if sendersGone then PollEnd else PollPending)
  }

  /** The watcher is ready: deliver the first event with an image, or go on to the reported addresses. */
  function Announce(s: Stream, events: seq<IfEvent>, answers: Answers, queue: seq<Multiaddr>, sendersGone: bool):
    (Stream, seq<Multiaddr>, Poll)
  {
    var k := Skipped(s.listenAddr, events);
    if k < |events| then
      var e := Image(s.listenAddr, events[k]).value;
      (s.(inAddr := Any(Ready(events[k + 1..])), paused := s.paused || e.Error?), queue, PollEvent(e))
    else TakeReported(s.(inAddr := Any(Ready([]))), answers, queue, sendersGone)
  }

  /** One poll of one listener on the shared queue. */
  function PollOnce(s: Stream, answers: Answers, queue: seq<Multiaddr>, sendersGone: bool):
    (Stream, seq<Multiaddr>, Poll)
  {
    match s.inAddr
    case One(Some(addr)) => (s.(inAddr := One(None)), queue, PollEvent(NewAddress(addr)))
    case One(None) => TakeReported(s, answers, queue, sendersGone)
    case Any(Ready(events)) => Announce(s, events, answers, queue, sendersGone)
    case Any(Pending) =>
      match answers.setup
      case NotYet => (s, queue, PollPending)
      case Refused(code) => (s.(paused := true), queue, PollEvent(ListenerEvent.Error(code)))
      case Started(events) => Announce(s, events, answers, queue, sendersGone)
  }

  /** The receiving half of the report channel; every listener of a transport shares it. */
  class AddrReceiver {
    var queue: seq<Multiaddr>
    var sendersGone: bool

    constructor ()
      ensures queue == [] && !sendersGone
    {
      queue, sendersGone := [], false;
    }

    /** `poll_next` on the channel: None means not yet, Some(None) that it is over. */
    method PollNext() returns (r: Option<Option<Multiaddr>>)
      modifies this`queue
      ensures old(queue) != [] ==> r == Some(Some(old(queue)[0])) && queue == old(queue)[1..]
      ensures old(queue) == [] ==> queue == [] && r == if sendersGone then Some(None) else None
    {
      if queue != [] {
        r := Some(Some(queue[0]));
        queue := queue[1..];
      } else {
        r := if sendersGone then Some(None) else None;
      }
    }
  }

  class WebRTCListenStream {
    const listenAddr: SocketAddr
    var inAddr: InAddr
    var pause: Option<()>
    const newAddrRx: AddrReceiver

    function State(): Stream
      reads this
    {
      Stream(listenAddr, inAddr, pause.Some?)
    }

    constructor (listenAddr: SocketAddr, newAddrRx: AddrReceiver)
      ensures State() == NewStream(listenAddr) && this.newAddrRx == newAddrRx && this.listenAddr == listenAddr
      ensures listenAddr.ip == V4(0) || listenAddr.ip == V6(0) ==> inAddr == Any(Pending)
      ensures listenAddr.ip != V4(0) && listenAddr.ip != V6(0) ==>
        inAddr == One(Some(IpToMultiaddr(listenAddr.ip, listenAddr.port)))
      ensures pause == None
    {
      this.listenAddr := listenAddr;
      inAddr := if listenAddr.ip.IsUnspecified() then Any(Pending)
                else One(Some(IpToMultiaddr(listenAddr.ip, listenAddr.port)));
      pause := None;
      this.newAddrRx := newAddrRx;
    }

    /** Consumes the ready watcher's events up to the first one worth announcing. */
    method NextAnnouncement() returns (r: Option<ListenerEvent>)
      requires inAddr.Any? && inAddr.ifWatch.Ready?
      modifies this
      ensures inAddr.Any? && inAddr.ifWatch.Ready?
      ensures var events := old(inAddr.ifWatch.events);
        var k := Skipped(listenAddr, events);
        if k < |events|
        then r == Image(listenAddr, events[k]) && inAddr.ifWatch.events == events[k + 1..]
             && pause == (if r.value.Error? then Some(()) else old(pause))
        else r == None && inAddr.ifWatch.events == [] && pause == old(pause)
    {
      ghost var events := inAddr.ifWatch.events;
      ghost var i := 0;
      while inAddr.ifWatch.events != []
        invariant 0 <= i <= |events| && inAddr == Any(Ready(events[i..])) && pause == old(pause)
        invariant Skipped(listenAddr, events) == i + Skipped(listenAddr, events[i..])
        decreases |inAddr.ifWatch.events|
      {
        var ev := inAddr.ifWatch.events[0];
        assert events[i..][0] == events[i] && events[i..][1..] == events[i + 1..];
        i := i + 1;
        inAddr := Any(Ready(inAddr.ifWatch.events[1..]));
        match ev {
          case Up(ip) =>
            if SameFamily(listenAddr.ip, ip) {
              return Some(NewAddress(IpToMultiaddr(ip, listenAddr.port)));
            }
          case Down(ip) =>
            if SameFamily(listenAddr.ip, ip) {
              return Some(AddressExpired(IpToMultiaddr(ip, listenAddr.port)));
            }
          case WatchError(code) =>
            pause := Some(());
            return Some(ListenerEvent.Error(code));
        }
      }
      return None;
    }

    /** The pause, then the shared receiver. */
    method NextUpgrade(answers: Answers) returns (r: Poll)
      modifies this, newAddrRx`queue
      ensures (State(), newAddrRx.queue, r) ==
        TakeReported(old(State()), answers, old(newAddrRx.queue), newAddrRx.sendersGone)
      ensures newAddrRx.sendersGone == old(newAddrRx.sendersGone)
    {
      if pause.Some? {
        if !answers.delayExpired {
          return PollPending;
        }
        pause := None;
      }
      var received := newAddrRx.PollNext();
      match received {
        case Some(Some(addr)) => return PollEvent(Upgrade(IpToMultiaddr(listenAddr.ip, listenAddr.port), addr));
        case Some(None) => return PollEnd;
        case None => return PollPending;
      }
    }

    /** Ends because the outer loop goes round only when a pending watcher has become ready. */
    method PollNext(answers: Answers) returns (r: Poll)
      modifies this, newAddrRx`queue
      ensures (State(), newAddrRx.queue, r) ==
        PollOnce(old(State()), answers, old(newAddrRx.queue), newAddrRx.sendersGone)
    {
      hide TakeReported, Image, Skipped;
      ghost var spec := PollOnce(State(), answers, newAddrRx.queue, newAddrRx.sendersGone);
      while true
        invariant PollOnce(State(), answers, newAddrRx.queue, newAddrRx.sendersGone) == spec
        invariant newAddrRx.queue == old(newAddrRx.queue) && newAddrRx.sendersGone == old(newAddrRx.sendersGone)
        decreases inAddr.Any? && inAddr.ifWatch.Pending?
      {
        match inAddr {
          case Any(Pending) =>
            match answers.setup {
              case NotYet => return PollPending;
              case Started(events) =>
                inAddr := Any(Ready(events));
                continue;
              case Refused(code) =>
                pause := Some(());
                return PollEvent(ListenerEvent.Error(code));
            }
          case Any(Ready(_)) =>
            var announcement := NextAnnouncement();
            if announcement.Some? {
              return PollEvent(announcement.value);
            }
          case One(out) =>
            if out.Some? {
              inAddr := One(None);
              return PollEvent(NewAddress(out.value));
            }
        }
        r := NextUpgrade(answers);
        return;
      }
    }
  }
}
