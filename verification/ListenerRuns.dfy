/** Runs of any number of listeners on one report channel, under any schedule. */
module ListenerRuns {
  import opened Wrappers
  import opened Addresses
  import opened Listener

  // ---- one poll --------------------------------------------------------------------

  predicate NothingToAnnounce(listen: SocketAddr, events: seq<IfEvent>) {
    forall e :: e in events ==> Image(listen, e).None?
  }

  /** The listener has nothing of its own to say and no unexpired pause. */
  predicate Open(s: Stream, answers: Answers) {
    && (s.paused ==> answers.delayExpired)
    && match s.inAddr
       case One(out) => out.None?
       case Any(Ready(events)) => NothingToAnnounce(s.listenAddr, events)
       case Any(Pending) => answers.setup.Started? && NothingToAnnounce(s.listenAddr, answers.setup.events)
  }

  lemma SkippedAll(listen: SocketAddr, events: seq<IfEvent>)
    ensures Skipped(listen, events) == |events| <==> NothingToAnnounce(listen, events)
  {
    if Skipped(listen, events) < |events| {
      assert events[Skipped(listen, events)] in events;
    }
  }

  /** A poll takes a reported address exactly when the listener is open and one is queued, and then it is
      the oldest; it ends the stream exactly when the listener is open, none is queued and no sender
      is left. After either, a wildcard listener's watcher is ready with no event waiting. A pause begins
      with an error event and lasts until a poll finds the listener open. */
  lemma UpgradeExactly(s: Stream, answers: Answers, queue: seq<Multiaddr>, sendersGone: bool)
    ensures var (n, rest, r) := PollOnce(s, answers, queue, sendersGone);
      && (r.PollEvent? && r.event.Upgrade? <==> Open(s, answers) && queue != [])
      && (r.PollEvent? && r.event.Upgrade? ==> r.event.remoteAddr == queue[0] && rest == queue[1..])
      && (r.PollEvent? && r.event.Upgrade? ==> r.event.localAddr == IpToMultiaddr(s.listenAddr.ip, s.listenAddr.port))
      && (!(r.PollEvent? && r.event.Upgrade?) ==> rest == queue)
      && (r.PollEnd? <==> Open(s, answers) && queue == [] && sendersGone)
      && (Open(s, answers) && s.inAddr.Any? ==> n.inAddr == Any(Ready([])))
      && (n.paused <==> (r.PollEvent? && r.event.Error?) || (s.paused && !Open(s, answers)))
  {
    if s.inAddr.Any? && s.inAddr.ifWatch.Ready? {
      SkippedAll(s.listenAddr, s.inAddr.ifWatch.events);
      ImageShape(s.listenAddr, s.inAddr.ifWatch.events);
    } else if s.inAddr.Any? && answers.setup.Started? {
      SkippedAll(s.listenAddr, answers.setup.events);
      ImageShape(s.listenAddr, answers.setup.events);
    }
    hide Image;
  }

  lemma ImageShape(listen: SocketAddr, events: seq<IfEvent>)
    ensures forall e :: e in events && Image(listen, e).Some? ==> !Image(listen, e).value.Upgrade?
  {}

  /** What each watcher event makes the listener say, component by component: its own family's interfaces, with
      the listener's port, and every failure. */
  lemma ImageExactly(listen: SocketAddr, bits: nat, code: nat)
    ensures Image(listen, Up(V4(bits))) ==
      if listen.ip.V4? then Some(NewAddress([Ip4(bits), Udp(listen.port)])) else None
    ensures Image(listen, Up(V6(bits))) ==
      if listen.ip.V6? then Some(NewAddress([Ip6(bits), Udp(listen.port)])) else None
    ensures Image(listen, Down(V4(bits))) ==
      if listen.ip.V4? then Some(AddressExpired([Ip4(bits), Udp(listen.port)])) else None
    ensures Image(listen, Down(V6(bits))) ==
      if listen.ip.V6? then Some(AddressExpired([Ip6(bits), Udp(listen.port)])) else None
    ensures Image(listen, WatchError(code)) == Some(ListenerEvent.Error(code))
  {}

  /** A failure of the watcher, or of its set-up, is an error event and begins a pause. After a failed set-up the
      watcher is set up anew; after a failure of a ready one its later events remain. */
  lemma FailurePauses(s: Stream, answers: Answers, code: nat, later: seq<IfEvent>,
                      queue: seq<Multiaddr>, sendersGone: bool)
    ensures s.inAddr == Any(Pending) && answers.setup == Refused(code) ==>
      PollOnce(s, answers, queue, sendersGone) == (s.(paused := true), queue, PollEvent(ListenerEvent.Error(code)))
    ensures s.inAddr == Any(Ready([WatchError(code)] + later)) ==>
      PollOnce(s, answers, queue, sendersGone) ==
      (s.(inAddr := Any(Ready(later)), paused := true), queue, PollEvent(ListenerEvent.Error(code)))
  {
    assert Skipped(s.listenAddr, [WatchError(code)] + later) == 0;
    assert ([WatchError(code)] + later)[1..] == later;
  }

  // ---- the shared channel --------------------------------------------------------------

  datatype Action =
    | Listen(addr: SocketAddr)           // `listen_on`: one more listener on the same receiver
    | Send(reported: Multiaddr)          // the mux's `try_send` succeeds
    | SendersGo
    | Arrive(i: nat, e: IfEvent)         // the watcher of listener i has one more event
    | DoPoll(i: nat, answers: Answers)

  datatype Pool = Pool(streams: seq<Stream>, queue: seq<Multiaddr>, sendersGone: bool)

  ghost predicate Enabled(p: Pool, act: Action) {
    match act
    case Send(_) => !p.sendersGone
    case Arrive(i, _) => i < |p.streams| && p.streams[i].inAddr.Any? && p.streams[i].inAddr.ifWatch.Ready?
    case DoPoll(i, _) => i < |p.streams|
    case _ => true
  }

  ghost function Next(p: Pool, act: Action): (Pool, Poll)
    requires Enabled(p, act)
  {
    match act
    case Listen(addr) => (p.(streams := p.streams + [NewStream(addr)]), PollPending)
    case Send(reported) => (p.(queue := p.queue + [reported]), PollPending)
    case SendersGo => (p.(sendersGone := true), PollPending)
    case Arrive(i, e) =>
      var s := p.streams[i];
      (p.(streams := p.streams[i := s.(inAddr := Any(Ready(s.inAddr.ifWatch.events + [e])))]), PollPending)
    case DoPoll(i, answers) =>
      var (s, queue, r) := PollOnce(p.streams[i], answers, p.queue, p.sendersGone);
      (p.(streams := p.streams[i := s], queue := queue), r)
  }

  /** Action `k` is enabled and leads from the pool before it to the one after it, with its answer. */
  ghost predicate Takes(acts: seq<Action>, pools: seq<Pool>, results: seq<Poll>, k: nat) {
    && k < |acts| && k + 1 < |pools| && k < |results|
    && Enabled(pools[k], acts[k]) && (pools[k + 1], results[k]) == Next(pools[k], acts[k])
  }

  ghost predicate Run(acts: seq<Action>, pools: seq<Pool>, results: seq<Poll>) {
    && |pools| == |acts| + 1 && |results| == |acts|
    && pools[0] == Pool([], [], false)
    && forall k: nat :: k < |acts| ==> Takes(acts, pools, results, k)
  }

  /** The addresses sent so far, in order. */
  function SentBy(acts: seq<Action>): seq<Multiaddr> {
    if acts == [] then []
    else
      var last := acts[|acts| - 1];
      SentBy(acts[..|acts| - 1]) + if last.Send? then [last.reported] else []
  }

  /** The addresses of the upgrades handed out so far by all listeners, in global order. */
  function UpgradedBy(results: seq<Poll>): seq<Multiaddr> {
    if results == [] then []
    else
      var last := results[|results| - 1];
      UpgradedBy(results[..|results| - 1])
      + if last.PollEvent? && last.event.Upgrade? then [last.event.remoteAddr] else []
  }

  /** With any number of listeners and any schedule of polls, the upgrades followed by the queue are
      exactly the addresses sent: none is lost, none is duplicated, none overtakes another. And no
      listener's stream ends while a reported address is queued. */
  lemma {:induction false} NoAddressLost(acts: seq<Action>, pools: seq<Pool>, results: seq<Poll>, k: nat)
    requires Run(acts, pools, results) && k <= |acts|
    ensures UpgradedBy(results[..k]) + pools[k].queue == SentBy(acts[..k])
    ensures k > 0 && results[k - 1].PollEnd? ==> pools[k - 1].queue == [] && pools[k - 1].sendersGone
  {
    if k > 0 {
      NoAddressLost(acts, pools, results, k - 1);
      assert acts[..k][..k - 1] == acts[..k - 1] && results[..k][..k - 1] == results[..k - 1];
      var p, act, r := pools[k - 1], acts[k - 1], results[k - 1];
      assert Takes(acts, pools, results, k - 1);
      QueueStep(p, act);
      hide Next, Enabled, Run;
      Grows(UpgradedBy(results[..k - 1]), p.queue, if act.Send? then [act.reported] else []);
    }
  }

  lemma Grows<T>(before: seq<T>, queue: seq<T>, more: seq<T>)
    ensures before + (queue + more) == (before + queue) + more
    ensures queue != [] ==> before + [queue[0]] + queue[1..] == before + queue
  {
    if queue != [] {
      assert queue == [queue[0]] + queue[1..];
    }
  }

  /** What one action does to the queue. */
  lemma QueueStep(p: Pool, act: Action)
    requires Enabled(p, act)
    ensures var (n, r) := Next(p, act);
      if r.PollEvent? && r.event.Upgrade?
      then p.queue != [] && r.event.remoteAddr == p.queue[0] && n.queue == p.queue[1..] && !act.Send?
      else n.queue == p.queue + (if act.Send? then [act.reported] else [])
    ensures Next(p, act).1.PollEnd? ==> p.queue == [] && p.sendersGone
  {
    if act.DoPoll? {
      UpgradeExactly(p.streams[act.i], act.answers, p.queue, p.sendersGone);
      hide PollOnce;
    }
  }

  // ---- what one listener announces ---------------------------------------------------------

  /** One listener's life: it is polled, and its ready watcher gets more events. */
  datatype Turn = Polled(answers: Answers, queue: seq<Multiaddr>, sendersGone: bool) | Event(e: IfEvent)

  ghost function Turned(s: Stream, turn: Turn): (Stream, Poll) {
    match turn
    case Polled(answers, queue, sendersGone) =>
      var (n, _, r) := PollOnce(s, answers, queue, sendersGone);
      (n, r)
    case Event(e) =>
      if s.inAddr.Any? && s.inAddr.ifWatch.Ready?
      then (s.(inAddr := Any(Ready(s.inAddr.ifWatch.events + [e]))), PollPending) else (s, PollPending)
  }

  /** Turn `k` leads from the state before it to the state after it, with its answer. */
  ghost predicate Turns(turns: seq<Turn>, states: seq<Stream>, results: seq<Poll>, k: nat) {
    && k < |turns| && k + 1 < |states| && k < |results|
    && (states[k + 1], results[k]) == Turned(states[k], turns[k])
  }

  ghost predicate Life(listen: SocketAddr, turns: seq<Turn>, states: seq<Stream>, results: seq<Poll>) {
    && |states| == |turns| + 1 && |results| == |turns| && states[0] == NewStream(listen)
    && forall k: nat :: k < |turns| ==> Turns(turns, states, results, k)
  }

  function Waiting(s: Stream): seq<IfEvent> {
    if s.inAddr.Any? && s.inAddr.ifWatch.Ready? then s.inAddr.ifWatch.events else []
  }

  /** The events a turn adds to the watcher. */
  function Given(s: Stream, turn: Turn): seq<IfEvent> {
    match turn
    case Event(e) => if s.inAddr.Any? && s.inAddr.ifWatch.Ready? then [e] else []
    case Polled(answers, _, _) =>
      if s.inAddr == Any(Pending) && answers.setup.Started? then answers.setup.events else []
  }

  /** What a turn announces from the ready watcher: anything but an upgrade, a failed set-up or the single
      interface's own address. */
  function Said(s: Stream, turn: Turn, r: Poll): seq<ListenerEvent> {
    if turn.Polled? && r.PollEvent? && !r.event.Upgrade? && s.inAddr.Any?
       && !(s.inAddr.ifWatch.Pending? && turn.answers.setup.Refused?)
    then [r.event] else []
  }

  function GivenBy(turns: seq<Turn>, states: seq<Stream>, k: nat): seq<IfEvent>
    requires |states| == |turns| + 1 && k <= |turns|
  {
    if k == 0 then [] else GivenBy(turns, states, k - 1) + Given(states[k - 1], turns[k - 1])
  }

  function SaidBy(turns: seq<Turn>, states: seq<Stream>, results: seq<Poll>, k: nat): seq<ListenerEvent>
    requires |states| == |turns| + 1 && |results| == |turns| && k <= |turns|
  {
    if k == 0 then [] else SaidBy(turns, states, results, k - 1) + Said(states[k - 1], turns[k - 1], results[k - 1])
  }

  /** The announcements a sequence of watcher events calls for: other families' events are dropped. */
  function Images(listen: SocketAddr, events: seq<IfEvent>): seq<ListenerEvent> {
    if events == [] then []
    else
      var e := events[|events| - 1];
      Images(listen, events[..|events| - 1]) + if Image(listen, e).Some? then [Image(listen, e).value] else []
  }

  lemma {:induction false} ImagesOfConcat(listen: SocketAddr, a: seq<IfEvent>, b: seq<IfEvent>)
    ensures Images(listen, a + b) == Images(listen, a) + Images(listen, b)
  {
    if b == [] {
      assert a + b == a;
    } else {
      var front := b[..|b| - 1];
      assert (a + b)[..|a + b| - 1] == a + front;
      ImagesOfConcat(listen, a, front);
    }
  }

  lemma {:induction false} ImagesOfSilent(listen: SocketAddr, events: seq<IfEvent>)
    requires NothingToAnnounce(listen, events)
    ensures Images(listen, events) == []
  {
    if events != [] {
      assert events[|events| - 1] in events;
      ImagesOfSilent(listen, events[..|events| - 1]);
    }
  }

  /** One poll of a ready watcher consumes a prefix of its events and announces exactly that prefix's
      images, of which there is at most one. */
  lemma AnnounceConsumes(s: Stream, events: seq<IfEvent>, answers: Answers, queue: seq<Multiaddr>, sendersGone: bool)
    returns (consumed: seq<IfEvent>)
    ensures var (n, _, r) := Announce(s, events, answers, queue, sendersGone);
      && n.listenAddr == s.listenAddr && n.inAddr.Any? && n.inAddr.ifWatch.Ready?
      && consumed + n.inAddr.ifWatch.events == events
      && Images(s.listenAddr, consumed) == if r.PollEvent? && !r.event.Upgrade? then [r.event] else []
  {
    var k := Skipped(s.listenAddr, events);
    ImagesOfSilent(s.listenAddr, events[..k]);
    if k < |events| {
      consumed := events[..k + 1];
      assert consumed[..|consumed| - 1] == events[..k];
      ImageShape(s.listenAddr, events);
    } else {
      consumed := events;
      assert events[..k] == events;
    }
  }

  lemma TurnConsumes(s: Stream, turn: Turn) returns (consumed: seq<IfEvent>)
    ensures var (n, r) := Turned(s, turn);
      && n.listenAddr == s.listenAddr
      && consumed + Waiting(n) == Waiting(s) + Given(s, turn)
      && Images(s.listenAddr, consumed) == Said(s, turn, r)
  {
    consumed := [];
    if turn.Polled? && s.inAddr.Any? {
      var events := Waiting(s) + Given(s, turn);
      if s.inAddr.ifWatch.Ready? {
        assert events == s.inAddr.ifWatch.events;
        consumed := AnnounceConsumes(s, events, turn.answers, turn.queue, turn.sendersGone);
      } else if turn.answers.setup.Started? {
        assert events == turn.answers.setup.events;
        consumed := AnnounceConsumes(s, events, turn.answers, turn.queue, turn.sendersGone);
      }
      hide Announce;
    }
  }

  /** What is given and said up to turn `k` is accounted for by the events consumed up to then. */
  ghost predicate Accounted(listen: SocketAddr, turns: seq<Turn>, states: seq<Stream>, results: seq<Poll>, k: nat,
                            consumed: seq<IfEvent>)
    requires |states| == |turns| + 1 && |results| == |turns| && k <= |turns|
  {
    && states[k].listenAddr == listen
    && consumed + Waiting(states[k]) == GivenBy(turns, states, k)
    && SaidBy(turns, states, results, k) == Images(listen, consumed)
  }

  lemma AccountedNext(listen: SocketAddr, turns: seq<Turn>, states: seq<Stream>, results: seq<Poll>, k: nat,
                      before: seq<IfEvent>, now: seq<IfEvent>)
    requires |states| == |turns| + 1 && |results| == |turns| && k < |turns|
    requires Accounted(listen, turns, states, results, k, before) && states[k + 1].listenAddr == listen
    requires now + Waiting(states[k + 1]) == Waiting(states[k]) + Given(states[k], turns[k])
    requires Images(listen, now) == Said(states[k], turns[k], results[k])
    ensures Accounted(listen, turns, states, results, k + 1, before + now)
  {
    hide Given, Said, Waiting;
    ImagesOfConcat(listen, before, now);
    Grows(before, now, Waiting(states[k + 1]));
    Grows(before, Waiting(states[k]), Given(states[k], turns[k]));
  }

  /** Over every life of a listener, what it announced from its watcher is exactly the image of the
      events it consumed, in order, with other families dropped; and what it consumed followed by what
      is waiting is exactly what the watcher was given. */
  lemma {:induction false} AnnouncesImages(listen: SocketAddr, turns: seq<Turn>, states: seq<Stream>,
                                           results: seq<Poll>, k: nat)
    returns (consumed: seq<IfEvent>)
    requires Life(listen, turns, states, results) && k <= |turns|
    ensures states[k].listenAddr == listen
    ensures consumed + Waiting(states[k]) == GivenBy(turns, states, k)
    ensures SaidBy(turns, states, results, k) == Images(listen, consumed)
    decreases k
  {
    if k == 0 {
      consumed := [];
    } else {
      var before := AnnouncesImages(listen, turns, states, results, k - 1);
      var now := LifeConsumes(listen, turns, states, results, k - 1);
      AccountedNext(listen, turns, states, results, k - 1, before, now);
      consumed := before + now;
    }
  }

  lemma LifeConsumes(listen: SocketAddr, turns: seq<Turn>, states: seq<Stream>, results: seq<Poll>, k: nat)
    returns (now: seq<IfEvent>)
    requires Life(listen, turns, states, results) && k < |turns| && states[k].listenAddr == listen
    ensures now + Waiting(states[k + 1]) == Waiting(states[k]) + Given(states[k], turns[k])
    ensures Images(listen, now) == Said(states[k], turns[k], results[k]) && states[k + 1].listenAddr == listen
  {
    assert Turns(turns, states, results, k);
    now := TurnConsumes(states[k], turns[k]);
  }

  // ---- the announced addresses ----------------------------------------------------------------

  /** The addresses announced and not expired since. */
  function Standing(said: seq<ListenerEvent>): set<Multiaddr> {
    if said == [] then {}
    else
      Announced(Standing(said[..|said| - 1]), said[|said| - 1])
  }

  function Announced(standing: set<Multiaddr>, e: ListenerEvent): set<Multiaddr> {
    match e
    case NewAddress(addr) => standing + {addr}
    case AddressExpired(addr) => standing - {addr}
    case _ => standing
  }

  /** The interfaces of the listener's family that are up after the events. */
  function UpAfter(listen: SocketAddr, events: seq<IfEvent>): set<IpAddr> {
    if events == [] then {}
    else
      var before := UpAfter(listen, events[..|events| - 1]);
      match events[|events| - 1]
      case Up(ip) => if SameFamily(listen.ip, ip) then before + {ip} else before
      case Down(ip) => if SameFamily(listen.ip, ip) then before - {ip} else before
      case WatchError(_) => before
  }

  lemma SameMultiaddr(a: IpAddr, b: IpAddr, port: Port)
    ensures IpToMultiaddr(a, port) == IpToMultiaddr(b, port) <==> a == b
  {
    assert IpToMultiaddr(a, port)[0] == IpToMultiaddr(b, port)[0] <==> a == b;
  }

  lemma StandingStep(said: seq<ListenerEvent>, more: ListenerEvent)
    ensures Standing(said + [more]) == Announced(Standing(said), more)
  {
    assert (said + [more])[..|said|] == said;
  }

  ghost predicate SameAddresses(standing: set<Multiaddr>, up: set<IpAddr>, port: Port) {
    standing == set ip | ip in up :: IpToMultiaddr(ip, port)
  }

  lemma SameAddressesStep(standing: set<Multiaddr>, up: set<IpAddr>, port: Port, ip: IpAddr)
    requires SameAddresses(standing, up, port)
    ensures SameAddresses(standing + {IpToMultiaddr(ip, port)}, up + {ip}, port)
    ensures SameAddresses(standing - {IpToMultiaddr(ip, port)}, up - {ip}, port)
  {
    forall other: IpAddr ensures IpToMultiaddr(other, port) == IpToMultiaddr(ip, port) <==> other == ip {
      SameMultiaddr(other, ip, port);
    }
    hide IpToMultiaddr;
  }

  lemma {:induction false} StandingOfImages(listen: SocketAddr, events: seq<IfEvent>)
    ensures SameAddresses(Standing(Images(listen, events)), UpAfter(listen, events), listen.port)
  {
    if events != [] {
      var front, e := events[..|events| - 1], events[|events| - 1];
      StandingOfImages(listen, front);
      var standing, up := Standing(Images(listen, front)), UpAfter(listen, front);
      var image := Image(listen, e);
      if image.Some? {
        assert Images(listen, events) == Images(listen, front) + [image.value];
        StandingStep(Images(listen, front), image.value);
        assert Standing(Images(listen, events)) == Announced(standing, image.value);
        if e.Up? || e.Down? {
          SameAddressesStep(standing, up, listen.port, e.ip);
        }
      } else {
        assert UpAfter(listen, events) == up;
        assert Images(listen, events) == Images(listen, front);
      }
    }
  }

  /** At every moment the addresses announced and not expired are those of the interfaces of the
      listener's family that are up after the events consumed so far. */
  lemma StandingAddresses(listen: SocketAddr, turns: seq<Turn>, states: seq<Stream>, results: seq<Poll>, k: nat)
    returns (consumed: seq<IfEvent>)
    requires Life(listen, turns, states, results) && k <= |turns|
    ensures consumed + Waiting(states[k]) == GivenBy(turns, states, k)
    ensures Standing(SaidBy(turns, states, results, k)) ==
      set ip | ip in UpAfter(listen, consumed) :: IpToMultiaddr(ip, listen.port)
  {
    consumed := AnnouncesImages(listen, turns, states, results, k);
    StandingOfImages(listen, consumed);
  }

  /** A listener bound to one address announces it in its first poll and never says anything of its own
      again: every later event is an upgrade. */
  lemma {:induction false} SingleAddressOnce(listen: SocketAddr, turns: seq<Turn>, states: seq<Stream>,
                                             results: seq<Poll>, first: nat, k: nat)
    requires Life(listen, turns, states, results) && listen.ip != V4(0) && listen.ip != V6(0)
    requires first < |turns| && turns[first].Polled? && forall j :: 0 <= j < first ==> !turns[j].Polled?
    requires k < |turns|
    ensures k < first ==> results[k] == PollPending && states[k + 1] == NewStream(listen)
    ensures k == first ==> results[k] == PollEvent(NewAddress(IpToMultiaddr(listen.ip, listen.port)))
    ensures k >= first ==> states[k + 1].inAddr == One(None) && !states[k + 1].paused
    ensures k > first && results[k].PollEvent? ==> results[k].event.Upgrade?
  {
    if k > 0 {
      SingleAddressOnce(listen, turns, states, results, first, k - 1);
    }
    assert Turns(turns, states, results, k);
  }

  /** No poll before the `k`-th turn finds the watcher set up. */
  ghost predicate NotStarted(turns: seq<Turn>, k: nat) {
    k <= |turns| && forall j :: 0 <= j < k && turns[j].Polled? ==> !turns[j].answers.setup.Started?
  }

  /** The poll announces the first of the events that has an image, or none if there is none. */
  ghost predicate AnnouncesFirst(listen: SocketAddr, events: seq<IfEvent>, after: Stream, r: Poll) {
    if NothingToAnnounce(listen, events)
    then after.inAddr == Any(Ready([])) && (r.PollEvent? ==> r.event.Upgrade?)
    else exists n: nat ::
           && n < |events| && IsFirst(listen, events, n)
           && r == PollEvent(Image(listen, events[n]).value) && after.inAddr == Any(Ready(events[n + 1..]))
  }

  ghost predicate IsFirst(listen: SocketAddr, events: seq<IfEvent>, n: nat) {
    n < |events| && Image(listen, events[n]).Some? && NothingToAnnounce(listen, events[..n])
  }

  /** What a poll of a listener whose watcher is not set up yet comes to. */
  ghost predicate SetUpPoll(before: Stream, setup: Setup, after: Stream, r: Poll) {
    match setup
    case NotYet => r == PollPending && after == before
    case Refused(code) => r == PollEvent(ListenerEvent.Error(code)) && after == before.(paused := true)
    case Started(events) => AnnouncesFirst(before.listenAddr, events, after, r)
  }

  lemma PendingPoll(s: Stream, answers: Answers, queue: seq<Multiaddr>, sendersGone: bool)
    requires s.inAddr == Any(Pending)
    ensures var (n, _, r) := PollOnce(s, answers, queue, sendersGone); SetUpPoll(s, answers.setup, n, r)
  {
    if answers.setup.Started? {
      var events := answers.setup.events;
      var k := Skipped(s.listenAddr, events);
      SkippedAll(s.listenAddr, events);
      if k < |events| {
        assert IsFirst(s.listenAddr, events, k);
        assert events[k] in events;
      }
    }
    hide Image;
  }

  /** A listener on a wildcard address waits for the watcher: until the watcher is set up every poll waits, or
      gives the set-up error, and nothing else; the first poll that finds it set up takes over its events,
      all of them, and announces the first one that concerns the listener. */
  lemma {:induction false} WildcardWaits(listen: SocketAddr, turns: seq<Turn>, states: seq<Stream>,
                                         results: seq<Poll>, k: nat)
    requires Life(listen, turns, states, results) && (listen.ip == V4(0) || listen.ip == V6(0))
    requires k < |turns| && NotStarted(turns, k)
    ensures states[k].inAddr == Any(Pending) && states[k].listenAddr == listen && GivenBy(turns, states, k) == []
    ensures turns[k].Polled? ==> SetUpPoll(states[k], turns[k].answers.setup, states[k + 1], results[k])
    ensures turns[k].Polled? && turns[k].answers.setup.Started? ==>
      GivenBy(turns, states, k + 1) == turns[k].answers.setup.events
  {
    if k > 0 {
      WildcardWaits(listen, turns, states, results, k - 1);
      assert Turns(turns, states, results, k - 1);
    }
    assert Turns(turns, states, results, k);
    if turns[k].Polled? {
      PendingPoll(states[k], turns[k].answers, turns[k].queue, turns[k].sendersGone);
    }
    hide Life, SetUpPoll;
  }
}
