/**
 The shared state of the UDP mux, what each of its lock-delimited sections does to it, and the
 operations those sections add up to. `C` is the identity of a muxed connection: a heap reference
 in the sequential model, a number in the interleaved one.
*/
module MuxState {
  import opened Wrappers
  import opened Text
  import opened Fingerprint
  import opened Addresses

  type Ufrag = string

  datatype Error = ErrAlreadyClosed | ErrUseClosedNetworkConn | ErrLocalAddr

  datatype Mux<C> = Mux(
    conns: map<Ufrag, C>,
    addressMap: map<SocketAddr, C>,
    newAddrs: set<SocketAddr>,
    closed: bool,
    listening: bool,                     // the receive worker is still running
    key: map<C, Ufrag>,                  // every connection ever created, with its ufrag
    addresses: map<C, set<SocketAddr>>,  // each connection's own address set
    shut: set<C>,                        // connections on which the mux has called close
    watchers: map<C, nat>                // how many removal watchers were spawned for a connection
  )

  /** A received datagram: STUN header or not, and the decoded USERNAME attribute if there is one. */
  datatype Packet = Packet(source: SocketAddr, stun: bool, username: Option<string>)

  /** What the receive worker does with one packet. */
  datatype Outcome<X> =
    | Routed(conn: X)             // written to this connection
    | AlreadyReported
    | Undecodable                 // no username to report
    | Panicked                    // the username's last segment is not a fingerprint
    | Reported(addr: Multiaddr)   // sent to the listeners
    | SendFailed(addr: Multiaddr) // the channel refused it
    | NotListening

  /** The mux's own half of a USERNAME attribute. */
  function LocalSegment(username: string): string {
    Split(username, COLON)[0]
  }

  /** The sender's half. */
  function RemoteSegment(username: string): string {
    var segments := Split(username, COLON);
    segments[|segments| - 1]
  }

  ghost function Initial<C>(): Mux<C> {
    Mux(map[], map[], {}, false, true, map[], map[], {}, map[])
  }

  // ---- lock-delimited sections -------------------------------------------

  /** One more task waiting for `c` to close. */
  function Spawn<C(==)>(watchers: map<C, nat>, c: C): map<C, nat> {
    watchers[c := (if c in watchers then watchers[c] else 0) + 1]
  }

  ghost function InsertConn<C>(m: Mux<C>, u: Ufrag, made: C): Mux<C> {
    m.(conns := m.conns[u := made], key := m.key[made := u],
       addresses := m.addresses[made := {}], watchers := Spawn(m.watchers, made))
  }

  ghost function TakeConn<C>(m: Mux<C>, u: Ufrag): Mux<C> {
    m.(conns := m.conns - {u})
  }

  ghost function EraseEntries<C>(m: Mux<C>, addrs: set<SocketAddr>): Mux<C> {
    m.(addressMap := m.addressMap - addrs)
  }

  ghost function AddAddress<C>(m: Mux<C>, c: C, a: SocketAddr): Mux<C>
    requires c in m.addresses
  {
    m.(addresses := m.addresses[c := m.addresses[c] + {a}])
  }

  ghost function DropAddress<C>(m: Mux<C>, c: C, a: SocketAddr): Mux<C>
    requires c in m.addresses
  {
    m.(addresses := m.addresses[c := m.addresses[c] - {a}])
  }

  /** The entry for `a` belongs to a connection with another ufrag: keys are compared, not identities. */
  ghost predicate Displaces<C>(m: Mux<C>, c: C, a: SocketAddr) {
    a in m.addressMap && m.addressMap[a] in m.key && c in m.key && m.key[m.addressMap[a]] != m.key[c]
  }

  ghost function SetEntry<C>(m: Mux<C>, c: C, a: SocketAddr): Mux<C> {
    m.(addressMap := m.addressMap[a := c])
  }

  ghost function Forget<C>(m: Mux<C>, a: SocketAddr): Mux<C> {
    m.(newAddrs := m.newAddrs - {a})
  }

  ghost function MarkReported<C>(m: Mux<C>, a: SocketAddr): Mux<C> {
    m.(newAddrs := m.newAddrs + {a})
  }

  ghost function DrainConns<C>(m: Mux<C>): Mux<C> {
    m.(conns := map[], shut := m.shut + m.conns.Values)
  }

  // ---- operations ---------------------------------------------------------

  /** `get_conn`; `made` is the connection it creates if it creates one. */
  ghost function GetConn<C>(m: Mux<C>, u: Ufrag, made: C, localAddr: bool): (Mux<C>, Result<C, Error>) {
    if m.closed then (m, Err(ErrUseClosedNetworkConn))
    else if u in m.conns then (m, Ok(m.conns[u]))
    else if !localAddr then (m, Err(ErrLocalAddr))
    else (InsertConn(m, u, made), Ok(made))
  }

  /** Both maps hold created connections only, and each of those has an address set. */
  ghost predicate Known<C>(m: Mux<C>) {
    && m.key.Keys == m.addresses.Keys
    && (forall u :: u in m.conns ==> m.conns[u] in m.key)
    && (forall a :: a in m.addressMap ==> m.addressMap[a] in m.key)
  }

  /** `remove_conn_by_ufrag`: deletes the entries listed in the removed connection's own set. */
  ghost function RemoveConn<C>(m: Mux<C>, u: Ufrag): Mux<C>
    requires Known(m)
  {
    if u in m.conns then EraseEntries(TakeConn(m, u), m.addresses[m.conns[u]]) else m
  }

  /** The entry update of `register_conn_for_address`. */
  ghost function PutEntry<C>(m: Mux<C>, c: C, a: SocketAddr): Mux<C>
    requires Known(m) && c in m.key
  {
    if a !in m.addressMap then SetEntry(m, c, a)
    else if Displaces(m, c, a) then SetEntry(DropAddress(m, m.addressMap[a], a), c, a)
    else m
  }

  /** `register_conn_for_address` */
  ghost function Register<C>(m: Mux<C>, c: C, a: SocketAddr): Mux<C>
    requires Known(m) && c in m.key
  {
    if m.closed then m else Forget(PutEntry(m, c, a), a)
  }

  /** A connection sends to an address: it adds an unseen address to its own set, then registers. */
  ghost function SendTo<C>(m: Mux<C>, c: C, a: SocketAddr): Mux<C>
    requires Known(m) && c in m.key
  {
    if a in m.addresses[c] then m else Register(AddAddress(m, c, a), c, a)
  }

  ghost function Close<C>(m: Mux<C>): (Mux<C>, Result<(), Error>) {
    if m.closed then (m, Err(ErrAlreadyClosed))
    else (DrainConns(m).(closed := true, addressMap := map[], newAddrs := {}), Ok(()))
  }

  /** The connection a packet goes to: by source address, else by the local half of its username. */
  ghost function Lookup<C>(m: Mux<C>, p: Packet): Option<C> {
    if p.source in m.addressMap then Some(m.addressMap[p.source])
    else if p.stun && p.username.Some? && LocalSegment(p.username.value) in m.conns
    then Some(m.conns[LocalSegment(p.username.value)])
    else None
  }

  /** The address to report for a packet that no connection wants. */
  function Announcement(p: Packet): Option<Multiaddr>
    requires p.username.Some?
  {
    match HexToHash(Strip(RemoteSegment(p.username.value), COLON))
    case Some(hash) => Some(ReportedAddr(p.source, hash))
    case None => None
  }

  /** One turn of the receive worker; `accepted` is the channel's answer to `try_send`. */
  ghost function Receive<C>(m: Mux<C>, p: Packet, accepted: bool): (Mux<C>, Outcome<C>) {
    if !m.listening then (m, NotListening)
    else match Lookup(m, p)
      case Some(c) => (m, Routed(c))
      case None =>
        if p.source in m.newAddrs then (m, AlreadyReported)
        else if p.username.None? then (m, Undecodable)
        else match Announcement(p)
          case None => (m.(listening := false), Panicked)
          case Some(addr) =>
            if accepted then (MarkReported(m, p.source), Reported(addr)) else (m, SendFailed(addr))
  }

  /** What the worker's socket yields next. */
  datatype Input =
    | Datagram(packet: Packet, accepted: bool)
    | TimedOut
    | Broken          // any other receive error
    | CloseSignal

  /** The worker's loop over what it receives: timeouts are skipped, errors and the close signal end it. */
  ghost function Work<C>(m: Mux<C>, inputs: seq<Input>): (Mux<C>, seq<Outcome<C>>)
    decreases |inputs|
  {
    if inputs == [] || !m.listening then (m, [])
    else match inputs[0]
      case TimedOut => Work(m, inputs[1..])
      case Broken => (m.(listening := false), [])
      case CloseSignal => (m.(listening := false), [])
      case Datagram(p, accepted) =>
        var (n, o) := Receive(m, p, accepted);
        var (final, outcomes) := Work(n, inputs[1..]);
        (final, [o] + outcomes)
  }

  // ---- what every operation keeps -----------------------------------------

  ghost predicate Live<C>(m: Mux<C>, c: C) {
    c in m.key && m.key[c] in m.conns && m.conns[m.key[c]] == c
  }

  /** Holds of every connection, live or not: an entry points at a connection that has the address
      in its own set, and `conns[u]` has key `u`. */
  ghost predicate WellFormed<C>(m: Mux<C>) {
    && Known(m)
    && (forall u :: u in m.conns ==> m.key[m.conns[u]] == u)
    && (forall a :: a in m.addressMap ==> a in m.addresses[m.addressMap[a]])
    && (m.closed ==> m.conns == map[])
  }

  /** Every connection ever created has exactly one removal watcher, and there are no others. */
  ghost predicate Watched<C>(m: Mux<C>) {
    m.watchers.Keys == m.key.Keys && forall c :: c in m.key ==> m.watchers[c] == 1
  }

  /** The two indexes agree on the live connections, and no reported address is routed. */
  ghost predicate Agreement<C>(m: Mux<C>) {
    && Known(m)
    && (forall a :: a in m.addressMap ==> Live(m, m.addressMap[a]))
    && (forall u, a :: u in m.conns && a in m.addresses[m.conns[u]] ==>
           a in m.addressMap && m.addressMap[a] == m.conns[u])
    && m.newAddrs !! m.addressMap.Keys
  }

  lemma GetConnKeeps<C>(m: Mux<C>, u: Ufrag, made: C, localAddr: bool)
    requires WellFormed(m) && made !in m.key
    ensures WellFormed(GetConn(m, u, made, localAddr).0)
    ensures Agreement(m) ==> Agreement(GetConn(m, u, made, localAddr).0)
  {
    var n := GetConn(m, u, made, localAddr).0;
    if n != m {
      assert n == InsertConn(m, u, made) && u !in m.conns;
      assert forall a :: a in n.addressMap ==> n.addressMap[a] in m.key;
      if Agreement(m) {
        forall a | a in n.addressMap ensures Live(n, n.addressMap[a]) {
          assert Live(m, m.addressMap[a]);
        }
        forall v, a | v in n.conns && a in n.addresses[n.conns[v]]
          ensures a in n.addressMap && n.addressMap[a] == n.conns[v]
        {
          assert v != u && v in m.conns;
        }
      }
    }
  }

  lemma RemoveKeeps<C>(m: Mux<C>, u: Ufrag)
    requires WellFormed(m)
    ensures WellFormed(RemoveConn(m, u))
    ensures Agreement(m) ==> Agreement(RemoveConn(m, u))
  {
    var n := RemoveConn(m, u);
    if u in m.conns && Agreement(m) {
      forall a | a in n.addressMap ensures Live(n, n.addressMap[a]) {
        assert Live(m, m.addressMap[a]) && m.addressMap[a] != m.conns[u];
      }
      forall v, a | v in n.conns && a in n.addresses[n.conns[v]]
        ensures a in n.addressMap && n.addressMap[a] == n.conns[v]
      {
        assert a in m.addressMap && m.addressMap[a] == m.conns[v];
        assert m.key[m.conns[v]] == v && m.key[m.conns[u]] == u;
      }
    }
  }

  /** The connection that loses the address when `c` registers it. */
  ghost predicate Loses<C>(m: Mux<C>, c: C, a: SocketAddr, d: C) {
    Displaces(m, c, a) && m.addressMap[a] == d
  }

  /** A first send to an address, field by field. */
  lemma SendToEffect<C>(m: Mux<C>, c: C, a: SocketAddr)
    requires Known(m) && c in m.key && a !in m.addresses[c] && !m.closed
    ensures var n := SendTo(m, c, a);
      && n.conns == m.conns && n.key == m.key && n.watchers == m.watchers && !n.closed
      && n.shut == m.shut && n.listening == m.listening && n.newAddrs == m.newAddrs - {a}
      && n.addressMap == m.addressMap[a := if a in m.addressMap && !Displaces(m, c, a) then m.addressMap[a] else c]
      && n.addresses.Keys == m.addresses.Keys
      && forall d :: d in m.addresses ==>
           n.addresses[d] == (if d == c then m.addresses[d] + {a}
                              else if Loses(m, c, a, d) then m.addresses[d] - {a}
                              else m.addresses[d])
  {
    var m1 := AddAddress(m, c, a);
    assert m1.addressMap == m.addressMap && m1.key == m.key;
    assert Known(m1);
    assert Displaces(m1, c, a) == Displaces(m, c, a);
    var m2 := PutEntry(m1, c, a);
    if a !in m.addressMap {
      assert m2 == SetEntry(m1, c, a);
    } else if Displaces(m, c, a) {
      assert m2 == SetEntry(DropAddress(m1, m.addressMap[a], a), c, a);
    } else {
      assert m2 == m1 && m.addressMap == m.addressMap[a := m.addressMap[a]];
    }
  }

  /** A registration, field by field. */
  lemma RegisterEffect<C>(m: Mux<C>, c: C, a: SocketAddr)
    requires Known(m) && c in m.key && !m.closed
    ensures var n := Register(m, c, a);
      && n.conns == m.conns && n.key == m.key && n.watchers == m.watchers && n.closed == m.closed
      && n.addressMap == m.addressMap[a := if a in m.addressMap && !Displaces(m, c, a) then m.addressMap[a] else c]
      && n.addresses.Keys == m.addresses.Keys
      && forall d :: d in m.addresses ==>
           n.addresses[d] == if Loses(m, c, a, d) then m.addresses[d] - {a} else m.addresses[d]
  {
    if a in m.addressMap && !Displaces(m, c, a) {
      assert m.addressMap == m.addressMap[a := m.addressMap[a]];
    }
  }

  lemma RegisterKeeps<C>(m: Mux<C>, c: C, a: SocketAddr)
    requires WellFormed(m) && c in m.key && a in m.addresses[c]
    ensures WellFormed(Register(m, c, a))
  {
    if !m.closed {
      RegisterEffect(m, c, a);
      var n := Register(m, c, a);
      forall b | b in n.addressMap
        ensures n.addressMap[b] in n.key && b in n.addresses[n.addressMap[b]]
      {
        if b != a {
          assert b in m.addressMap;
        }
      }
    }
  }

  lemma AddAddressKeeps<C>(m: Mux<C>, c: C, a: SocketAddr)
    requires WellFormed(m) && c in m.key
    ensures WellFormed(AddAddress(m, c, a))
  {}

  lemma SendToKeepsIndex<C>(m: Mux<C>, c: C, a: SocketAddr)
    requires WellFormed(m) && c in m.key
    ensures WellFormed(SendTo(m, c, a))
  {
    if a !in m.addresses[c] {
      var m1 := AddAddress(m, c, a);
      AddAddressKeeps(m, c, a);
      RegisterKeeps(m1, c, a);
    }
  }

  lemma SendToKeeps<C>(m: Mux<C>, c: C, a: SocketAddr)
    requires WellFormed(m) && c in m.key
    ensures WellFormed(SendTo(m, c, a))
    ensures Agreement(m) && Live(m, c) ==> Agreement(SendTo(m, c, a))
  {
    SendToKeepsIndex(m, c, a);
    if Agreement(m) && Live(m, c) && a !in m.addresses[c] {
      LiveSendAgrees(m, c, a);
    }
  }

  lemma LiveSendAgrees<C>(m: Mux<C>, c: C, a: SocketAddr)
    requires WellFormed(m) && Agreement(m) && Live(m, c) && a !in m.addresses[c]
    requires WellFormed(SendTo(m, c, a))
    ensures Agreement(SendTo(m, c, a))
  {
    SendToEffect(m, c, a);
    var n := SendTo(m, c, a);
    if a in m.addressMap {
      assert Live(m, m.addressMap[a]);
      assert Displaces(m, c, a);
    }
    forall b | b in n.addressMap ensures Live(n, n.addressMap[b]) {
      assert Live(m, n.addressMap[b]);
    }
    forall v, b | v in n.conns && b in n.addresses[n.conns[v]]
      ensures b in n.addressMap && n.addressMap[b] == n.conns[v]
    {
      if n.conns[v] != c || b != a {
        assert b in m.addresses[m.conns[v]];
        assert m.addressMap[b] == m.conns[v];
        if b == a {
          assert Loses(m, c, a, m.conns[v]);
        }
      }
    }
  }

  /** A live connection owns every address in its set. */
  lemma LiveOwns<C>(m: Mux<C>, c: C, a: SocketAddr)
    requires Known(m) && Agreement(m) && Live(m, c) && a in m.addresses[c]
    ensures a in m.addressMap && m.addressMap[a] == c
  {
    var u := m.key[c];
    assert u in m.conns && m.conns[u] == c;
  }

  lemma StopKeeps<C>(m: Mux<C>)
    requires WellFormed(m)
    ensures WellFormed(m.(listening := false))
    ensures Agreement(m) ==> Agreement(m.(listening := false))
  {
    if Agreement(m) {
      var n := m.(listening := false);
      forall a | a in n.addressMap ensures Live(n, n.addressMap[a]) {
        assert Live(m, m.addressMap[a]);
      }
    }
  }

  lemma CloseKeeps<C>(m: Mux<C>)
    requires WellFormed(m)
    ensures WellFormed(Close(m).0)
    ensures Agreement(m) ==> Agreement(Close(m).0)
  {}

  lemma ReceiveKeeps<C>(m: Mux<C>, p: Packet, accepted: bool)
    requires WellFormed(m)
    ensures WellFormed(Receive(m, p, accepted).0)
    ensures Agreement(m) ==> Agreement(Receive(m, p, accepted).0)
  {
    var n := Receive(m, p, accepted).0;
    assert n == m || n == m.(listening := false)
      || (n == MarkReported(m, p.source) && p.source !in m.addressMap);
    if Agreement(m) {
      forall a | a in n.addressMap ensures Live(n, n.addressMap[a]) {
        assert Live(m, m.addressMap[a]);
      }
    }
  }

  /** The index agreement, spelled out: both directions for every live connection and address. */
  lemma AgreementMeans<C>(m: Mux<C>, c: C, d: C, a: SocketAddr)
    requires WellFormed(m) && Agreement(m) && Live(m, c)
    ensures a in m.addresses[c] <==> a in m.addressMap && m.addressMap[a] == c
    ensures Live(m, d) && d != c ==> m.addresses[c] !! m.addresses[d]
    ensures a in m.addressMap ==> m.addressMap[a] in m.conns.Values
  {
    assert m.conns[m.key[c]] == c;
    if a in m.addressMap {
      assert Live(m, m.addressMap[a]);
      assert m.conns[m.key[m.addressMap[a]]] in m.conns.Values;
    }
    if Live(m, d) && d != c {
      forall b | b in m.addresses[c] && b in m.addresses[d] ensures false {
        LiveOwns(m, c, b);
        LiveOwns(m, d, b);
      }
    }
  }

  /** A connection that was removed may still send. The indexes then keep agreeing exactly when the
      address is already in its set, or the mux is closed, or the entry already carries its ufrag. */
  lemma RemovedSender<C>(m: Mux<C>, c: C, a: SocketAddr)
    requires WellFormed(m) && Agreement(m) && c in m.key && !Live(m, c)
    ensures Agreement(SendTo(m, c, a)) <==>
      || a in m.addresses[c] || m.closed
      || (a in m.addressMap && m.key[m.addressMap[a]] == m.key[c])
  {
    var n := SendTo(m, c, a);
    if a !in m.addresses[c] && !m.closed && !(a in m.addressMap && m.key[m.addressMap[a]] == m.key[c]) {
      assert a in n.addressMap && n.addressMap[a] == c;
    }
  }

  /** Removing `u` deletes exactly the entries pointing at its connection if and only if no address
      in that connection's own set is currently routed to another connection. */
  lemma RemoveDeletesOwnEntries<C>(m: Mux<C>, u: Ufrag)
    requires WellFormed(m) && u in m.conns
    ensures forall a :: a in RemoveConn(m, u).addressMap ==> a in m.addressMap && m.addressMap[a] != m.conns[u]
    ensures RemoveConn(m, u).addressMap ==
        (map a | a in m.addressMap && m.addressMap[a] != m.conns[u] :: m.addressMap[a])
      <==> forall a :: a in m.addresses[m.conns[u]] && a in m.addressMap ==> m.addressMap[a] == m.conns[u]
  {
    var left := map a | a in m.addressMap && m.addressMap[a] != m.conns[u] :: m.addressMap[a];
    var n := RemoveConn(m, u);
    if a :| a in m.addresses[m.conns[u]] && a in m.addressMap && m.addressMap[a] != m.conns[u] {
      assert a in left && a !in n.addressMap;
    } else {
      assert n.addressMap == left;
    }
  }

  /** The keyed view: removing `u` deletes exactly the routes whose ufrag is `u`. */
  ghost predicate RemovesRoutes<C>(m: Mux<C>, u: Ufrag)
    requires Known(m)
  {
    RemoveConn(m, u).addressMap == map a | a in m.addressMap && m.key[m.addressMap[a]] != u :: m.addressMap[a]
  }

  /** The routes of `u` are exactly the routed addresses in the set of its live connection. */
  ghost predicate RoutesListed<C>(m: Mux<C>, u: Ufrag)
    requires Known(m)
  {
    forall a :: a in m.addressMap ==> (m.key[m.addressMap[a]] == u <==> u in m.conns && a in m.addresses[m.conns[u]])
  }

  /** Removing `u` deletes exactly the routes of `u` if and only if they are exactly the routed addresses
      in the set of its live connection: one route of `u` held by an older, removed connection is
      enough to break it, and so is one address of the set routed to another ufrag. */
  lemma RemoveDeletesRoutes<C>(m: Mux<C>, u: Ufrag)
    requires WellFormed(m)
    ensures RemovesRoutes(m, u) <==> RoutesListed(m, u)
  {
    var n := RemoveConn(m, u);
    var left := map a | a in m.addressMap && m.key[m.addressMap[a]] != u :: m.addressMap[a];
    assert forall a :: a in n.addressMap <==> a in m.addressMap && !(u in m.conns && a in m.addresses[m.conns[u]]);
    if a :| a in m.addressMap && (m.key[m.addressMap[a]] == u) != (u in m.conns && a in m.addresses[m.conns[u]]) {
      assert (a in left) != (a in n.addressMap);
    } else {
      assert n.addressMap == left;
    }
  }

  /** Where the indexes agree, that is so for every ufrag. */
  lemma AgreementLists<C>(m: Mux<C>, u: Ufrag)
    requires WellFormed(m) && Agreement(m)
    ensures RoutesListed(m, u)
  {
    forall a | a in m.addressMap
      ensures m.key[m.addressMap[a]] == u <==> u in m.conns && a in m.addresses[m.conns[u]]
    {
      assert Live(m, m.addressMap[a]);
      if u in m.conns && a in m.addresses[m.conns[u]] {
        LiveOwns(m, m.conns[u], a);
      }
    }
  }
}
