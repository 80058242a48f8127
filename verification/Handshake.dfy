/**
 Both ends of one connection attempt: what each configures and renders from the two certificate
 fingerprints, which addresses it accepts, and how the first packet leads from one end to the other.
*/
module Handshake {
  import opened Wrappers
  import opened Text
  import opened Fingerprint
  import opened Addresses
  import opened MuxState

  datatype Credentials = Credentials(ufrag: string, pwd: string)

  /** The part of `SettingEngine` that `build_setting_engine` decides. */
  datatype Settings = Settings(local: Credentials, udp4: bool)

  /** The arguments of the session description template. */
  datatype Description = Description(ip4: bool, target: SocketAddr, fingerprint: string, remote: Credentials)

  /** `build_setting_engine`: both ICE credentials are this side's fingerprint without colons. */
  function BuildSettings(addr: SocketAddr, fingerprint: string): Settings {
    var f := ToUfrag(fingerprint);
    Settings(Credentials(f, f), addr.ip.V4?)
  }

  /** `render_description`: the other side is assumed to have configured itself the same way. */
  function Render(addr: SocketAddr, fingerprint: string): Description {
    var f := ToUfrag(fingerprint);
    Description(addr.ip.V4?, addr, fingerprint, Credentials(f, f))
  }

  /** The USERNAME of an ICE check, section 7.2.2 of RFC 8445: the remote ufrag, then one's own. */
  function Username(remote: Credentials, local: Credentials): string {
    remote.ufrag + [COLON] + local.ufrag
  }

  /** What the foreign calls of one attempt answer. */
  datatype Environment = Environment(
    connection: bool,       // the peer connection was created (and its offer applied when dialling)
    channel: bool,          // descriptions applied, data channel open, Noise handshake done
    peer: PeerId,           // the identity Noise authenticated
    received: Option<string>)  // the text read in the fingerprint exchange, or None on an I/O error

  datatype Failure =
    | InvalidMultiaddr
    | Foreign
    | InvalidFingerprint(expected: string, got: string)
    | InvalidPeerId(wanted: Option<PeerId>, peer: PeerId)

  datatype Session = Session(peer: PeerId, settings: Settings, description: Description)

  /** When dialling succeeds. */
  ghost predicate DialSucceeds(addr: Multiaddr, env: Environment) {
    && Diallable(addr) && env.connection && env.channel
    && env.received == Some(ToString(addr[2].hash)) && LastPeer(addr) == Some(env.peer)
  }

  /** What it then comes to. */
  ghost function DialSession(addr: Multiaddr, ours: string, env: Environment): Session
    requires SocketAddrOf(addr).Some?
  {
    var target := SocketAddrOf(addr).value;
    Session(env.peer, BuildSettings(target, ours), Render(target, ToString(addr[2].hash)))
  }

  /** When the upgrade succeeds. */
  ghost predicate UpgradeSucceeds(addr: Multiaddr, env: Environment) {
    && Upgradable(addr) && env.connection && env.channel
    && env.received == Some(ToString(LastHash(addr).value))
  }

  ghost function UpgradeSession(addr: Multiaddr, ours: string, env: Environment): Session
    requires Upgradable(addr)
  {
    var source := SocketAddrOf(addr).value;
    Session(env.peer, BuildSettings(source, ours), Render(source, ToString(LastHash(addr).value)))
  }

  /** What a session comes to, for an address of the form ip / udp / x-webrtc. */
  ghost predicate SessionFor(s: Session, addr: Multiaddr, ours: string, peer: PeerId)
    requires IsWebrtc(addr)
  {
    var theirs := ToString(addr[2].hash);
    && s.peer == peer
    && FromIp(s.description.target.ip) == addr[0] && s.description.target.port == addr[1].port
    && s.description.ip4 == s.settings.udp4 == addr[0].Ip4?
    && s.description.fingerprint == theirs
    && s.description.remote.ufrag == s.description.remote.pwd == ToUfrag(theirs)
    && s.settings.local.ufrag == s.settings.local.pwd == ToUfrag(ours)
  }

  /** The address parses to something a dialer can send to. */
  ghost predicate Reachable(addr: Multiaddr) {
    IsWebrtc(addr) && addr[1].port != 0 && addr[0] != Ip4(0) && addr[0] != Ip6(0)
  }

  /** `do_dial` */
  method Dial(addr: Multiaddr, ours: string, env: Environment) returns (r: Result<Session, Failure>)
    ensures r.Ok? <==> DialSucceeds(addr, env)
    ensures r.Ok? ==> r.value == DialSession(addr, ours, env) && SessionFor(r.value, addr, ours, env.peer)
    ensures r == Err(InvalidMultiaddr) <==> !Reachable(addr)
    ensures r == Err(Foreign) <==> Reachable(addr) && (!env.connection || !env.channel || env.received.None?)
    ensures r.Err? && r.error.InvalidFingerprint? <==>
      && Reachable(addr) && env.connection && env.channel && env.received.Some?
      && env.received.value != ToString(addr[2].hash)
    ensures r.Err? && r.error.InvalidFingerprint? ==>
      r.error == InvalidFingerprint(ToString(addr[2].hash), env.received.value)
    ensures r.Err? && r.error.InvalidPeerId? <==>
      && Reachable(addr) && env.connection && env.channel && env.received == Some(ToString(addr[2].hash))
      && LastPeer(addr) != Some(env.peer)
    ensures r.Err? && r.error.InvalidPeerId? ==> r.error == InvalidPeerId(LastPeer(addr), env.peer)
  {
    var parsed := MultiaddrToSocketaddr(addr);
    if parsed.None? {
      return Err(InvalidMultiaddr);
    }
    var socketAddr := parsed.value;
    if socketAddr.port == 0 || socketAddr.ip.IsUnspecified() {
      return Err(InvalidMultiaddr);
    }
    var settings := BuildSettings(socketAddr, ours);
    if !env.connection {
      return Err(Foreign);
    }
    var hash := FingerprintFromAddr(addr);
    OneFingerprint(addr, 2);
    assert FirstHashAt(addr, 2);
    if hash.None? {
      return Err(InvalidMultiaddr);
    }
    ghost var at: nat :| FirstHashAt(addr, at) && addr[at].hash == hash.value;
    OneFingerprint(addr, at);
    var remoteFingerprint := ToString(hash.value);
    var description := Render(socketAddr, remoteFingerprint);
    if !env.channel || env.received.None? {
      return Err(Foreign);
    }
    var fingerprintFromNoise := env.received.value;
    if fingerprintFromNoise != remoteFingerprint {
      return Err(InvalidFingerprint(remoteFingerprint, fingerprintFromNoise));
    }
    var peerIdFromAddr := LastPeer(addr);
    if peerIdFromAddr.None? || peerIdFromAddr.value != env.peer {
      return Err(InvalidPeerId(peerIdFromAddr, env.peer));
    }
    return Ok(Session(env.peer, settings, description));
  }

  /** `upgrade::webrtc` */
  method Upgrade(addr: Multiaddr, ours: string, env: Environment) returns (r: Result<Session, Failure>)
    ensures r.Ok? <==> UpgradeSucceeds(addr, env)
    ensures r.Ok? ==>
      r.value == UpgradeSession(addr, ours, env) && |addr| == 3 && SessionFor(r.value, addr, ours, env.peer)
    ensures r == Err(InvalidMultiaddr) <==> !IsWebrtc(addr) || (env.connection && |addr| > 3)
    ensures r == Err(Foreign) <==>
      && IsWebrtc(addr)
      && (!env.connection || (|addr| == 3 && (!env.channel || env.received.None?)))
    ensures r.Err? && r.error.InvalidFingerprint? <==>
      && IsWebrtc(addr) && |addr| == 3 && env.connection && env.channel && env.received.Some?
      && env.received.value != ToString(addr[2].hash)
    ensures r.Err? && r.error.InvalidFingerprint? ==>
      r.error == InvalidFingerprint(ToString(addr[2].hash), env.received.value)
    ensures r.Err? ==> !r.error.InvalidPeerId?
  {
    var parsed := MultiaddrToSocketaddr(addr);
    if parsed.None? {
      return Err(InvalidMultiaddr);
    }
    var socketAddr := parsed.value;
    var settings := BuildSettings(socketAddr, ours);
    if !env.connection {
      return Err(Foreign);
    }
    var hash := LastHash(addr);
    if hash.None? {
      return Err(InvalidMultiaddr);
    }
    var remoteFingerprint := ToString(hash.value);
    var description := Render(socketAddr, remoteFingerprint);
    if !env.channel || env.received.None? {
      return Err(Foreign);
    }
    if env.received.value != remoteFingerprint {
      return Err(InvalidFingerprint(remoteFingerprint, env.received.value));
    }
    return Ok(Session(env.peer, settings, description));
  }

  // ---- credentials -------------------------------------------------------------

  /** What one side configures equals what the other renders for it exactly if the address the other
      works from carries its fingerprint. */
  lemma CredentialsAgree(self: Hash, carried: Hash, a: SocketAddr, b: SocketAddr)
    ensures BuildSettings(a, ToString(self)).local == Render(b, ToString(carried)).remote <==> carried == self
  {
    UfragIsInjective(self, carried);
  }

  /** The incoming username's first segment is the key under which the listener registers its
      connection exactly if the dialled address carries the listener's fingerprint; its last segment
      is always the dialer's own ufrag. */
  lemma UsernameNamesBothEnds(dialer: Hash, listener: Hash, dialled: Hash, a: SocketAddr, b: SocketAddr)
    ensures var username := Username(Render(a, ToString(dialled)).remote, BuildSettings(a, ToString(dialer)).local);
      && (LocalSegment(username) == BuildSettings(b, ToString(listener)).local.ufrag <==> dialled == listener)
      && RemoteSegment(username) == BuildSettings(a, ToString(dialer)).local.ufrag
  {
    UfragDecodes(dialled);
    UfragDecodes(dialer);
    UfragIsInjective(dialled, listener);
    var own, other := ToUfrag(ToString(dialer)), ToUfrag(ToString(dialled));
    UsernameSegments(other, own);
  }

  /** Any username ends in its last segment, and starts with its first when that is colon-free. */
  lemma UsernameSegments(remote: string, local: string)
    requires Free(local, COLON)
    ensures RemoteSegment(remote + [COLON] + local) == local
    ensures Free(remote, COLON) ==> LocalSegment(remote + [COLON] + local) == remote
  {
    SplitAtSeparator(remote, local, COLON);
    SplitOfFree(local, COLON);
    if Free(remote, COLON) {
      SplitOfFree(remote, COLON);
    }
  }

  /** The segments of any string: what is before its first colon, and what is after its last one. */
  lemma SegmentsExactly(username: string)
    ensures var first := LocalSegment(username);
      && first <= username && ':' !in first && (first != username ==> username[|first|] == ':')
    ensures var last := RemoteSegment(username);
      && |last| <= |username| && username[|username| - |last|..] == last && ':' !in last
      && (last != username ==> |last| < |username| && username[|username| - |last| - 1] == ':')
  {
    JoinUndoesSplit(username, ':');
    var parts := Split(username, ':');
    assert parts[0] in parts && parts[|parts| - 1] in parts;
    JoinStarts(parts);
    JoinEnds(parts);
    assert LocalSegment(username) == parts[0] && RemoteSegment(username) == parts[|parts| - 1];
    hide LocalSegment, RemoteSegment, Split, Join;
  }

  lemma JoinStarts(parts: seq<string>)
    requires |parts| > 0
    ensures parts[0] <= Join(parts, ":")
    ensures parts[0] != Join(parts, ":") ==> Join(parts, ":")[|parts[0]|] == ':'
  {}

  lemma {:induction false} JoinEnds(parts: seq<string>)
    requires |parts| > 0
    ensures var all, last := Join(parts, ":"), parts[|parts| - 1];
      && |last| <= |all| && all[|all| - |last|..] == last
      && (last != all ==> |last| < |all| && all[|all| - |last| - 1] == ':')
  {
    if |parts| > 1 {
      JoinEnds(parts[1..]);
    }
  }

  /** The username of a check: the remote ufrag before the colon, one's own after it. */
  lemma UsernameForm(remote: string, local: string)
    ensures Username(Credentials(remote, remote), Credentials(local, local)) == remote + ":" + local
    ensures ':' !in local ==> RemoteSegment(remote + ":" + local) == local
    ensures ':' !in remote ==> LocalSegment(remote + ":" + local) == remote
  {
    SplitAtSeparator(remote, local, ':');
    if ':' !in local {
      SplitOfFree(local, ':');
    }
    if ':' !in remote {
      SplitOfFree(remote, ':');
    }
  }

  /** Through the whole pipeline a fingerprint comes back unchanged: printed, stripped to a ufrag, sent
      as the last segment of a username, split off, decoded into the reported address, read back by
      the upgrade from its last component and printed again. */
  lemma FingerprintRoundTrip(h: Hash, localUfrag: string, source: SocketAddr, stun: bool)
    ensures var p := Packet(source, stun, Some(localUfrag + [COLON] + ToUfrag(ToString(h))));
      && Announcement(p) == Some(ReportedAddr(source, h))
      && LastHash(ReportedAddr(source, h)) == Some(h)
      && ToString(LastHash(ReportedAddr(source, h)).value) == ToString(h)
      && SocketAddrOf(ReportedAddr(source, h)) == Some(source)
      && (Free(localUfrag, COLON) ==> LocalSegment(p.username.value) == localUfrag)
  {
    UfragDecodes(h);
    UsernameSegments(localUfrag, ToUfrag(ToString(h)));
    StripIsIdentityOnFree(ToUfrag(ToString(h)), COLON);
    ReportedAddrAccepted(source, h);
  }

  // ---- from the first packet to a routed connection ----------------------------------

  /** A dialer whose address carries the listener's fingerprint sends its first check. The mux reports an
      address from which the listener's upgrade recovers the source and the dialer's fingerprint;
      once the listener's agent has asked for its connection the same check reaches it; and after
      that connection has answered, every packet from the source does. */
  lemma FirstContact<C>(m: Mux<C>, dialer: Hash, listener: Hash, source: SocketAddr, made: C, later: Packet,
                        accepted: bool)
    requires WellFormed(m) && m.listening && !m.closed && made !in m.key
    requires source !in m.addressMap && source !in m.newAddrs && ToUfrag(ToString(listener)) !in m.conns
    requires later.source == source
    ensures var key := BuildSettings(source, ToString(listener)).local.ufrag;
      var check := Packet(source, true, Some(Username(Render(source, ToString(listener)).remote,
                                                      BuildSettings(source, ToString(dialer)).local)));
      var (m1, reported) := Receive(m, check, true);
      && reported == Reported(ReportedAddr(source, dialer))
      && Upgradable(ReportedAddr(source, dialer)) && SocketAddrOf(ReportedAddr(source, dialer)) == Some(source)
      && LastHash(ReportedAddr(source, dialer)) == Some(dialer)
      && var (m2, conn) := GetConn(m1, key, made, true);
         conn == Ok(made) && Receive(m2, check, accepted) == (m2, Routed(made))
         && Known(m2) && made in m2.key
         && var m3 := SendTo(m2, made, source);
            Receive(m3, later, accepted) == (m3, Routed(made)) && source !in m3.newAddrs
  {
    var key := ToUfrag(ToString(listener));
    var username := key + [COLON] + ToUfrag(ToString(dialer));
    var check := Packet(source, true, Some(username));
    UfragDecodes(listener);
    FingerprintRoundTrip(dialer, key, source, true);
    hide ToUfrag, ToString, Announcement, LocalSegment, Upgradable, LastHash, SocketAddrOf;
    ReportedAddrAccepted(source, dialer);
    var m1 := MarkReported(m, source);
    assert Receive(m, check, true) == (m1, Reported(ReportedAddr(source, dialer)));
    ContactGrows(m1, key, made, check, later, accepted);
  }

  /** All dialers of one listener name the same ufrag, so while its connection is live a check from any
      source goes to that connection (or to the source's own route) and no new address is reported. */
  lemma LiveUfragAbsorbsChecks<C>(m: Mux<C>, dialer: Hash, listener: Hash, source: SocketAddr, accepted: bool)
    requires m.listening && ToUfrag(ToString(listener)) in m.conns
    ensures var check := Packet(source, true, Some(Username(Render(source, ToString(listener)).remote,
                                                            BuildSettings(source, ToString(dialer)).local)));
      Receive(m, check, accepted) == (m, Routed(if source in m.addressMap then m.addressMap[source]
                                                else m.conns[ToUfrag(ToString(listener))]))
  {
    UfragDecodes(listener);
    UfragDecodes(dialer);
    UsernameSegments(ToUfrag(ToString(listener)), ToUfrag(ToString(dialer)));
    hide ToUfrag, ToString, Announcement, LocalSegment;
  }

  /** The check of a dialer that knows the listener's fingerprint makes the mux report its address, with the
      dialer's fingerprint, if and only if the worker listens, the source is neither routed nor reported
      and no connection is live under the listener's ufrag. */
  lemma ReportedExactly<C>(m: Mux<C>, dialer: Hash, listener: Hash, source: SocketAddr)
    ensures var check := Packet(source, true, Some(Username(Render(source, ToString(listener)).remote,
                                                            BuildSettings(source, ToString(dialer)).local)));
      var outcome := Receive(m, check, true).1;
      && (outcome.Reported? <==>
            && m.listening && source !in m.addressMap && source !in m.newAddrs
            && ToUfrag(ToString(listener)) !in m.conns)
      && (outcome.Reported? ==> outcome.addr == ReportedAddr(source, dialer))
  {
    UfragDecodes(listener);
    FingerprintRoundTrip(dialer, ToUfrag(ToString(listener)), source, true);
    hide ToUfrag, ToString, Announcement, LocalSegment;
  }

  lemma ContactGrows<C>(m: Mux<C>, key: string, made: C, check: Packet, later: Packet, accepted: bool)
    requires Known(m) && m.listening && !m.closed && made !in m.key && key !in m.conns
    requires check.stun && check.username.Some? && LocalSegment(check.username.value) == key
    requires check.source !in m.addressMap && later.source == check.source
    ensures var (m2, conn) := GetConn(m, key, made, true);
      conn == Ok(made) && Receive(m2, check, accepted) == (m2, Routed(made))
      && Known(m2) && made in m2.key
      && var m3 := SendTo(m2, made, check.source);
         Receive(m3, later, accepted) == (m3, Routed(made)) && check.source !in m3.newAddrs
  {
    hide Announcement, LocalSegment;
    var m2 := InsertConn(m, key, made);
    assert Known(m2);
    SendToEffect(m2, made, check.source);
  }
}
