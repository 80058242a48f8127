/** Socket addresses, multiaddresses and the conversions between them. */
module Addresses {
  import opened Wrappers
  import opened Fingerprint

  type Port = n: nat | n < 0x1_0000

  datatype IpAddr = V4(bits: nat) | V6(bits: nat) {
    predicate IsUnspecified()
      ensures IsUnspecified() <==> this == V4(0) || this == V6(0)
    {
      bits == 0
    }
  }

  datatype SocketAddr = SocketAddr(ip: IpAddr, port: Port)

  /** A peer identity, compared only for equality. */
  type PeerId = nat

  /** The protocol components that matter here; `Other` stands for all the remaining ones. */
  datatype Protocol =
    | Ip4(bits: nat)
    | Ip6(bits: nat)
    | Udp(port: Port)
    | XWebRTC(hash: Hash)
    | P2p(peer: PeerId)
    | Other(code: nat)

  type Multiaddr = seq<Protocol>

  function FromIp(ip: IpAddr): Protocol {
    match ip
    case V4(bits) => Ip4(bits)
    case V6(bits) => Ip6(bits)
  }

  predicate IsIp(p: Protocol) {
    p.Ip4? || p.Ip6?
  }

  function ToIp(p: Protocol): IpAddr
    requires IsIp(p)
  {
    match p
    case Ip4(bits) => V4(bits)
    case Ip6(bits) => V6(bits)
  }

  /** `ip_to_multiaddr` */
  function IpToMultiaddr(ip: IpAddr, port: Port): Multiaddr {
    [FromIp(ip), Udp(port)]
  }

  /** The address the mux reports for a packet from `source` whose sender has fingerprint `hash`. */
  function ReportedAddr(source: SocketAddr, hash: Hash): Multiaddr {
    IpToMultiaddr(source.ip, source.port) + [XWebRTC(hash)]
  }

  /** ip / udp / x-webrtc followed by any number of p2p components, and nothing else. */
  ghost predicate IsWebrtc(addr: Multiaddr) {
    && |addr| >= 3
    && IsIp(addr[0]) && addr[1].Udp? && addr[2].XWebRTC?
    && forall i :: 3 <= i < |addr| ==> addr[i].P2p?
  }

  ghost function SocketAddrOf(addr: Multiaddr): Option<SocketAddr> {
    if IsWebrtc(addr) then Some(SocketAddr(ToIp(addr[0]), addr[1].port)) else None
  }

  /** `multiaddr_to_socketaddr` */
  method MultiaddrToSocketaddr(addr: Multiaddr) returns (r: Option<SocketAddr>)
    ensures r == SocketAddrOf(addr)
  {
    if |addr| < 3 {
      return None;
    }
    var proto1, proto2, proto3 := addr[0], addr[1], addr[2];
    for i := 3 to |addr|
      invariant forall j :: 3 <= j < i ==> addr[j].P2p?
    {
      match addr[i] {
        case P2p(_) =>
        case _ => return None;
      }
    }
    match (proto1, proto2, proto3) {
      case (Ip4(bits), Udp(port), XWebRTC(_)) => return Some(SocketAddr(V4(bits), port));
      case (Ip6(bits), Udp(port), XWebRTC(_)) => return Some(SocketAddr(V6(bits), port));
      case _ => return None;
    }
  }

  ghost predicate FirstHashAt(addr: Multiaddr, i: nat) {
    && i < |addr| && addr[i].XWebRTC?
    && forall j :: 0 <= j < i ==> !addr[j].XWebRTC?
  }

  /** `fingerprint_from_addr`: the first x-webrtc component, wherever it is. */
  method FingerprintFromAddr(addr: Multiaddr) returns (r: Option<Hash>)
    ensures r.Some? ==> exists i: nat :: FirstHashAt(addr, i) && addr[i].hash == r.value
    ensures r.None? ==> forall i :: 0 <= i < |addr| ==> !addr[i].XWebRTC?
  {
    for i := 0 to |addr|
      invariant forall j :: 0 <= j < i ==> !addr[j].XWebRTC?
    {
      match addr[i] {
        case XWebRTC(f) =>
          assert FirstHashAt(addr, i);
          return Some(f);
        case _ => continue;
      }
    }
    return None;
  }

  /** The fingerprint as the listener's upgrade reads it: only from the last component. */
  function LastHash(addr: Multiaddr): Option<Hash> {
    if |addr| > 0 && addr[|addr| - 1].XWebRTC? then Some(addr[|addr| - 1].hash) else None
  }

  /** `PeerId::try_from_multiaddr`: the peer named by the last component. */
  function LastPeer(addr: Multiaddr): Option<PeerId> {
    if |addr| > 0 && addr[|addr| - 1].P2p? then Some(addr[|addr| - 1].peer) else None
  }

  /** The printer that the grammar inverts. */
  function Build(socket: SocketAddr, hash: Hash, peers: seq<PeerId>): Multiaddr {
    ReportedAddr(socket, hash) + seq(|peers|, i requires 0 <= i < |peers| => P2p(peers[i]))
  }

  function PeersOf(addr: Multiaddr): seq<PeerId>
    requires forall i :: 0 <= i < |addr| ==> addr[i].P2p?
  {
    seq(|addr|, i requires 0 <= i < |addr| => addr[i].peer)
  }

  /** The accepted addresses are exactly the ones `Build` prints, and parsing inverts printing. */
  lemma GrammarInverse(addr: Multiaddr)
    ensures SocketAddrOf(addr).Some?
      <==> exists socket, hash, peers :: addr == Build(socket, hash, peers)
    ensures forall socket, hash, peers :: addr == Build(socket, hash, peers) ==>
      && SocketAddrOf(addr) == Some(socket)
      && FirstHashAt(addr, 2) && addr[2].hash == hash
      && |addr| == 3 + |peers|
  {
    if IsWebrtc(addr) {
      var socket := SocketAddrOf(addr).value;
      assert addr == Build(socket, addr[2].hash, PeersOf(addr[3..]));
    }
  }

  /** An accepted address has exactly one x-webrtc component, the third. */
  lemma OneFingerprint(addr: Multiaddr, i: nat)
    requires IsWebrtc(addr)
    ensures FirstHashAt(addr, 2)
    ensures i < |addr| ==> (addr[i].XWebRTC? <==> i == 2)
    ensures FirstHashAt(addr, i) <==> i == 2
    ensures LastHash(addr).Some? <==> |addr| == 3
    ensures LastHash(addr).Some? ==> LastHash(addr) == Some(addr[2].hash)
  {
    if i > 2 {
      assert addr[2].XWebRTC?;
    }
  }

  /** What `do_dial` demands of the address alone. */
  ghost predicate Diallable(addr: Multiaddr) {
    && SocketAddrOf(addr).Some?
    && SocketAddrOf(addr).value.port != 0
    && !SocketAddrOf(addr).value.ip.IsUnspecified()
    && LastPeer(addr).Some?
  }

  /** What `upgrade::webrtc` demands of the address alone. */
  ghost predicate Upgradable(addr: Multiaddr) {
    SocketAddrOf(addr).Some? && LastHash(addr).Some?
  }

  /** Upgradable addresses are exactly the ones the mux can report; none of them can be dialled, and
      a diallable one is an upgradable one followed by at least one peer. */
  lemma DialAndUpgradeGrammars(addr: Multiaddr)
    ensures Upgradable(addr) <==> exists socket, hash :: addr == ReportedAddr(socket, hash)
    ensures Upgradable(addr) ==> !Diallable(addr)
    ensures Diallable(addr) ==> |addr| > 3 && addr[2].XWebRTC?
    ensures Diallable(addr) ==> addr[..3] == ReportedAddr(SocketAddrOf(addr).value, addr[2].hash)
  {
    if Upgradable(addr) {
      OneFingerprint(addr, 2);
      var s := SocketAddrOf(addr).value;
      assert addr == ReportedAddr(s, addr[2].hash);
    }
  }

  /** The address reported for a packet parses back to the packet's source and the given hash. */
  lemma ReportedAddrAccepted(source: SocketAddr, hash: Hash)
    ensures Upgradable(ReportedAddr(source, hash))
    ensures SocketAddrOf(ReportedAddr(source, hash)) == Some(source)
    ensures LastHash(ReportedAddr(source, hash)) == Some(hash)
  {
    assert IsWebrtc(ReportedAddr(source, hash));
  }

  /** The conversions, component by component. */
  lemma ConversionsExactly(bits: nat, port: Port, hash: Hash, peers: seq<PeerId>)
    ensures IpToMultiaddr(V4(bits), port) == [Ip4(bits), Udp(port)]
    ensures IpToMultiaddr(V6(bits), port) == [Ip6(bits), Udp(port)]
    ensures Build(SocketAddr(V4(bits), port), hash, peers)[..3] == [Ip4(bits), Udp(port), XWebRTC(hash)]
    ensures SocketAddrOf([Ip4(bits), Udp(port), XWebRTC(hash)]) == Some(SocketAddr(V4(bits), port))
    ensures SocketAddrOf([Ip6(bits), Udp(port), XWebRTC(hash)]) == Some(SocketAddr(V6(bits), port))
  {
    assert IsWebrtc([Ip4(bits), Udp(port), XWebRTC(hash)]) && IsWebrtc([Ip6(bits), Udp(port), XWebRTC(hash)]);
  }

  /** The peer is named by the last component and by no other. */
  lemma LastPeerExactly(addr: Multiaddr, last: Protocol, peer: PeerId)
    ensures LastPeer(addr + [P2p(peer)]) == Some(peer)
    ensures LastPeer(addr + [last]).Some? <==> last.P2p?
    ensures LastPeer([]) == None
    ensures LastHash(addr + [last]).Some? <==> last.XWebRTC?
    ensures last.XWebRTC? ==> LastHash(addr + [last]) == Some(last.hash)
  {
    assert |addr + [last]| > 0 && (addr + [last])[|addr|] == last;
  }
}
