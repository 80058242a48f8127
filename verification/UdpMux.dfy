/**
 The UDP mux as it runs: mutable maps over heap-allocated connections shared between them. Every
 method is proved against the operation of the same name on the mux's abstract state.
*/
module UdpMux {
  import opened Wrappers
  import opened Addresses
  import opened MuxState

  /** A connection of the ICE library; the mux sees its key, its address set and its closing. */
  class UDPMuxConn {
    const key: Ufrag
    var addresses: set<SocketAddr>
    var isClosed: bool

    constructor (key: Ufrag)
      ensures this.key == key && addresses == {} && !isClosed
    {
      this.key := key;
      addresses := {};
      isClosed := false;
    }

    method RemoveAddress(addr: SocketAddr)
      modifies this`addresses
      ensures addresses == old(addresses) - {addr}
    {
      addresses := addresses - {addr};
    }

    method Close()
      modifies this`isClosed
      ensures isClosed
    {
      isClosed := true;
    }
  }

  class UDPMuxNewAddr {
    var conns: map<Ufrag, UDPMuxConn>
    var addressMap: map<SocketAddr, UDPMuxConn>
    var newAddrs: set<SocketAddr>
    var closedWatchTx: Option<()>
    var listening: bool
    var watchers: map<UDPMuxConn, nat>
    ghost var model: Mux<UDPMuxConn>

    /** Every connection ever created, including the ones that were removed. */
    ghost function Created(): set<UDPMuxConn>
      reads this
    {
      model.key.Keys
    }

    /** The fields, and those of the connections, are what the model says. */
    ghost predicate Represents()
      reads this, Created()
    {
      && conns == model.conns && addressMap == model.addressMap && newAddrs == model.newAddrs
      && closedWatchTx.None? == model.closed && listening == model.listening && watchers == model.watchers
      && model.addresses.Keys == model.key.Keys
      && forall c {:trigger c in model.key} :: c in model.key ==> Mirrors(c)
    }

    ghost predicate Mirrors(c: UDPMuxConn)
      requires c in model.key && model.addresses.Keys == model.key.Keys
      reads this, c
    {
      c.key == model.key[c] && c.addresses == model.addresses[c] && (c.isClosed <==> c in model.shut)
    }

    ghost predicate Valid()
      reads this, Created()
    {
      && Represents()
      && WellFormed(model)
    }

    constructor ()
      ensures Valid() && model == Initial()
    {
      conns, addressMap, newAddrs := map[], map[], {};
      closedWatchTx := Some(());
      listening := true;
      watchers := map[];
      model := Initial();
    }

    // ---- lock-delimited sections ------------------------------------------

    method IsClosed() returns (r: bool)
      requires Represents()
      ensures r == model.closed
    {
      r := closedWatchTx.None?;
    }

    method InsertConn(ufrag: Ufrag) returns (conn: UDPMuxConn)
      requires Represents()
      modifies this
      ensures Represents() && fresh(conn) && conn !in old(model).key
      ensures model == MuxState.InsertConn(old(model), ufrag, conn)
    {
      conn := new UDPMuxConn(ufrag);
      watchers := Spawn(watchers, conn);
      conns := conns[ufrag := conn];
      model := MuxState.InsertConn(model, ufrag, conn);
    }

    method TakeConn(ufrag: Ufrag) returns (conn: Option<UDPMuxConn>)
      requires Represents()
      modifies this
      ensures Represents()
      ensures conn == if ufrag in old(model).conns then Some(old(model).conns[ufrag]) else None
      ensures model == MuxState.TakeConn(old(model), ufrag)
    {
      conn := if ufrag in conns then Some(conns[ufrag]) else None;
      conns := conns - {ufrag};
      model := MuxState.TakeConn(model, ufrag);
    }

    method EraseEntries(conn: UDPMuxConn)
      requires Represents() && conn in Created()
      modifies this
      ensures Represents()
      ensures model == MuxState.EraseEntries(old(model), old(model).addresses[conn])
    {
      assert Mirrors(conn);
      ghost var entries := addressMap;
      var rest := conn.addresses;
      while rest != {}
        invariant rest <= conn.addresses
        invariant addressMap == entries - (conn.addresses - rest)
        modifies this`addressMap
        decreases rest
      {
        var address :| address in rest;
        addressMap := addressMap - {address};
        rest := rest - {address};
      }
      model := MuxState.EraseEntries(model, conn.addresses);
    }

    /** Points the entry for `addr` at `conn`. */
    method SetEntry(conn: UDPMuxConn, addr: SocketAddr)
      requires Represents()
      modifies this
      ensures Represents() && model == MuxState.SetEntry(old(model), conn, addr)
    {
      addressMap := addressMap[addr := conn];
      model := MuxState.SetEntry(model, conn, addr);
    }

    method RemoveAddress(conn: UDPMuxConn, addr: SocketAddr)
      requires Represents() && conn in Created()
      modifies this`model, conn
      ensures Represents() && model == DropAddress(old(model), conn, addr)
    {
      conn.RemoveAddress(addr);
      model := DropAddress(model, conn, addr);
    }

    method PutEntry(conn: UDPMuxConn, addr: SocketAddr)
      requires Represents() && Known(model) && conn in Created()
      modifies this, Created()
      ensures Represents() && model == MuxState.PutEntry(old(model), conn, addr)
    {
      assert Mirrors(conn);
      assert addressMap == model.addressMap;
      if addr in addressMap {
        var e := addressMap[addr];
        assert Mirrors(e);
        hide Represents;
        if e.key != conn.key {
          RemoveAddress(e, addr);
          SetEntry(conn, addr);
        }
      } else {
        hide Represents;
        SetEntry(conn, addr);
      }
    }

    method Forget(addr: SocketAddr)
      requires Represents()
      modifies this
      ensures Represents() && model == MuxState.Forget(old(model), addr)
    {
      newAddrs := newAddrs - {addr};
      model := MuxState.Forget(model, addr);
    }

    method TakeSender() returns (taken: bool)
      requires Represents()
      modifies this
      ensures Represents() && taken == !old(model).closed
      ensures model == old(model).(closed := true)
    {
      taken := closedWatchTx.Some?;
      closedWatchTx := None;
      model := model.(closed := true);
    }

    /** Closes every connection of the map, in any order. */
    method CloseAll(oldConns: map<Ufrag, UDPMuxConn>)
      modifies oldConns.Values`isClosed
      ensures forall c :: c in oldConns.Values ==> c.isClosed
    {
      var rest := oldConns.Keys;
      while rest != {}
        invariant rest <= oldConns.Keys
        invariant forall u :: u in oldConns.Keys - rest ==> oldConns[u].isClosed
        decreases rest
      {
        var ufrag :| ufrag in rest;
        oldConns[ufrag].Close();
        rest := rest - {ufrag};
      }
    }

    method DrainConns()
      requires Represents() && forall u :: u in model.conns ==> model.conns[u] in model.key
      modifies this, Created()
      ensures Represents() && model == MuxState.DrainConns(old(model))
    {
      var oldConns := conns;
      conns := map[];
      CloseAll(oldConns);
      model := MuxState.DrainConns(model);
      forall c | c in model.key ensures Mirrors(c) {
        assert old(Mirrors(c));
      }
    }

    method DrainAddresses()
      requires Represents()
      modifies this
      ensures Represents() && model == old(model).(addressMap := map[], newAddrs := {})
    {
      addressMap := map[];
      newAddrs := {};
      model := model.(addressMap := map[], newAddrs := {});
    }

    method MarkReported(addr: SocketAddr)
      requires Represents()
      modifies this
      ensures Represents() && model == MuxState.MarkReported(old(model), addr)
    {
      newAddrs := newAddrs + {addr};
      model := MuxState.MarkReported(model, addr);
    }

    method Stop()
      requires Represents()
      modifies this
      ensures Represents() && model == old(model).(listening := false)
    {
      listening := false;
      model := model.(listening := false);
    }

    // ---- the mux's interface -----------------------------------------------

    method GetConn(ufrag: Ufrag, localAddr: bool) returns (r: Result<UDPMuxConn, Error>)
      requires Valid()
      modifies this
      ensures Valid()
      ensures r.Ok? ==> (model, r) == MuxState.GetConn(old(model), ufrag, r.value, localAddr)
      ensures r.Err? ==> forall made :: (model, r) == MuxState.GetConn(old(model), ufrag, made, localAddr)
      ensures r.Ok? && ufrag !in old(model).conns ==> fresh(r.value) && r.value !in old(model).key
    {
      var closed := IsClosed();
      if closed {
        return Err(ErrUseClosedNetworkConn);
      }
      if ufrag in conns {
        return Ok(conns[ufrag]);
      }
      if !localAddr {
        return Err(ErrLocalAddr);
      }
      hide Represents, WellFormed;
      var muxedConn := InsertConn(ufrag);
      GetConnKeeps(old(model), ufrag, muxedConn, localAddr);
      return Ok(muxedConn);
    }

    method RemoveConnByUfrag(ufrag: Ufrag)
      requires Valid()
      modifies this
      ensures Valid() && model == RemoveConn(old(model), ufrag)
    {
      RemoveKeeps(model, ufrag);
      assert ufrag in model.conns ==> model.conns[ufrag] in model.key;
      assert ufrag !in model.conns ==> MuxState.TakeConn(model, ufrag) == model;
      hide Represents, WellFormed;
      var conn := TakeConn(ufrag);
      if conn.Some? {
        EraseEntries(conn.value);
      }
    }

    /** The connection has already put the address in its own set when it calls this. */
    method RegisterConnForAddress(conn: UDPMuxConn, addr: SocketAddr)
      requires Valid() && conn in Created() && addr in conn.addresses
      modifies this, Created()
      ensures Valid() && model == Register(old(model), conn, addr)
    {
      assert Mirrors(conn);
      RegisterKeeps(model, conn, addr);
      hide Represents, WellFormed;
      var closed := IsClosed();
      if closed {
        return;
      }
      PutEntry(conn, addr);
      Forget(addr);
    }

    /** What a connection does before it writes to `addr`. */
    method SendTo(conn: UDPMuxConn, addr: SocketAddr)
      requires Valid() && conn in Created()
      modifies this, Created()
      ensures Valid() && model == MuxState.SendTo(old(model), conn, addr)
    {
      assert Mirrors(conn);
      if addr !in conn.addresses {
        AddAddressKeeps(model, conn, addr);
        hide WellFormed;
        conn.addresses := conn.addresses + {addr};
        model := AddAddress(model, conn, addr);
        RegisterConnForAddress(conn, addr);
      }
    }

    method Close() returns (r: Result<(), Error>)
      requires Valid()
      modifies this, Created()
      ensures Valid() && (model, r) == MuxState.Close(old(model))
      ensures r == if old(closedWatchTx.None?) then Err(ErrAlreadyClosed) else Ok(())
      ensures old(closedWatchTx.Some?) ==>
        closedWatchTx.None? && conns == map[] && addressMap == map[] && newAddrs == {}
      ensures old(closedWatchTx.Some?) ==> forall c :: c in old(conns).Values ==> c.isClosed
      ensures forall c :: c in Created() && (old(closedWatchTx.None?) || c !in old(conns).Values) ==>
                c.isClosed == old(c.isClosed)
    {
      CloseKeeps(model);
      assert forall u :: u in model.conns ==> model.conns[u] in model.key;
      hide Represents, WellFormed;
      var closed := IsClosed();
      if closed {
        return Err(ErrAlreadyClosed);
      }
      var taken := TakeSender();
      if taken {
        DrainConns();
        DrainAddresses();
      }
      return Ok(());
    }

    method ConnFromStunMessage(p: Packet) returns (r: Option<UDPMuxConn>)
      requires Represents()
      ensures r == if p.username.Some? && LocalSegment(p.username.value) in model.conns
                   then Some(model.conns[LocalSegment(p.username.value)]) else None
    {
      match p.username {
        case Some(username) =>
          var ufrag := LocalSegment(username);
          return if ufrag in conns then Some(conns[ufrag]) else None;
        case None => return None;
      }
    }

    method FindConn(p: Packet) returns (r: Option<UDPMuxConn>)
      requires Represents()
      ensures r == MuxState.Lookup(model, p)
    {
      r := if p.source in addressMap then Some(addressMap[p.source]) else None;
      if r.None? && p.stun {
        r := ConnFromStunMessage(p);
      }
    }

    method IsReported(addr: SocketAddr) returns (r: bool)
      requires Represents()
      ensures r == (addr in model.newAddrs)
    {
      r := addr in newAddrs;
    }

    /** One received datagram. */
    method HandlePacket(p: Packet, accepted: bool) returns (o: Outcome<UDPMuxConn>)
      requires Valid() && model.listening
      modifies this
      ensures Valid() && (model, o) == Receive(old(model), p, accepted)
    {
      ReceiveKeeps(model, p, accepted);
      hide Represents, WellFormed, Announcement, Lookup;
      var conn := FindConn(p);
      if conn.Some? {
        return Routed(conn.value);
      }
      var reported := IsReported(p.source);
      if reported {
        return AlreadyReported;
      }
      if p.username.None? {
        return Undecodable;
      }
      var announcement := Announcement(p);
      if announcement.None? {
        Stop();
        return Panicked;
      }
      if !accepted {
        return SendFailed(announcement.value);
      }
      MarkReported(p.source);
      return Reported(announcement.value);
    }

    /** The receive worker, on everything its socket yields until it stops. */
    method Worker(inputs: seq<Input>) returns (outcomes: seq<Outcome<UDPMuxConn>>)
      requires Valid()
      modifies this
      ensures Valid() && (model, outcomes) == Work(old(model), inputs)
    {
      hide WellFormed, Receive;
      outcomes := [];
      var i := 0;
      while i < |inputs| && listening
        invariant 0 <= i <= |inputs|
        invariant Valid()
        invariant Work(old(model), inputs).0 == Work(model, inputs[i..]).0
        invariant Work(old(model), inputs).1 == outcomes + Work(model, inputs[i..]).1
      {
        assert inputs[i..][1..] == inputs[i + 1..];
        match inputs[i] {
          case Datagram(p, accepted) =>
            var o := HandlePacket(p, accepted);
            outcomes := outcomes + [o];
          case TimedOut =>
          case Broken =>
            StopKeeps(model);
            Stop();
          case CloseSignal =>
            StopKeeps(model);
            Stop();
        }
        i := i + 1;
      }
      assert Work(model, inputs[i..]) == (model, []);
      assert outcomes + [] == outcomes;
    }
  }
}
