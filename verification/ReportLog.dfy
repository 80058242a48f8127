/** The history of address reports: what was sent on the channel and what made the mux forget it. */
module ReportLog {
  import opened Addresses

  datatype Event =
    | Sent(addr: SocketAddr)    // a successful `try_send`
    | Forgot(addr: SocketAddr)  // a registration removed the address from `new_addrs`
    | Cleared                   // `close` emptied `new_addrs`

  predicate Forgets(e: Event, a: SocketAddr) {
    e == Forgot(a) || e == Cleared
  }

  /** `a` was sent and nothing since then made the mux forget it. */
  predicate Outstanding(log: seq<Event>, a: SocketAddr) {
    if log == [] then false
    else
      var e := log[|log| - 1];
      e == Sent(a) || (!Forgets(e, a) && Outstanding(log[..|log| - 1], a))
  }

  /** The same, by position: some report of `a` has nothing after it that forgets `a`. */
  ghost predicate SentSinceForgotten(log: seq<Event>, a: SocketAddr) {
    exists i :: 0 <= i < |log| && log[i] == Sent(a) && forall j :: i < j < |log| ==> !Forgets(log[j], a)
  }

  lemma {:induction false} OutstandingMeans(log: seq<Event>, a: SocketAddr)
    ensures Outstanding(log, a) <==> SentSinceForgotten(log, a)
  {
    if log != [] {
      var before := log[..|log| - 1];
      var e := log[|log| - 1];
      OutstandingMeans(before, a);
      if e == Sent(a) {
        assert log[|log| - 1] == Sent(a);
      } else if Outstanding(log, a) {
        var i :| 0 <= i < |before| && before[i] == Sent(a) && forall j :: i < j < |before| ==> !Forgets(before[j], a);
        assert log[i] == Sent(a);
        assert forall j :: i < j < |log| ==> log[j] == if j < |before| then before[j] else e;
      }
    }
  }

  lemma OutstandingAfter(log: seq<Event>, e: Event, a: SocketAddr)
    ensures Outstanding(log + [e], a) <==> e == Sent(a) || (!Forgets(e, a) && Outstanding(log, a))
  {
    assert (log + [e])[..|log|] == log;
  }

  /** Between two reports of one address the mux forgot it. */
  ghost predicate AtMostOnce(log: seq<Event>) {
    forall i, j :: 0 <= i < j < |log| && log[i].Sent? && log[j] == log[i] ==>
      exists k :: i < k < j && Forgets(log[k], log[i].addr)
  }

  lemma AtMostOnceAfter(log: seq<Event>, e: Event)
    requires AtMostOnce(log)
    requires e.Sent? ==> !Outstanding(log, e.addr)
    ensures AtMostOnce(log + [e])
  {
    var longer := log + [e];
    forall i, j | 0 <= i < j < |longer| && longer[i].Sent? && longer[j] == longer[i]
      ensures exists k :: i < k < j && Forgets(longer[k], longer[i].addr)
    {
      if j < |log| {
        assert log[i].Sent? && log[j] == log[i];
        var k :| i < k < j && Forgets(log[k], log[i].addr);
        assert Forgets(longer[k], longer[i].addr);
      } else {
        OutstandingMeans(log, e.addr);
        assert log[i] == Sent(e.addr);
        var k :| i < k < |log| && Forgets(log[k], e.addr);
        assert Forgets(longer[k], longer[i].addr);
      }
    }
  }
}
