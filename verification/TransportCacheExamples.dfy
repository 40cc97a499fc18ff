/** Runs that show which exceptions in the properties of the transport cache are real. */
module TransportCacheExamples {
  import opened Common
  import opened TransportCache
  import opened TransportCacheRuns
  import opened TransportCacheTheorems
  import opened LostConnections

  /**
  Plain requests share the "host:443" key and record no kind. A plain request that builds an HTTP/1 transport between
  the two halves of a drop makes the key stale. An https request that comes in then finds that transport, and its
  reconnect, by the last-built transport, is handed an HTTP/2 connection.
  */
  lemma PlainHttpBreaksKinds(a: Key) returns (s: State)
    requires a.Tcp?
    ensures Reachable(s) && 4 in s.procs && s.procs[4] == DialGot(1, HTTP2, 1, 1, true)
    ensures 5 in s.procs && s.procs[5] == ReqUse(a, 1, Https)
    ensures a in s.d.latest && s.d.latest[a] == 1 && 1 in s.d.built && s.d.built[1] == Transport(a, HTTP1)
    ensures s.rtOwner.None? && a in s.d.stale && a in s.d.kinds && s.d.kinds[a] == HTTP2
  {
    var s1 := ReachWindow(a);
    var s2 := PlainRun(s1, 3, a);
    var s3 := HitRun(s2, 5, a);
    var s4 := DialRun(s3, 4, 5, 1, "h2");
    s := JudgeRun(s4, 4, 1, "h2");
  }

  /** A server negotiates h3 on TCP and the HTTP/3 transport cannot be built: the connection is lost. */
  lemma FailedBuildLoses(a: Key) returns (s: State)
    requires a.Tcp?
    ensures Reachable(s) && s.conns == [Conn(a, HTTP3, Leaked)] && Lost(s, 0)
  {
    assert Run([]) == Some(Init);
    var s1 := SetupRun(Init, 0, a, "h3");
    s := Advance(s1, 0, BuildFails, Init.procs, ReqError(a));
  }

  /** The HTTP/3 transport is built: the connection is stashed beside it, and lost, since that transport never dials. */
  lemma BuiltTransportLoses(a: Key) returns (s: State)
    requires a.Tcp?
    ensures Reachable(s) && s.conns == [Conn(a, HTTP3, Waiting)] && a in s.d.stash && a in s.d.transports && Lost(s, 0)
  {
    assert Run([]) == Some(Init);
    var s1 := SetupRun(Init, 0, a, "h3");
    s := BuildRun(s1, 0, a, "h3");
    assert s.d.built == map[0 := Transport(a, HTTP3)];
  }

  predicate Ended(pc: Pc) {
    pc.ReqDone? || pc.DialGot? || pc.DialFailed?
  }

  lemma NobodyInside(s: State, x: Cid)
    requires x < |s.conns| && s.conns[x].kind == HTTP3 && s.conns[x].fate.Waiting?
    requires forall p :: p in s.procs ==> Ended(s.procs[p])
    ensures Lost(s, x)
  {
  }

  /** Transport 0, an HTTP/2 transport, has met http/1.1 on a redial and been dropped; all processes have ended. */
  lemma ReachDropped(a: Key) returns (s: State)
    requires a.Tcp?
    ensures Idle(s) && s.procs.Keys == {0, 1, 2} && forall p :: p in s.procs ==> Ended(s.procs[p])
    ensures a !in s.d.transports && a !in s.d.stash && s.d.next == 1
    ensures 0 in s.d.built && s.d.built[0] == Transport(a, HTTP2)
  {
    var s1 := ReachWindow(a);
    s := RestDropRun(s1, 0, a);
  }

  /** The next request sets HTTP/3 up and ends. */
  lemma Http3Run(s: State, p: Pid, a: Key) returns (s': State)
    requires Idle(s) && p !in s.procs && a.Tcp? && a !in s.d.transports && a !in s.d.stash
    requires s.d.next !in s.d.built
    ensures Idle(s') && s'.procs == s.procs[p := ReqDone] && s'.conns == s.conns + [Conn(a, HTTP3, Waiting)]
    ensures forall t :: t in s.d.built ==> t in s'.d.built && s'.d.built[t] == s.d.built[t]
  {
    var s1 := SetupRun(s, p, a, "h3");
    var s2 := BuildRun(s1, p, a, "h3");
    s' := FinishRun(s2, p);
    assert s'.procs == s.procs[p := ReqDone];
  }

  /**
  An earlier transport of the address does not help once it has been dropped and nobody is inside it: the next request
  sets HTTP/3 up and ends. All processes have ended, and the connection of that setup stays stashed for good.
  */
  lemma DroppedTransportLoses(a: Key) returns (s: State, x: Cid)
    requires a.Tcp?
    ensures Reachable(s) && x < |s.conns| && s.conns[x] == Conn(a, HTTP3, Waiting) && Lost(s, x)
    ensures 0 in s.d.built && s.d.built[0] == Transport(a, HTTP2)
    ensures forall p :: p in s.procs ==> Ended(s.procs[p])
  {
    var s1 := ReachDropped(a);
    ReachableInv(s1);
    s := Http3Run(s1, 3, a);
    x := |s1.conns|;
    NobodyInside(s, x);
  }

  /** Unless a request is still inside it: its dial is handed the connection, whatever the transport speaks. */
  lemma EarlierTransportTakes(a: Key) returns (s: State)
    requires a.Tcp?
    ensures Reachable(s) && 4 in s.procs && s.procs[4] == DialGot(0, HTTP3, 1, 1, false)
    ensures 5 in s.procs && s.procs[5] == ReqUse(a, 0, Https)
    ensures 0 in s.d.built && s.d.built[0] == Transport(a, HTTP2)
    ensures exists x :: 0 <= x < |s.conns| && s.conns[x] == Conn(a, HTTP3, Handed(0))
  {
    var s1 := ReachWindowInside(a);
    var s2 := SetupRun(s1, 3, a, "h3");
    var s3 := BuildRun(s2, 3, a, "h3");
    s := TakeRun(s3, 4, 5, 0, a);
    var x := |s1.conns|;
    assert s.conns[x] == Conn(a, HTTP3, Handed(0));
  }
}
