/** Runs of the transport cache, put together from short ones: what one process does when nobody interferes. */
module TransportCacheRuns {
  import opened Common
  import opened TransportCache

  /** One step of p, in a state that differs from procs only in where p is. */
  lemma Advance(s: State, p: Pid, c: Choice, procs: map<Pid, Pc>, pc: Pc) returns (s': State)
    requires Reachable(s) && s.procs[p := pc] == procs[p := pc]
    requires Step(s, p, c).Some? && Step(s, p, c).value.procs == s.procs[p := pc]
    ensures Reachable(s') && Some(s') == Step(s, p, c) && s'.procs == procs[p := pc]
  {
    s' := Step(s, p, c).value;
    ReachableIsLater(s);
    LaterStep(Init, s, s', p, c);
    ReachableIsLater(s');
  }

  /** A reachable state in which no lock is held. */
  ghost predicate Idle(s: State) {
    Reachable(s) && s.tOwner.None? && s.rtOwner.None? && s.kOwner.None?
  }

  /** Everything but locks and program counters is the same. */
  predicate Same(s: State, s': State) {
    s'.d == s.d && s'.conns == s.conns
  }

  // ----- A request

  /** A request comes in and takes cachedTransportsLck. */
  lemma ArriveRun(s: State, p: Pid, a: Key, scheme: Scheme) returns (s': State)
    requires Idle(s) && p !in s.procs && a.Tcp?
    ensures Reachable(s') && Same(s, s') && s'.procs == s.procs[p := ReqCheck(a, scheme)]
    ensures s'.tOwner == Some(p) && s'.rtOwner.None? && s'.kOwner.None?
  {
    var s1 := Advance(s, p, StartRequest(a.addr, scheme), s.procs, ReqStart(a, scheme));
    s' := Advance(s1, p, Go, s.procs, ReqCheck(a, scheme));
  }

  /** It finds nothing cached and takes the round tripper mutex. */
  lemma MissRun(s: State, p: Pid, a: Key) returns (s': State)
    requires Reachable(s) && p in s.procs && s.procs[p] == ReqCheck(a, Https) && a !in s.d.transports && s.rtOwner.None?
    ensures Reachable(s') && Same(s, s') && s'.procs == s.procs[p := SetupStash(a)]
    ensures s'.tOwner == s.tOwner && s'.rtOwner == Some(p) && s'.kOwner == s.kOwner
  {
    var s1 := Advance(s, p, Go, s.procs, SetupWait(a));
    s' := Advance(s1, p, Go, s.procs, SetupStash(a));
  }

  /** It completes a handshake. */
  lemma SetupDialRun(s: State, p: Pid, a: Key, protocol: string) returns (s': State)
    requires Reachable(s) && p in s.procs && s.procs[p] == SetupStash(a) && a !in s.d.stash
    ensures Reachable(s') && s'.procs == s.procs[p := SetupBuild(a, protocol)] && s'.d == s.d
    ensures s'.conns == s.conns + [Conn(a, KindForProtocol(protocol), InHand)]
    ensures s'.tOwner == s.tOwner && s'.rtOwner == s.rtOwner && s'.kOwner == s.kOwner
  {
    var s1 := Advance(s, p, Go, s.procs, SetupDial(a));
    s' := Advance(s1, p, Negotiates(protocol), s.procs, SetupBuild(a, protocol));
  }

  /** An https request that finds nothing cached dials and completes a handshake. */
  lemma SetupRun(s: State, p: Pid, a: Key, protocol: string) returns (s': State)
    requires Idle(s) && p !in s.procs && a.Tcp? && a !in s.d.transports && a !in s.d.stash
    ensures Reachable(s') && s'.procs == s.procs[p := SetupBuild(a, protocol)] && s'.d == s.d
    ensures s'.conns == s.conns + [Conn(a, KindForProtocol(protocol), InHand)]
    ensures s'.tOwner == s'.rtOwner == Some(p) && s'.kOwner.None?
  {
    var s1 := ArriveRun(s, p, a, Https);
    var s2 := MissRun(s1, p, a);
    s' := SetupDialRun(s2, p, a, protocol);
    assert s'.procs == s.procs[p := SetupBuild(a, protocol)];
  }

  /** It builds a transport and takes cachedKindsLck. */
  lemma BuildOnlyRun(s: State, p: Pid, a: Key, protocol: string) returns (s': State)
    requires Reachable(s) && p in s.procs && s.procs[p] == SetupBuild(a, protocol) && s.kOwner.None?
    ensures Reachable(s') && s'.procs == s.procs[p := SetupKind(a, s.d.next)]
    ensures s'.d == Build(s.d, a, KindForProtocol(protocol)) && s'.conns == s.conns
  {
    var s1 := Advance(s, p, Go, s.procs, SetupKindWait(a, s.d.next));
    s' := Advance(s1, p, Go, s.procs, SetupKind(a, s.d.next));
  }

  /** It records the kind and stashes the connection. */
  lemma StashRun(s: State, p: Pid, a: Key, t: Tid, kind: Kind) returns (s': State)
    requires Reachable(s) && p in s.procs && s.procs[p] == SetupKind(a, t)
    requires t in s.d.built && s.d.built[t].kind == kind
    ensures Reachable(s') && s'.procs == s.procs[p := ReqRead(a, Https)] && s'.rtOwner.None? && s'.kOwner.None?
    ensures s'.d == PutStash(SetKind(s.d, a, kind), a, kind, t, LastConn(s.conns))
    ensures s'.conns == Settle(s.conns, LastConn(s.conns), Waiting)
  {
    var s1 := Advance(s, p, Go, s.procs, SetupStore(a, t));
    s' := Advance(s1, p, Go, s.procs, ReqRead(a, Https));
  }

  /** It reads the cached transport and uses it. */
  lemma ReadRun(s: State, p: Pid, a: Key, scheme: Scheme) returns (s': State)
    requires Reachable(s) && p in s.procs && s.procs[p] == ReqRead(a, scheme) && a in s.d.transports
    requires s.rtOwner.None? && s.kOwner.None?
    ensures Idle(s') && Same(s, s') && s'.procs == s.procs[p := ReqUse(a, s.d.transports[a], scheme)]
  {
    s' := Advance(s, p, Go, s.procs, ReqUse(a, s.d.transports[a], scheme));
  }

  /** After the handshake of a setup: transport, kind and connection are stored. */
  lemma BuildRun(s: State, p: Pid, a: Key, protocol: string) returns (s': State)
    requires Reachable(s) && p in s.procs && s.procs[p] == SetupBuild(a, protocol) && s.kOwner.None?
    ensures Idle(s') && s'.procs == s.procs[p := ReqUse(a, s.d.next, Https)]
    ensures var kind := KindForProtocol(protocol);
            s'.d == PutStash(SetKind(Build(s.d, a, kind), a, kind), a, kind, s.d.next, LastConn(s.conns))
    ensures s'.conns == Settle(s.conns, LastConn(s.conns), Waiting)
  {
    var s1 := BuildOnlyRun(s, p, a, protocol);
    var s2 := StashRun(s1, p, a, s.d.next, KindForProtocol(protocol));
    s' := ReadRun(s2, p, a, Https);
    assert s'.procs == s.procs[p := ReqUse(a, s.d.next, Https)];
  }

  /** An https request that finds a transport cached uses it. */
  lemma HitRun(s: State, p: Pid, a: Key) returns (s': State)
    requires Idle(s) && p !in s.procs && a.Tcp? && a in s.d.transports
    ensures Idle(s') && Same(s, s') && s'.procs == s.procs[p := ReqUse(a, s.d.transports[a], Https)]
  {
    var s1 := ArriveRun(s, p, a, Https);
    var s2 := Advance(s1, p, Go, s.procs, ReqRead(a, Https));
    s' := ReadRun(s2, p, a, Https);
    assert s'.procs == s.procs[p := ReqUse(a, s.d.transports[a], Https)];
  }

  /** A plain request that finds nothing cached builds an HTTP/1 transport under the same key. */
  lemma PlainRun(s: State, p: Pid, a: Key) returns (s': State)
    requires Idle(s) && p !in s.procs && a.Tcp? && a !in s.d.transports
    ensures Idle(s') && s'.procs == s.procs[p := ReqUse(a, s.d.next, Http)] && s'.d == BuildPlain(s.d, a)
  {
    var s1 := ArriveRun(s, p, a, Http);
    var s2 := Advance(s1, p, Go, s.procs, ReqRead(a, Http));
    s' := ReadRun(s2, p, a, Http);
    assert s'.procs == s.procs[p := ReqUse(a, s.d.next, Http)];
  }

  /** A request ends. */
  lemma FinishRun(s: State, p: Pid) returns (s': State)
    requires Idle(s) && p in s.procs && s.procs[p].ReqUse?
    ensures Idle(s') && Same(s, s') && s'.procs == s.procs[p := ReqDone]
  {
    s' := Advance(s, p, Finish, s.procs, ReqDone);
  }

  // ----- A reconnect

  /** Request q is inside transport t, for which t may dial. */
  predicate Inside(s: State, q: Pid, t: Tid) {
    q in s.procs && CanDial(s.d, s.procs[q]) && s.procs[q].t == t
  }

  lemma StartDialRun(s: State, p: Pid, q: Pid, t: Tid) returns (s': State)
    requires Idle(s) && p !in s.procs && Inside(s, q, t)
    ensures Reachable(s') && Same(s, s') && s'.procs == s.procs[p := DialStash(t)]
    ensures s'.tOwner.None? && s'.kOwner.None?
  {
    var s1 := Advance(s, p, StartDial(q), s.procs, DialWait(t));
    s' := Advance(s1, p, Go, s.procs, DialStash(t));
  }

  /** A reconnect takes the stashed connection. */
  lemma TakeRun(s: State, p: Pid, q: Pid, t: Tid, a: Key) returns (s': State)
    requires Idle(s) && p !in s.procs && Inside(s, q, t) && s.d.built[t].key == a && a in s.d.stash
    ensures Idle(s') && s'.d == TakeStash(s.d, a) && s'.conns == Settle(s.conns, s.d.stash[a].conn, Handed(t))
    ensures s'.procs == s.procs[p := DialGot(t, s.d.stash[a].kind, LastBuilt(s.d, a), LastBuilt(s.d, a), false)]
  {
    var s1 := StartDialRun(s, p, q, t);
    s' := Advance(s1, p, Go, s.procs, DialGot(t, s.d.stash[a].kind, LastBuilt(s.d, a), LastBuilt(s.d, a), false));
  }

  lemma HandshakeRun(s: State, p: Pid, t: Tid, protocol: string) returns (s': State)
    requires Reachable(s) && p in s.procs && s.procs[p] == DialStash(t)
    requires t in s.d.built && s.d.built[t].key !in s.d.stash
    ensures Reachable(s') && s'.procs == s.procs[p := DialKindWait(t, protocol)] && s'.d == s.d
    ensures s'.tOwner == s.tOwner && s'.kOwner == s.kOwner
  {
    var s1 := Advance(s, p, Go, s.procs, DialNet(t));
    s' := Advance(s1, p, Negotiates(protocol), s.procs, DialKindWait(t, protocol));
  }

  /** A reconnect that finds no stashed connection completes a handshake and asks for the recorded kind. */
  lemma DialRun(s: State, p: Pid, q: Pid, t: Tid, protocol: string) returns (s': State)
    requires Idle(s) && p !in s.procs && Inside(s, q, t) && s.d.built[t].key !in s.d.stash
    ensures Reachable(s') && s'.procs == s.procs[p := DialKind(t, protocol)] && s'.d == s.d && s'.tOwner.None?
  {
    var s1 := StartDialRun(s, p, q, t);
    var s2 := HandshakeRun(s1, p, t, protocol);
    s' := Advance(s2, p, Go, s.procs, DialKind(t, protocol));
  }

  /** What the reconnect ends with, given the kind recorded for its address. */
  function Verdict(d: Data, t: Tid, protocol: string): Pc
    requires t in d.built
  {
    var a := d.built[t].key;
    if a in d.kinds && d.kinds[a] == KindForProtocol(protocol) then
      DialGot(t, d.kinds[a], LastBuilt(d, a), LastBuilt(d, a), a in d.stale)
    else DialFailed(t)
  }

  /** The recorded kind of the address of t. */
  function Recorded(d: Data, t: Tid): Option<Kind>
    requires t in d.built
  {
    var a := d.built[t].key;
    if a in d.kinds then Some(d.kinds[a]) else None
  }

  function Lookup(d: Data, t: Tid, protocol: string): Pc
    requires t in d.built
  {
    var a := d.built[t].key;
    DialJudge(t, protocol, Recorded(d, t), LastBuilt(d, a), a in d.stale)
  }

  lemma LookupRun(s: State, p: Pid, t: Tid, protocol: string) returns (s': State)
    requires Reachable(s) && p in s.procs && s.procs[p] == DialKind(t, protocol) && t in s.d.built
    ensures Reachable(s') && Same(s, s') && s'.procs == s.procs[p := Lookup(s.d, t, protocol)]
    ensures s'.tOwner == s.tOwner && s'.kOwner.None?
  {
    s' := Advance(s, p, Go, s.procs, Lookup(s.d, t, protocol));
  }

  lemma VerdictRun(s: State, p: Pid, t: Tid, protocol: string) returns (s': State)
    requires Reachable(s) && p in s.procs && t in s.d.built && s.procs[p] == Lookup(s.d, t, protocol)
    requires s.tOwner.None? && s.kOwner.None?
    ensures Idle(s') && s'.procs == s.procs[p := Verdict(s.d, t, protocol)]
    ensures s'.d == if Verdict(s.d, t, protocol).DialGot? then s.d else Fail(s.d, t)
  {
    s' := Advance(s, p, Go, s.procs, Verdict(s.d, t, protocol));
  }

  lemma JudgeRun(s: State, p: Pid, t: Tid, protocol: string) returns (s': State)
    requires Reachable(s) && p in s.procs && s.procs[p] == DialKind(t, protocol) && t in s.d.built
    requires s.tOwner.None?
    ensures Idle(s') && s'.procs == s.procs[p := Verdict(s.d, t, protocol)]
    ensures s'.d == if Verdict(s.d, t, protocol).DialGot? then s.d else Fail(s.d, t)
  {
    var s1 := LookupRun(s, p, t, protocol);
    s' := VerdictRun(s1, p, t, protocol);
    assert s'.procs == s.procs[p := Verdict(s.d, t, protocol)];
  }

  // ----- A drop

  lemma StartDropRun(s: State, p: Pid, a: Key, t: Tid) returns (s': State)
    requires Idle(s) && p in s.procs && s.procs[p] == ReqUse(a, t, Https) && t in s.d.failed
    ensures Reachable(s') && Same(s, s') && s'.procs == s.procs[p := DropCheck(a, t)]
    ensures s'.rtOwner.None? && s'.kOwner.None?
  {
    var s1 := Advance(s, p, ProtocolChanged, s.procs, DropWait(a, t));
    s' := Advance(s1, p, Go, s.procs, DropCheck(a, t));
  }

  /** The first half of a drop. */
  lemma HalfDropRun(s: State, p: Pid, a: Key, t: Tid) returns (s': State)
    requires Idle(s) && p in s.procs && s.procs[p] == ReqUse(a, t, Https) && t in s.d.failed
    ensures Idle(s') && s'.procs == s.procs[p := DropKindWait(a)] && s'.d == DropTransport(s.d, a, t)
  {
    var s1 := StartDropRun(s, p, a, t);
    s' := Advance(s1, p, Go, s.procs, DropKindWait(a));
  }

  /** The second half of a drop. */
  lemma RestDropRun(s: State, p: Pid, a: Key) returns (s': State)
    requires Idle(s) && p in s.procs && s.procs[p] == DropKindWait(a)
    ensures Idle(s') && s'.procs == s.procs[p := ReqDone] && s'.d == DeleteKind(s.d, a)
  {
    var s1 := Advance(s, p, Go, s.procs, DropKind(a));
    s' := Advance(s1, p, Go, s.procs, ReqDone);
  }

  // ----- States to start from

  /** Transport 0 is in use and its connection is stashed. */
  lemma ReachStored(a: Key) returns (s: State)
    requires a.Tcp?
    ensures Idle(s) && s.procs == map[0 := ReqUse(a, 0, Https)]
    ensures s.d == Data(map[a := 0], map[a := HTTP2], map[a := Stashed(HTTP2, 0, 0)], map[0 := Transport(a, HTTP2)],
                        map[a := 0], {}, {}, 1)
  {
    assert Run([]) == Some(Init);
    var s1 := SetupRun(Init, 0, a, "h2");
    s := BuildRun(s1, 0, a, "h2");
    assert s.d.stale == {};
  }

  /** Request 0 is inside transport 0, whose stashed connection has been taken. */
  lemma ReachInUse(a: Key) returns (s: State)
    requires a.Tcp?
    ensures Idle(s) && 0 in s.procs && s.procs[0] == ReqUse(a, 0, Https) && s.procs.Keys == {0, 1}
    ensures s.procs[1].DialGot?
    ensures s.d == Data(map[a := 0], map[a := HTTP2], map[], map[0 := Transport(a, HTTP2)], map[a := 0], {}, {}, 1)
  {
    var s1 := ReachStored(a);
    s := TakeRun(s1, 1, 0, 0, a);
    assert s.d.stash == map[];
  }

  /** And a redial of transport 0 has met http/1.1. */
  lemma ReachFailed(s: State, a: Key) returns (s': State)
    requires Idle(s) && a.Tcp? && 2 !in s.procs && 0 in s.procs && s.procs[0] == ReqUse(a, 0, Https)
    requires s.d == Data(map[a := 0], map[a := HTTP2], map[], map[0 := Transport(a, HTTP2)], map[a := 0], {}, {}, 1)
    ensures Idle(s') && s'.procs == s.procs[2 := DialFailed(0)] && s'.d == Fail(s.d, 0)
  {
    var s1 := DialRun(s, 2, 0, 0, "http/1.1");
    s' := JudgeRun(s1, 2, 0, "http/1.1");
    assert s'.procs == s.procs[2 := DialFailed(0)];
  }

  /** Request 0 has dropped transport 0, and the kind is still recorded. */
  lemma ReachWindow(a: Key) returns (s: State)
    requires a.Tcp?
    ensures Idle(s) && s.procs.Keys == {0, 1, 2} && s.procs[0] == DropKindWait(a)
    ensures s.procs[1].DialGot? && s.procs[2].DialFailed?
    ensures a !in s.d.transports && a !in s.d.stash && s.d.next == 1 && a in s.d.kinds && s.d.kinds[a] == HTTP2
    ensures 0 in s.d.built && s.d.built[0] == Transport(a, HTTP2)
  {
    var s1 := ReachInUse(a);
    var s2 := ReachFailed(s1, a);
    s := HalfDropRun(s2, 0, a, 0);
  }

  /** The same with another request, 5, still inside transport 0. */
  lemma ReachWindowInside(a: Key) returns (s: State)
    requires a.Tcp?
    ensures Idle(s) && s.procs.Keys == {0, 1, 2, 5}
    ensures s.procs[0] == DropKindWait(a) && s.procs[5] == ReqUse(a, 0, Https)
    ensures a !in s.d.transports && a !in s.d.stash && s.d.next == 1
    ensures 0 in s.d.built && s.d.built[0] == Transport(a, HTTP2)
  {
    var s1 := ReachInUse(a);
    var s2 := HitRun(s1, 5, a);
    var s3 := ReachFailed(s2, a);
    s := HalfDropRun(s3, 0, a, 0);
  }
}
