/**
The per-address transport cache of roundtripper.go and racer.go as a transition system.

Any number of goroutines take part. Each is a process with a program counter; one step either takes a
lock, or performs the accesses of a critical section that follow (an access and the unlock right behind
it are one step, because nobody else may touch the guarded data in between). The network, the server's
ALPN answer, the outcome of building an HTTP/3 transport and the scheduling are all chosen freely.
*/
module TransportCache {
  import opened Common

  /** transportKind: the three transports an ALPN result can map to. */
  datatype Kind = HTTP1 | HTTP2 | HTTP3

  function KindForProtocol(protocol: string): Kind {
    if protocol == "h2" then HTTP2
    else if protocol == "h3" then HTTP3
    else HTTP1
  }

  /** h2 and h3 have transports of their own; every other protocol, and none at all, is for HTTP/1. */
  predicate Speaks(kind: Kind, protocol: string) {
    && (kind == HTTP2 <==> protocol == "h2")
    && (kind == HTTP3 <==> protocol == "h3")
    && (kind == HTTP1 <==> protocol != "h2" && protocol != "h3")
  }

  lemma KindSpeaks(protocol: string)
    ensures Speaks(KindForProtocol(protocol), protocol)
  {
  }

  datatype Scheme = Http | Https | OtherScheme

  // ----- Cache keys

  /** net.JoinHostPort. */
  function JoinHostPort(host: string, port: string): string {
    if ':' in host then "[" + host + "]:" + port else host + ":" + port
  }

  /** getDialTLSAddr: the dial address, which is also the cache key. */
  function DialAddr(host: string, port: string): string {
    JoinHostPort(host, if port != "" then port else "443")
  }

  /** What url.URL.Port returns: digits, or nothing. */
  predicate IsPort(port: string) {
    forall i :: 0 <= i < |port| ==> '0' <= port[i] <= '9'
  }

  /**
  A key of the shared transport map: a dial address, or the slot the racer keeps for an address's HTTP/3
  transport.
  */
  datatype Key = Tcp(addr: string) | H3(addr: string)

  /** getTransportKey: the string that stands for a key. */
  function KeyText(key: Key): string {
    match key
    case Tcp(addr) => addr
    case H3(addr) => addr + ":h3"
  }

  /** Keys whose address getDialTLSAddr can return. */
  ghost predicate IsKey(key: Key) {
    exists host, port :: IsPort(port) && key.addr == DialAddr(host, port)
  }

  /** The texts of keys: port 443 unless the URL has one, brackets around an IPv6 host, ":h3" behind the HTTP/3 slot. */
  lemma KeyTexts(host: string, port: string, addr: string)
    ensures DialAddr(host, "") == DialAddr(host, "443")
    ensures port != "" && ':' !in host ==> DialAddr(host, port) == host + ":" + port
    ensures port != "" && ':' in host ==> DialAddr(host, port) == "[" + host + "]:" + port
    ensures KeyText(Tcp(addr)) == addr && KeyText(H3(addr)) == addr + ":h3"
  {
  }

  lemma DialAddrEnd(host: string, port: string)
    requires IsPort(port)
    ensures var a := DialAddr(host, port); |a| >= 2 && a[|a| - 2] != 'h'
  {
    var p := if port != "" then port else "443";
    var a := DialAddr(host, port);
    assert a[|a| - |p|..] == p;
    assert a[|a| - |p| - 1] == ':';
    if |p| >= 2 {
      assert a[|a| - 2] == p[|p| - 2];
    }
  }

  /** Different keys have different strings, so the model may index the map by keys. */
  lemma KeyTextInjective(k: Key, k': Key)
    requires IsKey(k) && IsKey(k') && KeyText(k) == KeyText(k')
    ensures k == k'
  {
    var host, port :| IsPort(port) && k.addr == DialAddr(host, port);
    var host', port' :| IsPort(port') && k'.addr == DialAddr(host', port');
    DialAddrEnd(host, port);
    DialAddrEnd(host', port');
    var text := KeyText(k);
    assert (k.H3? || k'.H3?) ==> text[|text| - 2] == 'h';
    assert k.H3? ==> text[..|text| - 3] == k.addr;
    assert k'.H3? ==> text[..|text| - 3] == k'.addr;
  }

  // ----- State

  /** Transports are identified by the order in which they were built. */
  type Tid = nat
  type Pid = nat

  /** A transport: the key it was built for, which is also the only address it dials, and its kind. */
  datatype Transport = Transport(key: Key, kind: Kind)

  /** A connection waiting in cachedConnections, and the transport built in the same critical section. */
  datatype Stashed = Stashed(kind: Kind, owner: Tid, conn: Cid)

  /** Connections are identified by the order in which their handshakes completed. */
  type Cid = nat

  /** Where a connection is: with the process that dialed it, stashed, handed to a transport, closed, or forgotten. */
  datatype Fate = InHand | Waiting | Handed(t: Tid) | Closed | Leaked

  /** A connection: the address it was dialed for, the kind negotiated on it, and where it is. */
  datatype Conn = Conn(key: Key, kind: Kind, fate: Fate)

  datatype Pc =
    // A request: RoundTrip, the racer's TCP leg, and the racer's cached-protocol path.
    | ReqStart(a: Key, scheme: Scheme)   // waits for cachedTransportsLck
    | ReqCheck(a: Key, scheme: Scheme)   // holds it
    | SetupWait(a: Key)                  // getTransport: waits for the round tripper mutex
    | SetupStash(a: Key)                 // dialTLSWithSetup(setup = true), both locks held
    | SetupDial(a: Key)
    | SetupBuild(a: Key, protocol: string)
    | SetupKindWait(a: Key, t: Tid)      // waits for cachedKindsLck
    | SetupKind(a: Key, t: Tid)
    | SetupStore(a: Key, t: Tid)
    | ReqError(a: Key)
    | ReqRead(a: Key, scheme: Scheme)
    | ReqUse(a: Key, t: Tid, scheme: Scheme)  // inside t.RoundTrip, no lock held
    | DropWait(a: Key, t: Tid)           // dropCachedTransport, first half
    | DropCheck(a: Key, t: Tid)
    | DropKindWait(a: Key)               // dropCachedTransport, second half
    | DropKind(a: Key)
    | ReqDone
    | Panicked                              // getTransport's "should never happen"
    // A reconnect: dialTLSWithSetup(setup = false) on behalf of a transport.
    | DialWait(t: Tid)
    | DialStash(t: Tid)
    | DialNet(t: Tid)
    | DialKindWait(t: Tid, protocol: string)
    | DialKind(t: Tid, protocol: string)
    // cached was recorded while seen was latest[key]; clash tells whether the key was stale then
    | DialJudge(t: Tid, protocol: string, cached: Option<Kind>, seen: Tid, clash: bool)
    | DialGot(t: Tid, kind: Kind, last: Tid, seen: Tid, clash: bool)  // handed over while last was latest[key]
    | DialFailed(t: Tid)
    // The racer filling its HTTP/3 slot.
    | H3Wait(addr: string)
    | H3Put(addr: string)
    | H3Done

  /** The shared maps, and the history that the properties speak of. */
  datatype Data = Data(
    transports: map<Key, Tid>,
    kinds: map<Key, Kind>,
    stash: map<Key, Stashed>,
    // History: no step's outcome depends on it, except to name a new transport.
    built: map<Tid, Transport>,
    latest: map<Key, Tid>,   // the transport built last for a key
    stale: set<Key>,         // keys where plain http has built over a recorded kind other than HTTP/1
    failed: set<Tid>,           // transports one of whose dials reported errProtocolChanged
    next: nat)

  datatype State = State(
    d: Data,
    tOwner: Option<Pid>,   // cachedTransportsLck
    rtOwner: Option<Pid>,  // the round tripper's own mutex
    kOwner: Option<Pid>,   // cachedKindsLck
    procs: map<Pid, Pc>,
    conns: seq<Conn>)      // all connections with a completed handshake

  const Init := State(Data(map[], map[], map[], map[], map[], {}, {}, 0), None, None, None, map[], [])

  // ----- Effects on the maps

  /** Store a freshly built transport under its key. */
  function Build(d: Data, key: Key, kind: Kind): Data {
    d.(transports := d.transports[key := d.next], built := d.built[d.next := Transport(key, kind)],
       latest := d.latest[key := d.next], next := d.next + 1)
  }

  /** A plain http request stores an HTTP/1 transport and leaves the recorded kind alone. */
  function BuildPlain(d: Data, key: Key): Data {
    Build(d, key, HTTP1).(stale := if key in d.kinds && d.kinds[key] != HTTP1 then d.stale + {key} else d.stale - {key})
  }

  /** The transport built last for a key (0 before the first one). */
  function LastBuilt(d: Data, key: Key): Tid {
    if key in d.latest then d.latest[key] else 0
  }

  function DropTransport(d: Data, a: Key, stale: Tid): Data {
    if a in d.transports && d.transports[a] == stale then d.(transports := d.transports - {a}) else d
  }

  function SetKind(d: Data, a: Key, kind: Kind): Data {
    d.(kinds := d.kinds[a := kind], stale := d.stale - {a})
  }

  function DeleteKind(d: Data, a: Key): Data {
    d.(kinds := d.kinds - {a}, stale := d.stale - {a})
  }

  function PutStash(d: Data, a: Key, kind: Kind, owner: Tid, conn: Cid): Data {
    d.(stash := d.stash[a := Stashed(kind, owner, conn)])
  }

  function TakeStash(d: Data, a: Key): Data {
    d.(stash := d.stash - {a})
  }

  function Fail(d: Data, t: Tid): Data {
    d.(failed := d.failed + {t})
  }

  // ----- Effects on the connections

  /** The connection dialed last: the one in the hands of the process that holds the round tripper mutex, if any is. */
  function LastConn(conns: seq<Conn>): Cid {
    if conns == [] then 0 else |conns| - 1
  }

  function Settle(conns: seq<Conn>, c: Cid, fate: Fate): (r: seq<Conn>)
    ensures |r| == |conns|
  {
    if c < |conns| then conns[c := conns[c].(fate := fate)] else conns
  }

  // ----- Steps

  /** What the environment and the scheduler decide for one step. */
  datatype Choice =
    | Go
    | StartRequest(addr: string, scheme: Scheme)
    | StartDial(request: Pid)
    | StartH3(addr: string)
    | NetFails
    | Negotiates(protocol: string)
    | BuildFails
    | Rewrite
    | Finish
    | ProtocolChanged

  function Move(s: State, p: Pid, pc: Pc): State {
    s.(procs := s.procs[p := pc])
  }

  datatype Lock = TransportsLck | RoundTripperLck | KindsLck

  function Owner(s: State, l: Lock): Option<Pid> {
    match l
    case TransportsLck => s.tOwner
    case RoundTripperLck => s.rtOwner
    case KindsLck => s.kOwner
  }

  function SetOwner(s: State, l: Lock, owner: Option<Pid>): State {
    match l
    case TransportsLck => s.(tOwner := owner)
    case RoundTripperLck => s.(rtOwner := owner)
    case KindsLck => s.(kOwner := owner)
  }

  /** The lock a process is waiting for, and where it goes on once it has it. */
  function Wants(pc: Pc): Option<(Lock, Pc)> {
    match pc
    case ReqStart(a, scheme) => Some((TransportsLck, ReqCheck(a, scheme)))
    case SetupWait(a) => Some((RoundTripperLck, SetupStash(a)))
    case SetupKindWait(a, t) => Some((KindsLck, SetupKind(a, t)))
    case DropWait(a, t) => Some((TransportsLck, DropCheck(a, t)))
    case DropKindWait(a) => Some((KindsLck, DropKind(a)))
    case DialWait(t) => Some((RoundTripperLck, DialStash(t)))
    case DialKindWait(t, protocol) => Some((KindsLck, DialKind(t, protocol)))
    case H3Wait(addr) => Some((TransportsLck, H3Put(addr)))
    case _ => None
  }

  /** One step of process p, or None when that step is not possible. */
  function Step(s: State, p: Pid, c: Choice): (r: Option<State>)
    ensures r.Some? ==> p in r.value.procs
  {
    if p !in s.procs then Spawn(s, p, c)
    else if Wants(s.procs[p]).Some? then Acquire(s, p, c)
    else match s.procs[p]
      case ReqCheck(_, _) => RequestStep(s, p, c)
      case ReqError(_) => RequestStep(s, p, c)
      case ReqRead(_, _) => RequestStep(s, p, c)
      case ReqUse(_, _, _) => RequestStep(s, p, c)
      case SetupStash(_) => SetupStep(s, p, c)
      case SetupDial(_) => SetupStep(s, p, c)
      case SetupBuild(_, _) => SetupStep(s, p, c)
      case SetupKind(_, _) => SetupStep(s, p, c)
      case SetupStore(_, _) => SetupStep(s, p, c)
      case DropCheck(_, _) => DropStep(s, p, c)
      case DropKind(_) => DropStep(s, p, c)
      case DialStash(_) => DialStep(s, p, c)
      case DialNet(_) => DialStep(s, p, c)
      case DialKind(_, _) => DialStep(s, p, c)
      case DialJudge(_, _, _, _, _) => DialStep(s, p, c)
      case H3Put(_) => H3Step(s, p, c)
      case _ => None
  }

  /** Take the lock the process waits for, once it is free. */
  function Acquire(s: State, p: Pid, c: Choice): (r: Option<State>)
    requires p in s.procs && Wants(s.procs[p]).Some?
    ensures r.Some? ==> p in r.value.procs
  {
    var (l, pc') := Wants(s.procs[p]).value;
    if c.Go? && Owner(s, l).None? then Some(Move(SetOwner(s, l, Some(p)), p, pc')) else None
  }

  /**
  A new goroutine. A transport dials through dialTLS only on behalf of an https request inside its round trip; plain
  requests dial without TLS, and HTTP/3 transports bring their own dialer.
  */
  function Spawn(s: State, p: Pid, c: Choice): (r: Option<State>)
    requires p !in s.procs
    ensures r.Some? ==> p in r.value.procs
  {
    match c
    case StartRequest(addr, scheme) => Some(Move(s, p, ReqStart(Tcp(addr), scheme)))
    case StartDial(q) =>
      if q in s.procs && CanDial(s.d, s.procs[q]) then Some(Move(s, p, DialWait(s.procs[q].t))) else None
    case StartH3(addr) => Some(Move(s, p, H3Wait(addr)))
    case _ => None
  }

  /** A request that its transport may dial for. */
  predicate CanDial(d: Data, pc: Pc) {
    pc.ReqUse? && pc.scheme.Https? && pc.t in d.built && d.built[pc.t].kind != HTTP3
  }

  /** RoundTrip, attemptHTTP2, getOrCreateTransport followed by the racer's roundTrip. */
  function RequestStep(s: State, p: Pid, c: Choice): (r: Option<State>)
    requires p in s.procs
    ensures r.Some? ==> p in r.value.procs
  {
    match s.procs[p]
    case ReqCheck(a, scheme) =>
      if !c.Go? then None
      else if a in s.d.transports then Some(Move(s, p, ReqRead(a, scheme)))
      else if scheme.Https? then Some(Move(s, p, SetupWait(a)))
      else if scheme.Http? then Some(Move(s.(d := BuildPlain(s.d, a)), p, ReqRead(a, scheme)))
      else Some(Move(s, p, ReqError(a)))
    case ReqError(a) =>
      if c.Go? then Some(Move(s.(tOwner := None), p, ReqDone)) else None
    case ReqRead(a, scheme) =>
      if a !in s.d.transports then None  // a nil transport: no continuation
      else if c.Go? then Some(Move(s.(tOwner := None), p, ReqUse(a, s.d.transports[a], scheme)))
      // getOrCreateTransport stores the transport it has just read once more
      else if c.Rewrite? then Some(s.(d := s.d.(transports := s.d.transports[a := s.d.transports[a]])))
      else None
    case ReqUse(a, t, scheme) =>
      if c.Finish? then Some(Move(s, p, ReqDone))
      // a transport reports errProtocolChanged only if one of its own dials did
      else if c.ProtocolChanged? && scheme.Https? && t in s.d.failed then Some(Move(s, p, DropWait(a, t)))
      else None
    case _ => None
  }

  /** getTransport and dialTLSWithSetup with setup = true; the caller holds cachedTransportsLck throughout. */
  function SetupStep(s: State, p: Pid, c: Choice): (r: Option<State>)
    requires p in s.procs
    ensures r.Some? ==> p in r.value.procs
  {
    match s.procs[p]
    case SetupStash(a) =>
      if !c.Go? then None
      // the dial returns a connection and no error, on which getTransport panics
      else if a in s.d.stash then Some(Move(s.(d := TakeStash(s.d, a), rtOwner := None), p, Panicked))
      else Some(Move(s, p, SetupDial(a)))
    case SetupDial(a) =>
      if c.NetFails? then Some(Move(s.(rtOwner := None), p, ReqError(a)))
      else if c.Negotiates? then
        Some(Move(s.(conns := s.conns + [Conn(a, KindForProtocol(c.protocol), InHand)]), p, SetupBuild(a, c.protocol)))
      else None
    case SetupBuild(a, protocol) =>
      // a failed HTTP/3 build returns with the connection neither stashed nor closed
      if c.BuildFails? && KindForProtocol(protocol) == HTTP3 then
        Some(Move(s.(rtOwner := None, conns := Settle(s.conns, LastConn(s.conns), Leaked)), p, ReqError(a)))
      else if c.Go? then
        Some(Move(s.(d := Build(s.d, a, KindForProtocol(protocol))), p, SetupKindWait(a, s.d.next)))
      else None
    case SetupKind(a, t) =>
      if c.Go? && t in s.d.built then
        Some(Move(s.(d := SetKind(s.d, a, s.d.built[t].kind), kOwner := None), p, SetupStore(a, t)))
      else None
    case SetupStore(a, t) =>
      if c.Go? && t in s.d.built then
        var c := LastConn(s.conns);
        var d := PutStash(s.d, a, s.d.built[t].kind, t, c);
        Some(Move(s.(d := d, rtOwner := None, conns := Settle(s.conns, c, Waiting)), p, ReqRead(a, Https)))
      else None
    case _ => None
  }

  /** dropCachedTransport: two critical sections, one after the other. */
  function DropStep(s: State, p: Pid, c: Choice): (r: Option<State>)
    requires p in s.procs
    ensures r.Some? ==> p in r.value.procs
  {
    if !c.Go? then None
    else match s.procs[p]
      case DropCheck(a, t) =>
        Some(Move(s.(d := DropTransport(s.d, a, t), tOwner := None), p, DropKindWait(a)))
      case DropKind(a) => Some(Move(s.(d := DeleteKind(s.d, a), kOwner := None), p, ReqDone))
      case _ => None
  }

  /** dialTLSWithSetup with setup = false: never builds, only hands a connection over or refuses it. */
  function DialStep(s: State, p: Pid, c: Choice): (r: Option<State>)
    requires p in s.procs
    ensures r.Some? ==> p in r.value.procs
  {
    match s.procs[p]
    case DialStash(t) =>
      if !c.Go? || t !in s.d.built then None
      else
        var a := s.d.built[t].key;
        if a in s.d.stash then
          Some(Move(s.(d := TakeStash(s.d, a), rtOwner := None, conns := Settle(s.conns, s.d.stash[a].conn, Handed(t))),
                    p, DialGot(t, s.d.stash[a].kind, LastBuilt(s.d, a), LastBuilt(s.d, a), false)))
        else Some(Move(s, p, DialNet(t)))
    case DialNet(t) =>
      if c.NetFails? then Some(Move(s.(rtOwner := None), p, DialFailed(t)))
      else if c.Negotiates? && t in s.d.built then
        Some(Move(s.(conns := s.conns + [Conn(s.d.built[t].key, KindForProtocol(c.protocol), InHand)]),
                  p, DialKindWait(t, c.protocol)))
      else None
    case DialKind(t, protocol) =>
      if !c.Go? || t !in s.d.built then None
      else
        var a := s.d.built[t].key;
        Some(Move(s.(kOwner := None), p,
                  DialJudge(t, protocol, if a in s.d.kinds then Some(s.d.kinds[a]) else None,
                            LastBuilt(s.d, a), a in s.d.stale)))
    case DialJudge(t, protocol, cached, seen, clash) =>
      if !c.Go? || t !in s.d.built then None
      else if cached == Some(KindForProtocol(protocol)) then
        Some(Move(s.(rtOwner := None, conns := Settle(s.conns, LastConn(s.conns), Handed(t))),
                  p, DialGot(t, KindForProtocol(protocol), LastBuilt(s.d, s.d.built[t].key), seen, clash)))
      else
        Some(Move(s.(d := Fail(s.d, t), rtOwner := None, conns := Settle(s.conns, LastConn(s.conns), Closed)),
                  p, DialFailed(t)))
    case _ => None
  }

  /** cacheWinningProtocol and getOrCreateTransport for "h3". */
  function H3Step(s: State, p: Pid, c: Choice): (r: Option<State>)
    requires p in s.procs
    ensures r.Some? ==> p in r.value.procs
  {
    match s.procs[p]
    case H3Put(addr) =>
      if c.Go? then Some(Move(s.(d := Build(s.d, H3(addr), HTTP3), tOwner := None), p, H3Done))
      else if c.BuildFails? then Some(Move(s.(tOwner := None), p, H3Done))
      else None
    case _ => None
  }

  // ----- Runs

  /** The state after a schedule from s, or None when some step of it was not possible. */
  function RunFrom(s: State, schedule: seq<(Pid, Choice)>): Option<State> {
    if schedule == [] then Some(s)
    else
      var before := RunFrom(s, schedule[..|schedule| - 1]);
      var (p, c) := schedule[|schedule| - 1];
      if before.None? then None else Step(before.value, p, c)
  }

  function Run(schedule: seq<(Pid, Choice)>): Option<State> {
    RunFrom(Init, schedule)
  }

  ghost predicate Reachable(s: State) {
    exists schedule :: Run(schedule) == Some(s)
  }

  /** s' can come about after s. */
  ghost predicate Later(s: State, s': State) {
    exists schedule :: RunFrom(s, schedule) == Some(s')
  }

  lemma LaterStep(s: State, s': State, s'': State, p: Pid, c: Choice)
    requires Later(s, s') && Step(s', p, c) == Some(s'')
    ensures Later(s, s'')
  {
    var schedule :| RunFrom(s, schedule) == Some(s');
    var longer := schedule + [(p, c)];
    assert longer[..|longer| - 1] == schedule;
    assert RunFrom(s, longer) == Some(s'');
  }

  lemma {:induction false} LaterRun(s: State, s': State, schedule: seq<(Pid, Choice)>, s'': State)
    requires Later(s, s') && RunFrom(s', schedule) == Some(s'')
    ensures Later(s, s'')
  {
    if schedule != [] {
      var n := |schedule| - 1;
      var before := RunFrom(s', schedule[..n]).value;
      LaterRun(s, s', schedule[..n], before);
      LaterStep(s, before, s'', schedule[n].0, schedule[n].1);
    }
  }

  lemma LaterSame(s: State)
    ensures Later(s, s)
  {
    assert RunFrom(s, []) == Some(s);
  }

  lemma LaterTrans(s: State, s': State, s'': State)
    requires Later(s, s') && Later(s', s'')
    ensures Later(s, s'')
  {
    var schedule :| RunFrom(s', schedule) == Some(s'');
    LaterRun(s, s', schedule, s'');
  }

  lemma ReachableIsLater(s: State)
    ensures Reachable(s) <==> Later(Init, s)
  {
    if Reachable(s) {
      var schedule :| Run(schedule) == Some(s);
      assert RunFrom(Init, schedule) == Some(s);
    }
    if Later(Init, s) {
      var schedule :| RunFrom(Init, schedule) == Some(s);
      assert Run(schedule) == Some(s);
    }
  }
}
