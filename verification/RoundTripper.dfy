/**
The round tripper seen by requests that run one after the other: the in-place code of roundtripper.go, and what a
client experiences when a server changes the protocol it negotiates.
*/
module RoundTripper {
  import opened Common
  import opened TransportCache

  /** A transport object; id tells two transports of one kind apart. */
  datatype Transp = Transp(id: nat, kind: Kind)

  /** A dial with its handshake and pin check. */
  datatype Net = NetError | Handshake(protocol: string)

  datatype DialResult = Got(kind: Kind) | ProtocolNegotiated | ErrProtocolChanged | ErrNet

  /** How a request ended. */
  datatype Outcome = Ok | Changed | OtherError

  /**
  A request and what it will meet: the setup dial, should one be needed (and whether an HTTP/3 transport can be
  built), then the dials its transport makes, in order, and whether the exchange itself succeeds.
  */
  datatype Request = Request(addr: string, scheme: Scheme, setup: Net, h3Builds: bool, dials: seq<Net>, answers: bool)

  /** The three maps of the round tripper. */
  datatype Cache = Cache(
    transports: map<string, Transp>, kinds: map<string, Kind>, conns: map<string, Kind>, next: nat)

  // ----- What the methods compute

  function Lookup(kinds: map<string, Kind>, addr: string): Option<Kind> {
    if addr in kinds then Some(kinds[addr]) else None
  }

  function DialTLS(c: Cache, addr: string, setup: bool, net: Net, h3Builds: bool): (Cache, DialResult) {
    if addr in c.conns then (c.(conns := c.conns - {addr}), Got(c.conns[addr]))
    else if net.NetError? then (c, ErrNet)
    else
      var kind := KindForProtocol(net.protocol);
      if !setup then (c, if Lookup(c.kinds, addr) == Some(kind) then Got(kind) else ErrProtocolChanged)
      else if kind == HTTP3 && !h3Builds then (c, ErrNet)
      else (Cache(c.transports[addr := Transp(c.next, kind)], c.kinds[addr := kind], c.conns[addr := kind], c.next + 1),
            ProtocolNegotiated)
  }

  function Drop(c: Cache, addr: string, stale: Transp): Cache {
    var matches := addr in c.transports && c.transports[addr] == stale;
    c.(transports := if matches then c.transports - {addr} else c.transports, kinds := c.kinds - {addr})
  }

  /** getTransport; None stands for its panic. */
  function Obtain(c: Cache, r: Request): (Cache, Option<bool>) {
    match r.scheme
    case Http => (c.(transports := c.transports[r.addr := Transp(c.next, HTTP1)], next := c.next + 1), Some(true))
    case OtherScheme => (c, Some(false))
    case Https =>
      var (c', d) := DialTLS(c, r.addr, true, r.setup, r.h3Builds);
      (c', if d.Got? then None else Some(d.ProtocolNegotiated?))
  }

  /** The dials a transport makes during one round trip, up to the first that fails. */
  function DialAll(c: Cache, addr: string, dials: seq<Net>): (Cache, Outcome)
    decreases |dials|
  {
    if dials == [] then (c, Ok)
    else
      var (c', d) := DialTLS(c, addr, false, dials[0], false);
      match d
      case Got(_) => DialAll(c', addr, dials[1..])
      case ErrProtocolChanged => (c', Changed)
      case _ => (c', OtherError)
  }

  /** t.RoundTrip: HTTP/3 transports and plain http bring their own dialers. */
  function Exchange(c: Cache, t: Transp, r: Request): (Cache, Outcome) {
    var (c', o) := DialAll(c, r.addr, if r.scheme.Https? && t.kind != HTTP3 then r.dials else []);
    (c', if o.Ok? && !r.answers then OtherError else o)
  }

  /** RoundTrip; a panic of getTransport ends the request like an error. */
  function Serve(c: Cache, r: Request): (Cache, Outcome) {
    var (c1, got) := if r.addr in c.transports then (c, Some(true)) else Obtain(c, r);
    if got != Some(true) || r.addr !in c1.transports then (c1, OtherError)
    else
      var t := c1.transports[r.addr];
      var (c2, o) := Exchange(c1, t, r);
      (if o.Changed? then Drop(c2, r.addr, t) else c2, o)
  }

  // ----- What https requests keep

  /** Sequentially, a kind is recorded exactly where a transport is cached, and a stashed connection fits it. */
  ghost predicate Coherent(c: Cache) {
    && c.kinds.Keys == c.transports.Keys
    && (forall a :: a in c.transports ==> c.kinds[a] == c.transports[a].kind)
    && (forall a :: a in c.conns ==> a in c.transports && c.conns[a] == c.transports[a].kind)
  }

  const EMPTY := Cache(map[], map[], map[], 0)

  predicate Secure(rs: seq<Request>) {
    forall i :: 0 <= i < |rs| ==> rs[i].scheme.Https?
  }

  lemma {:induction false} DialAllFrame(c: Cache, addr: string, dials: seq<Net>)
    ensures var (c', o) := DialAll(c, addr, dials);
            && c'.transports == c.transports && c'.kinds == c.kinds
            && (c'.conns == c.conns || c'.conns == c.conns - {addr})
            && (o.Changed? ==> addr !in c'.conns)
    decreases |dials|
  {
    if dials != [] {
      var (c', d) := DialTLS(c, addr, false, dials[0], false);
      assert (c.conns - {addr}) - {addr} == c.conns - {addr};
      if d.Got? {
        DialAllFrame(c', addr, dials[1..]);
      }
    }
  }

  lemma SetupKeeps(c: Cache, r: Request)
    requires Coherent(c) && r.scheme.Https? && r.addr !in c.transports
    ensures var (c', got) := Obtain(c, r);
            && Coherent(c') && got.Some? && SameElsewhere(c, c', r.addr)
  {
  }

  /** Only the transport of one address may differ. */
  ghost predicate SameElsewhere(c: Cache, c': Cache, addr: string) {
    forall a :: a != addr ==>
      && (a in c'.transports <==> a in c.transports)
      && (a in c.transports ==> c'.transports[a] == c.transports[a])
  }

  /** Nothing is cached for an address. */
  predicate Absent(c: Cache, addr: string) {
    addr !in c.transports && addr !in c.kinds && addr !in c.conns
  }

  lemma DropKeeps(c: Cache, addr: string)
    requires Coherent(c) && addr in c.transports && addr !in c.conns
    ensures var c' := Drop(c, addr, c.transports[addr]);
            && Coherent(c') && SameElsewhere(c, c', addr)
            && Absent(c', addr)
  {
  }

  lemma ExchangeKeeps(c: Cache, t: Transp, r: Request)
    requires Coherent(c)
    ensures var (c', o) := Exchange(c, t, r);
            && Coherent(c') && c'.transports == c.transports && (o.Changed? ==> r.addr !in c'.conns)
  {
    DialAllFrame(c, r.addr, r.dials);
  }

  /**
  An https request keeps the cache coherent, leaves every other address alone, never panics, and fails with
  errProtocolChanged only by leaving nothing cached for its address.
  */
  lemma ServeKeeps(c: Cache, r: Request)
    requires Coherent(c) && r.scheme.Https?
    ensures var (c', o) := Serve(c, r);
            && Coherent(c') && SameElsewhere(c, c', r.addr)
            && (o.Changed? ==> Absent(c', r.addr))
    ensures r.addr !in c.transports ==> Obtain(c, r).1.Some?
  {
    if r.addr !in c.transports {
      SetupKeeps(c, r);
    }
    var (c1, got) := if r.addr in c.transports then (c, Some(true)) else Obtain(c, r);
    if got == Some(true) && r.addr in c1.transports {
      var t := c1.transports[r.addr];
      ExchangeKeeps(c1, t, r);
      var (c2, o) := Exchange(c1, t, r);
      if o.Changed? {
        DropKeeps(c2, r.addr);
      }
    }
  }

  // ----- When requests fail and succeed

  predicate IsHandshakeOf(net: Net, kind: Kind) {
    net.Handshake? && KindForProtocol(net.protocol) == kind
  }

  /** The first dial from i on that is no handshake of this kind is a handshake of another. */
  ghost predicate MeetsChange(dials: seq<Net>, i: nat, kind: Kind) {
    exists n :: i <= n < |dials| && MeetsChangeAt(dials, i, kind, n)
  }

  predicate MeetsChangeAt(dials: seq<Net>, i: nat, kind: Kind, n: nat)
    requires i <= n < |dials|
  {
    && dials[n].Handshake? && !IsHandshakeOf(dials[n], kind)
    && forall m :: i <= m < n ==> IsHandshakeOf(dials[m], kind)
  }

  predicate AllOfKind(dials: seq<Net>, i: nat, kind: Kind) {
    forall m :: i <= m < |dials| ==> IsHandshakeOf(dials[m], kind)
  }

  /** The first dial that meets the network: a stashed connection serves one dial. */
  function FirstDial(c: Cache, addr: string): nat {
    if addr in c.conns then 1 else 0
  }

  lemma MeetsChangeTail(dials: seq<Net>, i: nat, kind: Kind)
    requires dials != []
    ensures MeetsChange(dials, i + 1, kind) <==> MeetsChange(dials[1..], i, kind)
    ensures AllOfKind(dials, i + 1, kind) <==> AllOfKind(dials[1..], i, kind)
  {
    var rest := dials[1..];
    if MeetsChange(dials, i + 1, kind) {
      var n :| i + 1 <= n < |dials| && MeetsChangeAt(dials, i + 1, kind, n);
      assert MeetsChangeAt(rest, i, kind, n - 1);
    }
    if MeetsChange(rest, i, kind) {
      var n :| i <= n < |rest| && MeetsChangeAt(rest, i, kind, n);
      forall m | i + 1 <= m < n + 1
        ensures IsHandshakeOf(dials[m], kind)
      {
        assert dials[m] == rest[m - 1];
      }
      assert MeetsChangeAt(dials, i + 1, kind, n + 1);
    }
    if AllOfKind(rest, i, kind) {
      forall m | i + 1 <= m < |dials|
        ensures IsHandshakeOf(dials[m], kind)
      {
        assert dials[m] == rest[m - 1];
      }
    }
  }

  lemma MeetsChangeHead(dials: seq<Net>, kind: Kind)
    requires dials != []
    ensures IsHandshakeOf(dials[0], kind) ==> (MeetsChange(dials, 0, kind) <==> MeetsChange(dials, 1, kind))
    ensures IsHandshakeOf(dials[0], kind) ==> (AllOfKind(dials, 0, kind) <==> AllOfKind(dials, 1, kind))
    ensures !IsHandshakeOf(dials[0], kind) ==> (MeetsChange(dials, 0, kind) <==> dials[0].Handshake?)
  {
    if MeetsChange(dials, 0, kind) {
      var n :| 0 <= n < |dials| && MeetsChangeAt(dials, 0, kind, n);
      if IsHandshakeOf(dials[0], kind) {
        assert MeetsChangeAt(dials, 1, kind, n);
      }
    }
    if MeetsChange(dials, 1, kind) && IsHandshakeOf(dials[0], kind) {
      var n :| 1 <= n < |dials| && MeetsChangeAt(dials, 1, kind, n);
      assert MeetsChangeAt(dials, 0, kind, n);
    }
    if dials[0].Handshake? && !IsHandshakeOf(dials[0], kind) {
      assert MeetsChangeAt(dials, 0, kind, 0);
    }
  }

  /** How the dials of one round trip end, however many there are. */
  lemma {:induction false} DialAllExactly(c: Cache, addr: string, dials: seq<Net>, kind: Kind)
    requires Lookup(c.kinds, addr) == Some(kind)
    ensures DialAll(c, addr, dials).1.Changed? <==> MeetsChange(dials, FirstDial(c, addr), kind)
    ensures DialAll(c, addr, dials).1.Ok? <==> AllOfKind(dials, FirstDial(c, addr), kind)
    decreases |dials|
  {
    if dials != [] {
      var (c', d) := DialTLS(c, addr, false, dials[0], false);
      MeetsChangeHead(dials, kind);
      MeetsChangeTail(dials, 0, kind);
      if d.Got? {
        DialAllExactly(c', addr, dials[1..], kind);
      }
    }
  }

  /** A request that has to set up meets a change after it: a later dial of the same round trip does. */
  ghost predicate ChangesMidway(r: Request) {
    && r.setup.Handshake? && KindForProtocol(r.setup.protocol) != HTTP3
    && MeetsChange(r.dials, 1, KindForProtocol(r.setup.protocol))
  }

  /**
  Exactly when an https request fails with errProtocolChanged, however often its transport dials: a dial of its cached
  transport, or a later dial of the one it has just set up, is answered with a protocol of another kind, and no dial
  before it fails otherwise. HTTP/3 transports never do.
  */
  lemma ChangedExactlyWhen(c: Cache, r: Request)
    requires Coherent(c) && r.scheme.Https?
    ensures Serve(c, r).1.Changed? <==>
            if r.addr in c.transports then
              && c.transports[r.addr].kind != HTTP3
              && MeetsChange(r.dials, FirstDial(c, r.addr), c.transports[r.addr].kind)
            else ChangesMidway(r)
  {
    var (c1, got) := if r.addr in c.transports then (c, Some(true)) else Obtain(c, r);
    if got == Some(true) && r.addr in c1.transports && c1.transports[r.addr].kind != HTTP3 {
      DialAllExactly(c1, r.addr, r.dials, c1.transports[r.addr].kind);
    }
  }

  /** What the dials of a request have to be like for it to get to the exchange. */
  predicate Connects(c: Cache, r: Request) {
    if r.addr in c.transports then
      c.transports[r.addr].kind == HTTP3 || AllOfKind(r.dials, FirstDial(c, r.addr), c.transports[r.addr].kind)
    else SetsUp(r)
  }

  /** A setup whose handshake succeeds, whatever the server negotiates, and whose later dials find the same kind. */
  predicate SetsUp(r: Request) {
    && r.setup.Handshake?
    && var kind := KindForProtocol(r.setup.protocol);
       if kind == HTTP3 then r.h3Builds else AllOfKind(r.dials, 1, kind)
  }

  /** Exactly when an https request succeeds, however often its transport dials. */
  lemma SucceedsExactlyWhen(c: Cache, r: Request)
    requires Coherent(c) && r.scheme.Https?
    ensures Serve(c, r).1.Ok? <==> r.answers && Connects(c, r)
  {
    var (c1, got) := if r.addr in c.transports then (c, Some(true)) else Obtain(c, r);
    if got == Some(true) && r.addr in c1.transports && c1.transports[r.addr].kind != HTTP3 {
      DialAllExactly(c1, r.addr, r.dials, c1.transports[r.addr].kind);
    }
  }

  // ----- What requests leave behind

  /** A new transport for this protocol is cached for an address, and its kind recorded; nothing else is. */
  ghost predicate StoredFor(c: Cache, c': Cache, addr: string, protocol: string) {
    && addr in c'.transports && c'.transports[addr].id == c.next && c'.next == c.next + 1
    && Speaks(c'.transports[addr].kind, protocol)
    && c'.transports == c.transports[addr := c'.transports[addr]]
    && c'.kinds == c.kinds[addr := c'.transports[addr].kind]
  }

  /**
  An https request to an address without a transport: a dial that fails, or an HTTP/3 transport that cannot be built,
  changes nothing; otherwise a new transport for the negotiated protocol is left behind, unless a later dial of the
  same round trip meets another kind. The connection of the setup stays stashed exactly if the transport does not dial.
  */
  lemma SetupLeaves(c: Cache, r: Request)
    requires Coherent(c) && r.scheme.Https? && r.addr !in c.transports
    ensures var (c', o) := Serve(c, r);
            && (r.setup.NetError? || (r.setup.protocol == "h3" && !r.h3Builds) ==> c' == c && o.OtherError?)
            && (r.setup.Handshake? && (r.setup.protocol == "h3" ==> r.h3Builds) && !o.Changed? ==>
                  && StoredFor(c, c', r.addr, r.setup.protocol)
                  && (r.setup.protocol == "h3" || r.dials == [] ==> c'.conns == c.conns[r.addr := c'.kinds[r.addr]])
                  && (r.setup.protocol != "h3" && r.dials != [] ==> c'.conns == c.conns))
  {
    if r.setup.Handshake? {
      KindSpeaks(r.setup.protocol);
      var c1 := Obtain(c, r).0;
      DialAllTakes(c1, r.addr, r.dials);
      assert (c.conns[r.addr := KindForProtocol(r.setup.protocol)]) - {r.addr} == c.conns;
    }
  }

  /** Dials leave transports and kinds alone, and take a stashed connection exactly if there are any. */
  lemma {:induction false} DialAllTakes(c: Cache, addr: string, dials: seq<Net>)
    ensures DialAll(c, addr, dials).0 == if dials == [] then c else c.(conns := c.conns - {addr})
    decreases |dials|
  {
    if dials != [] {
      var (c', d) := DialTLS(c, addr, false, dials[0], false);
      assert (c.conns - {addr}) - {addr} == c.conns - {addr};
      assert addr !in c.conns ==> c.conns - {addr} == c.conns;
      if d.Got? {
        DialAllTakes(c', addr, dials[1..]);
      }
    }
  }

  /**
  An https request to an address with a transport keeps it and its kind, unless it fails with errProtocolChanged, and
  takes a stashed connection exactly if the transport dials.
  */
  lemma HitLeaves(c: Cache, r: Request)
    requires Coherent(c) && r.scheme.Https? && r.addr in c.transports
    ensures var (c', o) := Serve(c, r);
            && c'.next == c.next
            && c'.conns == (if c.transports[r.addr].kind == HTTP3 || r.dials == [] then c.conns else c.conns - {r.addr})
            && c'.transports == (if o.Changed? then c.transports - {r.addr} else c.transports)
            && c'.kinds == (if o.Changed? then c.kinds - {r.addr} else c.kinds)
  {
    DialAllTakes(c, r.addr, r.dials);
  }

  /**
  A plain request, whatever the cache holds, succeeds exactly if the exchange does. It uses the cached transport of its
  address, or stores a new HTTP/1 one, and changes no kind, no stashed connection and no other address.
  */
  lemma PlainLeaves(c: Cache, r: Request)
    requires r.scheme.Http?
    ensures Serve(c, r) ==
            (if r.addr in c.transports then c
             else c.(transports := c.transports[r.addr := Transp(c.next, HTTP1)], next := c.next + 1),
             if r.answers then Ok else OtherError)
  {
  }

  /** A request of any other scheme changes nothing, and fails where no transport is cached. */
  lemma OtherLeaves(c: Cache, r: Request)
    requires r.scheme.OtherScheme?
    ensures Serve(c, r).0 == c && (r.addr !in c.transports ==> Serve(c, r).1.OtherError?)
  {
  }

  // ----- Sequential https runs

  /** The cache after a run of requests. */
  function After(c: Cache, rs: seq<Request>): Cache {
    if rs == [] then c else Serve(After(c, rs[..|rs| - 1]), rs[|rs| - 1]).0
  }

  /** How request i of a run ends. */
  function OutcomeOf(c: Cache, rs: seq<Request>, i: nat): Outcome
    requires i < |rs|
  {
    Serve(After(c, rs[..i]), rs[i]).1
  }

  lemma {:induction false} RunStaysCoherent(c: Cache, rs: seq<Request>)
    requires Coherent(c) && Secure(rs)
    ensures Coherent(After(c, rs))
  {
    if rs != [] {
      RunStaysCoherent(c, rs[..|rs| - 1]);
      ServeKeeps(After(c, rs[..|rs| - 1]), rs[|rs| - 1]);
    }
  }

  lemma DroppedAt(c: Cache, rs: seq<Request>, i: nat)
    requires Coherent(c) && Secure(rs) && i < |rs| && OutcomeOf(c, rs, i).Changed?
    ensures rs[i].addr !in After(c, rs[..i + 1]).transports
  {
    RunStaysCoherent(c, rs[..i]);
    AfterOneMore(c, rs, i + 1);
    ServeKeeps(After(c, rs[..i]), rs[i]);
  }

  lemma OthersLeaveItDropped(c: Cache, rs: seq<Request>, j: nat, addr: string)
    requires Coherent(c) && Secure(rs) && j < |rs| && rs[j].addr != addr && addr !in After(c, rs[..j]).transports
    ensures addr !in After(c, rs[..j + 1]).transports
  {
    RunStaysCoherent(c, rs[..j]);
    AfterOneMore(c, rs, j + 1);
    ServeKeeps(After(c, rs[..j]), rs[j]);
  }

  /** Once an address failed with errProtocolChanged, nothing is cached for it until it is asked for again. */
  lemma {:induction false} StaysDropped(c: Cache, rs: seq<Request>, i: nat, j: nat)
    requires Coherent(c) && Secure(rs) && i < j <= |rs|
    requires OutcomeOf(c, rs, i).Changed? && forall k :: i < k < j ==> rs[k].addr != rs[i].addr
    ensures rs[i].addr !in After(c, rs[..j]).transports
    decreases j
  {
    if i == j - 1 {
      DroppedAt(c, rs, i);
    } else {
      var n := j - 1;
      StaysDropped(c, rs, i, n);
      assert rs[n].addr != rs[i].addr;
      OthersLeaveItDropped(c, rs, n, rs[i].addr);
    }
  }

  lemma AfterOneMore(c: Cache, rs: seq<Request>, j: nat)
    requires 0 < j <= |rs|
    ensures After(c, rs[..j]) == Serve(After(c, rs[..j - 1]), rs[j - 1]).0
  {
    assert rs[..j][..j - 1] == rs[..j - 1];
  }

  /**
  Recovery: from any coherent cache and whatever the server negotiates, after a request to an address that failed with
  errProtocolChanged the next one to that address fails so exactly if it meets a change in the round trip that sets
  its transport up.
  */
  lemma FailsAgainExactlyWhen(c: Cache, rs: seq<Request>, i: nat, j: nat)
    requires Coherent(c) && Secure(rs) && i < j < |rs| && rs[j].addr == rs[i].addr
    requires forall k :: i < k < j ==> rs[k].addr != rs[i].addr
    ensures OutcomeOf(c, rs, i).Changed? ==> (OutcomeOf(c, rs, j).Changed? <==> ChangesMidway(rs[j]))
  {
    if OutcomeOf(c, rs, i).Changed? {
      StaysDropped(c, rs, i, j);
      RunStaysCoherent(c, rs[..j]);
      ChangedExactlyWhen(After(c, rs[..j]), rs[j]);
    }
  }

  /** So no two consecutive requests to an address fail with errProtocolChanged if round trips dial at most once. */
  lemma NoTwoConsecutiveFailures(c: Cache, rs: seq<Request>, i: nat, j: nat)
    requires Coherent(c) && Secure(rs) && i < j < |rs| && rs[j].addr == rs[i].addr
    requires forall k :: i < k < j ==> rs[k].addr != rs[i].addr
    requires |rs[j].dials| <= 1
    ensures !(OutcomeOf(c, rs, i).Changed? && OutcomeOf(c, rs, j).Changed?)
  {
    FailsAgainExactlyWhen(c, rs, i, j);
  }

  /** And two requests in a row do fail from an empty cache if both meet a change midway, however they are dialed. */
  lemma BothFailExactlyWhen(r: Request, r': Request)
    requires r.scheme.Https? && r'.scheme.Https? && r'.addr == r.addr
    ensures OutcomeOf(EMPTY, [r, r'], 0).Changed? && OutcomeOf(EMPTY, [r, r'], 1).Changed? <==>
            ChangesMidway(r) && ChangesMidway(r')
  {
    ChangedExactlyWhen(EMPTY, r);
    assert [r, r'][..0] == [];
    FailsAgainExactlyWhen(EMPTY, [r, r'], 0, 1);
  }

  /** Two such requests: the server moves to HTTP/1 while the transport just set up opens a second connection. */
  lemma TwoDialsCanFailTwice(addr: string)
    ensures var r := Request(addr, Https, Handshake("h2"), true, [NetError, Handshake("http/1.1")], true);
            OutcomeOf(EMPTY, [r, r], 0).Changed? && OutcomeOf(EMPTY, [r, r], 1).Changed?
  {
    var r := Request(addr, Https, Handshake("h2"), true, [NetError, Handshake("http/1.1")], true);
    assert MeetsChangeAt(r.dials, 1, HTTP2, 1);
    BothFailExactlyWhen(r, r);
  }

  // ----- The code

  class Tripper {
    var cachedTransports: map<string, Transp>
    var cachedKinds: map<string, Kind>
    var cachedConnections: map<string, Kind>
    var nextId: nat

    function Now(): Cache
      reads this
    {
      Cache(cachedTransports, cachedKinds, cachedConnections, nextId)
    }

    constructor ()
      ensures Now() == Cache(map[], map[], map[], 0)
    {
      cachedTransports, cachedKinds, cachedConnections, nextId := map[], map[], map[], 0;
    }

    method CachedKind(addr: string) returns (kind: Kind, ok: bool)
      ensures (if ok then Some(kind) else None) == Lookup(cachedKinds, addr)
      ensures Coherent(Now()) ==> (ok <==> addr in cachedTransports) && (ok ==> kind == cachedTransports[addr].kind)
    {
      ok := addr in cachedKinds;
      kind := if ok then cachedKinds[addr] else HTTP1;
    }

    method DropCachedTransport(addr: string, stale: Transp)
      modifies this
      ensures Now() == Drop(old(Now()), addr, stale)
      ensures addr in old(cachedTransports) && old(cachedTransports[addr]) != stale ==>
                cachedTransports == old(cachedTransports)
      ensures Coherent(old(Now())) && addr in old(cachedTransports) && old(cachedTransports[addr]) == stale
              && addr !in old(cachedConnections) ==>
                Coherent(Now()) && SameElsewhere(old(Now()), Now(), addr) && Absent(Now(), addr)
    {
      if addr in cachedTransports && cachedTransports[addr] == stale {
        cachedTransports := cachedTransports - {addr};
      }
      cachedKinds := cachedKinds - {addr};
    }

    method DialTLSWithSetup(addr: string, setup: bool, net: Net, h3Builds: bool) returns (d: DialResult)
      modifies this
      ensures (Now(), d) == DialTLS(old(Now()), addr, setup, net, h3Builds)
      ensures Coherent(old(Now())) && (setup ==> addr !in old(cachedTransports)) ==>
                && Coherent(Now()) && SameElsewhere(old(Now()), Now(), addr)
                && (d.Got? ==> addr in cachedTransports && d.kind == cachedTransports[addr].kind)
                && (setup ==> !d.Got? && (d.ProtocolNegotiated? <==> addr in cachedTransports))
                && (d.ProtocolNegotiated? ==> StoredFor(old(Now()), Now(), addr, net.protocol))
      ensures !setup ==> cachedTransports == old(cachedTransports) && !d.ProtocolNegotiated?
    {
      if addr in cachedConnections {
        d := Got(cachedConnections[addr]);
        cachedConnections := cachedConnections - {addr};
        return;
      }
      if net.NetError? {
        return ErrNet;
      }
      var negotiatedKind := KindForProtocol(net.protocol);
      if !setup {
        var cachedKind, ok := CachedKind(addr);
        if ok && cachedKind == negotiatedKind {
          return Got(negotiatedKind);
        }
        return ErrProtocolChanged;
      }
      if negotiatedKind == HTTP3 && !h3Builds {
        return ErrNet;
      }
      cachedTransports := cachedTransports[addr := Transp(nextId, negotiatedKind)];
      nextId := nextId + 1;
      cachedKinds := cachedKinds[addr := negotiatedKind];
      cachedConnections := cachedConnections[addr := negotiatedKind];
      d := ProtocolNegotiated;
    }

    method GetTransport(r: Request) returns (ok: Option<bool>)
      modifies this
      ensures (Now(), ok) == Obtain(old(Now()), r)
      ensures Coherent(old(Now())) && r.scheme.Https? && r.addr !in old(cachedTransports) ==>
                Coherent(Now()) && SameElsewhere(old(Now()), Now(), r.addr)
                && ok.Some? && (ok.value <==> r.addr in cachedTransports)
      ensures r.scheme.Http? ==>
                ok == Some(true) && r.addr in cachedTransports && cachedTransports[r.addr].kind == HTTP1
                && cachedTransports == old(cachedTransports)[r.addr := cachedTransports[r.addr]]
                && cachedKinds == old(cachedKinds) && cachedConnections == old(cachedConnections)
      ensures r.scheme.OtherScheme? ==> ok == Some(false) && Now() == old(Now())
    {
      if r.scheme.Http? {
        cachedTransports := cachedTransports[r.addr := Transp(nextId, HTTP1)];
        nextId := nextId + 1;
        return Some(true);
      }
      if r.scheme.OtherScheme? {
        return Some(false);
      }
      var d := DialTLSWithSetup(r.addr, true, r.setup, r.h3Builds);
      ok := if d.Got? then None else Some(d.ProtocolNegotiated?);
    }

    /** A transport's own round trip, which calls back into the round tripper for every dial. */
    method Use(t: Transp, r: Request) returns (o: Outcome)
      modifies this
      ensures (Now(), o) == Exchange(old(Now()), t, r)
    {
      var dials := if r.scheme.Https? && t.kind != HTTP3 then r.dials else [];
      var i := 0;
      o := Ok;
      while i < |dials| && o.Ok?
        invariant 0 <= i <= |dials|
        invariant if o.Ok? then DialAll(Now(), r.addr, dials[i..]) == DialAll(old(Now()), r.addr, dials)
                  else (Now(), o) == DialAll(old(Now()), r.addr, dials)
      {
        var d := DialTLSWithSetup(r.addr, false, dials[i], false);
        assert dials[i..][1..] == dials[i + 1..];
        if d.ErrProtocolChanged? {
          o := Changed;
        } else if !d.Got? {
          o := OtherError;
        }
        i := i + 1;
      }
      if o.Ok? && !r.answers {
        o := OtherError;
      }
    }

    method RoundTrip(r: Request) returns (o: Outcome)
      modifies this
      ensures (Now(), o) == Serve(old(Now()), r)
      ensures Coherent(old(Now())) && r.scheme.Https? ==>
                && Coherent(Now()) && SameElsewhere(old(Now()), Now(), r.addr)
                && (o.Changed? ==> Absent(Now(), r.addr))
                && (o.Ok? <==> r.answers && Connects(old(Now()), r))
      ensures r.scheme.Http? ==>
                && (o.Ok? <==> r.answers) && !o.Changed? && r.addr in cachedTransports
                && (r.addr !in old(cachedTransports) ==> cachedTransports[r.addr].kind == HTTP1)
                && cachedKinds == old(cachedKinds) && cachedConnections == old(cachedConnections)
    {
      if r.scheme.Http? {
        PlainLeaves(Now(), r);
      }
      if Coherent(Now()) && r.scheme.Https? {
        ServeKeeps(Now(), r);
        SucceedsExactlyWhen(Now(), r);
      }
      if r.addr !in cachedTransports {
        var ok := GetTransport(r);
        if ok != Some(true) {
          return OtherError;
        }
      }
      if r.addr !in cachedTransports {
        return OtherError;
      }
      var t := cachedTransports[r.addr];
      o := Use(t, r);
      if o.Changed? {
        DropCachedTransport(r.addr, t);
      }
    }
  }
}
