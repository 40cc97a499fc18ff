/** The sockets of newSOCKS5QUICDialer in socks5_udp.go: who closes them, and how often. */
module Socks5Dialer {
  import opened Common
  import opened Socks5Udp
  import opened Socks5Control

  /** What the environment answers during one dial. */
  datatype Fate = Fate(
    parses: bool,
    listens: bool,
    connects: bool,
    setsDeadline: bool,
    reply: Bytes,
    writes: nat,
    clearsDeadline: bool,
    resolves: bool,
    handshakes: bool)

  /** The fixed parameters of a dialer and its resolver. */
  datatype Settings = Settings(
    auth: Option<Auth>, local: UDPAddr, resolve: Bytes -> Option<Bytes>, proxyIP: Option<Bytes>)

  predicate Associates(d: Settings, f: Fate) {
    && f.connects && f.setsDeadline && f.clearsDeadline
    && f.writes > Messages(f.reply) && Associate(d.auth, f.reply, d.resolve, d.proxyIP).Some?
  }

  /** A dial succeeds when every step does. */
  predicate Connects(d: Settings, f: Fate) {
    f.parses && f.listens && Associates(d, f) && f.resolves && f.handshakes
  }

  /** How many sockets a dial opens. */
  function Sockets(f: Fate): nat {
    if !f.parses || !f.listens then 0 else if f.connects then 2 else 1
  }

  // ----- Whole runs

  /** A packet connection: its UDP and control sockets, and the closed flag. */
  datatype Conn = Conn(udp: nat, control: nat, closed: bool)

  /** How often each socket ever opened was closed, and the packet connections handed to QUIC. */
  datatype World = World(closes: seq<nat>, conns: seq<Conn>)

  /** A dial, or a Close of a packet connection: its QUIC connection is done, or somebody closes it once more. */
  datatype Event = Dial(fate: Fate) | Close(conn: nat)

  function Ones(n: nat): seq<nat> {
    seq(n, _ => 1)
  }

  function Dialed(d: Settings, w: World, f: Fate): World {
    if Connects(d, f) then
      World(w.closes + [0, 0], w.conns + [Conn(|w.closes|, |w.closes| + 1, false)])
    else
      w.(closes := w.closes + Ones(Sockets(f)))
  }

  function CloseSocket(closes: seq<nat>, i: nat): seq<nat> {
    if i < |closes| then closes[i := closes[i] + 1] else closes
  }

  function Closed(w: World, i: nat): World {
    if i >= |w.conns| || w.conns[i].closed then w
    else
      var c := w.conns[i];
      World(CloseSocket(CloseSocket(w.closes, c.udp), c.control), w.conns[i := c.(closed := true)])
  }

  function Play(d: Settings, events: seq<Event>): World {
    if events == [] then World([], [])
    else
      var w := Play(d, events[..|events| - 1]);
      match events[|events| - 1]
      case Dial(f) => Dialed(d, w, f)
      case Close(i) => Closed(w, i)
  }

  predicate Owns(c: Conn, i: nat) {
    c.udp == i || c.control == i
  }

  /** Packet connections have sockets that exist, and no two share one. */
  ghost predicate Wired(w: World) {
    && (forall k :: 0 <= k < |w.conns| ==> w.conns[k].udp < |w.closes| && w.conns[k].control < |w.closes|)
    && (forall k :: 0 <= k < |w.conns| ==> w.conns[k].udp != w.conns[k].control)
    && (forall k, l :: 0 <= k < l < |w.conns| ==> Apart(w.conns[k], w.conns[l]))
  }

  predicate Apart(c: Conn, c': Conn) {
    c.udp != c'.udp && c.udp != c'.control && c.control != c'.udp && c.control != c'.control
  }

  /** Every socket is open with one open packet connection that owns it, or closed exactly once. */
  ghost predicate Conserved(w: World) {
    && Wired(w)
    && (forall k :: 0 <= k < |w.conns| && !w.conns[k].closed ==>
          w.closes[w.conns[k].udp] == 0 && w.closes[w.conns[k].control] == 0)
    && (forall i :: 0 <= i < |w.closes| ==> w.closes[i] == 1 || (w.closes[i] == 0 && InUse(w, i)))
  }

  ghost predicate InUse(w: World, i: nat) {
    exists k :: 0 <= k < |w.conns| && !w.conns[k].closed && Owns(w.conns[k], i)
  }

  lemma DialedConserves(d: Settings, w: World, f: Fate)
    requires Conserved(w)
    ensures Conserved(Dialed(d, w, f))
  {
    var w' := Dialed(d, w, f);
    forall i | 0 <= i < |w'.closes|
      ensures w'.closes[i] == 1 || (w'.closes[i] == 0 && InUse(w', i))
    {
      if i >= |w.closes| {
        if Connects(d, f) {
          assert Owns(w'.conns[|w.conns|], i);
        }
      } else if w.closes[i] == 0 {
        var k :| 0 <= k < |w.conns| && !w.conns[k].closed && Owns(w.conns[k], i);
        assert w'.conns[k] == w.conns[k];
      }
    }
  }

  /** Closing a connection touches no socket of another one. */
  lemma ClosedElsewhere(w: World, n: nat, k: nat)
    requires Wired(w) && n < |w.conns| && k < |w.conns| && k != n
    ensures var w' := Closed(w, n);
            && |w'.conns| == |w.conns| && |w'.closes| == |w.closes| && w'.conns[k] == w.conns[k]
            && w'.closes[w.conns[k].udp] == w.closes[w.conns[k].udp]
            && w'.closes[w.conns[k].control] == w.closes[w.conns[k].control]
  {
    assert if k < n then Apart(w.conns[k], w.conns[n]) else Apart(w.conns[n], w.conns[k]);
  }

  lemma ClosedWired(w: World, n: nat)
    requires Wired(w)
    ensures Wired(Closed(w, n))
  {
    var w' := Closed(w, n);
    forall k | 0 <= k < |w.conns|
      ensures w'.conns[k].udp == w.conns[k].udp && w'.conns[k].control == w.conns[k].control
    {
    }
    forall k, l | 0 <= k < l < |w.conns|
      ensures Apart(w'.conns[k], w'.conns[l])
    {
      assert Apart(w.conns[k], w.conns[l]);
    }
  }

  /** A socket still open after a Close was open before it, with a connection other than the closed one. */
  lemma StillInUse(w: World, n: nat, i: nat)
    requires n < |w.conns| && Wired(w) && InUse(w, i) && !Owns(w.conns[n], i)
    ensures InUse(Closed(w, n), i)
  {
    var k :| 0 <= k < |w.conns| && !w.conns[k].closed && Owns(w.conns[k], i);
    ClosedElsewhere(w, n, k);
  }

  lemma ClosedConserves(w: World, n: nat)
    requires Conserved(w)
    ensures Conserved(Closed(w, n))
  {
    if n < |w.conns| && !w.conns[n].closed {
      var w' := Closed(w, n);
      ClosedWired(w, n);
      forall k | 0 <= k < |w'.conns| && !w'.conns[k].closed
        ensures w'.closes[w'.conns[k].udp] == 0 && w'.closes[w'.conns[k].control] == 0
      {
        ClosedElsewhere(w, n, k);
      }
      forall i | 0 <= i < |w'.closes|
        ensures w'.closes[i] == 1 || (w'.closes[i] == 0 && InUse(w', i))
      {
        if !Owns(w.conns[n], i) && w.closes[i] == 0 {
          StillInUse(w, n, i);
        }
      }
    }
  }

  lemma {:induction false} RunConserves(d: Settings, events: seq<Event>)
    ensures Conserved(Play(d, events))
  {
    if events != [] {
      RunConserves(d, events[..|events| - 1]);
      var w := Play(d, events[..|events| - 1]);
      match events[|events| - 1]
      case Dial(f) => DialedConserves(d, w, f);
      case Close(i) => ClosedConserves(w, i);
    }
  }

  /**
  However dials end and whenever packet connections are closed, however often: a socket is open exactly while an
  open packet connection owns it, and otherwise it was closed exactly once. So when all connections are done, every
  socket ever opened has been closed exactly once.
  */
  lemma SocketsAreConserved(d: Settings, events: seq<Event>)
    ensures var w := Play(d, events);
            forall i :: 0 <= i < |w.closes| ==> w.closes[i] == (if InUse(w, i) then 0 else 1)
    ensures var w := Play(d, events);
            (forall k :: 0 <= k < |w.conns| ==> w.conns[k].closed) ==> w.closes == Ones(|w.closes|)
  {
    RunConserves(d, events);
  }

  // ----- The code

  /** The operating system's socket table. */
  class Network {
    var closes: seq<nat>

    constructor ()
      ensures closes == []
    {
      closes := [];
    }

    method Open() returns (socket: nat)
      modifies this
      ensures socket == |old(closes)| && closes == old(closes) + [0]
    {
      socket := |closes|;
      closes := closes + [0];
    }

    method CloseIt(socket: nat)
      modifies this
      ensures closes == CloseSocket(old(closes), socket)
    {
      if socket < |closes| {
        closes := closes[socket := closes[socket] + 1];
      }
    }

    /** socks5UDPAssociate: the control socket is closed on every failure after it was opened, and open on success. */
    method AssociateUDP(d: Settings, f: Fate) returns (control: Option<nat>)
      modifies this
      ensures control == (if Associates(d, f) then Some(|old(closes)|) else None)
      ensures closes == old(closes) + (if Associates(d, f) then [0] else if f.connects then [1] else [])
    {
      if !f.connects {
        return None;
      }
      var tcp := Open();
      if !f.setsDeadline {
        CloseIt(tcp);
        return None;
      }
      var conn := new ControlConn(f.reply, f.writes);
      var relay := conn.UDPAssociate(d.auth, Some(d.local), d.resolve, d.proxyIP);
      if relay.None? || !f.clearsDeadline {
        CloseIt(tcp);
        return None;
      }
      return Some(tcp);
    }

    /** The QUIC dialer: failure leaves each socket it opened closed once, success leaves two in a packet connection. */
    method DialQUIC(d: Settings, f: Fate) returns (conn: PacketConn?)
      modifies this
      ensures conn != null <==>
              && f.parses && f.listens && f.connects && f.setsDeadline && f.clearsDeadline && f.resolves && f.handshakes
              && Associate(d.auth, f.reply, d.resolve, d.proxyIP).Some? && f.writes > Messages(f.reply)
      ensures conn != null ==> fresh(conn) && conn.network == this
      ensures conn != null ==> conn.View() == Conn(|old(closes)|, |old(closes)| + 1, false)
      ensures closes == Dialed(d, World(old(closes), []), f).closes
    {
      if !f.parses || !f.listens {
        return null;
      }
      var udp := Open();
      var control := AssociateUDP(d, f);
      if control.None? {
        CloseIt(udp);
        return null;
      }
      conn := new PacketConn(this, udp, control.value);
      if !f.resolves {
        conn.Shut();
        return null;
      }
      if !f.handshakes {
        conn.Shut();
        return null;
      }
    }
  }

  class PacketConn {
    const network: Network
    const udp: nat
    const control: nat
    var closed: bool

    constructor (network: Network, udp: nat, control: nat)
      ensures this.network == network && View() == Conn(udp, control, false)
    {
      this.network, this.udp, this.control, closed := network, udp, control, false;
    }

    function View(): Conn
      reads this
    {
      Conn(udp, control, closed)
    }

    /** Close: only the first call closes the two sockets. */
    method Shut()
      modifies this, network
      ensures World(network.closes, [View()]) == Closed(World(old(network.closes), [old(View())]), 0)
    {
      if closed {
        return;
      }
      closed := true;
      network.CloseIt(udp);
      network.CloseIt(control);
    }
  }

  // ----- Any run of the code

  function Views(conns: seq<PacketConn>): (r: seq<Conn>)
    reads conns
    ensures |r| == |conns|
  {
    seq(|conns|, i requires 0 <= i < |conns| reads conns => conns[i].View())
  }

  /** Any dials and any closes of packet connections, in any order, do what the run's specification says. */
  method Drive(d: Settings, events: seq<Event>) returns (network: Network, conns: seq<PacketConn>)
    ensures World(network.closes, Views(conns)) == Play(d, events)
  {
    network := new Network();
    conns := [];
    for n := 0 to |events|
      invariant fresh(network) && forall k :: 0 <= k < |conns| ==> fresh(conns[k]) && conns[k].network == network
      invariant forall k, l :: 0 <= k < l < |conns| ==> conns[k] != conns[l]
      invariant World(network.closes, Views(conns)) == Play(d, events[..n])
    {
      assert events[..n + 1][..n] == events[..n];
      match events[n]
      case Dial(f) =>
        var conn := network.DialQUIC(d, f);
        if conn != null {
          conns := conns + [conn];
        }
      case Close(k) =>
        if k < |conns| {
          conns[k].Shut();
        }
    }
    assert events[..|events|] == events;
  }
}
