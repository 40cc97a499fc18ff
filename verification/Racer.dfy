/** The protocol race of racer.go: two legs, a two-slot channel, a deadline and the protocol cache. */
module Racer {
  import opened Common
  import opened TransportCache
  import opened RoundTripper

  datatype Leg = Quic | TcpLeg

  function Protocol(leg: Leg): string {
    if leg.Quic? then "h3" else "h2"
  }

  /** Which leg's response a caller got. */
  datatype Response = OverQuic | OverTcp

  datatype RaceError = LegError(cause: Outcome) | DeadlineExceeded | BothFailed

  /** What a leg sends. Nothing forces exactly one of response and err to be set. */
  datatype RacingResult = RacingResult(protocol: string, response: Option<Response>, err: Option<RaceError>)

  predicate Wins(r: RacingResult) {
    r.err.None? && r.response.Some?
  }

  /** What one select yields: a result from the channel, or the end of the context. */
  datatype Pick = Receive(result: RacingResult) | Expired

  /** The first winning result received before the context ended. */
  function Winner(picks: seq<Pick>): Option<RacingResult> {
    if picks == [] || picks[0].Expired? then None
    else if Wins(picks[0].result) then Some(picks[0].result)
    else Winner(picks[1..])
  }

  /** The error of a race without a winner: the error received last, unless there is none. */
  function RaceFailure(picks: seq<Pick>, lastErr: Option<RaceError>): RaceError {
    if picks == [] then (if lastErr.Some? then lastErr.value else BothFailed)
    else if picks[0].Expired? then (if lastErr.Some? then lastErr.value else DeadlineExceeded)
    else RaceFailure(picks[1..], picks[0].result.err)
  }

  /** A race ends with the winner's response, or with an error: never with both, never with neither. */
  function RaceEnd(picks: seq<Pick>): (r: (Option<Response>, Option<RaceError>))
    ensures r.0.Some? <==> r.1.None?
    ensures r.0.Some? <==> Winner(picks).Some?
  {
    match Winner(picks)
    case Some(result) => WinnerWins(picks); (result.response, None)
    case None => (None, Some(RaceFailure(picks, None)))
  }

  lemma {:induction false} WinnerWins(picks: seq<Pick>)
    requires Winner(picks).Some?
    ensures Wins(Winner(picks).value)
    ensures exists i :: 0 <= i < |picks| && picks[i] == Receive(Winner(picks).value)
                        && forall k :: 0 <= k < i ==> picks[k].Receive? && !Wins(picks[k].result)
  {
    if !Wins(picks[0].result) {
      WinnerWins(picks[1..]);
      var j :| 0 <= j < |picks[1..]| && picks[1..][j] == Receive(Winner(picks[1..]).value)
               && forall k :: 0 <= k < j ==> picks[1..][k].Receive? && !Wins(picks[1..][k].result);
      assert forall k :: 0 < k < j + 1 ==> picks[k] == picks[1..][k - 1];
      assert picks[j + 1] == Receive(Winner(picks).value);
    }
  }

  // ----- One raced request

  /** The order in which the waiter's selects are served. */
  datatype Ready = LegReady(leg: Leg) | Deadline

  function PickFor(ready: Ready, quic: RacingResult, tcp: RacingResult): Pick {
    match ready
    case LegReady(Quic) => Receive(quic)
    case LegReady(TcpLeg) => Receive(tcp)
    case Deadline => Expired
  }

  function LegResult(leg: Leg, o: Outcome): RacingResult {
    if o.Ok? then RacingResult(Protocol(leg), Some(if leg.Quic? then OverQuic else OverTcp), None)
    else RacingResult(Protocol(leg), None, Some(LegError(o)))
  }

  /** A raced request: first the cached protocol, then the race. */
  datatype Raced = Raced(
    first: Request, cachedQuic: Outcome,   // what the cached protocol's transport will meet
    second: Request, quic: Outcome,        // what the legs of the race will meet
    order: (Ready, Ready))

  function Picks(quic: Outcome, tcp: Outcome, order: (Ready, Ready)): seq<Pick> {
    [PickFor(order.0, LegResult(Quic, quic), LegResult(TcpLeg, tcp)),
     PickFor(order.1, LegResult(Quic, quic), LegResult(TcpLeg, tcp))]
  }

  /** startRace: the TCP leg runs like a direct request. */
  function StartRace(c: Cache, protocols: map<string, string>, q: Raced)
      : (Cache, map<string, string>, Option<Response>, Option<RaceError>)
  {
    var addr := q.second.addr;
    var (c', o) := Serve(c, q.second);
    var picks := Picks(q.quic, o, q.order);
    var (response, err) := RaceEnd(picks);
    (c', if Winner(picks).Some? then protocols[addr := Winner(picks).value.protocol] else protocols, response, err)
  }

  function RaceSpec(c: Cache, protocols: map<string, string>, q: Raced)
      : (Cache, map<string, string>, Option<Response>, Option<RaceError>)
  {
    var addr := q.first.addr;
    if addr !in protocols then StartRace(c, protocols, q)
    else if protocols[addr] == "h3" then
      if q.cachedQuic.Ok? then (c, protocols, Some(OverQuic), None) else StartRace(c, protocols - {addr}, q)
    else
      var (c1, o) := Serve(c, q.first);
      if o.Ok? then (c1, protocols, Some(OverTcp), None) else StartRace(c1, protocols - {addr}, q)
  }

  /** The protocol cached for an address is the one that answered; none is after a failure. */
  predicate Remembers(protocols: map<string, string>, addr: string, response: Option<Response>) {
    if response.None? then addr !in protocols
    else addr in protocols && protocols[addr] == Answered(response.value)
  }

  predicate NamesProtocols(protocols: map<string, string>) {
    forall a :: a in protocols ==> protocols[a] == "h2" || protocols[a] == "h3"
  }

  function Answered(r: Response): string {
    if r.OverTcp? then "h2" else "h3"
  }

  lemma StartRaceMeans(c: Cache, protocols: map<string, string>, q: Raced)
    requires q.second.addr !in protocols
    ensures var (_, protocols', response, err) := StartRace(c, protocols, q);
            && (response.Some? <==> err.None?)
            && protocols' == if response.None? then protocols else protocols[q.second.addr := Answered(response.value)]
  {
    var picks := Picks(q.quic, Serve(c, q.second).1, q.order);
    if Winner(picks).Some? {
      WinnerWins(picks);
    }
  }

  /** What a race may do to the protocol cache. */
  ghost predicate Recorded(protocols: map<string, string>, addr: string, protocols': map<string, string>,
                           response: Option<Response>, err: Option<RaceError>) {
    && (response.Some? <==> err.None?)
    && protocols' - {addr} == protocols - {addr}
    && (NamesProtocols(protocols) ==> NamesProtocols(protocols') && Remembers(protocols', addr, response))
  }

  lemma FreshRaceRecords(c: Cache, protocols: map<string, string>, q: Raced)
    ensures var (_, protocols', response, err) := StartRace(c, protocols - {q.second.addr}, q);
            Recorded(protocols, q.second.addr, protocols', response, err)
  {
    StartRaceMeans(c, protocols - {q.second.addr}, q);
  }

  /** After a race the protocol cache names the protocol that answered, or nothing when none did. */
  lemma RaceMeans(c: Cache, protocols: map<string, string>, q: Raced)
    requires q.first.addr == q.second.addr
    ensures var (_, protocols', response, err) := RaceSpec(c, protocols, q);
            Recorded(protocols, q.first.addr, protocols', response, err)
  {
    var addr := q.first.addr;
    FreshRaceRecords(c, protocols, q);
    FreshRaceRecords(Serve(c, q.first).0, protocols, q);
    if addr !in protocols {
      assert protocols - {addr} == protocols;
    }
  }

  /** The cached protocol is tried, and its attempt succeeds: over QUIC, or as a request on the round tripper. */
  predicate CachedAnswers(c: Cache, protocols: map<string, string>, q: Raced) {
    && q.first.addr in protocols
    && if protocols[q.first.addr] == "h3" then q.cachedQuic.Ok? else Serve(c, q.first).1.Ok?
  }

  /** The cache after the cached protocol was tried. */
  function AfterCached(c: Cache, protocols: map<string, string>, q: Raced): Cache {
    if q.first.addr in protocols && protocols[q.first.addr] != "h3" then Serve(c, q.first).0 else c
  }

  /** This select receives the result of a leg that succeeded. */
  predicate Answers(ready: Ready, quic: Outcome, tcp: Outcome) {
    (ready == LegReady(Quic) && quic.Ok?) || (ready == LegReady(TcpLeg) && tcp.Ok?)
  }

  /** The response that a race yields, if any: that of the first select that received one before the deadline. */
  function Yield(quic: Outcome, tcp: Outcome, order: (Ready, Ready)): Option<Response> {
    if Answers(order.0, quic, tcp) then Some(if order.0 == LegReady(Quic) then OverQuic else OverTcp)
    else if !order.0.Deadline? && Answers(order.1, quic, tcp) then
      Some(if order.1 == LegReady(Quic) then OverQuic else OverTcp)
    else None
  }

  /** The error of a race that yields no response: that of the leg received last, or the deadline's if none was. */
  function Complaint(quic: Outcome, tcp: Outcome, order: (Ready, Ready)): RaceError {
    var last := if order.1.Deadline? then order.0 else order.1;
    if order.0.Deadline? then DeadlineExceeded else LegError(if last == LegReady(Quic) then quic else tcp)
  }

  lemma StartRaceYields(c: Cache, protocols: map<string, string>, q: Raced)
    ensures var (c', protocols', response, err) := StartRace(c, protocols, q);
            && response == Yield(q.quic, Serve(c, q.second).1, q.order) && c' == Serve(c, q.second).0
            && (response.None? ==> err == Some(Complaint(q.quic, Serve(c, q.second).1, q.order)))
  {
    var picks := Picks(q.quic, Serve(c, q.second).1, q.order);
    assert picks[1..] == [picks[1]] && picks[1..][1..] == [];
    assert Winner([]) == None && RaceFailure(picks[1..][1..], None) == BothFailed;
  }

  /**
  Exactly when a raced request is answered, and by whom. If the attempt with the cached protocol succeeds, its response
  is returned, the protocol cache stays as it was and no race is run. Otherwise the response is the first that a leg
  which succeeded delivers before the deadline, and both attempts have left their mark on the transport cache.
  */
  lemma RaceAnswersExactlyWhen(c: Cache, protocols: map<string, string>, q: Raced)
    requires q.first.addr == q.second.addr
    ensures var (c', protocols', response, err) := RaceSpec(c, protocols, q);
            var c1 := AfterCached(c, protocols, q);
            if CachedAnswers(c, protocols, q) then
              && response == Some(if protocols[q.first.addr] == "h3" then OverQuic else OverTcp)
              && protocols' == protocols && c' == c1
            else
              && response == Yield(q.quic, Serve(c1, q.second).1, q.order)
              && (response.None? ==> err == Some(Complaint(q.quic, Serve(c1, q.second).1, q.order)))
              && c' == Serve(c1, q.second).0
    ensures var response := RaceSpec(c, protocols, q).2;
            && (response == Some(OverQuic) ==> q.cachedQuic.Ok? || q.quic.Ok?)
            && (response == Some(OverTcp) ==>
                  Serve(c, q.first).1.Ok? || Serve(AfterCached(c, protocols, q), q.second).1.Ok?)
  {
    StartRaceYields(c, protocols, q);
    StartRaceYields(c, protocols - {q.first.addr}, q);
    StartRaceYields(Serve(c, q.first).0, protocols - {q.first.addr}, q);
  }

  lemma SameElsewhereTrans(a: Cache, b: Cache, c: Cache, addr: string)
    requires SameElsewhere(a, b, addr) && SameElsewhere(b, c, addr)
    ensures SameElsewhere(a, c, addr)
  {
  }

  lemma StartRaceKeeps(c: Cache, protocols: map<string, string>, q: Raced)
    requires Coherent(c) && q.second.scheme.Https?
    ensures var c' := StartRace(c, protocols, q).0; Coherent(c') && SameElsewhere(c, c', q.second.addr)
  {
    ServeKeeps(c, q.second);
  }

  /** A race of https requests keeps the cache coherent and leaves every other address alone. */
  lemma RaceKeeps(c: Cache, protocols: map<string, string>, q: Raced)
    requires Coherent(c) && q.first.scheme.Https? && q.second.scheme.Https? && q.first.addr == q.second.addr
    ensures var c' := RaceSpec(c, protocols, q).0; Coherent(c') && SameElsewhere(c, c', q.first.addr)
  {
    var addr, c1 := q.first.addr, Serve(c, q.first).0;
    StartRaceKeeps(c, protocols, q);
    StartRaceKeeps(c, protocols - {addr}, q);
    ServeKeeps(c, q.first);
    StartRaceKeeps(c1, protocols - {addr}, q);
    SameElsewhereTrans(c, c1, StartRace(c1, protocols - {addr}, q).0, addr);
  }

  class ProtocolRacer {
    var protocolCache: map<string, string>
    const tripper: Tripper

    constructor (tripper: Tripper)
      ensures this.tripper == tripper && protocolCache == map[]
    {
      this.tripper := tripper;
      protocolCache := map[];
    }

    method ClearProtocolCache(addr: string)
      modifies this
      ensures protocolCache == old(protocolCache) - {addr}
    {
      protocolCache := protocolCache - {addr};
    }

    /** waitForRaceWinner: picks holds what its selects yield, should it get to them. */
    method WaitForRaceWinner(addr: string, picks: seq<Pick>)
        returns (response: Option<Response>, err: Option<RaceError>)
      requires |picks| == 2
      modifies this
      ensures (response, err) == RaceEnd(picks)
      ensures protocolCache == if Winner(picks).Some? then old(protocolCache)[addr := Winner(picks).value.protocol]
                               else old(protocolCache)
    {
      var lastErr: Option<RaceError> := None;
      var i := 0;
      while i < 2
        invariant 0 <= i <= 2
        invariant Winner(picks[i..]) == Winner(picks) && RaceFailure(picks[i..], lastErr) == RaceFailure(picks, None)
        invariant protocolCache == old(protocolCache)
      {
        assert picks[i..][0] == picks[i] && picks[i..][1..] == picks[i + 1..];
        match picks[i] {
          case Receive(result) =>
            if result.err.None? && result.response.Some? {
              protocolCache := protocolCache[addr := result.protocol];
              return result.response, None;
            }
            lastErr := result.err;
          case Expired =>
            return None, Some(if lastErr.Some? then lastErr.value else DeadlineExceeded);
        }
        i := i + 1;
      }
      assert picks[2..] == [];
      return None, Some(if lastErr.Some? then lastErr.value else BothFailed);
    }

    method Race(q: Raced) returns (response: Option<Response>, err: Option<RaceError>)
      requires q.first.addr == q.second.addr
      modifies this, tripper
      ensures (tripper.Now(), protocolCache, response, err) == RaceSpec(old(tripper.Now()), old(protocolCache), q)
      ensures Coherent(old(tripper.Now())) && q.first.scheme.Https? && q.second.scheme.Https? ==>
                Coherent(tripper.Now()) && SameElsewhere(old(tripper.Now()), tripper.Now(), q.first.addr)
      ensures Recorded(old(protocolCache), q.first.addr, protocolCache, response, err)
      ensures if CachedAnswers(old(tripper.Now()), old(protocolCache), q) then
                && response == Some(if old(protocolCache)[q.first.addr] == "h3" then OverQuic else OverTcp)
                && protocolCache == old(protocolCache)
              else
                var c1 := AfterCached(old(tripper.Now()), old(protocolCache), q);
                response == Yield(q.quic, Serve(c1, q.second).1, q.order)
    {
      RaceMeans(tripper.Now(), protocolCache, q);
      RaceAnswersExactlyWhen(tripper.Now(), protocolCache, q);
      if Coherent(tripper.Now()) && q.first.scheme.Https? && q.second.scheme.Https? {
        RaceKeeps(tripper.Now(), protocolCache, q);
      }
      var addr := q.first.addr;
      if addr in protocolCache {
        if protocolCache[addr] == "h3" {
          if q.cachedQuic.Ok? {
            return Some(OverQuic), None;
          }
        } else {
          var o := tripper.RoundTrip(q.first);
          if o.Ok? {
            return Some(OverTcp), None;
          }
        }
        ClearProtocolCache(addr);
      }
      response, err := RunRace(q);
    }

    /** startRace. */
    method RunRace(q: Raced) returns (response: Option<Response>, err: Option<RaceError>)
      modifies this, tripper
      ensures (tripper.Now(), protocolCache, response, err) == StartRace(old(tripper.Now()), old(protocolCache), q)
    {
      var tcp := tripper.RoundTrip(q.second);
      response, err := WaitForRaceWinner(q.second.addr, Picks(q.quic, tcp, q.order));
    }
  }

  /** The TCP leg's result is received before the deadline. */
  predicate TcpInTime(order: (Ready, Ready)) {
    order.0 == LegReady(TcpLeg) || (!order.0.Deadline? && order.1 == LegReady(TcpLeg))
  }

  /**
  Recovery with racing: when the protocol cache says h2 and the server has changed its protocol, the request that
  meets the change succeeds itself, if the rebuilt TCP leg's handshake and exchange do and its result comes in time.
  */
  lemma RaceRecovers(c: Cache, protocols: map<string, string>, q: Raced)
    requires Coherent(c) && q.first.addr == q.second.addr
    requires q.first.addr in protocols && protocols[q.first.addr] == "h2"
    requires q.first.scheme.Https? && Serve(c, q.first).1.Changed?
    requires q.second.scheme.Https? && SetsUp(q.second) && q.second.answers
    requires TcpInTime(q.order)
    ensures var (c', protocols', response, err) := RaceSpec(c, protocols, q);
            && response.Some? && err.None? && q.first.addr in protocols'
            && protocols'[q.first.addr] == (if response == Some(OverTcp) then "h2" else "h3")
            && q.first.addr in c'.transports
            && Speaks(c'.transports[q.first.addr].kind, q.second.setup.protocol)
  {
    ServeKeeps(c, q.first);
    var c1 := Serve(c, q.first).0;
    SucceedsExactlyWhen(c1, q.second);
    RebuiltKind(c1, q.second);
    var picks := Picks(q.quic, Ok, q.order);
    assert Winner(picks[1..][1..]) == None;
    assert picks[1..][0] == picks[1];
    WinnerWins(picks);
  }

  /** The transport left behind by a request that had to set up is of the kind just negotiated. */
  lemma RebuiltKind(c: Cache, r: Request)
    requires Coherent(c) && r.scheme.Https? && r.addr !in c.transports && Serve(c, r).1.Ok?
    ensures r.setup.Handshake? && r.addr in Serve(c, r).0.transports
    ensures Serve(c, r).0.transports[r.addr].kind == KindForProtocol(r.setup.protocol)
    ensures Speaks(Serve(c, r).0.transports[r.addr].kind, r.setup.protocol)
  {
    DialAllFrame(Obtain(c, r).0, r.addr, r.dials);
  }
}
