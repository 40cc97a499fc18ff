/**
The goroutines of a race in racer.go: the two legs with their program counters, the three locks the TCP leg takes, the
two-slot channel, the deadline and the waiter, in every interleaving.
*/
module RaceLegs {
  import opened Common
  import opened Racer
  import opened RoundTripper

  /** attemptHTTP3: build, round trip, send; or send right after a failed build. */
  datatype QuicPc = QuicBuild | QuicTrip | QuicSend(result: RacingResult) | QuicDone

  /**
  attemptHTTP2: sleep; take cachedTransportsLck; if nothing is cached, getTransport takes the round tripper mutex, dials
  and stores the kind under cachedKindsLck; release; then round trip and send, or send the setup's error. A round trip
  that reports a changed protocol drops the transport, under cachedTransportsLck and then cachedKindsLck, before the
  send.
  */
  datatype TcpPc =
    | TcpSleep
    | TcpWait
    | TcpLocked
    | TcpMutexWait
    | TcpDial
    | TcpKindsWait
    | TcpKinds
    | TcpUnlock(setupErr: Option<RaceError>)
    | TcpTrip
    | TcpDropWait(result: RacingResult)
    | TcpDrop(result: RacingResult)
    | TcpDropKindsWait(result: RacingResult)
    | TcpDropKinds(result: RacingResult)
    | TcpSend(result: RacingResult)
    | TcpDone

  datatype Lock = Transports | Mutex | Kinds

  /** Who holds a lock: nobody, the TCP leg, the waiter, or a process outside this race. */
  datatype Holder = Free | ByLeg | ByWaiter | Outside

  /**
  waitForRaceWinner: between two selects; in cacheWinningProtocol after an h3 win, building the transport for the
  HTTP/3 slot, waiting for cachedTransportsLck or holding it; or returned.
  */
  datatype Waiter =
    | Selecting(lastErr: Option<RaceError>)
    | Recording(result: RacingResult)
    | StoreWait(result: RacingResult)
    | Storing(result: RacingResult)
    | Returned(response: Option<Response>, err: Option<RaceError>)

  /**
  dropped says whether the TCP leg has dropped its transport; got is what the waiter has received, in order; done says
  the context has ended; cached is the protocol recorded and stored whether the HTTP/3 slot was filled.
  */
  datatype RaceState = RaceState(
    quic: QuicPc,
    tcp: TcpPc,
    transports: Holder,
    mutex: Holder,
    kinds: Holder,
    dropped: bool,
    channel: seq<RacingResult>,
    got: seq<RacingResult>,
    waiter: Waiter,
    done: bool,
    cached: Option<string>,
    stored: bool)

  const RaceInit :=
    RaceState(QuicBuild, TcpSleep, Free, Free, Free, false, [], [], Selecting(None), false, None, false)

  const SLOTS := 2

  datatype RaceEvent =
    | QuicBuilds(buildErr: Option<RaceError>)
    | QuicAnswers(response: Option<Response>, err: Option<RaceError>)
    | QuicSends
    | TcpWakes
    | TcpLocks
    | TcpFinds(hit: bool)
    | TcpDials(dialErr: Option<RaceError>)
    | TcpUnlocks
    | TcpAnswers(response: Option<Response>, err: Option<RaceError>)
    | TcpSends
    | OutsideLocks(lock: Lock)
    | OutsideUnlocks(lock: Lock)
    | TakeResult
    | WaiterBuilds(ok: bool)
    | WaiterLocks
    | WaiterStores
    | DeadlineFires
    | TakeDeadline

  function Held(s: RaceState, l: Lock): Holder {
    match l
    case Transports => s.transports
    case Mutex => s.mutex
    case Kinds => s.kinds
  }

  function SetHeld(s: RaceState, l: Lock, h: Holder): RaceState {
    match l
    case Transports => s.(transports := h)
    case Mutex => s.(mutex := h)
    case Kinds => s.(kinds := h)
  }

  /** A step of the QUIC leg. A send blocks on a full channel. */
  function QuicStep(s: RaceState, e: RaceEvent): Option<RaceState> {
    match s.quic
    case QuicBuild =>
      if !e.QuicBuilds? then None
      else if e.buildErr.Some? then Some(s.(quic := QuicSend(RacingResult("h3", None, e.buildErr))))
      else Some(s.(quic := QuicTrip))
    case QuicTrip =>
      if !e.QuicAnswers? then None
      else Some(s.(quic := QuicSend(RacingResult("h3", if e.err.Some? then None else e.response, e.err))))
    case QuicSend(result) =>
      if !e.QuicSends? || |s.channel| >= SLOTS then None
      else Some(s.(quic := QuicDone, channel := s.channel + [result]))
    case QuicDone => None
  }

  /** The lock the TCP leg waits for, and where it goes on once it has it. */
  function LegWants(pc: TcpPc): Option<(Lock, TcpPc)> {
    match pc
    case TcpWait => Some((Transports, TcpLocked))
    case TcpMutexWait => Some((Mutex, TcpDial))
    case TcpKindsWait => Some((Kinds, TcpKinds))
    case TcpDropWait(result) => Some((Transports, TcpDrop(result)))
    case TcpDropKindsWait(result) => Some((Kinds, TcpDropKinds(result)))
    case _ => None
  }

  predicate IsChange(err: Option<RaceError>) {
    err == Some(LegError(Changed))
  }

  /** A step of the TCP leg. */
  function TcpStep(s: RaceState, e: RaceEvent): Option<RaceState> {
    if LegWants(s.tcp).Some? then
      var (l, pc) := LegWants(s.tcp).value;
      if e.TcpLocks? && Held(s, l).Free? then Some(SetHeld(s, l, ByLeg).(tcp := pc)) else None
    else TcpRun(s, e)
  }

  /** A step of the TCP leg that waits for no lock. */
  function TcpRun(s: RaceState, e: RaceEvent): Option<RaceState> {
    match s.tcp
    case TcpSleep => if e.TcpWakes? then Some(s.(tcp := TcpWait)) else None
    case TcpLocked => if e.TcpFinds? then Some(s.(tcp := if e.hit then TcpUnlock(None) else TcpMutexWait)) else None
    case TcpDial =>
      if !e.TcpDials? then None
      else if e.dialErr.Some? then Some(s.(tcp := TcpUnlock(e.dialErr), mutex := Free))
      else Some(s.(tcp := TcpKindsWait))
    case TcpKinds => if e.TcpUnlocks? then Some(s.(tcp := TcpUnlock(None), kinds := Free, mutex := Free)) else None
    case TcpUnlock(err) =>
      if !e.TcpUnlocks? then None
      else Some(s.(tcp := if err.Some? then TcpSend(RacingResult("h2", None, err)) else TcpTrip, transports := Free))
    case TcpTrip =>
      if !e.TcpAnswers? then None
      else
        var result := RacingResult("h2", e.response, e.err);
        Some(s.(tcp := if IsChange(e.err) then TcpDropWait(result) else TcpSend(result)))
    case TcpDrop(result) =>
      if e.TcpUnlocks? then Some(s.(tcp := TcpDropKindsWait(result), transports := Free)) else None
    case TcpDropKinds(result) =>
      if e.TcpUnlocks? then Some(s.(tcp := TcpSend(result), kinds := Free, dropped := true)) else None
    case TcpSend(result) =>
      if !e.TcpSends? || |s.channel| >= SLOTS then None
      else Some(s.(tcp := TcpDone, channel := s.channel + [result]))
    case _ => None
  }

  /** The waiter returns, and with it startRace, which ends the context. */
  function Return(s: RaceState, response: Option<Response>, err: Option<RaceError>): RaceState {
    s.(waiter := Returned(response, err), done := true)
  }

  /** A select of the waiter takes a result. */
  function Take(s: RaceState): Option<RaceState> {
    if !s.waiter.Selecting? || s.channel == [] then None
    else
      var result := s.channel[0];
      var s' := s.(channel := s.channel[1..], got := s.got + [result]);
      if Wins(result) then
        var s1 := s'.(cached := Some(result.protocol));
        Some(if result.protocol == "h3" then s1.(waiter := Recording(result)) else Return(s1, result.response, None))
      else if |s.got| == 0 then Some(s'.(waiter := Selecting(result.err)))
      else Some(Return(s', None, Some(if result.err.Some? then result.err.value else BothFailed)))
  }

  /** A step of the waiter or of the world around; a select may take whichever of its cases is ready. */
  function WaitStep(s: RaceState, e: RaceEvent): Option<RaceState> {
    match e
    case TakeResult => Take(s)
    case TakeDeadline =>
      if !s.waiter.Selecting? || !s.done then None
      else Some(Return(s, None, Some(if s.waiter.lastErr.Some? then s.waiter.lastErr.value else DeadlineExceeded)))
    case WaiterBuilds(ok) =>
      if !s.waiter.Recording? then None
      else if ok then Some(s.(waiter := StoreWait(s.waiter.result)))
      else Some(Return(s, s.waiter.result.response, None))
    case WaiterLocks =>
      if s.waiter.StoreWait? && s.transports.Free? then
        Some(s.(waiter := Storing(s.waiter.result), transports := ByWaiter))
      else None
    case WaiterStores =>
      if s.waiter.Storing? then Some(Return(s, s.waiter.result.response, None).(transports := Free, stored := true))
      else None
    case DeadlineFires => Some(s.(done := true))
    case OutsideLocks(l) => if Held(s, l).Free? then Some(SetHeld(s, l, Outside)) else None
    case OutsideUnlocks(l) => if Held(s, l).Outside? then Some(SetHeld(s, l, Free)) else None
    case _ => None
  }

  predicate OfQuic(e: RaceEvent) {
    e.QuicBuilds? || e.QuicAnswers? || e.QuicSends?
  }

  predicate OfTcp(e: RaceEvent) {
    e.TcpWakes? || e.TcpLocks? || e.TcpFinds? || e.TcpDials? || e.TcpUnlocks? || e.TcpAnswers? || e.TcpSends?
  }

  function RaceStep(s: RaceState, e: RaceEvent): Option<RaceState> {
    if OfQuic(e) then QuicStep(s, e) else if OfTcp(e) then TcpStep(s, e) else WaitStep(s, e)
  }

  /** The state after some events from s, or None when one of them was not possible. */
  function RaceFrom(s: RaceState, events: seq<RaceEvent>): Option<RaceState> {
    if events == [] then Some(s)
    else
      var before := RaceFrom(s, events[..|events| - 1]);
      if before.None? then None else RaceStep(before.value, events[|events| - 1])
  }

  function RaceRun(events: seq<RaceEvent>): Option<RaceState> {
    RaceFrom(RaceInit, events)
  }

  // ----- What is sent

  /** Everything sent so far, in order. */
  function Log(s: RaceState): seq<RacingResult> {
    s.got + s.channel
  }

  /** How many of the results are of a protocol. */
  function Sent(log: seq<RacingResult>, protocol: string): nat {
    if log == [] then 0
    else
      var n := |log| - 1;
      Sent(log[..n], protocol) + (if log[n].protocol == protocol then 1 else 0)
  }

  /** One result of each leg that has ended, and nothing else. */
  predicate OnePerLeg(log: seq<RacingResult>, quicDone: bool, tcpDone: bool) {
    && Sent(log, "h3") == (if quicDone then 1 else 0)
    && Sent(log, "h2") == (if tcpDone then 1 else 0)
    && |log| == Sent(log, "h3") + Sent(log, "h2")
  }

  lemma SentOneMore(log: seq<RacingResult>, r: RacingResult, protocol: string)
    ensures Sent(log + [r], protocol) == Sent(log, protocol) + (if r.protocol == protocol then 1 else 0)
  {
    assert (log + [r])[..|log|] == log;
  }

  lemma SendOne(log: seq<RacingResult>, r: RacingResult, quicDone: bool, tcpDone: bool)
    requires OnePerLeg(log, quicDone, tcpDone)
    ensures r.protocol == "h3" && !quicDone ==> OnePerLeg(log + [r], true, tcpDone)
    ensures r.protocol == "h2" && !tcpDone ==> OnePerLeg(log + [r], quicDone, true)
  {
    SentOneMore(log, r, "h3");
    SentOneMore(log, r, "h2");
  }

  /** A leg that is about to send has a result of its own. */
  predicate LegInv(s: RaceState) {
    && (s.quic.QuicSend? ==> s.quic.result.protocol == "h3")
    && (s.tcp.TcpDropWait? ==> s.tcp.result.protocol == "h2")
    && (s.tcp.TcpDrop? ==> s.tcp.result.protocol == "h2")
    && (s.tcp.TcpDropKindsWait? ==> s.tcp.result.protocol == "h2")
    && (s.tcp.TcpDropKinds? ==> s.tcp.result.protocol == "h2")
    && (s.tcp.TcpSend? ==> s.tcp.result.protocol == "h2")
  }

  predicate LogInv(s: RaceState) {
    LegInv(s) && OnePerLeg(Log(s), s.quic.QuicDone?, s.tcp.TcpDone?)
  }

  lemma TcpLegStep(s: RaceState, s': RaceState, e: RaceEvent)
    requires LegInv(s) && TcpStep(s, e) == Some(s')
    ensures LegInv(s')
  {
  }

  lemma QuicLegStep(s: RaceState, s': RaceState, e: RaceEvent)
    requires LegInv(s) && QuicStep(s, e) == Some(s')
    ensures LegInv(s')
  {
  }

  lemma QuicLog(s: RaceState, s': RaceState, e: RaceEvent)
    requires QuicStep(s, e) == Some(s')
    ensures s'.tcp == s.tcp && !s.quic.QuicDone?
    ensures s.quic.QuicSend? ==> s'.quic.QuicDone? && Log(s') == Log(s) + [s.quic.result]
    ensures !s.quic.QuicSend? ==> !s'.quic.QuicDone? && Log(s') == Log(s)
  {
  }

  lemma TcpTakesLog(s: RaceState, s': RaceState, e: RaceEvent)
    requires TcpStep(s, e) == Some(s') && LegWants(s.tcp).Some?
    ensures s'.quic == s.quic && Log(s') == Log(s) && !s'.tcp.TcpDone?
  {
  }

  lemma TcpLog(s: RaceState, s': RaceState, e: RaceEvent)
    requires TcpStep(s, e) == Some(s')
    ensures s'.quic == s.quic && !s.tcp.TcpDone?
    ensures s.tcp.TcpSend? ==> s'.tcp.TcpDone? && Log(s') == Log(s) + [s.tcp.result]
    ensures !s.tcp.TcpSend? ==> !s'.tcp.TcpDone? && Log(s') == Log(s)
  {
    if LegWants(s.tcp).Some? {
      TcpTakesLog(s, s', e);
    }
  }

  lemma TakeLog(s: RaceState)
    requires Take(s).Some?
    ensures var s' := Take(s).value; s'.quic == s.quic && s'.tcp == s.tcp && Log(s') == Log(s)
  {
    assert s.channel == [s.channel[0]] + s.channel[1..];
  }

  lemma WaitLog(s: RaceState, s': RaceState, e: RaceEvent)
    requires WaitStep(s, e) == Some(s')
    ensures s'.quic == s.quic && s'.tcp == s.tcp && Log(s') == Log(s)
  {
    if e.TakeResult? {
      TakeLog(s);
    }
  }

  lemma LogStep(s: RaceState, s': RaceState, e: RaceEvent)
    requires LogInv(s) && RaceStep(s, e) == Some(s')
    ensures LogInv(s')
  {
    if OfQuic(e) {
      QuicLegStep(s, s', e);
      QuicLog(s, s', e);
      if s.quic.QuicSend? {
        SendOne(Log(s), s.quic.result, false, s.tcp.TcpDone?);
      }
    } else if OfTcp(e) {
      TcpLegStep(s, s', e);
      TcpLog(s, s', e);
      if s.tcp.TcpSend? {
        SendOne(Log(s), s.tcp.result, s.quic.QuicDone?, false);
      }
    } else {
      WaitLog(s, s', e);
    }
  }

  // ----- What the results say

  /** What a leg's calls have answered so far, as the result it is to send. */
  function Reported(events: seq<RaceEvent>, leg: Leg): Option<RacingResult> {
    if events == [] then None
    else
      var n := |events| - 1;
      match events[n]
      case QuicBuilds(Some(err)) =>
        if leg.Quic? then Some(RacingResult("h3", None, Some(err))) else Reported(events[..n], leg)
      case QuicAnswers(response, err) =>
        if leg.Quic? then Some(RacingResult("h3", if err.Some? then None else response, err))
        else Reported(events[..n], leg)
      case TcpDials(Some(err)) =>
        if leg.TcpLeg? then Some(RacingResult("h2", None, Some(err))) else Reported(events[..n], leg)
      case TcpAnswers(response, err) =>
        if leg.TcpLeg? then Some(RacingResult("h2", response, err)) else Reported(events[..n], leg)
      case _ => Reported(events[..n], leg)
  }

  lemma ReportedOneMore(events: seq<RaceEvent>, e: RaceEvent)
    ensures Reported(events + [e], Quic) == QuicReport(e, Reported(events, Quic))
    ensures Reported(events + [e], TcpLeg) == TcpReport(e, Reported(events, TcpLeg))
  {
    assert (events + [e])[..|events|] == events;
  }

  /** The result that the TCP leg is going to send, once it has one. */
  function Pending(pc: TcpPc): Option<RacingResult> {
    match pc
    case TcpUnlock(err) => if err.Some? then Some(RacingResult("h2", None, err)) else None
    case TcpDropWait(result) => Some(result)
    case TcpDrop(result) => Some(result)
    case TcpDropKindsWait(result) => Some(result)
    case TcpDropKinds(result) => Some(result)
    case TcpSend(result) => Some(result)
    case _ => None
  }

  /** All results are the reported ones of their leg. */
  predicate AllReported(log: seq<RacingResult>, quic: Option<RacingResult>, tcp: Option<RacingResult>) {
    forall r :: r in log ==> Some(r) == if r.protocol == "h3" then quic else tcp
  }

  predicate Honest(s: RaceState, quic: Option<RacingResult>, tcp: Option<RacingResult>) {
    && (s.quic.QuicSend? ==> quic == Some(s.quic.result))
    && (s.tcp.TcpDone? || tcp == Pending(s.tcp))
    && AllReported(Log(s), quic, tcp)
  }

  lemma {:induction false} NothingSentYet(log: seq<RacingResult>, protocol: string)
    requires Sent(log, protocol) == 0
    ensures forall r :: r in log ==> r.protocol != protocol
  {
    if log != [] {
      NothingSentYet(log[..|log| - 1], protocol);
    }
  }

  /** While a leg has sent nothing, what it has reported does not matter. */
  lemma NotYetReported(log: seq<RacingResult>, quic: Option<RacingResult>, tcp: Option<RacingResult>,
                       quic': Option<RacingResult>, tcp': Option<RacingResult>)
    requires AllReported(log, quic, tcp) && |log| == Sent(log, "h3") + Sent(log, "h2")
    requires (quic' == quic || Sent(log, "h3") == 0) && (tcp' == tcp || Sent(log, "h2") == 0)
    ensures AllReported(log, quic', tcp')
  {
    OnlyTheTwo(log);
    if Sent(log, "h3") == 0 {
      NothingSentYet(log, "h3");
    }
    if Sent(log, "h2") == 0 {
      NothingSentYet(log, "h2");
    }
  }

  /** What the QUIC leg reports with a step, or has reported before. */
  function QuicReport(e: RaceEvent, before: Option<RacingResult>): Option<RacingResult> {
    if e.QuicBuilds? && e.buildErr.Some? then Some(RacingResult("h3", None, e.buildErr))
    else if e.QuicAnswers? then Some(RacingResult("h3", if e.err.Some? then None else e.response, e.err))
    else before
  }

  lemma QuicPending(s: RaceState, s': RaceState, e: RaceEvent, quic: Option<RacingResult>)
    requires QuicStep(s, e) == Some(s') && OfQuic(e) && (s.quic.QuicSend? ==> quic == Some(s.quic.result))
    ensures s'.quic.QuicSend? ==> QuicReport(e, quic) == Some(s'.quic.result)
    ensures s.quic.QuicSend? ==> QuicReport(e, quic) == quic
  {
  }

  lemma QuicHonest(s: RaceState, s': RaceState, e: RaceEvent, quic: Option<RacingResult>, tcp: Option<RacingResult>)
    requires LogInv(s) && Honest(s, quic, tcp) && QuicStep(s, e) == Some(s') && OfQuic(e)
    ensures Honest(s', QuicReport(e, quic), tcp)
  {
    QuicLog(s, s', e);
    QuicPending(s, s', e, quic);
    NotYetReported(Log(s), quic, tcp, QuicReport(e, quic), tcp);
  }

  /** What the TCP leg reports with a step, or has reported before. */
  function TcpReport(e: RaceEvent, before: Option<RacingResult>): Option<RacingResult> {
    if e.TcpDials? && e.dialErr.Some? then Some(RacingResult("h2", None, e.dialErr))
    else if e.TcpAnswers? then Some(RacingResult("h2", e.response, e.err))
    else before
  }

  lemma TcpPending(s: RaceState, s': RaceState, e: RaceEvent)
    requires TcpStep(s, e) == Some(s') && OfTcp(e) && !s.tcp.TcpDone?
    ensures s'.tcp.TcpDone? <==> s.tcp.TcpSend?
    ensures !s'.tcp.TcpDone? ==> Pending(s'.tcp) == TcpReport(e, Pending(s.tcp))
    ensures s.tcp.TcpSend? ==> TcpReport(e, Pending(s.tcp)) == Some(s.tcp.result)
  {
  }

  lemma TcpHonest(s: RaceState, s': RaceState, e: RaceEvent, quic: Option<RacingResult>, tcp: Option<RacingResult>)
    requires LogInv(s) && Honest(s, quic, tcp) && TcpStep(s, e) == Some(s') && OfTcp(e)
    ensures Honest(s', quic, TcpReport(e, tcp))
  {
    TcpLog(s, s', e);
    TcpPending(s, s', e);
    NotYetReported(Log(s), quic, tcp, quic, TcpReport(e, tcp));
  }

  /** Nobody but the legs sends. */
  lemma {:induction false} OnlyTheTwo(log: seq<RacingResult>)
    requires |log| == Sent(log, "h3") + Sent(log, "h2")
    ensures forall r :: r in log ==> r.protocol == "h3" || r.protocol == "h2"
  {
    if log != [] {
      var n := |log| - 1;
      SentAtMost(log[..n]);
      OnlyTheTwo(log[..n]);
    }
  }

  lemma {:induction false} SentAtMost(log: seq<RacingResult>)
    ensures Sent(log, "h3") + Sent(log, "h2") <= |log|
  {
    if log != [] {
      SentAtMost(log[..|log| - 1]);
    }
  }

  lemma {:induction false} RunIsHonest(events: seq<RaceEvent>)
    requires RaceRun(events).Some?
    ensures LogInv(RaceRun(events).value)
    ensures Honest(RaceRun(events).value, Reported(events, Quic), Reported(events, TcpLeg))
  {
    if events != [] {
      var n := |events| - 1;
      var before, e := events[..n], events[n];
      assert events == before + [e] && RaceRun(before).Some?;
      RunIsHonest(before);
      ReportedOneMore(before, e);
      var s, s' := RaceRun(before).value, RaceRun(events).value;
      LogStep(s, s', e);
      if OfQuic(e) {
        QuicHonest(s, s', e, Reported(before, Quic), Reported(before, TcpLeg));
      } else if OfTcp(e) {
        TcpHonest(s, s', e, Reported(before, Quic), Reported(before, TcpLeg));
      } else {
        WaitLog(s, s', e);
      }
    }
  }

  /**
  Every result ever sent is what the calls of its leg answered: the error of a failed build or setup, or the response
  and error of the round trip.
  */
  lemma {:induction false} ResultsAreReported(events: seq<RaceEvent>)
    requires RaceRun(events).Some?
    ensures forall r :: r in Log(RaceRun(events).value) ==>
              || (r.protocol == "h3" && Some(r) == Reported(events, Quic))
              || (r.protocol == "h2" && Some(r) == Reported(events, TcpLeg))
  {
    RunIsHonest(events);
    OnlyTheTwo(Log(RaceRun(events).value));
  }

  /** The round trip of the TCP leg has reported a changed protocol. */
  predicate ChangeAnswered(events: seq<RaceEvent>) {
    exists i :: 0 <= i < |events| && events[i].TcpAnswers? && events[i].err == Some(LegError(Changed))
  }

  lemma ChangeAnsweredOneMore(events: seq<RaceEvent>, e: RaceEvent)
    ensures ChangeAnswered(events + [e]) <==>
            ChangeAnswered(events) || (e.TcpAnswers? && e.err == Some(LegError(Changed)))
  {
    var longer := events + [e];
    assert longer[|events|] == e;
    if ChangeAnswered(events) {
      var i :| 0 <= i < |events| && events[i].TcpAnswers? && events[i].err == Some(LegError(Changed));
      assert longer[i] == events[i];
    }
  }

  predicate DropInv(s: RaceState, changed: bool) {
    if s.tcp.TcpSend? || s.tcp.TcpDone? then s.dropped == changed
    else
      && !s.dropped
      && (changed <==> s.tcp.TcpDropWait? || s.tcp.TcpDrop? || s.tcp.TcpDropKindsWait? || s.tcp.TcpDropKinds?)
  }

  lemma DropStays(s: RaceState, s': RaceState, e: RaceEvent, changed: bool)
    requires DropInv(s, changed) && RaceStep(s, e) == Some(s') && !OfTcp(e)
    ensures DropInv(s', changed)
  {
  }

  lemma DropMoves(s: RaceState, s': RaceState, e: RaceEvent, changed: bool)
    requires DropInv(s, changed) && TcpStep(s, e) == Some(s')
    ensures DropInv(s', changed || (e.TcpAnswers? && e.err == Some(LegError(Changed))))
  {
  }

  /** A TCP leg that comes to send has dropped its transport exactly if its round trip reported a changed protocol. */
  lemma {:induction false} DropsExactlyOnChange(events: seq<RaceEvent>)
    requires RaceRun(events).Some?
    ensures DropInv(RaceRun(events).value, ChangeAnswered(events))
    ensures var s := RaceRun(events).value;
            s.tcp.TcpSend? || s.tcp.TcpDone? ==> (s.dropped <==> ChangeAnswered(events))
  {
    if events != [] {
      var n := |events| - 1;
      var before, e := events[..n], events[n];
      assert events == before + [e] && RaceRun(before).Some?;
      DropsExactlyOnChange(before);
      ChangeAnsweredOneMore(before, e);
      if OfTcp(e) {
        DropMoves(RaceRun(before).value, RaceRun(events).value, e, ChangeAnswered(before));
      } else {
        DropStays(RaceRun(before).value, RaceRun(events).value, e, ChangeAnswered(before));
      }
    }
  }

  // ----- Who holds what

  predicate LegHolds(pc: TcpPc, l: Lock) {
    match l
    case Transports =>
      || pc.TcpLocked? || pc.TcpMutexWait? || pc.TcpDial? || pc.TcpKindsWait? || pc.TcpKinds? || pc.TcpUnlock?
      || pc.TcpDrop?
    case Mutex => pc.TcpDial? || pc.TcpKindsWait? || pc.TcpKinds?
    case Kinds => pc.TcpKinds? || pc.TcpDropKinds?
  }

  /** A lock is the TCP leg's, or the waiter's, exactly while that has taken and not released it. */
  predicate LockInv(s: RaceState) {
    && (s.transports.ByLeg? <==> LegHolds(s.tcp, Transports))
    && (s.mutex.ByLeg? <==> LegHolds(s.tcp, Mutex))
    && (s.kinds.ByLeg? <==> LegHolds(s.tcp, Kinds))
    && (s.transports.ByWaiter? <==> s.waiter.Storing?) && !s.mutex.ByWaiter? && !s.kinds.ByWaiter?
  }

  lemma TcpTakesLock(s: RaceState, s': RaceState, e: RaceEvent)
    requires LockInv(s) && TcpStep(s, e) == Some(s') && LegWants(s.tcp).Some?
    ensures LockInv(s')
  {
  }

  lemma TcpLocksStep(s: RaceState, s': RaceState, e: RaceEvent)
    requires LockInv(s) && TcpStep(s, e) == Some(s')
    ensures LockInv(s')
  {
    if LegWants(s.tcp).Some? {
      TcpTakesLock(s, s', e);
    }
  }

  lemma TakeLocks(s: RaceState)
    requires Take(s).Some?
    ensures var s' := Take(s).value;
            && !s.waiter.Storing? && !s'.waiter.Storing? && s'.tcp == s.tcp
            && s'.transports == s.transports && s'.mutex == s.mutex && s'.kinds == s.kinds
  {
  }

  lemma WaitLocksStep(s: RaceState, s': RaceState, e: RaceEvent)
    requires LockInv(s) && WaitStep(s, e) == Some(s')
    ensures LockInv(s')
  {
    if e.TakeResult? {
      TakeLocks(s);
    }
  }

  lemma LocksStep(s: RaceState, s': RaceState, e: RaceEvent)
    requires LockInv(s) && RaceStep(s, e) == Some(s')
    ensures LockInv(s')
  {
    if OfTcp(e) {
      TcpLocksStep(s, s', e);
    } else if !OfQuic(e) {
      WaitLocksStep(s, s', e);
    }
  }

  // ----- What the waiter has seen

  /** What the waiter's selects yielded, as the loop sees it. */
  function Picked(s: RaceState): seq<Pick> {
    seq(SLOTS, i requires 0 <= i => if i < |s.got| then Receive(s.got[i]) else Expired)
  }

  /** The waiter has received this winning result. */
  predicate HasWon(s: RaceState, result: RacingResult) {
    && Wins(result) && |s.got| <= SLOTS && Winner(Picked(s)) == Some(result) && s.cached == Some(result.protocol)
  }

  predicate WaiterInv(s: RaceState) {
    match s.waiter
    case Selecting(lastErr) =>
      && s.cached.None? && !s.stored && |s.got| < SLOTS
      && (s.got == [] ==> lastErr.None?) && (s.got != [] ==> !Wins(s.got[0]) && lastErr == s.got[0].err)
    case Recording(result) => HasWon(s, result) && result.protocol == "h3" && !s.stored
    case StoreWait(result) => HasWon(s, result) && result.protocol == "h3" && !s.stored
    case Storing(result) => HasWon(s, result) && result.protocol == "h3" && !s.stored
    case Returned(response, err) =>
      && |s.got| <= SLOTS && (response, err) == RaceEnd(Picked(s)) && (s.stored ==> s.cached == Some("h3"))
      && s.cached == (if Winner(Picked(s)).Some? then Some(Winner(Picked(s)).value.protocol) else None)
  }

  /** A race of two selects, written out. */
  lemma TwoPicks(a: Pick, b: Pick)
    ensures Winner([a, b]) == if a.Receive? && Wins(a.result) then Some(a.result)
                              else if a.Receive? && b.Receive? && Wins(b.result) then Some(b.result) else None
    ensures RaceFailure([a, b], None) ==
            if a.Expired? then DeadlineExceeded
            else if b.Expired? then (if a.result.err.Some? then a.result.err.value else DeadlineExceeded)
            else (if b.result.err.Some? then b.result.err.value else BothFailed)
  {
    assert [a, b][1..] == [b] && [b][1..] == [];
    assert Winner([b]) == if b.Receive? && Wins(b.result) then Some(b.result) else None;
    assert a.Receive? ==> RaceFailure([a, b], None) == RaceFailure([b], a.result.err);
    assert b.Receive? && a.Receive? ==> RaceFailure([b], a.result.err) == RaceFailure([], b.result.err);
  }

  /** Steps of the legs and of the world leave what the waiter has seen alone. */
  lemma OthersLeaveTheWaiter(s: RaceState, s': RaceState, e: RaceEvent)
    requires RaceStep(s, e) == Some(s')
    requires OfQuic(e) || OfTcp(e) || e.DeadlineFires? || e.OutsideLocks? || e.OutsideUnlocks?
    ensures s'.got == s.got && s'.waiter == s.waiter && s'.cached == s.cached && s'.stored == s.stored
  {
    if OfTcp(e) {
      TcpLeavesTheWaiter(s, s', e);
    }
  }

  lemma TcpLeavesTheWaiter(s: RaceState, s': RaceState, e: RaceEvent)
    requires TcpStep(s, e) == Some(s')
    ensures s'.got == s.got && s'.waiter == s.waiter && s'.cached == s.cached && s'.stored == s.stored
  {
  }

  lemma SelectStep(s: RaceState, s': RaceState, e: RaceEvent)
    requires WaiterInv(s) && |Log(s)| <= SLOTS && WaitStep(s, e) == Some(s') && (e.TakeResult? || e.TakeDeadline?)
    ensures WaiterInv(s')
  {
    var p := Picked(s');
    assert p == [p[0], p[1]];
    TwoPicks(p[0], p[1]);
  }

  lemma StoreStep(s: RaceState, s': RaceState, e: RaceEvent)
    requires WaiterInv(s) && WaitStep(s, e) == Some(s') && (e.WaiterBuilds? || e.WaiterLocks? || e.WaiterStores?)
    ensures WaiterInv(s')
  {
    assert Picked(s') == Picked(s);
  }

  lemma WaiterStep(s: RaceState, s': RaceState, e: RaceEvent)
    requires WaiterInv(s) && |Log(s)| <= SLOTS && RaceStep(s, e) == Some(s')
    ensures WaiterInv(s')
  {
    if e.TakeResult? || e.TakeDeadline? {
      SelectStep(s, s', e);
    } else if e.WaiterBuilds? || e.WaiterLocks? || e.WaiterStores? {
      StoreStep(s, s', e);
    } else {
      OthersLeaveTheWaiter(s, s', e);
      assert Picked(s') == Picked(s);
    }
  }

  predicate RaceInv(s: RaceState) {
    LogInv(s) && LockInv(s) && WaiterInv(s)
  }

  lemma {:induction false} RunKeepsInv(s: RaceState, events: seq<RaceEvent>)
    requires RaceInv(s) && RaceFrom(s, events).Some?
    ensures RaceInv(RaceFrom(s, events).value)
  {
    if events != [] {
      var before := events[..|events| - 1];
      RunKeepsInv(s, before);
      var s1, s2 := RaceFrom(s, before).value, RaceFrom(s, events).value;
      LogStep(s1, s2, events[|events| - 1]);
      LocksStep(s1, s2, events[|events| - 1]);
      WaiterStep(s1, s2, events[|events| - 1]);
    }
  }

  lemma RaceKeepsInv(events: seq<RaceEvent>)
    requires RaceRun(events).Some?
    ensures RaceInv(RaceRun(events).value)
  {
    RunKeepsInv(RaceInit, events);
  }

  /**
  For every order of events: a leg that has ended has sent exactly one result and one that has not has sent none; when
  a leg comes to send, the channel has room, also after the waiter has returned, and the leg holds no lock.
  */
  lemma {:induction false} LegsSendOnce(events: seq<RaceEvent>)
    requires RaceRun(events).Some?
    ensures var s := RaceRun(events).value;
            && OnePerLeg(Log(s), s.quic.QuicDone?, s.tcp.TcpDone?)
            && (s.quic.QuicSend? || s.tcp.TcpSend? ==> |s.channel| < SLOTS)
            && (s.tcp.TcpSend? ==> forall l :: !Held(s, l).ByLeg?)
  {
    RaceKeepsInv(events);
  }

  // ----- Who waits for what

  /** How many steps a leg has left at most. */
  function QuicLeft(pc: QuicPc): nat {
    match pc
    case QuicBuild => 3
    case QuicTrip => 2
    case QuicSend(_) => 1
    case QuicDone => 0
  }

  function TcpLeft(pc: TcpPc): nat {
    match pc
    case TcpSleep => 14
    case TcpWait => 13
    case TcpLocked => 12
    case TcpMutexWait => 11
    case TcpDial => 10
    case TcpKindsWait => 9
    case TcpKinds => 8
    case TcpUnlock(_) => 7
    case TcpTrip => 6
    case TcpDropWait(_) => 5
    case TcpDrop(_) => 4
    case TcpDropKindsWait(_) => 3
    case TcpDropKinds(_) => 2
    case TcpSend(_) => 1
    case TcpDone => 0
  }

  /** What the calls of a leg answer: a cached transport, a response, an error. */
  datatype Answer = Answer(hit: bool, response: Option<Response>, err: Option<RaceError>)

  /** The next event of a leg, once its calls have answered. */
  function QuicNext(pc: QuicPc, a: Answer): RaceEvent {
    match pc
    case QuicBuild => QuicBuilds(a.err)
    case QuicTrip => QuicAnswers(a.response, a.err)
    case _ => QuicSends
  }

  function TcpNext(pc: TcpPc, a: Answer): RaceEvent {
    if LegWants(pc).Some? then TcpLocks
    else match pc
      case TcpSleep => TcpWakes
      case TcpLocked => TcpFinds(a.hit)
      case TcpDial => TcpDials(a.err)
      case TcpTrip => TcpAnswers(a.response, a.err)
      case TcpSend(_) => TcpSends
      case _ => TcpUnlocks
  }

  /** The QUIC leg can take its next step, and is closer to its end then. */
  predicate QuicGoesOn(s: RaceState, a: Answer) {
    var next := RaceStep(s, QuicNext(s.quic, a));
    next.Some? && QuicLeft(next.value.quic) < QuicLeft(s.quic)
  }

  predicate TcpGoesOn(s: RaceState, a: Answer) {
    var next := RaceStep(s, TcpNext(s.tcp, a));
    next.Some? && TcpLeft(next.value.tcp) < TcpLeft(s.tcp)
  }

  /** The TCP leg waits for a lock that is taken. */
  predicate LegBlocked(s: RaceState) {
    LegWants(s.tcp).Some? && !Held(s, LegWants(s.tcp).value.0).Free?
  }

  lemma QuicCanGoOn(s: RaceState, a: Answer)
    requires !s.quic.QuicDone? && (s.quic.QuicSend? ==> |s.channel| < SLOTS)
    ensures QuicGoesOn(s, a)
  {
  }

  lemma TcpCanGoOn(s: RaceState, a: Answer)
    requires !s.tcp.TcpDone? && (s.tcp.TcpSend? ==> |s.channel| < SLOTS)
    ensures TcpGoesOn(s, a) <==> !LegBlocked(s)
  {
  }

  lemma ChannelHasRoom(s: RaceState)
    requires LogInv(s)
    ensures s.quic.QuicSend? || s.tcp.TcpSend? ==> |s.channel| < SLOTS
    ensures s.quic.QuicDone? && s.tcp.TcpDone? ==> |s.got| + |s.channel| == SLOTS
  {
  }

  /**
  Whatever its calls answer and whatever the waiter does: an unfinished QUIC leg always has a next step, and an
  unfinished TCP leg has one exactly if it is not waiting for a lock that is taken. That lock is never one of its own,
  and if it is the waiter's, the waiter can release it. Every such step brings the leg closer to its end.
  */
  lemma {:induction false} LegsNeverBlock(events: seq<RaceEvent>, a: Answer)
    requires RaceRun(events).Some?
    ensures var s := RaceRun(events).value;
            && (!s.quic.QuicDone? ==> QuicGoesOn(s, a))
            && (!s.tcp.TcpDone? ==> (TcpGoesOn(s, a) <==> !LegBlocked(s)))
            && (LegBlocked(s) ==> !Held(s, LegWants(s.tcp).value.0).ByLeg?)
            && (LegBlocked(s) && Held(s, LegWants(s.tcp).value.0).ByWaiter? ==> RaceStep(s, WaiterStores).Some?)
  {
    RaceKeepsInv(events);
    var s := RaceRun(events).value;
    ChannelHasRoom(s);
    if !s.quic.QuicDone? {
      QuicCanGoOn(s, a);
    }
    if !s.tcp.TcpDone? {
      TcpCanGoOn(s, a);
    }
  }

  /** Some step of the waiter itself is possible. */
  predicate WaiterGoesOn(s: RaceState) {
    || RaceStep(s, TakeResult).Some? || RaceStep(s, TakeDeadline).Some?
    || RaceStep(s, WaiterBuilds(true)).Some? || RaceStep(s, WaiterLocks).Some? || RaceStep(s, WaiterStores).Some?
  }

  /**
  Exactly when the waiter waits: at a select while nothing is sent that it has not received and the context has not
  ended; and after a QUIC win, whatever the context, while the TCP leg of its own race holds cachedTransportsLck (for
  its whole setup, or to drop a transport) or somebody outside does.
  */
  lemma {:induction false} WaiterWaitsExactlyWhen(events: seq<RaceEvent>)
    requires RaceRun(events).Some? && !RaceRun(events).value.waiter.Returned?
    ensures var s := RaceRun(events).value;
            !WaiterGoesOn(s) <==>
              || (s.waiter.Selecting? && s.channel == [] && !s.done)
              || (s.waiter.StoreWait? && (LegHolds(s.tcp, Transports) || s.transports.Outside?))
    ensures var s := RaceRun(events).value;
            s.waiter.StoreWait? ==>
              s.waiter.result.protocol == "h3" && Wins(s.waiter.result) && s.waiter.result in s.got
    ensures var s := RaceRun(events).value;
            s.waiter.Selecting? && s.quic.QuicDone? && s.tcp.TcpDone? ==> s.channel != []
  {
    RaceKeepsInv(events);
    var s := RaceRun(events).value;
    ChannelHasRoom(s);
    WaiterStuck(s);
    if s.waiter.StoreWait? {
      WinnerReceived(s);
    }
  }

  lemma WaiterStuck(s: RaceState)
    requires LockInv(s) && !s.waiter.Returned?
    ensures !WaiterGoesOn(s) <==>
            || (s.waiter.Selecting? && s.channel == [] && !s.done)
            || (s.waiter.StoreWait? && (LegHolds(s.tcp, Transports) || s.transports.Outside?))
  {
  }

  lemma WinnerReceived(s: RaceState)
    requires Winner(Picked(s)).Some? && |s.got| <= SLOTS
    ensures Winner(Picked(s)).value in s.got
  {
    var p := Picked(s);
    assert p == [p[0], p[1]];
    TwoPicks(p[0], p[1]);
    assert forall i :: 0 <= i < |s.got| ==> p[i] == Receive(s.got[i]);
  }

  /** A waiter that waits to store moves only by taking the lock, once it is free; the deadline does not help. */
  lemma StoreWaits(s: RaceState, s': RaceState, e: RaceEvent)
    requires RaceStep(s, e) == Some(s') && s.waiter.StoreWait?
    ensures s'.waiter == s.waiter || (s.transports.Free? && s'.waiter == Storing(s.waiter.result))
  {
  }

  /** So whatever happens after it has come to wait, before it moves there is a moment at which nobody has the lock. */
  lemma {:induction false} WaitsForTheLeg(s: RaceState, events: seq<RaceEvent>) returns (k: nat)
    requires s.waiter.StoreWait? && RaceFrom(s, events).Some? && RaceFrom(s, events).value.waiter != s.waiter
    ensures k < |events| && RaceFrom(s, events[..k]).Some?
    ensures RaceFrom(s, events[..k]).value.waiter == s.waiter && RaceFrom(s, events[..k]).value.transports.Free?
    decreases |events|
  {
    var n := |events| - 1;
    var before := RaceFrom(s, events[..n]).value;
    if before.waiter == s.waiter {
      StoreWaits(before, RaceFrom(s, events).value, events[n]);
      k := n;
    } else {
      k := WaitsForTheLeg(s, events[..n]);
      assert events[..n][..k] == events[..k];
    }
  }

  lemma OneMore(events: seq<RaceEvent>, e: RaceEvent)
    requires RaceRun(events).Some?
    ensures RaceRun(events + [e]) == RaceStep(RaceRun(events).value, e)
  {
    assert (events + [e])[..|events|] == events;
  }

  /** The TCP leg is inside its setup dial, with cachedTransportsLck. */
  lemma ReachSetup() returns (events: seq<RaceEvent>)
    ensures RaceRun(events) == Some(RaceInit.(tcp := TcpDial, transports := ByLeg, mutex := ByLeg))
  {
    var e1 := [TcpWakes];
    OneMore([], TcpWakes);
    assert [] + [TcpWakes] == e1;
    OneMore(e1, TcpLocks);
    OneMore(e1 + [TcpLocks], TcpFinds(false));
    OneMore(e1 + [TcpLocks] + [TcpFinds(false)], TcpLocks);
    events := e1 + [TcpLocks] + [TcpFinds(false)] + [TcpLocks];
  }

  lemma QuicAnswersRun(events: seq<RaceEvent>, s: RaceState, result: RacingResult) returns (events': seq<RaceEvent>)
    requires RaceRun(events) == Some(s) && s.quic.QuicBuild? && s.channel == []
    requires result.protocol == "h3" && result.err.None?
    ensures RaceRun(events') == Some(s.(quic := QuicDone, channel := [result]))
  {
    var e1, e2 := QuicBuilds(None), QuicAnswers(result.response, None);
    OneMore(events, e1);
    OneMore(events + [e1], e2);
    OneMore(events + [e1] + [e2], QuicSends);
    assert s.channel + [result] == [result];
    events' := events + [e1] + [e2] + [QuicSends];
  }

  lemma QuicWinsRun(events: seq<RaceEvent>, s: RaceState, result: RacingResult) returns (events': seq<RaceEvent>)
    requires RaceRun(events) == Some(s) && s.waiter.Selecting? && s.channel == [result] && s.got == []
    requires result.protocol == "h3" && Wins(result)
    ensures RaceRun(events') ==
            Some(s.(channel := [], got := [result], cached := Some("h3"), waiter := StoreWait(result)))
  {
    assert s.channel[1..] == [] && s.got + [result] == [result];
    OneMore(events, TakeResult);
    OneMore(events + [TakeResult], WaiterBuilds(true));
    events' := events + [TakeResult] + [WaiterBuilds(true)];
  }

  lemma StuckAtStore(s: RaceState)
    requires s.waiter.StoreWait? && !s.transports.Free?
    ensures !WaiterGoesOn(s)
  {
  }

  /**
  A run in which a QUIC win waits for the TCP leg of its own race: the leg is inside its setup dial when QUIC answers,
  and the waiter can neither store the transport nor return, although the deadline has passed.
  */
  lemma QuicWinWaitsForTcp(response: Response) returns (events: seq<RaceEvent>)
    ensures RaceRun(events).Some?
    ensures var s := RaceRun(events).value;
            && s.waiter == StoreWait(RacingResult("h3", Some(response), None)) && s.done && s.quic.QuicDone?
            && s.tcp.TcpDial? && s.transports.ByLeg? && !WaiterGoesOn(s)
  {
    var result := RacingResult("h3", Some(response), None);
    var e0 := ReachSetup();
    var e1 := QuicAnswersRun(e0, RaceRun(e0).value, result);
    var e2 := QuicWinsRun(e1, RaceRun(e1).value, result);
    OneMore(e2, DeadlineFires);
    events := e2 + [DeadlineFires];
    StuckAtStore(RaceRun(events).value);
  }

  // ----- Ends

  lemma TcpMoves(s: RaceState, s': RaceState, e: RaceEvent)
    requires TcpStep(s, e) == Some(s')
    ensures TcpLeft(s'.tcp) < TcpLeft(s.tcp) && s'.quic == s.quic
  {
  }

  lemma QuicMoves(s: RaceState, s': RaceState, e: RaceEvent)
    requires QuicStep(s, e) == Some(s')
    ensures QuicLeft(s'.quic) < QuicLeft(s.quic) && s'.tcp == s.tcp
  {
  }

  lemma OnlyLegsMoveLegs(s: RaceState, s': RaceState, e: RaceEvent)
    requires RaceStep(s, e) == Some(s')
    ensures QuicLeft(s'.quic) < QuicLeft(s.quic) || (!OfQuic(e) && s'.quic == s.quic)
    ensures TcpLeft(s'.tcp) < TcpLeft(s.tcp) || (!OfTcp(e) && s'.tcp == s.tcp)
  {
    if OfQuic(e) {
      QuicMoves(s, s', e);
    } else if OfTcp(e) {
      TcpMoves(s, s', e);
    } else {
      WaitLog(s, s', e);
    }
  }

  function Steps(events: seq<RaceEvent>, leg: Leg): nat {
    if events == [] then 0
    else
      var n := |events| - 1;
      Steps(events[..n], leg) + (if (if leg.Quic? then OfQuic(events[n]) else OfTcp(events[n])) then 1 else 0)
  }

  /** Over a whole run the QUIC leg takes at most three steps; the TCP leg, with setup and drop, at most fourteen. */
  lemma {:induction false} LegsEnd(events: seq<RaceEvent>)
    requires RaceRun(events).Some?
    ensures Steps(events, Quic) + QuicLeft(RaceRun(events).value.quic) <= 3
    ensures Steps(events, TcpLeg) + TcpLeft(RaceRun(events).value.tcp) <= 14
  {
    if events != [] {
      var before := events[..|events| - 1];
      assert RaceRun(before).Some?;
      LegsEnd(before);
      OnlyLegsMoveLegs(RaceRun(before).value, RaceRun(events).value, events[|events| - 1]);
    }
  }

  /**
  Once the waiter has returned, it has returned what the loop returns on what it received: a response exactly when
  some received result won, an error otherwise; the recorded protocol is the winner's or none, and the HTTP/3 slot was
  filled only for a QUIC win.
  */
  lemma {:induction false} RaceOutcome(events: seq<RaceEvent>)
    requires RaceRun(events).Some? && RaceRun(events).value.waiter.Returned?
    ensures var s := RaceRun(events).value;
            && (s.waiter.response, s.waiter.err) == RaceEnd(Picked(s))
            && (s.waiter.response.Some? <==> exists i :: 0 <= i < |s.got| && Wins(s.got[i]))
            && (s.waiter.response.Some? <==> s.waiter.err.None?)
            && (s.cached.Some? <==> s.waiter.response.Some?)
            && (s.cached.Some? ==> s.cached == Some(Winner(Picked(s)).value.protocol))
            && (s.stored ==> s.cached == Some("h3"))
  {
    RaceKeepsInv(events);
    var s := RaceRun(events).value;
    var p := Picked(s);
    assert p == [p[0], p[1]];
    TwoPicks(p[0], p[1]);
    assert forall i :: 0 <= i < |s.got| ==> p[i] == Receive(s.got[i]);
  }
}
