/** Which connections of the transport cache are never used nor closed, exactly, over all continuations of all runs. */
module LostConnections {
  import opened Common
  import opened TransportCache
  import opened TransportCacheInvariants
  import opened TransportCacheTheorems
  import opened TransportLedger

  /** The transport that a process dials for, or may yet. */
  function Mover(pc: Pc): Option<Tid> {
    match pc
    case ReqUse(_, t, scheme) => if scheme.Https? then Some(t) else None
    case DialWait(t) => Some(t)
    case DialStash(t) => Some(t)
    case DialNet(t) => Some(t)
    case DialKindWait(t, _) => Some(t)
    case DialKind(t, _) => Some(t)
    case DialJudge(t, _, _, _, _) => Some(t)
    case _ => None
  }

  /** A request inside a transport of this address that dials through the round tripper, or one of its dials. */
  predicate Acts(d: Data, pc: Pc, a: Key) {
    Mover(pc).Some? && Dialer(d, Mover(pc).value) && d.built[Mover(pc).value].key == a
  }

  ghost predicate Active(s: State, a: Key) {
    exists q :: q in s.procs && Acts(s.d, s.procs[q], a)
  }

  predicate Spent(fate: Fate) {
    fate.Handed? || fate.Closed?
  }

  /**
  The connection was leaked by a failed HTTP/3 build, or HTTP/3 was negotiated on it, it has not been used or closed,
  and nobody is inside a transport of its address that dials.
  */
  ghost predicate Lost(s: State, x: Cid)
    requires x < |s.conns|
  {
    var conn := s.conns[x];
    conn.fate.Leaked? || (conn.kind == HTTP3 && !Spent(conn.fate) && !Active(s, conn.key))
  }

  // ----- Who spends a connection

  lemma TakenSpends(stash: map<Key, Stashed>, conns: seq<Conn>, a: Key, t: Tid, x: Cid)
    requires Accounts(stash, conns, None) && a in stash && x < |conns|
    requires Settle(conns, stash[a].conn, Handed(t))[x].fate != conns[x].fate
    ensures conns[x].key == a
  {
  }

  lemma JudgedSpends(stash: map<Key, Stashed>, conns: seq<Conn>, hand: (Key, Kind), fate: Fate, x: Cid)
    requires Accounts(stash, conns, Some(hand)) && x < |conns|
    requires Settle(conns, LastConn(conns), fate)[x].fate != conns[x].fate
    ensures conns[x] == Conn(hand.0, hand.1, InHand)
  {
  }

  lemma DialerAt(d: Data, pc: Pc)
    requires PcInv(d, pc) && (pc.DialStash? || pc.DialJudge?)
    ensures Dialer(d, pc.t)
  {
  }

  lemma SpentByDial(s: State, s': State, p: Pid, c: Choice, pc: Pc, x: Cid)
    requires Inv(s) && Ledger(s) && p in s.procs && s.procs[p] == pc && Step(s, p, c) == Some(s')
    requires (pc.DialStash? || pc.DialJudge?) && Touches(s, pc, c)
    requires x < |s.conns| <= |s'.conns| && s'.conns[x].fate != s.conns[x].fate
    ensures Dialer(s.d, pc.t) && s.d.built[pc.t].key == s.conns[x].key
  {
    SetupFindsNothing(s, p, pc);
    DialerAt(s.d, pc);
    MutexHolder(s, p);
    if pc.DialStash? {
      TakenEffect(s, s', p, c, pc, s'.procs[p]);
      TakenSpends(s.d.stash, s.conns, s.d.built[pc.t].key, pc.t, x);
    } else {
      SettledEffect(s, s', p, c, pc, s'.procs[p]);
      var fate := if s'.procs[p].DialGot? then Handed(pc.t) else Closed;
      JudgedSpends(s.d.stash, s.conns, HolderHand(s).value, fate, x);
    }
  }

  /** Steps outside a reconnect spend nothing. */
  lemma OthersSpendNothing(s: State, s': State, p: Pid, c: Choice, x: Cid)
    requires p in s.procs && Step(s, p, c) == Some(s') && x < |s.conns| <= |s'.conns|
    requires Touches(s, s.procs[p], c) && !s.procs[p].DialStash? && !s.procs[p].DialJudge?
    ensures Spent(s'.conns[x].fate) ==> Spent(s.conns[x].fate)
  {
  }

  lemma NothingTouched(s: State, s': State, p: Pid, c: Choice)
    requires Inv(s) && Step(s, p, c) == Some(s') && (p !in s.procs || !Touches(s, s.procs[p], c))
    ensures s'.conns == s.conns
  {
    if p !in s.procs {
      QuietSpawn(s, s', p, c, s'.procs[p]);
    } else {
      QuietStep(s, s', p, c, s.procs[p], s'.procs[p]);
    }
  }

  lemma OnlyDialsSpend(s: State, s': State, p: Pid, c: Choice, x: Cid)
    requires Inv(s) && Step(s, p, c) == Some(s') && x < |s.conns| <= |s'.conns|
    requires !Spent(s.conns[x].fate) && Spent(s'.conns[x].fate)
    ensures p in s.procs && Touches(s, s.procs[p], c) && (s.procs[p].DialStash? || s.procs[p].DialJudge?)
  {
    if p !in s.procs || !Touches(s, s.procs[p], c) {
      NothingTouched(s, s', p, c);
    } else if !s.procs[p].DialStash? && !s.procs[p].DialJudge? {
      OthersSpendNothing(s, s', p, c, x);
    }
  }

  /** Only a reconnect spends a connection, and it is one of its own address. */
  lemma SpentBy(s: State, s': State, p: Pid, c: Choice, x: Cid)
    requires Inv(s) && Ledger(s) && Step(s, p, c) == Some(s') && x < |s.conns| <= |s'.conns|
    requires !Spent(s.conns[x].fate) && Spent(s'.conns[x].fate)
    ensures p in s.procs && Acts(s.d, s.procs[p], s.conns[x].key)
  {
    OnlyDialsSpend(s, s', p, c, x);
    SpentByDial(s, s', p, c, s.procs[p], x);
  }

  /** Only a failed HTTP/3 build leaks a connection, and it is the one in hand. */
  lemma LeakedBy(s: State, s': State, p: Pid, c: Choice, x: Cid)
    requires Inv(s) && Ledger(s) && Step(s, p, c) == Some(s') && x < |s.conns| <= |s'.conns|
    requires !s.conns[x].fate.Leaked? && s'.conns[x].fate.Leaked?
    ensures c.BuildFails? && p in s.procs && s.procs[p].SetupBuild? && s.conns[x] == Conn(s.procs[p].a, HTTP3, InHand)
  {
    if p !in s.procs || !Touches(s, s.procs[p], c) {
      NothingTouched(s, s', p, c);
      assert false;
    }
    LeaksLast(s, s', p, c, x);
    MutexHolder(s, p);
    SettledEffect(s, s', p, c, s.procs[p], s'.procs[p]);
    JudgedSpends(s.d.stash, s.conns, HolderHand(s).value, Leaked, x);
  }

  lemma LeaksLast(s: State, s': State, p: Pid, c: Choice, x: Cid)
    requires p in s.procs && Step(s, p, c) == Some(s') && x < |s.conns| <= |s'.conns| && Touches(s, s.procs[p], c)
    requires !s.conns[x].fate.Leaked? && s'.conns[x].fate.Leaked?
    ensures s.procs[p].SetupBuild? && c.BuildFails? && KindForProtocol(s.procs[p].protocol) == HTTP3
  {
  }

  // ----- Lost connections stay lost

  /** Where a process gets the transport it dials for: its own, the request's that it dials for, or the cache. */
  predicate MoverFrom(s: State, p: Pid, c: Choice, t: Tid) {
    || (p in s.procs && Mover(s.procs[p]) == Some(t))
    || (c.StartDial? && c.request in s.procs && Mover(s.procs[c.request]) == Some(t))
    || (p in s.procs && s.procs[p].ReqRead? && s.procs[p].a in s.d.transports && s.d.transports[s.procs[p].a] == t)
  }

  lemma StartMover(s: State, s': State, p: Pid, c: Choice, t: Tid)
    requires if p in s.procs then Wants(s.procs[p]).Some? && Acquire(s, p, c) == Some(s')
             else Spawn(s, p, c) == Some(s')
    requires Mover(s'.procs[p]) == Some(t)
    ensures MoverFrom(s, p, c, t)
  {
  }

  lemma RequestMover(s: State, s': State, p: Pid, c: Choice, t: Tid)
    requires p in s.procs && RequestStep(s, p, c) == Some(s') && Mover(s'.procs[p]) == Some(t)
    ensures MoverFrom(s, p, c, t)
  {
  }

  lemma DialMover(s: State, s': State, p: Pid, c: Choice, t: Tid)
    requires p in s.procs && DialStep(s, p, c) == Some(s') && Mover(s'.procs[p]) == Some(t)
    ensures MoverFrom(s, p, c, t)
  {
  }

  lemma OtherMover(s: State, s': State, p: Pid, c: Choice)
    requires p in s.procs
    requires SetupStep(s, p, c) == Some(s') || DropStep(s, p, c) == Some(s') || H3Step(s, p, c) == Some(s')
    ensures Mover(s'.procs[p]).None?
  {
  }

  lemma StepMover(s: State, s': State, p: Pid, c: Choice, t: Tid)
    requires Step(s, p, c) == Some(s') && Mover(s'.procs[p]) == Some(t)
    ensures MoverFrom(s, p, c, t)
  {
    if p !in s.procs || Wants(s.procs[p]).Some? {
      StartMover(s, s', p, c, t);
    } else if InDial(s.procs[p]) {
      DialMover(s, s', p, c, t);
    } else if InSetup(s.procs[p]) || s.procs[p].DropCheck? || s.procs[p].DropKind? || s.procs[p].H3Put? {
      OtherMover(s, s', p, c);
    } else {
      RequestMover(s, s', p, c, t);
    }
  }

  /** Transports keep their address and kind. */
  lemma ActsKept(s: State, s': State, p: Pid, c: Choice, t: Tid)
    requires Inv(s) && Step(s, p, c) == Some(s') && t in s.d.built
    ensures t in s'.d.built && s'.d.built[t] == s.d.built[t]
  {
    StepGuarantees(s, s', p, c);
  }

  lemma MoverBuilt(s: State, q: Pid)
    requires Inv(s) && q in s.procs && Mover(s.procs[q]).Some?
    ensures Mover(s.procs[q]).value in s.d.built
  {
    assert PcInv(s.d, s.procs[q]);
  }

  /** A connection in hand that nobody may dial for is in the hand of a setup, which holds cachedTransportsLck too. */
  lemma HandsOfSetup(s: State, q: Pid)
    requires Inv(s) && q in s.procs && Hand(s.d, s.procs[q]).Some?
    requires !Acts(s.d, s.procs[q], Hand(s.d, s.procs[q]).value.0)
    ensures s.tOwner == Some(q) && !s.procs[q].ReqRead?
  {
    assert PcInv(s.d, s.procs[q]);
  }

  /** Whoever reads the cached transport of a lost connection's address reads an HTTP/3 transport. */
  lemma ReadsHttp3(s: State, p: Pid, x: Cid)
    requires Inv(s) && Ledger(s) && x < |s.conns| && Lost(s, x) && !s.conns[x].fate.Leaked?
    requires p in s.procs && s.procs[p].ReqRead? && s.procs[p].a == s.conns[x].key && s.procs[p].a in s.d.transports
    ensures !Dialer(s.d, s.d.transports[s.procs[p].a])
  {
    AccountsFit(s.d.stash, s.conns, HolderHand(s), x);
    if s.conns[x].fate.InHand? {
      var q := s.rtOwner.value;
      HandsOfSetup(s, q);
    }
  }

  /** Whatever transport a process gets to dial for, it is none that dials at the address of a lost connection. */
  lemma NewActor(s: State, s': State, p: Pid, c: Choice, x: Cid, t: Tid)
    requires Inv(s) && Ledger(s) && Step(s, p, c) == Some(s') && MoverFrom(s, p, c, t) && t in s.d.built
    requires x < |s.conns| && Lost(s, x) && !s.conns[x].fate.Leaked?
    ensures !(Dialer(s.d, t) && s.d.built[t].key == s.conns[x].key)
  {
    if p in s.procs && Mover(s.procs[p]) == Some(t) {
      assert !Acts(s.d, s.procs[p], s.conns[x].key);
    } else if c.StartDial? && c.request in s.procs && Mover(s.procs[c.request]) == Some(t) {
      assert !Acts(s.d, s.procs[c.request], s.conns[x].key);
    } else if s.procs[p].a == s.conns[x].key {
      ReadsHttp3(s, p, x);
    }
  }

  lemma MoverFromBuilt(s: State, p: Pid, c: Choice, t: Tid)
    requires Inv(s) && MoverFrom(s, p, c, t)
    ensures t in s.d.built
  {
    if p in s.procs && Mover(s.procs[p]) == Some(t) {
      MoverBuilt(s, p);
    } else if c.StartDial? && c.request in s.procs && Mover(s.procs[c.request]) == Some(t) {
      MoverBuilt(s, c.request);
    }
  }

  /** No step makes an address active at which a connection is lost. */
  lemma StaysInactive(s: State, s': State, p: Pid, c: Choice, x: Cid)
    requires Inv(s) && Ledger(s) && Step(s, p, c) == Some(s')
    requires x < |s.conns| && Lost(s, x) && !s.conns[x].fate.Leaked?
    ensures !Active(s', s.conns[x].key)
  {
    StepMovesOne(s, s', p, c);
    forall q | q in s'.procs
      ensures !Acts(s'.d, s'.procs[q], s.conns[x].key)
    {
      if Mover(s'.procs[q]).Some? {
        var t := Mover(s'.procs[q]).value;
        if q == p {
          StepMover(s, s', p, c, t);
          MoverFromBuilt(s, p, c, t);
          NewActor(s, s', p, c, x, t);
        } else {
          MoverBuilt(s, q);
          assert !Acts(s.d, s.procs[q], s.conns[x].key);
        }
        ActsKept(s, s', p, c, t);
      }
    }
  }

  lemma LostStep(s: State, s': State, p: Pid, c: Choice, x: Cid)
    requires Inv(s) && Ledger(s) && Step(s, p, c) == Some(s') && x < |s.conns| && Lost(s, x)
    ensures x < |s'.conns| && Lost(s', x) && Inv(s') && Ledger(s')
  {
    StepLedger(s, s', p, c);
    assert s'.conns[x].key == s.conns[x].key;
    if !s.conns[x].fate.Leaked? {
      if Spent(s'.conns[x].fate) {
        SpentBy(s, s', p, c, x);
        assert false;
      }
      StaysInactive(s, s', p, c, x);
    }
  }

  lemma {:induction false} LostForever(s: State, schedule: seq<(Pid, Choice)>, x: Cid)
    requires Inv(s) && Ledger(s) && x < |s.conns| && Lost(s, x) && RunFrom(s, schedule).Some?
    ensures var s' := RunFrom(s, schedule).value; Inv(s') && Ledger(s') && x < |s'.conns| && Lost(s', x)
  {
    if schedule != [] {
      var before := schedule[..|schedule| - 1];
      LostForever(s, before, x);
      var (p, c) := schedule[|schedule| - 1];
      LostStep(RunFrom(s, before).value, RunFrom(s, schedule).value, p, c, x);
    }
  }

  // ----- Any other connection can still be spent

  /** A state from which x is not lost, as the invariants have it. */
  ghost predicate Open(s: State, x: Cid) {
    Inv(s) && Ledger(s) && x < |s.conns| && !Lost(s, x)
  }

  /** A dial that has looked for a stashed connection found none, and holds the mutex, so that none is stashed since. */
  lemma NothingStashedFor(s: State, p: Pid, a: Key)
    requires Inv(s) && p in s.procs && Acts(s.d, s.procs[p], a)
    requires s.procs[p].DialNet? || s.procs[p].DialJudge?
    ensures a !in s.d.stash
  {
    assert PcInv(s.d, s.procs[p]);
  }

  lemma StashTaken(s: State, s': State, p: Pid, c: Choice, x: Cid)
    requires Inv(s) && Ledger(s) && Step(s, p, c) == Some(s') && x < |s.conns| && s.conns[x].fate.Waiting?
    requires p in s.procs && s.procs[p].DialStash? && Acts(s.d, s.procs[p], s.conns[x].key)
    ensures x < |s'.conns| && Spent(s'.conns[x].fate)
  {
    AccountsFit(s.d.stash, s.conns, HolderHand(s), x);
    TakenEffect(s, s', p, c, s.procs[p], s'.procs[p]);
  }

  lemma HandJudged(s: State, s': State, p: Pid, c: Choice, x: Cid)
    requires Inv(s) && Ledger(s) && Step(s, p, c) == Some(s') && x < |s.conns| && s.conns[x].fate.InHand?
    requires p in s.procs && s.procs[p].DialJudge?
    ensures x < |s'.conns| && Spent(s'.conns[x].fate)
  {
    AccountsFit(s.d.stash, s.conns, HolderHand(s), x);
    SettledEffect(s, s', p, c, s.procs[p], s'.procs[p]);
  }

  /** The dials that neither take nor judge a connection go on as dials. */
  lemma DialStays(s: State, s': State, p: Pid, c: Choice)
    requires p in s.procs && Step(s, p, c) == Some(s')
    requires s.procs[p].DialWait? || s.procs[p].DialKindWait? || s.procs[p].DialKind?
    ensures Mover(s'.procs[p]) == Mover(s.procs[p])
  {
  }

  /** A dial that may spend x has spent it after its next step, or may still. */
  lemma ActorStep(s: State, s': State, p: Pid, c: Choice, x: Cid)
    requires Open(s, x) && Step(s, p, c) == Some(s') && !Spent(s.conns[x].fate) && x < |s'.conns|
    requires p in s.procs && !s.procs[p].ReqUse? && Acts(s.d, s.procs[p], s.conns[x].key)
    ensures Spent(s'.conns[x].fate) || Acts(s'.d, s'.procs[p], s.conns[x].key)
  {
    AccountsFit(s.d.stash, s.conns, HolderHand(s), x);
    var pc := s.procs[p];
    if pc.DialWait? || pc.DialKindWait? || pc.DialKind? {
      DialStays(s, s', p, c);
      ActsKept(s, s', p, c, Mover(pc).value);
    } else {
      MutexHolder(s, p);
      if pc.DialStash? {
        StashTaken(s, s', p, c, x);
      } else {
        NothingStashedFor(s, p, s.conns[x].key);
        if pc.DialJudge? {
          HandJudged(s, s', p, c, x);
        }
      }
    }
  }

  lemma OtherActorStays(s: State, s': State, p: Pid, c: Choice, q: Pid, a: Key)
    requires Inv(s) && Step(s, p, c) == Some(s') && q in s.procs && q != p && Acts(s.d, s.procs[q], a)
    ensures q in s'.procs && Acts(s'.d, s'.procs[q], a)
  {
    StepMovesOne(s, s', p, c);
    ActsKept(s, s', p, c, Mover(s.procs[q]).value);
  }

  /** A step that fails no build and ends no request loses nothing. */
  lemma NotLostStep(s: State, s': State, p: Pid, c: Choice, x: Cid)
    requires Open(s, x) && Step(s, p, c) == Some(s') && !c.BuildFails? && (p in s.procs ==> !s.procs[p].ReqUse?)
    ensures Open(s', x) && s'.conns[x].kind == s.conns[x].kind
  {
    StepLedger(s, s', p, c);
    assert s'.conns[x].key == s.conns[x].key;
    if s'.conns[x].fate.Leaked? {
      LeakedBy(s, s', p, c, x);
      assert false;
    }
    if s.conns[x].kind == HTTP3 && !Spent(s'.conns[x].fate) {
      var a := s.conns[x].key;
      var q :| q in s.procs && Acts(s.d, s.procs[q], a);
      if q == p {
        ActorStep(s, s', p, c, x);
        assert Active(s', a);
      } else {
        OtherActorStays(s, s', p, c, q, a);
      }
    }
  }

  /** How far the mutex holder is from releasing it. */
  function Rank(pc: Pc): nat {
    match pc
    case SetupStash(_) => 2
    case SetupDial(_) => 1
    case SetupBuild(_, _) => 4
    case SetupKindWait(_, _) => 3
    case SetupKind(_, _) => 2
    case SetupStore(_, _) => 1
    case DialStash(_) => 2
    case DialNet(_) => 1
    case DialKindWait(_, _) => 3
    case DialKind(_, _) => 2
    case DialJudge(_, _, _, _, _) => 1
    case _ => 0
  }

  /** The mutex is free, or its holder is closer to releasing it than rank. */
  predicate Within(s: State, rank: nat) {
    s.rtOwner.Some? ==> s.rtOwner.value in s.procs && Rank(s.procs[s.rtOwner.value]) < rank
  }

  lemma SetupAdvances(s: State, q: Pid)
    requires q in s.procs && s.rtOwner == Some(q) && InSetup(s.procs[q]) && PcInv(s.d, s.procs[q])
    requires s.procs[q].SetupStash? ==> s.procs[q].a !in s.d.stash
    requires SetupStep(s, q, Continue(s.procs[q])).Some?
    ensures Within(SetupStep(s, q, Continue(s.procs[q])).value, Rank(s.procs[q]))
  {
  }

  lemma DialAdvances(s: State, q: Pid)
    requires q in s.procs && s.rtOwner == Some(q) && InDial(s.procs[q])
    requires DialStep(s, q, Continue(s.procs[q])).Some?
    ensures Within(DialStep(s, q, Continue(s.procs[q])).value, Rank(s.procs[q]))
  {
  }

  /** The mutex holder's next step, if it does not wait. */
  lemma HolderSteps(s: State, q: Pid) returns (s': State)
    requires Inv(s) && s.rtOwner == Some(q) && q in s.procs && Wants(s.procs[q]).None?
    ensures Step(s, q, Continue(s.procs[q])) == Some(s') && Within(s', Rank(s.procs[q]))
  {
    assert Holds(s.procs[q], RoundTripperLck);
    SetupFindsNothing(s, q, s.procs[q]);
    RunningCanStep(s, q);
    s' := Step(s, q, Continue(s.procs[q])).value;
    if InSetup(s.procs[q]) {
      SetupAdvances(s, q);
    } else {
      DialAdvances(s, q);
    }
  }

  /** A mutex holder that waits for the kinds lock gets it, once it is free. */
  lemma HolderAcquires(s: State, q: Pid) returns (s': State)
    requires Inv(s) && s.rtOwner == Some(q) && q in s.procs && Wants(s.procs[q]).Some? && s.kOwner.None?
    ensures Step(s, q, Go) == Some(s') && Within(s', Rank(s.procs[q]))
  {
    assert Holds(s.procs[q], RoundTripperLck);
    WaiterCanStep(s, q);
    s' := Step(s, q, Go).value;
  }

  /** Whoever else holds the kinds lock releases it in one step. */
  lemma KindsReleased(s: State, q: Pid) returns (s': State)
    requires Inv(s) && s.rtOwner == Some(q) && q in s.procs && Wants(s.procs[q]).Some? && s.kOwner.Some?
    ensures Step(s, s.kOwner.value, Go) == Some(s') && s'.kOwner.None? && s'.rtOwner == Some(q)
    ensures q in s'.procs && s'.procs[q] == s.procs[q]
  {
    var k := s.kOwner.value;
    assert Holds(s.procs[q], RoundTripperLck) && Holds(s.procs[k], KindsLck);
    assert s.procs[k].DropKind?;
    s' := Step(s, k, Go).value;
  }

  /** Some continuation frees the mutex without losing x. */
  lemma {:induction false} FreeMutex(s: State, x: Cid) returns (s': State)
    requires Open(s, x)
    ensures Later(s, s') && Open(s', x) && s'.rtOwner.None?
    decreases if s.rtOwner.Some? && s.rtOwner.value in s.procs then 1 + Rank(s.procs[s.rtOwner.value]) else 0
  {
    LaterSame(s);
    if s.rtOwner.None? {
      return s;
    }
    var q := s.rtOwner.value;
    var s1, c := s, Go;
    if Wants(s.procs[q]).None? {
      c := Continue(s.procs[q]);
      s1 := HolderSteps(s, q);
      NotLostStep(s, s1, q, c, x);
      LaterStep(s, s, s1, q, c);
    } else {
      var s0 := s;
      if s.kOwner.Some? {
        s0 := KindsReleased(s, q);
        NotLostStep(s, s0, s.kOwner.value, Go, x);
        LaterStep(s, s, s0, s.kOwner.value, Go);
      }
      s1 := HolderAcquires(s0, q);
      NotLostStep(s0, s1, q, Go, x);
      LaterStep(s, s0, s1, q, Go);
    }
    s' := FreeMutex(s1, x);
    LaterTrans(s, s1, s');
  }

  lemma {:induction false} Above(ps: set<Pid>) returns (p: Pid)
    ensures p !in ps && forall q :: q in ps ==> q < p
  {
    if ps == {} {
      return 0;
    }
    var q :| q in ps;
    var p' := Above(ps - {q});
    p := if p' > q then p' else q + 1;
    forall k | k in ps
      ensures k < p
    {
      assert k == q || k in ps - {q};
    }
  }

  /** A dial that waits for the free mutex takes the connection stashed for its address. */
  lemma TakeIt(s: State, x: Cid, p: Pid, t: Tid) returns (s': State)
    requires Inv(s) && Ledger(s) && s.rtOwner.None? && x < |s.conns| && s.conns[x].fate.Waiting?
    requires p in s.procs && s.procs[p] == DialWait(t) && Acts(s.d, s.procs[p], s.conns[x].key)
    ensures Later(s, s') && x < |s'.conns| && Spent(s'.conns[x].fate)
  {
    AccountsFit(s.d.stash, s.conns, HolderHand(s), x);
    var s1 := Step(s, p, Go).value;
    assert s1.d == s.d && s1.conns == s.conns && s1.procs[p] == DialStash(t);
    s' := Step(s1, p, Go).value;
    LaterSame(s);
    LaterStep(s, s, s1, p, Go);
    LaterStep(s, s1, s', p, Go);
    TakenEffect(s1, s', p, Go, DialStash(t), s'.procs[p]);
  }

  /** A request inside a transport of the address of x dials, and gets x. */
  lemma DialForIt(s: State, x: Cid, q: Pid) returns (s': State)
    requires Inv(s) && Ledger(s) && s.rtOwner.None? && x < |s.conns| && s.conns[x].fate.Waiting?
    requires q in s.procs && s.procs[q].ReqUse? && Acts(s.d, s.procs[q], s.conns[x].key)
    ensures Later(s, s') && x < |s'.conns| && Spent(s'.conns[x].fate)
  {
    var p := Above(s.procs.Keys);
    var s1 := StartsDial(s, p, q);
    s' := TakeIt(s1, x, p, s.procs[q].t);
    LaterTrans(s, s1, s');
  }

  lemma StartsDial(s: State, p: Pid, q: Pid) returns (s': State)
    requires Inv(s) && Ledger(s) && p !in s.procs && q in s.procs && CanDial(s.d, s.procs[q])
    ensures Later(s, s') && Inv(s') && Ledger(s') && s'.d == s.d && s'.conns == s.conns && s'.rtOwner == s.rtOwner
    ensures p in s'.procs && s'.procs[p] == DialWait(s.procs[q].t)
  {
    s' := Step(s, p, StartDial(q)).value;
    StepLedger(s, s', p, StartDial(q));
    LaterSame(s);
    LaterStep(s, s, s', p, StartDial(q));
  }

  /** With the mutex free, a connection that waits and has an actor is taken by it. */
  lemma ActorTakes(s: State, x: Cid) returns (s': State)
    requires Inv(s) && Ledger(s) && s.rtOwner.None? && x < |s.conns| && s.conns[x].fate.Waiting?
    requires Active(s, s.conns[x].key)
    ensures Later(s, s') && x < |s'.conns| && Spent(s'.conns[x].fate)
  {
    var q :| q in s.procs && Acts(s.d, s.procs[q], s.conns[x].key);
    if s.procs[q].ReqUse? {
      s' := DialForIt(s, x, q);
    } else {
      assert !Holds(s.procs[q], RoundTripperLck);
      s' := TakeIt(s, x, q, s.procs[q].t);
    }
  }

  // ----- A new request

  /** How far the holder of cachedTransportsLck is from releasing it, while the mutex is free. */
  function TransportsRank(pc: Pc): nat {
    match pc
    case ReqCheck(_, _) => 3
    case SetupWait(_) => 2
    case _ => 1
  }

  predicate TransportsWithin(s: State, rank: nat) {
    s.tOwner.Some? ==> s.tOwner.value in s.procs && TransportsRank(s.procs[s.tOwner.value]) < rank
  }

  /** A holder of cachedTransportsLck that waits for the free mutex gets it, fails its dial and releases it. */
  lemma SetupFails(s: State, x: Cid, q: Pid) returns (s': State)
    requires Open(s, x) && s.rtOwner.None? && s.tOwner == Some(q) && q in s.procs && s.procs[q].SetupWait?
    ensures Later(s, s') && Open(s', x) && s'.rtOwner.None? && TransportsWithin(s', 2)
    ensures s'.conns[x].kind == s.conns[x].kind
  {
    var a := s.procs[q].a;
    var s1 := Step(s, q, Go).value;
    NotLostStep(s, s1, q, Go, x);
    assert s1.procs[q] == SetupStash(a);
    SetupFindsNothing(s1, q, s1.procs[q]);
    var s2 := Step(s1, q, Go).value;
    NotLostStep(s1, s2, q, Go, x);
    var s3 := Step(s2, q, NetFails).value;
    NotLostStep(s2, s3, q, NetFails, x);
    LaterSame(s);
    LaterStep(s, s, s1, q, Go);
    LaterStep(s, s1, s2, q, Go);
    LaterStep(s, s2, s3, q, NetFails);
    s' := s3;
  }

  lemma TransportsHolderSteps(s: State, q: Pid) returns (s': State)
    requires Inv(s) && s.rtOwner.None? && s.tOwner == Some(q) && q in s.procs && !s.procs[q].SetupWait?
    ensures Step(s, q, Go) == Some(s') && s'.rtOwner.None? && TransportsWithin(s', TransportsRank(s.procs[q]))
    ensures !s.procs[q].ReqUse?
  {
    assert Holds(s.procs[q], TransportsLck) && !Holds(s.procs[q], RoundTripperLck);
    RunningCanStep(s, q);
    s' := Step(s, q, Go).value;
  }

  /** Some continuation frees cachedTransportsLck too, without losing x. */
  lemma {:induction false} FreeTransports(s: State, x: Cid) returns (s': State)
    requires Open(s, x) && s.rtOwner.None?
    ensures Later(s, s') && Open(s', x) && s'.rtOwner.None? && s'.tOwner.None?
    ensures s'.conns[x].kind == s.conns[x].kind
    decreases if s.tOwner.Some? && s.tOwner.value in s.procs then 1 + TransportsRank(s.procs[s.tOwner.value]) else 0
  {
    LaterSame(s);
    if s.tOwner.None? {
      return s;
    }
    var q := s.tOwner.value;
    var s1 := s;
    if s.procs[q].SetupWait? {
      s1 := SetupFails(s, x, q);
    } else {
      s1 := TransportsHolderSteps(s, q);
      NotLostStep(s, s1, q, Go, x);
      LaterStep(s, s, s1, q, Go);
    }
    s' := FreeTransports(s1, x);
    LaterTrans(s, s1, s');
  }

  /** A new https request finds the cached transport and gets inside it. */
  lemma NewRequest(s: State, p: Pid, a: Key) returns (s': State)
    requires Inv(s) && Ledger(s) && s.tOwner.None? && p !in s.procs && a.Tcp? && a in s.d.transports
    ensures Later(s, s') && Inv(s') && Ledger(s') && s'.d == s.d && s'.conns == s.conns && s'.rtOwner == s.rtOwner
    ensures p in s'.procs && s'.procs[p] == ReqUse(a, s.d.transports[a], Https)
  {
    var s1 := Step(s, p, StartRequest(a.addr, Https)).value;
    var s2 := Step(s1, p, Go).value;
    var s3 := Step(s2, p, Go).value;
    s' := Step(s3, p, Go).value;
    StepLedger(s, s1, p, StartRequest(a.addr, Https));
    StepLedger(s1, s2, p, Go);
    StepLedger(s2, s3, p, Go);
    StepLedger(s3, s', p, Go);
    LaterSame(s);
    LaterStep(s, s, s1, p, StartRequest(a.addr, Https));
    LaterStep(s, s1, s2, p, Go);
    LaterStep(s, s2, s3, p, Go);
    LaterStep(s, s3, s', p, Go);
  }

  /** Beside a waiting connection on which HTTP/3 was not negotiated a transport is cached that dials. */
  lemma CachedDialer(s: State, x: Cid)
    requires Inv(s) && Ledger(s) && x < |s.conns| && s.conns[x].fate.Waiting? && s.conns[x].kind != HTTP3
    ensures var a := s.conns[x].key;
            && a.Tcp? && a in s.d.transports && Dialer(s.d, s.d.transports[a]) && s.d.built[s.d.transports[a]].key == a
  {
    AccountsFit(s.d.stash, s.conns, HolderHand(s), x);
  }

  /** With both locks free, a connection that waits and on which HTTP/3 was not negotiated is taken by a new request. */
  lemma NewRequestTakes(s: State, x: Cid) returns (s': State)
    requires Inv(s) && Ledger(s) && s.rtOwner.None? && s.tOwner.None?
    requires x < |s.conns| && s.conns[x].fate.Waiting? && s.conns[x].kind != HTTP3
    ensures Later(s, s') && x < |s'.conns| && Spent(s'.conns[x].fate)
  {
    CachedDialer(s, x);
    var p := Above(s.procs.Keys);
    var s1 := NewRequest(s, p, s.conns[x].key);
    var s2 := DialForIt(s1, x, p);
    LaterTrans(s, s1, s2);
    s' := s2;
  }

  /** With the mutex free, x has been spent or waits, and can be spent. */
  lemma SpendsWhenFree(s: State, x: Cid) returns (s': State)
    requires Open(s, x) && s.rtOwner.None?
    ensures Later(s, s') && x < |s'.conns| && Spent(s'.conns[x].fate)
  {
    if Spent(s.conns[x].fate) {
      LaterSame(s);
      return s;
    }
    AccountsFit(s.d.stash, s.conns, HolderHand(s), x);
    if s.conns[x].kind == HTTP3 {
      s' := ActorTakes(s, x);
    } else {
      var s1 := FreeTransports(s, x);
      s' := SpendsByRequest(s1, x);
      LaterTrans(s, s1, s');
    }
  }

  lemma SpendsByRequest(s: State, x: Cid) returns (s': State)
    requires Open(s, x) && s.rtOwner.None? && s.tOwner.None? && s.conns[x].kind != HTTP3
    ensures Later(s, s') && x < |s'.conns| && Spent(s'.conns[x].fate)
  {
    if Spent(s.conns[x].fate) {
      LaterSame(s);
      return s;
    }
    AccountsFit(s.d.stash, s.conns, HolderHand(s), x);
    s' := NewRequestTakes(s, x);
  }

  lemma CanBeSpent(s: State, x: Cid) returns (s': State)
    requires Open(s, x)
    ensures Later(s, s') && x < |s'.conns| && Spent(s'.conns[x].fate)
  {
    var s1 := FreeMutex(s, x);
    s' := SpendsWhenFree(s1, x);
    LaterTrans(s, s1, s');
  }

  /**
  In every reachable state and for every connection dialed so far: no continuation of the run ever hands it to a
  transport or closes it exactly if an HTTP/3 build failed on it, or HTTP/3 was negotiated on it, it has not been used
  or closed, and no https request is inside a transport of its address that dials, nor is any of its dials under way.
  */
  lemma LostExactlyWhen(s: State, x: Cid)
    requires Reachable(s) && x < |s.conns|
    ensures Lost(s, x) <==> forall s' :: Later(s, s') ==> x < |s'.conns| && !Spent(s'.conns[x].fate)
  {
    ReachableLedger(s);
    if Lost(s, x) {
      forall s' | Later(s, s')
        ensures x < |s'.conns| && !Spent(s'.conns[x].fate)
      {
        var schedule :| RunFrom(s, schedule) == Some(s');
        LostForever(s, schedule, x);
      }
    } else {
      var s' := CanBeSpent(s, x);
    }
  }

  /** A connection is leaked only when an HTTP/3 build fails right after its handshake, and then exactly that one is. */
  lemma LeakedExactlyBy(s: State, s': State, p: Pid, c: Choice, x: Cid)
    requires Reachable(s) && Step(s, p, c) == Some(s') && x < |s.conns|
    ensures x < |s'.conns|
    ensures s'.conns[x].fate.Leaked? && !s.conns[x].fate.Leaked? <==>
            x == |s.conns| - 1 && c.BuildFails? && p in s.procs && s.procs[p].SetupBuild?
  {
    ReachableLedger(s);
    StepLedger(s, s', p, c);
    if s'.conns[x].fate.Leaked? && !s.conns[x].fate.Leaked? {
      LeakedBy(s, s', p, c, x);
    }
    if x == |s.conns| - 1 && c.BuildFails? && p in s.procs && s.procs[p].SetupBuild? {
      BuildFailureLeaks(s, s', p, c);
    }
  }

  lemma BuildFailureLeaks(s: State, s': State, p: Pid, c: Choice)
    requires Inv(s) && Ledger(s) && Step(s, p, c) == Some(s')
    requires c.BuildFails? && p in s.procs && s.procs[p].SetupBuild?
    ensures s.conns != [] && |s'.conns| == |s.conns|
    ensures s.conns[|s.conns| - 1].fate.InHand? && s'.conns[|s.conns| - 1].fate.Leaked?
  {
    MutexHolder(s, p);
    SettledEffect(s, s', p, c, s.procs[p], s'.procs[p]);
  }
}
