/**
Where every connection of the transport cache ends up: an account of all completed handshakes, and exactly which of
them are never used nor closed.
*/
module TransportLedger {
  import opened Common
  import opened TransportCache
  import opened TransportCacheInvariants
  import opened TransportCacheTheorems

  // ----- The account

  /** The connection that a process has dialed and not yet handed over, closed or stashed: its key and kind. */
  function Hand(d: Data, pc: Pc): Option<(Key, Kind)> {
    match pc
    case SetupBuild(a, protocol) => Some((a, KindForProtocol(protocol)))
    case SetupKindWait(a, t) => if t in d.built then Some((a, d.built[t].kind)) else None
    case SetupKind(a, t) => if t in d.built then Some((a, d.built[t].kind)) else None
    case SetupStore(a, t) => if t in d.built then Some((a, d.built[t].kind)) else None
    case DialKindWait(t, protocol) => if t in d.built then Some((d.built[t].key, KindForProtocol(protocol))) else None
    case DialKind(t, protocol) => if t in d.built then Some((d.built[t].key, KindForProtocol(protocol))) else None
    case DialJudge(t, protocol, _, _, _) =>
      if t in d.built then Some((d.built[t].key, KindForProtocol(protocol))) else None
    case _ => None
  }

  /** What the holder of the round tripper mutex has in hand. */
  function HolderHand(s: State): Option<(Key, Kind)> {
    if Holder(s).Some? then Hand(s.d, Holder(s).value) else None
  }

  /**
  Stashed and waiting connections are the same ones; the only connection in hand is the one dialed last, and it is in
  the hand of the mutex holder.
  */
  ghost predicate Accounts(stash: map<Key, Stashed>, conns: seq<Conn>, hand: Option<(Key, Kind)>) {
    && (forall a {:trigger a in stash} :: a in stash ==>
          stash[a].conn < |conns| && conns[stash[a].conn] == Conn(a, stash[a].kind, Waiting))
    && (forall c {:trigger conns[c]} :: 0 <= c < |conns| && conns[c].fate.Waiting? ==>
          conns[c].key in stash && stash[conns[c].key].conn == c)
    && (forall c {:trigger conns[c]} :: 0 <= c < |conns| && conns[c].fate.InHand? ==> c == |conns| - 1 && hand.Some?)
    && (hand.Some? ==> conns != [] && conns[|conns| - 1] == Conn(hand.value.0, hand.value.1, InHand))
  }

  predicate IsFinal(fate: Fate) {
    fate.Handed? || fate.Closed? || fate.Leaked?
  }

  /** Connections are only added; they keep their address, kind and final fate; a waiting one is only handed over. */
  ghost predicate Evolves(conns: seq<Conn>, conns': seq<Conn>) {
    && |conns| <= |conns'|
    && forall c {:trigger conns'[c]} :: 0 <= c < |conns| ==>
         && conns'[c].key == conns[c].key && conns'[c].kind == conns[c].kind
         && (IsFinal(conns[c].fate) ==> conns'[c] == conns[c])
         && (conns[c].fate.Waiting? ==> conns'[c].fate.Waiting? || conns'[c].fate.Handed?)
  }

  lemma DialAccounts(stash: map<Key, Stashed>, conns: seq<Conn>, key: Key, kind: Kind)
    requires Accounts(stash, conns, None)
    ensures Accounts(stash, conns + [Conn(key, kind, InHand)], Some((key, kind)))
    ensures Evolves(conns, conns + [Conn(key, kind, InHand)])
  {
  }

  lemma SettleAccounts(stash: map<Key, Stashed>, conns: seq<Conn>, hand: Option<(Key, Kind)>, fate: Fate)
    requires Accounts(stash, conns, hand) && hand.Some? && IsFinal(fate)
    ensures Accounts(stash, Settle(conns, LastConn(conns), fate), None)
    ensures Evolves(conns, Settle(conns, LastConn(conns), fate))
  {
  }

  lemma StoreAccounts(stash: map<Key, Stashed>, conns: seq<Conn>, a: Key, kind: Kind, owner: Tid)
    requires Accounts(stash, conns, Some((a, kind))) && a !in stash
    ensures Accounts(stash[a := Stashed(kind, owner, LastConn(conns))], Settle(conns, LastConn(conns), Waiting), None)
    ensures Evolves(conns, Settle(conns, LastConn(conns), Waiting))
  {
  }

  lemma TakeAccounts(stash: map<Key, Stashed>, conns: seq<Conn>, a: Key, t: Tid)
    requires Accounts(stash, conns, None) && a in stash
    ensures Accounts(stash - {a}, Settle(conns, stash[a].conn, Handed(t)), None)
    ensures Evolves(conns, Settle(conns, stash[a].conn, Handed(t)))
  {
  }

  // ----- Every step keeps the account

  ghost predicate Ledger(s: State) {
    Accounts(s.d.stash, s.conns, HolderHand(s))
  }

  /** What the mutex holder has in hand after p moves from pc to pc'. */
  function HandAfter(s: State, s': State, pc: Pc, pc': Pc): Option<(Key, Kind)> {
    if Holds(pc', RoundTripperLck) then Hand(s'.d, pc')
    else if Holds(pc, RoundTripperLck) then None
    else HolderHand(s)
  }

  /** A process keeps what it has in hand while others step. */
  lemma HandKept(d: Data, d': Data, pc: Pc, holder: Pc)
    requires Guarantee(d, d', pc) && PcInv(d, holder)
    ensures Hand(d', holder) == Hand(d, holder)
  {
  }

  lemma HandMoves(s: State, s': State, p: Pid, pc: Pc, pc': Pc)
    requires Inv(s) && Sound(s, s', p, pc, pc')
    ensures HolderHand(s') == HandAfter(s, s', pc, pc')
  {
    HolderMoves(s, s', p, pc, pc');
    if Holder(s).Some? {
      assert PcInv(s.d, Holder(s).value);
      HandKept(s.d, s'.d, pc, Holder(s).value);
    }
  }

  lemma MutexHolder(s: State, p: Pid)
    requires Inv(s) && p in s.procs && Holds(s.procs[p], RoundTripperLck)
    ensures Holder(s) == Some(s.procs[p]) && s.rtOwner == Some(p) && HolderHand(s) == Hand(s.d, s.procs[p])
  {
  }

  /** The steps that do something to a connection. */
  predicate Touches(s: State, pc: Pc, c: Choice) {
    || ((pc.SetupDial? || pc.DialNet?) && c.Negotiates?)
    || (pc.SetupBuild? && c.BuildFails?)
    || pc.SetupStore?
    || (pc.DialStash? && pc.t in s.d.built && s.d.built[pc.t].key in s.d.stash)
    || pc.DialJudge?
  }

  /** The effect of a step on stash, connections and hand. */
  ghost predicate Keeps(s: State, s': State, pc: Pc, pc': Pc) {
    && Accounts(s'.d.stash, s'.conns, HandAfter(s, s', pc, pc'))
    && Evolves(s.conns, s'.conns)
  }

  lemma EvolvesNot(conns: seq<Conn>)
    ensures Evolves(conns, conns)
  {
  }

  /** A step that leaves every connection where it is. */
  predicate Untouched(s: State, s': State, pc: Pc, pc': Pc) {
    s'.d.stash == s.d.stash && s'.conns == s.conns && HandAfter(s, s', pc, pc') == HolderHand(s)
  }

  lemma QuietSetup(s: State, s': State, p: Pid, c: Choice, pc: Pc, pc': Pc)
    requires p in s.procs && s.procs[p] == pc && SetupStep(s, p, c) == Some(s') && s'.procs[p] == pc'
    requires PcInv(s.d, pc) && HolderHand(s) == Hand(s.d, pc) && !Touches(s, pc, c)
    requires pc.SetupStash? ==> pc.a !in s.d.stash
    ensures Untouched(s, s', pc, pc')
  {
  }

  lemma QuietDial(s: State, s': State, p: Pid, c: Choice, pc: Pc, pc': Pc)
    requires p in s.procs && s.procs[p] == pc && DialStep(s, p, c) == Some(s') && s'.procs[p] == pc'
    requires HolderHand(s) == Hand(s.d, pc) && !Touches(s, pc, c)
    ensures Untouched(s, s', pc, pc')
  {
  }

  lemma QuietRequest(s: State, s': State, p: Pid, c: Choice, pc: Pc, pc': Pc)
    requires p in s.procs && s.procs[p] == pc && RequestStep(s, p, c) == Some(s') && s'.procs[p] == pc'
    ensures Untouched(s, s', pc, pc')
  {
  }

  lemma QuietDrop(s: State, s': State, p: Pid, c: Choice, pc: Pc, pc': Pc)
    requires p in s.procs && s.procs[p] == pc && (DropStep(s, p, c) == Some(s') || H3Step(s, p, c) == Some(s'))
    requires s'.procs[p] == pc'
    ensures Untouched(s, s', pc, pc')
  {
  }

  lemma QuietSpawn(s: State, s': State, p: Pid, c: Choice, pc': Pc)
    requires p !in s.procs && Spawn(s, p, c) == Some(s') && s'.procs[p] == pc'
    ensures Untouched(s, s', ReqDone, pc')
  {
  }

  lemma QuietAcquire(s: State, s': State, p: Pid, c: Choice, pc: Pc, pc': Pc)
    requires p in s.procs && s.procs[p] == pc && Wants(pc).Some? && Acquire(s, p, c) == Some(s') && s'.procs[p] == pc'
    requires Holds(pc, RoundTripperLck) ==> HolderHand(s) == Hand(s.d, pc)
    requires s.rtOwner.None? ==> HolderHand(s).None?
    ensures Untouched(s, s', pc, pc')
  {
  }

  lemma QuietStep(s: State, s': State, p: Pid, c: Choice, pc: Pc, pc': Pc)
    requires Inv(s) && p in s.procs && s.procs[p] == pc && Step(s, p, c) == Some(s') && s'.procs[p] == pc'
    requires !Touches(s, pc, c)
    ensures Untouched(s, s', pc, pc')
  {
    if Holds(pc, RoundTripperLck) {
      MutexHolder(s, p);
    }
    if Wants(pc).Some? {
      QuietAcquire(s, s', p, c, pc, pc');
    } else if InSetup(pc) {
      SetupFindsNothing(s, p, pc);
      QuietSetup(s, s', p, c, pc, pc');
    } else if InDial(pc) {
      QuietDial(s, s', p, c, pc, pc');
    } else if pc.DropCheck? || pc.DropKind? || pc.H3Put? {
      QuietDrop(s, s', p, c, pc, pc');
    } else {
      QuietRequest(s, s', p, c, pc, pc');
    }
  }

  lemma SetupFindsNothing(s: State, p: Pid, pc: Pc)
    requires Inv(s) && p in s.procs && s.procs[p] == pc
    ensures PcInv(s.d, pc)
    ensures pc.SetupStash? || pc.SetupStore? ==> pc.a !in s.d.stash
  {
    assert PcInv(s.d, pc);
  }

  lemma DialedEffect(s: State, s': State, p: Pid, c: Choice, pc: Pc, pc': Pc)
    requires p in s.procs && s.procs[p] == pc && Step(s, p, c) == Some(s') && s'.procs[p] == pc'
    requires (pc.SetupDial? || pc.DialNet?) && c.Negotiates?
    ensures s'.d == s.d && Hand(s.d, pc).None? && Hand(s.d, pc').Some? && Holds(pc', RoundTripperLck)
    ensures var hand := Hand(s.d, pc').value; s'.conns == s.conns + [Conn(hand.0, hand.1, InHand)]
  {
  }

  lemma DialedKeeps(s: State, s': State, p: Pid, c: Choice, pc: Pc, pc': Pc)
    requires Inv(s) && Ledger(s) && p in s.procs && s.procs[p] == pc && Step(s, p, c) == Some(s') && s'.procs[p] == pc'
    requires (pc.SetupDial? || pc.DialNet?) && c.Negotiates?
    ensures Keeps(s, s', pc, pc')
  {
    MutexHolder(s, p);
    DialedEffect(s, s', p, c, pc, pc');
    var hand := Hand(s.d, pc').value;
    DialAccounts(s.d.stash, s.conns, hand.0, hand.1);
  }

  lemma SettledEffect(s: State, s': State, p: Pid, c: Choice, pc: Pc, pc': Pc)
    requires p in s.procs && s.procs[p] == pc && Step(s, p, c) == Some(s') && s'.procs[p] == pc'
    requires (pc.SetupBuild? && c.BuildFails?) || pc.DialJudge?
    ensures s'.d.stash == s.d.stash && HandAfter(s, s', pc, pc').None?
    ensures var fate := if pc.SetupBuild? then Leaked else if pc'.DialGot? then Handed(pc.t) else Closed;
            s'.conns == Settle(s.conns, LastConn(s.conns), fate)
  {
  }

  lemma SettledKeeps(s: State, s': State, p: Pid, c: Choice, pc: Pc, pc': Pc)
    requires Inv(s) && Ledger(s) && p in s.procs && s.procs[p] == pc && Step(s, p, c) == Some(s') && s'.procs[p] == pc'
    requires (pc.SetupBuild? && c.BuildFails?) || pc.DialJudge?
    ensures Keeps(s, s', pc, pc')
  {
    MutexHolder(s, p);
    SetupFindsNothing(s, p, pc);
    SettledEffect(s, s', p, c, pc, pc');
    var fate := if pc.SetupBuild? then Leaked else if pc'.DialGot? then Handed(pc.t) else Closed;
    SettleAccounts(s.d.stash, s.conns, HolderHand(s), fate);
  }

  lemma StoredKeeps(s: State, s': State, p: Pid, c: Choice, pc: Pc, pc': Pc)
    requires Inv(s) && Ledger(s) && p in s.procs && s.procs[p] == pc && Step(s, p, c) == Some(s') && s'.procs[p] == pc'
    requires pc.SetupStore?
    ensures Keeps(s, s', pc, pc')
  {
    MutexHolder(s, p);
    SetupFindsNothing(s, p, pc);
    StoreAccounts(s.d.stash, s.conns, pc.a, s.d.built[pc.t].kind, pc.t);
  }

  lemma TakenEffect(s: State, s': State, p: Pid, c: Choice, pc: Pc, pc': Pc)
    requires p in s.procs && s.procs[p] == pc && Step(s, p, c) == Some(s') && s'.procs[p] == pc'
    requires pc.DialStash? && pc.t in s.d.built && s.d.built[pc.t].key in s.d.stash
    ensures var a := s.d.built[pc.t].key;
            s'.d.stash == s.d.stash - {a} && s'.conns == Settle(s.conns, s.d.stash[a].conn, Handed(pc.t))
    ensures HandAfter(s, s', pc, pc').None?
  {
  }

  lemma TakenKeeps(s: State, s': State, p: Pid, c: Choice, pc: Pc, pc': Pc)
    requires Inv(s) && Ledger(s) && p in s.procs && s.procs[p] == pc && Step(s, p, c) == Some(s') && s'.procs[p] == pc'
    requires pc.DialStash? && pc.t in s.d.built && s.d.built[pc.t].key in s.d.stash
    ensures Keeps(s, s', pc, pc')
  {
    MutexHolder(s, p);
    TakenEffect(s, s', p, c, pc, pc');
    TakeAccounts(s.d.stash, s.conns, s.d.built[pc.t].key, pc.t);
  }

  lemma TouchKeeps(s: State, s': State, p: Pid, c: Choice, pc: Pc, pc': Pc)
    requires Inv(s) && Ledger(s) && p in s.procs && s.procs[p] == pc && Step(s, p, c) == Some(s') && s'.procs[p] == pc'
    requires Touches(s, pc, c)
    ensures Keeps(s, s', pc, pc')
  {
    if pc.SetupStore? {
      StoredKeeps(s, s', p, c, pc, pc');
    } else if pc.DialStash? {
      TakenKeeps(s, s', p, c, pc, pc');
    } else if pc.SetupDial? || pc.DialNet? {
      DialedKeeps(s, s', p, c, pc, pc');
    } else {
      SettledKeeps(s, s', p, c, pc, pc');
    }
  }

  lemma StepKeeps(s: State, s': State, p: Pid, c: Choice, pc: Pc, pc': Pc)
    requires if p in s.procs then s.procs[p] == pc else pc == ReqDone
    requires Inv(s) && Ledger(s) && Step(s, p, c) == Some(s') && s'.procs[p] == pc'
    ensures Keeps(s, s', pc, pc')
  {
    EvolvesNot(s.conns);
    if p !in s.procs {
      QuietSpawn(s, s', p, c, pc');
    } else if Touches(s, pc, c) {
      TouchKeeps(s, s', p, c, pc, pc');
    } else {
      QuietStep(s, s', p, c, pc, pc');
    }
  }

  lemma StepLedger(s: State, s': State, p: Pid, c: Choice)
    requires Inv(s) && Ledger(s) && Step(s, p, c) == Some(s')
    ensures Inv(s') && Ledger(s') && Evolves(s.conns, s'.conns)
  {
    var pc, pc' := if p in s.procs then s.procs[p] else ReqDone, s'.procs[p];
    StepKeeps(s, s', p, c, pc, pc');
    StepInv(s, s', p, c);
    InvReady(s, p);
    if p in s.procs {
      StepSound(s, s', p, c, pc, pc');
    } else {
      SpawnSound(s, s', p, c, pc');
    }
    HandMoves(s, s', p, pc, pc');
  }

  lemma EvolvesTrans(a: seq<Conn>, b: seq<Conn>, c: seq<Conn>)
    requires Evolves(a, b) && Evolves(b, c)
    ensures Evolves(a, c)
  {
    forall x | 0 <= x < |a|
      ensures c[x].key == a[x].key && c[x].kind == a[x].kind && (IsFinal(a[x].fate) ==> c[x] == a[x])
      ensures a[x].fate.Waiting? ==> c[x].fate.Waiting? || c[x].fate.Handed?
    {
      assert b[x].key == a[x].key;
    }
  }

  lemma {:induction false} RunKeepsLedger(s: State, schedule: seq<(Pid, Choice)>)
    requires Inv(s) && Ledger(s) && RunFrom(s, schedule).Some?
    ensures var s' := RunFrom(s, schedule).value; Inv(s') && Ledger(s') && Evolves(s.conns, s'.conns)
  {
    if schedule == [] {
      EvolvesNot(s.conns);
    } else {
      var before := schedule[..|schedule| - 1];
      RunKeepsLedger(s, before);
      var (p, c) := schedule[|schedule| - 1];
      var s1, s2 := RunFrom(s, before).value, RunFrom(s, schedule).value;
      StepLedger(s1, s2, p, c);
      EvolvesTrans(s.conns, s1.conns, s2.conns);
    }
  }

  lemma ReachableLedger(s: State)
    requires Reachable(s)
    ensures Inv(s) && Ledger(s)
  {
    var schedule :| Run(schedule) == Some(s);
    RunKeepsLedger(Init, schedule);
  }

  // ----- Conservation

  datatype Stage = Held | Kept | Used | Shut | Lost

  function StageOf(fate: Fate): Stage {
    match fate
    case InHand => Held
    case Waiting => Kept
    case Handed(_) => Used
    case Closed => Shut
    case Leaked => Lost
  }

  /** How many connections are at a stage. */
  function Number(conns: seq<Conn>, stage: Stage): nat {
    if conns == [] then 0
    else
      var n := |conns| - 1;
      Number(conns[..n], stage) + (if StageOf(conns[n].fate) == stage then 1 else 0)
  }

  lemma {:induction false} NumbersAddUp(conns: seq<Conn>)
    ensures |conns| == Number(conns, Held) + Number(conns, Kept) + Number(conns, Used) + Number(conns, Shut)
                       + Number(conns, Lost)
  {
    if conns != [] {
      NumbersAddUp(conns[..|conns| - 1]);
    }
  }

  function WaitingKeys(conns: seq<Conn>): set<Key> {
    if conns == [] then {}
    else
      var n := |conns| - 1;
      WaitingKeys(conns[..n]) + (if conns[n].fate.Waiting? then {conns[n].key} else {})
  }

  lemma {:induction false} WaitingKeysAre(conns: seq<Conn>, a: Key)
    ensures a in WaitingKeys(conns) <==> exists c :: 0 <= c < |conns| && conns[c].fate.Waiting? && conns[c].key == a
  {
    if conns != [] {
      var n := |conns| - 1;
      WaitingKeysAre(conns[..n], a);
      if a in WaitingKeys(conns[..n]) {
        var c :| 0 <= c < n && conns[..n][c].fate.Waiting? && conns[..n][c].key == a;
        assert conns[c].key == a;
      }
      if c :| 0 <= c < |conns| && conns[c].fate.Waiting? && conns[c].key == a && c < n {
        assert conns[..n][c].key == a;
      }
    }
  }

  ghost predicate OnePerKey(conns: seq<Conn>) {
    forall c, c' :: 0 <= c < c' < |conns| && conns[c].fate.Waiting? && conns[c'].fate.Waiting? ==>
      conns[c].key != conns[c'].key
  }

  lemma {:induction false} WaitingKeysCount(conns: seq<Conn>)
    requires OnePerKey(conns)
    ensures |WaitingKeys(conns)| == Number(conns, Kept)
  {
    if conns != [] {
      var n := |conns| - 1;
      WaitingKeysCount(conns[..n]);
      WaitingKeysAre(conns[..n], conns[n].key);
    }
  }

  lemma {:induction false} HeldCount(conns: seq<Conn>)
    requires forall c :: 0 <= c < |conns| - 1 ==> !conns[c].fate.InHand?
    ensures Number(conns, Held) == if conns != [] && conns[|conns| - 1].fate.InHand? then 1 else 0
  {
    if conns != [] {
      HeldCount(conns[..|conns| - 1]);
    }
  }

  lemma AccountsCount(stash: map<Key, Stashed>, conns: seq<Conn>, hand: Option<(Key, Kind)>)
    requires Accounts(stash, conns, hand)
    ensures Number(conns, Kept) == |stash| && Number(conns, Held) == (if hand.Some? then 1 else 0)
  {
    HeldCount(conns);
    WaitingKeysCount(conns);
    forall a
      ensures a in WaitingKeys(conns) <==> a in stash
    {
      WaitingKeysAre(conns, a);
      if a in stash {
        assert conns[stash[a].conn].key == a;
      }
    }
    assert WaitingKeys(conns) == stash.Keys;
  }

  lemma AccountsFit(stash: map<Key, Stashed>, conns: seq<Conn>, hand: Option<(Key, Kind)>, c: Cid)
    requires Accounts(stash, conns, hand) && c < |conns|
    ensures conns[c].fate.Waiting? <==> conns[c].key in stash && stash[conns[c].key].conn == c
    ensures conns[c].fate.InHand? <==> c == |conns| - 1 && hand.Some?
  {
  }

  /**
  Every completed handshake is accounted for. Connection by connection: it waits exactly if it is the one stashed for
  its address, and it is in hand exactly if it is the last one and the mutex holder has one. In numbers: all
  connections are those handed over, closed, leaked, stashed, and the one in hand.
  */
  lemma ConnectionsAreConserved(s: State)
    requires Reachable(s)
    ensures forall c :: 0 <= c < |s.conns| ==>
              && (s.conns[c].fate.Waiting? <==> s.conns[c].key in s.d.stash && s.d.stash[s.conns[c].key].conn == c)
              && (s.conns[c].fate.InHand? <==> c == |s.conns| - 1 && HolderHand(s).Some?)
    ensures |s.conns| == Number(s.conns, Used) + Number(s.conns, Shut) + Number(s.conns, Lost) + |s.d.stash|
                         + (if HolderHand(s).Some? then 1 else 0)
  {
    ReachableLedger(s);
    NumbersAddUp(s.conns);
    AccountsCount(s.d.stash, s.conns, HolderHand(s));
    forall c | 0 <= c < |s.conns|
      ensures s.conns[c].fate.Waiting? <==> s.conns[c].key in s.d.stash && s.d.stash[s.conns[c].key].conn == c
      ensures s.conns[c].fate.InHand? <==> c == |s.conns| - 1 && HolderHand(s).Some?
    {
      AccountsFit(s.d.stash, s.conns, HolderHand(s), c);
    }
  }

  /** Over any continuation of a run a connection that was handed over, closed or leaked stays so. */
  lemma FatesAreFinal(s: State, s': State, c: Cid)
    requires Reachable(s) && Later(s, s') && c < |s.conns|
    ensures c < |s'.conns| && s'.conns[c].key == s.conns[c].key && s'.conns[c].kind == s.conns[c].kind
    ensures IsFinal(s.conns[c].fate) ==> s'.conns[c] == s.conns[c]
  {
    ReachableLedger(s);
    var schedule :| RunFrom(s, schedule) == Some(s');
    RunKeepsLedger(s, schedule);
  }
}
