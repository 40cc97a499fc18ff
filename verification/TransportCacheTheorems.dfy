/**
The properties of the transport cache: each holds after every schedule, of any number of goroutines, against
any server.
*/
module TransportCacheTheorems {
  import opened Common
  import opened TransportCache
  import opened TransportCacheInvariants

  lemma ReachableInv(s: State)
    requires Reachable(s)
    ensures Inv(s)
  {
    var schedule :| Run(schedule) == Some(s);
    RunInv(schedule);
  }

  /**
  Whenever the round tripper mutex is free, a cached transport is the one built last for its key, a stashed connection
  there is of that transport's kind, and a recorded kind is that transport's kind exactly if the key is not stale.
  */
  lemma CacheIsCoherent(s: State, a: Key)
    requires Reachable(s) && s.rtOwner.None?
    ensures a in s.d.transports ==> a in s.d.latest && s.d.transports[a] == s.d.latest[a]
    ensures a in s.d.kinds ==> (KindOfLatest(s.d, a) == Some(s.d.kinds[a]) <==> a !in s.d.stale)
    ensures a in s.d.stash ==> a in s.d.latest && s.d.stash[a].owner == s.d.latest[a]
                               && KindOfLatest(s.d, a) == Some(s.d.stash[a].kind)
  {
    ReachableInv(s);
  }

  /**
  Every connection ever handed to a transport is of the kind of the transport that was the last built for the address
  when the kind was looked up, exactly if the key was not stale then. For a dial by the transport that is the last
  built when it gets the connection, that is its own kind.
  */
  lemma DialsYieldTheLatestKind(s: State, p: Pid)
    requires Reachable(s) && p in s.procs && s.procs[p].DialGot?
    ensures var DialGot(t, kind, last, seen, clash) := s.procs[p];
            && t in s.d.built && last in s.d.built && seen in s.d.built
            && s.d.built[t].key == s.d.built[last].key == s.d.built[seen].key
            && (kind == s.d.built[seen].kind <==> !clash)
            && (last == t ==> seen == t && (kind == s.d.built[t].kind <==> !clash))
  {
    ReachableInv(s);
    assert PcInv(s.d, s.procs[p]);
  }

  /**
  A stashed connection exists only while the transport built with it is still cached. So a setup dial never finds
  one, getTransport never panics, and no request ever reads a missing transport.
  */
  lemma SetupNeverPanics(s: State, p: Pid, a: Key)
    requires Reachable(s) && p in s.procs
    ensures a in s.d.stash ==> a in s.d.transports && s.d.transports[a] == s.d.stash[a].owner
    ensures !s.procs[p].Panicked?
    ensures s.procs[p].SetupStash? ==> s.procs[p].a !in s.d.stash
    ensures s.procs[p].ReqRead? ==> s.procs[p].a in s.d.transports
  {
    ReachableInv(s);
    assert PcInv(s.d, s.procs[p]);
  }

  /** The program counters of dialTLS called by a transport. */
  predicate Reconnects(pc: Pc) {
    pc.DialWait? || pc.DialStash? || pc.DialNet? || pc.DialKindWait? || pc.DialKind? || pc.DialJudge?
  }

  lemma GuaranteedWrites(s: State, s': State, p: Pid, pc: Pc)
    requires Before(s, p, pc) && Guarantee(s.d, s'.d, pc)
    ensures s'.d.transports == s.d.transports || s.tOwner == Some(p)
    ensures s'.d.kinds == s.d.kinds || s.kOwner == Some(p)
    ensures s'.d.stash == s.d.stash || s.rtOwner == Some(p)
    ensures Reconnects(pc) ==> s'.d.transports == s.d.transports
  {
  }

  /**
  Lock discipline: a step changes the transport map only while its process holds cachedTransportsLck, the kinds only
  under cachedKindsLck, and stashed connections only under the round tripper mutex; a reconnect never changes the
  transport map.
  */
  lemma OnlyTheHolderWrites(s: State, s': State, p: Pid, c: Choice)
    requires Reachable(s) && Step(s, p, c) == Some(s')
    ensures s'.d.transports == s.d.transports || s.tOwner == Some(p)
    ensures s'.d.kinds == s.d.kinds || s.kOwner == Some(p)
    ensures s'.d.stash == s.d.stash || s.rtOwner == Some(p)
    ensures p in s.procs && Reconnects(s.procs[p]) ==> s'.d.transports == s.d.transports
  {
    ReachableInv(s);
    StepGuarantees(s, s', p, c);
    InvReady(s, p);
    GuaranteedWrites(s, s', p, if p in s.procs then s.procs[p] else ReqDone);
  }

  lemma StepGuarantees(s: State, s': State, p: Pid, c: Choice)
    requires Inv(s) && Step(s, p, c) == Some(s')
    ensures Guarantee(s.d, s'.d, if p in s.procs then s.procs[p] else ReqDone)
  {
    InvReady(s, p);
    if p in s.procs {
      StepSound(s, s', p, c, s.procs[p], s'.procs[p]);
    } else {
      SpawnSound(s, s', p, c, s'.procs[p]);
    }
  }

  // ----- What a step depends on

  /** The same state with other contents of the transport map. */
  function WithTransports(s: State, transports: map<Key, Tid>): State {
    s.(d := s.d.(transports := transports))
  }

  /** The same state with other connections stashed. */
  function WithStash(s: State, stash: map<Key, Stashed>): State {
    s.(d := s.d.(stash := stash))
  }

  /** r and r' are the same possible step, but for the transport map. */
  predicate Alike(r: Option<State>, r': Option<State>, transports: map<Key, Tid>) {
    r' == if r.None? then None else Some(WithTransports(r.value, transports))
  }

  predicate AlikeButStash(r: Option<State>, r': Option<State>, stash: map<Key, Stashed>) {
    r' == if r.None? then None else Some(WithStash(r.value, stash))
  }

  lemma SpawnAlike(s: State, p: Pid, c: Choice, transports: map<Key, Tid>, stash: map<Key, Stashed>)
    requires p !in s.procs
    ensures Alike(Spawn(s, p, c), Spawn(WithTransports(s, transports), p, c), transports)
    ensures AlikeButStash(Spawn(s, p, c), Spawn(WithStash(s, stash), p, c), stash)
  {
  }

  lemma AcquireAlike(s: State, p: Pid, c: Choice, transports: map<Key, Tid>, stash: map<Key, Stashed>)
    requires p in s.procs && Wants(s.procs[p]).Some?
    ensures Alike(Acquire(s, p, c), Acquire(WithTransports(s, transports), p, c), transports)
    ensures AlikeButStash(Acquire(s, p, c), Acquire(WithStash(s, stash), p, c), stash)
  {
  }

  lemma DropAlike(s: State, p: Pid, c: Choice, transports: map<Key, Tid>, stash: map<Key, Stashed>)
    requires p in s.procs
    ensures s.procs[p].DropKind? ==> Alike(DropStep(s, p, c), DropStep(WithTransports(s, transports), p, c), transports)
    ensures AlikeButStash(DropStep(s, p, c), DropStep(WithStash(s, stash), p, c), stash)
  {
  }

  lemma UseAlike(s: State, p: Pid, c: Choice, transports: map<Key, Tid>)
    requires p in s.procs && s.procs[p].ReqUse?
    ensures Alike(RequestStep(s, p, c), RequestStep(WithTransports(s, transports), p, c), transports)
  {
  }

  lemma BuildPlainAlike(d: Data, a: Key, stash: map<Key, Stashed>)
    ensures BuildPlain(d.(stash := stash), a) == BuildPlain(d, a).(stash := stash)
  {
  }

  lemma CheckAlike(s: State, p: Pid, c: Choice, stash: map<Key, Stashed>)
    requires p in s.procs && s.procs[p].ReqCheck?
    ensures AlikeButStash(RequestStep(s, p, c), RequestStep(WithStash(s, stash), p, c), stash)
  {
    var ReqCheck(a, scheme) := s.procs[p];
    if a in s.d.transports || !scheme.Http? {
      MissAlike(s, p, c, stash);
    } else {
      BuildPlainAlike(s.d, a, stash);
    }
  }

  lemma MissAlike(s: State, p: Pid, c: Choice, stash: map<Key, Stashed>)
    requires p in s.procs && s.procs[p].ReqCheck? && (s.procs[p].a in s.d.transports || !s.procs[p].scheme.Http?)
    ensures AlikeButStash(RequestStep(s, p, c), RequestStep(WithStash(s, stash), p, c), stash)
  {
  }

  lemma RequestAlike(s: State, p: Pid, c: Choice, stash: map<Key, Stashed>)
    requires p in s.procs && !s.procs[p].ReqCheck?
    ensures AlikeButStash(RequestStep(s, p, c), RequestStep(WithStash(s, stash), p, c), stash)
  {
  }

  lemma ReconnectAlike(s: State, p: Pid, c: Choice, transports: map<Key, Tid>)
    requires p in s.procs && (s.procs[p].DialStash? || s.procs[p].DialNet?)
    ensures Alike(DialStep(s, p, c), DialStep(WithTransports(s, transports), p, c), transports)
  {
  }

  lemma JudgeAlike(s: State, p: Pid, c: Choice, transports: map<Key, Tid>)
    requires p in s.procs && (s.procs[p].DialKind? || s.procs[p].DialJudge?)
    ensures Alike(DialStep(s, p, c), DialStep(WithTransports(s, transports), p, c), transports)
  {
  }

  lemma BlindToTransports(s: State, p: Pid, c: Choice, transports: map<Key, Tid>)
    requires p in s.procs ==> !Holds(s.procs[p], TransportsLck)
    ensures Alike(Step(s, p, c), Step(WithTransports(s, transports), p, c), transports)
  {
    if p !in s.procs {
      SpawnAlike(s, p, c, transports, map[]);
    } else if Wants(s.procs[p]).Some? {
      AcquireAlike(s, p, c, transports, map[]);
    } else {
      DropAlike(s, p, c, transports, map[]);
      if s.procs[p].DialStash? || s.procs[p].DialNet? {
        ReconnectAlike(s, p, c, transports);
      } else if s.procs[p].DialKind? || s.procs[p].DialJudge? {
        JudgeAlike(s, p, c, transports);
      } else if s.procs[p].ReqUse? {
        UseAlike(s, p, c, transports);
      }
    }
  }

  lemma BlindToStash(s: State, p: Pid, c: Choice, stash: map<Key, Stashed>)
    requires p in s.procs ==> !Holds(s.procs[p], RoundTripperLck)
    ensures AlikeButStash(Step(s, p, c), Step(WithStash(s, stash), p, c), stash)
  {
    if p !in s.procs {
      SpawnAlike(s, p, c, map[], stash);
    } else if Wants(s.procs[p]).Some? {
      AcquireAlike(s, p, c, map[], stash);
    } else {
      DropAlike(s, p, c, map[], stash);
      if s.procs[p].ReqCheck? {
        CheckAlike(s, p, c, stash);
      } else {
        RequestAlike(s, p, c, stash);
      }
    }
  }

  /** The same state with other kinds recorded. */
  function WithKinds(s: State, kinds: map<Key, Kind>): State {
    s.(d := s.d.(kinds := kinds))
  }

  /** r and r' are the same possible step, but for the recorded kinds and the history of stale keys. */
  predicate AlikeButKinds(r: Option<State>, r': Option<State>, kinds: map<Key, Kind>) {
    if r.None? || r'.None? then r == r'
    else r'.value == r.value.(d := r.value.d.(kinds := kinds, stale := r'.value.d.stale))
  }

  lemma StartAlikeKinds(s: State, p: Pid, c: Choice, kinds: map<Key, Kind>)
    ensures p !in s.procs ==> AlikeButKinds(Spawn(s, p, c), Spawn(WithKinds(s, kinds), p, c), kinds)
    ensures p in s.procs && Wants(s.procs[p]).Some? ==>
              AlikeButKinds(Acquire(s, p, c), Acquire(WithKinds(s, kinds), p, c), kinds)
  {
  }

  lemma BuildPlainAlikeKinds(d: Data, a: Key, kinds: map<Key, Kind>)
    ensures var d' := BuildPlain(d.(kinds := kinds), a); d' == BuildPlain(d, a).(kinds := kinds, stale := d'.stale)
  {
  }

  lemma MissAlikeKinds(s: State, p: Pid, c: Choice, kinds: map<Key, Kind>)
    requires p in s.procs && s.procs[p].ReqCheck? && (s.procs[p].a in s.d.transports || !s.procs[p].scheme.Http?)
    ensures AlikeButKinds(RequestStep(s, p, c), RequestStep(WithKinds(s, kinds), p, c), kinds)
  {
  }

  lemma CheckAlikeKinds(s: State, p: Pid, c: Choice, kinds: map<Key, Kind>)
    requires p in s.procs && s.procs[p].ReqCheck?
    ensures AlikeButKinds(RequestStep(s, p, c), RequestStep(WithKinds(s, kinds), p, c), kinds)
  {
    var ReqCheck(a, scheme) := s.procs[p];
    if a in s.d.transports || !scheme.Http? {
      MissAlikeKinds(s, p, c, kinds);
    } else {
      BuildPlainAlikeKinds(s.d, a, kinds);
    }
  }

  lemma RequestAlikeKinds(s: State, p: Pid, c: Choice, kinds: map<Key, Kind>)
    requires p in s.procs && !s.procs[p].ReqCheck?
    ensures AlikeButKinds(RequestStep(s, p, c), RequestStep(WithKinds(s, kinds), p, c), kinds)
  {
  }

  lemma SetupAlikeKinds(s: State, p: Pid, c: Choice, kinds: map<Key, Kind>)
    requires p in s.procs && (s.procs[p].SetupStash? || s.procs[p].SetupDial?)
    ensures AlikeButKinds(SetupStep(s, p, c), SetupStep(WithKinds(s, kinds), p, c), kinds)
  {
  }

  lemma BuildAlikeKinds(s: State, p: Pid, c: Choice, kinds: map<Key, Kind>)
    requires p in s.procs && (s.procs[p].SetupBuild? || s.procs[p].SetupStore?)
    ensures AlikeButKinds(SetupStep(s, p, c), SetupStep(WithKinds(s, kinds), p, c), kinds)
  {
  }

  lemma DropAlikeKinds(s: State, p: Pid, c: Choice, kinds: map<Key, Kind>)
    requires p in s.procs && !s.procs[p].DropKind?
    ensures AlikeButKinds(DropStep(s, p, c), DropStep(WithKinds(s, kinds), p, c), kinds)
    ensures AlikeButKinds(H3Step(s, p, c), H3Step(WithKinds(s, kinds), p, c), kinds)
  {
  }

  lemma DialAlikeKinds(s: State, p: Pid, c: Choice, kinds: map<Key, Kind>)
    requires p in s.procs && (s.procs[p].DialStash? || s.procs[p].DialNet?)
    ensures AlikeButKinds(DialStep(s, p, c), DialStep(WithKinds(s, kinds), p, c), kinds)
  {
  }

  lemma JudgeAlikeKinds(s: State, p: Pid, c: Choice, kinds: map<Key, Kind>)
    requires p in s.procs && s.procs[p].DialJudge?
    ensures AlikeButKinds(DialStep(s, p, c), DialStep(WithKinds(s, kinds), p, c), kinds)
  {
  }

  lemma SetupBlindToKinds(s: State, p: Pid, c: Choice, kinds: map<Key, Kind>)
    requires p in s.procs && InSetup(s.procs[p]) && !s.procs[p].SetupKind?
    ensures AlikeButKinds(Step(s, p, c), Step(WithKinds(s, kinds), p, c), kinds)
  {
    if s.procs[p].SetupStash? || s.procs[p].SetupDial? {
      SetupAlikeKinds(s, p, c, kinds);
    } else {
      BuildAlikeKinds(s, p, c, kinds);
    }
  }

  lemma DialBlindToKinds(s: State, p: Pid, c: Choice, kinds: map<Key, Kind>)
    requires p in s.procs && InDial(s.procs[p]) && !s.procs[p].DialKind?
    ensures AlikeButKinds(Step(s, p, c), Step(WithKinds(s, kinds), p, c), kinds)
  {
    if s.procs[p].DialJudge? {
      JudgeAlikeKinds(s, p, c, kinds);
    } else {
      DialAlikeKinds(s, p, c, kinds);
    }
  }

  lemma BlindToKinds(s: State, p: Pid, c: Choice, kinds: map<Key, Kind>)
    requires p in s.procs ==> !Holds(s.procs[p], KindsLck)
    ensures AlikeButKinds(Step(s, p, c), Step(WithKinds(s, kinds), p, c), kinds)
  {
    if p !in s.procs || Wants(s.procs[p]).Some? {
      StartAlikeKinds(s, p, c, kinds);
    } else if InSetup(s.procs[p]) {
      SetupBlindToKinds(s, p, c, kinds);
    } else if InDial(s.procs[p]) {
      DialBlindToKinds(s, p, c, kinds);
    } else {
      DropAlikeKinds(s, p, c, kinds);
      if s.procs[p].ReqCheck? {
        CheckAlikeKinds(s, p, c, kinds);
      } else {
        RequestAlikeKinds(s, p, c, kinds);
      }
    }
  }

  /**
  A step by a process that does not hold cachedTransportsLck neither reads nor writes the transport map: with any
  other map in its place the same steps are possible, with the same effect on everything else. Likewise for stashed
  connections and the round tripper mutex, and, but for the history of stale keys, for the kinds and cachedKindsLck.
  */
  lemma OnlyTheHolderReads(s: State, p: Pid, c: Choice, transports: map<Key, Tid>, stash: map<Key, Stashed>,
                           kinds: map<Key, Kind>)
    requires Reachable(s)
    ensures s.tOwner != Some(p) ==> Alike(Step(s, p, c), Step(WithTransports(s, transports), p, c), transports)
    ensures s.rtOwner != Some(p) ==> AlikeButStash(Step(s, p, c), Step(WithStash(s, stash), p, c), stash)
    ensures s.kOwner != Some(p) ==> AlikeButKinds(Step(s, p, c), Step(WithKinds(s, kinds), p, c), kinds)
  {
    ReachableInv(s);
    if s.tOwner != Some(p) {
      BlindToTransports(s, p, c, transports);
    }
    if s.rtOwner != Some(p) {
      BlindToStash(s, p, c, stash);
    }
    if s.kOwner != Some(p) {
      BlindToKinds(s, p, c, kinds);
    }
  }

  // ----- What changes the cache

  /** The transport a step stores: after a handshake, by its protocol; for plain http; or in an HTTP/3 slot. */
  ghost predicate Stores(s: State, p: Pid, c: Choice, t: Transport) {
    && p in s.procs && c.Go?
    && match s.procs[p]
       case SetupBuild(a, protocol) => t.key == a && Speaks(t.kind, protocol)
       case ReqCheck(a, scheme) => scheme.Http? && a !in s.d.transports && t == Transport(a, HTTP1)
       case H3Put(addr) => t == Transport(H3(addr), HTTP3)
       case _ => false
  }

  /** A step builds and caches one transport, the one it stores, or none. */
  ghost predicate StoresOne(s: State, s': State, p: Pid, c: Choice) {
    if s'.d.next == s.d.next then s'.d.built == s.d.built && forall t :: !Stores(s, p, c, t)
    else
      && s'.d.next == s.d.next + 1 && s.d.next in s'.d.built && Stores(s, p, c, s'.d.built[s.d.next])
      && s'.d.built == s.d.built[s.d.next := s'.d.built[s.d.next]]
      && s'.d.transports == s.d.transports[s'.d.built[s.d.next].key := s.d.next]
  }

  /** A step forgets a cached transport exactly if it is the first half of a drop of that very transport. */
  predicate Forgets(s: State, s': State, p: Pid, c: Choice, a: Key) {
    a in s.d.transports && a !in s'.d.transports <==>
    a in s.d.transports && c.Go? && p in s.procs && s.procs[p] == DropCheck(a, s.d.transports[a])
  }

  /** A step records a kind after a build, deletes one in the second half of a drop, and otherwise leaves them alone. */
  predicate Records(s: State, s': State, p: Pid) {
    if p in s.procs && s.procs[p].SetupKind? && s.procs[p].t in s.d.built then
      s'.d.kinds == s.d.kinds[s.procs[p].a := s.d.built[s.procs[p].t].kind]
    else if p in s.procs && s.procs[p].DropKind? then s'.d.kinds == s.d.kinds - {s.procs[p].a}
    else s'.d.kinds == s.d.kinds
  }

  /** A step marks a transport as failed exactly if it refuses a connection that this transport has dialed. */
  predicate Marks(s: State, s': State, p: Pid, c: Choice) {
    if c.Go? && p in s.procs && s.procs[p].DialJudge?
       && !(s.procs[p].cached.Some? && Speaks(s.procs[p].cached.value, s.procs[p].protocol))
    then s'.d.failed == s.d.failed + {s.procs[p].t}
    else s'.d.failed == s.d.failed
  }

  ghost predicate Changes(s: State, s': State, p: Pid, c: Choice) {
    StoresOne(s, s', p, c) && Records(s, s', p) && Marks(s, s', p, c) && forall a :: Forgets(s, s', p, c, a)
  }

  lemma StartChanges(s: State, s': State, p: Pid, c: Choice)
    requires if p in s.procs then Wants(s.procs[p]).Some? && Acquire(s, p, c) == Some(s')
             else Spawn(s, p, c) == Some(s')
    ensures Changes(s, s', p, c)
  {
  }

  lemma CheckChanges(s: State, s': State, p: Pid, c: Choice)
    requires p in s.procs && s.procs[p].ReqCheck? && RequestStep(s, p, c) == Some(s')
    ensures Changes(s, s', p, c)
  {
    var ReqCheck(a, scheme) := s.procs[p];
    if scheme.Http? && a !in s.d.transports {
      assert Stores(s, p, c, Transport(a, HTTP1));
    }
  }

  lemma RequestChanges(s: State, s': State, p: Pid, c: Choice)
    requires p in s.procs && !s.procs[p].ReqCheck? && RequestStep(s, p, c) == Some(s')
    ensures Changes(s, s', p, c)
  {
    if s.procs[p].ReqRead? {
      assert s'.d.transports == s.d.transports;
    }
  }

  lemma SetupChanges(s: State, s': State, p: Pid, c: Choice)
    requires p in s.procs && SetupStep(s, p, c) == Some(s')
    ensures Changes(s, s', p, c)
  {
    if s.procs[p].SetupBuild? {
      KindSpeaks(s.procs[p].protocol);
    }
  }

  lemma DropChanges(s: State, s': State, p: Pid, c: Choice)
    requires p in s.procs && DropStep(s, p, c) == Some(s')
    ensures Changes(s, s', p, c)
  {
  }

  lemma DialChanges(s: State, s': State, p: Pid, c: Choice)
    requires p in s.procs && (DialStep(s, p, c) == Some(s') || H3Step(s, p, c) == Some(s'))
    ensures Changes(s, s', p, c)
  {
    if s.procs[p].DialJudge? {
      KindSpeaks(s.procs[p].protocol);
    }
  }

  /**
  What changes the cache: a transport is stored exactly by a completed setup, of the kind the negotiated protocol calls
  for, by a plain request that finds none, or in an HTTP/3 slot; it is forgotten exactly by a drop of that transport; a
  kind is recorded exactly after a build and deleted exactly in the second half of a drop; and a transport is marked as
  failed exactly when a connection it has dialed is refused.
  */
  lemma CacheChangesExactlyBy(s: State, s': State, p: Pid, c: Choice)
    requires Step(s, p, c) == Some(s')
    ensures Changes(s, s', p, c)
  {
    if p !in s.procs || Wants(s.procs[p]).Some? {
      StartChanges(s, s', p, c);
    } else if InSetup(s.procs[p]) {
      SetupChanges(s, s', p, c);
    } else if InDial(s.procs[p]) || s.procs[p].H3Put? {
      DialChanges(s, s', p, c);
    } else if s.procs[p].DropCheck? || s.procs[p].DropKind? {
      DropChanges(s, s', p, c);
    } else if s.procs[p].ReqCheck? {
      CheckChanges(s, s', p, c);
    } else {
      RequestChanges(s, s', p, c);
    }
  }

  /** A reconnect looks up the recorded kind of its address. */
  lemma LooksUpRecorded(s: State, s': State, p: Pid, c: Choice)
    requires Step(s, p, c) == Some(s') && p in s.procs && s.procs[p].DialKind? && s.procs[p].t in s.d.built
    ensures s'.procs[p].DialJudge? && s'.procs[p].t == s.procs[p].t && s'.procs[p].protocol == s.procs[p].protocol
    ensures var a := s.d.built[s.procs[p].t].key;
            s'.procs[p].cached == if a in s.d.kinds then Some(s.d.kinds[a]) else None
  {
  }

  /** And hands its connection over exactly if the kind it found speaks the negotiated protocol; otherwise it fails. */
  lemma JudgedExactlyBy(s: State, s': State, p: Pid, c: Choice)
    requires Step(s, p, c) == Some(s') && p in s.procs && s.procs[p].DialJudge? && s.procs[p].t in s.d.built
    ensures var DialJudge(t, protocol, cached, _, _) := s.procs[p];
            if cached.Some? && Speaks(cached.value, protocol) then s'.procs[p].DialGot? && s'.d.failed == s.d.failed
            else s'.procs[p] == DialFailed(t) && t in s'.d.failed
  {
    KindSpeaks(s.procs[p].protocol);
  }

  /** A request ends with a drop of its transport exactly if that reports a changed protocol. */
  lemma DropsOnChange(s: State, s': State, p: Pid, c: Choice)
    requires Step(s, p, c) == Some(s') && p in s.procs && s.procs[p].ReqUse?
    ensures var ReqUse(a, t, scheme) := s.procs[p];
            && s'.procs[p] == (if c.ProtocolChanged? then DropWait(a, t) else ReqDone)
            && (c.ProtocolChanged? ==> scheme.Https? && t in s.d.failed) && s'.d == s.d
  {
  }

  // ----- Plain http

  /** Some drop of this key has forgotten the transport and not yet the kind. */
  ghost predicate HalfDropped(s: State, a: Key) {
    exists q :: q in s.procs && InWindow(s.procs[q], a)
  }

  predicate InWindow(pc: Pc, a: Key) {
    pc == DropKindWait(a) || pc == DropKind(a)
  }

  /** A recorded kind without a transport, or one that plain http has built over. */
  predicate Unmatched(d: Data, a: Key) {
    a in d.stale || (a in d.kinds && a !in d.transports)
  }

  ghost predicate WindowInv(s: State) {
    forall a :: Unmatched(s.d, a) ==> HalfDropped(s, a)
  }

  /** What a step of p, from pc to pc', does to the keys that are unmatched. */
  predicate Matches(d: Data, d': Data, pc: Pc, pc': Pc, a: Key) {
    Unmatched(d', a) ==> InWindow(pc', a) || (Unmatched(d, a) && !InWindow(pc, a))
  }

  lemma BuildMatches(d: Data, key: Key, kind: Kind, a: Key)
    requires key !in d.transports || !(key in d.stale)
    ensures Unmatched(Build(d, key, kind), a) ==> Unmatched(d, a)
    ensures key !in d.transports && Unmatched(BuildPlain(d, key), a) ==> Unmatched(d, a)
  {
  }

  lemma RequestMatches(s: State, s': State, p: Pid, c: Choice, a: Key)
    requires p in s.procs && RequestStep(s, p, c) == Some(s')
    ensures Matches(s.d, s'.d, s.procs[p], s'.procs[p], a)
  {
    match s.procs[p] {
      case ReqCheck(k, scheme) =>
        if k !in s.d.transports {
          BuildMatches(s.d, k, HTTP1, a);
        }
      case ReqRead(k, _) => assert s'.d.transports == s.d.transports;
      case _ =>
    }
  }

  lemma SetupMatches(s: State, s': State, p: Pid, c: Choice, a: Key)
    requires p in s.procs && PcInv(s.d, s.procs[p]) && SetupStep(s, p, c) == Some(s')
    ensures Matches(s.d, s'.d, s.procs[p], s'.procs[p], a)
  {
    match s.procs[p] {
      case SetupBuild(k, protocol) => BuildMatches(s.d, k, KindForProtocol(protocol), a);
      case _ =>
    }
  }

  lemma DropMatches(s: State, s': State, p: Pid, c: Choice, a: Key)
    requires p in s.procs && DropStep(s, p, c) == Some(s')
    ensures Matches(s.d, s'.d, s.procs[p], s'.procs[p], a)
  {
  }

  lemma DialMatches(s: State, s': State, p: Pid, c: Choice, a: Key)
    requires p in s.procs && (DialStep(s, p, c) == Some(s') || H3Step(s, p, c) == Some(s'))
    requires forall k :: k in s.d.stale ==> k.Tcp?
    ensures Matches(s.d, s'.d, s.procs[p], s'.procs[p], a)
  {
    if s.procs[p].H3Put? {
      BuildMatches(s.d, H3(s.procs[p].addr), HTTP3, a);
    }
  }

  lemma StartMatches(s: State, s': State, p: Pid, c: Choice, a: Key)
    requires if p in s.procs then Wants(s.procs[p]).Some? && Acquire(s, p, c) == Some(s')
             else Spawn(s, p, c) == Some(s')
    ensures Matches(s.d, s'.d, if p in s.procs then s.procs[p] else ReqDone, s'.procs[p], a)
  {
  }

  lemma InvMatches(s: State, p: Pid)
    requires Inv(s) && p in s.procs
    ensures PcInv(s.d, s.procs[p]) && forall k :: k in s.d.stale ==> k.Tcp?
  {
    assert forall k :: k in s.d.stale ==> k in s.d.kinds;
  }

  lemma AwakeMatches(s: State, s': State, p: Pid, c: Choice, a: Key)
    requires p in s.procs && PcInv(s.d, s.procs[p]) && forall k :: k in s.d.stale ==> k.Tcp?
    requires Wants(s.procs[p]).None? && Step(s, p, c) == Some(s')
    ensures Matches(s.d, s'.d, s.procs[p], s'.procs[p], a)
  {
    if InSetup(s.procs[p]) {
      SetupMatches(s, s', p, c, a);
    } else if InDial(s.procs[p]) || s.procs[p].H3Put? {
      DialMatches(s, s', p, c, a);
    } else if s.procs[p].DropCheck? || s.procs[p].DropKind? {
      DropMatches(s, s', p, c, a);
    } else {
      RequestMatches(s, s', p, c, a);
    }
  }

  lemma StepMatches(s: State, s': State, p: Pid, c: Choice, a: Key)
    requires Inv(s) && Step(s, p, c) == Some(s')
    ensures Matches(s.d, s'.d, if p in s.procs then s.procs[p] else ReqDone, s'.procs[p], a)
  {
    if p !in s.procs || Wants(s.procs[p]).Some? {
      StartMatches(s, s', p, c, a);
    } else {
      InvMatches(s, p);
      AwakeMatches(s, s', p, c, a);
    }
  }

  lemma StepMovesOne(s: State, s': State, p: Pid, c: Choice)
    requires Inv(s) && Step(s, p, c) == Some(s')
    ensures s'.procs == s.procs[p := s'.procs[p]]
  {
    InvReady(s, p);
    if p in s.procs {
      StepSound(s, s', p, c, s.procs[p], s'.procs[p]);
    } else {
      SpawnSound(s, s', p, c, s'.procs[p]);
    }
  }

  lemma WindowStep(s: State, s': State, p: Pid, c: Choice)
    requires Inv(s) && WindowInv(s) && Step(s, p, c) == Some(s')
    ensures WindowInv(s')
  {
    StepMovesOne(s, s', p, c);
    forall a | Unmatched(s'.d, a)
      ensures HalfDropped(s', a)
    {
      StepMatches(s, s', p, c, a);
      if InWindow(s'.procs[p], a) {
        assert p in s'.procs;
      } else {
        var q :| q in s.procs && InWindow(s.procs[q], a);
        assert q != p && s'.procs[q] == s.procs[q];
      }
    }
  }

  lemma {:induction false} RunKeepsWindow(schedule: seq<(Pid, Choice)>)
    requires Run(schedule).Some?
    ensures WindowInv(Run(schedule).value)
  {
    if schedule != [] {
      var before := schedule[..|schedule| - 1];
      assert Run(before).Some?;
      RunKeepsWindow(before);
      RunInv(before);
      var (p, c) := schedule[|schedule| - 1];
      WindowStep(Run(before).value, Run(schedule).value, p, c);
    }
  }

  /**
  A key is stale only while some drop of it is between its two halves. So, with any plain and secure requests in play,
  a recorded kind is the last-built transport's whenever the mutex is free and no drop of the key is half done.
  */
  lemma StaleOnlyInTheWindow(s: State, a: Key)
    requires Reachable(s)
    ensures a in s.d.stale ==> HalfDropped(s, a)
    ensures s.rtOwner.None? && a in s.d.kinds && !HalfDropped(s, a) ==>
              KindOfLatest(s.d, a) == Some(s.d.kinds[a]) && a in s.d.transports
  {
    var schedule :| Run(schedule) == Some(s);
    RunKeepsWindow(schedule);
    RunInv(schedule);
    assert Unmatched(s.d, a) ==> HalfDropped(s, a);
  }

  // ----- Deadlock

  /** p waits for a lock that q holds. */
  predicate WaitsFor(s: State, p: Pid, q: Pid) {
    p in s.procs && Wants(s.procs[p]).Some? && Owner(s, Wants(s.procs[p]).value.0) == Some(q)
  }

  /** The order in which locks are taken. */
  function Level(l: Lock): nat {
    match l
    case TransportsLck => 0
    case RoundTripperLck => 1
    case KindsLck => 2
  }

  /** A process that holds a lock waits only for a later one. */
  lemma LocksAreOrdered(s: State, p: Pid, q: Pid)
    requires Inv(s) && WaitsFor(s, p, q)
    ensures q in s.procs && Holds(s.procs[q], Wants(s.procs[p]).value.0)
    ensures var held := Wants(s.procs[p]).value.0;
            Wants(s.procs[q]).Some? ==> Level(held) < Level(Wants(s.procs[q]).value.0)
  {
  }

  /** Each process of w but the last waits for the next one. */
  predicate Chain(s: State, w: seq<Pid>) {
    |w| >= 2 && WaitsFor(s, w[0], w[1]) && (|w| > 2 ==> Chain(s, w[1..]))
  }

  lemma {:induction false} ChainsClimb(s: State, w: seq<Pid>)
    requires Inv(s) && Chain(s, w)
    ensures var q := w[|w| - 1];
            q in s.procs && (Wants(s.procs[q]).Some? ==>
              Level(Wants(s.procs[w[0]]).value.0) < Level(Wants(s.procs[q]).value.0))
  {
    LocksAreOrdered(s, w[0], w[1]);
    if |w| > 2 {
      ChainsClimb(s, w[1..]);
    }
  }

  /** No cycle of waiters, of any length, is ever reachable. */
  lemma NoWaitCycle(s: State, w: seq<Pid>)
    requires Reachable(s) && Chain(s, w)
    ensures w[0] != w[|w| - 1]
  {
    ReachableInv(s);
    ChainsClimb(s, w);
  }

  predicate Finished(pc: Pc) {
    pc.ReqDone? || pc.DialGot? || pc.DialFailed? || pc.H3Done?
  }

  /** What an unfinished process that waits for no lock can do next. */
  function Continue(pc: Pc): Choice {
    match pc
    case ReqUse(_, _, _) => Finish
    case SetupDial(_) => NetFails
    case DialNet(_) => NetFails
    case _ => Go
  }

  lemma RunningCanStep(s: State, p: Pid)
    requires Inv(s) && p in s.procs && !Finished(s.procs[p]) && Wants(s.procs[p]).None?
    ensures Step(s, p, Continue(s.procs[p])).Some?
  {
    assert PcInv(s.d, s.procs[p]);
  }

  lemma WaiterCanStep(s: State, p: Pid)
    requires p in s.procs && Wants(s.procs[p]).Some? && Owner(s, Wants(s.procs[p]).value.0).None?
    ensures Step(s, p, Go).Some?
  {
  }

  lemma OwnersAreUnfinished(s: State, l: Lock)
    requires Inv(s) && Owner(s, l).Some?
    ensures Owner(s, l).value in s.procs && !Finished(s.procs[Owner(s, l).value])
  {
  }

  lemma {:induction false} SomeoneCanStep(s: State, p: Pid) returns (q: Pid, c: Choice)
    requires Inv(s) && p in s.procs && !Finished(s.procs[p])
    ensures q in s.procs && Step(s, q, c).Some?
    decreases if Wants(s.procs[p]).Some? then 3 - Level(Wants(s.procs[p]).value.0) else 0
  {
    if Wants(s.procs[p]).None? {
      RunningCanStep(s, p);
      return p, Continue(s.procs[p]);
    }
    var l := Wants(s.procs[p]).value.0;
    if Owner(s, l).None? {
      WaiterCanStep(s, p);
      return p, Go;
    }
    OwnersAreUnfinished(s, l);
    LocksAreOrdered(s, p, Owner(s, l).value);
    q, c := SomeoneCanStep(s, Owner(s, l).value);
  }

  /** While some process is unfinished, some process that exists can take a step: the cache never deadlocks. */
  lemma NeverDeadlocked(s: State, p: Pid)
    requires Reachable(s) && p in s.procs && !Finished(s.procs[p])
    ensures exists q, c :: q in s.procs && Step(s, q, c).Some?
  {
    ReachableInv(s);
    var q, c := SomeoneCanStep(s, p);
  }
}
