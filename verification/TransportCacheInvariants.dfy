/** What every step of the transport cache keeps, and what follows for every reachable state. */
module TransportCacheInvariants {
  import opened Common
  import opened TransportCache

  // ----- Locks

  predicate Holds(pc: Pc, l: Lock) {
    match l
    case TransportsLck =>
      pc.ReqCheck? || pc.SetupWait? || pc.SetupStash? || pc.SetupDial? || pc.SetupBuild? || pc.SetupKindWait?
      || pc.SetupKind? || pc.SetupStore? || pc.ReqError? || pc.ReqRead? || pc.DropCheck? || pc.H3Put?
    case RoundTripperLck =>
      pc.SetupStash? || pc.SetupDial? || pc.SetupBuild? || pc.SetupKindWait? || pc.SetupKind? || pc.SetupStore?
      || pc.DialStash? || pc.DialNet? || pc.DialKindWait? || pc.DialKind? || pc.DialJudge?
    case KindsLck => pc.SetupKind? || pc.DropKind? || pc.DialKind?
  }

  ghost predicate LockInv(owner: Option<Pid>, procs: map<Pid, Pc>, l: Lock) {
    && (owner.Some? ==> owner.value in procs && Holds(procs[owner.value], l))
    && (forall p :: p in procs && Holds(procs[p], l) ==> owner == Some(p))
  }

  /** Process p, moving from pc to pc', keeps, takes or releases lock l. */
  predicate LockMove(owner: Option<Pid>, owner': Option<Pid>, p: Pid, pc: Pc, pc': Pc, l: Lock) {
    || (owner' == owner && Holds(pc', l) == Holds(pc, l))
    || (owner.None? && owner' == Some(p) && Holds(pc', l))
    || (owner'.None? && Holds(pc, l) && !Holds(pc', l))
  }

  lemma LockMoveKeeps(owner: Option<Pid>, owner': Option<Pid>, procs: map<Pid, Pc>, p: Pid, pc: Pc, pc': Pc, l: Lock)
    requires LockInv(owner, procs, l) && LockMove(owner, owner', p, pc, pc', l)
    requires if p in procs then procs[p] == pc else pc == ReqDone
    ensures LockInv(owner', procs[p := pc'], l)
  {
  }

  // ----- The maps

  /** Identifiers are fresh; a cached transport is the one built last for its key. */
  ghost predicate BuiltInv(d: Data) {
    && (forall t {:trigger t in d.built} :: t in d.built ==>
          t < d.next && d.built[t].key in d.latest && (d.built[t].kind != HTTP3 ==> d.built[t].key.Tcp?))
    && d.failed <= d.built.Keys
    && (forall a {:trigger a in d.latest} :: a in d.latest ==> d.latest[a] in d.built && d.built[d.latest[a]].key == a)
    && (forall a {:trigger a in d.transports} :: a in d.transports ==> a in d.latest && d.transports[a] == d.latest[a])
  }

  /**
  A recorded kind is that of the transport built last exactly if the key is not stale, except at the key whose kind is
  about to be stored.
  */
  ghost predicate KindInv(d: Data, rebuilding: Option<Key>)
    requires BuiltInv(d)
  {
    && d.stale <= d.kinds.Keys
    && (forall a {:trigger a in d.kinds} :: a in d.kinds ==>
          && a in d.latest && a.Tcp?
          && (rebuilding == Some(a) || (d.kinds[a] == d.built[d.latest[a]].kind <==> a !in d.stale)))
  }

  /** A stashed connection lies beside the transport built with it, none of whose dials has failed. */
  ghost predicate StashInv(d: Data)
    requires BuiltInv(d)
  {
    forall a {:trigger a in d.stash} :: a in d.stash ==>
      && a.Tcp? && a in d.transports && d.transports[a] == d.stash[a].owner
      && d.stash[a].owner !in d.failed && d.stash[a].kind == d.built[d.stash[a].owner].kind
  }

  ghost predicate DataInv(d: Data, rebuilding: Option<Key>) {
    BuiltInv(d) && KindInv(d, rebuilding) && StashInv(d)
  }

  /** The program counter of the process that holds the round tripper mutex. */
  function Holder(s: State): Option<Pc> {
    if s.rtOwner.Some? && s.rtOwner.value in s.procs then Some(s.procs[s.rtOwner.value]) else None
  }

  /** The key for which the holder of the mutex has stored a transport and not yet its kind. */
  function Rebuilding(holder: Option<Pc>): Option<Key> {
    if holder.Some? && (holder.value.SetupKindWait? || holder.value.SetupKind?) then Some(holder.value.a) else None
  }

  /** What a process may rely on between its steps. */
  datatype Claim =
    | Nothing
    | Address(a: Key)                  // a is a dial address
    | Absent(a: Key)                   // and no transport is cached for it
    | Present(a: Key)                  // some transport is cached for a
    | JustBuilt(a: Key, t: Tid)        // t was built for a, is cached, and its connection is not stashed yet
    | Uses(a: Key, t: Tid)             // t was built for a
    | Broken(a: Key, t: Tid)           // and one of its dials reported errProtocolChanged
    | Dials(t: Tid)                       // t dials through the round tripper
    | DialsAfresh(t: Tid)                 // and no connection is stashed for its address
    // and cached was recorded while seen was the latest
    | Compares(t: Tid, cached: Option<Kind>, seen: Tid, clash: bool)
    // t got a connection of the kind recorded then
    | Received(t: Tid, kind: Kind, last: Tid, seen: Tid, clash: bool)
    | Never

  function ClaimAt(pc: Pc): Claim {
    match pc
    case ReqStart(a, _) => Address(a)
    case ReqCheck(a, _) => Address(a)
    case SetupWait(a) => Absent(a)
    case SetupStash(a) => Absent(a)
    case SetupDial(a) => Absent(a)
    case SetupBuild(a, _) => Absent(a)
    case SetupKindWait(a, t) => JustBuilt(a, t)
    case SetupKind(a, t) => JustBuilt(a, t)
    case SetupStore(a, t) => JustBuilt(a, t)
    case ReqRead(a, _) => Present(a)
    case ReqUse(a, t, _) => Uses(a, t)
    case DropWait(a, t) => Broken(a, t)
    case DropCheck(a, t) => Broken(a, t)
    case DialWait(t) => Dials(t)
    case DialStash(t) => Dials(t)
    case DialNet(t) => DialsAfresh(t)
    case DialKindWait(t, _) => DialsAfresh(t)
    case DialKind(t, _) => DialsAfresh(t)
    case DialJudge(t, _, cached, seen, clash) => Compares(t, cached, seen, clash)
    case DialGot(t, kind, last, seen, clash) => Received(t, kind, last, seen, clash)
    case Panicked => Never
    case _ => Nothing
  }

  predicate ClaimInv(d: Data, claim: Claim) {
    match claim
    case Nothing => true
    case Address(a) => a.Tcp?
    case Absent(a) => a.Tcp? && a !in d.transports
    case Present(a) => a in d.transports
    case JustBuilt(a, t) =>
      a.Tcp? && a in d.transports && d.transports[a] == t && t in d.built && t !in d.failed && a !in d.stash
    case Uses(a, t) => t in d.built && d.built[t].key == a
    case Broken(a, t) => t in d.built && d.built[t].key == a && t in d.failed
    case Dials(t) => Dialer(d, t)
    case DialsAfresh(t) => Dialer(d, t) && d.built[t].key !in d.stash
    case Compares(t, cached, seen, clash) =>
      && Dialer(d, t) && d.built[t].key !in d.stash && Saw(d, t, seen)
      && (d.built[t].key in d.latest && d.latest[d.built[t].key] == t ==> seen == t)
      && (cached.Some? ==> (cached.value == d.built[seen].kind <==> !clash))
    case Received(t, kind, last, seen, clash) =>
      && t in d.built && last in d.built && d.built[t].key == d.built[last].key && Saw(d, t, seen)
      && (last == t ==> seen == t)
      && (kind == d.built[seen].kind <==> !clash)
    case Never => false
  }

  function KindOfLatest(d: Data, a: Key): Option<Kind> {
    if a in d.latest && d.latest[a] in d.built then Some(d.built[d.latest[a]].kind) else None
  }

  predicate Dialer(d: Data, t: Tid) {
    t in d.built && d.built[t].kind != HTTP3
  }

  /** seen was built for the same address as t. */
  predicate Saw(d: Data, t: Tid, seen: Tid) {
    t in d.built && seen in d.built && d.built[seen].key == d.built[t].key
  }

  predicate PcInv(d: Data, pc: Pc) {
    ClaimInv(d, ClaimAt(pc))
  }

  ghost predicate Inv(s: State) {
    && LockInv(s.tOwner, s.procs, TransportsLck)
    && LockInv(s.rtOwner, s.procs, RoundTripperLck)
    && LockInv(s.kOwner, s.procs, KindsLck)
    && DataInv(s.d, Rebuilding(Holder(s)))
    && (forall p :: p in s.procs ==> PcInv(s.d, s.procs[p]))
  }

  // ----- What a step may change, given the locks its process holds

  /**
  The effect of a step by a process at pc on the shared data: the transport map changes only under
  cachedTransportsLck, the kinds only under cachedKindsLck, stashed connections and the failure record only
  under the round tripper mutex; and the transport built last for an address changes only to a new one.
  */
  ghost predicate Guarantee(d: Data, d': Data, pc: Pc) {
    && (forall t :: t in d.built ==> t in d'.built && d'.built[t] == d.built[t])
    && d.failed <= d'.failed
    && (forall a :: a in d.latest ==> a in d'.latest && (d'.latest[a] == d.latest[a] || d'.latest[a] !in d.built))
    && (Holds(pc, TransportsLck) || d'.transports == d.transports)
    && (Holds(pc, KindsLck) || d'.kinds == d.kinds)
    && (Holds(pc, RoundTripperLck) || (d'.stash == d.stash && d'.failed == d.failed))
  }

  predicate NeedsTransports(claim: Claim) {
    claim.Absent? || claim.Present? || claim.JustBuilt?
  }

  predicate NeedsMutex(claim: Claim) {
    claim.JustBuilt? || claim.DialsAfresh? || claim.Compares?
  }

  /** A claim is kept by every step of a process that does not hold the locks the claim is made under. */
  lemma ClaimKept(d: Data, d': Data, pc: Pc, claim: Claim)
    requires BuiltInv(d) && Guarantee(d, d', pc) && ClaimInv(d, claim)
    requires NeedsTransports(claim) ==> !Holds(pc, TransportsLck)
    requires NeedsMutex(claim) ==> !Holds(pc, RoundTripperLck)
    ensures ClaimInv(d', claim)
  {
  }

  lemma ClaimsNeedLocks(pc: Pc)
    ensures NeedsTransports(ClaimAt(pc)) ==> Holds(pc, TransportsLck)
    ensures NeedsMutex(ClaimAt(pc)) ==> Holds(pc, RoundTripperLck)
  {
  }

  /** What a process knows survives the steps of the others. */
  lemma OthersKeepKnowing(d: Data, d': Data, pc: Pc, other: Pc)
    requires BuiltInv(d) && Guarantee(d, d', pc) && PcInv(d, other)
    requires !(Holds(pc, TransportsLck) && Holds(other, TransportsLck))
    requires !(Holds(pc, RoundTripperLck) && Holds(other, RoundTripperLck))
    ensures PcInv(d', other)
  {
    ClaimsNeedLocks(other);
    ClaimKept(d, d', pc, ClaimAt(other));
  }

  /** The program counter of the mutex holder after p moves from pc to pc'. */
  function HolderAfter(s: State, pc: Pc, pc': Pc): Option<Pc> {
    if Holds(pc', RoundTripperLck) then Some(pc')
    else if Holds(pc, RoundTripperLck) then None
    else Holder(s)
  }

  /** The bookkeeping of one step of p, without the maps. */
  predicate Moves(s: State, s': State, p: Pid, pc: Pc, pc': Pc) {
    && s'.procs == s.procs[p := pc']
    && (if p in s.procs then s.procs[p] == pc else pc == ReqDone)
    && LockMove(s.tOwner, s'.tOwner, p, pc, pc', TransportsLck)
    && LockMove(s.rtOwner, s'.rtOwner, p, pc, pc', RoundTripperLck)
    && LockMove(s.kOwner, s'.kOwner, p, pc, pc', KindsLck)
    && PcInv(s'.d, pc')
  }

  /** The obligations of one step, none of which speaks of the other processes. */
  ghost predicate Sound(s: State, s': State, p: Pid, pc: Pc, pc': Pc) {
    Moves(s, s', p, pc, pc') && Guarantee(s.d, s'.d, pc) && DataInv(s'.d, Rebuilding(HolderAfter(s, pc, pc')))
  }

  /** A step that leaves the maps alone. */
  predicate Quiet(s: State, s': State, p: Pid, pc: Pc, pc': Pc) {
    s'.d == s.d && Rebuilding(HolderAfter(s, pc, pc')) == Rebuilding(Holder(s)) && Moves(s, s', p, pc, pc')
  }

  lemma OthersKnow(d: Data, d': Data, tOwner: Option<Pid>, rtOwner: Option<Pid>, procs: map<Pid, Pc>,
                   p: Pid, pc: Pc, q: Pid)
    requires LockInv(tOwner, procs, TransportsLck) && LockInv(rtOwner, procs, RoundTripperLck)
    requires BuiltInv(d) && Guarantee(d, d', pc) && q in procs && q != p && PcInv(d, procs[q])
    requires if p in procs then procs[p] == pc else pc == ReqDone
    ensures PcInv(d', procs[q])
  {
    OthersKeepKnowing(d, d', pc, procs[q]);
  }

  lemma HolderMoves(s: State, s': State, p: Pid, pc: Pc, pc': Pc)
    requires LockInv(s.rtOwner, s.procs, RoundTripperLck) && Moves(s, s', p, pc, pc')
    ensures Holder(s') == HolderAfter(s, pc, pc')
  {
  }

  lemma StepKeepsInv(s: State, s': State, p: Pid, pc: Pc, pc': Pc)
    requires Inv(s) && Sound(s, s', p, pc, pc')
    ensures Inv(s')
  {
    HolderMoves(s, s', p, pc, pc');
    LockMoveKeeps(s.tOwner, s'.tOwner, s.procs, p, pc, pc', TransportsLck);
    LockMoveKeeps(s.rtOwner, s'.rtOwner, s.procs, p, pc, pc', RoundTripperLck);
    LockMoveKeeps(s.kOwner, s'.kOwner, s.procs, p, pc, pc', KindsLck);
    forall q | q in s.procs && q != p
      ensures PcInv(s'.d, s.procs[q])
    {
      OthersKnow(s.d, s'.d, s.tOwner, s.rtOwner, s.procs, p, pc, q);
    }
  }

  lemma QuietIsSound(s: State, s': State, p: Pid, pc: Pc, pc': Pc)
    requires DataInv(s.d, Rebuilding(Holder(s))) && Quiet(s, s', p, pc, pc')
    ensures Sound(s, s', p, pc, pc')
  {
  }

  // ----- The effects on the maps keep their invariants

  lemma BuildKeepsBuilt(d: Data, key: Key, kind: Kind)
    requires BuiltInv(d) && (key.Tcp? || kind == HTTP3)
    ensures BuiltInv(Build(d, key, kind))
  {
  }

  lemma BuildGuarantees(d: Data, key: Key, kind: Kind, pc: Pc)
    requires BuiltInv(d) && Holds(pc, TransportsLck)
    ensures Guarantee(d, Build(d, key, kind), pc)
  {
  }

  /** Building under the mutex, where the kind is stored next, or in one of the racer's slots. */
  lemma BuildKeeps(d: Data, key: Key, kind: Kind, r: Option<Key>, r': Option<Key>)
    requires DataInv(d, r)
    requires if key.Tcp? then key !in d.transports && r.None? && r' == Some(key) else kind == HTTP3 && r' == r
    ensures DataInv(Build(d, key, kind), r')
  {
    BuildKeepsBuilt(d, key, kind);
  }

  lemma BuildPlainKinds(d: Data, key: Key, r: Option<Key>)
    requires BuiltInv(d) && KindInv(d, r) && key.Tcp? && BuiltInv(BuildPlain(d, key))
    ensures KindInv(BuildPlain(d, key), r)
  {
  }

  lemma BuildPlainStash(d: Data, key: Key)
    requires BuiltInv(d) && StashInv(d) && key !in d.transports && BuiltInv(BuildPlain(d, key))
    ensures StashInv(BuildPlain(d, key))
  {
  }

  /** Building for plain http, whoever holds the mutex. */
  lemma BuildPlainKeeps(d: Data, key: Key, r: Option<Key>)
    requires DataInv(d, r) && key.Tcp? && key !in d.transports
    ensures DataInv(BuildPlain(d, key), r)
  {
    BuildKeepsBuilt(d, key, HTTP1);
    BuildPlainKinds(d, key, r);
    BuildPlainStash(d, key);
  }

  lemma BuildPlainGuarantees(d: Data, key: Key, pc: Pc)
    requires BuiltInv(d) && Holds(pc, TransportsLck)
    ensures Guarantee(d, BuildPlain(d, key), pc)
  {
    BuildGuarantees(d, key, HTTP1, pc);
  }

  lemma DropTransportBuilt(d: Data, a: Key, t: Tid)
    requires BuiltInv(d)
    ensures BuiltInv(DropTransport(d, a, t))
  {
  }

  lemma DropTransportKeeps(d: Data, a: Key, t: Tid, r: Option<Key>)
    requires DataInv(d, r) && t in d.failed
    ensures DataInv(DropTransport(d, a, t), r)
  {
    DropTransportBuilt(d, a, t);
    assert a in d.stash ==> d.transports[a] != t;
  }

  lemma DropTransportGuarantees(d: Data, a: Key, t: Tid, pc: Pc)
    requires Holds(pc, TransportsLck)
    ensures Guarantee(d, DropTransport(d, a, t), pc)
  {
  }

  lemma SetKindKeeps(d: Data, a: Key, t: Tid, pc: Pc)
    requires DataInv(d, Some(a)) && ClaimInv(d, JustBuilt(a, t)) && Holds(pc, KindsLck)
    ensures DataInv(SetKind(d, a, d.built[t].kind), None) && Guarantee(d, SetKind(d, a, d.built[t].kind), pc)
  {
  }

  lemma DeleteKindKeeps(d: Data, a: Key, r: Option<Key>, pc: Pc)
    requires DataInv(d, r) && Holds(pc, KindsLck)
    ensures DataInv(DeleteKind(d, a), r) && Guarantee(d, DeleteKind(d, a), pc)
  {
  }

  lemma PutStashKeeps(d: Data, a: Key, t: Tid, c: Cid, pc: Pc)
    requires DataInv(d, None) && ClaimInv(d, JustBuilt(a, t)) && Holds(pc, RoundTripperLck)
    ensures DataInv(PutStash(d, a, d.built[t].kind, t, c), None)
    ensures Guarantee(d, PutStash(d, a, d.built[t].kind, t, c), pc)
  {
  }

  lemma TakeStashKeeps(d: Data, a: Key, pc: Pc)
    requires DataInv(d, None) && a in d.stash && Holds(pc, RoundTripperLck)
    ensures DataInv(TakeStash(d, a), None) && Guarantee(d, TakeStash(d, a), pc)
  {
  }

  lemma FailKeeps(d: Data, t: Tid, pc: Pc)
    requires DataInv(d, None) && t in d.built && d.built[t].key !in d.stash && Holds(pc, RoundTripperLck)
    ensures DataInv(Fail(d, t), None) && Guarantee(d, Fail(d, t), pc)
  {
  }

  // ----- Every step meets its obligations

  /** The part of the invariant that a step of p rests on. */
  predicate Before(s: State, p: Pid, pc: Pc) {
    && (if p in s.procs then s.procs[p] == pc else pc == ReqDone)
    && (Holds(pc, TransportsLck) ==> s.tOwner == Some(p))
    && (Holds(pc, RoundTripperLck) ==> s.rtOwner == Some(p))
    && (Holds(pc, KindsLck) ==> s.kOwner == Some(p))
    && PcInv(s.d, pc)
  }

  lemma AcquireTransportsMoves(s: State, p: Pid, pc: Pc, pc': Pc)
    requires Before(s, p, pc) && p in s.procs && Wants(pc) == Some((TransportsLck, pc')) && s.tOwner.None?
    ensures Quiet(s, Move(SetOwner(s, TransportsLck, Some(p)), p, pc'), p, pc, pc')
  {
  }

  lemma AcquireMutexMoves(s: State, p: Pid, pc: Pc, pc': Pc)
    requires Before(s, p, pc) && p in s.procs && Wants(pc) == Some((RoundTripperLck, pc')) && s.rtOwner.None?
    ensures Quiet(s, Move(SetOwner(s, RoundTripperLck, Some(p)), p, pc'), p, pc, pc')
  {
  }

  lemma AcquireKindsMoves(s: State, p: Pid, pc: Pc, pc': Pc)
    requires Before(s, p, pc) && p in s.procs && Wants(pc) == Some((KindsLck, pc')) && s.kOwner.None?
    requires Holds(pc, RoundTripperLck) ==> Holder(s) == Some(pc)
    ensures Quiet(s, Move(SetOwner(s, KindsLck, Some(p)), p, pc'), p, pc, pc')
  {
  }

  lemma SpawnMoves(s: State, s': State, p: Pid, c: Choice, pc': Pc)
    requires Before(s, p, ReqDone) && p !in s.procs && Spawn(s, p, c) == Some(s') && s'.procs[p] == pc'
    ensures Quiet(s, s', p, ReqDone, pc')
  {
  }

  lemma CheckMoves(s: State, s': State, p: Pid, pc: Pc, pc': Pc)
    requires Before(s, p, pc) && p in s.procs && RequestStep(s, p, Go) == Some(s') && s'.procs[p] == pc'
    requires pc.ReqCheck?
    ensures Moves(s, s', p, pc, pc')
    ensures (pc.scheme.Http? && pc.a !in s.d.transports) || Quiet(s, s', p, pc, pc')
  {
  }

  lemma ReadMoves(s: State, s': State, p: Pid, c: Choice, pc: Pc, pc': Pc)
    requires Before(s, p, pc) && p in s.procs && RequestStep(s, p, c) == Some(s') && s'.procs[p] == pc'
    requires pc.ReqRead? && !c.Rewrite? && ClaimInv(s.d, Uses(pc.a, s.d.transports[pc.a]))
    ensures Quiet(s, s', p, pc, pc')
  {
  }

  lemma UseMoves(s: State, s': State, p: Pid, c: Choice, pc: Pc, pc': Pc)
    requires Before(s, p, pc) && p in s.procs && RequestStep(s, p, c) == Some(s') && s'.procs[p] == pc'
    requires pc.ReqError? || pc.ReqUse?
    ensures Quiet(s, s', p, pc, pc')
  {
  }

  lemma SetupDialMoves(s: State, s': State, p: Pid, c: Choice, pc: Pc, pc': Pc)
    requires Before(s, p, pc) && p in s.procs && SetupStep(s, p, c) == Some(s') && s'.procs[p] == pc'
    requires pc.SetupDial? || (pc.SetupStash? && pc.a !in s.d.stash)
    ensures Quiet(s, s', p, pc, pc')
  {
  }

  lemma SetupBuildMoves(s: State, s': State, p: Pid, c: Choice, pc: Pc, pc': Pc)
    requires Before(s, p, pc) && p in s.procs && SetupStep(s, p, c) == Some(s') && s'.procs[p] == pc'
    requires pc.SetupBuild?
    requires s.d.next !in s.d.failed && pc.a !in s.d.stash
    ensures Moves(s, s', p, pc, pc')
    ensures c.Go? || Quiet(s, s', p, pc, pc')
  {
  }

  lemma SetupStoreMoves(s: State, s': State, p: Pid, pc: Pc, pc': Pc)
    requires Before(s, p, pc) && p in s.procs && SetupStep(s, p, Go) == Some(s') && s'.procs[p] == pc'
    requires pc.SetupKind? || pc.SetupStore?
    ensures Moves(s, s', p, pc, pc')
  {
  }

  lemma DropMoves(s: State, s': State, p: Pid, pc: Pc, pc': Pc)
    requires Before(s, p, pc) && p in s.procs && DropStep(s, p, Go) == Some(s') && s'.procs[p] == pc'
    ensures Moves(s, s', p, pc, pc')
  {
  }

  lemma DialStashMoves(s: State, s': State, p: Pid, c: Choice, pc: Pc, pc': Pc)
    requires Before(s, p, pc) && p in s.procs && DialStep(s, p, c) == Some(s') && s'.procs[p] == pc'
    requires pc.DialStash? && s.d.built[pc.t].key in s.d.stash
    requires PcInv(s.d, pc')
    ensures Moves(s, s', p, pc, pc')
  {
  }

  lemma DialQuietMoves(s: State, s': State, p: Pid, c: Choice, pc: Pc, pc': Pc)
    requires Before(s, p, pc) && p in s.procs && DialStep(s, p, c) == Some(s') && s'.procs[p] == pc'
    requires pc.DialNet? || (pc.DialStash? && s.d.built[pc.t].key !in s.d.stash)
    ensures Quiet(s, s', p, pc, pc')
  {
  }

  lemma DialKindMoves(s: State, s': State, p: Pid, c: Choice, pc: Pc, pc': Pc)
    requires Before(s, p, pc) && p in s.procs && DialStep(s, p, c) == Some(s') && s'.procs[p] == pc'
    requires pc.DialKind? && ClaimInv(s.d, ClaimAt(pc'))
    ensures Quiet(s, s', p, pc, pc')
  {
  }

  lemma DialJudgeMoves(s: State, s': State, p: Pid, pc: Pc, pc': Pc)
    requires Before(s, p, pc) && p in s.procs && DialStep(s, p, Go) == Some(s') && s'.procs[p] == pc'
    requires pc.DialJudge? && ClaimInv(s.d, ClaimAt(pc'))
    ensures Moves(s, s', p, pc, pc')
    ensures pc'.DialFailed? || Quiet(s, s', p, pc, pc')
  {
  }

  lemma H3Moves(s: State, s': State, p: Pid, c: Choice, pc: Pc, pc': Pc)
    requires Before(s, p, pc) && p in s.procs && H3Step(s, p, c) == Some(s') && s'.procs[p] == pc'
    ensures Moves(s, s', p, pc, pc')
    ensures c.Go? || Quiet(s, s', p, pc, pc')
  {
  }

  // ----- Every step keeps the invariant

  /** Where a step by p starts from. */
  ghost predicate Ready(s: State, p: Pid, pc: Pc) {
    && Before(s, p, pc) && DataInv(s.d, Rebuilding(Holder(s)))
    && (Holds(pc, RoundTripperLck) ==> Holder(s) == Some(pc))
  }

  lemma InvReady(s: State, p: Pid)
    requires Inv(s)
    ensures Ready(s, p, if p in s.procs then s.procs[p] else ReqDone)
  {
  }

  lemma SpawnSound(s: State, s': State, p: Pid, c: Choice, pc': Pc)
    requires Ready(s, p, ReqDone) && p !in s.procs && Spawn(s, p, c) == Some(s') && s'.procs[p] == pc'
    ensures Sound(s, s', p, ReqDone, pc')
  {
    SpawnMoves(s, s', p, c, pc');
    QuietIsSound(s, s', p, ReqDone, pc');
  }

  lemma AcquireSound(s: State, s': State, p: Pid, c: Choice, pc: Pc, pc': Pc)
    requires Ready(s, p, pc) && p in s.procs && Wants(pc).Some? && Acquire(s, p, c) == Some(s') && s'.procs[p] == pc'
    ensures Sound(s, s', p, pc, pc')
  {
    match Wants(pc).value.0 {
      case TransportsLck => AcquireTransportsMoves(s, p, pc, pc');
      case RoundTripperLck => AcquireMutexMoves(s, p, pc, pc');
      case KindsLck => AcquireKindsMoves(s, p, pc, pc');
    }
    QuietIsSound(s, s', p, pc, pc');
  }

  lemma CheckSound(s: State, s': State, p: Pid, c: Choice, pc: Pc, pc': Pc)
    requires Ready(s, p, pc) && p in s.procs && RequestStep(s, p, c) == Some(s') && s'.procs[p] == pc'
    requires pc.ReqCheck?
    ensures Sound(s, s', p, pc, pc')
  {
    CheckMoves(s, s', p, pc, pc');
    if pc.scheme.Http? && pc.a !in s.d.transports {
      var r := Rebuilding(Holder(s));
      BuildPlainKeeps(s.d, pc.a, r);
      BuildPlainGuarantees(s.d, pc.a, pc);
    } else {
      QuietIsSound(s, s', p, pc, pc');
    }
  }

  lemma ReadSound(s: State, s': State, p: Pid, c: Choice, pc: Pc, pc': Pc)
    requires Ready(s, p, pc) && p in s.procs && RequestStep(s, p, c) == Some(s') && s'.procs[p] == pc'
    requires pc.ReqRead?
    ensures Sound(s, s', p, pc, pc')
  {
    if c.Rewrite? {
      assert s'.d.transports == s.d.transports;
      assert s'.procs == s.procs[p := pc];
    } else {
      ReadMoves(s, s', p, c, pc, pc');
    }
    QuietIsSound(s, s', p, pc, pc');
  }

  lemma UseSound(s: State, s': State, p: Pid, c: Choice, pc: Pc, pc': Pc)
    requires Ready(s, p, pc) && p in s.procs && RequestStep(s, p, c) == Some(s') && s'.procs[p] == pc'
    requires pc.ReqError? || pc.ReqUse?
    ensures Sound(s, s', p, pc, pc')
  {
    UseMoves(s, s', p, c, pc, pc');
    QuietIsSound(s, s', p, pc, pc');
  }

  lemma NoStashWithoutTransport(d: Data, a: Key, r: Option<Key>)
    requires DataInv(d, r) && a !in d.transports
    ensures a !in d.stash && d.next !in d.failed
  {
  }

  lemma SetupDialSound(s: State, s': State, p: Pid, c: Choice, pc: Pc, pc': Pc)
    requires Ready(s, p, pc) && p in s.procs && SetupStep(s, p, c) == Some(s') && s'.procs[p] == pc'
    requires pc.SetupStash? || pc.SetupDial?
    ensures Sound(s, s', p, pc, pc')
  {
    NoStashWithoutTransport(s.d, pc.a, None);
    SetupDialMoves(s, s', p, c, pc, pc');
    QuietIsSound(s, s', p, pc, pc');
  }

  lemma SetupBuildReady(s: State, s': State, p: Pid, c: Choice, pc: Pc, pc': Pc)
    requires Ready(s, p, pc) && p in s.procs && SetupStep(s, p, c) == Some(s') && s'.procs[p] == pc'
    requires pc.SetupBuild?
    ensures Moves(s, s', p, pc, pc') && (c.Go? || Quiet(s, s', p, pc, pc'))
    ensures c.Go? ==> s'.d == Build(s.d, pc.a, KindForProtocol(pc.protocol)) && pc'.SetupKindWait? && pc'.a == pc.a
  {
    NoStashWithoutTransport(s.d, pc.a, None);
    SetupBuildMoves(s, s', p, c, pc, pc');
  }

  lemma SetupBuildSound(s: State, s': State, p: Pid, c: Choice, pc: Pc, pc': Pc)
    requires Ready(s, p, pc) && p in s.procs && SetupStep(s, p, c) == Some(s') && s'.procs[p] == pc'
    requires pc.SetupBuild?
    ensures Sound(s, s', p, pc, pc')
  {
    SetupBuildReady(s, s', p, c, pc, pc');
    if c.Go? {
      BuildKeeps(s.d, pc.a, KindForProtocol(pc.protocol), None, Some(pc.a));
      BuildGuarantees(s.d, pc.a, KindForProtocol(pc.protocol), pc);
    } else {
      QuietIsSound(s, s', p, pc, pc');
    }
  }

  lemma SetupStoreSound(s: State, s': State, p: Pid, c: Choice, pc: Pc, pc': Pc)
    requires Ready(s, p, pc) && p in s.procs && SetupStep(s, p, c) == Some(s') && s'.procs[p] == pc'
    requires pc.SetupKind? || pc.SetupStore?
    ensures Sound(s, s', p, pc, pc')
  {
    SetupStoreMoves(s, s', p, pc, pc');
    if pc.SetupKind? {
      SetKindKeeps(s.d, pc.a, pc.t, pc);
    } else {
      PutStashKeeps(s.d, pc.a, pc.t, LastConn(s.conns), pc);
    }
  }

  lemma DropSound(s: State, s': State, p: Pid, c: Choice, pc: Pc, pc': Pc)
    requires Ready(s, p, pc) && p in s.procs && DropStep(s, p, c) == Some(s') && s'.procs[p] == pc'
    ensures Sound(s, s', p, pc, pc')
  {
    DropMoves(s, s', p, pc, pc');
    if pc.DropCheck? {
      DropTransportKeeps(s.d, pc.a, pc.t, Rebuilding(Holder(s)));
      DropTransportGuarantees(s.d, pc.a, pc.t, pc);
    } else {
      DeleteKindKeeps(s.d, pc.a, Rebuilding(Holder(s)), pc);
    }
  }

  lemma StashedKindFits(d: Data, t: Tid, r: Option<Key>)
    requires DataInv(d, r) && Dialer(d, t) && d.built[t].key in d.stash
    ensures var a := d.built[t].key;
            ClaimInv(d, Received(t, d.stash[a].kind, LastBuilt(d, a), LastBuilt(d, a), false))
  {
  }

  lemma RecordedKindFits(d: Data, t: Tid)
    requires DataInv(d, None) && ClaimInv(d, DialsAfresh(t))
    ensures var a := d.built[t].key;
            ClaimInv(d, Compares(t, if a in d.kinds then Some(d.kinds[a]) else None, LastBuilt(d, a), a in d.stale))
  {
  }

  lemma ComparedKindFits(d: Data, t: Tid, kind: Kind, seen: Tid, clash: bool)
    requires BuiltInv(d) && ClaimInv(d, Compares(t, Some(kind), seen, clash))
    ensures ClaimInv(d, Received(t, kind, LastBuilt(d, d.built[t].key), seen, clash))
  {
  }

  lemma DialTakeEffect(s: State, s': State, p: Pid, c: Choice, t: Tid)
    requires p in s.procs && s.procs[p] == DialStash(t) && t in s.d.built && DialStep(s, p, c) == Some(s')
    requires s.d.built[t].key in s.d.stash
    ensures var a := s.d.built[t].key;
            && s'.d == TakeStash(s.d, a)
            && s'.procs[p] == DialGot(t, s.d.stash[a].kind, LastBuilt(s.d, a), LastBuilt(s.d, a), false)
  {
  }

  lemma DialTakeReady(s: State, s': State, p: Pid, c: Choice, t: Tid, pc': Pc)
    requires Ready(s, p, DialStash(t)) && p in s.procs && DialStep(s, p, c) == Some(s') && s'.procs[p] == pc'
    requires s.d.built[t].key in s.d.stash
    ensures Moves(s, s', p, DialStash(t), pc')
  {
    DialTakeEffect(s, s', p, c, t);
    StashedKindFits(s.d, t, None);
    DialStashMoves(s, s', p, c, DialStash(t), pc');
  }

  lemma DialTakeSound(s: State, s': State, p: Pid, c: Choice, t: Tid, pc': Pc)
    requires Ready(s, p, DialStash(t)) && p in s.procs && DialStep(s, p, c) == Some(s') && s'.procs[p] == pc'
    requires s.d.built[t].key in s.d.stash
    ensures Sound(s, s', p, DialStash(t), pc')
  {
    DialTakeReady(s, s', p, c, t, pc');
    DialTakeEffect(s, s', p, c, t);
    TakeStashKeeps(s.d, s.d.built[t].key, DialStash(t));
  }

  lemma DialJudgeEffect(s: State, s': State, p: Pid, c: Choice, pc: Pc, pc': Pc)
    requires p in s.procs && s.procs[p] == pc && pc.DialJudge? && pc.t in s.d.built
    requires DialStep(s, p, c) == Some(s') && s'.procs[p] == pc'
    ensures if pc'.DialFailed? then s'.d == Fail(s.d, pc.t)
            else
              && pc.cached.Some?
              && pc' == DialGot(pc.t, pc.cached.value, LastBuilt(s.d, s.d.built[pc.t].key), pc.seen, pc.clash)
  {
  }

  lemma DialRefuseReady(s: State, s': State, p: Pid, c: Choice, pc: Pc, pc': Pc)
    requires Before(s, p, pc) && p in s.procs && DialStep(s, p, c) == Some(s') && s'.procs[p] == pc'
    requires pc.DialJudge? && pc'.DialFailed?
    ensures Moves(s, s', p, pc, pc') && s'.d == Fail(s.d, pc.t)
  {
    DialJudgeEffect(s, s', p, c, pc, pc');
    DialJudgeMoves(s, s', p, pc, pc');
  }

  lemma DialRefuseSound(s: State, s': State, p: Pid, c: Choice, pc: Pc, pc': Pc)
    requires Ready(s, p, pc) && p in s.procs && DialStep(s, p, c) == Some(s') && s'.procs[p] == pc'
    requires pc.DialJudge? && pc'.DialFailed?
    ensures Sound(s, s', p, pc, pc')
  {
    DialRefuseReady(s, s', p, c, pc, pc');
    FailKeeps(s.d, pc.t, pc);
  }

  lemma DialAcceptSound(s: State, s': State, p: Pid, c: Choice, pc: Pc, pc': Pc)
    requires Ready(s, p, pc) && p in s.procs && DialStep(s, p, c) == Some(s') && s'.procs[p] == pc'
    requires pc.DialJudge? && !pc'.DialFailed?
    ensures Sound(s, s', p, pc, pc')
  {
    DialJudgeEffect(s, s', p, c, pc, pc');
    ComparedKindFits(s.d, pc.t, pc.cached.value, pc.seen, pc.clash);
    DialJudgeMoves(s, s', p, pc, pc');
    QuietIsSound(s, s', p, pc, pc');
  }

  lemma DialSound(s: State, s': State, p: Pid, c: Choice, pc: Pc, pc': Pc)
    requires Ready(s, p, pc) && p in s.procs && DialStep(s, p, c) == Some(s') && s'.procs[p] == pc'
    requires pc.DialNet? || (pc.DialStash? && s.d.built[pc.t].key !in s.d.stash)
    ensures Sound(s, s', p, pc, pc')
  {
    DialQuietMoves(s, s', p, c, pc, pc');
    QuietIsSound(s, s', p, pc, pc');
  }

  lemma DialKindEffect(s: State, s': State, p: Pid, c: Choice, pc: Pc)
    requires p in s.procs && s.procs[p] == pc && pc.DialKind? && pc.t in s.d.built && DialStep(s, p, c) == Some(s')
    ensures var a := s.d.built[pc.t].key;
            s'.procs[p] == DialJudge(pc.t, pc.protocol, if a in s.d.kinds then Some(s.d.kinds[a]) else None,
                                     LastBuilt(s.d, a), a in s.d.stale)
  {
  }

  lemma DialKindSound(s: State, s': State, p: Pid, c: Choice, pc: Pc, pc': Pc)
    requires Ready(s, p, pc) && p in s.procs && DialStep(s, p, c) == Some(s') && s'.procs[p] == pc'
    requires pc.DialKind?
    ensures Sound(s, s', p, pc, pc')
  {
    RecordedKindFits(s.d, pc.t);
    DialKindEffect(s, s', p, c, pc);
    DialKindMoves(s, s', p, c, pc, pc');
    QuietIsSound(s, s', p, pc, pc');
  }

  lemma H3Sound(s: State, s': State, p: Pid, c: Choice, pc: Pc, pc': Pc)
    requires Ready(s, p, pc) && p in s.procs && H3Step(s, p, c) == Some(s') && s'.procs[p] == pc'
    ensures Sound(s, s', p, pc, pc')
  {
    H3Moves(s, s', p, c, pc, pc');
    if c.Go? {
      var r := Rebuilding(Holder(s));
      BuildKeeps(s.d, H3(pc.addr), HTTP3, r, r);
      BuildGuarantees(s.d, H3(pc.addr), HTTP3, pc);
    } else {
      QuietIsSound(s, s', p, pc, pc');
    }
  }

  lemma RequestGroupSound(s: State, s': State, p: Pid, c: Choice, pc: Pc, pc': Pc)
    requires Ready(s, p, pc) && p in s.procs && Step(s, p, c) == Some(s') && s'.procs[p] == pc'
    requires !InDial(pc) && !InSetup(pc) && Wants(pc).None?
    ensures Sound(s, s', p, pc, pc')
  {
    match pc {
      case ReqCheck(_, _) => CheckSound(s, s', p, c, pc, pc');
      case ReqError(_) => UseSound(s, s', p, c, pc, pc');
      case ReqRead(_, _) => ReadSound(s, s', p, c, pc, pc');
      case ReqUse(_, _, _) => UseSound(s, s', p, c, pc, pc');
      case DropCheck(_, _) => DropSound(s, s', p, c, pc, pc');
      case DropKind(_) => DropSound(s, s', p, c, pc, pc');
      case H3Put(_) => H3Sound(s, s', p, c, pc, pc');
      case _ =>
    }
  }

  predicate InSetup(pc: Pc) {
    pc.SetupStash? || pc.SetupDial? || pc.SetupBuild? || pc.SetupKind? || pc.SetupStore?
  }

  lemma SetupGroupSound(s: State, s': State, p: Pid, c: Choice, pc: Pc, pc': Pc)
    requires Ready(s, p, pc) && p in s.procs && Step(s, p, c) == Some(s') && s'.procs[p] == pc'
    requires InSetup(pc)
    ensures Sound(s, s', p, pc, pc')
  {
    match pc {
      case SetupStash(_) => SetupDialSound(s, s', p, c, pc, pc');
      case SetupDial(_) => SetupDialSound(s, s', p, c, pc, pc');
      case SetupBuild(_, _) => SetupBuildSound(s, s', p, c, pc, pc');
      case SetupKind(_, _) => SetupStoreSound(s, s', p, c, pc, pc');
      case SetupStore(_, _) => SetupStoreSound(s, s', p, c, pc, pc');
    }
  }

  predicate InDial(pc: Pc) {
    pc.DialStash? || pc.DialNet? || pc.DialKind? || pc.DialJudge?
  }

  lemma DialGroupSound(s: State, s': State, p: Pid, c: Choice, pc: Pc, pc': Pc)
    requires Ready(s, p, pc) && p in s.procs && Step(s, p, c) == Some(s') && s'.procs[p] == pc'
    requires InDial(pc)
    ensures Sound(s, s', p, pc, pc')
  {
    match pc {
      case DialStash(t) =>
        if s.d.built[t].key in s.d.stash {
          DialTakeSound(s, s', p, c, t, pc');
        } else {
          DialSound(s, s', p, c, pc, pc');
        }
      case DialNet(_) => DialSound(s, s', p, c, pc, pc');
      case DialKind(_, _) => DialKindSound(s, s', p, c, pc, pc');
      case DialJudge(_, _, _, _, _) =>
        if pc'.DialFailed? {
          DialRefuseSound(s, s', p, c, pc, pc');
        } else {
          DialAcceptSound(s, s', p, c, pc, pc');
        }
    }
  }

  lemma StepSound(s: State, s': State, p: Pid, c: Choice, pc: Pc, pc': Pc)
    requires Ready(s, p, pc) && p in s.procs && Step(s, p, c) == Some(s') && s'.procs[p] == pc'
    ensures Sound(s, s', p, pc, pc')
  {
    if Wants(pc).Some? {
      AcquireSound(s, s', p, c, pc, pc');
    } else if InDial(pc) {
      DialGroupSound(s, s', p, c, pc, pc');
    } else if InSetup(pc) {
      SetupGroupSound(s, s', p, c, pc, pc');
    } else {
      RequestGroupSound(s, s', p, c, pc, pc');
    }
  }

  lemma StepInv(s: State, s': State, p: Pid, c: Choice)
    requires Inv(s) && Step(s, p, c) == Some(s')
    ensures Inv(s')
  {
    InvReady(s, p);
    var pc := if p in s.procs then s.procs[p] else ReqDone;
    if p in s.procs {
      StepSound(s, s', p, c, pc, s'.procs[p]);
    } else {
      SpawnSound(s, s', p, c, s'.procs[p]);
    }
    StepKeepsInv(s, s', p, pc, s'.procs[p]);
  }

  lemma {:induction false} RunKeepsInv(s: State, schedule: seq<(Pid, Choice)>)
    requires Inv(s) && RunFrom(s, schedule).Some?
    ensures Inv(RunFrom(s, schedule).value)
  {
    if schedule != [] {
      var before := schedule[..|schedule| - 1];
      RunKeepsInv(s, before);
      var (p, c) := schedule[|schedule| - 1];
      StepInv(RunFrom(s, before).value, RunFrom(s, schedule).value, p, c);
    }
  }

  /** The invariant holds after every schedule. */
  lemma {:induction false} RunInv(schedule: seq<(Pid, Choice)>)
    requires Run(schedule).Some?
    ensures Inv(Run(schedule).value)
  {
    RunKeepsInv(Init, schedule);
  }
}
