/**
 The lock file protocol of the JSONL event store, as interleaved steps of any number of
 agents. An agent is one `open` of the store inside a process; a process may host several.
 */
module TakeoverLock {
  import opened Wrappers

  type Pid = nat
  type Inode = nat

  datatype LockRecord = LockRecord(lockId: Option<nat>, pid: Pid, openedAt: int)

  /** What names a lock's generation: its id, or a digest of the contents of an old lock without one. */
  datatype Generation = ById(lockId: nat) | ByContents(record: LockRecord)

  /** Claim paths; a successor's name is a digest of its predecessor's path and occupant. */
  datatype ClaimPath = Base(generation: Generation) | Successor(path: ClaimPath, generation: Generation)

  datatype Claim = Claim(path: ClaimPath, inode: Inode)

  /** How many claims of dead claimants a path stands behind. */
  function Depth(path: ClaimPath): nat {
    if path.Base? then 0 else 1 + Depth(path.path)
  }

  /** open() throws rather than claim a path deeper than this. */
  const DEEPEST_CLAIM: nat := 63

  datatype Agent = Agent(pid: Pid, lockId: nat, openedAt: int)

  /** Where an agent is between two file-system operations. */
  datatype Pc =
    | PublishLock
    | ReadLock
    | CheckOwner(existing: Inode)
    | Claiming(existing: Inode, path: ClaimPath, claimStep: ClaimStep)
    | Taking(existing: Inode, claim: Claim, takeStep: TakeStep)
    | Owner(lock: Inode, closing: bool)
    | Stopped

  datatype ClaimStep = PublishClaim | ReadClaim | CheckClaimant(found: Inode)

  datatype TakeStep =
    | RereadLock
    | RecheckOwner
    | PinLock
    | VerifyPin(pin: Inode)
    | UnlinkLock
    | LinkReplacement
    | ReadOwnClaim(won: Option<Inode>)
    | UnlinkClaim(won: Option<Inode>)

  /**
   Files never change once linked, so a file is its inode and `files[inode]` is its record.
   Names that contain a random UUID (candidates, pins) are never shared, so only the lock
   path and the claim paths are part of the state.
   */
  datatype State = State(
    files: seq<LockRecord>,
    lock: Option<Inode>,
    claims: map<ClaimPath, Inode>,
    pcs: map<Agent, Pc>,
    dead: set<Pid>)

  datatype Event =
    | Begin(agent: Agent)               // the process calls open()
    | Run(agent: Agent, claimId: nat)   // the agent performs its next operation; claimId is the UUID it draws
    | GiveUp(agent: Agent)              // a retry bound is reached and open() throws
    | Close(agent: Agent)               // the owner calls close() and reads the lock back
    | Crash(pid: Pid)

  function GenerationOf(record: LockRecord): Generation {
    if record.lockId.Some? then ById(record.lockId.value) else ByContents(record)
  }

  predicate Known(s: State, inode: Inode) {
    inode < |s.files|
  }

  predicate Dead(s: State, inode: Inode) {
    Known(s, inode) && s.files[inode].pid in s.dead
  }

  predicate Live(s: State, a: Agent) {
    a in s.pcs && a.pid !in s.dead
  }

  /** The lock file the agent has published and not yet unlinked. */
  function LockOf(pc: Pc): Option<Inode> {
    match pc
    case Owner(lock, _) => Some(lock)
    case Taking(_, _, ReadOwnClaim(won)) => won
    case Taking(_, _, UnlinkClaim(won)) => won
    case _ => None
  }

  /** A live agent that may write to the log, or is about to release it. */
  predicate Owns(s: State, a: Agent) {
    Live(s, a) && LockOf(s.pcs[a]).Some?
  }

  function LinkLock(s: State, a: Agent): State {
    s.(files := s.files + [LockRecord(Some(a.lockId), a.pid, a.openedAt)], lock := Some(|s.files|))
  }

  /** What the next operation of an agent at `pc` does to the disk; link(2) never overwrites. */
  function Disk(s: State, a: Agent, pc: Pc, claimId: nat): State {
    match pc
    case PublishLock => if s.lock.None? then LinkLock(s, a) else s
    case Claiming(_, path, PublishClaim) =>
      if path in s.claims || Depth(path) > DEEPEST_CLAIM then s
      else s.(files := s.files + [LockRecord(Some(claimId), a.pid, a.openedAt)], claims := s.claims[path := |s.files|])
    case Taking(_, _, UnlinkLock) => s.(lock := None)
    case Taking(_, _, LinkReplacement) => if s.lock.None? then LinkLock(s, a) else s
    case Taking(_, claim, UnlinkClaim(_)) => s.(claims := s.claims - {claim.path})
    case Owner(_, true) => s.(lock := None)
    case _ => s
  }

  /** Where an agent at `pc` is after that operation. */
  function NextPc(s: State, pc: Pc): Pc {
    match pc
    case PublishLock => if s.lock.None? then Owner(|s.files|, false) else ReadLock
    case ReadLock => if s.lock.None? then PublishLock else CheckOwner(s.lock.value)
    case CheckOwner(existing) =>
      if Dead(s, existing) then Claiming(existing, Base(GenerationOf(s.files[existing])), PublishClaim) else Stopped
    case Claiming(existing, path, step) => NextClaiming(s, existing, path, step)
    case Taking(existing, claim, step) => NextTaking(s, existing, claim, step)
    case Owner(_, closing) => if closing then Stopped else pc
    case Stopped => Stopped
  }

  function NextClaiming(s: State, existing: Inode, path: ClaimPath, step: ClaimStep): Pc {
    match step
    case PublishClaim =>
      if Depth(path) > DEEPEST_CLAIM then Stopped
      else if path in s.claims then Claiming(existing, path, ReadClaim)
      else Taking(existing, Claim(path, |s.files|), RereadLock)
    case ReadClaim =>
      Claiming(existing, path, if path in s.claims then CheckClaimant(s.claims[path]) else PublishClaim)
    case CheckClaimant(found) =>
      if Dead(s, found) then Claiming(existing, Successor(path, GenerationOf(s.files[found])), PublishClaim)
      else PublishLock
  }

  function NextTaking(s: State, existing: Inode, claim: Claim, step: TakeStep): Pc {
    var abort := Taking(existing, claim, ReadOwnClaim(None));
    match step
    case RereadLock => if s.lock == Some(existing) then Taking(existing, claim, RecheckOwner) else abort
    case RecheckOwner => if Dead(s, existing) then Taking(existing, claim, PinLock) else abort
    case PinLock => if s.lock.Some? then Taking(existing, claim, VerifyPin(s.lock.value)) else abort
    case VerifyPin(pin) =>
      if s.lock == Some(existing) && pin == existing then Taking(existing, claim, UnlinkLock) else abort
    case UnlinkLock => Taking(existing, claim, LinkReplacement)
    case LinkReplacement =>
      if s.lock.None? then Taking(existing, claim, ReadOwnClaim(Some(|s.files|))) else abort
    case ReadOwnClaim(won) =>
      if claim.path in s.claims && s.claims[claim.path] == claim.inode then Taking(existing, claim, UnlinkClaim(won))
      else AfterClaim(won)
    case UnlinkClaim(won) => AfterClaim(won)
  }

  function AfterClaim(won: Option<Inode>): Pc {
    if won.Some? then Owner(won.value, false) else PublishLock
  }

  /** UUIDs are drawn at most once: an event that reuses one does not happen. */
  predicate Fresh(s: State, id: nat) {
    (forall f <- s.files :: f.lockId != Some(id)) && (forall b <- s.pcs :: b.lockId != id)
  }

  predicate Enabled(s: State, e: Event) {
    match e
    case Begin(a) => a !in s.pcs && a.pid !in s.dead && Fresh(s, a.lockId)
    case Run(a, claimId) => Live(s, a) && Fresh(s, claimId)
    case GiveUp(a) =>
      Live(s, a) && (s.pcs[a].PublishLock? || (s.pcs[a].Claiming? && s.pcs[a].claimStep.PublishClaim?))
    case Close(a) => Live(s, a) && s.pcs[a].Owner?
    case Crash(_) => true
  }

  function PcAfter(s: State, e: Event): Pc
    requires Enabled(s, e) && !e.Crash?
  {
    match e
    case Begin(_) => PublishLock
    case Run(a, _) => NextPc(s, s.pcs[a])
    case GiveUp(_) => Stopped
    case Close(a) => if s.lock == Some(s.pcs[a].lock) then s.pcs[a].(closing := true) else Stopped
  }

  function DiskAfter(s: State, e: Event): State
    requires Enabled(s, e)
  {
    if e.Run? then Disk(s, e.agent, s.pcs[e.agent], e.claimId) else s
  }

  function Next(s: State, e: Event): State {
    if !Enabled(s, e) then s
    else if e.Crash? then s.(dead := s.dead + {e.pid})
    else DiskAfter(s, e).(pcs := s.pcs[e.agent := PcAfter(s, e)])
  }

  /** The state after a whole interleaving. */
  function RunAll(s: State, events: seq<Event>): State
    decreases |events|
  {
    if events == [] then s else RunAll(Next(s, events[0]), events[1..])
  }

  ghost predicate DistinctGenerations(s: State) {
    forall i, j | 0 <= i < j < |s.files| :: GenerationOf(s.files[i]) != GenerationOf(s.files[j])
  }

  ghost predicate DiskInv(s: State) {
    && (s.lock.Some? ==> Known(s, s.lock.value))
    && (forall path <- s.claims :: Known(s, s.claims[path]))
    && DistinctGenerations(s)
  }

  /** Whatever earlier processes left on disk, with no agent running yet. */
  ghost predicate Initial(s: State) {
    s.pcs == map[] && DiskInv(s)
  }

  // ---- The successor chain of a generation ----

  /** `path` was reached from the generation's base path over claims whose owners are dead. */
  ghost predicate Chain(s: State, g: Generation, path: ClaimPath) {
    match path
    case Base(g') => g' == g
    case Successor(p, g') =>
      Chain(s, g, p) && p in s.claims && Dead(s, s.claims[p]) && g' == GenerationOf(s.files[s.claims[p]])
  }

  ghost predicate StrictlyBefore(p: ClaimPath, q: ClaimPath) {
    q.Successor? && (p == q.path || StrictlyBefore(p, q.path))
  }

  function BaseOf(path: ClaimPath): Generation {
    if path.Base? then path.generation else BaseOf(path.path)
  }

  lemma {:induction false} AncestorIsDead(s: State, g: Generation, p: ClaimPath, q: ClaimPath)
    requires Chain(s, g, q) && StrictlyBefore(p, q)
    ensures p in s.claims && Dead(s, s.claims[p])
    ensures var child := Successor(p, GenerationOf(s.files[s.claims[p]])); child == q || StrictlyBefore(child, q)
    decreases q
  {
    if p != q.path {
      AncestorIsDead(s, g, p, q.path);
    }
  }

  lemma {:induction false} BaseIsFirst(s: State, g: Generation, p: ClaimPath)
    requires Chain(s, g, p)
    ensures p == Base(g) || StrictlyBefore(Base(g), p)
  {
    if p.Successor? {
      BaseIsFirst(s, g, p.path);
    }
  }

  /** A generation's claim paths form one line. */
  lemma {:induction false} ChainIsLinear(s: State, g: Generation, p: ClaimPath, q: ClaimPath)
    requires Chain(s, g, p) && Chain(s, g, q)
    ensures p == q || StrictlyBefore(p, q) || StrictlyBefore(q, p)
    decreases q
  {
    if q.Base? {
      BaseIsFirst(s, g, p);
    } else {
      ChainIsLinear(s, g, p, q.path);
      if StrictlyBefore(q.path, p) {
        AncestorIsDead(s, g, q.path, p);
      }
    }
  }

  // ---- The invariant ----

  predicate HasTarget(pc: Pc) {
    pc.Claiming? || pc.Taking?
  }

  function PathOf(pc: Pc): ClaimPath
    requires HasTarget(pc)
  {
    if pc.Claiming? then pc.path else pc.claim.path
  }

  /** Its target is a stale lock; while that lock is still published, the agent is on its chain. */
  ghost predicate TargetInv(s: State, pc: Pc) {
    && (pc.CheckOwner? ==> Known(s, pc.existing))
    && (HasTarget(pc) ==>
          && Dead(s, pc.existing) && BaseOf(PathOf(pc)) == GenerationOf(s.files[pc.existing])
          && (s.lock == Some(pc.existing) ==> Chain(s, GenerationOf(s.files[pc.existing]), PathOf(pc))))
  }

  /** A claimant that was read is still there, unless the stale lock is gone. */
  ghost predicate ClaimantInv(s: State, pc: Pc) {
    pc.Claiming? && pc.claimStep.CheckClaimant? ==>
      && Known(s, pc.claimStep.found)
      && (s.lock == Some(pc.existing) ==> pc.path in s.claims && s.claims[pc.path] == pc.claimStep.found)
  }

  /** The agent's claim stays where it linked it, and is released only when the stale lock is gone. */
  ghost predicate TakingInv(s: State, a: Agent, pc: Pc) {
    pc.Taking? ==>
      && Known(s, pc.claim.inode) && s.files[pc.claim.inode].pid == a.pid
      && pc.claim.path in s.claims && s.claims[pc.claim.path] == pc.claim.inode
      && match pc.takeStep
         case VerifyPin(pin) => pin == pc.existing || s.lock != Some(pc.existing)
         case UnlinkLock => s.lock == Some(pc.existing)
         case LinkReplacement => s.lock != Some(pc.existing)
         case ReadOwnClaim(_) => s.lock != Some(pc.existing)
         case UnlinkClaim(_) => s.lock != Some(pc.existing)
         case _ => true
  }

  /** The lock of a live owner stays published; nobody publishes twice under one lock id. */
  ghost predicate LockInv(s: State, a: Agent, pc: Pc) {
    && (LockOf(pc).Some? ==>
          Known(s, LockOf(pc).value) && s.files[LockOf(pc).value].pid == a.pid && s.lock == LockOf(pc))
    && (LockOf(pc).None? && !pc.Stopped? ==> forall f <- s.files :: f.lockId != Some(a.lockId))
  }

  /** What one agent may rely on while its process lives. */
  ghost predicate AgentInv(s: State, a: Agent, pc: Pc) {
    TargetInv(s, pc) && ClaimantInv(s, pc) && TakingInv(s, a, pc) && LockInv(s, a, pc)
  }

  predicate Holds(pc: Pc, inode: Inode) {
    (pc.Taking? && pc.claim.inode == inode) || LockOf(pc) == Some(inode)
  }

  ghost predicate Inv(s: State) {
    && DiskInv(s)
    && (forall a, b | a in s.pcs && b in s.pcs && a.lockId == b.lockId :: a == b)
    && (forall a | Live(s, a) :: AgentInv(s, a, s.pcs[a]))
    && (forall a, b, inode: Inode | Live(s, a) && Live(s, b) && Holds(s.pcs[a], inode) && Holds(s.pcs[b], inode) :: a == b)
  }

  /** While a stale lock is published, at most one live agent holds a claim on its chain. */
  lemma OneClaimant(s: State, a: Agent, b: Agent)
    requires Inv(s) && Live(s, a) && Live(s, b)
    requires s.pcs[a].Taking? && s.pcs[b].Taking?
    requires s.pcs[a].existing == s.pcs[b].existing && s.lock == Some(s.pcs[a].existing)
    ensures a == b
  {
    var p, q := s.pcs[a].claim.path, s.pcs[b].claim.path;
    var g := GenerationOf(s.files[s.pcs[a].existing]);
    assert AgentInv(s, a, s.pcs[a]) && AgentInv(s, b, s.pcs[b]);
    ChainIsLinear(s, g, p, q);
    if p != q {
      if StrictlyBefore(p, q) { AncestorIsDead(s, g, p, q); } else { AncestorIsDead(s, g, q, p); }
    }
    assert Holds(s.pcs[a], s.claims[p]) && Holds(s.pcs[b], s.claims[p]);
  }

  ghost predicate DeadClaimsStay(s: State, s': State) {
    forall p <- s.claims | Dead(s, s.claims[p]) :: p in s'.claims && s'.claims[p] == s.claims[p]
  }

  lemma {:induction false} ChainIsStable(s: State, s': State, g: Generation, path: ClaimPath)
    requires Chain(s, g, path) && DeadClaimsStay(s, s')
    requires s.files <= s'.files && s.dead <= s'.dead
    ensures Chain(s', g, path)
  {
    if path.Successor? {
      ChainIsStable(s, s', g, path.path);
    }
  }

  ghost predicate ClaimStays(s: State, s': State, path: ClaimPath) {
    path in s.claims ==> path in s'.claims && s'.claims[path] == s.claims[path]
  }

  /** What a change of the disk must respect for the invariant of an agent at `pc` to survive. */
  ghost predicate Respects(s: State, s': State, b: Agent, pc: Pc) {
    && s.files <= s'.files && s.dead <= s'.dead
    && (forall i | |s.files| <= i < |s'.files| :: s'.files[i].lockId != Some(b.lockId))
    && DeadClaimsStay(s, s')
    && (pc.Taking? ==> ClaimStays(s, s', pc.claim.path))
    && (pc.Claiming? && s.lock == Some(pc.existing) ==> ClaimStays(s, s', pc.path))
    && (|| s'.lock == s.lock
        || (s'.lock.None? && LockOf(pc).None? && !(pc.Taking? && pc.takeStep.UnlinkLock?))
        || (s.lock.None? && s'.lock == Some(|s.files|)))
  }

  lemma RespectKeepsAgentInv(s: State, s': State, b: Agent, pc: Pc)
    requires AgentInv(s, b, pc) && Respects(s, s', b, pc)
    ensures AgentInv(s', b, pc)
  {
    if HasTarget(pc) && s'.lock == Some(pc.existing) {
      assert s.lock == Some(pc.existing);
      ChainIsStable(s, s', GenerationOf(s.files[pc.existing]), PathOf(pc));
    }
  }

  lemma LinkRespects(s: State, a: Agent, b: Agent, pc: Pc)
    requires s.lock.None? && a.lockId != b.lockId
    ensures Respects(s, LinkLock(s, a), b, pc)
  {
  }

  lemma ClaimRespects(s: State, a: Agent, path: ClaimPath, claimId: nat, b: Agent, pc: Pc)
    requires path !in s.claims && claimId != b.lockId
    ensures Respects(s, s.(files := s.files + [LockRecord(Some(claimId), a.pid, a.openedAt)], claims := s.claims[path := |s.files|]), b, pc)
  {
  }

  lemma UnlinkRespects(s: State, b: Agent, pc: Pc)
    requires LockOf(pc).None? && !(pc.Taking? && pc.takeStep.UnlinkLock?)
    ensures Respects(s, s.(lock := None), b, pc)
  {
  }

  lemma ReleaseRespects(s: State, path: ClaimPath, b: Agent, pc: Pc)
    requires path in s.claims && !Dead(s, s.claims[path])
    requires pc.Taking? ==> pc.claim.path != path
    requires pc.Claiming? && s.lock == Some(pc.existing) ==> pc.path != path
    ensures Respects(s, s.(claims := s.claims - {path}), b, pc)
  {
  }

  /** Of two live agents at most one is about to unlink the lock, or holds it. */
  lemma OnlyOneUnlinks(s: State, a: Agent, b: Agent)
    requires Inv(s) && Live(s, a) && Live(s, b) && a != b
    requires s.pcs[a].Owner? || (s.pcs[a].Taking? && s.pcs[a].takeStep.UnlinkLock?)
    ensures LockOf(s.pcs[b]).None? && !(s.pcs[b].Taking? && s.pcs[b].takeStep.UnlinkLock?)
  {
    var pa, pb := s.pcs[a], s.pcs[b];
    assert AgentInv(s, a, pa) && AgentInv(s, b, pb);
    if pa.Owner? {
      assert Holds(pa, pa.lock) && (LockOf(pb) == Some(pa.lock) ==> Holds(pb, pa.lock));
    } else if pb.Taking? && pb.takeStep.UnlinkLock? {
      OneClaimant(s, a, b);
    }
  }

  lemma OnlyOwnClaimIsReleased(s: State, a: Agent, b: Agent)
    requires Inv(s) && Live(s, a) && Live(s, b) && a != b
    requires s.pcs[a].Taking? && s.pcs[a].takeStep.UnlinkClaim?
    ensures var (path, pb) := (s.pcs[a].claim.path, s.pcs[b]);
      && path in s.claims && !Dead(s, s.claims[path])
      && (pb.Taking? ==> pb.claim.path != path)
      && (pb.Claiming? && s.lock == Some(pb.existing) ==> pb.path != path)
  {
    var pa, pb := s.pcs[a], s.pcs[b];
    assert AgentInv(s, a, pa) && AgentInv(s, b, pb);
    assert Holds(pa, pa.claim.inode);
    if pb.Taking? { assert Holds(pb, pb.claim.inode); }
  }

  /** No agent's next operation disturbs another live agent. */
  lemma DiskRespects(s: State, a: Agent, claimId: nat, b: Agent)
    requires Inv(s) && Live(s, a) && Live(s, b) && a != b && Fresh(s, claimId)
    ensures Respects(s, Disk(s, a, s.pcs[a], claimId), b, s.pcs[b])
  {
    var pc := s.pcs[b];
    match s.pcs[a]
    case PublishLock => if s.lock.None? { LinkRespects(s, a, b, pc); }
    case Taking(_, _, LinkReplacement) => if s.lock.None? { LinkRespects(s, a, b, pc); }
    case Claiming(_, path, PublishClaim) =>
      if path !in s.claims && Depth(path) <= DEEPEST_CLAIM { ClaimRespects(s, a, path, claimId, b, pc); }
    case Taking(_, _, UnlinkLock) => OnlyOneUnlinks(s, a, b); UnlinkRespects(s, b, pc);
    case Owner(_, true) => OnlyOneUnlinks(s, a, b); UnlinkRespects(s, b, pc);
    case Taking(_, claim, UnlinkClaim(_)) => OnlyOwnClaimIsReleased(s, a, b); ReleaseRespects(s, claim.path, b, pc);
    case _ =>
  }

  lemma DiskKeepsDiskInv(s: State, a: Agent, claimId: nat)
    requires Inv(s) && Live(s, a) && Fresh(s, claimId)
    ensures DiskInv(Disk(s, a, s.pcs[a], claimId))
  {
    assert AgentInv(s, a, s.pcs[a]);
    assert forall f <- s.files :: GenerationOf(f) != ById(claimId);
    if LockOf(s.pcs[a]).None? && !s.pcs[a].Stopped? {
      assert forall f <- s.files :: GenerationOf(f) != ById(a.lockId);
    }
  }

  lemma ClaimingKeepsOwnInv(s: State, a: Agent, pc: Pc, claimId: nat)
    requires DiskInv(s) && AgentInv(s, a, pc) && pc.Claiming? && claimId != a.lockId
    ensures AgentInv(Disk(s, a, pc, claimId), a, NextPc(s, pc))
  {
    var s' := Disk(s, a, pc, claimId);
    if s.lock == Some(pc.existing) {
      ChainIsStable(s, s', GenerationOf(s.files[pc.existing]), pc.path);
    }
  }

  lemma ReadingKeepsOwnInv(s: State, a: Agent, pc: Pc)
    requires DiskInv(s) && AgentInv(s, a, pc) && pc.Taking?
    requires !pc.takeStep.UnlinkLock? && !pc.takeStep.LinkReplacement? && !pc.takeStep.UnlinkClaim?
    ensures AgentInv(s, a, NextPc(s, pc))
  {
  }

  lemma WritingKeepsOwnInv(s: State, a: Agent, pc: Pc, claimId: nat)
    requires DiskInv(s) && AgentInv(s, a, pc) && pc.Taking?
    requires pc.takeStep.UnlinkLock? || pc.takeStep.LinkReplacement? || pc.takeStep.UnlinkClaim?
    ensures AgentInv(Disk(s, a, pc, claimId), a, NextPc(s, pc))
  {
  }

  lemma TakingKeepsOwnInv(s: State, a: Agent, pc: Pc, claimId: nat)
    requires DiskInv(s) && AgentInv(s, a, pc) && pc.Taking?
    ensures AgentInv(Disk(s, a, pc, claimId), a, NextPc(s, pc))
  {
    if pc.takeStep.UnlinkLock? || pc.takeStep.LinkReplacement? || pc.takeStep.UnlinkClaim? {
      WritingKeepsOwnInv(s, a, pc, claimId);
    } else {
      ReadingKeepsOwnInv(s, a, pc);
    }
  }

  lemma RunKeepsOwnInv(s: State, a: Agent, claimId: nat)
    requires Inv(s) && Live(s, a) && Fresh(s, claimId)
    ensures AgentInv(Disk(s, a, s.pcs[a], claimId), a, NextPc(s, s.pcs[a]))
  {
    assert AgentInv(s, a, s.pcs[a]);
    match s.pcs[a]
    case Claiming(_, _, _) => ClaimingKeepsOwnInv(s, a, s.pcs[a], claimId);
    case Taking(_, _, _) => TakingKeepsOwnInv(s, a, s.pcs[a], claimId);
    case _ =>
  }

  /** Every event keeps the part of the invariant that speaks of one agent. */
  lemma NextKeepsAgentInv(s: State, e: Event, b: Agent)
    requires Inv(s) && Enabled(s, e) && !e.Crash? && Live(Next(s, e), b)
    ensures AgentInv(DiskAfter(s, e), b, Next(s, e).pcs[b])
  {
    if b == e.agent {
      if e.Run? {
        RunKeepsOwnInv(s, b, e.claimId);
      } else if b in s.pcs {
        assert AgentInv(s, b, s.pcs[b]);
      }
    } else {
      assert AgentInv(s, b, s.pcs[b]);
      if e.Run? {
        DiskRespects(s, e.agent, e.claimId, b);
        RespectKeepsAgentInv(s, DiskAfter(s, e), b, s.pcs[b]);
      }
    }
  }

  /** An inode held after an event is new, or was held by the same agent before. */
  lemma HeldBefore(s: State, e: Event, b: Agent, inode: Inode)
    requires Inv(s) && Enabled(s, e) && !e.Crash? && Live(Next(s, e), b) && Holds(Next(s, e).pcs[b], inode)
    ensures (b in s.pcs && Holds(s.pcs[b], inode) && Known(s, inode)) || (b == e.agent && inode == |s.files|)
  {
    if b in s.pcs {
      assert AgentInv(s, b, s.pcs[b]);
    }
  }

  lemma OnlyDiskMatters(s: State, s': State, b: Agent, pc: Pc)
    requires AgentInv(s, b, pc) && s' == s.(pcs := s'.pcs)
    ensures AgentInv(s', b, pc)
  {
    RespectKeepsAgentInv(s, s', b, pc);
  }

  lemma CrashKeepsInv(s: State, pid: Pid)
    requires Inv(s)
    ensures Inv(s.(dead := s.dead + {pid}))
  {
    var s' := s.(dead := s.dead + {pid});
    forall b | Live(s', b) ensures AgentInv(s', b, s'.pcs[b]) {
      assert Live(s, b);
      RespectKeepsAgentInv(s, s', b, s.pcs[b]);
    }
  }

  lemma NextKeepsAgents(s: State, e: Event)
    requires Inv(s) && Enabled(s, e) && !e.Crash?
    ensures forall b | Live(Next(s, e), b) :: AgentInv(Next(s, e), b, Next(s, e).pcs[b])
  {
    var s' := Next(s, e);
    forall b | Live(s', b) ensures AgentInv(s', b, s'.pcs[b]) {
      NextKeepsAgentInv(s, e, b);
      OnlyDiskMatters(DiskAfter(s, e), s', b, s'.pcs[b]);
    }
  }

  lemma NextKeepsHolders(s: State, e: Event, b: Agent, c: Agent, inode: Inode)
    requires Inv(s) && Enabled(s, e) && !e.Crash? && Live(Next(s, e), b) && Live(Next(s, e), c)
    requires Holds(Next(s, e).pcs[b], inode) && Holds(Next(s, e).pcs[c], inode)
    ensures b == c
  {
    HeldBefore(s, e, b, inode);
    HeldBefore(s, e, c, inode);
  }

  lemma NextKeepsDisk(s: State, e: Event)
    requires Inv(s) && Enabled(s, e) && !e.Crash?
    ensures DiskInv(Next(s, e))
    ensures forall a, b | a in Next(s, e).pcs && b in Next(s, e).pcs && a.lockId == b.lockId :: a == b
  {
    if e.Run? {
      DiskKeepsDiskInv(s, e.agent, e.claimId);
    }
  }

  lemma NextKeepsInv(s: State, e: Event)
    requires Inv(s) && Enabled(s, e) && !e.Crash?
    ensures Inv(Next(s, e))
  {
    var s' := Next(s, e);
    NextKeepsDisk(s, e);
    NextKeepsAgents(s, e);
    forall b, c, inode: Inode | Live(s', b) && Live(s', c) && Holds(s'.pcs[b], inode) && Holds(s'.pcs[c], inode)
      ensures b == c
    {
      NextKeepsHolders(s, e, b, c, inode);
    }
  }

  lemma {:induction false} RunAllKeepsInv(s: State, events: seq<Event>)
    requires Inv(s)
    ensures Inv(RunAll(s, events))
    decreases |events|
  {
    if events != [] {
      if events[0].Crash? {
        CrashKeepsInv(s, events[0].pid);
      } else if Enabled(s, events[0]) {
        NextKeepsInv(s, events[0]);
      }
      RunAllKeepsInv(Next(s, events[0]), events[1..]);
    }
  }

  // ---- Main results ----

  /** Over every interleaving with crashes anywhere, two live agents never both own the lock. */
  lemma MutualExclusion(s: State, events: seq<Event>, a: Agent, b: Agent)
    requires Initial(s)
    requires Owns(RunAll(s, events), a) && Owns(RunAll(s, events), b)
    ensures a == b
  {
    RunAllKeepsInv(s, events);
    var s' := RunAll(s, events);
    assert AgentInv(s', a, s'.pcs[a]) && AgentInv(s', b, s'.pcs[b]);
    assert Holds(s'.pcs[a], s'.lock.value) && Holds(s'.pcs[b], s'.lock.value);
  }

  /** In every reachable state the lock of a live owner is published, and names the owner's process. */
  lemma OwnerIsPublished(s: State, events: seq<Event>, a: Agent)
    requires Initial(s) && Owns(RunAll(s, events), a)
    ensures var s' := RunAll(s, events);
      s'.lock == LockOf(s'.pcs[a]) && s'.lock.value < |s'.files| && s'.files[s'.lock.value].pid == a.pid
  {
    RunAllKeepsInv(s, events);
    assert AgentInv(RunAll(s, events), a, RunAll(s, events).pcs[a]);
  }

  /** In every reachable state, while a dead owner's lock is published, one live agent at most holds a claim on it. */
  lemma OneClaimantPerStaleLock(s: State, events: seq<Event>, a: Agent, b: Agent)
    requires Initial(s)
    requires var s' := RunAll(s, events);
      && Live(s', a) && s'.pcs[a].Taking? && s'.lock == Some(s'.pcs[a].existing)
      && Live(s', b) && s'.pcs[b].Taking? && s'.lock == Some(s'.pcs[b].existing)
    ensures a == b
  {
    RunAllKeepsInv(s, events);
    OneClaimant(RunAll(s, events), a, b);
  }

  // ---- When a stale lock can be taken over ----

  lemma {:induction false} RunAppend(s: State, first: seq<Event>, second: seq<Event>)
    ensures RunAll(s, first + second) == RunAll(RunAll(s, first), second)
    decreases |first|
  {
    if first == [] {
      assert first + second == second;
    } else {
      assert (first + second)[1..] == first[1..] + second;
      RunAppend(Next(s, first[0]), first[1..], second);
    }
  }

  ghost predicate AllBy(events: seq<Event>, a: Agent) {
    forall e <- events :: !e.Crash? && e.agent == a
  }

  /** One more operation of a live agent at the end of a run. */
  lemma Advance(s: State, events: seq<Event>, a: Agent, id: nat) returns (events': seq<Event>)
    requires Live(RunAll(s, events), a) && Fresh(RunAll(s, events), id) && AllBy(events, a)
    ensures AllBy(events', a)
    ensures var (t, t') := (RunAll(s, events), RunAll(s, events'));
      && t' == Disk(t, a, t.pcs[a], id).(pcs := t.pcs[a := NextPc(t, t.pcs[a])])
      && (t'.files == t.files ==> Fresh(t', id))
      && (forall id' | Fresh(t, id') && id' != id && id' != a.lockId :: Fresh(t', id'))
  {
    events' := events + [Run(a, id)];
    RunAppend(s, events, [Run(a, id)]);
    var t := RunAll(s, events);
    assert [Run(a, id)][1..] == [];
    assert RunAll(t, [Run(a, id)]) == Next(t, Run(a, id));
  }

  lemma {:induction false} BeforeIsShallower(p: ClaimPath, q: ClaimPath)
    requires StrictlyBefore(p, q)
    ensures Depth(p) < Depth(q)
    decreases q
  {
    if p != q.path { BeforeIsShallower(p, q.path); }
  }

  /** Where the agent stands on the chain of the stale lock: at the free path, or before it. */
  ghost predicate OnTheWay(t: State, a: Agent, free: ClaimPath) {
    && Live(t, a) && t.pcs[a].Claiming? && t.pcs[a].claimStep == PublishClaim
    && (t.pcs[a].path == free || StrictlyBefore(t.pcs[a].path, free))
  }

  /** The agent finds the claim of a dead claimant, and goes on to its successor. */
  lemma PassDeadClaim(s: State, events: seq<Event>, a: Agent, id: nat) returns (events': seq<Event>)
    requires var t := RunAll(s, events);
      && Live(t, a) && Fresh(t, id) && AllBy(events, a) && t.pcs[a].Claiming? && t.pcs[a].claimStep == PublishClaim
      && var path := t.pcs[a].path; Depth(path) <= DEEPEST_CLAIM && path in t.claims && Dead(t, t.claims[path])
    ensures AllBy(events', a)
    ensures var (t, path) := (RunAll(s, events), RunAll(s, events).pcs[a].path);
      RunAll(s, events') == t.(pcs := t.pcs[a :=
        Claiming(t.pcs[a].existing, Successor(path, GenerationOf(t.files[t.claims[path]])), PublishClaim)])
  {
    events' := Advance(s, events, a, id);
    events' := Advance(s, events', a, id);
    events' := Advance(s, events', a, id);
  }

  /** The agent walks over dead claims until it comes to the free path; the disk does not change meanwhile. */
  lemma {:induction false} WalkChain(s: State, events: seq<Event>, a: Agent, id: nat, g: Generation, free: ClaimPath)
    returns (events': seq<Event>)
    requires var t := RunAll(s, events);
      OnTheWay(t, a, free) && Fresh(t, id) && AllBy(events, a) && Chain(t, g, free) && Depth(free) <= DEEPEST_CLAIM
    ensures AllBy(events', a)
    ensures var (t, t') := (RunAll(s, events), RunAll(s, events'));
      && t' == t.(pcs := t.pcs[a := Claiming(t.pcs[a].existing, free, PublishClaim)])
    decreases Depth(free) - Depth(RunAll(s, events).pcs[a].path)
  {
    events' := events;
    var path := RunAll(s, events).pcs[a].path;
    if path != free {
      AncestorIsDead(RunAll(s, events), g, path, free);
      BeforeIsShallower(path, free);
      events' := PassDeadClaim(s, events', a, id);
      ChainIsStable(RunAll(s, events), RunAll(s, events'), g, free);
      events' := WalkChain(s, events', a, id, g, free);
    }
  }

  ghost predicate TakesOver(t: State, a: Agent, id: nat, step: TakeStep) {
    && Live(t, a) && Fresh(t, id) && id != a.lockId
    && t.pcs[a].Taking? && t.pcs[a].takeStep == step
    && t.lock == Some(t.pcs[a].existing) && Dead(t, t.pcs[a].existing)
  }

  lemma CheckStaleLock(s: State, events: seq<Event>, a: Agent, id: nat) returns (events': seq<Event>)
    requires TakesOver(RunAll(s, events), a, id, RereadLock) && AllBy(events, a)
    ensures AllBy(events', a) && TakesOver(RunAll(s, events'), a, id, UnlinkLock)
  {
    events' := Advance(s, events, a, id);
    assert TakesOver(RunAll(s, events'), a, id, RecheckOwner);
    events' := Advance(s, events', a, id);
    assert TakesOver(RunAll(s, events'), a, id, PinLock);
    events' := Advance(s, events', a, id);
    events' := Advance(s, events', a, id);
  }

  lemma ClaimFreePath(s: State, events: seq<Event>, a: Agent, id: nat, id': nat) returns (events': seq<Event>)
    requires var t := RunAll(s, events);
      && Live(t, a) && Fresh(t, id) && Fresh(t, id') && id != id' && id' != a.lockId && AllBy(events, a)
      && t.pcs[a].Claiming? && t.pcs[a].claimStep == PublishClaim
      && t.pcs[a].path !in t.claims && Depth(t.pcs[a].path) <= DEEPEST_CLAIM
      && t.lock == Some(t.pcs[a].existing) && Dead(t, t.pcs[a].existing)
    ensures AllBy(events', a) && TakesOver(RunAll(s, events'), a, id', RereadLock)
  {
    events' := Advance(s, events, a, id);
  }

  lemma ReplaceLock(s: State, events: seq<Event>, a: Agent, id: nat) returns (events': seq<Event>)
    requires TakesOver(RunAll(s, events), a, id, UnlinkLock) && AllBy(events, a)
    ensures AllBy(events', a) && Owns(RunAll(s, events'), a)
  {
    events' := Advance(s, events, a, id);
    assert RunAll(s, events').lock.None?;
    events' := Advance(s, events', a, id);
  }

  /** From a free claim path, the agent replaces the stale lock by its own. */
  lemma TakeOver(s: State, events: seq<Event>, a: Agent, id: nat, id': nat) returns (events': seq<Event>)
    requires var t := RunAll(s, events);
      && Live(t, a) && Fresh(t, id) && Fresh(t, id') && id != id' && id' != a.lockId && AllBy(events, a)
      && t.pcs[a].Claiming? && t.pcs[a].claimStep == PublishClaim
      && t.pcs[a].path !in t.claims && Depth(t.pcs[a].path) <= DEEPEST_CLAIM
      && t.lock == Some(t.pcs[a].existing) && Dead(t, t.pcs[a].existing)
    ensures AllBy(events', a) && Owns(RunAll(s, events'), a)
  {
    events' := ClaimFreePath(s, events, a, id, id');
    events' := CheckStaleLock(s, events', a, id');
    events' := ReplaceLock(s, events', a, id');
  }

  lemma BeginAlone(s: State, a: Agent) returns (events: seq<Event>)
    requires Enabled(s, Begin(a))
    ensures AllBy(events, a) && RunAll(s, events) == s.(pcs := s.pcs[a := PublishLock])
  {
    events := [Begin(a)];
    assert events[1..] == [];
  }

  lemma FindStaleLock(s: State, events: seq<Event>, a: Agent, id: nat) returns (events': seq<Event>)
    requires var t := RunAll(s, events);
      Live(t, a) && Fresh(t, id) && AllBy(events, a) && t.pcs[a] == PublishLock && t.lock.Some? && Dead(t, t.lock.value)
    ensures AllBy(events', a)
    ensures var t := RunAll(s, events);
      RunAll(s, events') == t.(pcs := t.pcs[a := Claiming(t.lock.value, Base(GenerationOf(t.files[t.lock.value])), PublishClaim)])
  {
    events' := Advance(s, events, a, id);
    events' := Advance(s, events', a, id);
    events' := Advance(s, events', a, id);
  }

  /** The lock is free, or its owner is dead and the chain of its generation leads over dead claims to a free path that is not
      too deep. */
  ghost predicate Takeable(s: State) {
    || s.lock.None?
    || (&& Dead(s, s.lock.value)
        && exists path :: Chain(s, GenerationOf(s.files[s.lock.value]), path) && path !in s.claims && Depth(path) <= DEEPEST_CLAIM)
  }

  lemma TakeStaleLock(s: State, a: Agent, id: nat, id': nat) returns (events: seq<Event>)
    requires Enabled(s, Begin(a)) && Fresh(s, id) && Fresh(s, id') && id != id' && a.lockId !in {id, id'}
    requires Takeable(s) && s.lock.Some?
    ensures AllBy(events, a) && Owns(RunAll(s, events), a)
  {
    var g := GenerationOf(s.files[s.lock.value]);
    var free :| Chain(s, g, free) && free !in s.claims && Depth(free) <= DEEPEST_CLAIM;
    events := BeginAlone(s, a);
    events := FindStaleLock(s, events, a, id);
    BaseIsFirst(s, g, free);
    ChainIsStable(s, RunAll(s, events), g, free);
    events := WalkChain(s, events, a, id, g, free);
    events := TakeOver(s, events, a, id, id');
  }

  /** The agent reads, and has changed nothing: it has found no lock it could take over. */
  ghost predicate Looking(s: State, pc: Pc) {
    match pc
    case PublishLock => true
    case ReadLock => true
    case CheckOwner(existing) => s.lock == Some(existing)
    case Claiming(existing, path, step) =>
      && s.lock == Some(existing) && Dead(s, existing) && Chain(s, GenerationOf(s.files[existing]), path)
      && (step.PublishClaim? || path in s.claims)
      && (step.CheckClaimant? ==> s.claims[path] == step.found)
    case Stopped => true
    case _ => false
  }

  lemma LookingGoesOn(s: State, a: Agent, pc: Pc, claimId: nat)
    requires !Takeable(s) && Looking(s, pc)
    ensures Disk(s, a, pc, claimId) == s && Looking(s, NextPc(s, pc))
  {
  }

  lemma LookingChangesNothing(s: State, e: Event)
    requires !Takeable(s) && !e.Crash? && (e.agent in s.pcs ==> Looking(s, s.pcs[e.agent]))
    ensures var s' := Next(s, e);
      && s' == s.(pcs := s'.pcs)
      && (s'.pcs == s.pcs || (s'.pcs.Keys == s.pcs.Keys + {e.agent} && Looking(s, s'.pcs[e.agent])))
      && forall b <- s.pcs | b != e.agent :: s'.pcs[b] == s.pcs[b]
  {
    if e.Run? && e.agent in s.pcs { LookingGoesOn(s, e.agent, s.pcs[e.agent], e.claimId); }
  }

  lemma {:induction false} OnlyPcsMatter(s: State, t: State, g: Generation, path: ClaimPath)
    requires t == s.(pcs := t.pcs)
    ensures Chain(t, g, path) == Chain(s, g, path)
  {
    if path.Successor? { OnlyPcsMatter(s, t, g, path.path); }
  }

  lemma SameDisk(s: State, t: State)
    requires t == s.(pcs := t.pcs)
    ensures Takeable(t) == Takeable(s) && forall pc :: Looking(t, pc) == Looking(s, pc)
  {
    forall g, path ensures Chain(t, g, path) == Chain(s, g, path) { OnlyPcsMatter(s, t, g, path); }
  }

  lemma {:induction false} LoneAgentOnlyLooks(s: State, a: Agent, events: seq<Event>)
    requires !Takeable(s) && (a in s.pcs ==> Looking(s, s.pcs[a])) && AllBy(events, a)
    ensures !Owns(RunAll(s, events), a)
    decreases |events|
  {
    if events != [] {
      LookingChangesNothing(s, events[0]);
      SameDisk(s, Next(s, events[0]));
      LoneAgentOnlyLooks(Next(s, events[0]), a, events[1..]);
    }
  }

  /** An agent that opens the store, and is never disturbed, can come to own the lock exactly when it is takeable. */
  lemma LoneAgentGetsTheLockIff(s: State, a: Agent, id: nat, id': nat)
    requires Enabled(s, Begin(a)) && Fresh(s, id) && Fresh(s, id') && id != id' && a.lockId !in {id, id'}
    ensures (exists events :: AllBy(events, a) && Owns(RunAll(s, events), a)) <==> Takeable(s)
  {
    if Takeable(s) {
      var events;
      if s.lock.None? {
        events := BeginAlone(s, a);
        events := Advance(s, events, a, id);
      } else {
        events := TakeStaleLock(s, a, id, id');
      }
      assert AllBy(events, a) && Owns(RunAll(s, events), a);
    } else {
      forall events | AllBy(events, a) ensures !Owns(RunAll(s, events), a) {
        LoneAgentOnlyLooks(s, a, events);
      }
    }
  }

  // ---- A lock that nobody takes over ----

  /** The lock's owner is dead, and so is whoever claimed a path on its chain, down to the deepest that may be claimed. */
  ghost predicate Blocked(s: State) {
    && s.lock.Some? && Dead(s, s.lock.value)
    && forall path | Chain(s, GenerationOf(s.files[s.lock.value]), path) && Depth(path) <= DEEPEST_CLAIM ::
         path in s.claims && Dead(s, s.claims[path])
  }

  /** Nobody can have got anywhere. */
  ghost predicate AllLook(s: State) {
    Blocked(s) && forall a <- s.pcs :: Looking(s, s.pcs[a])
  }

  lemma {:induction false} DeathAddsNoPath(s: State, dead: set<Pid>, path: ClaimPath)
    requires Blocked(s) && s.dead <= dead && Depth(path) <= DEEPEST_CLAIM + 1
    ensures var g := GenerationOf(s.files[s.lock.value]); Chain(s.(dead := dead), g, path) ==> Chain(s, g, path)
  {
    if path.Successor? { DeathAddsNoPath(s, dead, path.path); }
  }

  lemma CrashKeepsBlocked(s: State, pid: Pid)
    requires AllLook(s)
    ensures AllLook(s.(dead := s.dead + {pid}))
  {
    var t := s.(dead := s.dead + {pid});
    var g := GenerationOf(s.files[s.lock.value]);
    forall path | Chain(t, g, path) && Depth(path) <= DEEPEST_CLAIM ensures path in t.claims && Dead(t, t.claims[path]) {
      DeathAddsNoPath(s, t.dead, path);
    }
    forall path | Chain(s, g, path) ensures Chain(t, g, path) { ChainIsStable(s, t, g, path); }
  }

  lemma NextKeepsBlocked(s: State, e: Event)
    requires AllLook(s) && !e.Crash?
    ensures AllLook(Next(s, e))
  {
    var g := GenerationOf(s.files[s.lock.value]);
    LookingChangesNothing(s, e);
    SameDisk(s, Next(s, e));
    forall path ensures Chain(Next(s, e), g, path) == Chain(s, g, path) { OnlyPcsMatter(s, Next(s, e), g, path); }
  }

  /** Such a lock is never taken over, by however many agents, over every interleaving, with crashes anywhere. */
  lemma {:induction false} BlockedForEver(s: State, events: seq<Event>, a: Agent)
    requires AllLook(s)
    ensures !Owns(RunAll(s, events), a)
    decreases |events|
  {
    if events != [] {
      if events[0].Crash? { CrashKeepsBlocked(s, events[0].pid); } else { NextKeepsBlocked(s, events[0]); }
      BlockedForEver(Next(s, events[0]), events[1..], a);
    }
  }

  function PathAt(k: nat): ClaimPath {
    if k == 0 then Base(ById(0)) else Successor(PathAt(k - 1), ById(k))
  }

  function DeadClaims(n: nat): map<ClaimPath, Inode> {
    if n == 0 then map[] else DeadClaims(n - 1)[PathAt(n - 1) := n]
  }

  /** What n recoverers left that died one after the other, each holding the next claim on the lock of a dead owner. */
  function DeadChain(n: nat): State {
    State(seq(n + 1, i requires 0 <= i => LockRecord(Some(i), 0, 0)), Some(0), DeadClaims(n), map[], {0})
  }

  lemma {:induction false} DepthAt(k: nat)
    ensures Depth(PathAt(k)) == k
  {
    if k > 0 { DepthAt(k - 1); }
  }

  lemma {:induction false} DeadClaimAt(n: nat, k: nat)
    ensures Depth(PathAt(k)) == k
    ensures PathAt(k) in DeadClaims(n) <==> k < n
    ensures k < n ==> DeadClaims(n)[PathAt(k)] == k + 1
  {
    DepthAt(k);
    if n > 0 {
      DeadClaimAt(n - 1, k);
      DepthAt(n - 1);
    }
  }

  lemma {:induction false} DeadChainPaths(n: nat, path: ClaimPath)
    requires Chain(DeadChain(n), ById(0), path)
    ensures Depth(path) <= n && path == PathAt(Depth(path))
  {
    if path.Successor? {
      DeadChainPaths(n, path.path);
      DeadClaimAt(n, Depth(path.path));
    }
  }

  lemma {:induction false} DeadChainReaches(n: nat, k: nat)
    requires k <= n
    ensures Chain(DeadChain(n), ById(0), PathAt(k))
  {
    if k > 0 {
      DeadChainReaches(n, k - 1);
      DeadClaimAt(n, k - 1);
    }
  }

  lemma {:induction false} DeadClaimsAreKnown(n: nat)
    ensures forall path <- DeadClaims(n) :: DeadClaims(n)[path] <= n
  {
    if n > 0 { DeadClaimsAreKnown(n - 1); }
  }

  lemma DeadChainPathsAre(n: nat, path: ClaimPath)
    ensures Chain(DeadChain(n), ById(0), path) <==> Depth(path) <= n && path == PathAt(Depth(path))
    ensures Chain(DeadChain(n), ById(0), path) ==> (path in DeadClaims(n) <==> Depth(path) < n)
  {
    if Chain(DeadChain(n), ById(0), path) { DeadChainPaths(n, path); }
    if Depth(path) <= n && path == PathAt(Depth(path)) { DeadChainReaches(n, Depth(path)); }
    DeadClaimAt(n, Depth(path));
  }

  lemma DeadChainIsInitial(n: nat)
    ensures Initial(DeadChain(n)) && DeadChain(n).lock == Some(0) && Dead(DeadChain(n), 0)
    ensures GenerationOf(DeadChain(n).files[0]) == ById(0)
    ensures forall p <- DeadClaims(n) :: Dead(DeadChain(n), DeadClaims(n)[p])
  {
    DeadClaimsAreKnown(n);
  }

  /** The last path of the chain is the free one. */
  lemma DeadChainEnds(n: nat)
    ensures Chain(DeadChain(n), ById(0), PathAt(n)) && PathAt(n) !in DeadClaims(n) && Depth(PathAt(n)) == n
    ensures forall path | Chain(DeadChain(n), ById(0), path) :: Depth(path) <= n && (path in DeadClaims(n) <==> Depth(path) < n)
  {
    DeadChainReaches(n, n);
    DeadClaimAt(n, n);
    forall path | Chain(DeadChain(n), ById(0), path) ensures Depth(path) <= n && (path in DeadClaims(n) <==> Depth(path) < n) {
      DeadChainPaths(n, path);
      DeadClaimAt(n, Depth(path));
    }
  }

  /** Up to 63 dead claims can be passed. Behind 64 of them the store never opens again, though nobody holds the lock. */
  lemma DeadChainIsTakeableIff(n: nat)
    ensures Initial(DeadChain(n)) && DeadChain(n).lock == Some(0) && Dead(DeadChain(n), 0)
    ensures Takeable(DeadChain(n)) <==> n <= 63
    ensures AllLook(DeadChain(n)) <==> n > 63
  {
    DeadChainIsInitial(n);
    DeadChainEnds(n);
  }
}
