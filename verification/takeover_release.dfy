/** What closing a store does to its lock, and how an agent is turned away. */
module TakeoverRelease {
  import opened Wrappers
  import opened TakeoverLock

  /** The disk is as it was, but for the lock. */
  predicate OnlyLockDiffers(s: State, s': State) {
    s'.files == s.files && s'.claims == s.claims && s'.dead == s.dead
  }

  /** The event is not the agent's close or death, nor its own last operation. */
  predicate Spares(e: Event, a: Agent, closing: bool) {
    if e.Crash? then e.pid != a.pid else e != Close(a) && (closing ==> e.agent != a)
  }

  lemma PlaceStays(s: State, e: Event, a: Agent)
    requires Live(s, a) && s.pcs[a].Owner? && Enabled(s, e) && !e.Crash? && Spares(e, a, s.pcs[a].closing)
    ensures Live(Next(s, e), a) && Next(s, e).pcs[a] == s.pcs[a]
  {
  }

  lemma StepKeepsOwner(s: State, e: Event, a: Agent)
    requires Inv(s) && Live(s, a) && s.pcs[a].Owner? && Spares(e, a, s.pcs[a].closing)
    ensures Inv(Next(s, e)) && Live(Next(s, e), a) && Next(s, e).pcs[a] == s.pcs[a]
  {
    if e.Crash? {
      CrashKeepsInv(s, e.pid);
    } else if Enabled(s, e) {
      PlaceStays(s, e, a);
      NextKeepsInv(s, e);
    }
  }

  /** An owner stays the owner until it closes or dies, and one that closes keeps its lock until its next operation. */
  lemma {:induction false} OwnerStays(s: State, events: seq<Event>, a: Agent)
    requires Inv(s) && Live(s, a) && s.pcs[a].Owner? && forall e <- events :: Spares(e, a, s.pcs[a].closing)
    ensures var t := RunAll(s, events); Inv(t) && Owns(t, a) && t.pcs[a] == s.pcs[a] && t.lock == Some(s.pcs[a].lock)
    decreases |events|
  {
    if events == [] {
      assert AgentInv(s, a, s.pcs[a]);
    } else {
      assert events[0] in events && forall e <- events[1..] :: e in events;
      StepKeepsOwner(s, events[0], a);
      OwnerStays(Next(s, events[0]), events[1..], a);
    }
  }

  /** The owner's own two operations: it reads the lock back, and then unlinks it. */
  lemma CloseThenRun(s: State, a: Agent, id: nat)
    requires Inv(s) && Live(s, a) && s.pcs[a].Owner? && Fresh(s, id)
    ensures var t := Next(Next(s, Close(a)), Run(a, id));
      OnlyLockDiffers(s, t) && t.lock.None? && t.pcs == s.pcs[a := Stopped]
  {
    assert AgentInv(s, a, s.pcs[a]);
  }

  /** From every reachable state: a live owner that closes leaves no lock behind, and disturbs nothing else. */
  lemma CloseReleases(s: State, events: seq<Event>, a: Agent, id: nat)
    requires Initial(s) && Live(RunAll(s, events), a) && RunAll(s, events).pcs[a].Owner? && Fresh(RunAll(s, events), id)
    ensures var t := RunAll(s, events); var t' := Next(Next(t, Close(a)), Run(a, id));
      OnlyLockDiffers(t, t') && t'.lock.None? && t'.pcs == t.pcs[a := Stopped]
  {
    RunAllKeepsInv(s, events);
    CloseThenRun(RunAll(s, events), a, id);
  }

  lemma CloseIsNoted(s: State, a: Agent)
    requires Inv(s) && Live(s, a) && s.pcs[a].Owner?
    ensures var t := Next(s, Close(a)); Inv(t) && Live(t, a) && t.pcs[a] == s.pcs[a].(closing := true)
  {
    assert AgentInv(s, a, s.pcs[a]);
    NextKeepsInv(s, Close(a));
  }

  lemma LastOperation(s: State, a: Agent, id: nat)
    requires Live(s, a) && s.pcs[a].Owner? && s.pcs[a].closing && Fresh(s, id)
    ensures var t := Next(s, Run(a, id)); OnlyLockDiffers(s, t) && t.lock.None? && t.pcs == s.pcs[a := Stopped]
  {
  }

  /** However many steps of others, and crashes of others, come between its two operations. */
  lemma CloseReleasesInTheEnd(s: State, events: seq<Event>, a: Agent, between: seq<Event>, id: nat)
    requires Initial(s) && Live(RunAll(s, events), a) && RunAll(s, events).pcs[a].Owner?
    requires forall e <- between :: Spares(e, a, true)
    requires Fresh(RunAll(Next(RunAll(s, events), Close(a)), between), id)
    ensures var t := RunAll(Next(RunAll(s, events), Close(a)), between); var t' := Next(t, Run(a, id));
      OnlyLockDiffers(t, t') && t'.lock.None? && t'.pcs == t.pcs[a := Stopped]
  {
    var t := RunAll(s, events);
    RunAllKeepsInv(s, events);
    CloseIsNoted(t, a);
    OwnerStays(Next(t, Close(a)), between, a);
    LastOperation(RunAll(Next(t, Close(a)), between), a, id);
  }

  /** After that, an agent that opens the store undisturbed can own it. */
  lemma ClosedStoreOpens(s: State, events: seq<Event>, a: Agent, id: nat, b: Agent, id1: nat, id2: nat)
    requires Initial(s) && Live(RunAll(s, events), a) && RunAll(s, events).pcs[a].Owner? && Fresh(RunAll(s, events), id)
    requires var t := Next(Next(RunAll(s, events), Close(a)), Run(a, id));
      Enabled(t, Begin(b)) && Fresh(t, id1) && Fresh(t, id2) && id1 != id2 && b.lockId !in {id1, id2}
    ensures var t := Next(Next(RunAll(s, events), Close(a)), Run(a, id));
      exists more :: AllBy(more, b) && Owns(RunAll(t, more), b)
  {
    CloseReleases(s, events, a, id);
    LoneAgentGetsTheLockIff(Next(Next(RunAll(s, events), Close(a)), Run(a, id)), b, id1, id2);
  }

  /** A lock that somebody else put in the place of the agent's own, by hand, is left alone. */
  lemma CloseSparesOtherLocks(s: State, a: Agent, id: nat)
    requires Live(s, a) && s.pcs[a].Owner? && !s.pcs[a].closing && s.lock != Some(s.pcs[a].lock) && Fresh(s, id)
    ensures var t := Next(Next(s, Close(a)), Run(a, id)); t == s.(pcs := s.pcs[a := Stopped])
  {
  }

  // ---- An agent that is turned away ----

  lemma OwnersLockIsKnown(s: State, a: Agent)
    requires Inv(s) && Live(s, a) && s.pcs[a].Owner?
    ensures s.lock == Some(s.pcs[a].lock) && Known(s, s.pcs[a].lock) && s.files[s.pcs[a].lock].pid == a.pid
  {
    assert AgentInv(s, a, s.pcs[a]);
  }

  /** The agent has this place now; else nothing has changed. */
  function AtPlace(s: State, b: Agent, pc: Pc): State {
    s.(pcs := s.pcs[b := pc])
  }

  lemma OpenReadsTheOwner(s: State, b: Agent, id: nat)
    requires Enabled(s, Begin(b)) && Fresh(s, id) && id != b.lockId && s.lock.Some?
    requires Known(s, s.lock.value) && s.files[s.lock.value].pid !in s.dead
    ensures Next(s, Begin(b)) == AtPlace(s, b, PublishLock)
    ensures Next(AtPlace(s, b, PublishLock), Run(b, id)) == AtPlace(s, b, ReadLock)
    ensures Next(AtPlace(s, b, ReadLock), Run(b, id)) == AtPlace(s, b, CheckOwner(s.lock.value))
    ensures Next(AtPlace(s, b, CheckOwner(s.lock.value)), Run(b, id)) == AtPlace(s, b, Stopped)
  {
  }

  /** While a live agent owns the lock, an agent that opens the store fails after its third operation, and changes nothing. */
  lemma SecondOpenFails(s: State, events: seq<Event>, a: Agent, b: Agent, id: nat)
    requires var t := RunAll(s, events);
      && Initial(s) && Live(t, a) && t.pcs[a].Owner? && Enabled(t, Begin(b)) && Fresh(t, id) && id != b.lockId
    ensures var t := RunAll(s, events);
      Next(Next(Next(Next(t, Begin(b)), Run(b, id)), Run(b, id)), Run(b, id)) == t.(pcs := t.pcs[b := Stopped])
  {
    var t := RunAll(s, events);
    RunAllKeepsInv(s, events);
    OwnersLockIsKnown(t, a);
    OpenReadsTheOwner(t, b, id);
  }

  /** An agent that finds the claim of a live one, or finds the lock gone, tries again from the start, and has changed nothing. */
  lemma TriesAgain(s: State, b: Agent, id: nat)
    requires Live(s, b) && Fresh(s, id)
    requires match s.pcs[b]
      case Claiming(_, _, CheckClaimant(found)) => Known(s, found) && s.files[found].pid !in s.dead
      case ReadLock => s.lock.None?
      case _ => false
    ensures Next(s, Run(b, id)) == AtPlace(s, b, PublishLock)
  {
  }

  // ---- Claims do not pile up ----

  /** Somebody, alive or dead, stands between linking this claim and unlinking it. */
  ghost predicate IsHeld(s: State, path: ClaimPath) {
    path in s.claims && exists a <- s.pcs :: s.pcs[a].Taking? && s.pcs[a].claim == Claim(path, s.claims[path])
  }

  ghost predicate EachIsHeld(left: map<ClaimPath, Inode>, s: State) {
    forall path <- s.claims :: (path in left && left[path] == s.claims[path]) || IsHeld(s, path)
  }

  lemma HolderStays(s: State, e: Event, path: ClaimPath)
    requires Enabled(s, e) && !e.Crash? && IsHeld(s, path) && path in Next(s, e).claims
    ensures Next(s, e).claims[path] == s.claims[path] && IsHeld(Next(s, e), path)
  {
    var s' := Next(s, e);
    var a :| a in s.pcs && s.pcs[a].Taking? && s.pcs[a].claim == Claim(path, s.claims[path]);
    assert s'.pcs[a].Taking? && s'.pcs[a].claim == Claim(path, s.claims[path]);
  }

  lemma NextKeepsHeld(left: map<ClaimPath, Inode>, s: State, e: Event)
    requires EachIsHeld(left, s) && Enabled(s, e) && !e.Crash?
    ensures EachIsHeld(left, Next(s, e))
  {
    var s' := Next(s, e);
    forall path <- s'.claims ensures (path in left && left[path] == s'.claims[path]) || IsHeld(s', path) {
      if path !in s.claims {
        assert e.Run? && s'.pcs[e.agent].Taking? && s'.pcs[e.agent].claim == Claim(path, s'.claims[path]);
      } else if IsHeld(s, path) {
        HolderStays(s, e, path);
      }
    }
  }

  lemma {:induction false} RunKeepsHeld(left: map<ClaimPath, Inode>, s: State, events: seq<Event>)
    requires EachIsHeld(left, s)
    ensures EachIsHeld(left, RunAll(s, events))
    decreases |events|
  {
    if events != [] {
      if Enabled(s, events[0]) && !events[0].Crash? {
        NextKeepsHeld(left, s, events[0]);
      } else {
        assert forall path <- s.claims :: IsHeld(s, path) ==> IsHeld(Next(s, events[0]), path);
      }
      RunKeepsHeld(left, Next(s, events[0]), events[1..]);
    }
  }

  /** In every reachable state a claim was left by earlier processes, or is held by an agent that is taking over or died there.
      So once nobody is taking over, nobody's claim is left behind but that of a dead agent. */
  lemma ClaimsAreReleased(s: State, events: seq<Event>, path: ClaimPath)
    requires Initial(s) && path in RunAll(s, events).claims
    ensures var t := RunAll(s, events); (path in s.claims && s.claims[path] == t.claims[path]) || IsHeld(t, path)
  {
    RunKeepsHeld(s.claims, s, events);
  }

  /** A takeover that found something changed unlinks its claim, and the agent tries again. */
  lemma AbortedTriesAgain(s: State, b: Agent, id: nat, existing: Inode, claim: Claim)
    requires Live(s, b) && Fresh(s, id) && claim.path in s.claims && s.claims[claim.path] == claim.inode
    requires s.pcs[b] == Taking(existing, claim, ReadOwnClaim(None))
    ensures Next(Next(s, Run(b, id)), Run(b, id)) == AtPlace(s.(claims := s.claims - {claim.path}), b, PublishLock)
  {
    var t := Next(s, Run(b, id));
    assert t == AtPlace(s, b, Taking(existing, claim, UnlinkClaim(None)));
  }

  // ---- What a lock says ----

  /** The lock that an agent has published says who it is. */
  ghost predicate SaysWho(s: State, a: Agent, pc: Pc) {
    LockOf(pc).Some? ==> Known(s, LockOf(pc).value) && s.files[LockOf(pc).value] == LockRecord(Some(a.lockId), a.pid, a.openedAt)
  }

  lemma FilesOnlyGrow(s: State, e: Event)
    ensures s.files <= Next(s, e).files
  {
  }

  lemma OwnNextSaysWho(s: State, e: Event)
    requires Enabled(s, e) && !e.Crash? && (e.agent in s.pcs ==> SaysWho(s, e.agent, s.pcs[e.agent]))
    ensures SaysWho(Next(s, e), e.agent, Next(s, e).pcs[e.agent])
  {
    FilesOnlyGrow(s, e);
  }

  lemma NextSaysWho(s: State, e: Event)
    requires forall a <- s.pcs :: SaysWho(s, a, s.pcs[a])
    ensures forall a <- Next(s, e).pcs :: SaysWho(Next(s, e), a, Next(s, e).pcs[a])
  {
    FilesOnlyGrow(s, e);
    if Enabled(s, e) && !e.Crash? {
      OwnNextSaysWho(s, e);
    }
    forall a <- Next(s, e).pcs ensures SaysWho(Next(s, e), a, Next(s, e).pcs[a]) {
      assert a in s.pcs ==> SaysWho(s, a, s.pcs[a]);
    }
  }

  lemma {:induction false} RunSaysWho(s: State, events: seq<Event>)
    requires forall a <- s.pcs :: SaysWho(s, a, s.pcs[a])
    ensures forall a <- RunAll(s, events).pcs :: SaysWho(RunAll(s, events), a, RunAll(s, events).pcs[a])
    decreases |events|
  {
    if events != [] {
      NextSaysWho(s, events[0]);
      RunSaysWho(Next(s, events[0]), events[1..]);
    }
  }

  /** In every reachable state the published lock of a live owner holds the owner's lock id, process id and time of opening. */
  lemma LockSaysWhoOwnsIt(s: State, events: seq<Event>, a: Agent)
    requires Initial(s) && Owns(RunAll(s, events), a)
    ensures var t := RunAll(s, events);
      t.lock.Some? && Known(t, t.lock.value) && t.files[t.lock.value] == LockRecord(Some(a.lockId), a.pid, a.openedAt)
  {
    RunSaysWho(s, events);
    OwnerIsPublished(s, events, a);
    assert SaysWho(RunAll(s, events), a, RunAll(s, events).pcs[a]);
  }
}
