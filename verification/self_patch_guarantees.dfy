/** What the registry of self-improvements promises over whole runs, from the empty tables on. */
module SelfPatchGuarantees {
  import opened Wrappers
  import opened SelfPatch
  import opened SelfPatchRuns

  function Reach(steps: seq<Step>): Db {
    RunAll(FRESH, steps)
  }

  lemma ReachIsGood(steps: seq<Step>)
    ensures Inv(Reach(steps))
  {
    RunIsGood(FRESH, steps);
  }

  // ---- Clearance ----

  /** The stored manifest always matches its digest, so reading an improvement never throws. */
  lemma ReadingNeverThrows(steps: seq<Step>, id: Id)
    ensures Get(Reach(steps), id).Ok?
  {
    ReachIsGood(steps);
    GetNeverThrows(Reach(steps), id);
  }

  /** An adopted improvement has no action that needs clearance. */
  lemma AdoptedNeedsNoClearance(steps: seq<Step>, id: Id)
    requires id in Reach(steps).patches && Reach(steps).patches[id].state == Adopted
    ensures id in Reach(steps).improvements && !NeedsClearance(Reach(steps).improvements[id].context.actions)
  {
    ReachIsGood(steps);
    assert RowOk(Reach(steps), id);
  }

  /** Past clearance, an improvement holds an Owner's grant, at the risk that its actions derive, for what is stored now. */
  lemma ClearedMeansGranted(steps: seq<Step>, id: Id)
    requires var db := Reach(steps);
      id in db.improvements && id in db.patches && db.patches[id].state in {Cleared, Canary, Deployed, RolledBack}
    ensures var (p, r) := (Reach(steps).patches[id], Reach(steps).improvements[id]);
      && r.clearance.Some? && r.clearance.value.grant.Some?
      && p.approvalRisk == Some(RiskOf(r.context.actions)) && NeedsClearance(r.context.actions)
      && r.clearance.value.digest == ManifestOf(Improvement(id, p, r), r.clearance.value.clearanceId,
           RiskOf(r.context.actions), r.clearance.value.requestedAt)
  {
    ReachIsGood(steps);
    assert RowOk(Reach(steps), id);
  }

  /** What a clearance covers never changes after it was requested: the manifest of any later state is the granted one. */
  lemma ManifestIsFrozen(steps: seq<Step>, more: seq<Step>, id: Id)
    requires id in Reach(steps).improvements && Reach(steps).improvements[id].clearance.Some?
    ensures var (db, db') := (Reach(steps), RunAll(Reach(steps), more));
      && id in db'.improvements && id in db'.patches && db'.improvements[id].clearance.Some? && db'.patches[id].approvalRisk.Some?
      && var (c, c') := (db.improvements[id].clearance.value, db'.improvements[id].clearance.value);
         && c'.clearanceId == c.clearanceId && c'.digest == c.digest
         && ManifestOf(Improvement(id, db'.patches[id], db'.improvements[id]), c.clearanceId,
              db'.patches[id].approvalRisk.value, c.requestedAt) == c.digest
  {
    ReachIsGood(steps);
    var db := Reach(steps);
    RunIsGood(db, more);
    var db' := RunAll(db, more);
    assert RowExtends(db, db', id) && RowOk(db', id);
  }

  predicate Granted(db: Db, id: Id) {
    id in db.improvements && db.improvements[id].clearance.Some? && db.improvements[id].clearance.value.grant.Some?
  }

  predicate GrantsIt(db: Db, s: Step, id: Id) {
    s.op.Grants? && s.op.id == id && Made(db, s) != []
  }

  /** Asking for clearance and inserting an improvement grant nothing. */
  lemma ClearanceIsNotGranted(db: Db, id: Id, now: Time, other: Id)
    requires RequestClearance(db, id, now).Ok? && !Granted(db, other)
    ensures !Granted(RequestClearance(db, id, now).value, other)
  {
  }

  lemma NewIsNotGranted(db: Db, id: Id, patch: Patch, p: Proposal, sourceJobId: Id, other: Id)
    requires CreateFromJob(db, id, patch, p, sourceJobId).Ok? && !Granted(db, other)
    ensures !Granted(CreateFromJob(db, id, patch, p, sourceJobId).value, other)
  {
  }

  lemma CommitGrants(db: Db, op: Op, now: Time, id: Id)
    requires Inv(db) && Commits(db, op, now) != [] && !Granted(db, id) && Granted(Commits(db, op, now)[0], id)
    requires !op.FinishesTest? && !op.Opens?
    ensures op.Grants? && op.id == id
  {
    if op.AsksClearance? {
      ClearanceIsNotGranted(db, op.id, now, id);
    } else if op.NewFromJob? {
      NewIsNotGranted(db, op.id, op.patch, op.proposal, op.sourceJob, id);
    }
  }

  lemma SettleGrantsNothing(db: Db, id: Id, evidence: string, now: Time, other: Id)
    requires Settle(db, id, evidence, now).Ok? && !Granted(db, other)
    ensures !Granted(Settle(db, id, evidence, now).value, other)
  {
  }

  lemma CompleteTestGrantsNothing(db: Db, id: Id, evidence: string, now: Time, n: nat, other: Id)
    requires !Granted(db, other) && n <= |CompleteTest(db, id, evidence, now).commits|
    ensures !Granted(LastOf(db, CompleteTest(db, id, evidence, now).commits[..n]), other)
  {
    var required := Require(db, id);
    if required.Ok? && n > 0 {
      if required.value.patch.state == Draft {
        var tested := MarkTested(db, id, evidence);
        if tested.Ok? && Settle(tested.value, id, evidence, now).Ok? {
          SettleGrantsNothing(tested.value, id, evidence, now, other);
        }
      } else if Settle(db, id, evidence, now).Ok? {
        SettleGrantsNothing(db, id, evidence, now, other);
      }
    }
  }

  lemma {:induction false} AdoptKeepsImprovements(db: Db, ids: seq<Id>, n: nat)
    requires n <= |Adopt(db, ids).commits|
    ensures LastOf(db, Adopt(db, ids).commits[..n]).improvements == db.improvements
    decreases |ids|
  {
    if ids != [] && Get(db, ids[0]).Ok? {
      if !WaitsForAdoption(db, ids[0]) {
        AdoptKeepsImprovements(db, ids[1..], n);
      } else if Move(db, ids[0], Adopted).Ok? && n > 0 {
        var db' := Move(db, ids[0], Adopted).value;
        AdoptKeepsImprovements(db', ids[1..], n - 1);
        assert Adopt(db, ids).commits[..n] == [db'] + Adopt(db', ids[1..]).commits[..n - 1];
      }
    }
  }

  lemma StepGrants(db: Db, s: Step, id: Id)
    requires Inv(db) && !Granted(db, id) && Granted(LastOf(db, Made(db, s)), id)
    ensures GrantsIt(db, s, id)
  {
    var all := Commits(db, s.op, s.now);
    var n := if s.commits < |all| then s.commits else |all|;
    assert Made(db, s) == all[..n];
    if s.op.FinishesTest? {
      CompleteTestGrantsNothing(db, s.op.id, s.op.evidence, s.now, n, id);
    } else if s.op.Opens? {
      AdoptKeepsImprovements(db, s.op.ids, n);
    } else {
      CommitGrants(db, s.op, s.now, id);
    }
  }

  lemma {:induction false} GrantHappened(db: Db, steps: seq<Step>, id: Id) returns (i: nat)
    requires Inv(db) && !Granted(db, id) && Granted(RunAll(db, steps), id)
    ensures i < |steps| && GrantsIt(RunAll(db, steps[..i]), steps[i], id)
    decreases |steps|
  {
    var db' := LastOf(db, Made(db, steps[0]));
    assert RunAll(db, steps[..0]) == db;
    if Granted(db', id) {
      StepGrants(db, steps[0], id);
      i := 0;
    } else {
      MadeIsGood(db, steps[0]);
      var j := GrantHappened(db', steps[1..], id);
      i := j + 1;
      assert steps[..i][1..] == steps[1..][..j];
    }
  }

  /** No improvement gets past clearance before an Owner granted it in an earlier step. */
  lemma GrantPrecedesCanary(steps: seq<Step>, id: Id)
    requires var db := Reach(steps);
      id in db.improvements && id in db.patches && db.patches[id].state in {Cleared, Canary, Deployed, RolledBack}
    ensures exists i | 0 <= i < |steps| :: GrantsIt(Reach(steps[..i]), steps[i], id)
  {
    ClearedMeansGranted(steps, id);
    var i := GrantHappened(FRESH, steps, id);
  }

  // ---- Transitions ----

  function Changed(db: Db, db': Db, id: Id): nat {
    if id in db.patches && id in db'.patches && db.patches[id].state != db'.patches[id].state then 1 else 0
  }

  /** How often the state of a patch changes along these commits. */
  function Changes(db: Db, commits: seq<Db>, id: Id): nat
    decreases |commits|
  {
    if commits == [] then 0 else Changed(db, commits[0], id) + Changes(commits[0], commits[1..], id)
  }

  function RankOf(db: Db, id: Id): nat {
    if id in db.patches then Rank(db.patches[id].state) else 0
  }

  lemma {:induction false} ChangesAreBounded(db: Db, commits: seq<Db>, id: Id)
    requires Chain(db, commits)
    ensures Changes(db, commits, id) <= 5 - RankOf(db, id)
    decreases |commits|
  {
    if commits != [] {
      ChangesAreBounded(commits[0], commits[1..], id);
      if id in db.patches {
        assert RowExtends(db, commits[0], id);
      }
    }
  }

  /** Over any run a patch changes its state at most five times. */
  lemma AtMostFiveTransitions(steps: seq<Step>, id: Id)
    ensures Changes(FRESH, Trace(FRESH, steps), id) <= 5
  {
    RunIsGood(FRESH, steps);
    ChangesAreBounded(FRESH, Trace(FRESH, steps), id);
  }

  // ---- Crashes and repetitions ----

  /** Of the listed improvements exactly those that wait for adoption are adopted, and nothing else changes. */
  ghost predicate AdoptsListed(db: Db, db': Db, ids: seq<Id>) {
    && db' == db.(patches := db'.patches) && db'.patches.Keys == db.patches.Keys
    && forall id <- db.patches ::
         db'.patches[id] == if id in ids && WaitsForAdoption(db, id) then db.patches[id].(state := Adopted) else db.patches[id]
  }

  lemma AdoptsOneMore(db: Db, db': Db, id: Id, rest: seq<Id>)
    requires WaitsForAdoption(db, id) && AdoptsListed(db.(patches := db.patches[id := db.patches[id].(state := Adopted)]), db', rest)
    ensures AdoptsListed(db, db', [id] + rest)
  {
  }

  /** One improvement of the walk. */
  lemma AdoptIs(db: Db, ids: seq<Id>)
    requires Inv(db) && ids != []
    ensures var (first, rest) := (Move(db, ids[0], Adopted), ids[1..]);
      if WaitsForAdoption(db, ids[0])
      then first.Ok? && Inv(first.value)
           && Adopt(db, ids).result == Adopt(first.value, rest).result
           && LastOf(db, Adopt(db, ids).commits) == LastOf(first.value, Adopt(first.value, rest).commits)
      else Adopt(db, ids) == Adopt(db, rest)
  {
    GetNeverThrows(db, ids[0]);
    if WaitsForAdoption(db, ids[0]) { AdoptionIsGood(db, ids[0]); }
  }

  lemma {:induction false} OpenAdoptsTheListed(db: Db, ids: seq<Id>)
    requires Inv(db)
    ensures Adopt(db, ids).result == Ok(()) && AdoptsListed(db, LastOf(db, Adopt(db, ids).commits), ids)
    decreases |ids|
  {
    if ids != [] {
      AdoptIs(db, ids);
      assert ids == [ids[0]] + ids[1..];
      if WaitsForAdoption(db, ids[0]) {
        var db' := Move(db, ids[0], Adopted).value;
        OpenAdoptsTheListed(db', ids[1..]);
        AdoptsOneMore(db, LastOf(db', Adopt(db', ids[1..]).commits), ids[0], ids[1..]);
      } else {
        OpenAdoptsTheListed(db, ids[1..]);
      }
    }
  }

  /** Completing the test of a low-risk draft makes two commits. */
  lemma CompletionOfLowRisk(db: Db, id: Id, evidence: string, now: Time)
    requires Inv(db) && id in db.improvements && id in db.patches && db.patches[id].state == Draft
    requires !NeedsClearance(db.improvements[id].context.actions)
    ensures MarkTested(db, id, evidence).Ok? && Inv(MarkTested(db, id, evidence).value)
    ensures var tested := MarkTested(db, id, evidence).value;
      && WaitsForAdoption(tested, id) && Move(tested, id, Adopted).Ok?
      && CompleteTest(db, id, evidence, now).commits == [tested, Move(tested, id, Adopted).value]
      && forall other: Id | WaitsForAdoption(tested, other) :: other == id || WaitsForAdoption(db, other)
  {
    GetNeverThrows(db, id);
    assert RowOk(db, id);
    var tested := MarkTested(db, id, evidence).value;
    MarkTestedIsGood(db, id, evidence);
    GetNeverThrows(tested, id);
    AdoptionIsGood(tested, id);
  }

  /** A crash after the test evidence of a low-risk improvement: opening the registry, which walks every tested improvement
      in some order, finishes what the call began, and leaves none waiting. */
  lemma OpenFinishesAdoption(steps: seq<Step>, id: Id, evidence: string, now: Time, ids: seq<Id>)
    requires var db := Reach(steps);
      id in db.improvements && id in db.patches && db.patches[id].state == Draft
      && !NeedsClearance(db.improvements[id].context.actions)
    requires id in ids && forall other: Id | WaitsForAdoption(Reach(steps), other) :: other in ids
    ensures var commits := CompleteTest(Reach(steps), id, evidence, now).commits;
      && |commits| == 2 && Adopt(commits[0], ids).result == Ok(())
      && var db' := LastOf(commits[0], Adopt(commits[0], ids).commits);
         && id in db'.patches && id in commits[1].patches && db'.patches[id] == commits[1].patches[id]
         && db'.patches[id].state == Adopted && forall other: Id :: !WaitsForAdoption(db', other)
  {
    ReachIsGood(steps);
    CompletionOfLowRisk(Reach(steps), id, evidence, now);
    OpenAdoptsTheListed(MarkTested(Reach(steps), id, evidence).value, ids);
  }

  /** Sending the same test evidence again, at any later time, changes nothing, unless the improvement failed since. */
  lemma TestIsCompletedOnce(steps: seq<Step>, id: Id, evidence: string, now: Time, more: seq<Step>, later: Time)
    requires CompleteTest(Reach(steps), id, evidence, now).result.Ok?
    ensures var db' := RunAll(LastOf(Reach(steps), CompleteTest(Reach(steps), id, evidence, now).commits), more);
      id in db'.patches && (db'.patches[id].state != Failed ==> CompleteTest(db', id, evidence, later) == Outcome([], Ok(())))
  {
    ReachIsGood(steps);
    var db := Reach(steps);
    GetNeverThrows(db, id);
    CompleteTestIsGood(db, id, evidence, now);
    var done := LastOf(db, CompleteTest(db, id, evidence, now).commits);
    ChainEnds(db, CompleteTest(db, id, evidence, now).commits);
    CompletedState(db, id, evidence, now);
    RunIsGood(done, more);
    var db' := RunAll(done, more);
    assert RowExtends(done, db', id) && RowOk(db', id);
    GetNeverThrows(db', id);
  }

  lemma CompletedState(db: Db, id: Id, evidence: string, now: Time)
    requires Inv(db) && CompleteTest(db, id, evidence, now).result.Ok?
    ensures var done := LastOf(db, CompleteTest(db, id, evidence, now).commits);
      && id in done.improvements && id in done.patches && done.patches[id].evidence == Some(evidence)
      && done.patches[id].state in {Adopted, WaitApproval, Cleared, Canary, Deployed, RolledBack}
  {
    GetNeverThrows(db, id);
    if db.patches[id].state == Draft {
      MarkTestedIsGood(db, id, evidence);
      GetNeverThrows(MarkTested(db, id, evidence).value, id);
    }
  }

  /** An improvement created from a Job is created once: the same request later finds it and changes nothing. */
  lemma JobImprovementIsCreatedOnce(steps: seq<Step>, id: Id, patch: Patch, p: Proposal, sourceJobId: Id, more: seq<Step>)
    requires CreateFromJob(Reach(steps), id, patch, p, sourceJobId).Ok?
    ensures var db' := RunAll(CreateFromJob(Reach(steps), id, patch, p, sourceJobId).value, more);
      CreateFromJob(db', id, patch, p, sourceJobId) == Ok(db')
  {
    ReachIsGood(steps);
    var db := Reach(steps);
    CommitIsGood(db, NewFromJob(id, patch, p, sourceJobId), 0);
    var created := CreateFromJob(db, id, patch, p, sourceJobId).value;
    GetNeverThrows(db, id);
    RunIsGood(created, more);
    var db' := RunAll(created, more);
    assert RowExtends(created, db', id);
    GetNeverThrows(db', id);
  }

  // ---- Normalisation ----

  /** Normalising keeps every proposed action, so it never lowers the risk nor drops the need for clearance. */
  lemma NormalizationOnlyEscalates(p: Proposal, patch: Patch)
    ensures var proposed := set a <- p.actions;
      var actions := Normalized(p, patch).actions;
      && proposed <= actions && {Test, Rollback} <= actions && patch.detected <= actions
      && (NeedsClearance(proposed) ==> NeedsClearance(actions)) && (RiskOf(proposed) == R3 ==> RiskOf(actions) == R3)
      && (p.category in {PiUpgrade, Dependency, Security} ==> NeedsClearance(actions))
      && (p.category == Security ==> RiskOf(actions) == R3)
  {
    var proposed := set a <- p.actions;
    var actions := Normalized(p, patch).actions;
    assert proposed * MATERIAL <= actions * MATERIAL && proposed * HIGH_RISK <= actions * HIGH_RISK;
    if p.category in {PiUpgrade, Dependency} { assert NetworkAccess in actions * MATERIAL; }
    if p.category == Security { assert PolicyChange in actions * MATERIAL && PolicyChange in actions * HIGH_RISK; }
  }

  const ALL_ACTIONS: set<Action> := {
    Test, NetworkAccess, DependencyInstall, ServiceRestart, CanaryDeploy, Rollback, GitPush,
    PolicyChange, CredentialAccess, RootAccess, DataDelete, ProductionCutover}

  lemma {:induction false} DistinctCount(actions: seq<Action>)
    requires forall i, j | 0 <= i < j < |actions| :: actions[i] != actions[j]
    ensures |actions| == |(set a <- actions)|
  {
    if actions != [] {
      var n := |actions| - 1;
      DistinctCount(actions[..n]);
      assert (set a <- actions) == (set a <- actions[..n]) + {actions[n]};
    }
  }

  lemma {:induction false} SmallerSet(a: set<Action>, b: set<Action>)
    requires a <= b
    ensures |a| <= |b|
  {
    if a != {} {
      var x :| x in a;
      SmallerSet(a - {x}, b - {x});
    }
  }

  lemma ListsAllActions(a: Action)
    ensures a in ALL_ACTIONS
  {
    match a {
      case Test => case NetworkAccess => case DependencyInstall => case ServiceRestart =>
      case CanaryDeploy => case Rollback => case GitPush => case PolicyChange =>
      case CredentialAccess => case RootAccess => case DataDelete => case ProductionCutover =>
    }
  }

  lemma AtMostTwelve(actions: seq<Action>)
    requires forall i, j | 0 <= i < j < |actions| :: actions[i] != actions[j]
    ensures |actions| <= 12
  {
    DistinctCount(actions);
    forall a <- actions ensures a in ALL_ACTIONS {
      ListsAllActions(a);
    }
    SmallerSet((set a <- actions), ALL_ACTIONS);
  }

  /** The stored form of a valid proposal, its actions listed once each in any order, is a valid proposal again, and
      normalising it adds nothing; so it does not matter that a Job's improvement is normalised twice. */
  lemma NormalizationIsIdempotent(p: Proposal, q: Proposal, patch: Patch, db: Db, id: Id, sourceJobId: Option<Id>)
    requires ValidProposal(p) && q.category == p.category && q.brief == p.brief
    requires (set a <- q.actions) == Normalized(p, patch).actions
    requires forall i, j | 0 <= i < j < |q.actions| :: q.actions[i] != q.actions[j]
    ensures ValidProposal(q) && Normalized(q, patch) == Normalized(p, patch)
    ensures CreateImprovement(db, id, patch, q, sourceJobId) == CreateImprovement(db, id, patch, p, sourceJobId)
  {
    AtMostTwelve(q.actions);
    assert Test in (set a <- q.actions);
  }
}
