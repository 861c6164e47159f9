/** What each call of the registry does, told apart from the tables it looks things up in. */
module SelfPatchLaws {
  import opened Wrappers
  import opened SelfPatch
  import opened SelfPatchRuns
  import opened SelfPatchGuarantees

  // ---- Actions ----

  datatype Weight = Harmless | Material | Critical

  /** What an action may touch. */
  const WEIGHT: map<Action, Weight> := map[
    Test := Harmless, Rollback := Harmless,
    NetworkAccess := Material, DependencyInstall := Material, ServiceRestart := Material, CanaryDeploy := Material, GitPush := Material,
    PolicyChange := Critical, CredentialAccess := Critical, RootAccess := Critical, DataDelete := Critical, ProductionCutover := Critical]

  ghost predicate AnyMaterial(actions: set<Action>) {
    exists a <- actions :: a in WEIGHT && WEIGHT[a] != Harmless
  }

  ghost predicate AnyCritical(actions: set<Action>) {
    exists a <- actions :: a in WEIGHT && WEIGHT[a] == Critical
  }

  lemma EachIsWeighed(a: Action)
    ensures a in WEIGHT && (WEIGHT[a] == Critical <==> a in HIGH_RISK) && (WEIGHT[a] != Harmless <==> a in MATERIAL)
  {
  }

  /** Clearance is needed for material actions, and at risk R3 exactly for critical ones. */
  lemma RiskIsWeight(actions: set<Action>)
    ensures NeedsClearance(actions) <==> AnyMaterial(actions)
    ensures RiskOf(actions) == if AnyCritical(actions) then R3 else R2
  {
    forall a: Action ensures a in WEIGHT && (WEIGHT[a] == Critical <==> a in HIGH_RISK) && (WEIGHT[a] != Harmless <==> a in MATERIAL) {
      EachIsWeighed(a);
    }
    if AnyMaterial(actions) {
      var a :| a in actions && a in WEIGHT && WEIGHT[a] != Harmless;
      assert a in actions * MATERIAL;
    }
    if AnyCritical(actions) {
      var a :| a in actions && a in WEIGHT && WEIGHT[a] == Critical;
      assert a in actions * HIGH_RISK;
    }
  }

  /** Which actions each kind of improvement brings with it. */
  const BRINGS: set<(Category, Action)> := {
    (PiUpgrade, NetworkAccess), (PiUpgrade, DependencyInstall), (PiUpgrade, ServiceRestart),
    (Dependency, NetworkAccess), (Dependency, DependencyInstall), (Dependency, ServiceRestart),
    (Security, PolicyChange)}

  lemma ActionsAre(p: Proposal, patch: Patch, a: Action)
    ensures a in Normalized(p, patch).actions <==>
      a in p.actions || a == Test || a == Rollback || (p.category, a) in BRINGS || a in patch.detected
  {
  }

  // ---- Frames ----

  /** Only this patch's row differs. */
  predicate OnlyPatchDiffers(db: Db, db': Db, id: Id) {
    id in db'.patches && db'.patches == db.patches[id := db'.patches[id]]
  }

  /** The patch is in this state now, and nothing else differs. */
  predicate Moved(db: Db, db': Db, id: Id, state: State) {
    && id in db.patches && OnlyPatchDiffers(db, db', id) && db'.improvements == db.improvements && db'.drawn == db.drawn
    && db'.patches[id] == db.patches[id].(state := state)
  }

  predicate IsNewDraft(row: PatchRow, patch: Patch) {
    && row.branch == patch.branch && row.text == patch.text && row.state == Draft
    && row.approvalRisk.None? && row.evidence.None? && row.canaryId.None?
  }

  // ---- Plain patches ----

  lemma PatchIsCreatedIff(db: Db, id: Id, patch: Patch)
    ensures var r := Create(db, id, patch);
      && (r.Ok? <==> patch.valid && id !in db.patches)
      && (r.Ok? ==> OnlyPatchDiffers(db, r.value, id) && IsNewDraft(r.value.patches[id], patch)
                    && r.value.improvements == db.improvements && r.value.drawn == db.drawn)
  {
  }

  lemma TestIsRecordedIff(db: Db, id: Id, evidence: string)
    ensures var r := MarkTested(db, id, evidence);
      && (r.Ok? <==> id in db.patches && db.patches[id].state == Draft)
      && (r.Ok? ==> OnlyPatchDiffers(db, r.value, id) && r.value.improvements == db.improvements && r.value.drawn == db.drawn
                    && r.value.patches[id] == db.patches[id].(state := Tested, evidence := Some(evidence)))
  {
  }

  lemma FailsIff(db: Db, id: Id)
    ensures var r := Fail(db, id);
      && (r.Ok? <==> id in db.patches && db.patches[id].state in {Draft, Tested, Canary})
      && (r.Ok? ==> Moved(db, r.value, id, Failed))
  {
  }

  predicate IsPlain(db: Db, id: Id) {
    id in db.patches && id !in db.improvements
  }

  lemma PlainApprovalIsAskedIff(steps: seq<Step>, id: Id, risk: Risk)
    ensures var (db, r) := (Reach(steps), RequestApproval(Reach(steps), id, risk));
      && (r.Ok? <==> IsPlain(db, id) && db.patches[id].state == Tested)
      && (r.Ok? ==> OnlyPatchDiffers(db, r.value, id) && r.value.improvements == db.improvements && r.value.drawn == db.drawn
                    && r.value.patches[id] == db.patches[id].(state := WaitApproval, approvalRisk := Some(risk)))
  {
    ReachIsGood(steps);
    ReadingNeverThrows(steps, id);
  }

  /** A plain patch gets its canary under exactly the risk it was held for. */
  lemma PlainCanaryIsAllowedIff(steps: seq<Step>, id: Id, risk: Risk, canaryId: string)
    ensures var (db, r) := (Reach(steps), ApproveCanary(Reach(steps), id, risk, canaryId));
      && (r.Ok? <==> IsPlain(db, id) && db.patches[id].state == WaitApproval && db.patches[id].approvalRisk == Some(risk))
      && (r.Ok? ==> OnlyPatchDiffers(db, r.value, id) && r.value.improvements == db.improvements && r.value.drawn == db.drawn
                    && r.value.patches[id] == db.patches[id].(state := Canary, canaryId := Some(canaryId)))
  {
    ReachIsGood(steps);
    ReadingNeverThrows(steps, id);
  }

  /** A canary deploys or is rolled back; a plain patch may be rolled back while it still waits. */
  lemma PlainCanaryEndsIff(steps: seq<Step>, id: Id, ok: bool)
    ensures var (db, r) := (Reach(steps), CompleteCanary(Reach(steps), id, ok));
      && (r.Ok? <==> IsPlain(db, id) && (db.patches[id].state == Canary || (!ok && db.patches[id].state == WaitApproval)))
      && (r.Ok? ==> Moved(db, r.value, id, if ok then Deployed else RolledBack))
  {
    ReachIsGood(steps);
    ReadingNeverThrows(steps, id);
    if id in Reach(steps).patches { assert SelfPatchRuns.RowOk(Reach(steps), id); }
  }

  // ---- Improvements ----

  /** Between one and sixteen actions, none listed twice, and texts that requireText accepts. */
  predicate IsProposal(p: Proposal) {
    p.brief.valid && 1 <= |p.actions| <= 16 && forall i, j | 0 <= i < |p.actions| && 0 <= j < |p.actions| && i != j :: p.actions[i] != p.actions[j]
  }

  lemma ProposalIff(p: Proposal)
    ensures ValidProposal(p) <==> IsProposal(p)
  {
  }

  predicate StoresImprovement(db: Db, db': Db, id: Id, patch: Patch, p: Proposal, sourceJobId: Option<Id>) {
    && OnlyPatchDiffers(db, db', id) && IsNewDraft(db'.patches[id], patch) && db'.drawn == db.drawn
    && id in db'.improvements && db'.improvements == db.improvements[id := db'.improvements[id]]
    && var row := db'.improvements[id];
       && row.sourceJobId == sourceJobId && row.clearance.None? && row.context.category == p.category && row.context.brief == p.brief
       && forall a: Action :: a in row.context.actions <==>
            a in p.actions || a == Test || a == Rollback || (p.category, a) in BRINGS || a in patch.detected
  }

  lemma ImprovementIsStored(db: Db, id: Id, patch: Patch, p: Proposal, sourceJobId: Option<Id>)
    requires CreateImprovement(db, id, patch, p, sourceJobId).Ok?
    ensures StoresImprovement(db, CreateImprovement(db, id, patch, p, sourceJobId).value, id, patch, p, sourceJobId)
  {
    forall a: Action
      ensures a in Normalized(p, patch).actions <==>
        a in p.actions || a == Test || a == Rollback || (p.category, a) in BRINGS || a in patch.detected
    {
      ActionsAre(p, patch, a);
    }
  }

  /** An improvement is stored exactly when its patch and proposal are valid, its id is new, and its Job has no other one. */
  lemma ImprovementIsCreatedIff(steps: seq<Step>, id: Id, patch: Patch, p: Proposal, sourceJobId: Option<Id>)
    ensures var (db, r) := (Reach(steps), CreateImprovement(Reach(steps), id, patch, p, sourceJobId));
      && (r.Ok? <==> patch.valid && IsProposal(p) && id !in db.patches
                     && forall i <- db.improvements :: sourceJobId.Some? ==> db.improvements[i].sourceJobId != sourceJobId)
      && (r.Ok? ==> StoresImprovement(db, r.value, id, patch, p, sourceJobId))
  {
    ReachIsGood(steps);
    ProposalIff(p);
    if CreateImprovement(Reach(steps), id, patch, p, sourceJobId).Ok? { ImprovementIsStored(Reach(steps), id, patch, p, sourceJobId); }
  }

  /** Asked again for a Job, the registry answers with the improvement it has exactly when that is the same one, and otherwise
      creates it as it creates any. */
  lemma FromJobIff(steps: seq<Step>, id: Id, patch: Patch, p: Proposal, sourceJobId: Id)
    ensures var (db, r) := (Reach(steps), CreateFromJob(Reach(steps), id, patch, p, sourceJobId));
      if id in db.improvements
      then
        && (r.Ok? <==>
              && IsProposal(p) && db.improvements[id].sourceJobId == Some(sourceJobId)
              && id in db.patches && db.patches[id].branch == patch.branch && db.patches[id].text == patch.text
              && db.improvements[id].context == Normalized(p, patch))
        && (r.Ok? ==> r.value == db)
      else r.Ok? <==> CreateImprovement(db, id, patch, p, Some(sourceJobId)).Ok?
    ensures var (db, r) := (Reach(steps), CreateFromJob(Reach(steps), id, patch, p, sourceJobId));
      id !in db.improvements && r.Ok? ==> r == CreateImprovement(db, id, patch, p, Some(sourceJobId))
  {
    ReachIsGood(steps);
    ReadingNeverThrows(steps, id);
  }

  /** The manifest says what is stored. */
  predicate Describes(m: Manifest, id: Id, p: PatchRow, r: ImprovementRow) {
    && m.patchId == id && m.branch == p.branch && m.text == p.text && m.evidence == p.evidence
    && m.sourceJobId == r.sourceJobId && m.context == r.context
  }

  /** The improvement waits for the Owner, under a new clearance over what is stored, at the weight of its actions. */
  ghost predicate AsksOwner(db: Db, db': Db, id: Id, evidence: string, now: Time) {
    && id in db.patches && id in db.improvements && OnlyPatchDiffers(db, db', id)
    && id in db'.improvements && db'.improvements == db.improvements[id := db'.improvements[id]] && db'.drawn == db.drawn + 1
    && var (p, r) := (db'.patches[id], db'.improvements[id]);
       && p == db.patches[id].(state := WaitApproval, evidence := Some(evidence), approvalRisk := p.approvalRisk)
       && p.approvalRisk == Some(if AnyCritical(r.context.actions) then R3 else R2)
       && r == db.improvements[id].(clearance := r.clearance) && r.clearance.Some?
       && var c := r.clearance.value;
          && c.clearanceId == db.drawn && c.requestedAt == now && c.grant.None?
          && c.digest.clearanceId == c.clearanceId && c.digest.requestedAt == now && Some(c.digest.risk) == p.approvalRisk
          && Describes(c.digest, id, p, r)
  }

  /** Whatever the tables hold, what is read of an improvement under clearance is what its manifest says. */
  lemma ReadIsIntact(db: Db, id: Id)
    requires Get(db, id).Ok? && Get(db, id).value.Some?
    ensures var i := Get(db, id).value.value;
      && id in db.patches && id in db.improvements && i == Improvement(id, db.patches[id], db.improvements[id])
      && (i.row.clearance.Some? ==>
            var c := i.row.clearance.value;
            && Describes(c.digest, id, i.patch, i.row) && c.digest.clearanceId == c.clearanceId && c.digest.requestedAt == c.requestedAt
            && i.patch.approvalRisk == Some(c.digest.risk))
  {
  }

  /** And a mismatch is refused: by reading, and by every call that asks for the improvement. */
  lemma TamperedIsRefused(db: Db, id: Id, clearanceId: Id, ownerId: string, canaryId: string, now: Time)
    requires id in db.patches && id in db.improvements && db.improvements[id].clearance.Some?
    requires var c := db.improvements[id].clearance.value;
      !Describes(c.digest, id, db.patches[id], db.improvements[id]) || db.patches[id].approvalRisk != Some(c.digest.risk)
    ensures Get(db, id).Err? && RequestClearance(db, id, now).Err? && GrantClearance(db, id, clearanceId, ownerId, now).Err?
    ensures StartCanary(db, id, clearanceId, canaryId).Err? && CompleteImprovementCanary(db, id, true).Err?
  {
  }

  lemma ClearanceIsAskedIff(steps: seq<Step>, id: Id, now: Time)
    ensures var (db, r) := (Reach(steps), RequestClearance(Reach(steps), id, now));
      && (r.Ok? <==> id in db.improvements && id in db.patches && db.patches[id].state == Tested
                     && AnyMaterial(db.improvements[id].context.actions))
      && (r.Ok? ==> db.patches[id].evidence.Some? && AsksOwner(db, r.value, id, db.patches[id].evidence.value, now))
  {
    ReachIsGood(steps);
    ReadingNeverThrows(steps, id);
    var db := Reach(steps);
    if id in db.patches { assert SelfPatchRuns.RowOk(db, id); }
    if id in db.improvements { RiskIsWeight(db.improvements[id].context.actions); }
  }

  /** The Owner's grant succeeds exactly for the pending clearance of this id, and is noted with the Owner and the time. */
  lemma GrantedIff(steps: seq<Step>, id: Id, clearanceId: Id, ownerId: string, now: Time)
    ensures var (db, r) := (Reach(steps), GrantClearance(Reach(steps), id, clearanceId, ownerId, now));
      && (r.Ok? <==> id in db.patches && id in db.improvements && db.patches[id].state == WaitApproval
                     && db.improvements[id].clearance.Some? && db.improvements[id].clearance.value.clearanceId == clearanceId)
      && (r.Ok? ==>
            && OnlyPatchDiffers(db, r.value, id) && r.value.patches[id] == db.patches[id].(state := Cleared) && r.value.drawn == db.drawn
            && r.value.improvements == db.improvements[id :=
                 db.improvements[id].(clearance := Some(db.improvements[id].clearance.value.(grant := Some(OwnerGrant(now, ownerId)))))])
  {
    ReachIsGood(steps);
    ReadingNeverThrows(steps, id);
    if id in Reach(steps).patches { assert SelfPatchRuns.RowOk(Reach(steps), id); }
  }

  /** A canary starts exactly under the granted clearance of this id. */
  lemma CanaryStartsIff(steps: seq<Step>, id: Id, clearanceId: Id, canaryId: string)
    ensures var (db, r) := (Reach(steps), StartCanary(Reach(steps), id, clearanceId, canaryId));
      && (r.Ok? <==> id in db.patches && id in db.improvements && db.patches[id].state == Cleared
                     && db.improvements[id].clearance.Some? && db.improvements[id].clearance.value.clearanceId == clearanceId)
      && (r.Ok? ==> OnlyPatchDiffers(db, r.value, id) && r.value.improvements == db.improvements && r.value.drawn == db.drawn
                    && r.value.patches[id] == db.patches[id].(state := Canary, canaryId := Some(canaryId)))
  {
    ReachIsGood(steps);
    ReadingNeverThrows(steps, id);
    if id in Reach(steps).patches { assert SelfPatchRuns.RowOk(Reach(steps), id); }
  }

  lemma CanaryFinishesIff(steps: seq<Step>, id: Id, ok: bool)
    ensures var (db, r) := (Reach(steps), CompleteImprovementCanary(Reach(steps), id, ok));
      && (r.Ok? <==> id in db.patches && id in db.improvements && db.patches[id].state == Canary)
      && (r.Ok? ==> Moved(db, r.value, id, if ok then Deployed else RolledBack))
  {
    ReachIsGood(steps);
    ReadingNeverThrows(steps, id);
    if id in Reach(steps).patches { assert SelfPatchRuns.RowOk(Reach(steps), id); }
  }

  // ---- The end of a test ----

  lemma SettledAs(db: Db, id: Id, evidence: string, now: Time)
    requires Inv(db) && id in db.patches && id in db.improvements && Get(db, id).Ok? && db.patches[id].state == Tested
    ensures var r := Settle(db, id, evidence, now);
      && (r.Ok? <==> db.patches[id].evidence == Some(evidence))
      && (r.Ok? ==> if AnyMaterial(db.improvements[id].context.actions) then AsksOwner(db, r.value, id, evidence, now)
                    else Moved(db, r.value, id, Adopted))
  {
    assert SelfPatchRuns.RowOk(db, id);
    RiskIsWeight(db.improvements[id].context.actions);
  }

  lemma TestedStaysGood(db: Db, id: Id, evidence: string)
    requires Inv(db) && id in db.patches && id in db.improvements && db.patches[id].state == Draft
    ensures var r := MarkTested(db, id, evidence);
      && r.Ok? && Inv(r.value) && id in r.value.patches && id in r.value.improvements && Get(r.value, id).Ok?
      && r.value.patches[id].state == Tested && r.value.patches[id].evidence == Some(evidence)
      && r.value.improvements == db.improvements
  {
    var db' := MarkTested(db, id, evidence).value;
    assert SelfPatchRuns.RowOk(db, id);
    forall other <- db'.patches ensures SelfPatchRuns.RowOk(db', other) { assert SelfPatchRuns.RowOk(db, other); }
  }

  /** The evidence of a draft is stored first. Then an improvement with material actions asks the Owner, and any other is adopted. */
  lemma TestFinishes(steps: seq<Step>, id: Id, evidence: string, now: Time)
    requires id in Reach(steps).patches && id in Reach(steps).improvements && Reach(steps).patches[id].state == Draft
    ensures var (db, o) := (Reach(steps), CompleteTest(Reach(steps), id, evidence, now));
      && o.result.Ok? && |o.commits| == 2
      && OnlyPatchDiffers(db, o.commits[0], id) && o.commits[0].improvements == db.improvements && o.commits[0].drawn == db.drawn
      && o.commits[0].patches[id] == db.patches[id].(state := Tested, evidence := Some(evidence))
      && if AnyMaterial(db.improvements[id].context.actions) then AsksOwner(o.commits[0], o.commits[1], id, evidence, now)
         else Moved(o.commits[0], o.commits[1], id, Adopted)
  {
    ReachIsGood(steps);
    ReadingNeverThrows(steps, id);
    TestedStaysGood(Reach(steps), id, evidence);
    SettledAs(MarkTested(Reach(steps), id, evidence).value, id, evidence, now);
  }

  /** Called again, it does what a crash left undone, changes nothing where all was done, and refuses other evidence. */
  lemma TestFinishesAgain(steps: seq<Step>, id: Id, evidence: string, now: Time)
    requires id in Reach(steps).patches && id in Reach(steps).improvements && Reach(steps).patches[id].state != Draft
    ensures var (db, o) := (Reach(steps), CompleteTest(Reach(steps), id, evidence, now));
      && (o.result.Ok? <==> db.patches[id].evidence == Some(evidence) && db.patches[id].state != Failed)
      && (o.result.Err? || db.patches[id].state != Tested ==> o.commits == [])
      && (o.result.Ok? && db.patches[id].state == Tested ==>
            && |o.commits| == 1
            && if AnyMaterial(db.improvements[id].context.actions) then AsksOwner(db, o.commits[0], id, evidence, now)
               else Moved(db, o.commits[0], id, Adopted))
  {
    ReachIsGood(steps);
    ReadingNeverThrows(steps, id);
    if Reach(steps).patches[id].state == Tested { SettledAs(Reach(steps), id, evidence, now); }
  }

  /** Only improvements have a test to finish. */
  lemma PlainHasNoTestToFinish(db: Db, id: Id, evidence: string, now: Time)
    requires id !in db.improvements || id !in db.patches
    ensures CompleteTest(db, id, evidence, now) == Outcome([], Err(NotRegistered))
  {
  }
}
