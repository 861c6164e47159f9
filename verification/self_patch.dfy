/**
 The registry of self-made patches and self-improvements: an audit gate in two tables.
 SHA-256 has no collisions, so a patch's text and a manifest stand for their digests.
 */
module SelfPatch {
  import opened Wrappers

  type Id = nat
  type Time = int

  datatype State = Draft | Tested | Adopted | WaitApproval | Cleared | Canary | Deployed | RolledBack | Failed

  datatype Risk = R2 | R3

  datatype Category = PiUpgrade | Architecture | Capability | Security | Dependency

  datatype Action =
    | Test | NetworkAccess | DependencyInstall | ServiceRestart | CanaryDeploy | Rollback | GitPush
    | PolicyChange | CredentialAccess | RootAccess | DataDelete | ProductionCutover

  /** `valid` is the outcome of validateSelfPatch, `detected` what the scan of paths and added lines finds. */
  datatype Patch = Patch(text: string, branch: string, valid: bool, detected: set<Action>)

  /** The five texts of a proposal; `valid` tells whether requireText accepts all of them. */
  datatype Brief = Brief(title: string, background: string, benefit: string, risks: string, rollbackPlan: string, valid: bool)

  datatype Proposal = Proposal(category: Category, brief: Brief, actions: seq<Action>)

  /** A normalised proposal: its actions are stored sorted and without repetition. */
  datatype Context = Context(category: Category, brief: Brief, actions: set<Action>)

  datatype PatchRow = PatchRow(
    branch: string, text: string, state: State, approvalRisk: Option<Risk>, evidence: Option<string>, canaryId: Option<string>)

  datatype OwnerGrant = OwnerGrant(at: Time, owner: string)

  datatype Manifest = Manifest(
    clearanceId: Id, patchId: Id, branch: string, text: string, sourceJobId: Option<Id>, evidence: Option<string>,
    context: Context, risk: Risk, requestedAt: Time)

  datatype Clearance = Clearance(clearanceId: Id, digest: Manifest, requestedAt: Time, grant: Option<OwnerGrant>)

  datatype ImprovementRow = ImprovementRow(sourceJobId: Option<Id>, context: Context, clearance: Option<Clearance>)

  /** `drawn` numbers the clearance ids drawn so far. */
  datatype Db = Db(patches: map<Id, PatchRow>, improvements: map<Id, ImprovementRow>, drawn: nat)

  datatype Improvement = Improvement(id: Id, patch: PatchRow, row: ImprovementRow)

  datatype Failure =
    | BadPatch | BadProposal | AlreadyExists | BoundElsewhere | InvalidTransition | NotRegistered
    | ImprovementsNeedClearance | NoEvidence | LowRisk | WrongEvidence | WrongApproval | ClearanceMismatch | NoCanary
    | ClearanceInvalid | DigestMismatch

  // ---- Risk ----

  const HIGH_RISK: set<Action> := {PolicyChange, CredentialAccess, RootAccess, DataDelete, ProductionCutover}

  const MATERIAL: set<Action> := HIGH_RISK + {NetworkAccess, DependencyInstall, ServiceRestart, CanaryDeploy, GitPush}

  function RiskOf(actions: set<Action>): Risk {
    if actions * HIGH_RISK != {} then R3 else R2
  }

  predicate NeedsClearance(actions: set<Action>) {
    actions * MATERIAL != {}
  }

  predicate ValidProposal(p: Proposal) {
    p.brief.valid && 0 < |p.actions| <= 16 && forall i, j | 0 <= i < j < |p.actions| :: p.actions[i] != p.actions[j]
  }

  /** The actions that the category alone implies. */
  function Implied(category: Category): set<Action> {
    match category
    case PiUpgrade => {NetworkAccess, DependencyInstall, ServiceRestart}
    case Dependency => {NetworkAccess, DependencyInstall, ServiceRestart}
    case Security => {PolicyChange}
    case _ => {}
  }

  function Normalized(p: Proposal, patch: Patch): Context {
    Context(p.category, p.brief, (set a <- p.actions) + {Test, Rollback} + Implied(p.category) + patch.detected)
  }

  // ---- Reading ----

  function ManifestOf(i: Improvement, clearanceId: Id, risk: Risk, requestedAt: Time): Manifest {
    Manifest(clearanceId, i.id, i.patch.branch, i.patch.text, i.row.sourceJobId, i.patch.evidence, i.row.context, risk, requestedAt)
  }

  /** getImprovement: none for an unknown id or a plain patch; throws on a clearance that does not match its digest. */
  function Get(db: Db, id: Id): Result<Option<Improvement>, Failure> {
    if id !in db.patches || id !in db.improvements then Ok(None)
    else
      var i := Improvement(id, db.patches[id], db.improvements[id]);
      if i.row.clearance.None? then Ok(Some(i))
      else if i.patch.approvalRisk.None? then Err(ClearanceInvalid)
      else
        var c := i.row.clearance.value;
        if ManifestOf(i, c.clearanceId, i.patch.approvalRisk.value, c.requestedAt) != c.digest then Err(DigestMismatch)
        else Ok(Some(i))
  }

  function Require(db: Db, id: Id): Result<Improvement, Failure> {
    match Get(db, id)
    case Err(error) => Err(error)
    case Ok(None) => Err(NotRegistered)
    case Ok(Some(i)) => Ok(i)
  }

  // ---- Transitions ----

  function AllowedNext(current: State): set<State> {
    match current
    case Draft => {Tested, Failed}
    case Tested => {Adopted, WaitApproval, Failed}
    case WaitApproval => {Cleared, Canary, RolledBack}
    case Cleared => {Canary, RolledBack}
    case Canary => {Deployed, RolledBack, Failed}
    case _ => {}
  }

  /** SET state = ?, approval_risk = COALESCE(?, approval_risk), … */
  function Transition(db: Db, id: Id, next: State, risk: Option<Risk>, evidence: Option<string>, canaryId: Option<string>): Result<Db, Failure> {
    if id !in db.patches || next !in AllowedNext(db.patches[id].state) then Err(InvalidTransition)
    else
      var p := db.patches[id];
      Ok(db.(patches := db.patches[id := p.(state := next,
        approvalRisk := if risk.Some? then risk else p.approvalRisk,
        evidence := if evidence.Some? then evidence else p.evidence,
        canaryId := if canaryId.Some? then canaryId else p.canaryId)]))
  }

  function Move(db: Db, id: Id, next: State): Result<Db, Failure> {
    Transition(db, id, next, None, None, None)
  }

  // ---- The operations on plain patches ----

  function Inserted(db: Db, id: Id, patch: Patch): Db {
    db.(patches := db.patches[id := PatchRow(patch.branch, patch.text, Draft, None, None, None)])
  }

  function Create(db: Db, id: Id, patch: Patch): Result<Db, Failure> {
    if !patch.valid then Err(BadPatch)
    else if id in db.patches then Err(AlreadyExists)
    else Ok(Inserted(db, id, patch))
  }

  function MarkTested(db: Db, id: Id, evidence: string): Result<Db, Failure> {
    Transition(db, id, Tested, None, Some(evidence), None)
  }

  function RequestApproval(db: Db, id: Id, risk: Risk): Result<Db, Failure> {
    match Get(db, id)
    case Err(error) => Err(error)
    case Ok(Some(_)) => Err(ImprovementsNeedClearance)
    case Ok(None) => Transition(db, id, WaitApproval, Some(risk), None, None)
  }

  function ApproveCanary(db: Db, id: Id, risk: Risk, canaryId: string): Result<Db, Failure> {
    match Get(db, id)
    case Err(error) => Err(error)
    case Ok(Some(_)) => Err(ImprovementsNeedClearance)
    case Ok(None) =>
      if id !in db.patches || db.patches[id].state != WaitApproval || db.patches[id].approvalRisk != Some(risk) then Err(WrongApproval)
      else Transition(db, id, Canary, None, None, Some(canaryId))
  }

  function CompleteCanary(db: Db, id: Id, ok: bool): Result<Db, Failure> {
    match Get(db, id)
    case Err(error) => Err(error)
    case Ok(Some(_)) => Err(ImprovementsNeedClearance)
    case Ok(None) => Move(db, id, if ok then Deployed else RolledBack)
  }

  function Fail(db: Db, id: Id): Result<Db, Failure> {
    Move(db, id, Failed)
  }

  // ---- The operations on improvements ----

  predicate SourceTaken(db: Db, sourceJobId: Option<Id>) {
    sourceJobId.Some? && exists i <- db.improvements :: db.improvements[i].sourceJobId == sourceJobId
  }

  /** One transaction inserts both rows. */
  function CreateImprovement(db: Db, id: Id, patch: Patch, p: Proposal, sourceJobId: Option<Id>): Result<Db, Failure> {
    if !patch.valid then Err(BadPatch)
    else if !ValidProposal(p) then Err(BadProposal)
    else if id in db.patches || id in db.improvements || SourceTaken(db, sourceJobId) then Err(AlreadyExists)
    else
      var db' := Inserted(db, id, patch);
      Ok(db'.(improvements := db.improvements[id := ImprovementRow(sourceJobId, Normalized(p, patch), None)]))
  }

  /** createImprovementFromJob: the same request again changes nothing. */
  function CreateFromJob(db: Db, id: Id, patch: Patch, p: Proposal, sourceJobId: Id): Result<Db, Failure> {
    if !ValidProposal(p) then Err(BadProposal)
    else match Get(db, id)
      case Err(error) => Err(error)
      case Ok(None) => CreateImprovement(db, id, patch, p, Some(sourceJobId))
      case Ok(Some(i)) =>
        if i.row.sourceJobId == Some(sourceJobId) && i.patch.branch == patch.branch && i.patch.text == patch.text
           && i.row.context == Normalized(p, patch)
        then Ok(db) else Err(BoundElsewhere)
  }

  function RequestClearance(db: Db, id: Id, now: Time): Result<Db, Failure> {
    var required := Require(db, id);
    if required.Err? then Err(required.error)
    else
      var i := required.value;
      if i.patch.state != Tested || i.patch.evidence.None? then Err(NoEvidence)
      else if !NeedsClearance(i.row.context.actions) then Err(LowRisk)
      else
        var risk := RiskOf(i.row.context.actions);
        var clearance := Clearance(db.drawn, ManifestOf(i, db.drawn, risk, now), now, None);
        Ok(Db(db.patches[id := i.patch.(state := WaitApproval, approvalRisk := Some(risk))],
              if i.row.clearance.None? then db.improvements[id := i.row.(clearance := Some(clearance))] else db.improvements,
              db.drawn + 1))
  }

  function GrantClearance(db: Db, id: Id, clearanceId: Id, ownerId: string, now: Time): Result<Db, Failure> {
    var required := Require(db, id);
    if required.Err? then Err(required.error)
    else
      var (patch, row) := (required.value.patch, required.value.row);
      if patch.state != WaitApproval || row.clearance.None? || row.clearance.value.clearanceId != clearanceId
         || row.clearance.value.grant.Some?
      then Err(ClearanceMismatch)
      else
        Ok(db.(patches := db.patches[id := patch.(state := Cleared)],
               improvements := db.improvements[id := row.(clearance := Some(row.clearance.value.(grant := Some(OwnerGrant(now, ownerId)))))]))
  }

  function StartCanary(db: Db, id: Id, clearanceId: Id, canaryId: string): Result<Db, Failure> {
    var required := Require(db, id);
    if required.Err? then Err(required.error)
    else
      var (patch, row) := (required.value.patch, required.value.row);
      if patch.state != Cleared || row.clearance.None? || row.clearance.value.clearanceId != clearanceId
         || row.clearance.value.grant.None?
      then Err(ClearanceMismatch)
      else Transition(db, id, Canary, None, None, Some(canaryId))
  }

  function CompleteImprovementCanary(db: Db, id: Id, ok: bool): Result<Db, Failure> {
    var required := Require(db, id);
    if required.Err? then Err(required.error)
    else if required.value.patch.state != Canary || required.value.row.clearance.None? || required.value.row.clearance.value.grant.None?
    then Err(NoCanary)
    else Move(db, id, if ok then Deployed else RolledBack)
  }

  /** The states an operation commits one after the other, and how it ends. */
  datatype Outcome = Outcome(commits: seq<Db>, result: Result<(), Failure>)

  function Commit(update: Result<Db, Failure>): Outcome {
    match update
    case Ok(db) => Outcome([db], Ok(()))
    case Err(error) => Outcome([], Err(error))
  }

  /** After the test evidence: ask for clearance, or adopt. */
  function Settle(db: Db, id: Id, evidence: string, now: Time): Result<Db, Failure> {
    var required := Require(db, id);
    if required.Err? then Err(required.error)
    else if required.value.patch.state != Tested || required.value.patch.evidence != Some(evidence) then Err(WrongEvidence)
    else if NeedsClearance(required.value.row.context.actions) then RequestClearance(db, id, now)
    else Move(db, id, Adopted)
  }

  /** completeImprovementTest commits the evidence first, so a crash may leave the improvement TESTED. */
  function CompleteTest(db: Db, id: Id, evidence: string, now: Time): Outcome {
    var required := Require(db, id);
    if required.Err? then Outcome([], Err(required.error))
    else
      var patch := required.value.patch;
      if patch.evidence == Some(evidence) && patch.state in {Adopted, WaitApproval, Cleared, Canary, Deployed, RolledBack}
      then Outcome([], Ok(()))
      else if patch.state != Draft then Commit(Settle(db, id, evidence, now))
      else match MarkTested(db, id, evidence)
        case Err(error) => Outcome([], Err(error))
        case Ok(tested) =>
          var settled := Commit(Settle(tested, id, evidence, now));
          Outcome([tested] + settled.commits, settled.result)
  }

  predicate WaitsForAdoption(db: Db, id: Id) {
    && id in db.patches && id in db.improvements && db.patches[id].state == Tested
    && !NeedsClearance(db.improvements[id].context.actions)
  }

  /** open adopts the low-risk improvements that a crash left TESTED, in any order of these ids. */
  function Adopt(db: Db, ids: seq<Id>): Outcome
    decreases |ids|
  {
    if ids == [] then Outcome([], Ok(()))
    else match Get(db, ids[0])
      case Err(error) => Outcome([], Err(error))
      case Ok(_) =>
        if !WaitsForAdoption(db, ids[0]) then Adopt(db, ids[1..])
        else match Move(db, ids[0], Adopted)
          case Err(error) => Outcome([], Err(error))
          case Ok(db') =>
            var rest := Adopt(db', ids[1..]);
            Outcome([db'] + rest.commits, rest.result)
  }

  // ---- The registry ----

  /** A call returns and has made this update, or throws and has made none. */
  predicate Makes(before: Db, update: Result<Db, Failure>, after: Db, result: Result<(), Failure>) {
    match update
    case Ok(db) => after == db && result == Ok(())
    case Err(error) => after == before && result == Err(error)
  }

  class SelfPatchRegistry {
    var patches: map<Id, PatchRow>
    var improvements: map<Id, ImprovementRow>
    var drawn: nat

    function View(): Db
      reads this
    {
      Db(patches, improvements, drawn)
    }

    constructor ()
      ensures View() == Db(map[], map[], 0)
    {
      patches, improvements, drawn := map[], map[], 0;
    }

    method TransitionTo(id: Id, next: State, risk: Option<Risk>, evidence: Option<string>, canaryId: Option<string>)
      returns (result: Result<(), Failure>)
      modifies this`patches
      ensures Makes(old(View()), Transition(old(View()), id, next, risk, evidence, canaryId), View(), result)
    {
      if id !in patches || next !in AllowedNext(patches[id].state) { return Err(InvalidTransition); }
      var p := patches[id].(state := next);
      if risk.Some? { p := p.(approvalRisk := risk); }
      if evidence.Some? { p := p.(evidence := evidence); }
      if canaryId.Some? { p := p.(canaryId := canaryId); }
      patches := patches[id := p];
      result := Ok(());
    }

    method InsertPatch(id: Id, patch: Patch) returns (result: Result<(), Failure>)
      modifies this`patches
      ensures Makes(old(View()), Create(old(View()), id, patch), View(), result)
    {
      if !patch.valid { return Err(BadPatch); }
      if id in patches { return Err(AlreadyExists); }
      patches := patches[id := PatchRow(patch.branch, patch.text, Draft, None, None, None)];
      result := Ok(());
    }

    method RecordTest(id: Id, evidence: string) returns (result: Result<(), Failure>)
      modifies this`patches
      ensures Makes(old(View()), MarkTested(old(View()), id, evidence), View(), result)
    {
      result := TransitionTo(id, Tested, None, Some(evidence), None);
    }

    method AskApproval(id: Id, risk: Risk) returns (result: Result<(), Failure>)
      modifies this`patches
      ensures Makes(old(View()), RequestApproval(old(View()), id, risk), View(), result)
    {
      var improvement := Get(View(), id);
      if improvement.Err? { return Err(improvement.error); }
      if improvement.value.Some? { return Err(ImprovementsNeedClearance); }
      result := TransitionTo(id, WaitApproval, Some(risk), None, None);
    }

    method AllowCanary(id: Id, risk: Risk, canaryId: string) returns (result: Result<(), Failure>)
      modifies this`patches
      ensures Makes(old(View()), ApproveCanary(old(View()), id, risk, canaryId), View(), result)
    {
      var improvement := Get(View(), id);
      if improvement.Err? { return Err(improvement.error); }
      if improvement.value.Some? { return Err(ImprovementsNeedClearance); }
      if id !in patches || patches[id].state != WaitApproval || patches[id].approvalRisk != Some(risk) { return Err(WrongApproval); }
      result := TransitionTo(id, Canary, None, None, Some(canaryId));
    }

    method EndCanary(id: Id, ok: bool) returns (result: Result<(), Failure>)
      modifies this`patches
      ensures Makes(old(View()), CompleteCanary(old(View()), id, ok), View(), result)
    {
      var improvement := Get(View(), id);
      if improvement.Err? { return Err(improvement.error); }
      if improvement.value.Some? { return Err(ImprovementsNeedClearance); }
      result := TransitionTo(id, if ok then Deployed else RolledBack, None, None, None);
    }

    method MarkFailed(id: Id) returns (result: Result<(), Failure>)
      modifies this`patches
      ensures Makes(old(View()), Fail(old(View()), id), View(), result)
    {
      result := TransitionTo(id, Failed, None, None, None);
    }

    method InsertImprovement(id: Id, patch: Patch, p: Proposal, sourceJobId: Option<Id>) returns (result: Result<(), Failure>)
      modifies this`patches, this`improvements
      ensures Makes(old(View()), CreateImprovement(old(View()), id, patch, p, sourceJobId), View(), result)
    {
      if !patch.valid { return Err(BadPatch); }
      var normalized := Normalize(p, patch);
      if normalized.Err? { return Err(normalized.error); }
      if id in patches || id in improvements || SourceTaken(View(), sourceJobId) { return Err(AlreadyExists); }
      patches := patches[id := PatchRow(patch.branch, patch.text, Draft, None, None, None)];
      improvements := improvements[id := ImprovementRow(sourceJobId, normalized.value, None)];
      result := Ok(());
    }

    method AskClearance(id: Id, now: Time) returns (result: Result<(), Failure>)
      modifies this
      ensures Makes(old(View()), RequestClearance(old(View()), id, now), View(), result)
    {
      var required := Require(View(), id);
      if required.Err? { return Err(required.error); }
      var i := required.value;
      if i.patch.state != Tested || i.patch.evidence.None? { return Err(NoEvidence); }
      if !NeedsClearance(i.row.context.actions) { return Err(LowRisk); }
      var risk := RiskOf(i.row.context.actions);
      var manifest := ManifestOf(i, drawn, risk, now);
      patches := patches[id := i.patch.(state := WaitApproval, approvalRisk := Some(risk))];
      if i.row.clearance.None? {
        improvements := improvements[id := i.row.(clearance := Some(Clearance(drawn, manifest, now, None)))];
      }
      drawn := drawn + 1;
      result := Ok(());
    }

    method Grant(id: Id, clearanceId: Id, ownerId: string, now: Time) returns (result: Result<(), Failure>)
      modifies this`patches, this`improvements
      ensures Makes(old(View()), GrantClearance(old(View()), id, clearanceId, ownerId, now), View(), result)
    {
      var required := Require(View(), id);
      if required.Err? { return Err(required.error); }
      var patch, row := required.value.patch, required.value.row;
      if patch.state != WaitApproval || row.clearance.None? { return Err(ClearanceMismatch); }
      var clearance := row.clearance.value;
      if clearance.clearanceId != clearanceId || clearance.grant.Some? { return Err(ClearanceMismatch); }
      patches := patches[id := patch.(state := Cleared)];
      improvements := improvements[id := row.(clearance := Some(clearance.(grant := Some(OwnerGrant(now, ownerId)))))];
      result := Ok(());
    }

    method BeginCanary(id: Id, clearanceId: Id, canaryId: string) returns (result: Result<(), Failure>)
      modifies this`patches
      ensures Makes(old(View()), StartCanary(old(View()), id, clearanceId, canaryId), View(), result)
    {
      var required := Require(View(), id);
      if required.Err? { return Err(required.error); }
      var patch, row := required.value.patch, required.value.row;
      if patch.state != Cleared || row.clearance.None? { return Err(ClearanceMismatch); }
      if row.clearance.value.clearanceId != clearanceId || row.clearance.value.grant.None? { return Err(ClearanceMismatch); }
      result := TransitionTo(id, Canary, None, None, Some(canaryId));
    }

    method FinishCanary(id: Id, ok: bool) returns (result: Result<(), Failure>)
      modifies this`patches
      ensures Makes(old(View()), CompleteImprovementCanary(old(View()), id, ok), View(), result)
    {
      var required := Require(View(), id);
      if required.Err? { return Err(required.error); }
      var patch, row := required.value.patch, required.value.row;
      if patch.state != Canary || row.clearance.None? || row.clearance.value.grant.None? { return Err(NoCanary); }
      result := TransitionTo(id, if ok then Deployed else RolledBack, None, None, None);
    }

    method FinishTest(id: Id, evidence: string, now: Time) returns (result: Result<(), Failure>)
      modifies this
      ensures var outcome := CompleteTest(old(View()), id, evidence, now);
        result == outcome.result && View() == LastOf(old(View()), outcome.commits)
    {
      var required := Require(View(), id);
      if required.Err? { return Err(required.error); }
      var patch := required.value.patch;
      if patch.evidence == Some(evidence) && patch.state in {Adopted, WaitApproval, Cleared, Canary, Deployed, RolledBack} {
        return Ok(());
      }
      if patch.state == Draft {
        result := TransitionTo(id, Tested, None, Some(evidence), None);
        if result.Err? { return; }
      }
      required := Require(View(), id);
      if required.Err? { return Err(required.error); }
      if required.value.patch.state != Tested || required.value.patch.evidence != Some(evidence) { return Err(WrongEvidence); }
      if NeedsClearance(required.value.row.context.actions) {
        result := AskClearance(id, now);
      } else {
        result := TransitionTo(id, Adopted, None, None, None);
      }
    }

    method Open(ids: seq<Id>) returns (result: Result<(), Failure>)
      modifies this`patches
      ensures var outcome := Adopt(old(View()), ids);
        result == outcome.result && View() == LastOf(old(View()), outcome.commits)
    {
      var n := 0;
      while n < |ids|
        invariant 0 <= n <= |ids|
        invariant var (outcome, rest) := (Adopt(old(View()), ids), Adopt(View(), ids[n..]));
          outcome.result == rest.result && LastOf(old(View()), outcome.commits) == LastOf(View(), rest.commits)
      {
        var improvement := Get(View(), ids[n]);
        assert ids[n..][1..] == ids[n + 1..];
        if improvement.Err? { return Err(improvement.error); }
        if WaitsForAdoption(View(), ids[n]) {
          var moved := TransitionTo(ids[n], Adopted, None, None, None);
          if moved.Err? { return moved; }
        }
        n := n + 1;
      }
      result := Ok(());
    }
  }

  function LastOf(db: Db, commits: seq<Db>): Db {
    if commits == [] then db else commits[|commits| - 1]
  }

  /** normalizeImprovementContext: a set of actions that only grows. */
  method Normalize(p: Proposal, patch: Patch) returns (result: Result<Context, Failure>)
    ensures result == if ValidProposal(p) then Ok(Normalized(p, patch)) else Err(BadProposal)
  {
    if !ValidProposal(p) { return Err(BadProposal); }
    var actions := set a <- p.actions;
    actions := actions + {Test};
    actions := actions + {Rollback};
    if p.category == PiUpgrade || p.category == Dependency {
      actions := actions + {NetworkAccess};
      actions := actions + {DependencyInstall};
      actions := actions + {ServiceRestart};
    }
    if p.category == Security {
      actions := actions + {PolicyChange};
    }
    actions := actions + patch.detected;
    assert actions == Normalized(p, patch).actions;
    result := Ok(Context(p.category, p.brief, actions));
  }
}
