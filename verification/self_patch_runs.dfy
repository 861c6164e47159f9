/** Runs of the registry: any sequence of calls, restarts and crashes between two commits of one call. */
module SelfPatchRuns {
  import opened Wrappers
  import opened SelfPatch

  datatype Op =
    | NewPatch(id: Id, patch: Patch)
    | NewImprovement(id: Id, patch: Patch, proposal: Proposal, sourceJobId: Option<Id>)
    | NewFromJob(id: Id, patch: Patch, proposal: Proposal, sourceJob: Id)
    | RecordsTest(id: Id, evidence: string)
    | FinishesTest(id: Id, evidence: string)
    | AsksApproval(id: Id, risk: Risk)
    | AllowsCanary(id: Id, risk: Risk, canaryId: string)
    | EndsCanary(id: Id, ok: bool)
    | AsksClearance(id: Id)
    | Grants(id: Id, clearanceId: Id, ownerId: string)
    | StartsCanary(id: Id, clearanceId: Id, canaryId: string)
    | FinishesCanary(id: Id, ok: bool)
    | Fails(id: Id)
    | Opens(ids: seq<Id>)

  /** A crash is a call of which only some commits happened. */
  datatype Step = Step(op: Op, now: Time, commits: nat)

  function Commits(db: Db, op: Op, now: Time): seq<Db> {
    match op
    case NewPatch(id, patch) => Commit(Create(db, id, patch)).commits
    case NewImprovement(id, patch, proposal, sourceJobId) => Commit(CreateImprovement(db, id, patch, proposal, sourceJobId)).commits
    case NewFromJob(id, patch, proposal, sourceJob) => Commit(CreateFromJob(db, id, patch, proposal, sourceJob)).commits
    case RecordsTest(id, evidence) => Commit(MarkTested(db, id, evidence)).commits
    case FinishesTest(id, evidence) => CompleteTest(db, id, evidence, now).commits
    case AsksApproval(id, risk) => Commit(RequestApproval(db, id, risk)).commits
    case AllowsCanary(id, risk, canaryId) => Commit(ApproveCanary(db, id, risk, canaryId)).commits
    case EndsCanary(id, ok) => Commit(CompleteCanary(db, id, ok)).commits
    case AsksClearance(id) => Commit(RequestClearance(db, id, now)).commits
    case Grants(id, clearanceId, ownerId) => Commit(GrantClearance(db, id, clearanceId, ownerId, now)).commits
    case StartsCanary(id, clearanceId, canaryId) => Commit(StartCanary(db, id, clearanceId, canaryId)).commits
    case FinishesCanary(id, ok) => Commit(CompleteImprovementCanary(db, id, ok)).commits
    case Fails(id) => Commit(Fail(db, id)).commits
    case Opens(ids) => Adopt(db, ids).commits
  }

  /** The commits of one step, cut short where the process died. */
  function Made(db: Db, s: Step): seq<Db> {
    var all := Commits(db, s.op, s.now);
    if s.commits < |all| then all[..s.commits] else all
  }

  /** All databases a run commits, in order. */
  function Trace(db: Db, steps: seq<Step>): seq<Db>
    decreases |steps|
  {
    if steps == [] then [] else Made(db, steps[0]) + Trace(LastOf(db, Made(db, steps[0])), steps[1..])
  }

  function RunAll(db: Db, steps: seq<Step>): Db
    decreases |steps|
  {
    if steps == [] then db else RunAll(LastOf(db, Made(db, steps[0])), steps[1..])
  }

  const FRESH: Db := Db(map[], map[], 0)

  // ---- The invariant ----

  ghost predicate ClearanceOk(id: Id, p: PatchRow, r: ImprovementRow, c: Clearance, drawn: nat) {
    var risk := RiskOf(r.context.actions);
    && NeedsClearance(r.context.actions) && p.approvalRisk == Some(risk) && p.evidence.Some? && c.clearanceId < drawn
    && c.digest == ManifestOf(Improvement(id, p, r), c.clearanceId, risk, c.requestedAt)
  }

  ghost predicate ImprovementOk(id: Id, p: PatchRow, r: ImprovementRow, drawn: nat) {
    && {Test, Rollback} <= r.context.actions
    && (p.state in {Tested, Adopted} ==> p.evidence.Some?)
    && (p.state in {Draft, Tested, Adopted} ==> r.clearance.None?)
    && (p.state == Adopted ==> !NeedsClearance(r.context.actions))
    && (p.state == WaitApproval ==> r.clearance.Some? && r.clearance.value.grant.None?)
    && (p.state in {Cleared, Canary, Deployed, RolledBack} ==> r.clearance.Some? && r.clearance.value.grant.Some?)
    && (r.clearance.Some? ==> ClearanceOk(id, p, r, r.clearance.value, drawn))
  }

  ghost predicate PlainOk(p: PatchRow) {
    && p.state !in {Adopted, Cleared}
    && (p.state in {WaitApproval, Canary, Deployed, RolledBack} ==> p.approvalRisk.Some?)
  }

  ghost predicate FieldsOk(p: PatchRow) {
    && (p.state == Draft ==> p.evidence.None?)
    && (p.state in {Draft, Tested, Adopted} ==> p.approvalRisk.None?)
    && (p.state in {Draft, Tested, Adopted, WaitApproval, Cleared} ==> p.canaryId.None?)
  }

  ghost predicate RowOk(db: Db, id: Id)
    requires id in db.patches
  {
    FieldsOk(db.patches[id]) &&
    if id in db.improvements then ImprovementOk(id, db.patches[id], db.improvements[id], db.drawn)
    else PlainOk(db.patches[id])
  }

  ghost predicate Inv(db: Db) {
    db.improvements.Keys <= db.patches.Keys && forall id <- db.patches :: RowOk(db, id)
  }

  // ---- What never goes back ----

  function Rank(s: State): nat {
    match s
    case Draft => 0
    case Tested => 1
    case WaitApproval => 2
    case Cleared => 3
    case Canary => 4
    case _ => 5
  }

  predicate Kept<T(==)>(old': Option<T>, new': Option<T>) {
    old'.Some? ==> new' == old'
  }

  predicate PatchExtends(p: PatchRow, p': PatchRow) {
    && p'.branch == p.branch && p'.text == p.text
    && Kept(p.evidence, p'.evidence) && Kept(p.approvalRisk, p'.approvalRisk) && Kept(p.canaryId, p'.canaryId)
    && (p'.state == p.state || Rank(p.state) < Rank(p'.state))
  }

  predicate ClearanceExtends(c: Option<Clearance>, c': Option<Clearance>) {
    c.Some? ==> c'.Some? && c'.value == c.value.(grant := c'.value.grant) && Kept(c.value.grant, c'.value.grant)
  }

  predicate ImprovementExtends(r: ImprovementRow, r': ImprovementRow) {
    r' == r.(clearance := r'.clearance) && ClearanceExtends(r.clearance, r'.clearance)
  }

  ghost predicate RowExtends(db: Db, db': Db, id: Id)
    requires id in db.patches
  {
    && id in db'.patches && PatchExtends(db.patches[id], db'.patches[id])
    && (id in db.improvements <==> id in db'.improvements)
    && (id in db.improvements ==> ImprovementExtends(db.improvements[id], db'.improvements[id]))
  }

  ghost predicate Extends(db: Db, db': Db) {
    db.drawn <= db'.drawn && forall id <- db.patches :: RowExtends(db, db', id)
  }

  /** A commit that keeps the invariant and takes nothing back. */
  ghost predicate Good(db: Db, db': Db) {
    Inv(db') && Extends(db, db')
  }

  // ---- Every kind of commit is good ----

  /** A commit that touches the rows of one id. */
  lemma OneRowIsGood(db: Db, db': Db, id: Id)
    requires Inv(db) && id in db'.patches && RowOk(db', id) && db.drawn <= db'.drawn
    requires db'.patches == db.patches[id := db'.patches[id]]
    requires db'.improvements == db.improvements
          || (id in db'.improvements && db'.improvements == db.improvements[id := db'.improvements[id]])
    requires id in db.patches ==> RowExtends(db, db', id)
    ensures Good(db, db')
  {
    forall other <- db'.patches ensures RowOk(db', other) {
      if other != id {
        assert RowOk(db, other);
      }
    }
    forall other <- db.patches ensures RowExtends(db, db', other) {
    }
  }

  lemma SameIsGood(db: Db)
    requires Inv(db)
    ensures Good(db, db)
  {
  }

  lemma NewPatchIsGood(db: Db, id: Id, patch: Patch)
    requires Inv(db) && Create(db, id, patch).Ok?
    ensures Good(db, Create(db, id, patch).value)
  {
    OneRowIsGood(db, Create(db, id, patch).value, id);
  }

  lemma NewImprovementIsGood(db: Db, id: Id, patch: Patch, p: Proposal, sourceJobId: Option<Id>)
    requires Inv(db) && CreateImprovement(db, id, patch, p, sourceJobId).Ok?
    ensures Good(db, CreateImprovement(db, id, patch, p, sourceJobId).value)
  {
    OneRowIsGood(db, CreateImprovement(db, id, patch, p, sourceJobId).value, id);
  }

  lemma TransitionIsGood(db: Db, id: Id, next: State, risk: Option<Risk>, evidence: Option<string>, canaryId: Option<string>)
    requires Inv(db) && Transition(db, id, next, risk, evidence, canaryId).Ok?
    requires RowOk(Transition(db, id, next, risk, evidence, canaryId).value, id)
    requires (risk.Some? ==> db.patches[id].approvalRisk.None?) && (evidence.Some? ==> db.patches[id].evidence.None?)
          && (canaryId.Some? ==> db.patches[id].canaryId.None?)
    ensures Good(db, Transition(db, id, next, risk, evidence, canaryId).value)
  {
    OneRowIsGood(db, Transition(db, id, next, risk, evidence, canaryId).value, id);
  }

  lemma GetNeverThrows(db: Db, id: Id)
    requires Inv(db)
    ensures Get(db, id) == Ok(if id in db.improvements then Some(Improvement(id, db.patches[id], db.improvements[id])) else None)
  {
    if id in db.patches {
      assert RowOk(db, id);
    }
  }

  lemma MarkTestedIsGood(db: Db, id: Id, evidence: string)
    requires Inv(db) && MarkTested(db, id, evidence).Ok?
    ensures Good(db, MarkTested(db, id, evidence).value)
  {
    assert RowOk(db, id);
    TransitionIsGood(db, id, Tested, None, Some(evidence), None);
  }

  lemma PlainIsGood(db: Db, id: Id, op: Op, now: Time)
    requires Inv(db) && (op.AsksApproval? || op.AllowsCanary? || op.EndsCanary?) && op.id == id
    requires Commits(db, op, now) != []
    ensures Good(db, Commits(db, op, now)[0])
  {
    GetNeverThrows(db, id);
    if id in db.patches { assert RowOk(db, id); }
    match op
    case AsksApproval(_, risk) => TransitionIsGood(db, id, WaitApproval, Some(risk), None, None);
    case AllowsCanary(_, _, canaryId) => TransitionIsGood(db, id, Canary, None, None, Some(canaryId));
    case EndsCanary(_, ok) => TransitionIsGood(db, id, if ok then Deployed else RolledBack, None, None, None);
    case _ =>
  }

  lemma FailIsGood(db: Db, id: Id)
    requires Inv(db) && Fail(db, id).Ok?
    ensures Good(db, Fail(db, id).value)
  {
    assert RowOk(db, id);
    TransitionIsGood(db, id, Failed, None, None, None);
  }

  lemma RequestClearanceIsGood(db: Db, id: Id, now: Time)
    requires Inv(db) && RequestClearance(db, id, now).Ok?
    ensures Good(db, RequestClearance(db, id, now).value)
  {
    GetNeverThrows(db, id);
    assert RowOk(db, id);
    OneRowIsGood(db, RequestClearance(db, id, now).value, id);
  }

  lemma GrantIsGood(db: Db, id: Id, clearanceId: Id, ownerId: string, now: Time)
    requires Inv(db) && GrantClearance(db, id, clearanceId, ownerId, now).Ok?
    ensures Good(db, GrantClearance(db, id, clearanceId, ownerId, now).value)
  {
    GetNeverThrows(db, id);
    assert RowOk(db, id);
    OneRowIsGood(db, GrantClearance(db, id, clearanceId, ownerId, now).value, id);
  }

  lemma StartCanaryIsGood(db: Db, id: Id, clearanceId: Id, canaryId: string)
    requires Inv(db) && StartCanary(db, id, clearanceId, canaryId).Ok?
    ensures Good(db, StartCanary(db, id, clearanceId, canaryId).value)
  {
    GetNeverThrows(db, id);
    assert RowOk(db, id);
    TransitionIsGood(db, id, Canary, None, None, Some(canaryId));
  }

  lemma CompleteCanaryIsGood(db: Db, id: Id, ok: bool)
    requires Inv(db) && CompleteImprovementCanary(db, id, ok).Ok?
    ensures Good(db, CompleteImprovementCanary(db, id, ok).value)
  {
    GetNeverThrows(db, id);
    assert RowOk(db, id);
    TransitionIsGood(db, id, if ok then Deployed else RolledBack, None, None, None);
  }

  lemma AdoptionIsGood(db: Db, id: Id)
    requires Inv(db) && WaitsForAdoption(db, id)
    ensures Move(db, id, Adopted).Ok? && Good(db, Move(db, id, Adopted).value)
  {
    assert RowOk(db, id);
    TransitionIsGood(db, id, Adopted, None, None, None);
  }

  lemma SettleIsGood(db: Db, id: Id, evidence: string, now: Time)
    requires Inv(db) && Settle(db, id, evidence, now).Ok?
    ensures Good(db, Settle(db, id, evidence, now).value)
  {
    GetNeverThrows(db, id);
    if NeedsClearance(db.improvements[id].context.actions) {
      RequestClearanceIsGood(db, id, now);
    } else {
      AdoptionIsGood(db, id);
    }
  }

  // ---- Every step ----

  ghost predicate Chain(db: Db, commits: seq<Db>)
    decreases |commits|
  {
    commits != [] ==> Good(db, commits[0]) && Chain(commits[0], commits[1..])
  }

  lemma CompleteTestIsGood(db: Db, id: Id, evidence: string, now: Time)
    requires Inv(db)
    ensures Chain(db, CompleteTest(db, id, evidence, now).commits)
  {
    GetNeverThrows(db, id);
    if id in db.improvements {
      if db.patches[id].state == Draft {
        MarkTestedIsGood(db, id, evidence);
        var tested := MarkTested(db, id, evidence).value;
        if Settle(tested, id, evidence, now).Ok? {
          SettleIsGood(tested, id, evidence, now);
        }
      } else if Settle(db, id, evidence, now).Ok? {
        SettleIsGood(db, id, evidence, now);
      }
    }
  }

  lemma {:induction false} AdoptIsGood(db: Db, ids: seq<Id>)
    requires Inv(db)
    ensures Chain(db, Adopt(db, ids).commits) && Adopt(db, ids).result == Ok(())
    decreases |ids|
  {
    if ids != [] {
      GetNeverThrows(db, ids[0]);
      if WaitsForAdoption(db, ids[0]) {
        AdoptionIsGood(db, ids[0]);
        var db' := Move(db, ids[0], Adopted).value;
        AdoptIsGood(db', ids[1..]);
        assert ([db'] + Adopt(db', ids[1..]).commits)[1..] == Adopt(db', ids[1..]).commits;
      } else {
        AdoptIsGood(db, ids[1..]);
      }
    }
  }

  lemma CommitsAreGood(db: Db, op: Op, now: Time)
    requires Inv(db)
    ensures Chain(db, Commits(db, op, now))
  {
    if op.FinishesTest? {
      CompleteTestIsGood(db, op.id, op.evidence, now);
    } else if op.Opens? {
      AdoptIsGood(db, op.ids);
    } else if Commits(db, op, now) != [] {
      CommitIsGood(db, op, now);
    }
  }

  lemma NewFromJobIsGood(db: Db, id: Id, patch: Patch, p: Proposal, sourceJob: Id)
    requires Inv(db) && CreateFromJob(db, id, patch, p, sourceJob).Ok?
    ensures Good(db, CreateFromJob(db, id, patch, p, sourceJob).value)
  {
    GetNeverThrows(db, id);
    if id in db.improvements { SameIsGood(db); } else { NewImprovementIsGood(db, id, patch, p, Some(sourceJob)); }
  }

  lemma CommitIsGood(db: Db, op: Op, now: Time)
    requires Inv(db) && !op.FinishesTest? && !op.Opens? && Commits(db, op, now) != []
    ensures Good(db, Commits(db, op, now)[0])
  {
    match op
    case NewPatch(id, patch) => NewPatchIsGood(db, id, patch);
    case NewImprovement(id, patch, p, source) => NewImprovementIsGood(db, id, patch, p, source);
    case NewFromJob(id, patch, p, source) => NewFromJobIsGood(db, id, patch, p, source);
    case RecordsTest(id, evidence) => MarkTestedIsGood(db, id, evidence);
    case AsksApproval(id, _) => PlainIsGood(db, id, op, now);
    case AllowsCanary(id, _, _) => PlainIsGood(db, id, op, now);
    case EndsCanary(id, _) => PlainIsGood(db, id, op, now);
    case AsksClearance(id) => RequestClearanceIsGood(db, id, now);
    case Grants(id, clearanceId, ownerId) => GrantIsGood(db, id, clearanceId, ownerId, now);
    case StartsCanary(id, clearanceId, canaryId) => StartCanaryIsGood(db, id, clearanceId, canaryId);
    case FinishesCanary(id, ok) => CompleteCanaryIsGood(db, id, ok);
    case Fails(id) => FailIsGood(db, id);
  }

  lemma {:induction false} CutChain(db: Db, commits: seq<Db>, n: nat)
    requires Chain(db, commits) && n <= |commits|
    ensures Chain(db, commits[..n])
    decreases |commits|
  {
    if n > 0 {
      CutChain(commits[0], commits[1..], n - 1);
      assert commits[..n][1..] == commits[1..][..n - 1];
    }
  }

  lemma ExtendsTrans(a: Db, b: Db, c: Db)
    requires Extends(a, b) && Extends(b, c)
    ensures Extends(a, c)
  {
    forall id <- a.patches ensures RowExtends(a, c, id) {
      assert RowExtends(a, b, id) && RowExtends(b, c, id);
    }
  }

  lemma {:induction false} ChainEnds(db: Db, commits: seq<Db>)
    requires Inv(db) && Chain(db, commits)
    ensures Good(db, LastOf(db, commits))
    decreases |commits|
  {
    if commits == [] {
      SameIsGood(db);
    } else {
      ChainEnds(commits[0], commits[1..]);
      ExtendsTrans(db, commits[0], LastOf(commits[0], commits[1..]));
    }
  }

  lemma {:induction false} ChainJoins(db: Db, first: seq<Db>, second: seq<Db>)
    requires Chain(db, first) && Chain(LastOf(db, first), second)
    ensures Chain(db, first + second)
    decreases |first|
  {
    if first == [] {
      assert first + second == second;
    } else {
      ChainJoins(first[0], first[1..], second);
      assert (first + second)[1..] == first[1..] + second;
    }
  }

  lemma MadeIsGood(db: Db, s: Step)
    requires Inv(db)
    ensures Chain(db, Made(db, s)) && Good(db, LastOf(db, Made(db, s)))
  {
    CommitsAreGood(db, s.op, s.now);
    var all := Commits(db, s.op, s.now);
    if s.commits < |all| {
      CutChain(db, all, s.commits);
    }
    ChainEnds(db, Made(db, s));
  }

  lemma {:induction false} RunIsGood(db: Db, steps: seq<Step>)
    requires Inv(db)
    ensures Good(db, RunAll(db, steps)) && Chain(db, Trace(db, steps))
    decreases |steps|
  {
    if steps == [] {
      SameIsGood(db);
    } else {
      var made := Made(db, steps[0]);
      MadeIsGood(db, steps[0]);
      RunIsGood(LastOf(db, made), steps[1..]);
      ExtendsTrans(db, LastOf(db, made), RunAll(db, steps));
      ChainJoins(db, made, Trace(LastOf(db, made), steps[1..]));
    }
  }
}
