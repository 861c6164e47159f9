/** What a model token is good for, how long it is held, and when one is issued. */
module ModelRoutes {
  import opened Wrappers
  import opened Jobs
  import opened HubRuns
  import opened ModelAccess

  const FOR_CHAT: set<string> := {"/v1/chat/completions", "/v1/responses"}

  /** The paths that a Job of each tool may call. */
  const ROUTES: map<Tool, set<string>> := map[
    Agent := FOR_CHAT,
    Pi := FOR_CHAT,
    Codex := {"/v1/responses", "/v1/responses/compact"},
    Claude := {"/v1/messages", "/v1/messages/count_tokens"}]

  /** The provider and model that a Job of this tool gets under this configuration. */
  predicate Upstream(config: Config, tool: Tool, provider: Provider, model: string) {
    match provider
    case Anthropic => tool == Claude && config.anthropic == Some(model)
    case OpenAi =>
      && tool in {Agent, Codex, Pi} && config.openAi.Some?
      && (tool == Codex ==> model == config.openAi.value.0) && (tool in {Agent, Pi} ==> model == config.openAi.value.1)
  }

  /** The Job has not ended, and this is its Runner's current lease, up to its very end. */
  predicate LeaseIsActive(t: Table, jobId: Id, runnerId: Id, leaseId: Id, now: Time) {
    && jobId in t.jobs && t.jobs[jobId].runnerId == runnerId && t.jobs[jobId].status !in {Succeeded, Failed, Cancelled}
    && t.jobs[jobId].spec.Some? && t.jobs[jobId].spec.value.leaseId == leaseId && now <= t.jobs[jobId].spec.value.leaseExpiresAt
  }

  function Reach(clock: Time, steps: seq<AccessStep>): AccessWorld {
    RunAccess(StartAccess(clock), steps)
  }

  lemma ReachIsOk(clock: Time, steps: seq<AccessStep>)
    ensures AccessInv(Reach(clock, steps)) && TargetsOk(Reach(clock, steps))
  {
    FreshIsGood(clock);
    RunKeepsTargets(StartAccess(clock), steps);
  }

  // ---- The target of a grant ----

  /** The grant is the answer to its request, for the Job's own tool, and names what was configured for it when it was issued. */
  ghost predicate TargetOk(t: Table, issued: map<Id, Issued>, s: StoredGrant) {
    && s.grant.jobId == s.request.jobId && s.grant.runnerId == s.request.runnerId && s.grant.leaseId == s.request.leaseId
    && s.grant.tool == s.request.tool
    && s.grant.jobId in t.jobs && t.jobs[s.grant.jobId].request.tool == s.grant.tool
    && s.grant.accessToken in issued
    && Upstream(issued[s.grant.accessToken].config, s.grant.tool, s.grant.provider, s.grant.model)
  }

  ghost predicate TargetsOk(a: AccessWorld) {
    forall h <- a.broker.byToken :: TargetOk(a.world.hub.jobs, a.issued, a.broker.byToken[h])
  }

  lemma TargetStays(t: Table, t': Table, issued: map<Id, Issued>, issued': map<Id, Issued>, s: StoredGrant)
    requires TargetOk(t, issued, s) && TableExtends(t, t')
    requires s.grant.accessToken in issued' && issued'[s.grant.accessToken] == issued[s.grant.accessToken]
    ensures TargetOk(t', issued', s)
  {
    assert JobExtends(t, t.jobs[s.grant.jobId], t'.jobs[s.grant.jobId]);
  }

  lemma NewTargetIsOk(b: Broker, t: Table, config: Config, r: AccessRequest, now: Time)
    requires var (b', result) := Issue(b, t, config, r, now); b'.drawn > b.drawn && IndexesAgree(b)
    ensures var (b', result) := Issue(b, t, config, r, now);
      && result.Ok? && b'.drawn == b.drawn + 1 && b.drawn in b'.byToken && b'.byToken[b.drawn] == StoredGrant(r, result.value)
      && TargetOk(t, map[b.drawn := Issued(now, config)], b'.byToken[b.drawn])
  {
  }

  lemma IssueKeepsTargets(a: AccessWorld, config: Config, r: AccessRequest, now: Time)
    requires IndexesAgree(a.broker) && TargetsOk(a)
    ensures TargetsOk(IssueTo(a, config, r, now))
  {
    var a' := IssueTo(a, config, r, now);
    IssueAddsAtMostOne(a.broker, a.world.hub.jobs, config, r, now);
    forall h <- a'.broker.byToken ensures TargetOk(a'.world.hub.jobs, a'.issued, a'.broker.byToken[h]) {
      if h == a.broker.drawn {
        NewTargetIsOk(a.broker, a.world.hub.jobs, config, r, now);
      } else {
        assert TargetOk(a.world.hub.jobs, a.issued, a.broker.byToken[h]);
      }
    }
  }

  lemma HubStepKeepsTargets(a: AccessWorld, step: Step)
    requires Inv(a.world) && TargetsOk(a)
    ensures TargetsOk(NextAccess(a, OnHub(step)))
  {
    var a' := NextAccess(a, OnHub(step));
    NextAccessExtends(a, OnHub(step));
    forall h <- a'.broker.byToken ensures TargetOk(a'.world.hub.jobs, a'.issued, a'.broker.byToken[h]) {
      TargetStays(a.world.hub.jobs, a'.world.hub.jobs, a.issued, a'.issued, a.broker.byToken[h]);
    }
  }

  lemma RestOnlyDrops(a: AccessWorld, s: AccessStep)
    requires !s.OnHub? && !s.OnIssue?
    ensures var a' := NextAccess(a, s);
      && a'.world.hub == a.world.hub && a'.issued == a.issued
      && forall h <- a'.broker.byToken :: h in a.broker.byToken && a'.broker.byToken[h] == a.broker.byToken[h]
  {
  }

  lemma RestKeepsTargets(a: AccessWorld, s: AccessStep)
    requires TargetsOk(a) && !s.OnHub? && !s.OnIssue?
    ensures TargetsOk(NextAccess(a, s))
  {
    var a' := NextAccess(a, s);
    RestOnlyDrops(a, s);
    forall h <- a'.broker.byToken ensures TargetOk(a'.world.hub.jobs, a'.issued, a'.broker.byToken[h]) {
      assert TargetOk(a.world.hub.jobs, a.issued, a.broker.byToken[h]);
    }
  }

  lemma NextKeepsTargets(a: AccessWorld, s: AccessStep)
    requires AccessInv(a) && TargetsOk(a)
    ensures TargetsOk(NextAccess(a, s))
  {
    if s.OnHub? {
      HubStepKeepsTargets(a, s.step);
    } else if s.OnIssue? {
      if a.world.clock <= s.now { IssueKeepsTargets(a, s.config, s.request, s.now); }
    } else {
      RestKeepsTargets(a, s);
    }
  }

  lemma {:induction false} RunKeepsTargets(a: AccessWorld, steps: seq<AccessStep>)
    requires AccessInv(a) && TargetsOk(a)
    ensures AccessInv(RunAccess(a, steps)) && TargetsOk(RunAccess(a, steps))
    decreases |steps|
  {
    if steps != [] {
      NextAccessKeepsInv(a, steps[0]);
      NextKeepsTargets(a, steps[0]);
      RunKeepsTargets(NextAccess(a, steps[0]), steps[1..]);
    }
  }

  /** In every reachable state each held grant is for its Job's own tool, and names the provider and the model that were
      configured for that tool when it was issued. */
  lemma GrantNamesItsTarget(clock: Time, steps: seq<AccessStep>, token: Id)
    requires token in Reach(clock, steps).broker.byToken
    ensures var (a, g) := (Reach(clock, steps), Reach(clock, steps).broker.byToken[token].grant);
      && g.jobId in a.world.hub.jobs.jobs && g.tool == a.world.hub.jobs.jobs[g.jobId].request.tool
      && token in a.issued && Upstream(a.issued[token].config, g.tool, g.provider, g.model)
  {
    ReachIsOk(clock, steps);
    var a := Reach(clock, steps);
    assert TargetOk(a.world.hub.jobs, a.issued, a.broker.byToken[token]);
  }

  // ---- What a token is good for ----

  lemma RoutesAreListed(config: Config, g: Grant, provider: Provider, path: string)
    requires Upstream(config, g.tool, g.provider, g.model)
    ensures g.tool in ROUTES
    ensures g.provider == provider && ProviderRoute(provider, path) && ToolRoute(g.tool, path)
      <==> g.provider == provider && path in ROUTES[g.tool]
  {
  }

  lemma PrunedTokens(b: Broker, token: Id, now: Time)
    ensures token in Prune(b, now).byToken <==> token in b.byToken && now < b.byToken[token].grant.expiresAt
    ensures token in Prune(b, now).byToken ==> Prune(b, now).byToken[token] == b.byToken[token]
  {
  }

  lemma HeldTokenIsAuthorizedIff(b: Broker, t: Table, config: Config, token: Id, provider: Provider, path: string, now: Time)
    requires token in b.byToken
    requires var g := b.byToken[token].grant; g.accessToken == token && Upstream(config, g.tool, g.provider, g.model)
    ensures var (r, g) := (AuthorizeAccess(b, t, token, provider, path, now).1, b.byToken[token].grant);
      && (r.Ok? <==>
            now < g.expiresAt && LeaseIsActive(t, g.jobId, g.runnerId, g.leaseId, now)
            && provider == g.provider && g.tool in ROUTES && path in ROUTES[g.tool])
      && (r.Ok? ==> r.value == g)
  {
    PrunedTokens(b, token, now);
    RoutesAreListed(config, b.byToken[token].grant, provider, path);
  }

  /** In every reachable state and at any time: a token is authorised exactly when it is held and has not run out, its lease is
      active, the provider is the granted one, and the path is one of its tool's. */
  lemma AuthorizedIff(clock: Time, steps: seq<AccessStep>, token: Id, provider: Provider, path: string, now: Time)
    ensures var (b, t) := (Reach(clock, steps).broker, Reach(clock, steps).world.hub.jobs);
      var r := AuthorizeAccess(b, t, token, provider, path, now).1;
      && (r.Ok? <==>
            && token in b.byToken
            && var g := b.byToken[token].grant;
               && now < g.expiresAt && LeaseIsActive(t, g.jobId, g.runnerId, g.leaseId, now)
               && provider == g.provider && g.tool in ROUTES && path in ROUTES[g.tool])
      && (r.Ok? ==> r.value == b.byToken[token].grant && r.value.accessToken == token)
  {
    ReachIsOk(clock, steps);
    var a := Reach(clock, steps);
    if token in a.broker.byToken {
      assert TargetOk(a.world.hub.jobs, a.issued, a.broker.byToken[token]);
      HeldTokenIsAuthorizedIff(a.broker, a.world.hub.jobs, a.issued[token].config, token, provider, path, now);
    } else {
      PrunedTokens(a.broker, token, now);
    }
  }

  // ---- How long a token is held ----

  /** Whatever else happens, the Job's tokens are not revoked by it. */
  predicate Spares(s: AccessStep, jobId: Id) {
    !s.Restart? && s != OnRevoke(jobId)
  }

  lemma AccessClockMovesOn(a: AccessWorld, s: AccessStep)
    ensures a.world.clock <= NextAccess(a, s).world.clock
  {
    if s.OnHub? { ClockMovesOn(a.world, s.step); }
  }

  lemma {:induction false} RunClockMovesOn(a: AccessWorld, steps: seq<AccessStep>)
    ensures a.world.clock <= RunAccess(a, steps).world.clock
    decreases |steps|
  {
    if steps != [] {
      AccessClockMovesOn(a, steps[0]);
      RunClockMovesOn(NextAccess(a, steps[0]), steps[1..]);
    }
  }

  lemma IssueSparesTheOthers(b: Broker, t: Table, config: Config, r: AccessRequest, now: Time, token: Id)
    requires IndexesAgree(b) && token in b.byToken && now < b.byToken[token].grant.expiresAt
    ensures var b' := Issue(b, t, config, r, now).0; token in b'.byToken && b'.byToken[token] == b.byToken[token]
  {
    IssueAddsAtMostOne(b, t, config, r, now);
  }

  lemma StepKeepsToken(a: AccessWorld, s: AccessStep, token: Id)
    requires IndexesAgree(a.broker) && token in a.broker.byToken && Spares(s, a.broker.byToken[token].grant.jobId)
    requires NextAccess(a, s).world.clock < a.broker.byToken[token].grant.expiresAt
    ensures token in NextAccess(a, s).broker.byToken && NextAccess(a, s).broker.byToken[token] == a.broker.byToken[token]
  {
    if s.OnIssue? && a.world.clock <= s.now {
      IssueSparesTheOthers(a.broker, a.world.hub.jobs, s.config, s.request, s.now, token);
    }
  }

  lemma {:induction false} RunKeepsToken(a: AccessWorld, steps: seq<AccessStep>, token: Id)
    requires AccessInv(a) && token in a.broker.byToken && forall s <- steps :: Spares(s, a.broker.byToken[token].grant.jobId)
    requires RunAccess(a, steps).world.clock < a.broker.byToken[token].grant.expiresAt
    ensures token in RunAccess(a, steps).broker.byToken && RunAccess(a, steps).broker.byToken[token] == a.broker.byToken[token]
    decreases |steps|
  {
    if steps != [] {
      var a' := NextAccess(a, steps[0]);
      assert steps[0] in steps && forall s <- steps[1..] :: s in steps;
      RunClockMovesOn(a', steps[1..]);
      StepKeepsToken(a, steps[0], token);
      NextAccessKeepsInv(a, steps[0]);
      RunKeepsToken(a', steps[1..], token);
    }
  }

  /** A grant is held, unchanged, until it runs out, its Job's grants are revoked, or the Hub starts again. */
  lemma GrantIsHeld(clock: Time, steps: seq<AccessStep>, more: seq<AccessStep>, token: Id)
    requires var b := Reach(clock, steps).broker;
      token in b.byToken && forall s <- more :: Spares(s, b.byToken[token].grant.jobId)
    requires RunAccess(Reach(clock, steps), more).world.clock < Reach(clock, steps).broker.byToken[token].grant.expiresAt
    ensures var (b, b') := (Reach(clock, steps).broker, RunAccess(Reach(clock, steps), more).broker);
      token in b'.byToken && b'.byToken[token] == b.byToken[token]
  {
    ReachIsOk(clock, steps);
    RunKeepsToken(Reach(clock, steps), more, token);
  }

  /** A start of the Hub, or the revocation of a Job, ends its tokens at once. */
  lemma RevokedIsNotHeld(a: AccessWorld, jobId: Id)
    ensures NextAccess(a, Restart).broker.byToken == map[]
    ensures forall h <- NextAccess(a, OnRevoke(jobId)).broker.byToken :: a.broker.byToken[h].grant.jobId != jobId
  {
  }

  // ---- When a token is issued ----

  /** No grant for this request id of the Runner is still running. */
  predicate NoRunningGrant(b: Broker, r: AccessRequest, now: Time) {
    forall h <- b.byToken ::
      b.byToken[h].grant.runnerId == r.runnerId && b.byToken[h].request.requestId == r.requestId ==> b.byToken[h].grant.expiresAt <= now
  }

  predicate Timely(r: AccessRequest, now: Time) {
    now - 300_000 <= r.sentAt <= now + 300_000
  }

  lemma PruningFreesTheKey(b: Broker, r: AccessRequest, now: Time)
    requires IndexesAgree(b)
    ensures NoRunningGrant(b, r, now) <==> (r.runnerId, r.requestId) !in Prune(b, now).byRequest
  {
    WithoutKeepsAgreement(b, Expired(b, now));
    var key := (r.runnerId, r.requestId);
    if key in Prune(b, now).byRequest {
      var h := Prune(b, now).byRequest[key].grant.accessToken;
      assert h in Prune(b, now).byToken && KeyOf(Prune(b, now).byToken[h]) == key;
    }
    forall h <- b.byToken | KeyOf(b.byToken[h]) == key && now < b.byToken[h].grant.expiresAt ensures key in Prune(b, now).byRequest {
      assert h in Prune(b, now).byToken;
    }
  }

  /** The grant runs from now to the earliest of the three limits. */
  predicate RunsUntil(g: Grant, config: Config, spec: Spec, now: Time) {
    && now < g.expiresAt
    && g.expiresAt <= now + config.tokenTtlMs && g.expiresAt <= spec.leaseExpiresAt && g.expiresAt <= spec.expiresAt
    && g.expiresAt in {now + config.tokenTtlMs, spec.leaseExpiresAt, spec.expiresAt}
  }

  /** In every reachable state: a new request is granted exactly when it is timely, its lease is active and its tool is the
      Job's, an upstream is configured for that tool, and there is time left. The grant is then held under a new token. */
  lemma IssuedIff(clock: Time, steps: seq<AccessStep>, config: Config, r: AccessRequest, now: Time)
    requires NoRunningGrant(Reach(clock, steps).broker, r, now)
    ensures var (b, t) := (Reach(clock, steps).broker, Reach(clock, steps).world.hub.jobs);
      var (b', result) := Issue(b, t, config, r, now);
      && (result.Ok? <==>
            && Timely(r, now) && LeaseIsActive(t, r.jobId, r.runnerId, r.leaseId, now) && t.jobs[r.jobId].request.tool == r.tool
            && (if r.tool == Claude then config.anthropic.Some? else config.openAi.Some?)
            && 0 < config.tokenTtlMs && now < t.jobs[r.jobId].spec.value.leaseExpiresAt && now < t.jobs[r.jobId].spec.value.expiresAt)
      && (result.Ok? ==>
            var g := result.value;
            && g.accessToken !in b.byToken && g.accessToken in b'.byToken && b'.byToken[g.accessToken] == StoredGrant(r, g)
            && g.jobId == r.jobId && g.runnerId == r.runnerId && g.leaseId == r.leaseId && g.tool == r.tool
            && Upstream(config, g.tool, g.provider, g.model) && RunsUntil(g, config, t.jobs[r.jobId].spec.value, now))
      && (result.Err? ==> forall h <- b'.byToken :: h in b.byToken)
  {
    ReachIsOk(clock, steps);
    PruningFreesTheKey(Reach(clock, steps).broker, r, now);
  }

  lemma RunningGrantIsFound(b: Broker, token: Id, now: Time)
    requires IndexesAgree(b) && token in b.byToken && now < b.byToken[token].grant.expiresAt
    ensures var (b', s) := (Prune(b, now), b.byToken[token]); KeyOf(s) in b'.byRequest && b'.byRequest[KeyOf(s)] == s
  {
    WithoutKeepsAgreement(b, Expired(b, now));
    PrunedTokens(b, token, now);
  }

  lemma KnownKeyIsAnswered(b: Broker, t: Table, config: Config, r: AccessRequest, s: StoredGrant, now: Time)
    requires (r.runnerId, r.requestId) in Prune(b, now).byRequest && Prune(b, now).byRequest[(r.runnerId, r.requestId)] == s
    requires now < s.grant.expiresAt
    ensures var ((b', result), g) := (Issue(b, t, config, r, now), s.grant);
      && (result.Ok? <==> Timely(r, now) && s.request == r && LeaseIsActive(t, g.jobId, g.runnerId, g.leaseId, now))
      && (result.Ok? ==> result.value == g) && b' in {b, Prune(b, now)}
  {
  }

  /** The same request again gets the same token for as long as that runs and its lease is active; another request under the
      same id, while that runs, gets none. No token is drawn in either case. */
  lemma RepeatedRequestIsAnswered(clock: Time, steps: seq<AccessStep>, config: Config, r: AccessRequest, token: Id, now: Time)
    requires var b := Reach(clock, steps).broker;
      && token in b.byToken && now < b.byToken[token].grant.expiresAt
      && b.byToken[token].grant.runnerId == r.runnerId && b.byToken[token].request.requestId == r.requestId
    ensures var (b, t) := (Reach(clock, steps).broker, Reach(clock, steps).world.hub.jobs);
      var ((b', result), g) := (Issue(b, t, config, r, now), b.byToken[token].grant);
      && (result.Ok? <==>
            Timely(r, now) && b.byToken[token].request == r && LeaseIsActive(t, g.jobId, g.runnerId, g.leaseId, now))
      && (result.Ok? ==> result.value == g)
      && (forall h <- b'.byToken :: h in b.byToken && b'.byToken[h] == b.byToken[h])
  {
    ReachIsOk(clock, steps);
    var b := Reach(clock, steps).broker;
    RunningGrantIsFound(b, token, now);
    KnownKeyIsAnswered(b, Reach(clock, steps).world.hub.jobs, config, r, b.byToken[token], now);
    forall h ensures h in Prune(b, now).byToken ==> h in b.byToken && Prune(b, now).byToken[h] == b.byToken[h] {
      PrunedTokens(b, h, now);
    }
  }
}
