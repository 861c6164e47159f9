/**
 Short-lived model tokens, kept in memory only. Two maps index the same grants: one by
 the token's hash, one by (runner, request id). SHA-256 is injective and tokens are
 random, so a token stands for its hash and no token is drawn twice.
 */
module ModelAccess {
  import opened Wrappers
  import opened Jobs
  import opened NodeTools
  import opened HubRuns
  import opened HubGuarantees

  const REQUEST_WINDOW_MS: int := 5 * 60_000

  datatype Provider = OpenAi | Anthropic

  datatype AccessRequest = AccessRequest(
    requestId: Id, jobId: Id, runnerId: Id, leaseId: Id, tool: Tool, sentAt: Time)

  datatype Grant = Grant(
    accessToken: Id, jobId: Id, runnerId: Id, leaseId: Id, tool: Tool,
    provider: Provider, model: string, expiresAt: Time)

  /** The request digest is injective, so the request itself stands for it. */
  datatype StoredGrant = StoredGrant(request: AccessRequest, grant: Grant)

  datatype Config = Config(tokenTtlMs: int, openAi: Option<(string, string)>, anthropic: Option<string>)

  datatype Broker = Broker(byToken: map<Id, StoredGrant>, byRequest: map<(Id, Id), StoredGrant>, drawn: nat)

  datatype Failure =
    | OutsideWindow | RequestConflict | GrantExpired | InactiveLease | WrongTool | NotConfigured | UnknownToken | WrongRoute

  function KeyOf(s: StoredGrant): (Id, Id) {
    (s.grant.runnerId, s.request.requestId)
  }

  function Target(config: Config, tool: Tool): Option<(Provider, string)> {
    if tool == Claude then
      if config.anthropic.Some? then Some((Anthropic, config.anthropic.value)) else None
    else if config.openAi.Some? then
      Some((OpenAi, if tool == Codex then config.openAi.value.0 else config.openAi.value.1))
    else None
  }

  predicate ProviderRoute(provider: Provider, path: string) {
    match provider
    case OpenAi => path in {"/v1/responses", "/v1/responses/compact", "/v1/chat/completions"}
    case Anthropic => path in {"/v1/messages", "/v1/messages/count_tokens"}
  }

  predicate ToolRoute(tool: Tool, path: string) {
    match tool
    case Codex => path in {"/v1/responses", "/v1/responses/compact"}
    case Claude => path in {"/v1/messages", "/v1/messages/count_tokens"}
    case _ => path in {"/v1/chat/completions", "/v1/responses"}
  }

  /** Both maps without the grants that `drop` selects. */
  function Without(b: Broker, drop: set<Id>): Broker {
    b.(byToken := b.byToken - drop,
       byRequest := b.byRequest - set h <- drop | h in b.byToken :: KeyOf(b.byToken[h]))
  }

  function Expired(b: Broker, now: Time): set<Id> {
    set h <- b.byToken | b.byToken[h].grant.expiresAt <= now
  }

  function OfJob(b: Broker, jobId: Id): set<Id> {
    set h <- b.byToken | b.byToken[h].grant.jobId == jobId
  }

  function Prune(b: Broker, now: Time): Broker {
    Without(b, Expired(b, now))
  }

  function RevokeJob(b: Broker, jobId: Id): Broker {
    Without(b, OfJob(b, jobId))
  }

  predicate GrantActive(t: Table, g: Grant, now: Time) {
    now < g.expiresAt && ActiveLease(t, g.jobId, g.runnerId, g.leaseId, now)
  }

  function ExpiryOf(config: Config, spec: Spec, now: Time): Time {
    Min(Min(now + config.tokenTtlMs, spec.leaseExpiresAt), spec.expiresAt)
  }

  function Issue(b: Broker, t: Table, config: Config, r: AccessRequest, now: Time): (Broker, Result<Grant, Failure>) {
    if now - r.sentAt > REQUEST_WINDOW_MS || r.sentAt - now > REQUEST_WINDOW_MS then (b, Err(OutsideWindow))
    else
      var b' := Prune(b, now);
      var key := (r.runnerId, r.requestId);
      if key in b'.byRequest then
        var previous := b'.byRequest[key];
        if previous.request != r then (b', Err(RequestConflict))
        else if previous.grant.expiresAt <= now then (b', Err(GrantExpired))
        else if !GrantActive(t, previous.grant, now) then (b', Err(InactiveLease))
        else (b', Ok(previous.grant))
      else if !ActiveLease(t, r.jobId, r.runnerId, r.leaseId, now) then (b', Err(InactiveLease))
      else if t.jobs[r.jobId].request.tool != r.tool then (b', Err(WrongTool))
      else if Target(config, r.tool).None? then (b', Err(NotConfigured))
      else
        var (provider, model) := Target(config, r.tool).value;
        var expiresAt := ExpiryOf(config, t.jobs[r.jobId].spec.value, now);
        if expiresAt <= now then (b', Err(GrantExpired))
        else
          var grant := Grant(b.drawn, r.jobId, r.runnerId, r.leaseId, r.tool, provider, model, expiresAt);
          var stored := StoredGrant(r, grant);
          (Broker(b'.byToken[b.drawn := stored], b'.byRequest[key := stored], b.drawn + 1), Ok(grant))
  }

  function AuthorizeAccess(b: Broker, t: Table, token: Id, provider: Provider, path: string, now: Time): (Broker, Result<Grant, Failure>) {
    var b' := Prune(b, now);
    if token !in b'.byToken then (b', Err(UnknownToken))
    else
      var grant := b'.byToken[token].grant;
      if grant.provider != provider || !ProviderRoute(provider, path) then (b', Err(WrongRoute))
      else if grant.expiresAt <= now then (b', Err(GrantExpired))
      else if !GrantActive(t, grant, now) then (b', Err(InactiveLease))
      else if !ToolRoute(grant.tool, path) then (b', Err(WrongRoute))
      else (b', Ok(grant))
  }

  // ---- The broker ----

  class RunnerModelAccessBroker {
    const config: Config
    const jobs: SqliteJobRegistry
    var byTokenHash: map<Id, StoredGrant>
    var byRequest: map<(Id, Id), StoredGrant>
    var drawn: nat

    function State(): Broker
      reads this
    {
      Broker(byTokenHash, byRequest, drawn)
    }

    constructor (config: Config, jobs: SqliteJobRegistry)
      ensures this.config == config && this.jobs == jobs && State() == Broker(map[], map[], 0)
    {
      this.config, this.jobs := config, jobs;
      byTokenHash, byRequest, drawn := map[], map[], 0;
    }

    method PruneGrants(now: Time)
      modifies this`byTokenHash, this`byRequest
      ensures State() == Prune(old(State()), now)
    {
      Drop(Expired(State(), now));
    }

    method Revoke(jobId: Id)
      modifies this`byTokenHash, this`byRequest
      ensures State() == RevokeJob(old(State()), jobId)
    {
      Drop(OfJob(State(), jobId));
    }

    /** The loop of both: visit every entry of the token index, delete the selected ones from both maps. */
    method Drop(selected: set<Id>)
      modifies this`byTokenHash, this`byRequest
      ensures State() == Without(old(State()), selected * old(byTokenHash).Keys)
      ensures selected <= old(byTokenHash).Keys ==> State() == Without(old(State()), selected)
    {
      var all := byTokenHash;
      var todo := all.Keys;
      ghost var gone: set<Id> := {};
      while todo != {}
        invariant todo <= all.Keys && gone == selected * (all.Keys - todo)
        invariant byTokenHash == all - gone && drawn == old(drawn)
        invariant byRequest == old(byRequest) - set h <- gone :: KeyOf(all[h])
        decreases todo
      {
        var hash :| hash in todo;
        todo := todo - {hash};
        if hash in selected {
          ghost var keys := set h <- gone :: KeyOf(all[h]);
          gone := gone + {hash};
          assert (set h <- gone :: KeyOf(all[h])) == keys + {KeyOf(all[hash])};
          byTokenHash := byTokenHash - {hash};
          byRequest := byRequest - {KeyOf(all[hash])};
        }
      }
      assert gone == selected * all.Keys;
      assert (set h <- gone :: KeyOf(all[h])) == set h <- gone | h in all :: KeyOf(all[h]);
      assert selected <= all.Keys ==> selected * all.Keys == selected;
    }

    method IssueGrant(r: AccessRequest, now: Time) returns (result: Result<Grant, Failure>)
      modifies this
      ensures (State(), result) == Issue(old(State()), jobs.State(), config, r, now)
    {
      if now - r.sentAt > REQUEST_WINDOW_MS || r.sentAt - now > REQUEST_WINDOW_MS { return Err(OutsideWindow); }
      PruneGrants(now);
      var key := (r.runnerId, r.requestId);
      if key in byRequest {
        var previous := byRequest[key];
        if previous.request != r { return Err(RequestConflict); }
        if previous.grant.expiresAt <= now { return Err(GrantExpired); }
        if !GrantActive(jobs.State(), previous.grant, now) { return Err(InactiveLease); }
        return Ok(previous.grant);
      }
      if !ActiveLease(jobs.State(), r.jobId, r.runnerId, r.leaseId, now) { return Err(InactiveLease); }
      var job := jobs.jobs[r.jobId];
      if job.request.tool != r.tool { return Err(WrongTool); }
      var target := Target(config, r.tool);
      if target.None? { return Err(NotConfigured); }
      var expiresAt := ExpiryOf(config, job.spec.value, now);
      if expiresAt <= now { return Err(GrantExpired); }
      var grant := Grant(drawn, r.jobId, r.runnerId, r.leaseId, r.tool, target.value.0, target.value.1, expiresAt);
      byRequest := byRequest[key := StoredGrant(r, grant)];
      byTokenHash := byTokenHash[drawn := StoredGrant(r, grant)];
      drawn := drawn + 1;
      result := Ok(grant);
    }

    method AuthorizeToken(token: Id, provider: Provider, path: string, now: Time) returns (result: Result<Grant, Failure>)
      modifies this
      ensures (State(), result) == AuthorizeAccess(old(State()), jobs.State(), token, provider, path, now)
    {
      PruneGrants(now);
      if token !in byTokenHash { return Err(UnknownToken); }
      var grant := byTokenHash[token].grant;
      if grant.provider != provider || !ProviderRoute(provider, path) { return Err(WrongRoute); }
      if grant.expiresAt <= now { return Err(GrantExpired); }
      if !GrantActive(jobs.State(), grant, now) { return Err(InactiveLease); }
      if !ToolRoute(grant.tool, path) { return Err(WrongRoute); }
      result := Ok(grant);
    }
  }

  // ---- The two indexes ----

  /** The maps hold the same grants one to one. */
  ghost predicate IndexesAgree(b: Broker) {
    && (forall h <- b.byToken ::
          && b.byToken[h].grant.accessToken == h < b.drawn
          && KeyOf(b.byToken[h]) in b.byRequest && b.byRequest[KeyOf(b.byToken[h])] == b.byToken[h])
    && (forall k <- b.byRequest ::
          && KeyOf(b.byRequest[k]) == k
          && b.byRequest[k].grant.accessToken in b.byToken && b.byToken[b.byRequest[k].grant.accessToken] == b.byRequest[k])
  }

  /** One request id of a Runner never has two tokens. */
  lemma OneTokenPerRequest(b: Broker, token: Id, token': Id)
    requires IndexesAgree(b) && token in b.byToken && token' in b.byToken
    requires KeyOf(b.byToken[token]) == KeyOf(b.byToken[token'])
    ensures token == token'
  {
    assert b.byRequest[KeyOf(b.byToken[token])] == b.byToken[token];
    assert b.byRequest[KeyOf(b.byToken[token'])] == b.byToken[token'];
  }

  lemma WithoutKeepsAgreement(b: Broker, drop: set<Id>)
    requires IndexesAgree(b)
    ensures IndexesAgree(Without(b, drop))
  {
    var b' := Without(b, drop);
    forall h <- b'.byToken ensures KeyOf(b'.byToken[h]) in b'.byRequest {
      forall d <- drop | d in b.byToken && KeyOf(b.byToken[d]) == KeyOf(b.byToken[h]) ensures d == h {
        OneTokenPerRequest(b, d, h);
      }
    }
    forall k <- b'.byRequest ensures b'.byRequest[k].grant.accessToken !in drop {
      assert KeyOf(b.byToken[b.byRequest[k].grant.accessToken]) == k;
    }
  }

  lemma InsertKeepsAgreement(b: Broker, stored: StoredGrant)
    requires IndexesAgree(b) && KeyOf(stored) !in b.byRequest && stored.grant.accessToken == b.drawn
    ensures IndexesAgree(Broker(b.byToken[b.drawn := stored], b.byRequest[KeyOf(stored) := stored], b.drawn + 1))
  {
  }

  lemma RevokeLeavesNone(b: Broker, jobId: Id)
    requires IndexesAgree(b)
    ensures var b' := RevokeJob(b, jobId);
      && IndexesAgree(b')
      && (forall h <- b'.byToken :: b'.byToken[h].grant.jobId != jobId)
      && (forall k <- b'.byRequest :: b'.byRequest[k].grant.jobId != jobId)
      && (forall h <- b.byToken | b.byToken[h].grant.jobId != jobId :: h in b'.byToken && b'.byToken[h] == b.byToken[h])
  {
    WithoutKeepsAgreement(b, OfJob(b, jobId));
  }

  // ---- Runs of the Hub together with its broker ----

  datatype AccessStep =
    | OnHub(step: Step)
    | OnIssue(config: Config, request: AccessRequest, now: Time)
    | OnAuthorize(token: Id, provider: Provider, path: string, now: Time)
    | OnRevoke(jobId: Id)
    | Restart

  /** When a token was drawn, and under which configuration. */
  datatype Issued = Issued(at: Time, config: Config)

  /** `issued` notes every token ever drawn. */
  datatype AccessWorld = AccessWorld(world: World, broker: Broker, issued: map<Id, Issued>)

  function StartAccess(clock: Time): AccessWorld {
    AccessWorld(Fresh(clock), Broker(map[], map[], 0), map[])
  }

  function IssueTo(a: AccessWorld, config: Config, request: AccessRequest, now: Time): AccessWorld {
    var b := Issue(a.broker, a.world.hub.jobs, config, request, now).0;
    AccessWorld(a.world.(clock := now), b,
      if b.drawn == a.broker.drawn then a.issued else a.issued[a.broker.drawn := Issued(now, config)])
  }

  function NextAccess(a: AccessWorld, s: AccessStep): AccessWorld {
    match s
    case OnHub(step) => a.(world := Next(a.world, step))
    case OnIssue(config, request, now) =>
      if now < a.world.clock then a else IssueTo(a, config, request, now)
    case OnAuthorize(token, provider, path, now) =>
      if now < a.world.clock then a
      else a.(world := a.world.(clock := now),
              broker := AuthorizeAccess(a.broker, a.world.hub.jobs, token, provider, path, now).0)
    case OnRevoke(jobId) => a.(broker := RevokeJob(a.broker, jobId))
    case Restart => a.(broker := Broker(map[], map[], a.broker.drawn))
  }

  function RunAccess(a: AccessWorld, steps: seq<AccessStep>): AccessWorld
    decreases |steps|
  {
    if steps == [] then a else RunAccess(NextAccess(a, steps[0]), steps[1..])
  }

  /** A spec signed for the Job under this lease outlives the grant. */
  ghost predicate WithinASpec(leases: set<(Id, Spec)>, g: Grant) {
    exists s: Spec :: (g.jobId, s) in leases && s.leaseId == g.leaseId
      && g.expiresAt <= s.leaseExpiresAt && g.expiresAt <= s.expiresAt
  }

  ghost predicate GrantsOk(leases: set<(Id, Spec)>, b: Broker) {
    IndexesAgree(b) && forall h <- b.byToken :: WithinASpec(leases, b.byToken[h].grant)
  }

  /** The grant was issued in the past, and ends within the time to live of then. */
  predicate WithinTtl(clock: Time, issued: map<Id, Issued>, g: Grant) {
    g.accessToken in issued && issued[g.accessToken].at <= clock
    && g.expiresAt <= issued[g.accessToken].at + issued[g.accessToken].config.tokenTtlMs
  }

  ghost predicate TtlOk(clock: Time, issued: map<Id, Issued>, b: Broker) {
    forall h <- b.byToken :: WithinTtl(clock, issued, b.byToken[h].grant)
  }

  ghost predicate AccessInv(a: AccessWorld) {
    Inv(a.world) && GrantsOk(a.world.leases, a.broker) && TtlOk(a.world.clock, a.issued, a.broker)
  }

  lemma WithoutKeepsGrants(leases: set<(Id, Spec)>, b: Broker, drop: set<Id>)
    requires GrantsOk(leases, b)
    ensures GrantsOk(leases, Without(b, drop))
  {
    WithoutKeepsAgreement(b, drop);
  }

  lemma MoreLeasesKeepGrants(leases: set<(Id, Spec)>, leases': set<(Id, Spec)>, b: Broker)
    requires GrantsOk(leases, b) && leases <= leases'
    ensures GrantsOk(leases', b)
  {
    forall h <- b.byToken ensures WithinASpec(leases', b.byToken[h].grant) {
      assert WithinASpec(leases, b.byToken[h].grant);
    }
  }

  lemma CurrentSpecIsRecorded(w: World, config: Config, g: Grant, now: Time)
    requires Inv(w) && UnderCurrentSpec(w.hub.jobs, config, g, now)
    ensures WithinASpec(w.leases, g)
  {
    assert JobOk(w, g.jobId, w.hub.jobs.jobs[g.jobId]);
    assert (g.jobId, w.hub.jobs.jobs[g.jobId].spec.value) in w.leases;
  }

  predicate Adds(b: Broker, b': Broker, s: StoredGrant) {
    && KeyOf(s) !in b.byRequest && s.grant.accessToken == b.drawn
    && b' == Broker(b.byToken[b.drawn := s], b.byRequest[KeyOf(s) := s], b.drawn + 1)
  }

  predicate UnderCurrentSpec(t: Table, config: Config, g: Grant, now: Time) {
    ActiveLease(t, g.jobId, g.runnerId, g.leaseId, now) && g.expiresAt == ExpiryOf(config, t.jobs[g.jobId].spec.value, now)
  }

  /** Apart from expired grants, only a newly granted token changes the maps. */
  lemma IssueAddsAtMostOne(b: Broker, t: Table, config: Config, r: AccessRequest, now: Time)
    ensures var (b', result) := Issue(b, t, config, r, now);
      || b' == b || b' == Prune(b, now)
      || (result.Ok? && Adds(Prune(b, now), b', StoredGrant(r, result.value)) && UnderCurrentSpec(t, config, result.value, now))
  {
  }

  lemma AddedGrantKeepsGrants(leases: set<(Id, Spec)>, b: Broker, b': Broker, s: StoredGrant)
    requires GrantsOk(leases, b) && Adds(b, b', s) && WithinASpec(leases, s.grant)
    ensures GrantsOk(leases, b')
  {
    InsertKeepsAgreement(b, s);
  }

  lemma IssueKeepsGrants(w: World, b: Broker, config: Config, r: AccessRequest, now: Time)
    requires Inv(w) && GrantsOk(w.leases, b)
    ensures GrantsOk(w.leases, Issue(b, w.hub.jobs, config, r, now).0)
  {
    var (b', result) := Issue(b, w.hub.jobs, config, r, now);
    IssueAddsAtMostOne(b, w.hub.jobs, config, r, now);
    WithoutKeepsGrants(w.leases, b, Expired(b, now));
    if b' != b && b' != Prune(b, now) {
      CurrentSpecIsRecorded(w, config, result.value, now);
      AddedGrantKeepsGrants(w.leases, Prune(b, now), b', StoredGrant(r, result.value));
    }
  }

  lemma IssueKeepsTtl(a: AccessWorld, config: Config, r: AccessRequest, now: Time)
    requires IndexesAgree(a.broker) && TtlOk(a.world.clock, a.issued, a.broker) && a.world.clock <= now
    ensures var a' := IssueTo(a, config, r, now); TtlOk(a'.world.clock, a'.issued, a'.broker)
  {
    IssueAddsAtMostOne(a.broker, a.world.hub.jobs, config, r, now);
  }

  lemma ClockMovesOn(w: World, step: Step)
    ensures w.clock <= Next(w, step).clock
  {
    if Possible(w, step) && step.commits > 0 {
      RecordsKeepTheClock(Noted(w, step.op, step.now), Commits(w.hub, step.op, step.now)[..step.commits]);
    }
  }

  lemma {:induction false} RecordsKeepTheClock(w: World, hubs: seq<Hub>)
    ensures RecordAll(w, hubs).clock == w.clock
    decreases |hubs|
  {
    if hubs != [] { RecordsKeepTheClock(Record(w, hubs[0]), hubs[1..]); }
  }

  lemma NextKeepsTtl(a: AccessWorld, s: AccessStep)
    requires IndexesAgree(a.broker) && TtlOk(a.world.clock, a.issued, a.broker)
    ensures var a' := NextAccess(a, s); TtlOk(a'.world.clock, a'.issued, a'.broker)
  {
    if s.OnIssue? && a.world.clock <= s.now { IssueKeepsTtl(a, s.config, s.request, s.now); }
    if s.OnHub? { ClockMovesOn(a.world, s.step); }
  }

  lemma ClockKeepsInv(w: World, now: Time)
    requires Inv(w) && w.clock <= now
    ensures Inv(w.(clock := now))
  {
    NotedKeepsInv(w, Reopen([]), now);
  }

  lemma HubStepKeepsGrants(w: World, b: Broker, step: Step)
    requires GrantsOk(w.leases, b)
    ensures GrantsOk(Next(w, step).leases, b)
  {
    NextGrows(w, step);
    MoreLeasesKeepGrants(w.leases, Next(w, step).leases, b);
  }

  lemma BrokerStepKeepsGrants(a: AccessWorld, s: AccessStep)
    requires GrantsOk(a.world.leases, a.broker) && !s.OnHub? && !s.OnIssue?
    ensures GrantsOk(a.world.leases, NextAccess(a, s).broker)
  {
    match s
    case OnAuthorize(_, _, _, now) => WithoutKeepsGrants(a.world.leases, a.broker, Expired(a.broker, now));
    case OnRevoke(jobId) => WithoutKeepsGrants(a.world.leases, a.broker, OfJob(a.broker, jobId));
    case Restart =>
  }

  lemma NextKeepsGrants(a: AccessWorld, s: AccessStep)
    requires GrantsOk(a.world.leases, a.broker)
    requires s.OnIssue? ==> GrantsOk(a.world.leases, Issue(a.broker, a.world.hub.jobs, s.config, s.request, s.now).0)
    ensures GrantsOk(NextAccess(a, s).world.leases, NextAccess(a, s).broker)
  {
    if s.OnHub? {
      HubStepKeepsGrants(a.world, a.broker, s.step);
    } else if !s.OnIssue? {
      BrokerStepKeepsGrants(a, s);
    }
  }

  lemma NextKeepsHubInv(a: AccessWorld, s: AccessStep)
    requires Inv(a.world)
    ensures Inv(NextAccess(a, s).world)
  {
    if s.OnHub? {
      NextIsGood(a.world, s.step);
    } else if (s.OnIssue? || s.OnAuthorize?) && a.world.clock <= s.now {
      ClockKeepsInv(a.world, s.now);
    }
  }

  lemma NextAccessKeepsInv(a: AccessWorld, s: AccessStep)
    requires AccessInv(a)
    ensures AccessInv(NextAccess(a, s))
  {
    NextKeepsHubInv(a, s);
    if s.OnIssue? { IssueKeepsGrants(a.world, a.broker, s.config, s.request, s.now); }
    NextKeepsGrants(a, s);
    NextKeepsTtl(a, s);
  }

  lemma NextGrows(w: World, step: Step)
    ensures w.leases <= Next(w, step).leases
  {
    if Possible(w, step) && step.commits > 0 {
      LeasesOnlyGrow(Noted(w, step.op, step.now), Commits(w.hub, step.op, step.now)[..step.commits]);
    }
  }

  lemma {:induction false} LeasesOnlyGrow(w: World, hubs: seq<Hub>)
    ensures w.leases <= RecordAll(w, hubs).leases
    decreases |hubs|
  {
    if hubs != [] {
      LeasesOnlyGrow(Record(w, hubs[0]), hubs[1..]);
    }
  }

  lemma NextAccessExtends(a: AccessWorld, s: AccessStep)
    requires Inv(a.world)
    ensures Extends(a.world.hub, NextAccess(a, s).world.hub)
  {
    if s.OnHub? {
      NextIsGood(a.world, s.step);
    } else {
      SameIsGood(a.world);
      OnlyTheHubStepMoves(a, s);
    }
  }

  lemma OnlyTheHubStepMoves(a: AccessWorld, s: AccessStep)
    requires !s.OnHub?
    ensures NextAccess(a, s).world.hub == a.world.hub
  {
  }

  lemma {:induction false} RunAccessKeepsInv(a: AccessWorld, steps: seq<AccessStep>)
    requires AccessInv(a)
    ensures AccessInv(RunAccess(a, steps)) && Extends(a.world.hub, RunAccess(a, steps).world.hub)
    decreases |steps|
  {
    if steps == [] {
      SameIsGood(a.world);
    } else {
      NextAccessKeepsInv(a, steps[0]);
      NextAccessExtends(a, steps[0]);
      RunAccessKeepsInv(NextAccess(a, steps[0]), steps[1..]);
      ExtendsTrans(a.world.hub, NextAccess(a, steps[0]).world.hub, RunAccess(a, steps).world.hub);
    }
  }

  /** In every run the two indexes agree, and no grant outlives its lease, its spec, or the time to live of its issue. */
  lemma GrantsAreIndexedAndBounded(clock: Time, steps: seq<AccessStep>)
    ensures var a := RunAccess(StartAccess(clock), steps);
      && IndexesAgree(a.broker)
      && forall h <- a.broker.byToken ::
           WithinASpec(a.world.leases, a.broker.byToken[h].grant) && WithinTtl(a.world.clock, a.issued, a.broker.byToken[h].grant)
  {
    FreshIsGood(clock);
    RunAccessKeepsInv(StartAccess(clock), steps);
  }

  /** A fresh grant lives at most the configured time, and only under the Job's current spec. */
  lemma FreshGrantIsBounded(b: Broker, t: Table, config: Config, r: AccessRequest, now: Time)
    requires Issue(b, t, config, r, now).1.Ok? && (r.runnerId, r.requestId) !in Prune(b, now).byRequest
    ensures var g := Issue(b, t, config, r, now).1.value;
      && ActiveLease(t, g.jobId, g.runnerId, g.leaseId, now)
      && now < g.expiresAt <= now + config.tokenTtlMs
      && g.expiresAt <= t.jobs[g.jobId].spec.value.leaseExpiresAt && g.expiresAt <= t.jobs[g.jobId].spec.value.expiresAt
  {
  }

  lemma FencedStays(t: Table, t': Table, jobId: Id, leaseId: Id, runnerId: Id, now: Time)
    requires TableExtends(t, t') && (Replaced(t, jobId, leaseId) || Ended(t, jobId))
    ensures !ActiveLease(t', jobId, runnerId, leaseId, now)
  {
    assert JobExtends(t, t.jobs[jobId], t'.jobs[jobId]);
  }

  /** Once its lease is replaced or its Job has ended, a token is never authorised again, in any later state. */
  lemma FencedTokenIsNeverAuthorized(a: AccessWorld, steps: seq<AccessStep>, token: Id, provider: Provider, path: string, now: Time)
    requires AccessInv(a)
    ensures var a' := RunAccess(a, steps);
      var r := AuthorizeAccess(a'.broker, a'.world.hub.jobs, token, provider, path, now).1;
      r.Ok? ==> !Replaced(a.world.hub.jobs, r.value.jobId, r.value.leaseId) && !Ended(a.world.hub.jobs, r.value.jobId)
  {
    RunAccessKeepsInv(a, steps);
    AuthorizedIsActive(a.world.hub.jobs, RunAccess(a, steps), token, provider, path, now);
  }

  lemma AuthorizedIsActive(t: Table, a: AccessWorld, token: Id, provider: Provider, path: string, now: Time)
    requires TableExtends(t, a.world.hub.jobs)
    ensures var r := AuthorizeAccess(a.broker, a.world.hub.jobs, token, provider, path, now).1;
      r.Ok? ==> !Replaced(t, r.value.jobId, r.value.leaseId) && !Ended(t, r.value.jobId)
  {
    var r := AuthorizeAccess(a.broker, a.world.hub.jobs, token, provider, path, now).1;
    if r.Ok? && (Replaced(t, r.value.jobId, r.value.leaseId) || Ended(t, r.value.jobId)) {
      FencedStays(t, a.world.hub.jobs, r.value.jobId, r.value.leaseId, r.value.runnerId, now);
    }
  }
}
