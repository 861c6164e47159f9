/** The log that the Hub's own request handlers write, and what a later start makes of it. */
module HubLog {
  import opened Wrappers
  import opened FridayState

  const RUNNER_SENT_AT_MAX_SKEW_MS: int := 5 * 60_000

  datatype Request =
    | PostMessage(messageId: Id, digest: string, jobId: Id, now: Time)
    | PostEnvelope(envelope: Envelope, receivedAt: Time)
    | Audited(kind: string)
    /** Stopping a task appends job.stop.requested, and approving by policy job.policy.approved. */
    | StopTask
    | ApproveByPolicy

  /** `dies`: the process ends after the append, before the event is applied. */
  datatype Step = Serve(request: Request, dies: bool) | Crashes | Starts

  /** The log, the liveness with which its supported events were last applied, and the state in memory. */
  datatype World = World(log: seq<Event>, flags: seq<bool>, s: State, up: bool)

  predicate WithinSkew(sentAt: Time, receivedAt: Time) {
    sentAt - receivedAt <= RUNNER_SENT_AT_MAX_SKEW_MS && receivedAt - sentAt <= RUNNER_SENT_AT_MAX_SKEW_MS
  }

  predicate HasSource(jobs: map<Id, JobView>, messageId: Id) {
    exists j <- jobs :: jobs[j].sourceMessageId == messageId
  }

  /** The event that the handler appends, when its guards let the request through. */
  function Guarded(s: State, r: Request): Option<Event> {
    match r
    case PostMessage(messageId, digest, jobId, now) =>
      if HasSource(s.jobs, messageId) then None
      else Some(MessageAccepted(messageId, digest, JobView(jobId, messageId, "NEW", now)))
    case PostEnvelope(envelope, receivedAt) =>
      if !ValidEnvelope(envelope) then None
      else if envelope.payload.Registration? then
        if envelope.envelopeId in s.identities || !WithinSkew(envelope.sentAt, receivedAt) then None
        else Some(RunnerRegistered(envelope, receivedAt))
      else if envelope.runnerId !in s.runners || envelope.envelopeId in s.identities
           || !WithinSkew(envelope.sentAt, receivedAt) || envelope.sentAt < s.runners[envelope.runnerId].lastSentAt then None
      else Some(RunnerHeartbeat(envelope, receivedAt))
    case Audited(kind) => Some(AuditOnly(kind))
    case StopTask => Some(Unsupported("job.stop.requested"))
    case ApproveByPolicy => Some(Unsupported("job.policy.approved"))
  }

  /** The handlers apply exactly the message and Runner events they append. */
  function Handled(s: State, e: Event): State {
    if (e.MessageAccepted? || e.RunnerRegistered? || e.RunnerHeartbeat?) && Apply(s, e, true).Ok?
    then Apply(s, e, true).value else s
  }

  /** A Job id is drawn at random, so it is new. */
  predicate Possible(w: World, step: Step) {
    step.Serve? && step.request.PostMessage? ==> step.request.jobId !in w.s.jobs
  }

  function Next(w: World, step: Step): World {
    if !Possible(w, step) then w
    else match step
      case Crashes => w.(up := false)
      case Starts =>
        var replayed := Replay(w.log);
        if w.up || replayed.Err? then w else World(w.log, NotLive(|w.log|), replayed.value, true)
      case Serve(request, dies) =>
        var appended := Guarded(w.s, request);
        if !w.up || appended.None? then w
        else
          var e := appended.value;
          World(w.log + [e], if e.Unsupported? then w.flags else w.flags + [true],
            if dies then w.s else Handled(w.s, e), !dies)
  }

  function RunAll(w: World, steps: seq<Step>): World
    decreases |steps|
  {
    if steps == [] then w else RunAll(Next(w, steps[0]), steps[1..])
  }

  function Fresh(): World {
    World([], [], EMPTY, true)
  }

  function Supported(log: seq<Event>): seq<Event> {
    if log == [] then []
    else Supported(log[..|log| - 1]) + if log[|log| - 1].Unsupported? then [] else [log[|log| - 1]]
  }

  predicate AllSupported(log: seq<Event>) {
    forall e <- log :: !e.Unsupported?
  }

  // ---- The invariant ----

  /** Each accepted message has its Job, and each Job its message. */
  ghost predicate SourcesOk(s: State) {
    forall m: Id :: m in s.digests <==> HasSource(s.jobs, m)
  }

  predicate EnvelopeEvent(e: Event) {
    e.RunnerRegistered? || e.RunnerHeartbeat?
  }

  /** The log names no message and no envelope twice, and the state knows all of them. */
  ghost predicate OnceEach(log: seq<Event>, s: State) {
    && (forall e <- log | EnvelopeEvent(e) :: e.envelope.envelopeId in s.identities)
    && (forall e <- log | e.MessageAccepted? :: e.messageId in s.digests)
    && (forall i, j | 0 <= i < j < |log| && EnvelopeEvent(log[i]) && EnvelopeEvent(log[j]) ::
          log[i].envelope.envelopeId != log[j].envelope.envelopeId)
    && (forall i, j | 0 <= i < j < |log| && log[i].MessageAccepted? && log[j].MessageAccepted? ::
          log[i].messageId != log[j].messageId)
  }

  ghost predicate Inv(w: World) {
    && |w.flags| == |Supported(w.log)| && Fold(Supported(w.log), w.flags).Ok?
    && var s := Fold(Supported(w.log), w.flags).value;
       SourcesOk(s) && OnceEach(w.log, s) && (w.up ==> w.s == s)
  }

  /** What the guards let through, apply accepts. */
  lemma GuardedApplies(s: State, r: Request)
    requires SourcesOk(s) && Guarded(s, r).Some? && !Guarded(s, r).value.Unsupported?
    requires r.PostMessage? ==> r.jobId !in s.jobs
    ensures Apply(s, Guarded(s, r).value, true) == Ok(Handled(s, Guarded(s, r).value))
    ensures SourcesOk(Handled(s, Guarded(s, r).value))
  {
    if r.PostMessage? {
      var s' := Handled(s, Guarded(s, r).value);
      forall m: Id ensures m in s'.digests <==> HasSource(s'.jobs, m) {
        if m == r.messageId {
          assert s'.jobs[r.jobId].sourceMessageId == m;
        } else if HasSource(s.jobs, m) {
          var j :| j in s.jobs && s.jobs[j].sourceMessageId == m;
          assert s'.jobs[j] == s.jobs[j];
        }
      }
    }
  }

  lemma GuardedIsNew(log: seq<Event>, s: State, r: Request)
    requires SourcesOk(s) && OnceEach(log, s) && Guarded(s, r).Some?
    ensures OnceEach(log + [Guarded(s, r).value], Handled(s, Guarded(s, r).value))
  {
  }

  lemma FoldOneMore(events: seq<Event>, flags: seq<bool>, e: Event, isLive: bool)
    requires |flags| == |events|
    ensures Fold(events + [e], flags + [isLive])
      == if Fold(events, flags).Err? then Fold(events, flags) else Apply(Fold(events, flags).value, e, isLive)
  {
    assert (events + [e])[..|events|] == events && (flags + [isLive])[..|events|] == flags;
  }

  lemma SupportedOneMore(log: seq<Event>, e: Event)
    ensures Supported(log + [e]) == if e.Unsupported? then Supported(log) else Supported(log) + [e]
  {
    assert (log + [e])[..|log|] == log;
  }

  /** The appended event takes the folded state where the handler takes its own. */
  lemma AppendFolds(log: seq<Event>, flags: seq<bool>, s: State, request: Request)
    requires |flags| == |Supported(log)| && Fold(Supported(log), flags) == Ok(s) && SourcesOk(s)
    requires Guarded(s, request).Some? && (request.PostMessage? ==> request.jobId !in s.jobs)
    ensures var e := Guarded(s, request).value;
      var flags' := if e.Unsupported? then flags else flags + [true];
      && |flags'| == |Supported(log + [e])| && Fold(Supported(log + [e]), flags') == Ok(Handled(s, e))
      && SourcesOk(Handled(s, e))
  {
    var e := Guarded(s, request).value;
    SupportedOneMore(log, e);
    if !e.Unsupported? {
      GuardedApplies(s, request);
      FoldOneMore(Supported(log), flags, e, true);
    }
  }

  lemma ServeKeepsInv(w: World, request: Request, dies: bool)
    requires Inv(w)
    ensures Inv(Next(w, Serve(request, dies)))
  {
    if Possible(w, Serve(request, dies)) && w.up && Guarded(w.s, request).Some? {
      GuardedIsNew(w.log, w.s, request);
      AppendFolds(w.log, w.flags, w.s, request);
    }
  }

  lemma {:induction false} SupportedIsAll(log: seq<Event>)
    requires AllSupported(log)
    ensures Supported(log) == log
    decreases |log|
  {
    if log != [] {
      SupportedIsAll(log[..|log| - 1]);
    }
  }

  lemma {:induction false} UnsupportedStopsReplay(log: seq<Event>)
    requires !AllSupported(log)
    ensures Replay(log).Err?
    decreases |log|
  {
    var n := |log| - 1;
    ReplayStep(log, n);
    assert log[..n + 1] == log;
    if AllSupported(log[..n]) {
      assert forall e <- log :: e in log[..n] || e == log[n];
    } else {
      UnsupportedStopsReplay(log[..n]);
    }
  }

  lemma EraseKeeps(s: State, t: State, log: seq<Event>)
    requires Erase(s) == Erase(t) && SourcesOk(s) && OnceEach(log, s)
    ensures SourcesOk(t) && OnceEach(log, t)
  {
    assert s.jobs == Erase(s).jobs == t.jobs && s.digests == Erase(s).digests == t.digests;
    assert s.identities == Erase(s).identities == t.identities;
  }

  lemma StartKeepsInv(w: World)
    requires Inv(w)
    ensures Inv(Next(w, Starts))
  {
    if !w.up && Replay(w.log).Ok? {
      if !AllSupported(w.log) {
        UnsupportedStopsReplay(w.log);
      }
      SupportedIsAll(w.log);
      FlagsOnlyDecideLiveness(w.log, w.flags, NotLive(|w.log|));
      EraseKeeps(Fold(w.log, w.flags).value, Replay(w.log).value, w.log);
    }
  }

  lemma NextKeepsInv(w: World, step: Step)
    requires Inv(w)
    ensures Inv(Next(w, step)) && w.log <= Next(w, step).log
  {
    match step
    case Serve(request, dies) => ServeKeepsInv(w, request, dies);
    case Crashes =>
    case Starts => StartKeepsInv(w);
  }

  lemma {:induction false} RunKeepsInv(w: World, steps: seq<Step>)
    requires Inv(w)
    ensures Inv(RunAll(w, steps)) && w.log <= RunAll(w, steps).log
    decreases |steps|
  {
    if steps != [] {
      NextKeepsInv(w, steps[0]);
      RunKeepsInv(Next(w, steps[0]), steps[1..]);
    }
  }

  // ---- Main results ----

  function Reach(steps: seq<Step>): World {
    RunAll(Fresh(), steps)
  }

  /** A log the Hub wrote replays exactly when it holds neither of the two unsupported types. */
  lemma ReplaysIffSupported(steps: seq<Step>)
    ensures Replay(Reach(steps).log).Ok? <==> AllSupported(Reach(steps).log)
  {
    RunKeepsInv(Fresh(), steps);
    var w := Reach(steps);
    if AllSupported(w.log) {
      SupportedIsAll(w.log);
      FlagsOnlyDecideLiveness(w.log, w.flags, NotLive(|w.log|));
    } else {
      UnsupportedStopsReplay(w.log);
    }
  }

  /** When it replays, the replayed state is the live one up to liveness, in every reachable state. */
  lemma ReplayAgreesWithLiveRun(steps: seq<Step>)
    requires Reach(steps).up && Replay(Reach(steps).log).Ok?
    ensures Erase(Replay(Reach(steps).log).value) == Erase(Reach(steps).s)
  {
    RunKeepsInv(Fresh(), steps);
    ReplaysIffSupported(steps);
    var w := Reach(steps);
    SupportedIsAll(w.log);
    FlagsOnlyDecideLiveness(w.log, w.flags, NotLive(|w.log|));
  }

  /** The handlers never append an event that apply then rejects, except the two unsupported types. */
  lemma HandlersNeverThrow(steps: seq<Step>, request: Request)
    requires Possible(Reach(steps), Serve(request, false)) && Reach(steps).up && Guarded(Reach(steps).s, request).Some?
    ensures var e := Guarded(Reach(steps).s, request).value;
      Apply(Reach(steps).s, e, true).Ok? <==> !e.Unsupported?
  {
    RunKeepsInv(Fresh(), steps);
    var w := Reach(steps);
    if !Guarded(w.s, request).value.Unsupported? {
      GuardedApplies(w.s, request);
    }
  }

  /** No message and no envelope is in the log twice, whatever is sent again, across restarts. */
  lemma LogNamesEachOnce(steps: seq<Step>, i: nat, j: nat)
    requires i < j < |Reach(steps).log|
    ensures var log := Reach(steps).log;
      && (EnvelopeEvent(log[i]) && EnvelopeEvent(log[j]) ==> log[i].envelope.envelopeId != log[j].envelope.envelopeId)
      && (log[i].MessageAccepted? && log[j].MessageAccepted? ==> log[i].messageId != log[j].messageId)
  {
    RunKeepsInv(Fresh(), steps);
  }

  /** Once one of the two types is in the log, a Hub that goes down never starts again. */
  lemma NeverStartsAgain(steps: seq<Step>, more: seq<Step>)
    requires !Reach(steps).up && !AllSupported(Reach(steps).log)
    ensures !RunAll(Reach(steps), more).up
  {
    UnsupportedStopsReplay(Reach(steps).log);
    StaysDown(Reach(steps), more);
  }

  /** Stopping one task and restarting is enough for that. */
  lemma StopTaskThenRestartFails(more: seq<Step>)
    ensures !RunAll(Next(Next(Fresh(), Serve(StopTask, false)), Crashes), more).up
  {
    var w := Next(Next(Fresh(), Serve(StopTask, false)), Crashes);
    assert w.log == [Unsupported("job.stop.requested")] && w.log[0].Unsupported?;
    UnsupportedStopsReplay(w.log);
    StaysDown(w, more);
  }

  lemma {:induction false} StaysDown(w: World, steps: seq<Step>)
    requires !w.up && Replay(w.log).Err?
    ensures RunAll(w, steps) == w
    decreases |steps|
  {
    if steps != [] {
      StaysDown(w, steps[1..]);
    }
  }
}
