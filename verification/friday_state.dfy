/**
 The Hub's event-sourced state. Each event of the log is applied once when it is appended,
 as a live event, and again, not live, when the Hub starts.
 */
module FridayState {
  import opened Wrappers

  type Id = nat
  type Time = int

  const RUNNER_ONLINE_TTL_MS: int := 45_000

  datatype RunnerStatus = Online | Degraded | Unknown

  datatype JobView = JobView(jobId: Id, sourceMessageId: Id, status: string, createdAt: Time)

  /** What a registration says about its Runner. */
  datatype Profile = Profile(
    displayName: string, version: string, capabilities: seq<string>, workspaces: seq<string>,
    shellExecution: bool, systemInfo: Option<string>)

  datatype Payload = Registration(profile: Profile) | Heartbeat(status: RunnerStatus, activeJobs: int)

  datatype Envelope = Envelope(envelopeId: Id, runnerId: Id, sentAt: Time, payload: Payload)

  datatype Event =
    | MessageAccepted(messageId: Id, digest: string, job: JobView)
    | RunnerRegistered(envelope: Envelope, receivedAt: Time)
    | RunnerHeartbeat(envelope: Envelope, receivedAt: Time)
    | AuditOnly(kind: string)
    | Unsupported(kind: string)
    /** Its payload has not the shape that its type demands. */
    | Malformed(kind: string)

  datatype RunnerRecord = RunnerRecord(
    nodeId: Id, profile: Profile, lastReceivedAt: Time, lastSentAt: Time, status: RunnerStatus, activeJobs: int)

  /** The digest of an envelope has no collisions, so the envelope stands for it; it tells the kind as well. */
  datatype Identity = Identity(runnerId: Id, digest: Envelope)

  datatype State = State(
    jobs: map<Id, JobView>, digests: map<Id, string>, runners: map<Id, RunnerRecord>,
    identities: map<Id, Identity>, live: set<Id>)

  datatype Failure = InvalidEvent | EnvelopeReused

  const EMPTY: State := State(map[], map[], map[], map[], {})

  /** What parseAcceptedMessage, parseRunnerRegistration and parseRunnerHeartbeat demand beyond the shape. */
  predicate Parses(e: Event) {
    match e
    case MessageAccepted(messageId, _, job) => job.sourceMessageId == messageId
    case RunnerRegistered(envelope, _) => ValidEnvelope(envelope) && envelope.payload.Registration?
    case RunnerHeartbeat(envelope, _) => ValidEnvelope(envelope) && envelope.payload.Heartbeat?
    case AuditOnly(_) => true
    case _ => false
  }

  predicate ValidEnvelope(envelope: Envelope) {
    match envelope.payload
    case Registration(profile) => !profile.shellExecution && "shell" !in profile.capabilities
    case Heartbeat(status, activeJobs) => status != Unknown && activeJobs >= 0
  }

  function IdentityOf(envelope: Envelope): Identity {
    Identity(envelope.runnerId, envelope)
  }

  function SetLive(live: set<Id>, runnerId: Id, isLive: bool): set<Id> {
    if isLive then live + {runnerId} else live - {runnerId}
  }

  function Registered(s: State, envelope: Envelope, receivedAt: Time, isLive: bool): RunnerRecord
    requires envelope.payload.Registration?
  {
    var known := isLive && envelope.runnerId in s.runners;
    RunnerRecord(envelope.runnerId, envelope.payload.profile, receivedAt, envelope.sentAt,
      if known then s.runners[envelope.runnerId].status else Unknown,
      if known then s.runners[envelope.runnerId].activeJobs else 0)
  }

  function Beaten(current: RunnerRecord, envelope: Envelope, receivedAt: Time, isLive: bool): RunnerRecord
    requires envelope.payload.Heartbeat?
  {
    current.(lastReceivedAt := receivedAt, lastSentAt := envelope.sentAt,
      status := if isLive then envelope.payload.status else Unknown,
      activeJobs := if isLive then envelope.payload.activeJobs else 0)
  }

  function Remember(s: State, envelope: Envelope, record: RunnerRecord, isLive: bool): State {
    s.(runners := s.runners[envelope.runnerId := record],
       identities := s.identities[envelope.envelopeId := IdentityOf(envelope)],
       live := SetLive(s.live, envelope.runnerId, isLive))
  }

  function Apply(s: State, e: Event, isLive: bool): Result<State, Failure> {
    if !Parses(e) then Err(InvalidEvent)
    else match e
      case MessageAccepted(messageId, digest, job) =>
        if messageId in s.digests then Err(InvalidEvent)
        else Ok(s.(jobs := s.jobs[job.jobId := job], digests := s.digests[messageId := digest]))
      case RunnerRegistered(envelope, receivedAt) =>
        if envelope.envelopeId in s.identities then
          if s.identities[envelope.envelopeId] == IdentityOf(envelope) then Ok(s) else Err(EnvelopeReused)
        else Ok(Remember(s, envelope, Registered(s, envelope, receivedAt, isLive), isLive))
      case RunnerHeartbeat(envelope, receivedAt) =>
        if envelope.envelopeId in s.identities then
          if s.identities[envelope.envelopeId] == IdentityOf(envelope) then Ok(s) else Err(EnvelopeReused)
        else if envelope.runnerId !in s.runners || envelope.sentAt < s.runners[envelope.runnerId].lastSentAt then Err(InvalidEvent)
        else Ok(Remember(s, envelope, Beaten(s.runners[envelope.runnerId], envelope, receivedAt, isLive), isLive))
      case _ => Ok(s)
  }

  /** The events applied in order from the empty state, the i-th live as flags[i] says; stops at the first throw. */
  function Fold(events: seq<Event>, flags: seq<bool>): Result<State, Failure>
    requires |flags| == |events|
  {
    if events == [] then Ok(EMPTY)
    else
      var n := |events| - 1;
      var before := Fold(events[..n], flags[..n]);
      if before.Err? then before else Apply(before.value, events[n], flags[n])
  }

  function NotLive(n: nat): (flags: seq<bool>)
    ensures |flags| == n && forall i | 0 <= i < n :: !flags[i]
  {
    seq(n, _ => false)
  }

  function Replay(events: seq<Event>): Result<State, Failure> {
    Fold(events, NotLive(|events|))
  }

  /** What the Owner is shown of a Runner. */
  function RunnerView(s: State, nodeId: Id, now: Time): (RunnerRecord, bool)
    requires nodeId in s.runners
  {
    var runner := s.runners[nodeId];
    var online := nodeId in s.live && 0 <= now - runner.lastReceivedAt <= RUNNER_ONLINE_TTL_MS;
    (if online then runner else runner.(status := Unknown, activeJobs := 0), online)
  }

  class EventSourcedState {
    var jobs: map<Id, JobView>
    var acceptedMessageDigests: map<Id, string>
    var runners: map<Id, RunnerRecord>
    var runnerEnvelopeIdentities: map<Id, Identity>
    var liveRunnerIds: set<Id>

    function View(): State
      reads this
    {
      State(jobs, acceptedMessageDigests, runners, runnerEnvelopeIdentities, liveRunnerIds)
    }

    constructor ()
      ensures View() == EMPTY
    {
      jobs, acceptedMessageDigests, runners, runnerEnvelopeIdentities, liveRunnerIds := map[], map[], map[], map[], {};
    }

    method Rehydrate(events: seq<Event>) returns (failure: Option<Failure>)
      modifies this
      ensures match Replay(events)
        case Ok(s) => failure == None && View() == s
        case Err(error) => failure == Some(error)
    {
      jobs, acceptedMessageDigests, runners, runnerEnvelopeIdentities, liveRunnerIds := map[], map[], map[], map[], {};
      var i := 0;
      while i < |events|
        invariant 0 <= i <= |events| && Replay(events[..i]) == Ok(View())
      {
        ReplayStep(events, i);
        failure := ApplyEvent(events[i], false);
        if failure.Some? {
          ThrowEndsReplay(events, i + 1);
          return;
        }
        i := i + 1;
      }
      assert events[..i] == events;
      failure := None;
    }

    method ApplyEvent(e: Event, isLive: bool) returns (failure: Option<Failure>)
      modifies this
      ensures match Apply(old(View()), e, isLive)
        case Ok(s) => failure == None && View() == s
        case Err(error) => failure == Some(error) && View() == old(View())
    {
      if !Parses(e) { return Some(InvalidEvent); }
      if e.MessageAccepted? {
        if e.messageId in acceptedMessageDigests { return Some(InvalidEvent); }
        jobs := jobs[e.job.jobId := e.job];
        acceptedMessageDigests := acceptedMessageDigests[e.messageId := e.digest];
      } else if e.RunnerRegistered? || e.RunnerHeartbeat? {
        var envelope := e.envelope;
        if envelope.envelopeId in runnerEnvelopeIdentities {
          return if runnerEnvelopeIdentities[envelope.envelopeId] == IdentityOf(envelope) then None else Some(EnvelopeReused);
        }
        var record: RunnerRecord;
        if e.RunnerRegistered? {
          record := Registered(View(), envelope, e.receivedAt, isLive);
        } else {
          if envelope.runnerId !in runners { return Some(InvalidEvent); }
          if envelope.sentAt < runners[envelope.runnerId].lastSentAt { return Some(InvalidEvent); }
          record := Beaten(runners[envelope.runnerId], envelope, e.receivedAt, isLive);
        }
        runnerEnvelopeIdentities := runnerEnvelopeIdentities[envelope.envelopeId := IdentityOf(envelope)];
        runners := runners[envelope.runnerId := record];
        liveRunnerIds := SetLive(liveRunnerIds, envelope.runnerId, isLive);
      }
      failure := None;
    }
  }

  lemma ReplayStep(events: seq<Event>, i: nat)
    requires i < |events|
    ensures Replay(events[..i + 1]) ==
      if Replay(events[..i]).Err? then Replay(events[..i]) else Apply(Replay(events[..i]).value, events[i], false)
  {
    assert events[..i + 1][..i] == events[..i];
    assert NotLive(i + 1)[..i] == NotLive(i);
  }

  lemma {:induction false} ThrowEndsReplay(events: seq<Event>, i: nat)
    requires i <= |events| && Replay(events[..i]).Err?
    ensures Replay(events) == Replay(events[..i])
    decreases |events| - i
  {
    if i == |events| {
      assert events[..i] == events;
    } else {
      ReplayStep(events, i);
      ThrowEndsReplay(events, i + 1);
    }
  }

  // ---- Liveness is all that the flags decide ----

  function EraseRunner(r: RunnerRecord): RunnerRecord {
    r.(status := Unknown, activeJobs := 0)
  }

  function Erase(s: State): State {
    s.(runners := map id <- s.runners :: EraseRunner(s.runners[id]), live := {})
  }

  ghost predicate SameErased(s: State, t: State) {
    && s.jobs == t.jobs && s.digests == t.digests && s.identities == t.identities && s.runners.Keys == t.runners.Keys
    && forall id <- s.runners :: EraseRunner(s.runners[id]) == EraseRunner(t.runners[id])
  }

  lemma SameErasedIff(s: State, t: State)
    ensures SameErased(s, t) <==> Erase(s) == Erase(t)
  {
    if Erase(s) == Erase(t) {
      assert s.jobs == Erase(s).jobs == t.jobs && s.digests == Erase(s).digests == t.digests;
      assert s.identities == Erase(s).identities == t.identities;
      assert s.runners.Keys == Erase(s).runners.Keys == t.runners.Keys;
      forall id <- s.runners ensures EraseRunner(s.runners[id]) == EraseRunner(t.runners[id]) {
        assert Erase(s).runners[id] == Erase(t).runners[id];
      }
    }
  }

  lemma RememberErases(s: State, t: State, envelope: Envelope, r: RunnerRecord, q: RunnerRecord, f: bool, g: bool)
    requires SameErased(s, t) && EraseRunner(r) == EraseRunner(q)
    ensures SameErased(Remember(s, envelope, r, f), Remember(t, envelope, q, g))
  {
  }

  lemma ApplyErases(s: State, t: State, e: Event, f: bool, g: bool)
    requires SameErased(s, t)
    ensures match Apply(s, e, f)
      case Err(error) => Apply(t, e, g) == Err(error)
      case Ok(s') => Apply(t, e, g).Ok? && SameErased(s', Apply(t, e, g).value)
  {
    if Parses(e) {
      match e
      case RunnerRegistered(envelope, receivedAt) =>
        var (r, q) := (Registered(s, envelope, receivedAt, f), Registered(t, envelope, receivedAt, g));
        RememberErases(s, t, envelope, r, q, f, g);
      case RunnerHeartbeat(envelope, receivedAt) =>
        if envelope.runnerId in s.runners {
          var (current, current') := (s.runners[envelope.runnerId], t.runners[envelope.runnerId]);
          assert EraseRunner(current) == EraseRunner(current');
          RememberErases(s, t, envelope, Beaten(current, envelope, receivedAt, f), Beaten(current', envelope, receivedAt, g), f, g);
        }
      case _ =>
    }
  }

  /** Whatever was live, the same events throw at the same place or give the same state up to liveness. */
  lemma {:induction false} FlagsOnlyDecideLiveness(events: seq<Event>, f: seq<bool>, g: seq<bool>)
    requires |f| == |events| == |g|
    ensures match Fold(events, f)
      case Err(error) => Fold(events, g) == Err(error)
      case Ok(s) => Fold(events, g).Ok? && Erase(s) == Erase(Fold(events, g).value)
    decreases |events|
  {
    if events != [] {
      var n := |events| - 1;
      FlagsOnlyDecideLiveness(events[..n], f[..n], g[..n]);
      if Fold(events[..n], f[..n]).Ok? {
        var (s, t) := (Fold(events[..n], f[..n]).value, Fold(events[..n], g[..n]).value);
        SameErasedIff(s, t);
        ApplyErases(s, t, events[n], f[n], g[n]);
        if Apply(s, events[n], f[n]).Ok? {
          SameErasedIff(Apply(s, events[n], f[n]).value, Apply(t, events[n], g[n]).value);
        }
      }
    }
  }

  lemma {:induction false} ReplayIsErased(events: seq<Event>)
    requires Replay(events).Ok?
    ensures Replay(events).value.live == {} && Erase(Replay(events).value) == Replay(events).value
    decreases |events|
  {
    if events == [] {
      assert Erase(EMPTY) == EMPTY;
    } else {
      var n := |events| - 1;
      ReplayStep(events, n);
      assert events[..n + 1] == events;
      ReplayIsErased(events[..n]);
      ColdApplyStaysErased(Replay(events[..n]).value, events[n]);
    }
  }

  /** After a replay the Owner is shown every Runner as offline, whatever the time, and as its erased record. */
  lemma ReplayedRunnersAreOffline(events: seq<Event>, nodeId: Id, now: Time)
    requires Replay(events).Ok? && nodeId in Replay(events).value.runners
    ensures RunnerView(Replay(events).value, nodeId, now) == (Erase(Replay(events).value).runners[nodeId], false)
    ensures RunnerView(Replay(events).value, nodeId, now).0 == Replay(events).value.runners[nodeId]
  {
    ReplayIsErased(events);
    assert EraseRunner(Replay(events).value.runners[nodeId]) == Erase(Replay(events).value).runners[nodeId];
  }

  lemma ColdApplyStaysErased(s: State, e: Event)
    requires Erase(s) == s && Apply(s, e, false).Ok?
    ensures Erase(Apply(s, e, false).value) == Apply(s, e, false).value
  {
    assert s.live == {};
    forall id <- s.runners ensures EraseRunner(s.runners[id]) == s.runners[id] {
      assert Erase(s).runners[id] == s.runners[id];
    }
    var s' := Apply(s, e, false).value;
    forall id <- s'.runners ensures EraseRunner(s'.runners[id]) == s'.runners[id] {
    }
    assert Erase(s').runners == s'.runners;
  }
}
