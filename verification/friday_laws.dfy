/** What the event-sourced state shows after a log: each accepted message's Job, and each Runner's last word. */
module FridayLaws {
  import opened Wrappers
  import opened FridayState
  import opened HubLog

  // ---- One event ----

  /** A message event is applied exactly when its Job names the message, and the message is new. */
  lemma MessageAppliesIff(s: State, messageId: Id, digest: string, job: JobView, isLive: bool)
    ensures var r := Apply(s, MessageAccepted(messageId, digest, job), isLive);
      && (r.Ok? <==> job.sourceMessageId == messageId && messageId !in s.digests)
      && (r.Ok? ==> r.value == State(s.jobs[job.jobId := job], s.digests[messageId := digest], s.runners, s.identities, s.live))
  {
  }

  /** A registration neither opens a shell nor claims to. */
  predicate SoundRegistration(envelope: Envelope) {
    envelope.payload.Registration? && envelope.payload.profile.shellExecution == false && "shell" !in envelope.payload.profile.capabilities
  }

  predicate SoundHeartbeat(envelope: Envelope) {
    envelope.payload.Heartbeat? && envelope.payload.status in {Online, Degraded} && 0 <= envelope.payload.activeJobs
  }

  /** The envelope is remembered, and its Runner has this record now. */
  ghost predicate Hears(s: State, s': State, envelope: Envelope, record: RunnerRecord, isLive: bool) {
    && s'.jobs == s.jobs && s'.digests == s.digests && s'.runners == s.runners[envelope.runnerId := record]
    && envelope.envelopeId in s'.identities && s'.identities == s.identities[envelope.envelopeId := s'.identities[envelope.envelopeId]]
    && s'.identities[envelope.envelopeId].runnerId == envelope.runnerId && s'.identities[envelope.envelopeId].digest == envelope
    && (envelope.runnerId in s'.live <==> isLive) && forall id: Id | id != envelope.runnerId :: id in s'.live <==> id in s.live
  }

  /** A sound registration under a new envelope id is always applied. The record is what it says; what is known of a Runner that is
      live stays known. */
  lemma RegistrationApplies(s: State, envelope: Envelope, receivedAt: Time, isLive: bool)
    requires envelope.envelopeId !in s.identities
    ensures var r := Apply(s, RunnerRegistered(envelope, receivedAt), isLive);
      && (r.Ok? <==> SoundRegistration(envelope))
      && (r.Ok? ==>
            && envelope.runnerId in r.value.runners
            && var record := r.value.runners[envelope.runnerId];
               && Hears(s, r.value, envelope, record, isLive)
               && record.nodeId == envelope.runnerId && record.profile == envelope.payload.profile
               && record.lastReceivedAt == receivedAt && record.lastSentAt == envelope.sentAt
               && if isLive && envelope.runnerId in s.runners
                  then record.status == s.runners[envelope.runnerId].status && record.activeJobs == s.runners[envelope.runnerId].activeJobs
                  else record.status == Unknown && record.activeJobs == 0)
  {
  }

  /** A sound heartbeat under a new envelope id is applied exactly when its Runner is registered and it does not go back in time. */
  lemma HeartbeatApplies(s: State, envelope: Envelope, receivedAt: Time, isLive: bool)
    requires envelope.envelopeId !in s.identities
    ensures var r := Apply(s, RunnerHeartbeat(envelope, receivedAt), isLive);
      && (r.Ok? <==>
            SoundHeartbeat(envelope) && envelope.runnerId in s.runners && s.runners[envelope.runnerId].lastSentAt <= envelope.sentAt)
      && (r.Ok? ==>
            && envelope.runnerId in r.value.runners
            && var (record, was) := (r.value.runners[envelope.runnerId], s.runners[envelope.runnerId]);
               && Hears(s, r.value, envelope, record, isLive)
               && record.nodeId == was.nodeId && record.profile == was.profile
               && record.lastReceivedAt == receivedAt && record.lastSentAt == envelope.sentAt
               && if isLive then record.status == envelope.payload.status && record.activeJobs == envelope.payload.activeJobs
                  else record.status == Unknown && record.activeJobs == 0)
  {
  }

  /** A known envelope id changes nothing: the same envelope is passed over, another one is refused. */
  lemma KnownEnvelope(s: State, e: Event, isLive: bool)
    requires EnvelopeEvent(e) && e.envelope.envelopeId in s.identities
    requires if e.RunnerRegistered? then SoundRegistration(e.envelope) else SoundHeartbeat(e.envelope)
    ensures var known := s.identities[e.envelope.envelopeId];
      if known.runnerId == e.envelope.runnerId && known.digest == e.envelope then Apply(s, e, isLive) == Ok(s)
      else Apply(s, e, isLive) == Err(EnvelopeReused)
  {
  }

  /** An audit event changes nothing; any other type, and a payload of the wrong shape, is refused. */
  lemma OtherEvents(s: State, e: Event, isLive: bool)
    requires !e.MessageAccepted? && !EnvelopeEvent(e)
    ensures if e.AuditOnly? then Apply(s, e, isLive) == Ok(s) else Apply(s, e, isLive) == Err(InvalidEvent)
  {
  }

  // ---- A whole log ----

  predicate Speaks(e: Event, runnerId: Id) {
    EnvelopeEvent(e) && e.envelope.runnerId == runnerId
  }

  /** Nothing after this event is from the Runner. */
  predicate IsLastWord(events: seq<Event>, runnerId: Id, i: nat) {
    i < |events| && Speaks(events[i], runnerId) && forall j | i < j < |events| :: !Speaks(events[j], runnerId)
  }

  predicate IsLastRegistration(events: seq<Event>, runnerId: Id, i: nat) {
    && i < |events| && Speaks(events[i], runnerId) && events[i].RunnerRegistered?
    && forall j | i < j < |events| && Speaks(events[j], runnerId) :: !events[j].RunnerRegistered?
  }

  /** No envelope comes twice. */
  ghost predicate NewEnvelopes(events: seq<Event>) {
    forall i, j | 0 <= i < j < |events| && EnvelopeEvent(events[i]) && EnvelopeEvent(events[j]) ::
      events[i].envelope.envelopeId != events[j].envelope.envelopeId
  }

  /** The record says what the i-th event says, and describes the Runner as the j-th does. */
  predicate RecordIs(events: seq<Event>, flags: seq<bool>, s: State, runnerId: Id, i: nat, j: nat)
    requires |flags| == |events| && runnerId in s.runners
  {
    var record := s.runners[runnerId];
    && IsLastWord(events, runnerId, i) && IsLastRegistration(events, runnerId, j)
    && record.nodeId == runnerId && events[j].envelope.payload == Registration(record.profile)
    && record.lastReceivedAt == events[i].receivedAt && record.lastSentAt == events[i].envelope.sentAt
    && (runnerId in s.live <==> flags[i])
    && (events[i].RunnerHeartbeat? ==>
          if flags[i] then events[i].envelope.payload == Heartbeat(record.status, record.activeJobs)
          else record.status == Unknown && record.activeJobs == 0)
  }

  /** The record says what the Runner said last, and describes it as it registered last. */
  ghost predicate ShowsLastWord(events: seq<Event>, flags: seq<bool>, s: State, runnerId: Id)
    requires |flags| == |events|
  {
    if runnerId !in s.runners then forall e <- events :: !Speaks(e, runnerId)
    else exists i: nat, j: nat :: RecordIs(events, flags, s, runnerId, i, j)
  }

  ghost predicate KnowsEnvelopes(events: seq<Event>, s: State) {
    forall id: Id :: id in s.identities <==> exists e <- events :: EnvelopeEvent(e) && e.envelope.envelopeId == id
  }

  lemma LaterWordsKeep(events: seq<Event>, flags: seq<bool>, s: State, s': State, e: Event, isLive: bool, runnerId: Id)
    requires |flags| == |events| && ShowsLastWord(events, flags, s, runnerId) && !Speaks(e, runnerId)
    requires (runnerId in s'.runners <==> runnerId in s.runners) && (runnerId in s'.live <==> runnerId in s.live)
    requires runnerId in s.runners ==> s'.runners[runnerId] == s.runners[runnerId]
    ensures ShowsLastWord(events + [e], flags + [isLive], s', runnerId)
  {
    if runnerId in s.runners {
      var i: nat, j: nat :| RecordIs(events, flags, s, runnerId, i, j);
      assert (events + [e])[i] == events[i] && (events + [e])[j] == events[j] && (flags + [isLive])[i] == flags[i];
      assert RecordIs(events + [e], flags + [isLive], s', runnerId, i, j);
    }
  }

  lemma OwnWordCounts(events: seq<Event>, flags: seq<bool>, s: State, e: Event, isLive: bool)
    requires |flags| == |events| && EnvelopeEvent(e) && Apply(s, e, isLive).Ok? && e.envelope.envelopeId !in s.identities
    requires ShowsLastWord(events, flags, s, e.envelope.runnerId)
    ensures ShowsLastWord(events + [e], flags + [isLive], Apply(s, e, isLive).value, e.envelope.runnerId)
  {
    var (n, runnerId, events') := (|events|, e.envelope.runnerId, events + [e]);
    var (flags', s') := (flags + [isLive], Apply(s, e, isLive).value);
    assert events'[n] == e && flags'[n] == isLive;
    if e.RunnerRegistered? {
      assert RecordIs(events', flags', s', runnerId, n, n);
    } else {
      var i: nat, j: nat :| RecordIs(events, flags, s, runnerId, i, j);
      assert events'[j] == events[j];
      assert RecordIs(events', flags', s', runnerId, n, j);
    }
  }

  lemma OthersAreUntouched(s: State, e: Event, isLive: bool, runnerId: Id)
    requires Apply(s, e, isLive).Ok? && !Speaks(e, runnerId)
    ensures var s' := Apply(s, e, isLive).value;
      && (runnerId in s'.runners <==> runnerId in s.runners) && (runnerId in s'.live <==> runnerId in s.live)
      && (runnerId in s.runners ==> s'.runners[runnerId] == s.runners[runnerId])
  {
  }

  lemma EnvelopesOneMore(events: seq<Event>, s: State, e: Event, isLive: bool)
    requires KnowsEnvelopes(events, s) && Apply(s, e, isLive).Ok?
    requires EnvelopeEvent(e) ==> e.envelope.envelopeId !in s.identities
    ensures KnowsEnvelopes(events + [e], Apply(s, e, isLive).value)
  {
    var s' := Apply(s, e, isLive).value;
    forall id: Id ensures id in s'.identities <==> exists f <- events + [e] :: EnvelopeEvent(f) && f.envelope.envelopeId == id {
      if EnvelopeEvent(e) && e.envelope.envelopeId == id { assert e in events + [e]; }
      if exists f <- events :: EnvelopeEvent(f) && f.envelope.envelopeId == id {
        var f :| f in events && EnvelopeEvent(f) && f.envelope.envelopeId == id;
        assert f in events + [e];
      }
    }
  }

  lemma {:induction false} FoldShowsLastWords(events: seq<Event>, flags: seq<bool>, runnerId: Id)
    requires |flags| == |events| && Fold(events, flags).Ok? && NewEnvelopes(events)
    ensures ShowsLastWord(events, flags, Fold(events, flags).value, runnerId) && KnowsEnvelopes(events, Fold(events, flags).value)
    decreases |events|
  {
    if events != [] {
      var n := |events| - 1;
      var (e, s) := (events[n], Fold(events[..n], flags[..n]).value);
      FoldShowsLastWords(events[..n], flags[..n], runnerId);
      assert events == events[..n] + [e] && flags == flags[..n] + [flags[n]];
      assert EnvelopeEvent(e) ==> e.envelope.envelopeId !in s.identities;
      EnvelopesOneMore(events[..n], s, e, flags[n]);
      if Speaks(e, runnerId) {
        OwnWordCounts(events[..n], flags[..n], s, e, flags[n]);
      } else {
        OthersAreUntouched(s, e, flags[n], runnerId);
        LaterWordsKeep(events[..n], flags[..n], s, Apply(s, e, flags[n]).value, e, flags[n], runnerId);
      }
    }
  }

  // ---- What is shown ----

  /** A Runner is shown online exactly when it has been heard of since the start, within the last 45 seconds. Online it is shown as
      recorded, else with unknown status and no active Jobs; what it is, is shown in either case. */
  lemma ShownOnlineIff(s: State, nodeId: Id, now: Time)
    requires nodeId in s.runners
    ensures var ((shown, online), record) := (RunnerView(s, nodeId, now), s.runners[nodeId]);
      && (online <==> nodeId in s.live && record.lastReceivedAt <= now <= record.lastReceivedAt + 45_000)
      && (online ==> shown == record)
      && (!online ==> shown.status == Unknown && shown.activeJobs == 0 && shown.nodeId == record.nodeId
                      && shown.profile == record.profile && shown.lastReceivedAt == record.lastReceivedAt && shown.lastSentAt == record.lastSentAt)
  {
  }

  /** In every reachable state of the running Hub each Runner's record is its last word in the log, and a Runner that the log does
      not name is not known. */
  lemma RunnersShowTheirLastWord(steps: seq<Step>, runnerId: Id)
    requires Reach(steps).up
    ensures var w := Reach(steps);
      |w.flags| == |Supported(w.log)| && ShowsLastWord(Supported(w.log), w.flags, w.s, runnerId)
  {
    RunKeepsInv(Fresh(), steps);
    var w := Reach(steps);
    SupportedIsNew(w.log);
    FoldShowsLastWords(Supported(w.log), w.flags, runnerId);
  }

  lemma {:induction false} SupportedIsNew(log: seq<Event>)
    requires NewEnvelopes(log)
    ensures NewEnvelopes(Supported(log)) && forall e <- Supported(log) :: e in log
    decreases |log|
  {
    if log != [] {
      var n := |log| - 1;
      SupportedIsNew(log[..n]);
      forall e <- Supported(log[..n]) | EnvelopeEvent(e) && EnvelopeEvent(log[n]) ensures e.envelope.envelopeId != log[n].envelope.envelopeId {
        assert e in log[..n];
        var k :| 0 <= k < n && log[k] == e;
      }
    }
  }

  // ---- What the handlers let through ----

  /** A message gets a new Job exactly when none was made for it yet; that Job is new, names the message and carries the time. */
  lemma MessageIsLetThroughIff(s: State, messageId: Id, digest: string, jobId: Id, now: Time)
    ensures var e := Guarded(s, PostMessage(messageId, digest, jobId, now));
      && (e.Some? <==> forall j <- s.jobs :: s.jobs[j].sourceMessageId != messageId)
      && (e.Some? ==> e.value.MessageAccepted? && e.value.messageId == messageId && e.value.digest == digest
                      && e.value.job.jobId == jobId && e.value.job.sourceMessageId == messageId
                      && e.value.job.status == "NEW" && e.value.job.createdAt == now)
  {
  }

  /** An envelope is let through exactly when it is sound, new, and sent within five minutes of its receipt; a heartbeat, only
      from a registered Runner and not before its last word. It is logged as it came. */
  lemma EnvelopeIsLetThroughIff(s: State, envelope: Envelope, receivedAt: Time)
    ensures var e := Guarded(s, PostEnvelope(envelope, receivedAt));
      && (e.Some? <==>
            && envelope.envelopeId !in s.identities && receivedAt - 300_000 <= envelope.sentAt <= receivedAt + 300_000
            && (SoundRegistration(envelope)
                || (SoundHeartbeat(envelope) && envelope.runnerId in s.runners && s.runners[envelope.runnerId].lastSentAt <= envelope.sentAt)))
      && (e.Some? ==> EnvelopeEvent(e.value) && e.value.envelope == envelope && e.value.receivedAt == receivedAt
                      && (e.value.RunnerRegistered? <==> envelope.payload.Registration?))
  {
  }

  /** Each message in the log of a running Hub has its Job, as the log describes it. */
  lemma EachMessageHasItsJob(steps: seq<Step>, messageId: Id)
    requires Reach(steps).up
    ensures var s := Reach(steps).s;
      messageId in s.digests <==> exists j <- s.jobs :: s.jobs[j].sourceMessageId == messageId
  {
    RunKeepsInv(Fresh(), steps);
  }
}
