/** Two runs of the Hub that differ in where a Job's output holds a NUL; after the one the Hub starts, after the other it does not. */
module HubStartRuns {
  import opened Wrappers
  import opened Jobs
  import opened NodeTools
  import opened HubRuns
  import opened HubGuarantees
  import opened HubRestart
  import opened NotificationText
  import opened TruncateUtf8
  import opened Utf8
  import opened HubStart
  import ChannelOutbox
  import Notifier = JobChannelNotifier

  /** The agent's Job reports this output. */
  function Output(chunk: Text): JobEvent {
    JobEvent(101, 0, 7, 1, 1, OutputEvent(chunk))
  }

  /** The Job starts, reports the output, and succeeds. */
  function Reporting(chunk: Text): seq<HubRuns.Step> {
    [Step(CreateJob(7, REQUEST, 0), 0, 1), Step(Accept(StateChange(0, Running)), 0, 1),
     Step(Accept(Output(chunk)), 0, 1), Step(Accept(StateChange(2, Succeeded)), 0, 1)]
  }

  function Reported(chunk: Text): Table {
    AcceptEvent(RUNNING, Output(chunk), 0).value.0
  }

  function Finished(chunk: Text): Table {
    AcceptEvent(Reported(chunk), StateChange(2, Succeeded), 0).value.0
  }

  lemma TablesOfTheReport(chunk: Text)
    ensures AcceptEvent(RUNNING, Output(chunk), 0).Ok? && AcceptEvent(Reported(chunk), StateChange(2, Succeeded), 0).Ok?
    ensures Finished(chunk).jobs == map[0 := JobAfter(3, Succeeded)]
    ensures ListEvents(Finished(chunk), 0) == [StateChange(0, Running), Output(chunk), StateChange(2, Succeeded)]
  {
    TablesOfTheRun();
  }

  lemma JobFinishes(chunk: Text)
    ensures Reach(0, Reporting(chunk)).hub == Hub(Finished(chunk), map[]) && Reach(0, Reporting(chunk)).clock == 0
  {
    TablesOfTheRun();
    TablesOfTheReport(chunk);
    var steps := Reporting(chunk);
    var w0 := Fresh(0);
    HubAfterStep(w0, steps[0], Hub(CREATED, map[]));
    var w1 := Next(w0, steps[0]);
    HubAfterStep(w1, steps[1], Hub(RUNNING, map[]));
    var w2 := Next(w1, steps[1]);
    HubAfterStep(w2, steps[2], Hub(Reported(chunk), map[]));
    var w3 := Next(w2, steps[2]);
    HubAfterStep(w3, steps[3], Hub(Finished(chunk), map[]));
    FourSteps(w0, steps[0], steps[1], steps[2], steps[3]);
  }

  // ---- The message ----

  const FRONT: Text := SUCCEEDED + NEWLINE + [] + NEWLINE + RESULT + NEWLINE

  lemma DetailsOfTheReport(chunk: Text)
    requires Trim(chunk) == chunk != []
    ensures Details([StateChange(0, Running), Output(chunk), StateChange(2, Succeeded)]) == [chunk]
  {
    var events := [StateChange(0, Running), Output(chunk), StateChange(2, Succeeded)];
    assert events[..2] == [StateChange(0, Running), Output(chunk)] && events[..2][..1] == [StateChange(0, Running)];
    assert Details(events[..2][..1]) == [];
    assert Details(events[..2]) == [chunk];
  }

  lemma JoinedLines(a: Text, b: Text, c: Text, d: Text)
    ensures Join([a, b, c, d]) == a + NEWLINE + b + NEWLINE + c + NEWLINE + d
  {
    var lines := [a, b, c, d];
    assert lines[..3] == [a, b, c] && lines[..3][..2] == [a, b] && lines[..3][..2][..1] == [a];
    assert Join(lines[..3][..2]) == a + NEWLINE + b;
    assert Join(lines[..3]) == a + NEWLINE + b + NEWLINE + c;
  }

  lemma MessageOfTheReport(chunk: Text)
    requires Trim(chunk) == chunk != []
    ensures Notifier.MessageOf(Finished(chunk), 0) == FRONT + chunk
  {
    TablesOfTheReport(chunk);
    DetailsOfTheReport(chunk);
    JoinedLines(SUCCEEDED, [], RESULT, chunk);
    assert Join([chunk]) == chunk;
  }

  lemma OwnTrim(s: Text)
    requires s != [] && !IsSpace(s[0]) && !IsSpace(s[|s| - 1])
    ensures Trim(s) == s
  {
  }

  const BARE_NUL: Text := [NUL]

  /** 14 KiB of the letter a, then a NUL. */
  const LATE_NUL: Text := seq(MAX_BYTES, _ => 0x61) + [NUL]

  lemma BareNulIsShown()
    ensures Notifier.ShowsNul(Finished(BARE_NUL), 0)
  {
    TablesOfTheReport(BARE_NUL);
    OwnTrim(BARE_NUL);
    MessageOfTheReport(BARE_NUL);
    var message := Notifier.MessageOf(Finished(BARE_NUL), 0);
    assert message[|message| - 1] == NUL;
  }

  lemma CutIsWithinBudget(value: Text)
    requires |value| > MAX_BYTES
    ensures |KeptPrefix(value, MAX_BYTES, SUFFIX)| <= MAX_BYTES && KeptPrefix(value, MAX_BYTES, SUFFIX) <= value
  {
    KeptIsCut(value, MAX_BYTES - ByteLength(SUFFIX));
  }

  lemma LastNulIsCutOff(front: Text, last: Text)
    requires |last| > MAX_BYTES && NUL !in front && NUL !in last[..|last| - 1]
    ensures NUL !in KeptPrefix(front + last, MAX_BYTES, SUFFIX)
  {
    var kept := KeptPrefix(front + last, MAX_BYTES, SUFFIX);
    CutIsWithinBudget(front + last);
    forall i | 0 <= i < |kept| ensures kept[i] != NUL {
      assert kept[i] == (front + last)[i];
      if i >= |front| { assert last[i - |front|] == last[..|last| - 1][i - |front|]; }
    }
  }

  lemma OneNulAtTheEnd()
    ensures NUL !in FRONT && |LATE_NUL| == MAX_BYTES + 1 && NUL !in LATE_NUL[..|LATE_NUL| - 1]
  {
  }

  lemma LateNulIsCutOff()
    ensures !Notifier.ShowsNul(Finished(LATE_NUL), 0)
  {
    OwnTrim(LATE_NUL);
    MessageOfTheReport(LATE_NUL);
    OneNulAtTheEnd();
    LastNulIsCutOff(FRONT, LATE_NUL);
  }

  // ---- The start ----

  /** The Job's conversation is bound to a channel, and nothing was announced yet. */
  const BOUND: HubStart.Outbox := ChannelOutbox.Outbox(map[0 := ChannelOutbox.Binding("telegram", "owner")], [], [])

  const FOUND: Found := Found([], [0], [], [50])

  lemma OneJobEnded(chunk: Text)
    ensures Notifier.TextsOf(Finished(chunk)).Keys == {0}
  {
    TablesOfTheReport(chunk);
  }

  lemma OneIsListed(texts: Notifier.Texts)
    requires texts.Keys == {0}
    ensures Notifier.IsListing(BOUND, texts, [0]) && Notifier.Missing(BOUND, texts, 0)
  {
    forall jobId: Id ensures Notifier.Missing(BOUND, texts, jobId) <==> jobId == 0 {
      assert jobId in texts.Keys <==> jobId == 0;
    }
  }

  lemma OneJobIsMissing(chunk: Text)
    ensures Finds(Hub(Finished(chunk), map[]), BOUND, FOUND, 0)
    ensures forall jobId: Id :: Notifier.Missing(BOUND, Notifier.TextsOf(Finished(chunk)), jobId) <==> jobId == 0
  {
    var texts := Notifier.TextsOf(Finished(chunk));
    OneJobEnded(chunk);
    OneIsListed(texts);
    assert forall jobId: Id :: jobId in [0] <==> jobId == 0;
    assert Opened(Hub(Finished(chunk), map[]), [], 0) == Hub(Finished(chunk), map[]);
  }

  /** After a NUL that its notification would show, the Hub does not start. */
  lemma BareNulKeepsTheHubDown(approvalEnabled: bool)
    ensures var h := Reach(0, Reporting(BARE_NUL)).hub;
      Finds(h, BOUND, FOUND, 0) && Start(h, BOUND, FOUND, approvalEnabled, 0).1.Err?
  {
    JobFinishes(BARE_NUL);
    OneJobIsMissing(BARE_NUL);
    BareNulIsShown();
    StartsIff(0, Reporting(BARE_NUL), BOUND, FOUND, approvalEnabled, 0);
  }

  /** After a NUL behind the cut it does, and the Job has its notification. */
  lemma LateNulDoesNot(approvalEnabled: bool)
    ensures var h := Reach(0, Reporting(LATE_NUL)).hub;
      var (o', result) := Start(h, BOUND, FOUND, approvalEnabled, 0);
      Finds(h, BOUND, FOUND, 0) && result == Ok(()) && !Notifier.Missing(o', Notifier.TextsOf(h.jobs), 0)
  {
    JobFinishes(LATE_NUL);
    OneJobIsMissing(LATE_NUL);
    LateNulIsCutOff();
    StartsIff(0, Reporting(LATE_NUL), BOUND, FOUND, approvalEnabled, 0);
    StartedHubIsInOrder(0, Reporting(LATE_NUL), BOUND, FOUND, approvalEnabled, 0);
  }
}
