/** The texts of channel notifications, and which texts the outbox accepts. */
module NotificationText {
  import opened Wrappers
  import opened Utf8
  import opened TruncateUtf8
  import Jobs

  const MAX_BYTES: nat := 14 * 1024
  const NUL: Char := 0
  const NEWLINE: Text := [0xA]
  const ELLIPSIS: Char := 0x2026

  // The Owner reads Chinese: "Done, all finished.", "It did not finish this time.", "All right, I have stopped.",
  // "Result:", and after a cut "… (the result was cut, see the Web console for the whole record)" on a line of its own.
  const SUCCEEDED: Text := [0x597D, 0x4E86, 0xFF0C, 0x4EFB, 0x52A1, 0x5B8C, 0x6210, 0x3002]
  const FAILED: Text := [0x8FD9, 0x6B21, 0x6CA1, 0x8DD1, 0x5B8C, 0x3002]
  const STOPPED: Text := [0x597D, 0xFF0C, 0x6211, 0x5148, 0x505C, 0x4E0B, 0x6765, 0x4E86, 0x3002]
  const RESULT: Text := [0x7ED3, 0x679C, 0xFF1A]
  const SUFFIX: Text := [
    0xA, 0x2026, 0xFF08, 0x7ED3, 0x679C, 0x5DF2, 0x622A, 0x65AD, 0xFF0C, 0x8BF7, 0x5728, 0x20, 0x57, 0x65, 0x62, 0x20,
    0x63A7, 0x5236, 0x53F0, 0x67E5, 0x770B, 0x5B8C, 0x6574, 0x8BB0, 0x5F55, 0xFF09]

  // ---- White space ----

  /** WhiteSpace and LineTerminator of ECMAScript. */
  predicate IsSpace(c: Char) {
    || 0x9 <= c <= 0xD || c == 0x20 || c == 0xA0 || c == 0x1680 || 0x2000 <= c <= 0x200A
    || c == 0x2028 || c == 0x2029 || c == 0x202F || c == 0x205F || c == 0x3000 || c == 0xFEFF
  }

  function TrimStart(s: Text): Text {
    if s != [] && IsSpace(s[0]) then TrimStart(s[1..]) else s
  }

  function TrimEnd(s: Text): Text {
    if s != [] && IsSpace(s[|s| - 1]) then TrimEnd(s[..|s| - 1]) else s
  }

  function Trim(s: Text): Text {
    TrimEnd(TrimStart(s))
  }

  lemma {:induction false} TrimStartKeeps(s: Text, c: Char)
    requires !IsSpace(c)
    ensures c in TrimStart(s) <==> c in s
  {
    if s != [] && IsSpace(s[0]) {
      TrimStartKeeps(s[1..], c);
      assert s == [s[0]] + s[1..];
    }
  }

  lemma {:induction false} TrimEndKeeps(s: Text, c: Char)
    requires !IsSpace(c)
    ensures c in TrimEnd(s) <==> c in s
  {
    if s != [] && IsSpace(s[|s| - 1]) {
      TrimEndKeeps(s[..|s| - 1], c);
      assert s == s[..|s| - 1] + [s[|s| - 1]];
    }
  }

  /** Trimming takes white space only. */
  lemma TrimKeeps(s: Text, c: Char)
    requires !IsSpace(c)
    ensures c in Trim(s) <==> c in s
  {
    TrimStartKeeps(s, c);
    TrimEndKeeps(TrimStart(s), c);
  }

  lemma {:induction false} TrimStartIsVisible(s: Text)
    ensures TrimStart(s) == [] || !IsSpace(TrimStart(s)[0])
    decreases |s|
  {
    if s != [] && IsSpace(s[0]) { TrimStartIsVisible(s[1..]); }
  }

  /** Nothing is left exactly when there was nothing to see. */
  lemma NothingLeftIff(s: Text)
    ensures Trim(s) == [] <==> forall c <- s :: IsSpace(c)
  {
    var start := TrimStart(s);
    TrimStartIsVisible(s);
    if start != [] {
      assert start[0] in start;
      TrimStartKeeps(s, start[0]);
      TrimKeeps(s, start[0]);
    } else {
      forall c <- s ensures IsSpace(c) {
        if !IsSpace(c) { TrimStartKeeps(s, c); }
      }
    }
  }

  /** requireText */
  predicate Accepted(text: Text) {
    Trim(text) != [] && ByteLength(text) <= MAX_BYTES && NUL !in text
  }

  // ---- The text of an ended Job ----

  function Heading(status: Jobs.JobState): Text {
    if status == Jobs.Succeeded then SUCCEEDED else if status == Jobs.Failed then FAILED else STOPPED
  }

  function DetailOf(body: Jobs.EventBody): Option<Text> {
    match body
    case OutputEvent(chunk) => if Trim(chunk) == [] then None else Some(Trim(chunk))
    case ErrorEvent(Some(message)) => Some(Trim(message))
    case _ => None
  }

  function Details(events: seq<Jobs.JobEvent>): seq<Text> {
    if events == [] then []
    else
      var detail := DetailOf(events[|events| - 1].body);
      Details(events[..|events| - 1]) + if detail.Some? then [detail.value] else []
  }

  function Join(parts: seq<Text>): Text {
    if parts == [] then []
    else if |parts| == 1 then parts[0]
    else Join(parts[..|parts| - 1]) + NEWLINE + parts[|parts| - 1]
  }

  function Lines(heading: Text, details: seq<Text>): seq<Text> {
    if details == [] then [heading] else [heading, [], RESULT, Join(details)]
  }

  function Message(status: Jobs.JobState, events: seq<Jobs.JobEvent>): Text {
    Join(Lines(Heading(status), Details(events)))
  }

  function TerminalText(status: Jobs.JobState, events: seq<Jobs.JobEvent>): Text {
    Truncated(Message(status, events), MAX_BYTES, SUFFIX)
  }

  method BuildTerminalText(status: Jobs.JobState, events: seq<Jobs.JobEvent>) returns (text: Text)
    ensures text == TerminalText(status, events)
  {
    var details: seq<Text> := [];
    var i := 0;
    while i < |events|
      invariant 0 <= i <= |events| && details == Details(events[..i])
    {
      assert events[..i + 1][..i] == events[..i];
      var body := events[i].body;
      if body.OutputEvent? && Trim(body.chunk) != [] { details := details + [Trim(body.chunk)]; }
      if body.ErrorEvent? && body.message.Some? { details := details + [Trim(body.message.value)]; }
      i := i + 1;
    }
    assert events[..|events|] == events;
    text := Truncate(Join(Lines(Heading(status), details)), MAX_BYTES, SUFFIX);
  }

  // ---- When it is refused ----

  predicate HoldsNul(body: Jobs.EventBody) {
    match body
    case OutputEvent(chunk) => NUL in chunk
    case ErrorEvent(Some(message)) => NUL in message
    case _ => false
  }

  lemma {:induction false} NulInJoin(parts: seq<Text>)
    ensures NUL in Join(parts) <==> exists part <- parts :: NUL in part
  {
    if |parts| > 1 {
      var n := |parts| - 1;
      NulInJoin(parts[..n]);
      assert parts == parts[..n] + [parts[n]];
    }
  }

  lemma {:induction false} NulInDetails(events: seq<Jobs.JobEvent>)
    ensures (exists detail <- Details(events) :: NUL in detail) <==> exists e <- events :: HoldsNul(e.body)
  {
    if events != [] {
      var n := |events| - 1;
      NulInDetails(events[..n]);
      assert events == events[..n] + [events[n]];
      match events[n].body {
        case OutputEvent(chunk) => TrimKeeps(chunk, NUL);
        case ErrorEvent(Some(message)) => TrimKeeps(message, NUL);
        case _ =>
      }
    }
  }

  lemma NulInLines(heading: Text, details: seq<Text>)
    ensures NUL in Join(Lines(heading, details)) <==> NUL in heading || exists detail <- details :: NUL in detail
  {
    var lines := Lines(heading, details);
    NulInJoin(lines);
    NulInJoin(details);
    assert heading == lines[0];
    if details != [] { assert Join(details) == lines[3]; }
  }

  /** A NUL in the message is a NUL of one of the Job's output or error events. */
  lemma NulComesFromAnEvent(status: Jobs.JobState, events: seq<Jobs.JobEvent>)
    ensures NUL in Message(status, events) <==> exists e <- events :: HoldsNul(e.body)
  {
    NulInDetails(events);
    NulInLines(Heading(status), Details(events));
  }

  lemma SuffixFacts()
    ensures ByteLength(SUFFIX) <= MAX_BYTES && ELLIPSIS in SUFFIX && !IsSpace(ELLIPSIS) && NUL !in SUFFIX
  {
    assert SUFFIX[1] == ELLIPSIS;
  }

  lemma TruncatedIsVisible(value: Text, maxBytes: nat)
    requires exists c <- value :: !IsSpace(c)
    ensures Trim(Truncated(value, maxBytes, SUFFIX)) != []
  {
    var text := Truncated(value, maxBytes, SUFFIX);
    SuffixFacts();
    if text == value {
      var c :| c in value && !IsSpace(c);
      TrimKeeps(text, c);
    } else {
      TrimKeeps(text, ELLIPSIS);
    }
  }

  /** Cut or not, the text is visible and short enough: it is refused exactly when a NUL lies in the part that is kept. */
  lemma RefusedIffNulIsKept(value: Text)
    requires exists c <- value :: !IsSpace(c)
    ensures Accepted(Truncated(value, MAX_BYTES, SUFFIX)) <==> NUL !in KeptPrefix(value, MAX_BYTES, SUFFIX)
  {
    SuffixFacts();
    TruncatedIsVisible(value, MAX_BYTES);
    TruncatedIsCut(value, MAX_BYTES, SUFFIX);
  }

  lemma {:induction false} JoinStartsWith(parts: seq<Text>)
    requires parts != []
    ensures parts[0] <= Join(parts)
  {
    if |parts| > 1 {
      JoinStartsWith(parts[..|parts| - 1]);
    }
  }

  lemma MessageIsVisible(status: Jobs.JobState, events: seq<Jobs.JobEvent>)
    ensures exists c <- Message(status, events) :: !IsSpace(c)
  {
    JoinStartsWith(Lines(Heading(status), Details(events)));
    var first := Message(status, events)[0];
    assert first == Heading(status)[0] && first in Message(status, events);
  }

  lemma TerminalTextIsRefusedIff(status: Jobs.JobState, events: seq<Jobs.JobEvent>)
    ensures Accepted(TerminalText(status, events)) <==> NUL !in KeptPrefix(Message(status, events), MAX_BYTES, SUFFIX)
  {
    MessageIsVisible(status, events);
    RefusedIffNulIsKept(Message(status, events));
  }

  // ---- The text of a held call ----

  // "This step reaches far, so I stop here first.", "Please check and authorise it in the Web console.",
  // "I am about to go on with this step:", "Answer 'confirm' and I go on.", "Please click 'authorise and run' in the Web console."
  const FAR_REACHING: Text := [
    0x8FD9, 0x4E00, 0x6B65, 0x5F71, 0x54CD, 0x8303, 0x56F4, 0x8F83, 0x5927, 0xFF0C, 0x6211, 0x5148, 0x505C, 0x5728, 0x8FD9,
    0x91CC, 0x3002]
  const CHECK_IN_WEB: Text := [
    0x8BF7, 0x5230, 0x20, 0x57, 0x65, 0x62, 0x20, 0x63A7, 0x5236, 0x53F0, 0x6838, 0x5BF9, 0x540E, 0x6388, 0x6743, 0x3002]
  const NEXT_STEP: Text := [0x6211, 0x51C6, 0x5907, 0x7EE7, 0x7EED, 0x8FD9, 0x4E00, 0x6B65, 0xFF1A]
  const ANSWER_HERE: Text := [
    0x56DE, 0x590D, 0x300C, 0x786E, 0x8BA4, 0x300D, 0x5373, 0x53EF, 0xFF0C, 0x6211, 0x4F1A, 0x7EE7, 0x7EED, 0x3002]
  const CLICK_IN_WEB: Text := [
    0x8BF7, 0x5230, 0x20, 0x57, 0x65, 0x62, 0x20, 0x63A7, 0x5236, 0x53F0, 0x70B9, 0x201C, 0x6388, 0x6743, 0x5E76, 0x6267,
    0x884C, 0x201D, 0x3002]
  const QUOTE: Text := [0x300C]
  const UNQUOTE: Text := [0x300D]

  const MAX_REASON_LENGTH: nat := 140

  /** Each run of white space becomes one blank. */
  function Collapse(s: Text): Text {
    if s == [] then []
    else
      var n := |s| - 1;
      if !IsSpace(s[n]) then Collapse(s[..n]) + [s[n]]
      else if n > 0 && IsSpace(s[n - 1]) then Collapse(s[..n])
      else Collapse(s[..n]) + [0x20]
  }

  /** The length of a string in UTF-16. */
  function Utf16Length(s: Text): nat {
    if s == [] then 0 else Utf16Length(s[..|s| - 1]) + if s[|s| - 1] < 0x1_0000 then 1 else 2
  }

  function ShortSuffix(s: Text): Text {
    if |SUFFIX| <= |s| && s[|s| - |SUFFIX|..] == SUFFIX then s[..|s| - |SUFFIX|] + [ELLIPSIS] else s
  }

  function CompactReason(reason: Text): Text {
    var normalized := Trim(Collapse(reason));
    if Utf16Length(normalized) <= MAX_REASON_LENGTH then normalized
    else ShortSuffix(Truncated(normalized, MAX_REASON_LENGTH, SUFFIX))
  }

  /** `critical`: the call is R3. `approvalHere`: the Owner may answer in the channel. */
  function ClearanceLines(reason: Text, critical: bool, approvalHere: bool): seq<Text> {
    var quoted := QUOTE + CompactReason(reason) + UNQUOTE;
    if critical then [FAR_REACHING, quoted, CHECK_IN_WEB]
    else [NEXT_STEP, quoted, if approvalHere then ANSWER_HERE else CLICK_IN_WEB]
  }

  function ClearanceText(reason: Text, critical: bool, approvalHere: bool): Text {
    Truncated(Join(ClearanceLines(reason, critical, approvalHere)), MAX_BYTES, SUFFIX)
  }

  lemma {:induction false} NulInCollapsed(s: Text)
    ensures NUL in Collapse(s) ==> NUL in s
  {
    if s != [] {
      NulInCollapsed(s[..|s| - 1]);
    }
  }

  lemma NulInTruncated(value: Text, maxBytes: nat)
    ensures NUL in Truncated(value, maxBytes, SUFFIX) ==> NUL in value
  {
    SuffixFacts();
  }

  lemma NulInReason(reason: Text)
    ensures NUL in CompactReason(reason) ==> NUL in reason
  {
    NulInCollapsed(reason);
    TrimKeeps(Collapse(reason), NUL);
    NulInTruncated(Trim(Collapse(reason)), MAX_REASON_LENGTH);
  }

  lemma FixedLinesHoldNoNul()
    ensures forall line <- {FAR_REACHING, CHECK_IN_WEB, NEXT_STEP, ANSWER_HERE, CLICK_IN_WEB, QUOTE, UNQUOTE} :: NUL !in line
  {
  }

  lemma ClearanceLinesHoldNoNul(reason: Text, critical: bool, approvalHere: bool)
    requires NUL !in reason
    ensures NUL !in Join(ClearanceLines(reason, critical, approvalHere))
  {
    var lines := ClearanceLines(reason, critical, approvalHere);
    FixedLinesHoldNoNul();
    NulInReason(reason);
    assert NUL !in lines[1];
    NulInJoin(lines);
    assert forall line <- lines :: line == lines[0] || line == lines[1] || line == lines[2];
  }

  /** A reason without NUL, as the policy demands it, always gives an accepted text. */
  lemma ClearanceIsAccepted(reason: Text, critical: bool, approvalHere: bool)
    requires NUL !in reason
    ensures Accepted(ClearanceText(reason, critical, approvalHere))
  {
    var lines := ClearanceLines(reason, critical, approvalHere);
    ClearanceLinesHoldNoNul(reason, critical, approvalHere);
    JoinStartsWith(lines);
    var first := Join(lines)[0];
    assert first == lines[0][0] && first in Join(lines);
    RefusedIffNulIsKept(Join(lines));
  }
}
