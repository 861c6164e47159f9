/** What the texts of notifications say, in terms of what the Job reported or the call gives as its reason. */
module TextLaws {
  import opened Wrappers
  import opened Utf8
  import opened TruncateUtf8
  import Jobs
  import NodeTools
  import opened NotificationText
  import JobChannelNotifier

  // ---- White space ----

  predicate AllSpace(s: Text) {
    forall c <- s :: IsSpace(c)
  }

  lemma {:induction false} TrimStartSplits(s: Text) returns (blank: Text)
    ensures s == blank + TrimStart(s) && AllSpace(blank)
    ensures TrimStart(s) == [] || !IsSpace(TrimStart(s)[0])
    decreases |s|
  {
    if s != [] && IsSpace(s[0]) {
      blank := TrimStartSplits(s[1..]);
      blank := [s[0]] + blank;
    } else {
      blank := [];
    }
  }

  lemma {:induction false} TrimEndSplits(s: Text) returns (blank: Text)
    ensures s == TrimEnd(s) + blank && AllSpace(blank)
    ensures TrimEnd(s) == [] || !IsSpace(TrimEnd(s)[|TrimEnd(s)| - 1])
    ensures TrimEnd(s) <= s
    decreases |s|
  {
    if s != [] && IsSpace(s[|s| - 1]) {
      blank := TrimEndSplits(s[..|s| - 1]);
      assert s == s[..|s| - 1] + [s[|s| - 1]];
      blank := blank + [s[|s| - 1]];
    } else {
      blank := [];
    }
  }

  /** WhiteSpace and LineTerminator of ECMA-262, sections 12.2 and 12.3. */
  const SPACES: set<int> := {
    0x9, 0xA, 0xB, 0xC, 0xD, 0x20, 0xA0, 0x1680, 0x2000, 0x2001, 0x2002, 0x2003, 0x2004, 0x2005, 0x2006, 0x2007, 0x2008,
    0x2009, 0x200A, 0x2028, 0x2029, 0x202F, 0x205F, 0x3000, 0xFEFF}

  lemma SpaceIsListed(c: Char)
    ensures IsSpace(c) <==> c in SPACES
  {
  }

  /** Trimming cuts white space off both ends, all of it, and nothing else. */
  lemma TrimIsCore(s: Text) returns (before: Text, after: Text)
    ensures s == before + Trim(s) + after && AllSpace(before) && AllSpace(after)
    ensures Trim(s) == [] || (!IsSpace(Trim(s)[0]) && !IsSpace(Trim(s)[|Trim(s)| - 1]))
  {
    before := TrimStartSplits(s);
    after := TrimEndSplits(TrimStart(s));
    assert s == before + (Trim(s) + after);
  }

  /** The visible characters, in order. */
  function Visible(s: Text): Text {
    if s == [] then [] else Visible(s[..|s| - 1]) + if IsSpace(s[|s| - 1]) then [] else [s[|s| - 1]]
  }

  lemma VisibleOneMore(s: Text, c: Char)
    ensures Visible(s + [c]) == Visible(s) + if IsSpace(c) then [] else [c]
  {
    assert (s + [c])[..|s|] == s;
  }

  /** White space is single blanks. */
  predicate SingleBlanks(s: Text) {
    && (forall i | 0 <= i < |s| && IsSpace(s[i]) :: s[i] == 0x20)
    && (forall i | 0 < i < |s| && IsSpace(s[i]) :: !IsSpace(s[i - 1]))
  }

  predicate EndsInSpace(s: Text) {
    s != [] && IsSpace(s[|s| - 1])
  }

  lemma SingleOneMore(s: Text, c: Char)
    requires SingleBlanks(s) && (IsSpace(c) ==> c == 0x20 && !EndsInSpace(s))
    ensures SingleBlanks(s + [c])
  {
  }

  /** Collapsing keeps the visible characters, and where there was white space between, leaves exactly one blank. */
  lemma {:induction false} CollapseKeepsWords(s: Text)
    ensures Visible(Collapse(s)) == Visible(s) && SingleBlanks(Collapse(s)) && (EndsInSpace(s) <==> EndsInSpace(Collapse(s)))
    decreases |s|
  {
    if s != [] {
      var n := |s| - 1;
      var before := Collapse(s[..n]);
      CollapseKeepsWords(s[..n]);
      if !IsSpace(s[n]) {
        VisibleOneMore(before, s[n]);
        SingleOneMore(before, s[n]);
      } else if !(n > 0 && IsSpace(s[n - 1])) {
        VisibleOneMore(before, 0x20);
        SingleOneMore(before, 0x20);
      }
    }
  }

  // ---- UTF-16 ----

  type Unit = u: int | 0 <= u < 0x1_0000

  /** The code units of a character, section 2.1 of RFC 2781. */
  function Units(c: Char): seq<Unit> {
    if c < 0x1_0000 then [c] else [0xD800 + (c - 0x1_0000) / 0x400, 0xDC00 + (c - 0x1_0000) % 0x400]
  }

  /** A pair is two surrogates, and stands for its character. */
  lemma UnitsStandForIt(c: Char)
    ensures |Units(c)| == 2 ==>
      && 0xD800 <= Units(c)[0] < 0xDC00 <= Units(c)[1] < 0xE000
      && c == 0x1_0000 + (Units(c)[0] as int - 0xD800) * 0x400 + (Units(c)[1] as int - 0xDC00)
  {
  }

  function InUnits(s: Text): seq<Unit> {
    if s == [] then [] else InUnits(s[..|s| - 1]) + Units(s[|s| - 1])
  }

  /** The length of a text, as the code takes it, is its number of code units. */
  lemma {:induction false} LengthIsUnits(s: Text)
    ensures Utf16Length(s) == |InUnits(s)|
  {
    if s != [] { LengthIsUnits(s[..|s| - 1]); }
  }

  // ---- The reason of a held call ----

  /** A reason of up to 140 UTF-16 units is given whole; a longer one is cut to whole characters and ends in an ellipsis. */
  lemma ReasonIsShown(reason: Text)
    ensures var normalized := Trim(Collapse(reason));
      if |InUnits(normalized)| <= 140 then CompactReason(reason) == normalized
      else exists kept: nat :: IsCut(normalized, kept, 140 - ByteLength(SUFFIX)) && CompactReason(reason) == normalized[..kept] + [0x2026]
  {
    var normalized := Trim(Collapse(reason));
    LengthIsUnits(normalized);
    if Utf16Length(normalized) > 140 {
      UnitsAreBytes(normalized);
      var kept := LongIsCut(normalized, 140, SUFFIX);
      CutIsShort(normalized[..kept]);
    }
  }

  lemma LongIsCut(value: Text, maxBytes: nat, suffix: Text) returns (kept: nat)
    requires maxBytes < ByteLength(value)
    ensures IsCut(value, kept, maxBytes - ByteLength(suffix)) && Truncated(value, maxBytes, suffix) == value[..kept] + suffix
  {
    TruncatedIsCut(value, maxBytes, suffix);
    kept :| IsCut(value, kept, maxBytes - ByteLength(suffix)) && Truncated(value, maxBytes, suffix) == value[..kept] + suffix;
  }

  lemma CutIsShort(kept: Text)
    ensures ShortSuffix(kept + SUFFIX) == kept + [0x2026]
  {
    SplitsAt(kept, SUFFIX);
  }

  lemma SplitsAt(a: Text, b: Text)
    ensures (a + b)[|a + b| - |b|..] == b && (a + b)[..|a + b| - |b|] == a
  {
  }

  lemma {:induction false} UnitsAreBytes(s: Text)
    ensures Utf16Length(s) <= ByteLength(s)
  {
    if s != [] { UnitsAreBytes(s[..|s| - 1]); }
  }

  /** The Owner is asked about this very call, with its reason quoted between two fixed lines: to decide an R3 call in the Web
      console, and any other there or, where that is allowed, by an answer. */
  lemma HeldCallIsAskedAbout(call: NodeTools.Call, risk: Jobs.Risk, approvalEnabled: bool)
    ensures var (q, quoted) := (
        JobChannelNotifier.QuestionOf(call, risk, approvalEnabled), [0x300C] + CompactReason(call.reason) + [0x300D]);
      && q.jobId == call.jobId && q.callId == call.callId
      && q.text == Truncated(
           if risk == Jobs.R3 then FAR_REACHING + [0xA] + quoted + [0xA] + CHECK_IN_WEB
           else if approvalEnabled then NEXT_STEP + [0xA] + quoted + [0xA] + ANSWER_HERE
           else NEXT_STEP + [0xA] + quoted + [0xA] + CLICK_IN_WEB, 14_336, SUFFIX)
  {
    var critical := risk == Jobs.R3;
    var lines := ClearanceLines(call.reason, critical, approvalEnabled && !critical);
    JoinOfThree(lines[0], lines[1], lines[2]);
    assert lines == [lines[0], lines[1], lines[2]];
  }

  lemma JoinOfThree(a: Text, b: Text, c: Text)
    ensures Join([a, b, c]) == a + [0xA] + b + [0xA] + c
  {
    var parts := [a, b, c];
    assert parts[..2] == [a, b] && parts[..2][..1] == [a];
    assert Join([a, b]) == Join([a]) + NEWLINE + b;
  }

  // ---- The text of an ended Job ----

  /** What an event adds to the text, if anything: its output without the white space around it unless nothing is left, or the
      message of its error. */
  function Said(e: Jobs.JobEvent): Option<Text> {
    if e.body.OutputEvent? then
      if (exists c <- e.body.chunk :: !IsSpace(c)) then Some(Trim(e.body.chunk)) else None
    else if e.body.ErrorEvent? && e.body.message.Some? then Some(Trim(e.body.message.value))
    else None
  }

  /** What the events say, in their order, each on a line of its own after the first. */
  function Spoken(events: seq<Jobs.JobEvent>): Option<Text> {
    if events == [] then None
    else
      match (Said(events[0]), Spoken(events[1..]))
      case (None, rest) => rest
      case (Some(first), None) => Some(first)
      case (Some(first), Some(rest)) => Some(first + [0xA] + rest)
  }

  lemma SaidIsDetail(e: Jobs.JobEvent)
    ensures Said(e) == DetailOf(e.body)
  {
    if e.body.OutputEvent? { NothingLeftIff(e.body.chunk); }
  }

  lemma {:induction false} JoinFromFirst(first: Text, rest: seq<Text>)
    requires rest != []
    ensures Join([first] + rest) == first + [0xA] + Join(rest)
    decreases |rest|
  {
    var n := |rest| - 1;
    assert ([first] + rest)[..|rest|] == [first] + rest[..n];
    if n > 0 {
      JoinFromFirst(first, rest[..n]);
    } else {
      assert rest[..n] == [] && [first] + [] == [first];
    }
  }

  lemma {:induction false} DetailsFromFirst(events: seq<Jobs.JobEvent>)
    requires events != []
    ensures Details(events) == (if Said(events[0]).Some? then [Said(events[0]).value] else []) + Details(events[1..])
    decreases |events|
  {
    var n := |events| - 1;
    SaidIsDetail(events[0]);
    if n > 0 {
      DetailsFromFirst(events[..n]);
      assert events[..n][1..] == events[1..][..n - 1];
    }
  }

  lemma {:induction false} SpokenIsDetails(events: seq<Jobs.JobEvent>)
    ensures Spoken(events) == if Details(events) == [] then None else Some(Join(Details(events)))
    decreases |events|
  {
    if events != [] {
      SpokenIsDetails(events[1..]);
      DetailsFromFirst(events);
      if Said(events[0]).Some? {
        if Details(events[1..]) == [] {
          assert [Said(events[0]).value] + [] == [Said(events[0]).value];
        } else {
          JoinFromFirst(Said(events[0]).value, Details(events[1..]));
        }
      } else {
        assert [] + Details(events[1..]) == Details(events[1..]);
      }
    }
  }

  /** The Owner is told how the Job ended, and below that what it said, in order; a long text is cut at 14 KiB. */
  lemma TerminalSays(status: Jobs.JobState, events: seq<Jobs.JobEvent>)
    ensures var heading :=
        match status case Succeeded => SUCCEEDED case Failed => FAILED case _ => STOPPED;
      TerminalText(status, events) == Truncated(
        if Spoken(events).None? then heading else heading + [0xA, 0xA] + RESULT + [0xA] + Spoken(events).value, 14_336, SUFFIX)
  {
    SpokenIsDetails(events);
    if Spoken(events).Some? { JoinOfFour(Heading(status), RESULT, Spoken(events).value); }
  }

  lemma JoinOfFour(a: Text, b: Text, c: Text)
    ensures Join([a, [], b, c]) == a + [0xA, 0xA] + b + [0xA] + c
  {
    var parts := [a, [], b, c];
    assert parts[..3] == [a, [], b];
    JoinOfThree(a, [], b);
    assert a + [0xA] + [] + [0xA] + b == a + [0xA, 0xA] + b;
  }
}
