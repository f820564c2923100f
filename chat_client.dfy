/**
 * The chat page in the browser (app/components/Chat.tsx): repository name
 * validation, the conversation-history window, the NDJSON stream consumer that
 * folds wire events into the page state, and `handleSubmit`, which ties them
 * together for one question.
 */
module ChatClient {

  import opened Options
  import opened Strings
  import opened Wire
  import ChatRoute

  // ---------------------------------------------------------------------------
  // Repository name validation.

  const OwnerRequired: string := "Owner is required"
  const OwnerTooLong: string := "Owner name too long"
  const InvalidOwner: string := "Invalid owner name"
  const RepoRequired: string := "Repo is required"
  const RepoTooLong: string := "Repo name too long"
  const InvalidRepo: string := "Invalid repo name"

  /** GitHub's limits on owner and repository name length, in UTF-16 code units. */
  const MaxOwnerLength: nat := 39
  const MaxRepoLength: nat := 100

  predicate IsOwnerChar(c: char) {
    IsAsciiAlnum(c) || c == '-'
  }

  predicate IsRepoChar(c: char) {
    IsAsciiAlnum(c) || c == '.' || c == '_' || c == '-'
  }

  /** `/^[a-zA-Z0-9]([a-zA-Z0-9-]*[a-zA-Z0-9])?$/`: letters, digits and hyphens,
      beginning and ending with a letter or digit. */
  predicate OwnerPattern(s: string) {
    |s| >= 1 && IsAsciiAlnum(s[0]) && IsAsciiAlnum(s[|s| - 1])
    && forall i :: 0 <= i < |s| ==> IsOwnerChar(s[i])
  }

  /** `/^[a-zA-Z0-9._-]+$/`. */
  predicate RepoPattern(s: string) {
    |s| >= 1 && forall i :: 0 <= i < |s| ==> IsRepoChar(s[i])
  }

  /** A name either pattern accepts is ASCII, so its JavaScript length is its
      number of characters. */
  lemma PatternLength(s: string)
    ensures OwnerPattern(s) || RepoPattern(s) ==> JsLength(s) == |s|
  {
    if OwnerPattern(s) || RepoPattern(s) {
      JsLengthBmp(s);
    }
  }

  lemma RepoCharIsNotSpace(c: char)
    requires IsRepoChar(c)
    ensures !IsJsSpace(c)
  {
  }

  /** A string the pattern accepts has no white space at all. */
  lemma PatternHasNoSpace(s: string)
    requires OwnerPattern(s) || RepoPattern(s)
    ensures NoSpace(s) && Trim(s) == s
  {
    forall i | 0 <= i < |s|
      ensures !IsJsSpace(s[i])
    {
      assert IsRepoChar(s[i]);
      RepoCharIsNotSpace(s[i]);
    }
    TrimNoSpace(s);
  }

  /** `validateOwner`: `None` when the name is acceptable, otherwise the first
      failing check's message. */
  function ValidateOwner(owner: string): (r: Option<string>)
    ensures r == Some(OwnerRequired) <==> AllSpace(owner)
    ensures r == Some(OwnerTooLong) <==> !AllSpace(owner) && JsLength(owner) > MaxOwnerLength
    ensures r == Some(InvalidOwner) <==>
              !AllSpace(owner) && JsLength(owner) <= MaxOwnerLength && !OwnerPattern(owner)
    ensures r == None <==> OwnerPattern(owner) && |owner| <= MaxOwnerLength
  {
    TrimSpec(owner);
    PatternLength(owner);
    if Trim(owner) == [] then Some(OwnerRequired)
    else if JsLength(owner) > MaxOwnerLength then Some(OwnerTooLong)
    else if !OwnerPattern(owner) then Some(InvalidOwner)
    else None
  }

  /** `validateRepo`: the same checks in the same order, with its own limit and pattern. */
  function ValidateRepo(repo: string): (r: Option<string>)
    ensures r == Some(RepoRequired) <==> AllSpace(repo)
    ensures r == Some(RepoTooLong) <==> !AllSpace(repo) && JsLength(repo) > MaxRepoLength
    ensures r == Some(InvalidRepo) <==>
              !AllSpace(repo) && JsLength(repo) <= MaxRepoLength && !RepoPattern(repo)
    ensures r == None <==> RepoPattern(repo) && |repo| <= MaxRepoLength
  {
    TrimSpec(repo);
    PatternLength(repo);
    if Trim(repo) == [] then Some(RepoRequired)
    else if JsLength(repo) > MaxRepoLength then Some(RepoTooLong)
    else if !RepoPattern(repo) then Some(InvalidRepo)
    else None
  }

  /** Accepted names contain no white space, so trimming them changes nothing. */
  lemma AcceptedNamesAreTrimmed(owner: string, repo: string)
    requires ValidateOwner(owner) == None && ValidateRepo(repo) == None
    ensures NoSpace(owner) && Trim(owner) == owner
    ensures NoSpace(repo) && Trim(repo) == repo
  {
    PatternHasNoSpace(owner);
    PatternHasNoSpace(repo);
  }

  /** The check runs on the raw text: a repository name with a leading or
      trailing space is refused as invalid, not trimmed. */
  lemma PaddedRepoIsInvalid(repo: string)
    requires |repo| > 0 && (IsJsSpace(repo[0]) || IsJsSpace(repo[|repo| - 1]))
    requires !AllSpace(repo) && JsLength(repo) <= MaxRepoLength
    ensures ValidateRepo(repo) == Some(InvalidRepo)
  {
    var k := if IsJsSpace(repo[0]) then 0 else |repo| - 1;
    if IsRepoChar(repo[k]) {
      RepoCharIsNotSpace(repo[k]);
    }
    assert !RepoPattern(repo);
  }

  // ---------------------------------------------------------------------------
  // Messages and the history window.

  datatype Pill = Blue | Red

  /** A message as the page keeps it: the wire message plus its usage and pill colour. */
  datatype ShownMessage = ShownMessage(role: Role, content: string, usage: Option<UsageData>, pill: Option<Pill>)

  function ToChat(m: ShownMessage): ChatMessage {
    ChatMessage(m.role, m.content)
  }

  function Min(a: int, b: int): int { if a <= b then a else b }
  function Max(a: int, b: int): int { if a <= b then b else a }

  /** The index where `array.slice(start)` begins, for an integral `start`. */
  function SliceStart(length: nat, start: int): (k: nat)
    ensures k <= length
  {
    if start < 0 then Max(length + start, 0) else Min(start, length)
  }

  /** `messages.slice(-(HISTORY_QUESTIONS * 2))` reduced to role and content.
      `historyQuestions` is `None` when the configured value is not a number:
      `-(NaN * 2)` is NaN, which `slice` reads as 0, as it does `-0`. */
  function HistoryWindow(prior: seq<ShownMessage>, historyQuestions: Option<int>): (h: seq<ChatMessage>)
    ensures |h| <= |prior|
    ensures forall k :: 0 <= k < |h| ==> h[k] == ToChat(prior[|prior| - |h| + k])
    ensures historyQuestions == None || historyQuestions == Some(0) ==> |h| == |prior|
    ensures historyQuestions.Some? && historyQuestions.value > 0 ==>
              |h| == Min(|prior|, 2 * historyQuestions.value)
    ensures historyQuestions.Some? && historyQuestions.value < 0 ==>
              |h| == Max(|prior| + 2 * historyQuestions.value, 0)
  {
    var start := match historyQuestions case None => 0 case Some(n) => -(n * 2);
    var k := SliceStart(|prior|, start);
    seq(|prior| - k, i requires 0 <= i < |prior| - k => ToChat(prior[k + i]))
  }

  // ---------------------------------------------------------------------------
  // The stream consumer, as a function of the events it has seen.

  /** One entry of the activity panel; the time stamp is not modelled. */
  datatype ToolEntry = ToolEntry(tool: string, detail: Option<string>)

  /** The consumer's locals (`fullContent`, `toolCount`, `capturedUsage`) and the
      page state it sets while reading (tool history, turn count, streaming text). */
  datatype ConsumerState = ConsumerState(
    fullContent: string,
    toolCount: nat,
    capturedUsage: Option<UsageData>,
    toolHistory: seq<ToolEntry>,
    turnCount: int,
    streamingContent: string)

  /** The state at the start of a read: the page state reset on submission and
      the locals as declared. */
  const Initial: ConsumerState := ConsumerState("", 0, None, [], 0, "")

  /** The paragraph break put before a text event's content. */
  function TextSeparator(content: string): string {
    if content != "" && content[|content| - 1] != '\n' then "\n\n" else ""
  }

  /** The effect of one parsed event: only a tool use is counted and listed. */
  function Apply(st: ConsumerState, ev: WireEvent): (r: ConsumerState)
    ensures r.toolCount == st.toolCount + (if ev.ToolUse? then 1 else 0)
    ensures r.toolHistory == st.toolHistory + (if ev.ToolUse? then [ToolEntry(ev.tool, ev.detail)] else [])
  {
    match ev
    case Text(c) =>
      var f := st.fullContent + TextSeparator(st.fullContent) + c;
      st.(fullContent := f, streamingContent := f)
    case ToolUse(tool, _, detail) =>
      st.(toolCount := st.toolCount + 1, toolHistory := st.toolHistory + [ToolEntry(tool, detail)])
    case Turn(n) => st.(turnCount := n)
    case Usage(data) => st.(capturedUsage := Some(data))
    case Result(c) =>
      if st.fullContent == "" && c != "" then st.(fullContent := c, streamingContent := c) else st
    case Error(c) =>
      var f := st.fullContent + "\n\nError: " + c;
      st.(fullContent := f, streamingContent := f)
    case Unrecognised => st
  }

  /** The events in order, applied one after another. */
  function ApplyEvents(st: ConsumerState, evs: seq<WireEvent>): ConsumerState
    decreases |evs|
  {
    if evs == [] then st else Apply(ApplyEvents(st, evs[..|evs| - 1]), evs[|evs| - 1])
  }

  /** One line: parsed, and skipped when the parse throws. */
  function ApplyLine(st: ConsumerState, line: string, parse: string -> Option<WireEvent>): ConsumerState {
    match parse(line)
    case None => st
    case Some(ev) => Apply(st, ev)
  }

  function ApplyLines(st: ConsumerState, lines: seq<string>, parse: string -> Option<WireEvent>): ConsumerState
    decreases |lines|
  {
    if lines == [] then st
    else ApplyLine(ApplyLines(st, lines[..|lines| - 1], parse), lines[|lines| - 1], parse)
  }

  /** A line that `trim` empties, which the filter treats as false; by `TrimSpec`
      these are exactly the lines of white space only. */
  predicate IsBlank(line: string) {
    AllSpace(line)
  }

  /** `.filter((line) => line.trim())`: the non-blank pieces, in order. */
  function NonBlank(pieces: seq<string>): (r: seq<string>)
    ensures |r| <= |pieces|
    ensures forall k :: 0 <= k < |r| ==> !IsBlank(r[k])
    decreases |pieces|
  {
    if pieces == [] then []
    else
      var rest := NonBlank(pieces[1..]);
      if !IsBlank(pieces[0]) then [pieces[0]] + rest else rest
  }

  /** `chunk.split("\n").filter((line) => line.trim())`: the lines of one chunk
      that carry something, none holding a line feed. */
  function Lines(chunk: string): (r: seq<string>)
    ensures forall k :: 0 <= k < |r| ==> '\n' !in r[k] && !IsBlank(r[k])
  {
    NonBlankKeepsOut(Split(chunk, '\n'), '\n');
    NonBlank(Split(chunk, '\n'))
  }

  /** Filtering keeps a character out of the pieces if it was out of all of them. */
  lemma {:induction false} NonBlankKeepsOut(pieces: seq<string>, c: char)
    requires forall k :: 0 <= k < |pieces| ==> c !in pieces[k]
    ensures forall k :: 0 <= k < |NonBlank(pieces)| ==> c !in NonBlank(pieces)[k]
    decreases |pieces|
  {
    if pieces != [] {
      NonBlankKeepsOut(pieces[1..], c);
    }
  }

  /** The filter decides piece by piece: a single piece is kept exactly when it
      is not blank... */
  lemma NonBlankOne(p: string)
    ensures NonBlank([p]) == if IsBlank(p) then [] else [p]
  {
    assert [p][1..] == [];
  }

  /** ...and the pieces of a concatenation are filtered independently, so the
      kept pieces are the non-blank ones, in their original order. */
  lemma {:induction false} NonBlankAppend(a: seq<string>, b: seq<string>)
    ensures NonBlank(a + b) == NonBlank(a) + NonBlank(b)
    decreases |a|
  {
    if a == [] {
      assert a + b == b;
    } else {
      assert (a + b)[0] == a[0];
      assert (a + b)[1..] == a[1..] + b;
      NonBlankAppend(a[1..], b);
    }
  }

  /** A piece survives the filter exactly when it occurs and is not blank. */
  lemma {:induction false} NonBlankMembers(pieces: seq<string>, x: string)
    ensures x in NonBlank(pieces) <==> x in pieces && !IsBlank(x)
    decreases |pieces|
  {
    if pieces != [] {
      NonBlankMembers(pieces[1..], x);
      assert pieces == [pieces[0]] + pieces[1..];
    }
  }

  /** A line feed separates lines: the lines of two texts joined by one are the
      lines of the first followed by the lines of the second. */
  lemma LinesAppend(a: string, b: string)
    ensures Lines(a + "\n" + b) == Lines(a) + Lines(b)
  {
    SplitAppend(a, b, '\n');
    NonBlankAppend(Split(a, '\n'), Split(b, '\n'));
  }

  /** The chunks in order, each split into lines on its own. */
  function ApplyChunks(st: ConsumerState, chunks: seq<string>, parse: string -> Option<WireEvent>): ConsumerState
    decreases |chunks|
  {
    if chunks == [] then st
    else ApplyLines(ApplyChunks(st, chunks[..|chunks| - 1], parse), Lines(chunks[|chunks| - 1]), parse)
  }

  /** The events of the lines that parse, in order. */
  function Parsed(lines: seq<string>, parse: string -> Option<WireEvent>): seq<WireEvent>
    decreases |lines|
  {
    if lines == [] then []
    else
      var front := Parsed(lines[..|lines| - 1], parse);
      match parse(lines[|lines| - 1])
      case None => front
      case Some(ev) => front + [ev]
  }

  lemma ApplyEventsSnoc(st: ConsumerState, evs: seq<WireEvent>, ev: WireEvent)
    ensures ApplyEvents(st, evs + [ev]) == Apply(ApplyEvents(st, evs), ev)
  {
    assert (evs + [ev])[..|evs|] == evs;
  }

  lemma ApplyEventsOne(st: ConsumerState, ev: WireEvent)
    ensures ApplyEvents(st, [ev]) == Apply(st, ev)
  {
    assert [ev][..0] == [];
  }

  lemma ApplyLinesOne(st: ConsumerState, line: string, parse: string -> Option<WireEvent>)
    ensures ApplyLines(st, [line], parse) == ApplyLine(st, line, parse)
  {
    assert [line][..0] == [];
  }

  lemma ApplyChunksSnoc(st: ConsumerState, chunks: seq<string>, chunk: string, parse: string -> Option<WireEvent>)
    ensures ApplyChunks(st, chunks + [chunk], parse) == ApplyLines(ApplyChunks(st, chunks, parse), Lines(chunk), parse)
  {
    assert (chunks + [chunk])[..|chunks|] == chunks;
  }

  /** Applying two runs of events is applying their concatenation. */
  lemma {:induction false} ApplyEventsAppend(st: ConsumerState, xs: seq<WireEvent>, ys: seq<WireEvent>)
    ensures ApplyEvents(st, xs + ys) == ApplyEvents(ApplyEvents(st, xs), ys)
    decreases |ys|
  {
    if ys == [] {
      assert xs + ys == xs;
    } else {
      var front := ys[..|ys| - 1];
      var last := ys[|ys| - 1];
      assert xs + ys == (xs + front) + [last];
      assert ys == front + [last];
      ApplyEventsSnoc(st, xs + front, last);
      ApplyEventsSnoc(ApplyEvents(st, xs), front, last);
      ApplyEventsAppend(st, xs, front);
    }
  }

  /** A line that fails to parse is skipped without stopping the loop: the lines
      have the effect of exactly the events that did parse, in order. */
  lemma {:induction false} LinesAreTheirEvents(st: ConsumerState, lines: seq<string>, parse: string -> Option<WireEvent>)
    ensures ApplyLines(st, lines, parse) == ApplyEvents(st, Parsed(lines, parse))
    decreases |lines|
  {
    if lines != [] {
      var front := lines[..|lines| - 1];
      LinesAreTheirEvents(st, front, parse);
      match parse(lines[|lines| - 1])
      case None =>
      case Some(ev) => ApplyEventsSnoc(st, Parsed(front, parse), ev);
    }
  }

  /** Two text events in a row are joined by a paragraph break unless the first ends a line. */
  lemma TextsAreJoined(a: string, b: string)
    ensures a != "" && a[|a| - 1] != '\n' ==>
              ApplyEvents(Initial, [Text(a), Text(b)]).fullContent == a + "\n\n" + b
    ensures a == "" || a[|a| - 1] == '\n' ==>
              ApplyEvents(Initial, [Text(a), Text(b)]).fullContent == a + b
  {
    ApplyEventsOne(Initial, Text(a));
    assert [Text(a), Text(b)] == [Text(a)] + [Text(b)];
    ApplyEventsSnoc(Initial, [Text(a)], Text(b));
  }

  function CountToolUses(evs: seq<WireEvent>): nat
    decreases |evs|
  {
    if evs == [] then 0
    else CountToolUses(evs[..|evs| - 1]) + (if evs[|evs| - 1].ToolUse? then 1 else 0)
  }

  /** The activity entries of the tool-use events, in order. */
  function ToolEntries(evs: seq<WireEvent>): seq<ToolEntry>
    decreases |evs|
  {
    if evs == [] then []
    else
      var front := ToolEntries(evs[..|evs| - 1]);
      match evs[|evs| - 1]
      case ToolUse(tool, _, detail) => front + [ToolEntry(tool, detail)]
      case _ => front
  }

  /** Each tool-use event adds one to the count and one entry to the history,
      and nothing else touches either. */
  lemma {:induction false} ToolsAreCounted(st: ConsumerState, evs: seq<WireEvent>)
    ensures ApplyEvents(st, evs).toolCount == st.toolCount + CountToolUses(evs)
    ensures ApplyEvents(st, evs).toolHistory == st.toolHistory + ToolEntries(evs)
    ensures |ToolEntries(evs)| == CountToolUses(evs)
    decreases |evs|
  {
    if evs != [] {
      ToolsAreCounted(st, evs[..|evs| - 1]);
    }
  }

  /** The value of the last event of the given kind, if any. */
  function LastTurn(evs: seq<WireEvent>): Option<int>
    decreases |evs|
  {
    if evs == [] then None
    else if evs[|evs| - 1].Turn? then Some(evs[|evs| - 1].turn)
    else LastTurn(evs[..|evs| - 1])
  }

  function LastUsage(evs: seq<WireEvent>): Option<UsageData>
    decreases |evs|
  {
    if evs == [] then None
    else if evs[|evs| - 1].Usage? then Some(evs[|evs| - 1].data)
    else LastUsage(evs[..|evs| - 1])
  }

  /** The turn counter and the captured usage are overwritten, not accumulated:
      the last event of each kind wins, whatever its value. */
  lemma {:induction false} LastEventWins(st: ConsumerState, evs: seq<WireEvent>)
    ensures ApplyEvents(st, evs).turnCount == LastTurn(evs).GetOr(st.turnCount)
    ensures ApplyEvents(st, evs).capturedUsage ==
              (if LastUsage(evs).Some? then LastUsage(evs) else st.capturedUsage)
    decreases |evs|
  {
    if evs != [] {
      LastEventWins(st, evs[..|evs| - 1]);
    }
  }

  /** The text shown so far is never taken back: every event extends it, and a
      `result` replaces it only while it is still empty. */
  lemma {:induction false} ContentOnlyGrows(st: ConsumerState, evs: seq<WireEvent>)
    ensures IsPrefix(st.fullContent, ApplyEvents(st, evs).fullContent)
    decreases |evs|
  {
    if evs != [] {
      var mid := ApplyEvents(st, evs[..|evs| - 1]).fullContent;
      ContentOnlyGrows(st, evs[..|evs| - 1]);
      var after := ApplyEvents(st, evs).fullContent;
      if mid != "" {
        assert after[..|mid|] == mid;
        assert after[..|st.fullContent|] == mid[..|st.fullContent|];
      }
    }
  }

  /** A `result` is only a fallback: once any text is held, it changes nothing. */
  lemma ResultIsFallback(st: ConsumerState, content: string, evs: seq<WireEvent>)
    requires ApplyEvents(st, evs).fullContent != ""
    ensures ApplyEvents(st, evs + [Result(content)]) == ApplyEvents(st, evs)
  {
    ApplyEventsSnoc(st, evs, Result(content));
  }

  /** A `result` with content fills collected text that is still empty. */
  lemma ResultFillsEmpty(st: ConsumerState, content: string, evs: seq<WireEvent>)
    requires ApplyEvents(st, evs).fullContent == "" && content != ""
    ensures ApplyEvents(st, evs + [Result(content)]).fullContent == content
  {
    ApplyEventsSnoc(st, evs, Result(content));
  }

  /** A `result` with empty content changes nothing. */
  lemma EmptyResultIsIgnored(st: ConsumerState, evs: seq<WireEvent>)
    ensures ApplyEvents(st, evs + [Result("")]) == ApplyEvents(st, evs)
  {
    ApplyEventsSnoc(st, evs, Result(""));
  }

  /** The content of the first `result` event with content, or "" if none has. */
  function FirstFilledResult(evs: seq<WireEvent>): string {
    if evs == [] then ""
    else if evs[0].Result? && evs[0].content != "" then evs[0].content
    else FirstFilledResult(evs[1..])
  }

  lemma {:induction false} FirstFilledResultSnoc(evs: seq<WireEvent>, ev: WireEvent)
    ensures FirstFilledResult(evs + [ev]) ==
              if FirstFilledResult(evs) != "" then FirstFilledResult(evs)
              else if ev.Result? then ev.content else ""
  {
    if evs == [] {
      assert [ev][1..] == [];
    } else {
      assert (evs + [ev])[1..] == evs[1..] + [ev];
      FirstFilledResultSnoc(evs[1..], ev);
    }
  }

  /** No event of the stream carries text of its own. */
  predicate WithoutText(evs: seq<WireEvent>) {
    forall k :: 0 <= k < |evs| ==> !evs[k].Text? && !evs[k].Error?
  }

  /** In a stream without text or error events, the collected text is the
      content of the first `result` that has any: the fallback final content. */
  lemma {:induction false} ResultOnlyStream(evs: seq<WireEvent>)
    requires WithoutText(evs)
    ensures ApplyEvents(Initial, evs).fullContent == FirstFilledResult(evs)
    decreases |evs|
  {
    if evs != [] {
      var init, last := evs[..|evs| - 1], evs[|evs| - 1];
      assert evs == init + [last];
      assert WithoutText(init) by {
        forall k | 0 <= k < |init| ensures !init[k].Text? && !init[k].Error? {
          assert init[k] == evs[k];
        }
      }
      ResultOnlyStream(init);
      ApplyEventsSnoc(Initial, init, last);
      FirstFilledResultSnoc(init, last);
    }
  }

  /** An `error` event always shows, even as the first event, and stays at the
      place it arrived whatever follows. */
  lemma ErrorAlwaysShows(st: ConsumerState, content: string, evs: seq<WireEvent>)
    ensures IsPrefix(st.fullContent + "\n\nError: " + content,
                     ApplyEvents(st, [Error(content)] + evs).fullContent)
  {
    ApplyEventsAppend(st, [Error(content)], evs);
    assert [Error(content)][..0] == [];
    ContentOnlyGrows(Apply(st, Error(content)), evs);
  }

  /** A non-blank chunk without a line feed is a single line. */
  lemma OneLineChunk(chunk: string)
    requires '\n' !in chunk && !IsBlank(chunk)
    ensures Lines(chunk) == [chunk]
  {
    SplitNoSeparator(chunk, '\n');
    assert [chunk][1..] == [];
  }

  /** There is no carry-over between reads: a line the network cuts in two is
      parsed as two fragments, and when neither fragment parses the event is
      lost, although the same text in one chunk would have been applied. */
  lemma SplitLineIsLost(st: ConsumerState, p: string, q: string, parse: string -> Option<WireEvent>)
    requires '\n' !in p && '\n' !in q && !IsBlank(p) && !IsBlank(q)
    requires parse(p) == None && parse(q) == None
    ensures ApplyChunks(st, [p, q], parse) == st
    ensures ApplyChunks(st, [p + q], parse) == ApplyLine(st, p + q, parse)
  {
    FragmentsAreSkipped(st, p, q, parse);
    WholeLineIsApplied(st, p, q, parse);
  }

  lemma FragmentsAreSkipped(st: ConsumerState, p: string, q: string, parse: string -> Option<WireEvent>)
    requires '\n' !in p && '\n' !in q && !IsBlank(p) && !IsBlank(q)
    requires parse(p) == None && parse(q) == None
    ensures ApplyChunks(st, [p, q], parse) == st
  {
    OneLineChunk(p);
    OneLineChunk(q);
    ApplyChunksSnoc(st, [], p, parse);
    assert [] + [p] == [p];
    ApplyLinesOne(st, p, parse);
    ApplyChunksSnoc(st, [p], q, parse);
    assert [p] + [q] == [p, q];
    ApplyLinesOne(st, q, parse);
  }

  lemma WholeLineIsApplied(st: ConsumerState, p: string, q: string, parse: string -> Option<WireEvent>)
    requires '\n' !in p && '\n' !in q && !IsBlank(p)
    ensures ApplyChunks(st, [p + q], parse) == ApplyLine(st, p + q, parse)
  {
    TrimSpec(p);
    var i :| 0 <= i < |p| && !IsJsSpace(p[i]);
    assert (p + q)[i] == p[i];
    TrimSpec(p + q);
    OneLineChunk(p + q);
    ApplyChunksSnoc(st, [], p + q, parse);
    assert [] + [p + q] == [p + q];
    ApplyLinesOne(st, p + q, parse);
  }

  /** The error record is read as the one line holding its JSON text. */
  lemma ErrorRecordLines(message: string)
    ensures Lines(ErrorRecord(message)) == [ErrorJson(message)]
  {
    var j := ErrorJson(message);
    ErrorRecordIsOneLine(message);
    assert !IsBlank(j) by { assert j[0] == '{'; }
    assert [j, ""] == [j] + [""];
    NonBlankAppend([j], [""]);
    NonBlankOne(j);
    NonBlankOne("");
  }

  /** The one-line error record the server action emits reaches the reader as
      exactly one error event. */
  lemma ErrorRecordIsShown(message: string, parse: string -> Option<WireEvent>)
    requires parse(ErrorJson(message)) == Some(Error(message))
    ensures ApplyChunks(Initial, [ErrorRecord(message)], parse).fullContent == "\n\nError: " + message
  {
    var j := ErrorJson(message);
    ErrorRecordLines(message);
    assert ApplyChunks(Initial, [ErrorRecord(message)], parse) == ApplyLines(Initial, [j], parse) by {
      ApplyChunksSnoc(Initial, [], ErrorRecord(message), parse);
      assert [] + [ErrorRecord(message)] == [ErrorRecord(message)];
    }
    ApplyLinesOne(Initial, j, parse);
  }

  // ---------------------------------------------------------------------------
  // The message added when the stream closes.

  /** `{ ...capturedUsage, num_tools: toolCount, total_duration_ms }`, or absent. */
  function UsageSnapshot(st: ConsumerState, totalDurationMs: int): (u: Option<UsageData>)
    ensures u.Some? <==> st.capturedUsage.Some?
    ensures u.Some? ==>
              && u.value.numTools == Some(st.toolCount as int)
              && u.value.totalDurationMs == Some(totalDurationMs)
              && u.value.(numTools := None, totalDurationMs := None)
                 == st.capturedUsage.value.(numTools := None, totalDurationMs := None)
  {
    match st.capturedUsage
    case None => None
    case Some(u) => Some(u.(numTools := Some(st.toolCount as int), totalDurationMs := Some(totalDurationMs)))
  }

  /** The assistant message appended at the end of the stream, if any. */
  function FinalMessages(st: ConsumerState, totalDurationMs: int): (r: seq<ShownMessage>)
    ensures |r| <= 1
    ensures |r| == 1 <==> st.fullContent != ""
  {
    if st.fullContent != "" then [ShownMessage(Assistant, st.fullContent, UsageSnapshot(st, totalDurationMs), None)]
    else []
  }

  /** After a whole stream of events, an assistant message appears exactly when
      some text was collected, and its usage reports the number of tool uses seen. */
  lemma StreamEndMessage(evs: seq<WireEvent>, totalDurationMs: int)
    ensures var st := ApplyEvents(Initial, evs);
            var r := FinalMessages(st, totalDurationMs);
            && (|r| == 1 <==> st.fullContent != "")
            && (|r| == 1 ==> r[0].role == Assistant && r[0].content == st.fullContent)
            && (|r| == 1 && LastUsage(evs).Some? ==>
                  r[0].usage.Some? && r[0].usage.value.numTools == Some(CountToolUses(evs)))
            && (|r| == 1 && LastUsage(evs).None? ==> r[0].usage.None?)
  {
    ToolsAreCounted(Initial, evs);
    LastEventWins(Initial, evs);
  }

  /** Two text events then a `result` repeating them: the texts are joined with a
      paragraph break and the `result` is ignored. */
  lemma RelayExchange(data: UsageData, totalDurationMs: int)
    ensures var st := ApplyEvents(Initial, [Text("It is"), Text(" a relay."), Usage(data), Result("It is a relay.")]);
            && st.fullContent == "It is\n\n a relay."
            && st.toolCount == 0
            && FinalMessages(st, totalDurationMs)
               == [ShownMessage(Assistant, "It is\n\n a relay.",
                                Some(data.(numTools := Some(0), totalDurationMs := Some(totalDurationMs))), None)]
  {
    var t1, t2, u, r := Text("It is"), Text(" a relay."), Usage(data), Result("It is a relay.");
    ApplyEventsOne(Initial, t1);
    ApplyEventsSnoc(Initial, [t1], t2);
    assert [t1] + [t2] == [t1, t2];
    ApplyEventsSnoc(Initial, [t1, t2], u);
    assert [t1, t2] + [u] == [t1, t2, u];
    ApplyEventsSnoc(Initial, [t1, t2, u], r);
    assert [t1, t2, u] + [r] == [t1, t2, u, r];
    assert "It is"[|"It is"| - 1] != '\n';
  }

  // ---------------------------------------------------------------------------
  // The read loop.

  /** The locals of the read loop in `handleSubmit` and the page state it sets. */
  class StreamConsumer {
    var fullContent: string
    var toolCount: nat
    var capturedUsage: Option<UsageData>
    var toolHistory: seq<ToolEntry>
    var turnCount: int
    var streamingContent: string

    function State(): ConsumerState
      reads this
    {
      ConsumerState(fullContent, toolCount, capturedUsage, toolHistory, turnCount, streamingContent)
    }

    constructor()
      ensures State() == Initial
    {
      fullContent := "";
      toolCount := 0;
      capturedUsage := None;
      toolHistory := [];
      turnCount := 0;
      streamingContent := "";
    }

    /** The body of the inner `for` loop: parse one line and dispatch on its type. */
    method ProcessLine(line: string, parse: string -> Option<WireEvent>)
      modifies this
      ensures State() == ApplyLine(old(State()), line, parse)
    {
      var parsed := parse(line);
      if parsed.None? {
        return;
      }
      match parsed.value
      case Text(c) =>
        if fullContent != "" && fullContent[|fullContent| - 1] != '\n' {
          fullContent := fullContent + "\n\n";
        }
        fullContent := fullContent + c;
        streamingContent := fullContent;
      case ToolUse(tool, _, detail) =>
        toolCount := toolCount + 1;
        toolHistory := toolHistory + [ToolEntry(tool, detail)];
      case Turn(n) =>
        turnCount := n;
      case Usage(data) =>
        capturedUsage := Some(data);
      case Result(c) =>
        if fullContent == "" && c != "" {
          fullContent := c;
          streamingContent := fullContent;
        }
      case Error(c) =>
        fullContent := fullContent + "\n\nError: " + c;
        streamingContent := fullContent;
      case Unrecognised =>
    }

    /** One decoded chunk: its non-blank lines, in order. */
    method ProcessChunk(chunk: string, parse: string -> Option<WireEvent>)
      modifies this
      ensures State() == ApplyLines(old(State()), Lines(chunk), parse)
    {
      var lines := Lines(chunk);
      for i := 0 to |lines|
        invariant State() == ApplyLines(old(State()), lines[..i], parse)
      {
        assert lines[..i + 1][..i] == lines[..i];
        ProcessLine(lines[i], parse);
      }
      assert lines[..|lines|] == lines;
    }

    /** The `while (true)` loop: read chunks until the stream is done. */
    method Consume(chunks: seq<string>, parse: string -> Option<WireEvent>)
      modifies this
      ensures State() == ApplyChunks(old(State()), chunks, parse)
    {
      var n := 0;
      while n < |chunks|
        invariant n <= |chunks|
        invariant State() == ApplyChunks(old(State()), chunks[..n], parse)
        decreases |chunks| - n
      {
        assert chunks[..n + 1][..n] == chunks[..n];
        ProcessChunk(chunks[n], parse);
        n := n + 1;
      }
      assert chunks[..n] == chunks;
    }
  }

  // ---------------------------------------------------------------------------
  // Submitting a question.

  const DefaultOwner: string := "amh22"
  const DefaultRepo: string := "hello-agent-web"
  const SorryText: string := "Sorry, an error occurred. Please try again."
  const GitHubPrefix: string := "https://github.com/"

  /** What reading the response body gives: the decoded chunks, and whether a
      read then throws instead of reporting the end. */
  datatype BodyRead = BodyRead(chunks: seq<string>, readFails: bool)

  /** What `fetch("/api/chat")` gives: a rejection, or a status and maybe a body. */
  datatype FetchOutcome = FetchThrew | Responded(status: int, body: Option<BodyRead>)

  /** The request posted to the chat route. */
  datatype ClientRequest = ClientRequest(prompt: string, repoUrl: string, history: seq<ChatMessage>,
                                         authorization: Option<string>)

  datatype SubmitOutcome =
    | Ignored                                       // blank input or a request in flight
    | RepoRejected                                  // owner or repo failed validation
    | Sent(request: ClientRequest, reloaded: bool)  // posted; `reloaded` on a 401

  /** `https://github.com/${repoOwner}/${repoName}`. */
  function RepoUrl(owner: string, repo: string): string {
    GitHubPrefix + owner + "/" + repo
  }

  /** The Authorization header: sent only for a stored, non-empty token. */
  function Authorization(token: Option<string>): (a: Option<string>)
    ensures a.Some? <==> Truthy(token)
    ensures a.Some? ==> a.value == "Bearer " + token.value
  {
    if Truthy(token) then Some("Bearer " + token.value) else None
  }

  function SorryMessage(): ShownMessage {
    ShownMessage(Assistant, SorryText, None, None)
  }

  /** The messages added after the question, by how the exchange went. */
  function Answer(response: FetchOutcome, parse: string -> Option<WireEvent>, totalDurationMs: int): (a: seq<ShownMessage>)
    ensures |a| <= 1
    ensures forall m :: m in a ==> m.role == Assistant
    ensures a == [] ==> response.Responded?
  {
    match response
    case FetchThrew => [SorryMessage()]
    case Responded(status, body) =>
      if status == 401 then []
      else if body.None? then [SorryMessage()]
      else if body.value.readFails then [SorryMessage()]
      else FinalMessages(ApplyChunks(Initial, body.value.chunks, parse), totalDurationMs)
  }

  /** The turn counter left after the exchange; it is not reset when the request ends. */
  function TurnAfter(response: FetchOutcome, parse: string -> Option<WireEvent>): int {
    if response.Responded? && response.status != 401 && response.body.Some? then
      ApplyChunks(Initial, response.body.value.chunks, parse).turnCount
    else 0
  }

  /** `ownerError || repoNameError`: the owner's error first, else the repository's. */
  function RepoCheck(owner: string, repo: string): (r: Option<string>)
    ensures r == None <==> ValidateOwner(owner) == None && ValidateRepo(repo) == None
  {
    if ValidateOwner(owner).Some? then ValidateOwner(owner) else ValidateRepo(repo)
  }

  /** The request for a question: the trimmed input, the repository URL, the
      history window of the earlier messages, and the bearer token if any. */
  function RequestFor(input: string, owner: string, repo: string, prior: seq<ShownMessage>,
                      historyQuestions: Option<int>, token: Option<string>): (r: ClientRequest)
    ensures r.prompt == Trim(input) && r.repoUrl == RepoUrl(owner, repo)
    ensures r.history == HistoryWindow(prior, historyQuestions) && r.authorization == Authorization(token)
    ensures Trim(input) != "" ==> ChatRoute.ValidBody(ChatRoute.Body(Some(r.prompt), Some(r.repoUrl), r.history))
    ensures |r.history| <= |prior|
    ensures forall k :: 0 <= k < |r.history| ==> r.history[k] == ToChat(prior[|prior| - |r.history| + k])
    ensures r.authorization.Some? <==> Truthy(token)
  {
    ClientRequest(Trim(input), RepoUrl(owner, repo), HistoryWindow(prior, historyQuestions), Authorization(token))
  }

  /** The `try` block of `handleSubmit` after the request is posted, with its
      `catch`: the messages it adds and the turn counter it leaves. A 401 adds
      nothing (the page reloads); a rejected fetch, a missing body or a failing
      read adds the apology and drops any text read so far. */
  method Exchange(response: FetchOutcome, parse: string -> Option<WireEvent>, totalDurationMs: int)
    returns (answer: seq<ShownMessage>, turnCount: int)
    ensures answer == Answer(response, parse, totalDurationMs)
    ensures turnCount == TurnAfter(response, parse)
  {
    turnCount := 0;
    match response
    case FetchThrew =>
      answer := [SorryMessage()];
    case Responded(status, body) =>
      if status == 401 {
        answer := [];
      } else if body.None? {
        answer := [SorryMessage()];
      } else {
        var consumer := new StreamConsumer();
        consumer.Consume(body.value.chunks, parse);
        turnCount := consumer.turnCount;
        if body.value.readFails {
          answer := [SorryMessage()];
        } else {
          answer := FinalMessages(consumer.State(), totalDurationMs);
        }
      }
  }

  /** The page state of `Chat` that `handleSubmit` reads and writes. */
  class ChatSession {
    var messages: seq<ShownMessage>
    var input: string
    var repoOwner: string
    var repoName: string
    var repoError: Option<string>
    var isLoading: bool
    var streamingContent: string
    var toolHistory: seq<ToolEntry>
    var turnCount: int
    var selectedPill: Pill

    constructor()
      ensures messages == [] && input == "" && repoError == None && !isLoading
      ensures repoOwner == DefaultOwner && repoName == DefaultRepo
      ensures streamingContent == "" && toolHistory == [] && turnCount == 0 && selectedPill == Blue
    {
      messages := [];
      input := "";
      repoOwner := DefaultOwner;
      repoName := DefaultRepo;
      repoError := None;
      isLoading := false;
      streamingContent := "";
      toolHistory := [];
      turnCount := 0;
      selectedPill := Blue;
    }

    /** Nothing but the repository fields differs from the earlier state. */
    twostate predicate ConversationKept()
      reads this
    {
      && messages == old(messages) && input == old(input) && isLoading == old(isLoading)
      && streamingContent == old(streamingContent) && toolHistory == old(toolHistory)
      && turnCount == old(turnCount) && selectedPill == old(selectedPill)
    }

    /** The conversation and the activity are cleared, the pill is back to blue,
        and whether a request is running and the turn count are as before. */
    twostate predicate ConversationCleared()
      reads this
    {
      && messages == [] && input == "" && streamingContent == "" && toolHistory == []
      && selectedPill == Blue && isLoading == old(isLoading) && turnCount == old(turnCount)
    }

    /** `handleNewChat`: clears the conversation and the activity. */
    method NewChat()
      modifies this
      ensures messages == [] && input == "" && streamingContent == "" && toolHistory == []
      ensures selectedPill == Blue
      ensures repoOwner == old(repoOwner) && repoName == old(repoName) && repoError == old(repoError)
      ensures isLoading == old(isLoading) && turnCount == old(turnCount)
    {
      messages := [];
      input := "";
      streamingContent := "";
      toolHistory := [];
      selectedPill := Blue;
    }

    /** `handleSubmit`, run to completion: the state after the `finally` block. */
    method HandleSubmit(historyQuestions: Option<int>, token: Option<string>, response: FetchOutcome,
                        parse: string -> Option<WireEvent>, totalDurationMs: int)
      returns (outcome: SubmitOutcome)
      modifies this
      ensures outcome == Ignored <==> Trim(old(input)) == "" || old(isLoading)
      ensures outcome == Ignored ==> unchanged(this)
      ensures outcome == RepoRejected <==>
                Trim(old(input)) != "" && !old(isLoading) && RepoCheck(old(repoOwner), old(repoName)).Some?
      ensures outcome == RepoRejected ==>
                && repoError == RepoCheck(old(repoOwner), old(repoName))
                && messages == old(messages) && input == old(input) && isLoading == old(isLoading)
                && streamingContent == old(streamingContent) && toolHistory == old(toolHistory)
                && turnCount == old(turnCount)
      ensures outcome.Sent? ==>
                && outcome.request == RequestFor(old(input), old(repoOwner), old(repoName), old(messages),
                                                 historyQuestions, token)
                && outcome.reloaded == (response.Responded? && response.status == 401)
                && messages == old(messages) + [ShownMessage(User, Trim(old(input)), None, Some(old(selectedPill)))]
                               + Answer(response, parse, totalDurationMs)
                && input == "" && repoError == None && !isLoading
                && streamingContent == "" && toolHistory == []
                && turnCount == TurnAfter(response, parse)
      ensures repoOwner == old(repoOwner) && repoName == old(repoName) && selectedPill == old(selectedPill)
    {
      if Trim(input) == "" || isLoading {
        return Ignored;
      }
      var check := RepoCheck(repoOwner, repoName);
      if check.Some? {
        repoError := check;
        return RepoRejected;
      }
      var request := Send(historyQuestions, token, response, parse, totalDurationMs);
      return Sent(request, response.Responded? && response.status == 401);
    }

    /** The part of `handleSubmit` past its guards: post the question, read the
        answer, and reset the loading state. */
    method Send(historyQuestions: Option<int>, token: Option<string>, response: FetchOutcome,
                parse: string -> Option<WireEvent>, totalDurationMs: int)
      returns (request: ClientRequest)
      modifies this
      ensures request == RequestFor(old(input), old(repoOwner), old(repoName), old(messages), historyQuestions, token)
      ensures messages == old(messages) + [ShownMessage(User, Trim(old(input)), None, Some(old(selectedPill)))]
                          + Answer(response, parse, totalDurationMs)
      ensures input == "" && repoError == None && !isLoading
      ensures streamingContent == "" && toolHistory == []
      ensures turnCount == TurnAfter(response, parse)
      ensures repoOwner == old(repoOwner) && repoName == old(repoName) && selectedPill == old(selectedPill)
    {
      request := RequestFor(input, repoOwner, repoName, messages, historyQuestions, token);
      Begin();
      var answer, turn := Exchange(response, parse, totalDurationMs);
      Finish(answer, turn);
    }

    /** The synchronous part of `handleSubmit` once the names are valid: the
        question is shown and the activity of the previous answer is cleared. */
    method Begin()
      modifies this
      ensures messages == old(messages) + [ShownMessage(User, Trim(old(input)), None, Some(old(selectedPill)))]
      ensures input == "" && repoError == None && isLoading
      ensures streamingContent == "" && toolHistory == [] && turnCount == 0
      ensures repoOwner == old(repoOwner) && repoName == old(repoName) && selectedPill == old(selectedPill)
    {
      repoError := None;
      messages := messages + [ShownMessage(User, Trim(input), None, Some(selectedPill))];
      input := "";
      isLoading := true;
      streamingContent := "";
      toolHistory := [];
      turnCount := 0;
    }

    /** The answer is appended, the turn counter left as the stream set it, and
        the `finally` block ends loading and clears the activity. */
    method Finish(answer: seq<ShownMessage>, turn: int)
      modifies this
      ensures messages == old(messages) + answer && turnCount == turn
      ensures !isLoading && streamingContent == "" && toolHistory == []
      ensures input == old(input) && repoError == old(repoError)
      ensures repoOwner == old(repoOwner) && repoName == old(repoName) && selectedPill == old(selectedPill)
    {
      messages := messages + answer;
      turnCount := turn;
      isLoading := false;
      streamingContent := "";
      toolHistory := [];
    }
  }
}
