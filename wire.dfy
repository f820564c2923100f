/**
 * The line protocol between the worker, the proxy routes and the browser:
 * chat messages, usage records, the parsed form of one NDJSON event, and the
 * exact text of the single-line error event the proxies synthesise
 * (`JSON.stringify({ type: "error", content }) + "\n"`).
 */
module Wire {

  import opened Options
  import opened Strings

  datatype Role = User | Assistant

  /** `{ role, content }` as sent in the conversation history. */
  datatype ChatMessage = ChatMessage(role: Role, content: string)

  /** One entry of `modelUsage`; every field may be missing. */
  datatype ModelStats = ModelStats(
    inputTokens: Option<int>,
    outputTokens: Option<int>,
    cacheReadInputTokens: Option<int>,
    cacheCreationInputTokens: Option<int>,
    costUsd: Option<real>)

  /** The `data` of a `usage` event, plus the two fields the browser adds
      (`num_tools`, `total_duration_ms`) before attaching it to a message. */
  datatype UsageData = UsageData(
    totalCostUsd: Option<real>,
    durationMs: Option<real>,
    numTurns: Option<int>,
    modelUsage: Option<seq<ModelStats>>,
    numTools: Option<int>,
    totalDurationMs: Option<int>)

  /** One NDJSON line after `JSON.parse`, by its `type` field; `Unrecognised`
      is a line that parsed but whose `type` is none of the six. */
  datatype WireEvent =
    | Text(content: string)
    | ToolUse(tool: string, id: string, detail: Option<string>)
    | Turn(turn: int)
    | Usage(data: UsageData)
    | Result(content: string)
    | Error(content: string)
    | Unrecognised

  /** `response.ok`: a status in the 2xx range. */
  predicate IsOk(status: int) {
    200 <= status <= 299
  }

  /** A status that a response constructed with a body (`new Response(body, { status })`,
      `NextResponse.json(data, { status })`) refuses by throwing: one outside 200-599
      (a RangeError) or a null-body status, 204, 205 or 304 (a TypeError). */
  predicate RefusedWithBody(status: int) {
    status < 200 || status > 599 || status in {204, 205, 304}
  }

  // ---------------------------------------------------------------------------
  // JSON string escaping, as JSON.stringify writes a string's characters.

  function HexDigit(d: nat): char
    requires d < 16
  {
    if d < 10 then ('0' as int + d) as char else ('a' as int + d - 10) as char
  }

  predicate IsHexDigit(c: char) {
    ('0' <= c <= '9') || ('a' <= c <= 'f') || ('A' <= c <= 'F')
  }

  function HexDigitValue(c: char): (v: nat)
    requires IsHexDigit(c)
    ensures v < 16
  {
    if '0' <= c <= '9' then c as int - '0' as int
    else if 'a' <= c <= 'f' then c as int - 'a' as int + 10
    else c as int - 'A' as int + 10
  }

  /** The code unit named by the four hex digits of a `\uXXXX` escape. */
  function Hex4(t: string): (v: nat)
    requires |t| == 4 && forall i :: 0 <= i < 4 ==> IsHexDigit(t[i])
    ensures v < 0x10000
  {
    4096 * HexDigitValue(t[0]) + 256 * HexDigitValue(t[1]) + 16 * HexDigitValue(t[2]) + HexDigitValue(t[3])
  }

  /** The letter of JSON's two-character escape for `c`, if it has one. */
  function EscapeLetter(c: char): Option<char> {
    if c == '"' then Some('"')
    else if c == '\\' then Some('\\')
    else if c == '\U{0008}' then Some('b')
    else if c == '\t' then Some('t')
    else if c == '\n' then Some('n')
    else if c == '\U{000C}' then Some('f')
    else if c == '\r' then Some('r')
    else None
  }

  /** The character a two-character escape `\e` stands for, if `e` is a valid letter. */
  function LetterValue(e: char): Option<char> {
    if e == '"' then Some('"')
    else if e == '\\' then Some('\\')
    else if e == '/' then Some('/')
    else if e == 'b' then Some('\U{0008}')
    else if e == 't' then Some('\t')
    else if e == 'n' then Some('\n')
    else if e == 'f' then Some('\U{000C}')
    else if e == 'r' then Some('\r')
    else None
  }

  /** How JSON.stringify writes one character inside a string literal: the short
      escapes, `\u00XX` for the other control characters, the character itself otherwise. */
  function EscapeChar(c: char): string {
    match EscapeLetter(c)
    case Some(e) => ['\\', e]
    case None =>
      if (c as int) < 0x20 then "\\u00" + [HexDigit(c as int / 16), HexDigit(c as int % 16)]
      else [c]
  }

  function Escape(s: string): string {
    if s == [] then "" else EscapeChar(s[0]) + Escape(s[1..])
  }

  /** Prepend a decoded character to a decoding that may have failed. */
  function Cons(c: char, rest: Option<string>): Option<string> {
    match rest
    case None => None
    case Some(r) => Some([c] + r)
  }

  /** Decoding the body of a JSON string literal (the text between the quotes);
      `None` when it is not well formed. Escaped surrogate halves are refused. */
  function Unescape(t: string): Option<string>
    decreases |t|
  {
    if t == [] then Some("")
    else if t[0] == '\\' then
      if |t| < 2 then None
      else if LetterValue(t[1]).Some? then Cons(LetterValue(t[1]).value, Unescape(t[2..]))
      else if t[1] == 'u' && |t| >= 6 && (forall i :: 2 <= i < 6 ==> IsHexDigit(t[i])) then
        var v := Hex4(t[2..6]);
        if 0xD800 <= v < 0xE000 then None else Cons(v as char, Unescape(t[6..]))
      else None
    else if t[0] == '"' || (t[0] as int) < 0x20 then None
    else Cons(t[0], Unescape(t[1..]))
  }

  lemma UnescapeEscapeChar(c: char, rest: string)
    ensures Unescape(EscapeChar(c) + rest) == Cons(c, Unescape(rest))
  {
    var t := EscapeChar(c) + rest;
    if EscapeLetter(c).Some? {
      assert LetterValue(EscapeLetter(c).value) == Some(c);
      assert t[2..] == rest;
    } else if (c as int) < 0x20 {
      var hi, lo := c as int / 16, c as int % 16;
      assert t[1] == 'u';
      assert LetterValue('u') == None;
      assert t[2..6] == ['0', '0', HexDigit(hi), HexDigit(lo)];
      assert Hex4(t[2..6]) == 16 * hi + lo;
      assert t[6..] == rest;
    } else {
      assert t[1..] == rest;
    }
  }

  /** JSON string escaping round-trips: decoding the escaped text gives the original. */
  lemma {:induction false} UnescapeEscape(s: string)
    ensures Unescape(Escape(s)) == Some(s)
  {
    if s != [] {
      UnescapeEscape(s[1..]);
      UnescapeEscapeChar(s[0], Escape(s[1..]));
      assert [s[0]] + s[1..] == s;
    }
  }

  /** An escaped string holds no raw control character, in particular no line
      feed, so it cannot end an NDJSON line early. */
  lemma {:induction false} EscapeIsInert(s: string)
    ensures '\n' !in Escape(s)
    ensures forall i :: 0 <= i < |Escape(s)| ==> (Escape(s)[i] as int) >= 0x20
  {
    if s != [] {
      EscapeIsInert(s[1..]);
    }
  }

  // ---------------------------------------------------------------------------
  // The one-line error event.

  const ErrorLinePrefix: string := "{\"type\":\"error\",\"content\":\""
  const ErrorLineSuffix: string := "\"}"

  /** `JSON.stringify({ type: "error", content: message })`. */
  function ErrorJson(message: string): string {
    ErrorLinePrefix + Escape(message) + ErrorLineSuffix
  }

  /** The full NDJSON record: the JSON text and its terminating line feed. */
  function ErrorRecord(message: string): string {
    ErrorJson(message) + "\n"
  }

  /** Reading an error line back: the partner of `ErrorJson`. */
  function DecodeErrorJson(line: string): Option<string> {
    if |line| >= |ErrorLinePrefix| + |ErrorLineSuffix|
       && line[..|ErrorLinePrefix|] == ErrorLinePrefix
       && line[|line| - |ErrorLineSuffix|..] == ErrorLineSuffix
    then Unescape(line[|ErrorLinePrefix|..|line| - |ErrorLineSuffix|])
    else None
  }

  /** An error record decodes back to exactly the message it was built from. */
  lemma ErrorJsonRoundTrip(message: string)
    ensures DecodeErrorJson(ErrorJson(message)) == Some(message)
  {
    var line := ErrorJson(message);
    assert line[..|ErrorLinePrefix|] == ErrorLinePrefix;
    assert line[|line| - |ErrorLineSuffix|..] == ErrorLineSuffix;
    assert line[|ErrorLinePrefix|..|line| - |ErrorLineSuffix|] == Escape(message);
    UnescapeEscape(message);
  }

  /** An error record is exactly one line: splitting it on line feeds gives the
      JSON text and the empty remainder after the final line feed. */
  lemma ErrorRecordIsOneLine(message: string)
    ensures '\n' !in ErrorJson(message)
    ensures Split(ErrorRecord(message), '\n') == [ErrorJson(message), ""]
  {
    EscapeIsInert(message);
    assert '\n' !in ErrorLinePrefix && '\n' !in ErrorLineSuffix;
    var j := ErrorJson(message);
    forall i | 0 <= i < |j| ensures j[i] != '\n' {
      if i < |ErrorLinePrefix| { assert j[i] == ErrorLinePrefix[i]; }
      else if i < |ErrorLinePrefix| + |Escape(message)| { assert j[i] == Escape(message)[i - |ErrorLinePrefix|]; }
      else { assert j[i] == ErrorLineSuffix[i - |ErrorLinePrefix| - |Escape(message)|]; }
    }
    SplitTerminated(j, '\n');
  }
}
