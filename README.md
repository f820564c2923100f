# hello-agent-web: the request/response core in Dafny

hello-agent-web is a Next.js front end for a code-answering agent. The agent
itself runs in a separate worker. The browser page (`Chat`) sends a question
about a GitHub repository, along with a window of earlier messages, to the
chat proxy route. The route forwards it to the worker and streams the worker's
NDJSON events back. The page folds these events (text, tool use, turn, usage,
result, error) into the message it shows. A server action (`chat`) offers the
same forwarding, with its own error mapping to a one-line error stream. An auth
route forwards a password to the worker's `/auth` endpoint. Around these sit
three smaller pieces:

- the repository editor, which changes the owner and repository names;
- the heading pre-processing applied to markdown before rendering;
- the usage panel, which sums tokens over the per-model records.

The model has one module per source file, plus three shared modules:

- `Options`: an option type.
- `Strings`: JavaScript's `trim`, `split`, UTF-16 `length` and number-to-string
  conversion.
- `Wire`: the message, usage and event types, `JSON.stringify`'s string escaping
  with its decoder, and the error line.

The modules are written in the source's own form. The read loop of
`handleSubmit` is the class `ChatClient.StreamConsumer`:

- its fields are the loop's locals and the page state the loop sets;
- `ProcessLine`, `ProcessChunk` and `Consume` are proved against the functional
  fold `ApplyLine`/`ApplyLines`/`ApplyChunks`;
- the behaviour the page promises is proved about that fold.

The page state that `handleSubmit` changes is the class `ChatClient.ChatSession`.
The repository editor is `RepoSelector.Editor`, which changes the page's fields
through its callbacks. The routes, the formatters, the validators and the
markdown rewrite are functions.

`JSON.parse` is a parameter of the client model: a function from a line to an
optional event, with `None` when it throws. The worker's reply and the fetch
outcome are parameters too. So are the configured `HISTORY_QUESTIONS` and the
elapsed time.

Two behaviours of the client's read loop are modelled exactly as the code
has them:

- The client keeps no carry-over buffer between reads. Each chunk is split on
  its own, so a line cut across two reads is parsed as two fragments.
  `ChatClient.SplitLineIsLost` shows the event being lost.
- Consecutive text events are joined with `"\n\n"` unless the text so far ends
  with a line feed. They are not simply concatenated: the two texts "It is" and
  " a relay." give "It is\n\n a relay.", and the `result` event that follows
  them is ignored (`ChatClient.RelayExchange`).

Two further behaviours of the code are shown as they are:

- The repository editor checks only the two patterns, while the page checks
  the length limits too. An owner name of 40 letters is accepted by the editor
  and then refused with "Owner name too long" when a question is sent
  (`RepoSelector.EditorAcceptsOverlongOwner`).
- The heading rewrite splits every heading of two or more `#` that starts the
  text or a line, because its first `#` counts as the preceding character:
  "a\n## x" becomes "a\n#\n\n# x" (`Markdown.LineStartHeadingIsSplit`). The
  split it makes is stable on its own (`Markdown.StartSplitIsStable`). The
  rewrite is still not idempotent: the break it inserts before a glued heading
  such as "a## x" puts that heading at the start of a line, where a second pass
  splits it (`Markdown.NotIdempotent`).

## Model

| member | source | states |
|---|---|---|
| Strings.TrimSpec | app/components/Chat.tsx:38 | `trim` returns a contiguous slice with no white space at either end, and it is empty exactly when the text is all white space |
| Strings.IntToStringRoundTrip | app/actions/chat.ts:118 | the decimal text of a status reads back as the same number |
| Strings.TrimIgnoresPadding | app/components/RepoSelector.tsx:42-44 | `trim` of a text with any white space added on either side is `trim` of the text |
| Strings.SplitJoin | app/components/Chat.tsx:169 | joining the pieces of `split("\n")` with line feeds gives the chunk back |
| Strings.SplitAppend | app/components/Chat.tsx:169 | splitting two texts joined at a separator gives the pieces of the first followed by the pieces of the second |
| Wire.UnescapeEscape | app/actions/chat.ts:100 | decoding `JSON.stringify`'s escaping of a string gives back the string |
| Wire.EscapeIsInert | app/actions/chat.ts:100 | an escaped message contains no line feed and no control character |
| Wire.ErrorJsonRoundTrip | app/actions/chat.ts:100 | the error line `{"type":"error","content":…}` decodes to exactly its message |
| Wire.ErrorRecordIsOneLine | app/actions/chat.ts:98-101 | the error record splits on line feeds into the JSON text and an empty remainder, so it is exactly one line |
| ChatAction.FormatHttpError | app/actions/chat.ts:109-120 | 429 gives the rate-limit sentence and only 429 does; exactly 500, 502 and 503 give the unavailable sentence; any other status gives "Request failed with status N" |
| ChatAction.FormatHttpErrorKeepsStatus | app/actions/chat.ts:117-118 | two statuses without a fixed sentence that give the same message are the same status |
| ChatAction.FormatErrorForUser | app/actions/chat.ts:123-131 | "fetch" or "network" gives the connectivity sentence, even when "timeout" is also present; "timeout" alone gives the time-out sentence; anything else gives "Something went wrong: " plus the raw text |
| ChatAction.FormatErrorForUserKeepsDetail | app/actions/chat.ts:123-131 | the fallback message determines the raw error text: no other error, with a fixed sentence or a fallback of its own, gives the same message |
| ChatAction.StreamChunks | app/actions/chat.ts:95-106 | the worker's body is returned untouched; the error stream has exactly one chunk, which is one NDJSON line that decodes to the message |
| ChatAction.WorkerErrorMessage | app/actions/chat.ts:64-76 | for a non-OK reply: a truthy JSON `content` is the message; JSON without it gives "Worker returned N"; a body that is not JSON gives `formatHttpError(status)` |
| ChatAction.Chat | app/actions/chat.ts:33-91 | an empty message list throws; a missing worker URL gives the configuration error line and sends nothing; otherwise only the last message's content is sent, with `repoUrl` only when truthy; an exception, or a body of a non-OK reply that cannot be read, gives `formatErrorForUser` of its message; a readable non-OK body gives the worker error message; an OK reply without a body gives "No response body from worker"; the worker body passes through only when the reply is OK and has a body |
| ChatRoute.OutboundFor | app/api/chat/route.ts:47-71 | the payload always has the prompt, has `repoUrl` exactly when it is truthy and `history` exactly when it is non-empty, each unchanged; Authorization is forwarded exactly when present and non-empty |
| ChatRoute.Post | app/api/chat/route.ts:19-115 | missing configuration gives 500 before the body is read; a malformed body or a bad prompt gives 400 and sends nothing; the worker is contacted exactly for a configured, valid request; every status is 200, 400, 500 or a failing worker status in 200-599 other than 304 |
| ChatRoute.SuccessIsUnbufferedStream | app/api/chat/route.ts:93-109 | 200 is sent exactly when the worker answered OK with a body, and then the stream carries the no-cache and no-buffering headers |
| ChatRoute.WorkerFailureMirrored | app/api/chat/route.ts:73-113 | a failing worker status that a response can carry is mirrored; with a body the body is forwarded, and without one the route sends one NDJSON error line that decodes to "Request failed with status N"; a status the `Response` constructor refuses (304, or outside 200-599) throws into the catch and gives 500 JSON with the constructor's message |
| ChatRoute.FailuresOutsideTheStream | app/api/chat/route.ts:94-114 | an exception gives 500 JSON carrying its message, not an NDJSON line; an OK reply without a body gives 500 JSON |
| AuthRoute.AuthUrl | app/api/auth/route.ts:44 | the URL ends in "/auth"; one trailing slash of the worker URL is dropped and no other change is made |
| AuthRoute.AuthUrlOneSlash | app/api/auth/route.ts:44 | "h/" reaches the same endpoint as "h", while "h//" gives "h//auth" |
| AuthRoute.Post | app/api/auth/route.ts:16-67 | missing configuration gives 500; a malformed body gives 400 "Invalid JSON body"; a missing or empty password gives 400 "Missing password"; the password is sent exactly for a configured, valid request; forwarded JSON is the worker's own, with its status, which is in 200-599 and not 204, 205 or 304 |
| AuthRoute.AuthOutcome | app/api/auth/route.ts:56-66 | the worker's JSON and status are forwarded unchanged when the status can carry a JSON body; a status `NextResponse.json` refuses (outside 200-599, or 204, 205, 304) and any other exception give 500 with `success: false` and the error text |
| UsageDetails.ReduceIsSum | app/components/UsageDetails.tsx:100-108 | the reduce from any start adds each field's sum over the records, a missing field counting as 0 |
| UsageDetails.TokenTotals | app/components/UsageDetails.tsx:100-108 | each token total, folded from zero, is the sum of its field over all model records |
| UsageDetails.ReduceAppend | app/components/UsageDetails.tsx:100-108 | reducing two runs of records is reducing their concatenation |
| UsageDetails.ReduceFrom | app/components/UsageDetails.tsx:100-108 | reducing from a start value adds that value to the totals folded from zero |
| UsageDetails.TokenTotalsAppend | app/components/UsageDetails.tsx:100-108 | the totals of two groups of records add up |
| UsageDetails.TokenTotalsSwap | app/components/UsageDetails.tsx:100-108 | swapping two records leaves the totals unchanged, so the order of the models does not matter |
| UsageDetails.ShowsTokenSection | app/components/UsageDetails.tsx:95 | the token section appears exactly when `modelUsage` is present and has at least one model |
| UsageDetails.TokenRows | app/components/UsageDetails.tsx:111-118 | Input and Output are always shown, first; Cache Read and Cache Create are shown exactly when their total is positive |
| UsageDetails.FormatCost | app/components/UsageDetails.tsx:39-42 | "N/A" exactly when the cost is absent, otherwise the cost in dollars |
| UsageDetails.FormatDuration | app/components/UsageDetails.tsx:44-47 | "N/A" exactly when absent; milliseconds below 1000 ms; seconds (ms / 1000) from 1000 ms on |
| UsageDetails.FormatNumber | app/components/UsageDetails.tsx:49-52 | "N/A" exactly when absent, otherwise the number itself |
| Markdown.HashRun | app/components/Message.tsx:18 | the run of '#' starting at an index: every character in it is '#' and the one after it is not |
| Markdown.InsertionsAreMatches | app/components/Message.tsx:18 | every insertion point lies right after the first character of a match of the pattern |
| Markdown.PreprocessMarkdown | app/components/Message.tsx:16-19 | one left-to-right pass of the global replace from the start of the text; it has no contract of its own, and its effect is stated by Markdown.PreprocessInsertsBreaks, Markdown.PreprocessChangesIffMatch and Markdown.PreprocessRoundTrip |
| Markdown.ReplaceIsInsertion | app/components/Message.tsx:18 | the left-to-right global replace equals the text with "\n\n" inserted at the computed ascending positions |
| Markdown.PreprocessInsertsBreaks | app/components/Message.tsx:16-19 | the output is the input with "\n\n" inserted at ascending positions, each after a non-newline character and before 1 to 6 '#' followed by white space |
| Markdown.FirstMatchIsBroken | app/components/Message.tsx:18 | scanning from an index, the first match of the pattern gets a break right after its first character, and the scan resumes after the match |
| Markdown.NoMatchNoBreaks | app/components/Message.tsx:18 | where the pattern does not match from an index on, nothing is inserted |
| Markdown.SomeMatchBreaks | app/components/Message.tsx:18 | where the pattern matches from an index on, something is inserted |
| Markdown.PreprocessChangesIffMatch | app/components/Message.tsx:16-19 | the rewrite changes the text exactly when the pattern matches somewhere in it |
| Markdown.InsertBreaksLength | app/components/Message.tsx:18 | each insertion adds exactly two characters |
| Markdown.RemoveInsertedBreaks | app/components/Message.tsx:18 | deleting the two characters inserted at each position gives back the original text |
| Markdown.PreprocessRoundTrip | app/components/Message.tsx:16-19 | deleting the pairs the rewrite inserted restores its input exactly |
| Markdown.NoHashUnchanged | app/components/Message.tsx:18 | from any index, text without '#' is copied unchanged |
| Markdown.PreprocessNoHash | app/components/Message.tsx:16-19 | text without '#' is returned unchanged |
| Markdown.SingleHashHeadingAtStart | app/components/Message.tsx:18 | "# x" at the start of the text is unchanged |
| Markdown.SingleHashHeadingAfterNewline | app/components/Message.tsx:18 | "# x" right after a line feed is unchanged |
| Markdown.SingleHashHeadingGlued | app/components/Message.tsx:18 | "a# x" gets a paragraph break before the heading |
| Markdown.MultiHashAtStartIsSplit | app/components/Message.tsx:18 | "## x" at the start becomes "#\n\n# x" and "### x" becomes "#\n\n## x" |
| Markdown.NotIdempotent | app/components/Message.tsx:18 | applying the rewrite twice to "a## x" changes the text again |
| Markdown.SecondPass | app/components/Message.tsx:18 | "a\n\n## x", a two-'#' heading at the start of a line, becomes "a\n\n#\n\n# x" |
| Markdown.LineStartHeadingIsSplit | app/components/Message.tsx:18 | "a\n## x" becomes "a\n#\n\n# x": a heading of two '#' on its own line is split |
| Markdown.StartSplitIsStable | app/components/Message.tsx:18 | "#\n\n# x", the split of "## x", holds no match and is returned unchanged |
| ChatClient.PatternLength | app/components/Chat.tsx:27-28 | a name either pattern accepts is ASCII, so its JavaScript length is its number of characters |
| ChatClient.PatternHasNoSpace | app/components/Chat.tsx:27-28 | a name either pattern accepts contains no white space, so trimming leaves it unchanged |
| ChatClient.ValidateOwner | app/components/Chat.tsx:37-42 | exactly one outcome for each case, in order: blank after trim gives "Owner is required"; length over 39 gives "Owner name too long"; a pattern failure gives "Invalid owner name"; null exactly for a pattern match of at most 39 characters |
| ChatClient.ValidateRepo | app/components/Chat.tsx:44-49 | the same chain, with limit 100 and the repository pattern |
| ChatClient.AcceptedNamesAreTrimmed | app/components/Chat.tsx:37-49 | accepted names contain no white space |
| ChatClient.PaddedRepoIsInvalid | app/components/Chat.tsx:44-49 | a repository name with a leading or trailing space is refused as invalid, not trimmed |
| ChatClient.HistoryWindow | app/components/Chat.tsx:126-129 | the history is the last messages before the new question, in order, reduced to role and content: min(count, 2N) of them for N > 0, all of them for N = 0 (`slice(-0)`) or NaN, and all but 2·|N| of them for N < 0 |
| ChatClient.NonBlank | app/components/Chat.tsx:169 | the filter keeps only lines that are not all white space |
| ChatClient.NonBlankOne | app/components/Chat.tsx:169 | a single line is kept exactly when it is not blank |
| ChatClient.NonBlankAppend | app/components/Chat.tsx:169 | the filter of two runs of lines is the filter of each, in order |
| ChatClient.NonBlankMembers | app/components/Chat.tsx:169 | a line is kept exactly when it is one of the pieces and is not blank |
| ChatClient.Lines | app/components/Chat.tsx:169 | the lines of a chunk contain no line feed and are not blank |
| ChatClient.LinesAppend | app/components/Chat.tsx:169 | the lines of two texts joined by a line feed are the lines of the first followed by those of the second |
| ChatClient.Apply | app/components/Chat.tsx:173-197 | only a `tool_use` event adds to the tool count, by one, and to the tool history, with its tool and detail |
| ChatClient.LinesAreTheirEvents | app/components/Chat.tsx:171-200 | a line that fails to parse is skipped and the loop goes on: the lines have the effect of exactly the events that parsed, in order |
| ChatClient.ApplyEventsAppend | app/components/Chat.tsx:171-197 | applying two runs of events is applying their concatenation |
| ChatClient.TextsAreJoined | app/components/Chat.tsx:174-180 | a second text gets "\n\n" before it exactly when the first is non-empty and does not end with a line feed |
| ChatClient.ToolsAreCounted | app/components/Chat.tsx:181-183 | each tool-use event adds exactly one to the count and one entry to the history, and nothing else touches either |
| ChatClient.LastEventWins | app/components/Chat.tsx:184-187 | the turn counter and the captured usage take the last such event's value, whatever it is |
| ChatClient.ContentOnlyGrows | app/components/Chat.tsx:174-197 | no event removes text already collected |
| ChatClient.ResultIsFallback | app/components/Chat.tsx:188-193 | once any text is held, a `result` event changes nothing |
| ChatClient.ResultFillsEmpty | app/components/Chat.tsx:188-193 | while no text is held, a `result` with content makes that content the collected text |
| ChatClient.EmptyResultIsIgnored | app/components/Chat.tsx:188-193 | a `result` with empty content changes nothing |
| ChatClient.ResultOnlyStream | app/components/Chat.tsx:173-197 | in a stream without text or error events, the collected text is the content of the first `result` that has any, or empty if none has |
| ChatClient.ErrorAlwaysShows | app/components/Chat.tsx:194-196 | an `error` event appends "\n\nError: " and its content, even as the first event, and whatever follows keeps it |
| ChatClient.OneLineChunk | app/components/Chat.tsx:169 | a non-blank chunk without a line feed is a single line |
| ChatClient.SplitLineIsLost | app/components/Chat.tsx:164-173 | a line cut across two reads is parsed as two fragments and lost when neither parses, although the whole line in one read is applied |
| ChatClient.ErrorRecordIsShown | app/components/Chat.tsx:169-197 | the server action's one-line error record reaches the reader as exactly one error event |
| ChatClient.UsageSnapshot | app/components/Chat.tsx:212-214 | usage is attached exactly when some was captured; it is the captured record with `num_tools` and `total_duration_ms` set |
| ChatClient.FinalMessages | app/components/Chat.tsx:205-217 | one assistant message is added exactly when text was collected |
| ChatClient.StreamEndMessage | app/components/Chat.tsx:204-217 | after a whole stream, the message holds the collected text; its usage is present exactly when a usage event arrived, and then `num_tools` is the number of tool-use events |
| ChatClient.RelayExchange | app/components/Chat.tsx:174-193 | "It is" and " a relay." followed by a `result` give "It is\n\n a relay." with the usage attached |
| ChatClient.StreamConsumer.constructor | app/components/Chat.tsx:160-162 | the loop's locals start empty, as does the page state reset on submission |
| ChatClient.StreamConsumer.ProcessLine | app/components/Chat.tsx:172-200 | one line changes the state as the event it parses to, and not at all when the parse throws |
| ChatClient.StreamConsumer.ProcessChunk | app/components/Chat.tsx:168-201 | one chunk applies its non-blank lines in order |
| ChatClient.StreamConsumer.Consume | app/components/Chat.tsx:164-202 | the read loop applies the chunks in order, each on its own |
| ChatClient.Authorization | app/components/Chat.tsx:132-138 | the header is sent exactly when a non-empty token is stored, as "Bearer " plus the token |
| ChatClient.RepoCheck | app/components/Chat.tsx:100-103 | the question is sent exactly when both names pass validation |
| ChatClient.RequestFor | app/components/Chat.tsx:124-143 | the prompt is the trimmed input, the URL is the repository's, the history is the history window (its length given by HistoryWindow), and the bearer header is that of Authorization; a request for a non-blank question passes the chat route's body check |
| ChatClient.Answer | app/components/Chat.tsx:146-226 | at most one message is added, always from the assistant; nothing is added only for a response that arrived |
| ChatClient.Exchange | app/components/Chat.tsx:146-226 | a 401 adds nothing; a rejected fetch, a missing body or a failing read adds the apology; otherwise the stream's final message is added; the turn counter is the stream's |
| ChatClient.ChatSession.constructor | app/components/Chat.tsx:52-62 | the page starts empty with the default repository and the blue pill |
| ChatClient.ChatSession.NewChat | app/components/Chat.tsx:68-74 | clears the conversation, the input and the activity, and resets the pill, keeping the repository |
| ChatClient.ChatSession.HandleSubmit | app/components/Chat.tsx:95-232 | a blank input or a request in flight changes nothing; an invalid repository sets the error and sends nothing; otherwise the question, then the answer, is appended, the input is cleared and loading ends |
| ChatClient.ChatSession.Send | app/components/Chat.tsx:106-231 | the request built from the trimmed input, the repository URL and the history window; the messages after the exchange; the state reset by `finally` |
| ChatClient.ChatSession.Begin | app/components/Chat.tsx:106-120 | the trimmed question is appended with the selected pill, the input and error are cleared, loading starts and the activity is reset |
| ChatClient.ChatSession.Finish | app/components/Chat.tsx:204-231 | the answer is appended, the turn counter is the stream's, and loading ends with the activity cleared |
| RepoSelector.IsValidRepo | app/components/RepoSelector.tsx:37-39 | both names are present and match their patterns, tested on the raw text |
| RepoSelector.HasRepoChanged | app/components/RepoSelector.tsx:42-44 | the trimmed names differ from the trimmed originals |
| RepoSelector.ShowsChangeButton | app/components/RepoSelector.tsx:193 | the Change button is shown exactly for a changed and valid repository |
| RepoSelector.ValidNamesAreTrimmed | app/components/RepoSelector.tsx:61-66 | names the editor accepts are unchanged by the trimming applied before saving |
| RepoSelector.EditorAndSubmitAgree | app/components/RepoSelector.tsx:37-39 | the page's check accepts exactly the names the editor accepts that are within the length limits |
| RepoSelector.EditorAcceptsOverlongOwner | app/components/RepoSelector.tsx:37-39 | a 40-letter owner is valid in the editor and refused when a question is sent |
| RepoSelector.PaddingIsNoChange | app/components/RepoSelector.tsx:42-44 | white space of any amount added before or after either name does not count as a change |
| RepoSelector.Editor.constructor | app/components/RepoSelector.tsx:28-30 | the editor starts closed with empty originals |
| RepoSelector.Editor.EditClick | app/components/RepoSelector.tsx:46-51 | the current names become the originals and the editor opens |
| RepoSelector.Editor.EditOwner | app/components/RepoSelector.tsx:152-155 | the owner takes the typed text as is and the error is cleared; the repository name and the whole conversation state are kept |
| RepoSelector.Editor.EditRepo | app/components/RepoSelector.tsx:171-174 | the repository name takes the typed text as is and the error is cleared; the owner and the whole conversation state are kept |
| RepoSelector.Editor.Cancel | app/components/RepoSelector.tsx:53-59 | the originals are restored, the error is cleared and the editor closes; messages, input, loading, streaming text, tool history, turn count and pill are kept |
| RepoSelector.Editor.Done | app/components/RepoSelector.tsx:61-70 | nothing happens unless the repository is valid and changed; then the trimmed names are saved, the editor closes, and the messages, input, streaming text and tool history are cleared and the pill reset to blue, while the error, loading flag and turn count are kept |
| RepoSelector.Editor.NewChatClick | app/components/RepoSelector.tsx:72-74 | clears the messages, input, streaming text and tool history and resets the pill to blue; keeps the repository, the error, the loading flag and the turn count |

## Left out

- Network and stream I/O (`fetch`, `ReadableStream`, `Response`, `NextResponse`, `TextDecoder`) are inputs: a worker reply, a status with a body flag, or a sequence of decoded chunks. UTF-8 decoding of a character split across reads is not modelled. Which statuses the `Response` constructors refuse (RangeError, TypeError) is modelled, but the text of the error they throw is the parameter `refusal`, because it comes from the runtime.
- `JSON.parse` is a parameter that maps a line to an optional event. `JSON.stringify` is modelled only for the string escaping of the error line, and the escaping of lone surrogates is not modelled.
- ChatRoute.OutboundFor: the request body is taken at its declared type, which is not checked at run time apart from the prompt. A truthy `repoUrl` that is not a string (such as `42`) and a `history` that is not an array but has a truthy `length` (such as `"abc"`) are forwarded unchanged by the code; the model cannot express them.
- ChatAction.WorkerErrorMessage: a non-OK body whose JSON `content` is truthy but not a string (such as `{"content":42}`) is not modelled. The code would pass that value on as the error message unchanged; here `content` is a string or absent.
- Event fields that are not strings, such as a `text` event without `content` (which JavaScript would append as "undefined"), are not modelled. Each event carries fields of the types it declares.
- React rendering, hooks, timers, scrolling, console logging and `localStorage` are left out. The stored token is a parameter, and the 401 reload is the `reloaded` flag of the outcome.
- ChatClient.ChatSession.HandleSubmit: runs to completion in one step. The interleaving of other handlers with the awaits is not modelled, and the streaming text and tool history it shows along the way are not kept after `finally` clears them.
- `Date.now` and the elapsed-time timer are left out. The total duration is a parameter, and tool-history entries have no time stamp.
- `HISTORY_QUESTIONS` is a parameter: `parseInt` of the environment value, with `None` standing for NaN.
- Floating-point formatting (`toFixed`, `toLocaleString`) is left out. UsageDetails.FormatCost, UsageDetails.FormatDuration and UsageDetails.FormatNumber state which form is chosen and the value it shows, not its digits.
- The rate limiter, the translation of raw agent events and result-subtype error classification live in the external worker and are not part of this model.
- The server action `chat` is not called by the page, which uses the chat route. Its model stands alone.
- The password gate, the theme toggle, the activity panel, the background animation, the auth server action and the static pages are UI or thin wrappers, and are not part of this model.
- Strings.JsLength counts characters above U+FFFF as two code units. Lone surrogate code units cannot occur in a Dafny string.
