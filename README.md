# GhostAPI security-scan action, modelled in Dafny

The GhostAPI action is a CI step. It reads the `api-key`, `openapi-path`,
`min-grade` and `fail-on-error` inputs and loads the OpenAPI document. It
POSTs the document to the scanning service's `/ci/scan` endpoint, and then
reports the service's verdict through `@actions/core`: five step outputs, a
bordered summary log, and a final pass line, warning or step failure. Every
error is caught in one place and reported as `GhostAPI Error: <message>`.

This project models the action's one function, `run()`.

- **The environment as data.** `Environment.Env` holds what run() reads from
  outside:
  - the raw input strings;
  - the message `getInput` raises for a missing required input;
  - the resolved path, whether the file exists, the error reading it raises
    if any (a directory, a file without read permission), its contents, and
    its rendered length;
  - the reply to the request, as `Environment.Reply`. It is either
    unreachable, or a status with a body that did or did not decode.
- **The effects as a trace.** Every observable call is an `Effects.Effect`:
  the POST, `setOutput`, `info`, `warning` and `setFailed`.
- **The procedure.** `Action.Run` follows the source statement by
  statement:
  - `Action.Attempt` is the try block, with its early return and its two
    throws;
  - `Action.Publish` is the branch taken on an OK answer;
  - the catch-all is in `Run` itself.
- **The specification.** `Action.Run` is proved to produce `Action.Expected(env)`.
  This function is written through the outcome of the run, `Action.Classify`:
  - a configuration error;
  - a transport error;
  - the subscription refusal;
  - a published verdict.
- **The properties.** The lemmas in `Tally` and `Properties` state what
  run() promises, as facts about that trace.
  - `Effects.OfKind` selects the effects of one kind.
  - `Effects.StatusOf` gives the step status the trace leaves behind: failed,
    succeeded with warnings, or succeeded.

Where the description of the action and the code disagree, the model follows
the code:
- **A 403 is not answered "whatever its body".** The body is decoded before
  the status is examined (`src/index.js:39`). A 403 whose body does not decode
  therefore fails with the decoding error, not with the subscription message.
- **Not every use of the grade is upper-cased.** Only the grade sent in the
  request is upper-cased (`src/index.js:35`). The "Min Required" log line shows
  the value as supplied, or "C" (`src/index.js:64`).

## Model

| member | source | states |
|---|---|---|
| Action.Run | src/index.js:7-83 | The trace of one run is exactly `Expected(env)`: the preamble, then the conclusion chosen by the outcome. The catch-all prefixes every raised message with `GhostAPI Error: `. |
| Action.Attempt | src/index.js:8-79 | The try block raises an error exactly on a configuration or transport outcome, and its message is that outcome's reason. In every other case it emits the whole conclusion itself. |
| Action.Publish | src/index.js:50-78 | On an OK answer: the five outputs, then the ten-line summary block, then the one verdict effect chosen by `passed` and the policy. |
| Text.ToUpper | src/index.js:35 | The upper-cased grade has the input's length, and each character is the upper-case form of the input's. |
| Text.ToUpperIdempotent | src/index.js:35 | Upper-casing an already upper-cased grade changes nothing. |
| Text.ToUpperLeavesNoLowercase | src/index.js:35 | No lower-case letter survives upper-casing. |
| Text.ToUpperIgnoresCase | src/index.js:35 | Two strings that agree character by character up to the case of ASCII letters (`SameUpToCase`) upper-case to the same string. |
| Text.DecimalString | src/index.js:46 | The rendered status is a non-empty string of digits, with no leading zero. |
| Text.DecimalRoundTrip | src/index.js:46 | Reading the rendered status back gives the status. |
| Tally.LoadedIffNoConfigError | src/index.js:10-21 | Both required inputs are supplied and the document exists and can be read exactly when the outcome is not a configuration error. |
| Tally.Requests | src/index.js:27-37 | The run sends the request exactly once when the document is loaded, and never otherwise. The request carries the key, the document and the upper-cased grade. |
| Tally.Outputs | src/index.js:50-54 | The outputs set are the five published ones on an OK answer with a decoded body, and none on any other outcome. |
| Tally.Failures | src/index.js:41-82 | The `setFailed` calls of a run are exactly one failure on every error, on the 403, and on a blocking verdict. There are none otherwise. |
| Tally.Warnings | src/index.js:76 | The run logs a warning only on a negative verdict with the policy off, and then exactly one. |
| Properties.PolicyDisabledOnlyByFalse | src/index.js:13 | The fail-on-error policy is off if and only if the input is exactly "false". "", "0", "no" and "False" leave it on. |
| Properties.NegativeVerdictFollowsPolicy | src/index.js:69-78 | On a negative verdict the step fails if and only if `fail-on-error` is not "false". Otherwise it ends with warnings. |
| Properties.RequestCarriesUpperCasedGrade | src/index.js:12-36 | The request's grade is the upper-cased `min-grade`, or "C" when that input is empty. |
| Properties.RequestIgnoresGradeCase | src/index.js:12-36 | Two loaded runs with the same key and document, whose min-grade inputs differ only in the case of their letters, send the same request. |
| Properties.KeyNeverLogged | src/index.js:10-78 | With the service's reply and any fetch error held fixed, replacing the key by another supplied key leaves every log line, output, warning and failure unchanged. run() itself copies the key only into the request header (line 31). |
| Effects.StatusOfByEffects | src/index.js:73-81 | The step is failed exactly when the run made some `setFailed` call. It ends with warnings exactly when it made no `setFailed` call and some `warning` call. |
| Properties.PreambleLogs | src/index.js:22-25 | Before the reply, the run logs only the loaded line and the starting line, and only when the document was loaded. |
| Properties.UpperCaseExamples | src/index.js:35 | "b" is sent as "B", "c+" as "C+", and "A" unchanged. |
| Properties.RequestIffDocumentLoaded | src/index.js:10-27 | A request is issued if and only if both required inputs are supplied and the document exists and can be read. |
| Properties.MissingInputFails | src/index.js:10-11 | A missing required input produces exactly one effect: the failure `GhostAPI Error: ` followed by getInput's message, as raised and reported by the catch-all at lines 80-81. |
| Properties.MissingFileFails | src/index.js:16-18 | A missing document produces exactly one effect: the failure naming the resolved path, with no request and no outputs. The catch-all at lines 80-81 reports it. |
| Properties.UnreadableFileFails | src/index.js:21 | A document that exists but cannot be read produces exactly one effect: the failure carrying the read error, reported by the catch-all at lines 80-81. The loaded line is not logged and no request is sent. |
| Properties.ForbiddenFailsWithSubscriptionMessage | src/index.js:39-45 | A 403 with a decodable body, whatever it holds, ends the run with the subscription message. No outputs are set and nothing more is logged. |
| Properties.MalformedBodyFails | src/index.js:39 | A body that does not decode fails the step with the decoding error, for any status, 403 included. The catch-all at lines 80-81 reports it. |
| Properties.UnreachableFails | src/index.js:27-37 | A fetch that fails is reported by the catch-all at lines 80-81 with its own message. |
| Properties.ErrorStatusFails | src/index.js:41-46 | Any other non-OK status fails the step with the body's `error` when it is a non-empty string, and otherwise with `API Error: <status>`. No outputs are set. |
| Properties.ErrorMessageExamples | src/index.js:46 | Status 400 with error "invalid spec" reports "invalid spec". Status 500 with no error, and status 502 with an empty error, fall back to `API Error: 500` and `API Error: 502`. |
| Properties.OutputsOnlyOnSuccess | src/index.js:41-54 | Outputs are set if and only if the service answered 2xx with a decodable body. |
| Properties.SuccessSetsFiveOutputs | src/index.js:50-54 | An OK answer sets exactly five outputs, in the order passed, grade, score, vulnerabilities, report-url. The report URL is the report page followed by the audit id. |
| Properties.SummaryPrecedesVerdict | src/index.js:50-69 | On an OK answer the trace has 19 effects. The outputs come before the summary block, and the block before the verdict. Its "Min Required" line shows the grade as supplied, or "C". Only the last effect can warn or fail. |
| Properties.VerdictMapping | src/index.js:69-78 | A passing scan ends with `✅ <message>` and succeeds. A failing scan fails with `❌ <message>` when the policy is on, and only warns with it when the policy is off. |
| Properties.StatusFollowsOutcome | src/index.js:41-81 | The step status is failed on every error, the 403 and a blocking verdict. It is succeeded-with-warnings on a non-blocking negative verdict, and succeeded on a pass. |
| Properties.AtMostOneFailure | src/index.js:41-81 | Every run calls `setFailed` at most once and warns at most once, and never does both. |
| Properties.PassingScanConcludes | src/index.js:69-70 | A 2xx answer whose body reports a pass ends with the pass line carrying the service's message, and the step succeeds. |
| Properties.PassingScanExample | src/index.js:69-70 | A 200 answer saying "All checks passed" ends with `✅ All checks passed` and succeeds. |
| Properties.PassingScanOutputsExample | src/index.js:50-54 | The same answer, with grade A, score 95, no vulnerabilities and audit id abc123, publishes those values and the report link for abc123. |

## Left out

- **The HTTPS `fetch` and the JSON decoding of the reply** (`src/index.js:27-39`):
  - Both are network I/O. The reply is given as data: unreachable with a
    message, or a status with a body that decoded to a record or failed
    with a message.
  - The request headers and the JSON encoding of the request body are not
    modelled. The request is modelled as the key, document and grade it
    carries.
- **`path.resolve`, `fs.existsSync` and `fs.readFileSync`**
  (`src/index.js:16-21`): these are file-system and operating-system path
  semantics. The resolved path, whether the file exists, the error a failed
  read raises, and the contents are given as data.
- **How `@actions/core` reads inputs** (`src/index.js:10-13`):
  - The message `getInput` raises for a missing required input is an opaque
    function of the input's name.
  - An empty `api-key` or `openapi-path` stands for "getInput threw because
    the required input was not supplied". A required input made only of
    whitespace is not modelled. getInput trims it to "" without throwing,
    and run() then carries on with the empty string.
- **The `async`/`await` structure and the module-level call of `run()**
  (`src/index.js:85`): this is concurrency plumbing, with no effect on the
  order of the calls the model records.
- **Numbers** (`src/index.js:22,52-53,61-63`): the document's length and the
  body's `score`, `vulnerabilities_count`, `critical_count` and `high_count`
  are relayed as already-rendered text. The length counts UTF-16 code units.
  The others are JSON numbers that run() never computes with.
- **Fields missing from the decoded body, or a body that is not an object**
  (`src/index.js:50-72`): the model takes the body to be a record holding
  every field. JavaScript would render a missing field as `undefined`.
- **The types of the body's fields** (`src/index.js:46,50,69-70`): `passed`
  is taken to be a boolean, and `error` to be absent or a string, as the
  model assumes. JavaScript would test any other JSON value for
  truthiness: `"false"` as `passed` counts as a pass, and `0` as `error`
  falls back to `API Error: <status>`. `new Error` would also convert a
  non-string `error` to text, so an object becomes `[object Object]`. The
  model does not capture these cases.
- **The reply and the fetch's rejection message do not depend on the key**
  (`src/index.js:27-46`): the reply and the rejection message are given as
  data, independent of `api-key`. In reality the service answers a key
  without the subscription with a 403, and fetch rejects a header value it
  cannot send with a message that may quote the key. Properties.KeyNeverLogged
  therefore speaks only of what run() itself logs.
- **Text.ToUpper: only the ASCII letters are upper-cased.** JavaScript's
  `toUpperCase` also maps non-ASCII letters, and grades are ASCII letters with
  an optional sign.
- **The emoji and the decorative lines of the summary block**
  (`src/index.js:57-66`): they are reproduced, but they carry no logic beyond
  their presence and order.
