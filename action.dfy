/** run(): read the inputs, load the OpenAPI document, submit it to the
    scanning service, publish the verdict. The method Run follows the source
    statement by statement; the function Expected states the same behaviour
    through the outcome of the run, and is what the properties speak about. */
module Action {
  import opened Wrappers
  import opened Effects
  import opened Text
  import opened Environment

  const ApiUrl := "https://ghost-api.ghost-systems.workers.dev"
  const ScanUrl := ApiUrl + "/ci/scan"
  const ReportBase := "https://ghost-systems.pages.dev/?audit_id="
  const DefaultMinGrade := "C"
  const ErrorPrefix := "GhostAPI Error: "
  const NotFoundPrefix := "OpenAPI spec not found at: "
  const SubscriptionMessage :=
    "\U{274C} CI/CD Pro subscription required. Visit https://ghost-systems.pages.dev/pricing"
  const Rule := "━━━━━━━━━━━━━━━━━━━━━━━━━━━━━━━━━━━━━━━━━"
  const PassMark := "\U{2705} "
  const FailMark := "\U{274C} "

  /** `core.getInput('min-grade') || 'C'`: the empty string is falsy. */
  function ResolveMinGrade(raw: string): string
  {
    if raw == "" then DefaultMinGrade else raw
  }

  /** `core.getInput('fail-on-error') !== 'false'`. */
  function FailOnError(raw: string): bool
  {
    raw != "false"
  }

  /** Response.ok: a status in the range 200-299. */
  predicate IsOk(status: nat)
  {
    200 <= status <= 299
  }

  /** JavaScript truthiness of the optional string field `error`. */
  predicate Truthy(field: Option<string>)
  {
    field.Some? && field.value != ""
  }

  /** `result.error || \`API Error: ${response.status}\``. */
  function ApiErrorMessage(error: Option<string>, status: nat): string
  {
    if Truthy(error) then error.value else "API Error: " + DecimalString(status)
  }

  function LoadedLine(openapiPath: string, lengthText: string): string
  {
    "\U{1F4C4} Loaded OpenAPI spec from " + openapiPath + " (" + lengthText + " bytes)"
  }

  const StartingLine := "\U{1F50D} Starting security scan..."

  /** The five core.setOutput calls, in source order. */
  function PublishedOutputs(r: ScanBody): seq<Effect>
  {
    [ SetOutput("passed", Flag(r.passed)),
      SetOutput("grade", Str(r.grade)),
      SetOutput("score", Str(r.score)),
      SetOutput("vulnerabilities", Str(r.vulnerabilitiesCount)),
      SetOutput("report-url", Str(ReportBase + r.auditId)) ]
  }

  /** The bordered report logged after the outputs; `minGrade` is the
      resolved grade before upper-casing. */
  function SummaryBlock(r: ScanBody, minGrade: string): seq<Effect>
  {
    [ Info(""),
      Info(Rule),
      Info("  GhostAPI Security Report"),
      Info(Rule),
      Info("  Grade: " + r.grade + " (Score: " + r.score + "/100)"),
      Info("  Vulnerabilities: " + r.vulnerabilitiesCount),
      Info("  Critical: " + r.criticalCount + " | High: " + r.highCount),
      Info("  Min Required: " + minGrade),
      Info(Rule),
      Info("") ]
  }

  /** The terminal state of a scan that came back OK. */
  datatype Verdict = Passed | Warned | Blocked

  function VerdictOf(passed: bool, failOnError: bool): Verdict
  {
    if passed then Passed else if failOnError then Blocked else Warned
  }

  /** The one effect that reports the verdict. */
  function VerdictEffect(message: string, v: Verdict): Effect
  {
    match v
    case Passed => Info(PassMark + message)
    case Blocked => SetFailed(FailMark + message)
    case Warned => Warning(FailMark + message)
  }

  /** How a run ends. The two error kinds are the ones raised inside the try
      block and reported by the catch-all; their reason is the message of
      the error raised. */
  datatype Outcome =
    | ConfigError(reason: string)     // an input is missing or the document cannot be read: nothing is sent
    | TransportError(reason: string)  // fetch or JSON decoding failed, or a non-OK status other than 403
    | SubscriptionRequired            // status 403 with a decodable body
    | Published(result: ScanBody, verdict: Verdict)

  function Classify(env: Env): Outcome
  {
    if env.apiKey == "" then ConfigError(env.notSupplied("api-key"))
    else if env.openapiPath == "" then ConfigError(env.notSupplied("openapi-path"))
    else if !env.fileExists then ConfigError(NotFoundPrefix + env.resolvedPath)
    else if env.readError.Some? then ConfigError(env.readError.value)
    else match env.reply
      case Unreachable(reason) => TransportError(reason)
      case Answered(_, Malformed(reason)) => TransportError(reason)
      case Answered(status, Json(r)) =>
        if IsOk(status) then Published(r, VerdictOf(r.passed, FailOnError(env.failOnError)))
        else if status == 403 then SubscriptionRequired
        else TransportError(ApiErrorMessage(r.error, status))
  }

  /** The request run() sends once the document is loaded. */
  function RequestFor(env: Env): ScanRequest
  {
    ScanRequest(env.apiKey, env.contents, ToUpper(ResolveMinGrade(env.minGrade)))
  }

  /** What happens before the reply is looked at: nothing on a configuration
      error, otherwise the two progress lines and the request. */
  function Preamble(env: Env): seq<Effect>
  {
    if Classify(env).ConfigError? then []
    else [ Info(LoadedLine(env.openapiPath, env.lengthText)),
           Info(StartingLine),
           Post(ScanUrl, RequestFor(env)) ]
  }

  /** What happens after the reply is looked at, given the outcome. */
  function Conclusion(env: Env, o: Outcome): seq<Effect>
  {
    match o
    case ConfigError(reason) => [SetFailed(ErrorPrefix + reason)]
    case TransportError(reason) => [SetFailed(ErrorPrefix + reason)]
    case SubscriptionRequired => [SetFailed(SubscriptionMessage)]
    case Published(r, v) =>
      PublishedOutputs(r) + SummaryBlock(r, ResolveMinGrade(env.minGrade)) + [VerdictEffect(r.message, v)]
  }

  /** The whole trace of one run. */
  function Expected(env: Env): seq<Effect>
  {
    Preamble(env) + Conclusion(env, Classify(env))
  }

  /** The body of the try block: returns the effects emitted and the message
      of the error it raised, if any. */
  method Attempt(env: Env) returns (trace: seq<Effect>, thrown: Option<string>)
    ensures thrown.Some? <==> (Classify(env).ConfigError? || Classify(env).TransportError?)
    ensures thrown.Some? ==> thrown.value == Classify(env).reason
    ensures trace == Preamble(env) + (if thrown.Some? then [] else Conclusion(env, Classify(env)))
  {
    trace := [];
    if env.apiKey == "" {
      thrown := Some(env.notSupplied("api-key"));
      return;
    }
    var apiKey := env.apiKey;
    if env.openapiPath == "" {
      thrown := Some(env.notSupplied("openapi-path"));
      return;
    }
    var openapiPath := env.openapiPath;
    var minGrade := ResolveMinGrade(env.minGrade);
    var failOnError := FailOnError(env.failOnError);

    var fullPath := env.resolvedPath;
    if !env.fileExists {
      thrown := Some(NotFoundPrefix + fullPath);
      return;
    }
    if env.readError.Some? {
      thrown := Some(env.readError.value);
      return;
    }
    var openapiSpec := env.contents;
    trace := trace + [Info(LoadedLine(openapiPath, env.lengthText))];

    trace := trace + [Info(StartingLine)];
    trace := trace + [Post(ScanUrl, ScanRequest(apiKey, openapiSpec, ToUpper(minGrade)))];
    assert trace == Preamble(env);
    if env.reply.Unreachable? {
      thrown := Some(env.reply.reason);
      return;
    }
    var status := env.reply.status;
    if env.reply.body.Malformed? {
      thrown := Some(env.reply.body.reason);
      return;
    }
    var result := env.reply.body.record;

    if !IsOk(status) {
      if status == 403 {
        trace := trace + [SetFailed(SubscriptionMessage)];
        thrown := None;
        return;
      }
      thrown := Some(ApiErrorMessage(result.error, status));
      return;
    }

    assert Classify(env) == Published(result, VerdictOf(result.passed, failOnError));
    var published := Publish(result, minGrade, failOnError);
    trace := trace + published;
    thrown := None;
  }

  /** The OK branch: the five outputs, the summary block, then the verdict. */
  method Publish(result: ScanBody, minGrade: string, failOnError: bool) returns (trace: seq<Effect>)
    ensures trace == PublishedOutputs(result) + SummaryBlock(result, minGrade)
                     + [VerdictEffect(result.message, VerdictOf(result.passed, failOnError))]
  {
    trace := [SetOutput("passed", Flag(result.passed))];
    trace := trace + [SetOutput("grade", Str(result.grade))];
    trace := trace + [SetOutput("score", Str(result.score))];
    trace := trace + [SetOutput("vulnerabilities", Str(result.vulnerabilitiesCount))];
    trace := trace + [SetOutput("report-url", Str(ReportBase + result.auditId))];
    assert trace == PublishedOutputs(result);

    trace := trace + [Info("")];
    trace := trace + [Info(Rule)];
    trace := trace + [Info("  GhostAPI Security Report")];
    trace := trace + [Info(Rule)];
    trace := trace + [Info("  Grade: " + result.grade + " (Score: " + result.score + "/100)")];
    trace := trace + [Info("  Vulnerabilities: " + result.vulnerabilitiesCount)];
    trace := trace + [Info("  Critical: " + result.criticalCount + " | High: " + result.highCount)];
    trace := trace + [Info("  Min Required: " + minGrade)];
    trace := trace + [Info(Rule)];
    trace := trace + [Info("")];
    assert trace == PublishedOutputs(result) + SummaryBlock(result, minGrade);

    if result.passed {
      trace := trace + [Info(PassMark + result.message)];
    } else {
      var errorMsg := FailMark + result.message;
      if failOnError {
        trace := trace + [SetFailed(errorMsg)];
      } else {
        trace := trace + [Warning(errorMsg)];
      }
    }
  }

  /** run(): the try block, then the catch-all that reports any error raised. */
  method Run(env: Env) returns (trace: seq<Effect>)
    ensures trace == Expected(env)
  {
    var thrown;
    trace, thrown := Attempt(env);
    if thrown.Some? {
      trace := trace + [SetFailed(ErrorPrefix + thrown.value)];
    }
  }
}
