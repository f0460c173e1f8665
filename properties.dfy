/** What run() promises, stated over the trace Expected(env) that Action.Run
    is proved to produce. */
module Properties {
  import opened Wrappers
  import opened Effects
  import opened Text
  import opened Environment
  import opened Action
  import opened Tally

  // ---- Configuration ----

  /** The failure policy is off only for the exact input "false". */
  lemma PolicyDisabledOnlyByFalse(raw: string)
    ensures !FailOnError(raw) <==> raw == "false"
    ensures FailOnError("") && FailOnError("0") && FailOnError("no") && FailOnError("False")
  {
  }

  /** On a negative verdict the step fails if and only if fail-on-error is
      anything but "false"; otherwise it only warns. */
  lemma NegativeVerdictFollowsPolicy(env: Env)
    requires Classify(env).Published? && !Classify(env).result.passed
    ensures StatusOf(Expected(env)) == Failed <==> env.failOnError != "false"
    ensures StatusOf(Expected(env)) == if env.failOnError == "false" then SucceededWithWarnings else Failed
  {
    Failures(env);
    Warnings(env);
  }

  /** The request carries the document and the upper-cased grade, "C" when
      min-grade is empty. */
  lemma RequestCarriesUpperCasedGrade(env: Env)
    requires Loaded(env)
    ensures OfKind(Expected(env), PostKind) ==
      [Post(ScanUrl, ScanRequest(env.apiKey, env.contents, ToUpper(if env.minGrade == "" then "C" else env.minGrade)))]
  {
    Requests(env);
  }

  /** Two runs whose min-grade inputs differ only in the case of their
      letters send the same request. */
  lemma RequestIgnoresGradeCase(e1: Env, e2: Env)
    requires Loaded(e1) && Loaded(e2)
    requires e1.apiKey == e2.apiKey && e1.contents == e2.contents
    requires |e1.minGrade| == |e2.minGrade|
    requires forall i :: 0 <= i < |e1.minGrade| ==> SameUpToCase(e1.minGrade[i], e2.minGrade[i])
    ensures OfKind(Expected(e1), PostKind) == OfKind(Expected(e2), PostKind)
  {
    Requests(e1);
    Requests(e2);
    ToUpperIgnoresCase(e1.minGrade, e2.minGrade);
    if e1.minGrade != "" {
      assert RequestFor(e1) == RequestFor(e2);
    }
  }

  lemma UpperCaseExamples()
    ensures ToUpper("b") == "B" && ToUpper("c+") == "C+" && ToUpper("A") == "A"
  {
  }

  /** The key only travels in the request: replacing it by any other
      supplied key changes no log line, output, warning or failure. */
  lemma KeyNeverLogged(env: Env, key: string, k: Kind)
    requires env.apiKey != "" && key != "" && k != PostKind
    ensures OfKind(Expected(env), k) == OfKind(Expected(env.(apiKey := key)), k)
  {
    var env2 := env.(apiKey := key);
    var o := Classify(env);
    assert o == Classify(env2);
    assert Conclusion(env, o) == Conclusion(env2, o);
    Split(env, k);
    Split(env2, k);
    PreambleLogs(env, k);
    PreambleLogs(env2, k);
  }

  /** Apart from the request, the preamble holds only the two progress
      lines, which do not mention the key. */
  lemma PreambleLogs(env: Env, k: Kind)
    requires k != PostKind
    ensures OfKind(Preamble(env), k) ==
      if k == InfoKind && Loaded(env) then [Info(LoadedLine(env.openapiPath, env.lengthText)), Info(StartingLine)]
      else []
  {
    PreambleKinds(env, k);
  }

  // ---- Loading the document ----

  /** The request is sent exactly when both required inputs are supplied and
      the document exists and can be read. */
  lemma RequestIffDocumentLoaded(env: Env)
    ensures OfKind(Expected(env), PostKind) != [] <==> Loaded(env)
  {
    Requests(env);
  }

  /** A missing required input fails the step with getInput's message, and
      nothing else happens. */
  lemma MissingInputFails(env: Env)
    requires env.apiKey == "" || env.openapiPath == ""
    ensures Expected(env) ==
      [SetFailed(ErrorPrefix + env.notSupplied(if env.apiKey == "" then "api-key" else "openapi-path"))]
  {
  }

  /** A missing document fails the step with a message naming the resolved
      path, and nothing else happens: no request, no outputs. */
  lemma MissingFileFails(env: Env)
    requires env.apiKey != "" && env.openapiPath != "" && !env.fileExists
    ensures Expected(env) == [SetFailed(ErrorPrefix + (NotFoundPrefix + env.resolvedPath))]
  {
  }

  /** A document that exists but cannot be read (a directory, say) fails
      the step with the read error, and nothing else happens: the loaded
      line is not logged and no request is sent. */
  lemma UnreadableFileFails(env: Env)
    requires env.apiKey != "" && env.openapiPath != "" && env.fileExists && env.readError.Some?
    ensures Expected(env) == [SetFailed(ErrorPrefix + env.readError.value)]
  {
  }

  // ---- Interpreting the reply ----

  /** A 403 with a decodable body, whatever it holds, fails the step with the
      subscription message; nothing is published and nothing more logged. */
  lemma ForbiddenFailsWithSubscriptionMessage(env: Env)
    requires Loaded(env) && env.reply.Answered? && env.reply.status == 403 && env.reply.body.Json?
    ensures Expected(env) == Preamble(env) + [SetFailed(SubscriptionMessage)]
    ensures OfKind(Expected(env), OutputKind) == []
  {
    Outputs(env);
  }

  /** A body that does not decode is reported as the parse error, whatever
      the status, 403 included: decoding comes before the status check. */
  lemma MalformedBodyFails(env: Env)
    requires Loaded(env) && env.reply.Answered? && env.reply.body.Malformed?
    ensures Expected(env) == Preamble(env) + [SetFailed(ErrorPrefix + env.reply.body.reason)]
  {
  }

  /** A rejected fetch is reported with its message. */
  lemma UnreachableFails(env: Env)
    requires Loaded(env) && env.reply.Unreachable?
    ensures Expected(env) == Preamble(env) + [SetFailed(ErrorPrefix + env.reply.reason)]
  {
  }

  /** Any other non-OK status fails the step with the body's error when it
      is a non-empty string, otherwise with "API Error: <status>". */
  lemma ErrorStatusFails(env: Env)
    requires Loaded(env) && env.reply.Answered? && env.reply.body.Json?
    requires !(200 <= env.reply.status <= 299) && env.reply.status != 403
    ensures Expected(env) == Preamble(env) +
      [SetFailed(ErrorPrefix +
        (var e := env.reply.body.record.error;
         if e.Some? && e.value != "" then e.value else "API Error: " + DecimalString(env.reply.status)))]
    ensures OfKind(Expected(env), OutputKind) == []
  {
    Outputs(env);
  }

  /** The error message of a non-OK answer: the body's error when it is a
      non-empty string, otherwise the status. */
  lemma ErrorMessageExamples()
    ensures ApiErrorMessage(Some("invalid spec"), 400) == "invalid spec"
    ensures ApiErrorMessage(None, 500) == "API Error: 500"
    ensures ApiErrorMessage(Some(""), 502) == "API Error: 502"
  {
    assert DecimalString(500) == "500";
    assert DecimalString(502) == "502";
  }

  // ---- Publishing the verdict ----

  /** Outputs are set exactly when the service answered OK with a decodable
      body. */
  lemma OutputsOnlyOnSuccess(env: Env)
    ensures OfKind(Expected(env), OutputKind) != [] <==>
      (Loaded(env) && env.reply.Answered? && env.reply.body.Json? && 200 <= env.reply.status <= 299)
  {
    Outputs(env);
  }

  /** An OK answer sets exactly five outputs, in source order, the last one
      the report link built from the audit id. */
  lemma SuccessSetsFiveOutputs(env: Env)
    requires Classify(env).Published?
    ensures var r := Classify(env).result;
      OfKind(Expected(env), OutputKind) ==
        [ SetOutput("passed", Flag(r.passed)),
          SetOutput("grade", Str(r.grade)),
          SetOutput("score", Str(r.score)),
          SetOutput("vulnerabilities", Str(r.vulnerabilitiesCount)),
          SetOutput("report-url", Str(ReportBase + r.auditId)) ]
  {
    Outputs(env);
  }

  /** On an OK answer the summary block, whose "Min Required" line shows the
      grade before upper-casing, is logged after the outputs and before the
      verdict, and only the final effect can warn or fail. */
  lemma SummaryPrecedesVerdict(env: Env)
    requires Classify(env).Published?
    ensures var t, r := Expected(env), Classify(env).result;
      && |t| == 19
      && t[3..8] == PublishedOutputs(r)
      && t[8..18] == SummaryBlock(r, if env.minGrade == "" then "C" else env.minGrade)
      && t[15] == Info("  Min Required: " + (if env.minGrade == "" then "C" else env.minGrade))
      && forall i :: 0 <= i < 18 ==> KindOf(t[i]) != FailedKind && KindOf(t[i]) != WarningKind
  {
    var t, r := Expected(env), Classify(env).result;
    var outputs, summary := PublishedOutputs(r), SummaryBlock(r, ResolveMinGrade(env.minGrade));
    assert t == Preamble(env) + outputs + summary + [VerdictEffect(r.message, Classify(env).verdict)];
    assert t[3..8] == outputs;
    assert t[8..18] == summary;
  }

  /** The verdict: a success line when passed; otherwise the failure message
      fails the step when the policy is on and is only a warning when off. */
  lemma VerdictMapping(env: Env)
    requires Classify(env).Published?
    ensures var t, r := Expected(env), Classify(env).result;
      && t != []
      && t[|t| - 1] ==
        (if r.passed then Info(PassMark + r.message)
         else if env.failOnError != "false" then SetFailed(FailMark + r.message)
         else Warning(FailMark + r.message))
      && StatusOf(t) ==
        (if r.passed then Succeeded
         else if env.failOnError != "false" then Failed
         else SucceededWithWarnings)
  {
    var r, v := Classify(env).result, Classify(env).verdict;
    assert Expected(env) == Preamble(env) + PublishedOutputs(r) + SummaryBlock(r, ResolveMinGrade(env.minGrade))
                            + [VerdictEffect(r.message, v)];
    Failures(env);
    Warnings(env);
  }

  // ---- The run as a whole ----

  /** The step status follows the outcome: it fails on every error, on a 403
      and on a blocking verdict, warns on a non-blocking negative verdict,
      and succeeds on a positive one. */
  lemma StatusFollowsOutcome(env: Env)
    ensures StatusOf(Expected(env)) ==
      match Classify(env)
      case Published(_, Passed) => Succeeded
      case Published(_, Warned) => SucceededWithWarnings
      case _ => Failed
  {
    Failures(env);
    Warnings(env);
  }

  /** Every run calls setFailed at most once and never both warns and
      fails. */
  lemma AtMostOneFailure(env: Env)
    ensures |OfKind(Expected(env), FailedKind)| <= 1
    ensures |OfKind(Expected(env), WarningKind)| <= 1
    ensures OfKind(Expected(env), FailedKind) == [] || OfKind(Expected(env), WarningKind) == []
  {
    Failures(env);
    Warnings(env);
  }

  /** A passing scan: the step succeeds and logs the service's message. */
  lemma PassingScanExample(env: Env)
    requires Loaded(env) && env.reply.Answered? && env.reply.status == 200 && env.reply.body.Json?
    requires env.reply.body.record.passed && env.reply.body.record.message == "All checks passed"
    ensures var t := Expected(env); t[|t| - 1] == Info(PassMark + "All checks passed") && StatusOf(t) == Succeeded
  {
    PassingScanConcludes(env);
  }

  /** A successful reply whose body reports a pass ends the run with the
      passing line and no failure. */
  lemma PassingScanConcludes(env: Env)
    requires Loaded(env) && env.reply.Answered? && IsOk(env.reply.status) && env.reply.body.Json?
    requires env.reply.body.record.passed
    ensures var t := Expected(env);
      t != [] && t[|t| - 1] == Info(PassMark + env.reply.body.record.message) && StatusOf(t) == Succeeded
  {
    assert Classify(env) == Published(env.reply.body.record, Passed);
    VerdictMapping(env);
  }

  /** The same scan publishes its outputs and the link to its report. */
  lemma PassingScanOutputsExample(env: Env)
    requires Loaded(env) && env.reply.Answered? && env.reply.status == 200 && env.reply.body.Json?
    requires var r := env.reply.body.record;
      r.passed && r.grade == "A" && r.score == "95" && r.vulnerabilitiesCount == "0" && r.auditId == "abc123"
    ensures OfKind(Expected(env), OutputKind) ==
      [ SetOutput("passed", Flag(true)), SetOutput("grade", Str("A")), SetOutput("score", Str("95")),
        SetOutput("vulnerabilities", Str("0")),
        SetOutput("report-url", Str(ReportBase + "abc123")) ]
  {
    assert Classify(env) == Published(env.reply.body.record, Passed);
    Outputs(env);
  }
}
