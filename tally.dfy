/** Which effects of each kind a run produces, by outcome: the bookkeeping
    that the properties of run() are proved from. */
module Tally {
  import opened Effects
  import opened Environment
  import opened Action

  /** Both required inputs are supplied and the document exists and can be
      read, so the request goes out. */
  predicate Loaded(env: Env)
  {
    env.apiKey != "" && env.openapiPath != "" && env.fileExists && env.readError.None?
  }

  lemma LoadedIffNoConfigError(env: Env)
    ensures Loaded(env) <==> !Classify(env).ConfigError?
  {
  }

  lemma PreambleKinds(env: Env, k: Kind)
    ensures OfKind(Preamble(env), k) ==
      if k == PostKind && Loaded(env) then [Post(ScanUrl, RequestFor(env))]
      else if k == InfoKind && Loaded(env) then Preamble(env)[..2]
      else []
  {
    var p := Preamble(env);
    if Loaded(env) {
      assert p == p[..2] + [p[2]];
      OfKindAppend(p[..2], [p[2]], k);
      assert AllOfKind(p[..2], InfoKind);
      OfKindUniform(p[..2], InfoKind, k);
      OfKindUniform([p[2]], PostKind, k);
    }
  }

  lemma ThreeSegments(a: seq<Effect>, b: seq<Effect>, c: seq<Effect>, k: Kind)
    requires AllOfKind(a, OutputKind) && AllOfKind(b, InfoKind)
    ensures OfKind(a + b + c, k) ==
      (if k == OutputKind then a else []) + (if k == InfoKind then b else []) + OfKind(c, k)
  {
    OfKindAppend(a + b, c, k);
    OfKindAppend(a, b, k);
    OfKindUniform(a, OutputKind, k);
    OfKindUniform(b, InfoKind, k);
  }

  lemma VerdictKinds(message: string, v: Verdict, k: Kind)
    ensures OfKind([VerdictEffect(message, v)], k) ==
      if k == KindOf(VerdictEffect(message, v)) then [VerdictEffect(message, v)] else []
  {
    assert [VerdictEffect(message, v)][1..] == [];
  }

  lemma PublishedKinds(env: Env, r: ScanBody, v: Verdict, k: Kind)
    ensures OfKind(Conclusion(env, Published(r, v)), k) ==
      (if k == OutputKind then PublishedOutputs(r) else [])
      + (if k == InfoKind then SummaryBlock(r, ResolveMinGrade(env.minGrade)) else [])
      + (if k == KindOf(VerdictEffect(r.message, v)) then [VerdictEffect(r.message, v)] else [])
  {
    var outputs, summary, last := PublishedOutputs(r), SummaryBlock(r, ResolveMinGrade(env.minGrade)), [VerdictEffect(r.message, v)];
    assert Conclusion(env, Published(r, v)) == outputs + summary + last;
    assert AllOfKind(outputs, OutputKind);
    assert AllOfKind(summary, InfoKind);
    ThreeSegments(outputs, summary, last, k);
    VerdictKinds(r.message, v, k);
  }

  lemma ErrorKinds(env: Env, o: Outcome, k: Kind)
    requires !o.Published?
    ensures OfKind(Conclusion(env, o), k) == if k == FailedKind then Conclusion(env, o) else []
  {
    OfKindUniform(Conclusion(env, o), FailedKind, k);
  }

  lemma Split(env: Env, k: Kind)
    ensures OfKind(Expected(env), k) == OfKind(Preamble(env), k) + OfKind(Conclusion(env, Classify(env)), k)
  {
    OfKindAppend(Preamble(env), Conclusion(env, Classify(env)), k);
  }

  /** The effects of kind `k` in the conclusion of outcome `o`. */
  lemma ConclusionKinds(env: Env, o: Outcome, k: Kind)
    ensures OfKind(Conclusion(env, o), k) ==
      match o
      case Published(r, v) =>
        (if k == OutputKind then PublishedOutputs(r) else [])
        + (if k == InfoKind then SummaryBlock(r, ResolveMinGrade(env.minGrade)) else [])
        + (if k == KindOf(VerdictEffect(r.message, v)) then [VerdictEffect(r.message, v)] else [])
      case _ => if k == FailedKind then Conclusion(env, o) else []
  {
    match o
    case Published(r, v) => PublishedKinds(env, r, v, k);
    case _ => ErrorKinds(env, o, k);
  }

  /** No conclusion sends a request. */
  lemma ConclusionSends(env: Env, o: Outcome)
    ensures OfKind(Conclusion(env, o), PostKind) == []
  {
    ConclusionKinds(env, o, PostKind);
  }

  /** Only a published conclusion sets outputs. */
  lemma ConclusionOutputs(env: Env, o: Outcome)
    ensures OfKind(Conclusion(env, o), OutputKind) == if o.Published? then PublishedOutputs(o.result) else []
  {
    ConclusionKinds(env, o, OutputKind);
  }

  /** The request is issued once, exactly when the document was loaded. */
  lemma Requests(env: Env)
    ensures OfKind(Expected(env), PostKind) == if Loaded(env) then [Post(ScanUrl, RequestFor(env))] else []
  {
    Split(env, PostKind);
    PreambleKinds(env, PostKind);
    ConclusionSends(env, Classify(env));
  }

  /** Outputs come only from a published verdict. */
  lemma Outputs(env: Env)
    ensures OfKind(Expected(env), OutputKind) ==
      if Classify(env).Published? then PublishedOutputs(Classify(env).result) else []
  {
    Split(env, OutputKind);
    PreambleKinds(env, OutputKind);
    ConclusionOutputs(env, Classify(env));
  }

  /** The setFailed calls of a run with outcome `o`. */
  function FailuresOf(env: Env, o: Outcome): seq<Effect>
  {
    match o
    case Published(r, Blocked) => [SetFailed(FailMark + r.message)]
    case Published(_, _) => []
    case _ => Conclusion(env, o)
  }

  lemma ConclusionFailures(env: Env, o: Outcome)
    ensures OfKind(Conclusion(env, o), FailedKind) == FailuresOf(env, o)
  {
    ConclusionKinds(env, o, FailedKind);
  }

  lemma Failures(env: Env)
    ensures OfKind(Expected(env), FailedKind) == FailuresOf(env, Classify(env))
  {
    Split(env, FailedKind);
    PreambleKinds(env, FailedKind);
    ConclusionFailures(env, Classify(env));
  }

  /** The warning calls of a run with outcome `o`. */
  function WarningsOf(o: Outcome): seq<Effect>
  {
    match o
    case Published(r, Warned) => [Warning(FailMark + r.message)]
    case _ => []
  }

  lemma ConclusionWarnings(env: Env, o: Outcome)
    ensures OfKind(Conclusion(env, o), WarningKind) == WarningsOf(o)
  {
    ConclusionKinds(env, o, WarningKind);
  }

  lemma Warnings(env: Env)
    ensures OfKind(Expected(env), WarningKind) == WarningsOf(Classify(env))
  {
    Split(env, WarningKind);
    PreambleKinds(env, WarningKind);
    ConclusionWarnings(env, Classify(env));
  }
}
