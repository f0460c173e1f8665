/** The observable behaviour of one run of the action: the ordered trace of
    calls it makes on @actions/core (setOutput, info, warning, setFailed) and
    the one HTTPS request it may send. */
module Effects {

  /** A value handed to core.setOutput: the boolean `passed`, or a string
      (the grade, and the score and counts as the service rendered them). */
  datatype OutputValue = Flag(b: bool) | Str(s: string)

  /** The JSON body of the scan request, with the credential sent in the
      X-API-KEY header. */
  datatype ScanRequest = ScanRequest(apiKey: string, openapiSpec: string, minGrade: string)

  datatype Effect =
    | Post(url: string, request: ScanRequest)      // the one fetch call
    | SetOutput(name: string, value: OutputValue)  // core.setOutput
    | Info(line: string)                           // core.info
    | Warning(line: string)                        // core.warning
    | SetFailed(message: string)                   // core.setFailed

  datatype Kind = PostKind | OutputKind | InfoKind | WarningKind | FailedKind

  function KindOf(e: Effect): Kind
  {
    match e
    case Post(_, _) => PostKind
    case SetOutput(_, _) => OutputKind
    case Info(_) => InfoKind
    case Warning(_) => WarningKind
    case SetFailed(_) => FailedKind
  }

  /** The effects of kind `k` in `t`, in the order they happened. */
  function OfKind(t: seq<Effect>, k: Kind): (s: seq<Effect>)
    ensures |s| <= |t|
  {
    if t == [] then []
    else (if KindOf(t[0]) == k then [t[0]] else []) + OfKind(t[1..], k)
  }

  lemma {:induction false} OfKindAppend(a: seq<Effect>, b: seq<Effect>, k: Kind)
    ensures OfKind(a + b, k) == OfKind(a, k) + OfKind(b, k)
  {
    if a != [] {
      var head := if KindOf(a[0]) == k then [a[0]] else [];
      assert (a + b)[0] == a[0];
      assert (a + b)[1..] == a[1..] + b;
      OfKindAppend(a[1..], b, k);
      calc {
        OfKind(a + b, k);
        head + OfKind(a[1..] + b, k);
        head + (OfKind(a[1..], k) + OfKind(b, k));
        (head + OfKind(a[1..], k)) + OfKind(b, k);
      }
    } else {
      assert a + b == b;
    }
  }

  predicate AllOfKind(t: seq<Effect>, k: Kind)
  {
    forall i :: 0 <= i < |t| ==> KindOf(t[i]) == k
  }

  /** Every effect selected is one of the trace's and has the kind asked for. */
  lemma {:induction false} OfKindSound(t: seq<Effect>, k: Kind)
    ensures forall e :: e in OfKind(t, k) ==> e in t && KindOf(e) == k
  {
    if t != [] {
      OfKindSound(t[1..], k);
      var head := if KindOf(t[0]) == k then [t[0]] else [];
      assert OfKind(t, k) == head + OfKind(t[1..], k);
      forall e | e in OfKind(t, k)
        ensures e in t && KindOf(e) == k
      {
        if e !in head {
          assert e in OfKind(t[1..], k);
          assert e in t[1..];
        }
      }
    }
  }

  /** Every effect of the kind asked for is selected. */
  lemma {:induction false} OfKindComplete(t: seq<Effect>, k: Kind, i: int)
    requires 0 <= i < |t| && KindOf(t[i]) == k
    ensures t[i] in OfKind(t, k)
  {
    if i > 0 {
      OfKindComplete(t[1..], k, i - 1);
      assert t[i] == t[1..][i - 1];
    }
  }

  /** Selecting from effects all of one kind keeps all of them, or none. */
  lemma {:induction false} OfKindUniform(t: seq<Effect>, j: Kind, k: Kind)
    requires AllOfKind(t, j)
    ensures OfKind(t, k) == if j == k then t else []
  {
    if t != [] {
      assert AllOfKind(t[1..], j);
      OfKindUniform(t[1..], j, k);
      if j == k {
        assert [t[0]] + t[1..] == t;
      }
    }
  }

  /** How the CI host reports the step once the run is over. */
  datatype StepStatus = Succeeded | SucceededWithWarnings | Failed

  function StatusOf(t: seq<Effect>): StepStatus
  {
    if OfKind(t, FailedKind) != [] then Failed
    else if OfKind(t, WarningKind) != [] then SucceededWithWarnings
    else Succeeded
  }

  /** The step fails exactly when some effect is a failure, and ends with
      warnings exactly when, failing none, some effect is a warning. */
  lemma StatusOfByEffects(t: seq<Effect>)
    ensures StatusOf(t) == Failed <==> exists i :: 0 <= i < |t| && t[i].SetFailed?
    ensures StatusOf(t) == SucceededWithWarnings <==>
      (forall i :: 0 <= i < |t| ==> !t[i].SetFailed?) && (exists i :: 0 <= i < |t| && t[i].Warning?)
  {
    OfKindSound(t, FailedKind);
    OfKindSound(t, WarningKind);
    if OfKind(t, FailedKind) != [] {
      assert OfKind(t, FailedKind)[0] in OfKind(t, FailedKind);
    }
    if OfKind(t, WarningKind) != [] {
      assert OfKind(t, WarningKind)[0] in OfKind(t, WarningKind);
    }
    forall i | 0 <= i < |t| && (t[i].SetFailed? || t[i].Warning?)
      ensures OfKind(t, KindOf(t[i])) != []
    {
      OfKindComplete(t, KindOf(t[i]), i);
    }
  }
}
