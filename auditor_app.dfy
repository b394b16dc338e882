/** The auditor agent (agents/auditor/app.py): turns a validated execution trace
    into the payload of the audit tool, reads the tool's report back into the
    response models, records its mood and waterdrops, and dispatches the
    orchestrator's `execute` calls. */
module AuditorApp {
  import opened Base
  import opened PyText
  import opened PyValue
  import opened AuditorTools
  import WaterMeter

  // ------------------------------------------------------------------
  // The request models
  // ------------------------------------------------------------------

  /** `StepResult`: one step of a pipeline run. */
  datatype StepResult = StepResult(agent: string, input: Json, output: Json, error: Option<string>)

  /** `ExecutionTrace`: the steps of a run; the model has no other field, so
      any "policies" sent with the steps are dropped by validation. */
  datatype ExecutionTrace = ExecutionTrace(steps: seq<StepResult>)

  /** The text a failed model validation is reduced to. */
  function ValidationError(model: string): Exc {
    PyExc("validation error for " + model)
  }

  /** The TypeError of `ExecutionTrace(**input_data)` when the input is not a
      mapping. */
  function NotAMapping(j: Json): Exc {
    PyExc("ExecutionTrace() argument after ** must be a mapping, not " + TypeName(j))
  }

  /** The text `float()` of an unconvertible value is reduced to. */
  const FloatConversionFailed := PyExc("could not convert to float")

  /** Validation of one step: a dictionary with an "agent" string, an "input"
      and an "output" of any type, and an "error" that is absent, None or a
      string; other keys are ignored. */
  function ParseStep(j: Json): Option<StepResult> {
    if !j.JObj? then None
    else
      var agent := Get(j, "agent", JNull);
      var error := Get(j, "error", JNull);
      if !agent.JStr? || !HasKey(j, "input") || !HasKey(j, "output") || !(error.JNull? || error.JStr?) then None
      else Some(StepResult(agent.s, Get(j, "input", JNull), Get(j, "output", JNull),
                           if error.JStr? then Some(error.s) else None))
  }

  /** Validation of the list of steps: every item must validate. */
  function ParseSteps(items: seq<Json>): (r: Option<seq<StepResult>>)
    decreases |items|
  {
    if |items| == 0 then Some([])
    else
      match ParseStep(items[0])
      case None => None
      case Some(s) =>
        match ParseSteps(items[1..])
        case None => None
        case Some(rest) => Some([s] + rest)
  }

  /** The steps validate exactly when each item does, and each one is the
      validation of its item. */
  lemma {:induction false} ParseStepsSpec(items: seq<Json>)
    ensures ParseSteps(items).Some? <==> forall k :: 0 <= k < |items| ==> ParseStep(items[k]).Some?
    ensures ParseSteps(items).Some? ==>
              |ParseSteps(items).value| == |items| &&
              forall k :: 0 <= k < |items| ==> ParseSteps(items).value[k] == ParseStep(items[k]).value
    decreases |items|
  {
    if |items| > 0 {
      ParseStepsSpec(items[1..]);
      assert forall k :: 1 <= k < |items| ==> items[k] == items[1..][k - 1];
    }
  }

  /** `ExecutionTrace(**input_data)`: the input must be a dictionary whose
      "steps" is a list of valid steps; every other key is ignored. */
  function ParseTrace(input: Json): Option<ExecutionTrace> {
    if !input.JObj? then None
    else
      var steps := Get(input, "steps", JNull);
      if !steps.JArr? then None
      else
        match ParseSteps(steps.items)
        case None => None
        case Some(ss) => Some(ExecutionTrace(ss))
  }

  /** A trace validates exactly when the input is a dictionary whose "steps" is
      a list of items that each validate, and then holds one step per item, in
      order; the rest of the input, its "policies" included, plays no part. */
  lemma ParseTraceSpec(input: Json)
    ensures ParseTrace(input).Some? <==>
              && input.JObj? && Get(input, "steps", JNull).JArr?
              && forall k :: 0 <= k < |Get(input, "steps", JNull).items| ==>
                   ParseStep(Get(input, "steps", JNull).items[k]).Some?
    ensures ParseTrace(input).Some? ==>
              var items := Get(input, "steps", JNull).items;
              && |ParseTrace(input).value.steps| == |items|
              && forall k :: 0 <= k < |items| ==> ParseTrace(input).value.steps[k] == ParseStep(items[k]).value
    ensures input.JObj? ==> ParseTrace(input) == ParseTrace(JObj([("steps", Get(input, "steps", JNull))]))
  {
    if input.JObj? && Get(input, "steps", JNull).JArr? {
      ParseStepsSpec(Get(input, "steps", JNull).items);
    }
  }

  // ------------------------------------------------------------------
  // The payload of the audit tool
  // ------------------------------------------------------------------

  /** The plain dictionary one step becomes. */
  function StepDict(s: StepResult): Json {
    JObj([("agent", JStr(s.agent)), ("input", s.input), ("output", s.output),
          ("error", if s.error.Some? then JStr(s.error.value) else JNull)])
  }

  function StepsPayload(steps: seq<StepResult>): seq<Json> {
    seq(|steps|, i requires 0 <= i < |steps| => StepDict(steps[i]))
  }

  /** A step's dictionary validates back to the same step, and holds the keys
      the audit tool asks of a step. */
  lemma StepDictRoundTrip(s: StepResult)
    ensures ParseStep(StepDict(s)) == Some(s)
    ensures StepOk(StepDict(s))
  {
    var d := StepDict(s);
    assert Lookup(d.members, "input") == Lookup(d.members[1..], "input");
    assert Lookup(d.members, "output") == Lookup(d.members[1..], "output") == Lookup(d.members[2..], "output");
    assert Lookup(d.members, "error") == Lookup(d.members[1..], "error") == Lookup(d.members[2..], "error")
           == Lookup(d.members[3..], "error");
  }

  /** The loop of `run_audit` that converts the steps to plain dictionaries, in order. */
  method BuildStepsPayload(steps: seq<StepResult>) returns (payload: seq<Json>)
    ensures payload == StepsPayload(steps)
    ensures forall i :: 0 <= i < |payload| ==> ParseStep(payload[i]) == Some(steps[i])
  {
    payload := [];
    for i := 0 to |steps|
      invariant |payload| == i
      invariant forall k :: 0 <= k < i ==> payload[k] == StepDict(steps[k])
    {
      payload := payload + [StepDict(steps[i])];
    }
    forall i | 0 <= i < |payload| ensures ParseStep(payload[i]) == Some(steps[i]) {
      StepDictRoundTrip(steps[i]);
    }
  }

  /** The trace `run_audit` hands the tool as written: `{"steps": steps_payload}`. */
  function AsWrittenToolTrace(steps: seq<StepResult>): Json {
    JObj([("steps", JArr(StepsPayload(steps)))])
  }

  /** The trace the tool needs: the steps and the per-agent policies. */
  function ToolTrace(steps: seq<StepResult>, policies: Json): Json {
    JObj([("steps", JArr(StepsPayload(steps))), ("policies", policies)])
  }

  /** The converted steps pass the tool's trace check exactly when there is one. */
  lemma StepsPayloadChecks(steps: seq<StepResult>, toolTrace: Json)
    requires toolTrace == AsWrittenToolTrace(steps) || exists p :: toolTrace == ToolTrace(steps, p)
    ensures toolTrace.JObj? && StepsOf(toolTrace) == JArr(StepsPayload(steps))
    ensures CheckTrace(toolTrace) == Pass <==> |steps| > 0
    ensures |steps| == 0 ==> CheckTrace(toolTrace) == Fail(StepsNotNonEmptyList)
  {
    forall i | 0 <= i < |steps| ensures StepOk(StepsPayload(steps)[i]) {
      StepDictRoundTrip(steps[i]);
    }
  }

  /** The tool's trace as written has no policies. */
  lemma AsWrittenTraceHasNoPolicies(steps: seq<StepResult>)
    ensures PoliciesOf(AsWrittenToolTrace(steps)) == JNull
  {
    var t := AsWrittenToolTrace(steps);
    assert Lookup(t.members, "policies") == Lookup(t.members[1..], "policies");
  }

  /** The tool's trace carries the policies it is given. */
  lemma ToolTraceCarriesPolicies(steps: seq<StepResult>, policies: Json)
    ensures PoliciesOf(ToolTrace(steps, policies)) == policies
  {
    var t := ToolTrace(steps, policies);
    assert Lookup(t.members, "policies") == Lookup(t.members[1..], "policies");
  }

  // ------------------------------------------------------------------
  // Reading the report back
  // ------------------------------------------------------------------

  /** The dictionary the tool returns for one detail; `floatText` stands for
      `repr()` of a float. */
  function DetailDict(d: AuditDetail, floatText: real -> string): Json {
    JObj([("agent", JStr(d.agent)), ("status", JStr(d.status)), ("comment", JStr(d.comment)),
          ("score", JFloat(d.score, floatText(d.score)))])
  }

  /** The dictionary the tool returns for a report, which is also what
      `model_dump()` makes of the response model. */
  function AuditDict(a: Audit, floatText: real -> string): Json {
    JObj([("status", JStr(a.status)), ("summary", JStr(a.summary)),
          ("details", JArr(DetailDicts(a.details, floatText)))])
  }

  function DetailDicts(ds: seq<AuditDetail>, floatText: real -> string): (r: seq<Json>)
    ensures |r| == |ds|
  {
    seq(|ds|, i requires 0 <= i < |ds| => DetailDict(ds[i], floatText))
  }

  /** `AuditFeedback(...)` from one item of the reply: the `.get`s with their
      defaults, then `float()` of the score, then validation of the strings. */
  function ReadDetail(d: Json, floatOfStr: string -> Option<real>): Result<AuditDetail, Exc> {
    if !d.JObj? then Err(NoGetMethod(d))
    else
      var agent := Get(d, "agent", JStr("unknown"));
      var status := Get(d, "status", JStr("warning"));
      var comment := Get(d, "comment", JStr(""));
      match ToFloat(Get(d, "score", JFloat(0.0, "0.0")), floatOfStr)
      case None => Err(FloatConversionFailed)
      case Some(score) =>
        if agent.JStr? && status.JStr? && comment.JStr? then Ok(AuditDetail(agent.s, status.s, comment.s, score))
        else Err(ValidationError("AuditFeedback"))
  }

  /** The loop over `details_list`, stopping at the first item that fails. */
  function ReadDetails(items: seq<Json>, floatOfStr: string -> Option<real>): Result<seq<AuditDetail>, Exc>
    decreases |items|
  {
    if |items| == 0 then Ok([])
    else
      match ReadDetails(items[..|items| - 1], floatOfStr)
      case Err(e) => Err(e)
      case Ok(ds) =>
        match ReadDetail(items[|items| - 1], floatOfStr)
        case Err(e) => Err(e)
        case Ok(d) => Ok(ds + [d])
  }

  /** `AuditResult(...)` from the tool's report, with the defaults "partial",
      "n/a" and no details for missing keys. */
  function ReadAudit(j: Json, floatOfStr: string -> Option<real>): Result<Audit, Exc> {
    if !j.JObj? then Err(NoGetMethod(j))
    else
      var status := Get(j, "status", JStr("partial"));
      var summary := Get(j, "summary", JStr("n/a"));
      var detailsList := Get(j, "details", JArr([]));
      match IterItems(detailsList)
      case None => Err(NotIterable(detailsList))
      case Some(items) =>
        match ReadDetails(items, floatOfStr)
        case Err(e) => Err(e)
        case Ok(ds) =>
          if status.JStr? && summary.JStr? then Ok(Audit(status.s, summary.s, ds))
          else Err(ValidationError("AuditResult"))
  }

  /** Once a prefix of the items fails, the loop fails with that exception. */
  lemma {:induction false} ReadDetailsFailureStays(items: seq<Json>, n: nat, floatOfStr: string -> Option<real>)
    requires n <= |items|
    requires ReadDetails(items[..n], floatOfStr).Err?
    ensures ReadDetails(items, floatOfStr) == ReadDetails(items[..n], floatOfStr)
    decreases |items| - n
  {
    if n < |items| {
      assert items[..n + 1][..n] == items[..n];
      ReadDetailsFailureStays(items, n + 1, floatOfStr);
    } else {
      assert items[..n] == items;
    }
  }

  /** The reading of the report in `run_audit`: the `.get`s, then the loop
      appending one `AuditFeedback` per item to `details_models`, then the
      `AuditResult`. */
  method ReadResult(llmResult: Json, floatOfStr: string -> Option<real>) returns (r: Result<Audit, Exc>)
    ensures r == ReadAudit(llmResult, floatOfStr)
  {
    if !llmResult.JObj? {
      return Err(NoGetMethod(llmResult));
    }
    var status := Get(llmResult, "status", JStr("partial"));
    var summary := Get(llmResult, "summary", JStr("n/a"));
    var detailsList := Get(llmResult, "details", JArr([]));
    var iterated := IterItems(detailsList);
    if iterated.None? {
      return Err(NotIterable(detailsList));
    }
    var items := iterated.value;
    var detailsModels: seq<AuditDetail> := [];
    for i := 0 to |items|
      invariant ReadDetails(items[..i], floatOfStr) == Ok(detailsModels)
    {
      assert items[..i + 1][..i] == items[..i];
      var d := ReadDetail(items[i], floatOfStr);
      if d.Err? {
        ReadDetailsFailureStays(items, i + 1, floatOfStr);
        return Err(d.error);
      }
      detailsModels := detailsModels + [d.value];
    }
    assert items[..|items|] == items;
    if !status.JStr? || !summary.JStr? {
      return Err(ValidationError("AuditResult"));
    }
    return Ok(Audit(status.s, summary.s, detailsModels));
  }

  lemma ReadDetailOfDict(d: AuditDetail, floatText: real -> string, floatOfStr: string -> Option<real>)
    ensures ReadDetail(DetailDict(d, floatText), floatOfStr) == Ok(d)
  {
    var j := DetailDict(d, floatText);
    assert Lookup(j.members, "status") == Lookup(j.members[1..], "status");
    assert Lookup(j.members, "comment") == Lookup(j.members[1..], "comment") == Lookup(j.members[2..], "comment");
    assert Lookup(j.members, "score") == Lookup(j.members[1..], "score") == Lookup(j.members[2..], "score")
           == Lookup(j.members[3..], "score");
  }

  lemma {:induction false} ReadDetailsOfDicts(ds: seq<AuditDetail>, floatText: real -> string,
                                              floatOfStr: string -> Option<real>)
    ensures ReadDetails(DetailDicts(ds, floatText), floatOfStr) == Ok(ds)
    decreases |ds|
  {
    var items := DetailDicts(ds, floatText);
    if |ds| > 0 {
      var n := |ds|;
      ReadDetailOfDict(ds[n - 1], floatText, floatOfStr);
      ReadDetailsOfDicts(ds[..n - 1], floatText, floatOfStr);
      assert items[n - 1] == DetailDict(ds[n - 1], floatText);
      assert items[..n - 1] == DetailDicts(ds[..n - 1], floatText);
      assert ds == ds[..n - 1] + [ds[n - 1]];
    }
  }

  /** An item without any of the four keys reads as the defaults: agent
      "unknown", status "warning", an empty comment and a score of 0.0. */
  lemma ReadDetailDefaults(d: Json, floatOfStr: string -> Option<real>)
    requires d.JObj?
    requires !HasKey(d, "agent") && !HasKey(d, "status") && !HasKey(d, "comment") && !HasKey(d, "score")
    ensures ReadDetail(d, floatOfStr) == Ok(AuditDetail("unknown", "warning", "", 0.0))
  {
  }

  /** Reading a report the tool returns gives that report back unchanged: the
      defaults of the `.get`s never apply to it. */
  lemma ReadAuditRoundTrip(a: Audit, floatText: real -> string, floatOfStr: string -> Option<real>)
    ensures ReadAudit(AuditDict(a, floatText), floatOfStr) == Ok(a)
  {
    var items := DetailDicts(a.details, floatText);
    var j := AuditDict(a, floatText);
    assert j.members == [("status", JStr(a.status)), ("summary", JStr(a.summary)), ("details", JArr(items))];
    assert Get(j, "status", JStr("partial")) == JStr(a.status);
    assert Lookup(j.members, "summary") == Lookup(j.members[1..], "summary");
    assert Get(j, "summary", JStr("n/a")) == JStr(a.summary);
    assert Lookup(j.members, "details") == Lookup(j.members[1..], "details") == Lookup(j.members[2..], "details");
    assert Get(j, "details", JArr([])) == JArr(items);
    assert IterItems(JArr(items)) == Some(items);
    ReadDetailsOfDicts(a.details, floatText, floatOfStr);
    assert ReadDetails(items, floatOfStr) == Ok(a.details);
  }

  // ------------------------------------------------------------------
  // run_audit
  // ------------------------------------------------------------------

  const MissingKeyDetail := "LLM API key for mistral not found, cannot perform audit"

  /** `float(llm_water or 2.0)`: the tool's cost, or 2.0 when it is zero. */
  function WaterUsed(cost: real): (w: real)
    ensures cost != 0.0 ==> w == cost
    ensures w != 0.0
  {
    if cost == 0.0 then 2.0 else cost
  }

  /** The 500 every failure inside the `try` of `run_audit` becomes. */
  function AuditFailed(e: Exc): Exc {
    HttpExc(500, "LLM audit failed: " + ExcText(e))
  }

  /** The `try` block of `run_audit` on the tool's trace: the tool's report
      read back, its summary marked "[LLM] ", and the waterdrops to charge. */
  function TryAudit(toolTrace: Json, apiKey: Json,
                    chat: (Json, Json) -> Result<string, CallFailure>,
                    loads: string -> Result<Json, string>,
                    floatOfStr: string -> Option<real>,
                    floatText: real -> string): Result<(Audit, real), Exc> {
    match AuditOutcome(toolTrace, apiKey, chat, loads, floatOfStr)
    case Err(e) => Err(e)
    case Ok(out) =>
      match ReadAudit(AuditDict(out.0, floatText), floatOfStr)
      case Err(e) => Err(e)
      case Ok(read) => Ok((Audit(read.status, "[LLM] " + read.summary, read.details), WaterUsed(out.1)))
  }

  /** The `try` block answers the tool's report unchanged but for the "[LLM] "
      mark, and the tool's cost; it fails exactly when the tool does. */
  lemma TryAuditSpec(toolTrace: Json, apiKey: Json,
                     chat: (Json, Json) -> Result<string, CallFailure>,
                     loads: string -> Result<Json, string>,
                     floatOfStr: string -> Option<real>,
                     floatText: real -> string)
    ensures AuditOutcome(toolTrace, apiKey, chat, loads, floatOfStr).Err? ==>
              TryAudit(toolTrace, apiKey, chat, loads, floatOfStr, floatText) ==
              Err(AuditOutcome(toolTrace, apiKey, chat, loads, floatOfStr).error)
    ensures AuditOutcome(toolTrace, apiKey, chat, loads, floatOfStr).Ok? ==>
              var out := AuditOutcome(toolTrace, apiKey, chat, loads, floatOfStr).value;
              TryAudit(toolTrace, apiKey, chat, loads, floatOfStr, floatText) ==
              Ok((Audit(out.0.status, "[LLM] " + out.0.summary, out.0.details), WaterUsed(out.1)))
  {
    if AuditOutcome(toolTrace, apiKey, chat, loads, floatOfStr).Ok? {
      ReadAuditRoundTrip(AuditOutcome(toolTrace, apiKey, chat, loads, floatOfStr).value.0, floatText, floatOfStr);
    }
  }

  /** `run_audit` on a given tool trace: the key check, then the `try` block. */
  function RunAuditOn(toolTrace: Json, licenseKeys: Json,
                      chat: (Json, Json) -> Result<string, CallFailure>,
                      loads: string -> Result<Json, string>,
                      floatOfStr: string -> Option<real>,
                      floatText: real -> string): Result<(Audit, real), Exc> {
    if !licenseKeys.JObj? then Err(NoGetMethod(licenseKeys))
    else
      var apiKey := Get(licenseKeys, "mistral", JNull);
      if !Truthy(apiKey) then Err(HttpExc(500, MissingKeyDetail))
      else
        match TryAudit(toolTrace, apiKey, chat, loads, floatOfStr, floatText)
        case Err(e) => Err(AuditFailed(e))
        case Ok(v) => Ok(v)
  }

  /** Whatever trace it hands the tool, `run_audit` fails with `.get` on
      license keys that are not a dictionary, with the 500 for a missing key
      before any audit, or with the 500 of a failed audit; a response is an
      audit within the schema of a trace the tool accepted, its summary marked
      "[LLM] ", charged the tool's cost of at least 6.5 waterdrops. */
  lemma RunAuditOnSpec(toolTrace: Json, licenseKeys: Json,
                       chat: (Json, Json) -> Result<string, CallFailure>,
                       loads: string -> Result<Json, string>,
                       floatOfStr: string -> Option<real>,
                       floatText: real -> string)
    ensures var r := RunAuditOn(toolTrace, licenseKeys, chat, loads, floatOfStr, floatText);
            && (!licenseKeys.JObj? ==> r == Err(NoGetMethod(licenseKeys)))
            && (licenseKeys.JObj? && !Truthy(Get(licenseKeys, "mistral", JNull)) ==> r == Err(HttpExc(500, MissingKeyDetail)))
            && (r.Err? && licenseKeys.JObj? ==> r.error.HttpExc? && r.error.status == 500)
            && (r.Ok? ==>
                  && WellFormedTrace(toolTrace) && PoliciesOk(toolTrace)
                  && "[LLM] " <= r.value.0.summary
                  && r.value.0.status in GlobalStatuses && |r.value.0.details| >= 1
                  && r.value.1 == AuditCost(|StepsOf(toolTrace).items|) && r.value.1 >= 6.5)
  {
    var r := RunAuditOn(toolTrace, licenseKeys, chat, loads, floatOfStr, floatText);
    if r.Ok? {
      var key := Get(licenseKeys, "mistral", JNull);
      AuditOutcomeSpec(toolTrace, key, chat, loads, floatOfStr);
      TryAuditSpec(toolTrace, key, chat, loads, floatOfStr, floatText);
    }
  }

  /** `run_audit` as written: the tool receives the steps only. */
  function RunAuditAsWritten(steps: seq<StepResult>, licenseKeys: Json,
                             chat: (Json, Json) -> Result<string, CallFailure>,
                             loads: string -> Result<Json, string>,
                             floatOfStr: string -> Option<real>,
                             floatText: real -> string): Result<(Audit, real), Exc> {
    RunAuditOn(AsWrittenToolTrace(steps), licenseKeys, chat, loads, floatOfStr, floatText)
  }

  /** As written, no audit ever succeeds: the tool insists on policies and
      `run_audit` sends none, so with a key every call fails with the 500 of
      the policy refusal (or of the empty steps), before the model is asked. */
  lemma RunAuditAsWrittenNeverSucceeds(steps: seq<StepResult>, licenseKeys: Json,
                                       chat: (Json, Json) -> Result<string, CallFailure>,
                                       loads: string -> Result<Json, string>,
                                       floatOfStr: string -> Option<real>,
                                       floatText: real -> string)
    ensures RunAuditAsWritten(steps, licenseKeys, chat, loads, floatOfStr, floatText).Err?
    ensures licenseKeys.JObj? && Truthy(Get(licenseKeys, "mistral", JNull)) ==>
              RunAuditAsWritten(steps, licenseKeys, chat, loads, floatOfStr, floatText) ==
              Err(AuditFailed(PyExc(Message(if |steps| == 0 then StepsNotNonEmptyList else PoliciesNotNonEmptyDict))))
  {
    var t := AsWrittenToolTrace(steps);
    StepsPayloadChecks(steps, t);
    if |steps| > 0 {
      AsWrittenTraceHasNoPolicies(steps);
      CheckPoliciesOrder(t);
    }
    if licenseKeys.JObj? && Truthy(Get(licenseKeys, "mistral", JNull)) {
      AuditOutcomeSpec(t, Get(licenseKeys, "mistral", JNull), chat, loads, floatOfStr);
    }
  }

  /** `run_audit` corrected: the per-agent policies are handed to the tool next
      to the steps. */
  function RunAuditWithPolicies(trace: ExecutionTrace, policies: Json, licenseKeys: Json,
                                chat: (Json, Json) -> Result<string, CallFailure>,
                                loads: string -> Result<Json, string>,
                                floatOfStr: string -> Option<real>,
                                floatText: real -> string): Result<(Audit, real), Exc> {
    RunAuditOn(ToolTrace(trace.steps, policies), licenseKeys, chat, loads, floatOfStr, floatText)
  }

  /** With the policies forwarded, an audit of valid steps and valid policies
      reaches the model, and when the model's reply coerces, the response is the
      tool's report with its summary marked "[LLM] ", charged the tool's cost. */
  lemma RunAuditReachesModel(trace: ExecutionTrace, policies: Json, licenseKeys: Json,
                             chat: (Json, Json) -> Result<string, CallFailure>,
                             loads: string -> Result<Json, string>,
                             floatOfStr: string -> Option<real>,
                             floatText: real -> string)
    requires WellFormedTrace(ToolTrace(trace.steps, policies)) && PoliciesOk(ToolTrace(trace.steps, policies))
    requires licenseKeys.JObj?
    requires var key := Get(licenseKeys, "mistral", JNull); key.JStr? && key.s != ""
    requires AuditOutcome(ToolTrace(trace.steps, policies), Get(licenseKeys, "mistral", JNull), chat, loads, floatOfStr).Ok?
    ensures var a := AuditOutcome(ToolTrace(trace.steps, policies), Get(licenseKeys, "mistral", JNull),
                                  chat, loads, floatOfStr).value.0;
            RunAuditWithPolicies(trace, policies, licenseKeys, chat, loads, floatOfStr, floatText) ==
            Ok((Audit(a.status, "[LLM] " + a.summary, a.details), AuditCost(|trace.steps|)))
  {
    var t := ToolTrace(trace.steps, policies);
    var key := Get(licenseKeys, "mistral", JNull);
    StepsPayloadChecks(trace.steps, t);
    AuditOutcomeSpec(t, key, chat, loads, floatOfStr);
    TryAuditSpec(t, key, chat, loads, floatOfStr, floatText);
    var out := AuditOutcome(t, key, chat, loads, floatOfStr).value;
    assert out.1 == AuditCost(|trace.steps|);
    assert Truthy(key);
    var tried := TryAudit(t, key, chat, loads, floatOfStr, floatText);
    assert tried.Ok?;
    assert RunAuditOn(t, licenseKeys, chat, loads, floatOfStr, floatText) == tried;
  }

  // ------------------------------------------------------------------
  // The mood
  // ------------------------------------------------------------------

  /** The mood without a mood.json file. */
  const DefaultMood: seq<(string, Json)> := [("current_mood", JStr("neutral")), ("last_check", JNull)]

  /** The mood after an audit: "active", with the audit's summary as last check. */
  function MoodAfterAudit(mood: seq<(string, Json)>, summary: string): seq<(string, Json)> {
    SetKey(SetKey(mood, "current_mood", JStr("active")), "last_check", JStr(summary))
  }

  /** After an audit the mood is "active" and its last check is the summary;
      every other entry is untouched. */
  lemma MoodAfterAuditSpec(mood: seq<(string, Json)>, summary: string)
    ensures Lookup(MoodAfterAudit(mood, summary), "current_mood") == Some(JStr("active"))
    ensures Lookup(MoodAfterAudit(mood, summary), "last_check") == Some(JStr(summary))
    ensures forall key :: key != "current_mood" && key != "last_check" ==>
              Lookup(MoodAfterAudit(mood, summary), key) == Lookup(mood, key)
  {
    SetKeySpec(mood, "current_mood", JStr("active"));
    SetKeySpec(SetKey(mood, "current_mood", JStr("active")), "last_check", JStr(summary));
  }

  // ------------------------------------------------------------------
  // execute
  // ------------------------------------------------------------------

  /** What `execute` answers: the report as a dictionary for "audit_trace";
      its failures are not wrapped, so an unknown capability stays a 400. */
  function Execution(request: Json, licenseKeys: Json,
                     chat: (Json, Json) -> Result<string, CallFailure>,
                     loads: string -> Result<Json, string>,
                     floatOfStr: string -> Option<real>,
                     floatText: real -> string): Result<Json, Exc> {
    if !request.JObj? then Err(NoGetMethod(request))
    else
      var capability := Get(request, "capability", JNull);
      if capability != JStr("audit_trace") then Err(UnknownCapability(capability))
      else
        var input := Get(request, "input", JObj([]));
        if !input.JObj? then Err(NotAMapping(input))
        else
          match ParseTrace(input)
          case None => Err(ValidationError("ExecutionTrace"))
          case Some(trace) =>
            match RunAuditAsWritten(trace.steps, licenseKeys, chat, loads, floatOfStr, floatText)
            case Err(e) => Err(e)
            case Ok(out) => Ok(AuditDict(out.0, floatText))
  }

  /** Unlike the other agents, the auditor's `execute` lets its errors through:
      an unknown capability is the bare 400, an input that is not a mapping the
      TypeError of `**`, and an invalid trace the validation error. An audit
      request with a valid trace gets the 500 for a missing key, or, with a key, the 500 of the tool's refusal: as written, `execute`
      never answers with a report. */
  lemma ExecutionSpec(request: Json, licenseKeys: Json,
                      chat: (Json, Json) -> Result<string, CallFailure>,
                      loads: string -> Result<Json, string>,
                      floatOfStr: string -> Option<real>,
                      floatText: real -> string)
    ensures var r := Execution(request, licenseKeys, chat, loads, floatOfStr, floatText);
            && r.Err?
            && (request.JObj? && Get(request, "capability", JNull) != JStr("audit_trace") ==>
                  r == Err(UnknownCapability(Get(request, "capability", JNull))))
            && ((request.JObj? && Get(request, "capability", JNull) == JStr("audit_trace") &&
                 !Get(request, "input", JObj([])).JObj?) ==> r == Err(NotAMapping(Get(request, "input", JObj([])))))
            && ((request.JObj? && Get(request, "capability", JNull) == JStr("audit_trace") &&
                 Get(request, "input", JObj([])).JObj? &&
                 ParseTrace(Get(request, "input", JObj([]))).None?) ==> r == Err(ValidationError("ExecutionTrace")))
            && ((request.JObj? && Get(request, "capability", JNull) == JStr("audit_trace") &&
                 ParseTrace(Get(request, "input", JObj([]))).Some? && licenseKeys.JObj?) ==>
                  r.error.HttpExc? && r.error.status == 500)
  {
    if request.JObj? && Get(request, "capability", JNull) == JStr("audit_trace") &&
       ParseTrace(Get(request, "input", JObj([]))).Some? {
      var trace := ParseTrace(Get(request, "input", JObj([]))).value;
      RunAuditAsWrittenNeverSucceeds(trace.steps, licenseKeys, chat, loads, floatOfStr, floatText);
      RunAuditOnSpec(AsWrittenToolTrace(trace.steps), licenseKeys, chat, loads, floatOfStr, floatText);
    }
  }

  /** The auditor's state: its license keys, its mood and its waterdrop meter. */
  class AuditorAgent {
    const licenseKeys: Json
    var mood: seq<(string, Json)>
    const meter: WaterMeter.Meter

    /** Loading the module: the license keys ({} without the file), the mood
        (the default without the file) and the meter, loaded from its file. */
    constructor (licenseFile: Option<Json>, moodFile: Option<seq<(string, Json)>>, counter: WaterMeter.CounterFile)
      ensures licenseKeys == (if licenseFile.Some? then licenseFile.value else JObj([]))
      ensures mood == (if moodFile.Some? then moodFile.value else DefaultMood)
      ensures fresh(meter)
      ensures meter.State() == WaterMeter.MeterState(Some(WaterMeter.StoredTotal(counter)), counter)
    {
      licenseKeys := if licenseFile.Some? then licenseFile.value else JObj([]);
      mood := if moodFile.Some? then moodFile.value else DefaultMood;
      var m := new WaterMeter.Meter(counter);
      var _ := m.Load();
      meter := m;
    }

    /** `run_audit(trace)`: the response of `RunAuditAsWritten`; on success the
        mood would be updated and the waterdrops used added to the meter. As
        written the tool is never given policies, so every call fails and
        neither the mood nor the meter changes. */
    method RunAudit(trace: ExecutionTrace,
                    chat: (Json, Json) -> Result<string, CallFailure>,
                    loads: string -> Result<Json, string>,
                    floatOfStr: string -> Option<real>,
                    floatText: real -> string) returns (r: Result<Audit, Exc>)
      modifies this, meter
      ensures match RunAuditAsWritten(trace.steps, licenseKeys, chat, loads, floatOfStr, floatText)
              case Ok(out) =>
                && r == Ok(out.0)
                && mood == MoodAfterAudit(old(mood), out.0.summary)
                && meter.State() == WaterMeter.IncrementStep(old(meter.State()), out.1)
              case Err(e) =>
                && r == Err(e)
                && mood == old(mood)
                && meter.State() == old(meter.State())
      ensures r.Err? && mood == old(mood) && meter.State() == old(meter.State())
    {
      var stepsPayload := BuildStepsPayload(trace.steps);
      if !licenseKeys.JObj? {
        return Err(NoGetMethod(licenseKeys));
      }
      var apiKey := Get(licenseKeys, "mistral", JNull);
      if !Truthy(apiKey) {
        return Err(HttpExc(500, MissingKeyDetail));
      }
      var toolResult := AuditTrace(JObj([("steps", JArr(stepsPayload))]), apiKey, chat, loads, floatOfStr);
      if toolResult.Err? {
        return Err(AuditFailed(toolResult.error));
      }
      var llmResult := AuditDict(toolResult.value.0, floatText);
      var llmWater := toolResult.value.1;
      var read := ReadResult(llmResult, floatOfStr);
      if read.Err? {
        return Err(AuditFailed(read.error));
      }
      var waterUsed := WaterUsed(llmWater);
      var resultModel := Audit(read.value.status, "[LLM] " + read.value.summary, read.value.details);
      mood := MoodAfterAudit(mood, resultModel.summary);
      meter.Increment(waterUsed);
      RunAuditAsWrittenNeverSucceeds(trace.steps, licenseKeys, chat, loads, floatOfStr, floatText);
      return Ok(resultModel);
    }

    /** `/execute`: the answer of `Execution`; since `run_audit` never
        succeeds as written, the mood and the meter never change. */
    method Execute(request: Json,
                   chat: (Json, Json) -> Result<string, CallFailure>,
                   loads: string -> Result<Json, string>,
                   floatOfStr: string -> Option<real>,
                   floatText: real -> string) returns (r: Result<Json, Exc>)
      modifies this, meter
      ensures r == Execution(request, licenseKeys, chat, loads, floatOfStr, floatText)
      ensures mood == old(mood) && meter.State() == old(meter.State())
    {
      if !request.JObj? {
        return Err(NoGetMethod(request));
      }
      var capability := Get(request, "capability", JNull);
      var inputData := Get(request, "input", JObj([]));
      if capability == JStr("audit_trace") {
        if !inputData.JObj? {
          return Err(NotAMapping(inputData));
        }
        var trace := ParseTrace(inputData);
        if trace.None? {
          return Err(ValidationError("ExecutionTrace"));
        }
        var result := RunAudit(trace.value, chat, loads, floatOfStr, floatText);
        match result {
          case Err(e) => return Err(e);
          case Ok(audit) => return Ok(AuditDict(audit, floatText));
        }
      }
      return Err(UnknownCapability(capability));
    }
  }
}
