/** The auditor's trace tooling (agents/auditor/tools/llm_utils.py): the
    validation of an execution trace and of its per-agent policies, the
    size-bounded preview and compaction of the trace sent to the language model,
    the repair and coercion of the model's JSON reply into the audit schema, and
    the audit call that composes them with the model as an oracle. */
module AuditorTools {
  import opened Base
  import opened PyText
  import opened PyValue

  // ------------------------------------------------------------------
  // Validation of the trace and of its policies
  // ------------------------------------------------------------------

  /** Why a trace or its policies are refused; each case is one ValueError of the source. */
  datatype TraceError =
    | TraceNotDict
    | StepsNotNonEmptyList
    | StepNotDict(index: nat)
    | StepMissingKeys(index: nat)
    | PoliciesNotNonEmptyDict
    | AgentNameInvalid
    | MissingPolicies(agents: seq<string>)
    | PolicyNotObject(agent: string)
    | PolicyWithoutRules(agent: string)

  /** The text of the ValueError raised for each refusal. */
  function Message(e: TraceError): string {
    match e
    case TraceNotDict => "execution_trace must be a dict"
    case StepsNotNonEmptyList => "execution_trace.steps must be a non-empty list"
    case StepNotDict(i) => "steps[" + NatToString(i) + "] must be a dict"
    case StepMissingKeys(i) => "steps[" + NatToString(i) + "] must contain 'agent' and 'output' keys"
    case PoliciesNotNonEmptyDict => "execution_trace.policies must be a non-empty dict"
    case AgentNameInvalid => "Each step must include a non-empty 'agent' string"
    case MissingPolicies(agents) => "Missing policies for agents: " + Join(agents, ", ")
    case PolicyNotObject(a) => "Policy for agent '" + a + "' must be a JSON object"
    case PolicyWithoutRules(a) => "Policy for agent '" + a + "' must include a non-empty 'rules' list"
  }

  predicate NonEmptyList(j: Json) { j.JArr? && |j.items| > 0 }

  predicate NonEmptyDict(j: Json) { j.JObj? && |j.members| > 0 }

  /** `execution_trace.get("steps")`. */
  function StepsOf(trace: Json): Json
    requires trace.JObj?
  {
    Get(trace, "steps", JNull)
  }

  /** `execution_trace.get("policies")`. */
  function PoliciesOf(trace: Json): Json
    requires trace.JObj?
  {
    Get(trace, "policies", JNull)
  }

  /** A step is a dictionary holding both "agent" and "output". */
  predicate StepOk(s: Json) {
    s.JObj? && HasKey(s, "agent") && HasKey(s, "output")
  }

  /** What `_validate_trace` accepts. */
  predicate WellFormedTrace(trace: Json) {
    && trace.JObj?
    && NonEmptyList(StepsOf(trace))
    && forall i :: 0 <= i < |StepsOf(trace).items| ==> StepOk(StepsOf(trace).items[i])
  }

  /** The index of the first step that is not StepOk, or `|steps|` when there is none. */
  function FirstBadStep(steps: seq<Json>): (r: nat)
    ensures r <= |steps|
    ensures forall k :: 0 <= k < r ==> StepOk(steps[k])
    ensures r < |steps| ==> !StepOk(steps[r])
    decreases |steps|
  {
    if |steps| == 0 then 0
    else if !StepOk(steps[0]) then 0
    else 1 + FirstBadStep(steps[1..])
  }

  /** What `_validate_trace` decides: the trace is refused for the first reason,
      in the order the source checks them, and a step is blamed only when every
      step before it is fine. */
  function CheckTrace(trace: Json): (r: Outcome<TraceError>)
    ensures r == Pass <==> WellFormedTrace(trace)
    ensures r == Fail(TraceNotDict) <==> !trace.JObj?
    ensures r == Fail(StepsNotNonEmptyList) <==> trace.JObj? && !NonEmptyList(StepsOf(trace))
    ensures r.Fail? ==> r.error.TraceNotDict? || r.error.StepsNotNonEmptyList? ||
                        r.error.StepNotDict? || r.error.StepMissingKeys?
    ensures r.Fail? && (r.error.StepNotDict? || r.error.StepMissingKeys?) ==>
              && trace.JObj? && NonEmptyList(StepsOf(trace))
              && r.error.index < |StepsOf(trace).items|
              && (forall k :: 0 <= k < r.error.index ==> StepOk(StepsOf(trace).items[k]))
              && !StepOk(StepsOf(trace).items[r.error.index])
              && (r.error.StepNotDict? <==> !StepsOf(trace).items[r.error.index].JObj?)
  {
    if !trace.JObj? then Fail(TraceNotDict)
    else if !NonEmptyList(StepsOf(trace)) then Fail(StepsNotNonEmptyList)
    else
      var steps := StepsOf(trace).items;
      var i := FirstBadStep(steps);
      if i == |steps| then Pass
      else if !steps[i].JObj? then Fail(StepNotDict(i))
      else Fail(StepMissingKeys(i))
  }

  /** `_validate_trace`: a loop over the steps that raises at the first bad one. */
  method ValidateTrace(trace: Json) returns (r: Outcome<TraceError>)
    ensures r == CheckTrace(trace)
  {
    if !trace.JObj? {
      return Fail(TraceNotDict);
    }
    var steps := StepsOf(trace);
    if !steps.JArr? || |steps.items| == 0 {
      return Fail(StepsNotNonEmptyList);
    }
    var idx := 0;
    while idx < |steps.items|
      invariant 0 <= idx <= |steps.items|
      invariant forall k :: 0 <= k < idx ==> StepOk(steps.items[k])
    {
      var s := steps.items[idx];
      if !s.JObj? {
        return Fail(StepNotDict(idx));
      }
      if !HasKey(s, "agent") || !HasKey(s, "output") {
        return Fail(StepMissingKeys(idx));
      }
      idx := idx + 1;
    }
    return Pass;
  }

  /** A step whose "agent" is a non-empty string. */
  predicate AgentNamed(s: Json) {
    s.JObj? && Get(s, "agent", JNull).JStr? && Get(s, "agent", JNull).s != ""
  }

  /** `step["agent"]` of a well-named step. */
  function AgentOf(s: Json): string
    requires AgentNamed(s)
  {
    Get(s, "agent", JNull).s
  }

  /** The agent names of well-named steps, in step order. */
  function AgentNames(steps: seq<Json>): (r: seq<string>)
    requires forall i :: 0 <= i < |steps| ==> AgentNamed(steps[i])
    ensures |r| == |steps|
    ensures forall i :: 0 <= i < |steps| ==> r[i] == AgentOf(steps[i])
    decreases |steps|
  {
    if |steps| == 0 then [] else AgentNames(steps[..|steps| - 1]) + [AgentOf(steps[|steps| - 1])]
  }

  /** A policy the shape check accepts: a dictionary with a non-empty "rules" list. */
  predicate PolicyOk(p: Json) {
    p.JObj? && HasKey(p, "rules") && NonEmptyList(Get(p, "rules", JNull))
  }

  /** The names, taken in order, that have no entry in the policies. */
  function WithoutPolicy(names: seq<string>, policies: Json): (r: seq<string>)
    requires policies.JObj?
    ensures forall y :: y in r <==> y in names && !HasKey(policies, y)
    ensures StrictlySorted(names) ==> StrictlySorted(r)
    decreases |names|
  {
    if |names| == 0 then []
    else
      var rest := WithoutPolicy(names[1..], policies);
      assert StrictlySorted(names) ==> forall y :: y in rest ==> StrLt(names[0], y) by {
        if StrictlySorted(names) {
          forall y | y in rest ensures StrLt(names[0], y) {
            var j :| 0 <= j < |names[1..]| && names[1..][j] == y;
            assert names[j + 1] == y;
          }
        }
      }
      if HasKey(policies, names[0]) then rest else [names[0]] + rest
  }

  /** The index of the first policy that fails the shape check, or `|members|` when none does. */
  function FirstBadPolicy(members: seq<(string, Json)>): (r: nat)
    ensures r <= |members|
    ensures forall k :: 0 <= k < r ==> PolicyOk(members[k].1)
    ensures r < |members| ==> !PolicyOk(members[r].1)
    decreases |members|
  {
    if |members| == 0 then 0
    else if !PolicyOk(members[0].1) then 0
    else 1 + FirstBadPolicy(members[1..])
  }

  /** The index of the first step without a proper agent name, or `|steps|`. */
  function FirstUnnamedStep(steps: seq<Json>): (r: nat)
    ensures r <= |steps|
    ensures forall k :: 0 <= k < r ==> AgentNamed(steps[k])
    ensures r < |steps| ==> !AgentNamed(steps[r])
    decreases |steps|
  {
    if |steps| == 0 then 0
    else if !AgentNamed(steps[0]) then 0
    else 1 + FirstUnnamedStep(steps[1..])
  }

  /** What `_validate_policies_mandatory` accepts. */
  predicate PoliciesOk(trace: Json)
    requires WellFormedTrace(trace)
  {
    var policies := PoliciesOf(trace);
    var steps := StepsOf(trace).items;
    && NonEmptyDict(policies)
    && (forall i :: 0 <= i < |steps| ==> AgentNamed(steps[i]))
    && (forall i :: 0 <= i < |steps| ==> HasKey(policies, AgentOf(steps[i])))
    && (forall k :: 0 <= k < |policies.members| ==> PolicyOk(policies.members[k].1))
  }

  /** `sorted(set(agents_in_trace))` without the agents that have a policy: every
      such agent once, in increasing order, and nothing else. */
  function MissingAgents(steps: seq<Json>, policies: Json): (r: seq<string>)
    requires forall i :: 0 <= i < |steps| ==> AgentNamed(steps[i])
    requires policies.JObj?
    ensures StrictlySorted(r)
    ensures forall y :: y in r <==> y in AgentNames(steps) && !HasKey(policies, y)
    ensures r == [] <==> forall i :: 0 <= i < |steps| ==> HasKey(policies, AgentOf(steps[i]))
  {
    var names := AgentNames(steps);
    var r := WithoutPolicy(SortedDistinct(names), policies);
    assert r == [] ==> forall i :: 0 <= i < |steps| ==> HasKey(policies, names[i]) by {
      if r == [] {
        forall i | 0 <= i < |steps| ensures HasKey(policies, names[i]) {
          assert names[i] in SortedDistinct(names);
        }
      }
    }
    assert r != [] ==> exists i :: 0 <= i < |steps| && !HasKey(policies, names[i]) by {
      if r != [] {
        assert r[0] in names;
      }
    }
    r
  }

  /** The shape check over every policy, in dictionary order. */
  function CheckPolicyShapes(members: seq<(string, Json)>): (r: Outcome<TraceError>)
    ensures r == Pass <==> forall k :: 0 <= k < |members| ==> PolicyOk(members[k].1)
    ensures r.Fail? ==>
              && FirstBadPolicy(members) < |members|
              && (r.error.PolicyNotObject? || r.error.PolicyWithoutRules?)
              && r.error.agent == members[FirstBadPolicy(members)].0
              && (r.error.PolicyNotObject? <==> !members[FirstBadPolicy(members)].1.JObj?)
  {
    var k := FirstBadPolicy(members);
    if k == |members| then Pass
    else if !members[k].1.JObj? then Fail(PolicyNotObject(members[k].0))
    else Fail(PolicyWithoutRules(members[k].0))
  }

  /** What `_validate_policies_mandatory` decides for a trace `_validate_trace`
      accepted: a non-empty policy dictionary, then a non-empty string agent on
      every step, then a policy for every agent (the missing ones reported
      sorted and de-duplicated), then a well-shaped policy for every entry,
      including entries for agents absent from the trace. */
  function CheckPolicies(trace: Json): (r: Outcome<TraceError>)
    requires WellFormedTrace(trace)
    ensures r == Pass <==> PoliciesOk(trace)
  {
    var policies := PoliciesOf(trace);
    var steps := StepsOf(trace).items;
    if !NonEmptyDict(policies) then Fail(PoliciesNotNonEmptyDict)
    else if FirstUnnamedStep(steps) < |steps| then Fail(AgentNameInvalid)
    else
      var missing := MissingAgents(steps, policies);
      if missing != [] then Fail(MissingPolicies(missing))
      else CheckPolicyShapes(policies.members)
  }

  /** The refusals of `CheckPolicies` come in the source's order: the policy
      dictionary first, then the agent names, then the missing policies (reported
      sorted and without duplicates), then the shape of each policy. */
  lemma CheckPoliciesOrder(trace: Json)
    requires WellFormedTrace(trace)
    ensures CheckPolicies(trace) == Fail(PoliciesNotNonEmptyDict) <==> !NonEmptyDict(PoliciesOf(trace))
    ensures CheckPolicies(trace) == Fail(AgentNameInvalid) <==>
              NonEmptyDict(PoliciesOf(trace)) && FirstUnnamedStep(StepsOf(trace).items) < |StepsOf(trace).items|
    ensures CheckPolicies(trace).Fail? && CheckPolicies(trace).error.MissingPolicies? ==>
              && NonEmptyDict(PoliciesOf(trace))
              && FirstUnnamedStep(StepsOf(trace).items) == |StepsOf(trace).items|
              && CheckPolicies(trace).error.agents != []
              && CheckPolicies(trace).error.agents == MissingAgents(StepsOf(trace).items, PoliciesOf(trace))
    ensures CheckPolicies(trace).Fail? && (CheckPolicies(trace).error.PolicyNotObject? ||
                                           CheckPolicies(trace).error.PolicyWithoutRules?) ==>
              && NonEmptyDict(PoliciesOf(trace))
              && FirstUnnamedStep(StepsOf(trace).items) == |StepsOf(trace).items|
              && MissingAgents(StepsOf(trace).items, PoliciesOf(trace)) == []
              && CheckPolicies(trace) == CheckPolicyShapes(PoliciesOf(trace).members)
    ensures CheckPolicies(trace).Fail? ==>
              var e := CheckPolicies(trace).error;
              e.PoliciesNotNonEmptyDict? || e.AgentNameInvalid? || e.MissingPolicies? ||
              e.PolicyNotObject? || e.PolicyWithoutRules?
  {
  }

  /** `_validate_policies_mandatory`: collects the agent names in one loop, reports
      the missing ones sorted and de-duplicated, then checks every policy in another. */
  method ValidatePolicies(trace: Json) returns (r: Outcome<TraceError>)
    requires WellFormedTrace(trace)
    ensures r == CheckPolicies(trace)
  {
    var policies := PoliciesOf(trace);
    if !policies.JObj? || |policies.members| == 0 {
      return Fail(PoliciesNotNonEmptyDict);
    }
    var steps := StepsOf(trace).items;
    assert forall k :: 0 <= k < |steps| ==> steps[k].JObj? by {
      forall k | 0 <= k < |steps| ensures steps[k].JObj? {
        assert StepOk(steps[k]);
      }
    }
    var agentsInTrace := CollectAgentNames(steps);
    if agentsInTrace.None? {
      return Fail(AgentNameInvalid);
    }
    var missing := WithoutPolicy(SortedDistinct(agentsInTrace.value), policies);
    if |missing| > 0 {
      return Fail(MissingPolicies(missing));
    }
    assert CheckPolicies(trace) == CheckPolicyShapes(policies.members);
    r := ValidatePolicyShapes(policies.members);
  }

  /** The first loop of `_validate_policies_mandatory`: the agent name of every
      step in order, or nothing as soon as one is not a non-empty string. */
  method CollectAgentNames(steps: seq<Json>) returns (r: Option<seq<string>>)
    requires forall k :: 0 <= k < |steps| ==> steps[k].JObj?
    ensures r.None? <==> FirstUnnamedStep(steps) < |steps|
    ensures r.Some? ==> r.value == AgentNames(steps)
  {
    var agentsInTrace: seq<string> := [];
    var i := 0;
    while i < |steps|
      invariant 0 <= i <= |steps|
      invariant forall k :: 0 <= k < i ==> AgentNamed(steps[k])
      invariant |agentsInTrace| == i
      invariant forall k :: 0 <= k < i ==> agentsInTrace[k] == AgentOf(steps[k])
    {
      var a := Get(steps[i], "agent", JNull);
      if !a.JStr? || a.s == "" {
        assert FirstUnnamedStep(steps) <= i;
        return None;
      }
      assert AgentNamed(steps[i]);
      agentsInTrace := agentsInTrace + [a.s];
      i := i + 1;
    }
    assert FirstUnnamedStep(steps) == |steps|;
    return Some(agentsInTrace);
  }

  /** The second loop of `_validate_policies_mandatory`: every policy, in
      dictionary order, must be a dictionary with a non-empty "rules" list. */
  method ValidatePolicyShapes(members: seq<(string, Json)>) returns (r: Outcome<TraceError>)
    ensures r == CheckPolicyShapes(members)
  {
    var j := 0;
    while j < |members|
      invariant 0 <= j <= |members|
      invariant forall k :: 0 <= k < j ==> PolicyOk(members[k].1)
    {
      var (a, pol) := members[j];
      if !pol.JObj? {
        assert FirstBadPolicy(members) == j;
        return Fail(PolicyNotObject(a));
      }
      var rules := Get(pol, "rules", JNull);
      if !HasKey(pol, "rules") || !rules.JArr? || |rules.items| == 0 {
        assert FirstBadPolicy(members) == j;
        return Fail(PolicyWithoutRules(a));
      }
      j := j + 1;
    }
    assert FirstBadPolicy(members) == |members|;
    return Pass;
  }

  // ------------------------------------------------------------------
  // Preview and compaction of the trace
  // ------------------------------------------------------------------

  function Min(a: int, b: int): int { if a <= b then a else b }

  /** How many items of a list and entries of a dictionary a preview keeps. */
  const MaxPreviewItems: nat := 10
  const MaxPreviewEntries: nat := 20

  /** `_preview`: strings cut to `maxChars` characters, lists to their first ten
      items and dictionaries to their first twenty entries, recursively; `None`,
      numbers and booleans unchanged; any other object becomes its cut `str()`. */
  function Preview(value: Json, maxChars: nat): Json
    decreases value
  {
    match value
    case JNull => JNull
    case JStr(s) => JStr(s[..Min(|s|, maxChars)])
    case JBool(_) => value
    case JInt(_) => value
    case JFloat(_, _) => value
    case JArr(items) =>
      JArr(seq(Min(|items|, MaxPreviewItems), k requires 0 <= k < Min(|items|, MaxPreviewItems) =>
                 Preview(items[k], maxChars)))
    case JObj(members) =>
      JObj(seq(Min(|members|, MaxPreviewEntries), k requires 0 <= k < Min(|members|, MaxPreviewEntries) =>
                 (members[k].0, Preview(members[k].1, maxChars))))
    case JOther(_, text) => JStr(text[..Min(|text|, maxChars)])
  }

  /** A value within the preview budget: strings of at most `maxChars`
      characters, lists of at most ten items, dictionaries of at most twenty
      entries, all the way down, and only JSON values. */
  ghost predicate WithinBudget(value: Json, maxChars: nat)
    decreases value
  {
    match value
    case JStr(s) => |s| <= maxChars
    case JArr(items) =>
      |items| <= MaxPreviewItems && forall k :: 0 <= k < |items| ==> WithinBudget(items[k], maxChars)
    case JObj(members) =>
      |members| <= MaxPreviewEntries && forall k :: 0 <= k < |members| ==> WithinBudget(members[k].1, maxChars)
    case JOther(_, _) => false
    case _ => true
  }

  /** Every preview is within budget, however large the value. */
  lemma {:induction false} PreviewWithinBudget(value: Json, maxChars: nat)
    ensures WithinBudget(Preview(value, maxChars), maxChars)
    decreases value
  {
    match value
    case JArr(items) =>
      forall k | 0 <= k < Min(|items|, MaxPreviewItems)
        ensures WithinBudget(Preview(items[k], maxChars), maxChars)
      {
        PreviewWithinBudget(items[k], maxChars);
      }
    case JObj(members) =>
      forall k | 0 <= k < Min(|members|, MaxPreviewEntries)
        ensures WithinBudget(Preview(members[k].1, maxChars), maxChars)
      {
        PreviewWithinBudget(members[k].1, maxChars);
      }
    case _ =>
  }

  /** A value already within budget is its own preview. */
  lemma {:induction false} PreviewKeepsBudgetedValue(value: Json, maxChars: nat)
    requires WithinBudget(value, maxChars)
    ensures Preview(value, maxChars) == value
    decreases value
  {
    match value
    case JArr(items) =>
      forall k | 0 <= k < |items| ensures Preview(items[k], maxChars) == items[k] {
        PreviewKeepsBudgetedValue(items[k], maxChars);
      }
      assert Preview(value, maxChars).items == items;
    case JObj(members) =>
      forall k | 0 <= k < |members| ensures Preview(members[k].1, maxChars) == members[k].1 {
        PreviewKeepsBudgetedValue(members[k].1, maxChars);
      }
      assert Preview(value, maxChars).members == members;
    case _ =>
  }

  /** Previewing a preview changes nothing. */
  lemma PreviewIdempotent(value: Json, maxChars: nat)
    ensures Preview(Preview(value, maxChars), maxChars) == Preview(value, maxChars)
  {
    PreviewWithinBudget(value, maxChars);
    PreviewKeepsBudgetedValue(Preview(value, maxChars), maxChars);
  }

  /** The compact form of one step: its agent, whether its error is truthy, the
      previews of its input and output, and its error. */
  function CompactStep(s: Json, maxChars: nat): Json
    requires s.JObj?
  {
    JObj([("agent", Get(s, "agent", JNull)),
          ("has_error", JBool(Truthy(Get(s, "error", JNull)))),
          ("input_preview", Preview(Get(s, "input", JNull), maxChars)),
          ("output_preview", Preview(Get(s, "output", JNull), maxChars)),
          ("error", Get(s, "error", JNull))])
  }

  /** The compact form of a step keeps its agent and its error, and flags the
      error exactly when it is truthy. */
  lemma CompactStepFields(s: Json, maxChars: nat)
    requires s.JObj?
    ensures Get(CompactStep(s, maxChars), "agent", JNull) == Get(s, "agent", JNull)
    ensures Get(CompactStep(s, maxChars), "has_error", JNull) == JBool(Truthy(Get(s, "error", JNull)))
    ensures Get(CompactStep(s, maxChars), "error", JNull) == Get(s, "error", JNull)
  {
    var e := Get(s, "error", JNull);
    var m := CompactStep(s, maxChars).members;
    assert Lookup(m, "has_error") == Lookup(m[1..], "has_error") == Some(JBool(Truthy(e)));
    assert Lookup(m, "error") == Lookup(m[1..], "error") == Lookup(m[2..], "error");
    assert Lookup(m[2..], "error") == Lookup(m[3..], "error") == Lookup(m[4..], "error") == Some(e);
  }

  /** The previews in the compact form of a step are within budget, however
      large the step's input and output. */
  lemma CompactStepWithinBudget(s: Json, maxChars: nat)
    requires s.JObj?
    ensures WithinBudget(Get(CompactStep(s, maxChars), "input_preview", JNull), maxChars)
    ensures WithinBudget(Get(CompactStep(s, maxChars), "output_preview", JNull), maxChars)
  {
    var m := CompactStep(s, maxChars).members;
    assert Lookup(m, "input_preview") == Lookup(m[1..], "input_preview") == Lookup(m[2..], "input_preview");
    assert Lookup(m[2..], "input_preview") == Some(Preview(Get(s, "input", JNull), maxChars));
    assert Lookup(m, "output_preview") == Lookup(m[1..], "output_preview") == Lookup(m[2..], "output_preview");
    assert Lookup(m[2..], "output_preview") == Lookup(m[3..], "output_preview");
    assert Lookup(m[3..], "output_preview") == Some(Preview(Get(s, "output", JNull), maxChars));
    PreviewWithinBudget(Get(s, "input", JNull), maxChars);
    PreviewWithinBudget(Get(s, "output", JNull), maxChars);
  }

  /** What `_compact_trace` needs so as not to raise: a dictionary whose steps
      (missing means none) are a list of dictionaries. */
  predicate Compactable(trace: Json) {
    && trace.JObj?
    && Get(trace, "steps", JArr([])).JArr?
    && forall i :: 0 <= i < |Get(trace, "steps", JArr([])).items| ==> Get(trace, "steps", JArr([])).items[i].JObj?
  }

  lemma WellFormedIsCompactable(trace: Json)
    requires WellFormedTrace(trace)
    ensures Compactable(trace)
    ensures Get(trace, "steps", JArr([])) == StepsOf(trace)
  {
  }

  /** The compact trace: one compact step per step, in the same order. */
  function CompactTraceOf(trace: Json, maxChars: nat): Json
    requires Compactable(trace)
  {
    var steps := Get(trace, "steps", JArr([])).items;
    JObj([("steps", JArr(seq(|steps|, i requires 0 <= i < |steps| => CompactStep(steps[i], maxChars))))])
  }

  /** `_compact_trace`: appends one compact entry per step. */
  method CompactTrace(trace: Json, maxChars: nat) returns (r: Json)
    requires Compactable(trace)
    ensures r == CompactTraceOf(trace, maxChars)
    ensures r.JObj? && |r.members| == 1 && r.members[0].0 == "steps" && r.members[0].1.JArr?
    ensures |r.members[0].1.items| == |Get(trace, "steps", JArr([])).items|
    ensures forall i :: 0 <= i < |r.members[0].1.items| ==>
              r.members[0].1.items[i] == CompactStep(Get(trace, "steps", JArr([])).items[i], maxChars)
  {
    var steps := Get(trace, "steps", JArr([])).items;
    var compactSteps: seq<Json> := [];
    for i := 0 to |steps|
      invariant |compactSteps| == i
      invariant forall k :: 0 <= k < i ==> compactSteps[k] == CompactStep(steps[k], maxChars)
    {
      compactSteps := compactSteps + [CompactStep(steps[i], maxChars)];
    }
    assert compactSteps == seq(|steps|, i requires 0 <= i < |steps| => CompactStep(steps[i], maxChars));
    r := JObj([("steps", JArr(compactSteps))]);
  }

  // ------------------------------------------------------------------
  // Parsing and coercion of the model's reply
  // ------------------------------------------------------------------

  /** One line of the audit report. */
  datatype AuditDetail = AuditDetail(agent: string, status: string, comment: string, score: real)

  /** The audit report: a global status, a summary and the per-step lines. */
  datatype Audit = Audit(status: string, summary: string, details: seq<AuditDetail>)

  const DetailStatuses: set<string> := {"valid", "warning", "fail"}
  const GlobalStatuses: set<string> := {"ok", "partial", "fail"}

  /** The line put in when the reply carries no usable details. */
  const NoDetails := AuditDetail("unknown", "warning", "LLM returned no details.", 0.2)

  /** The slice from the first '{' to the last '}' inclusive, when the first
      comes before the last. */
  function BraceSlice(content: string): (r: Option<string>)
    ensures r.None? <==> !(Find(content, '{') >= 0 && RFind(content, '}') > Find(content, '{'))
    ensures r.Some? ==>
              && |r.value| >= 2 && r.value[0] == '{' && r.value[|r.value| - 1] == '}'
              && r.value == content[Find(content, '{')..RFind(content, '}') + 1]
              && (forall k :: 0 <= k < Find(content, '{') ==> content[k] != '{')
              && (forall k :: RFind(content, '}') < k < |content| ==> content[k] != '}')
  {
    var start := Find(content, '{');
    var end := RFind(content, '}');
    if start >= 0 && end > start then Some(content[start..end + 1]) else None
  }

  /** The reply parsed with `json.loads`, retried once on the brace slice; a
      failure reports the error of the FIRST attempt. */
  function ParseReply(content: string, loads: string -> Result<Json, string>): (r: Result<Json, Exc>)
    ensures loads(content).Ok? ==> r == Ok(loads(content).value)
    ensures loads(content).Err? && BraceSlice(content).Some? && loads(BraceSlice(content).value).Ok? ==>
              r == Ok(loads(BraceSlice(content).value).value)
    ensures loads(content).Err? && (BraceSlice(content).None? || loads(BraceSlice(content).value).Err?) ==>
              r == Err(PyExc("Failed to parse LLM JSON: " + loads(content).error))
  {
    match loads(content)
    case Ok(parsed) => Ok(parsed)
    case Err(e) =>
      var failure := Err(PyExc("Failed to parse LLM JSON: " + e));
      match BraceSlice(content)
      case None => failure
      case Some(slice) =>
        match loads(slice)
        case Ok(parsed) => Ok(parsed)
        case Err(_) => failure
  }

  /** `float(x)` for a parsed value; `floatOfStr` stands for `float()` on strings. */
  function ToFloat(x: Json, floatOfStr: string -> Option<real>): Option<real> {
    match x
    case JInt(i) => Some(i as real)
    case JFloat(r, _) => Some(r)
    case JBool(b) => Some(if b then 1.0 else 0.0)
    case JStr(s) => floatOfStr(s)
    case _ => None
  }

  /** `max(0.0, min(1.0, x))`. */
  function Clamp(x: real): (r: real)
    ensures 0.0 <= r <= 1.0
    ensures 0.0 <= x <= 1.0 ==> r == x
    ensures x < 0.0 ==> r == 0.0
    ensures x > 1.0 ==> r == 1.0
  {
    var m := if x < 1.0 then x else 1.0;
    if m > 0.0 then m else 0.0
  }

  /** The status a detail asks for: `str(item.get("status", "warning")).lower()`. */
  function RequestedStatus(item: Json): string
    requires item.JObj?
  {
    Lower(PyStr(Get(item, "status", JStr("warning"))))
  }

  /** The score a detail asks for before clamping: its `float()`, or 0.5 when
      it is missing or not numeric. */
  function RequestedScore(item: Json, floatOfStr: string -> Option<real>): real
    requires item.JObj?
  {
    match ToFloat(Get(item, "score", JFloat(0.5, "0.5")), floatOfStr)
    case Some(x) => x
    case None => 0.5
  }

  /** The agent of a coerced detail: `str(item.get("agent", "unknown"))`. */
  function DetailAgent(item: Json): string
    requires item.JObj?
  {
    PyStr(Get(item, "agent", JStr("unknown")))
  }

  /** The status of a coerced detail: the requested one when it is known, else "warning". */
  function DetailStatus(item: Json): (r: string)
    requires item.JObj?
    ensures r in DetailStatuses
    ensures RequestedStatus(item) in DetailStatuses ==> r == RequestedStatus(item)
    ensures RequestedStatus(item) !in DetailStatuses ==> r == "warning"
  {
    var status := RequestedStatus(item);
    if status in DetailStatuses then status else "warning"
  }

  /** The comment of a coerced detail: the stripped `str()` of the item's
      comment, or "No comment." when that is empty. */
  function DetailComment(item: Json): (r: string)
    requires item.JObj?
    ensures r != ""
    ensures Strip(PyStr(Get(item, "comment", JStr("")))) == "" ==> r == "No comment."
    ensures Strip(PyStr(Get(item, "comment", JStr("")))) != "" ==> r == Strip(PyStr(Get(item, "comment", JStr(""))))
  {
    var comment := Strip(PyStr(Get(item, "comment", JStr(""))));
    if comment == "" then "No comment." else comment
  }

  /** The score of a coerced detail: the requested score clamped to [0, 1],
      0.5 when the item has none. */
  function DetailScore(item: Json, floatOfStr: string -> Option<real>): (r: real)
    requires item.JObj?
    ensures 0.0 <= r <= 1.0
    ensures r == Clamp(RequestedScore(item, floatOfStr))
    ensures !HasKey(item, "score") ==> r == 0.5
  {
    Clamp(RequestedScore(item, floatOfStr))
  }

  /** One coerced detail of the reply: always within the audit schema. */
  function CoerceDetail(item: Json, floatOfStr: string -> Option<real>): (d: AuditDetail)
    requires item.JObj?
    ensures d.status in DetailStatuses
    ensures 0.0 <= d.score <= 1.0
    ensures d.comment != ""
  {
    AuditDetail(DetailAgent(item), DetailStatus(item), DetailComment(item), DetailScore(item, floatOfStr))
  }

  /** `parsed.get("details", [])`, with anything but a list read as none. */
  function DetailsIn(reply: Json): seq<Json>
    requires reply.JObj?
  {
    var d := Get(reply, "details", JArr([]));
    if d.JArr? then d.items else []
  }

  /** The index of the first item at or after `from` that is not a dictionary,
      or `|items|`. */
  function FirstNonDictFrom(items: seq<Json>, from: nat): (r: nat)
    requires from <= |items|
    ensures from <= r <= |items|
    ensures forall k :: from <= k < r ==> items[k].JObj?
    ensures r < |items| ==> !items[r].JObj?
    decreases |items| - from
  {
    if from == |items| then from
    else if !items[from].JObj? then from
    else FirstNonDictFrom(items, from + 1)
  }

  /** The index of the first item that is not a dictionary, or `|items|`. */
  function FirstNonDict(items: seq<Json>): (r: nat)
    ensures r <= |items|
    ensures forall k :: 0 <= k < r ==> items[k].JObj?
    ensures r < |items| ==> !items[r].JObj?
  {
    FirstNonDictFrom(items, 0)
  }

  /** The first `n` items coerced in order, or the AttributeError of the first
      of them that is not a dictionary. */
  function CoerceDetailsUpTo(items: seq<Json>, n: nat, floatOfStr: string -> Option<real>): (r: Result<seq<AuditDetail>, Exc>)
    requires n <= |items|
    ensures r.Ok? <==> forall k :: 0 <= k < n ==> items[k].JObj?
    ensures r.Ok? ==> |r.value| == n &&
                      forall i :: 0 <= i < n ==> items[i].JObj? && r.value[i] == CoerceDetail(items[i], floatOfStr)
    ensures r.Err? ==> FirstNonDict(items) < n && r.error == NoGetMethod(items[FirstNonDict(items)])
    decreases n
  {
    if n == 0 then Ok([])
    else
      match CoerceDetailsUpTo(items, n - 1, floatOfStr)
      case Err(e) => Err(e)
      case Ok(ds) =>
        if !items[n - 1].JObj? then
          assert FirstNonDict(items) == n - 1;
          Err(NoGetMethod(items[n - 1]))
        else Ok(ds + [CoerceDetail(items[n - 1], floatOfStr)])
  }

  /** The coerced details in order, or the AttributeError of the first detail
      that is not a dictionary. */
  function CoerceDetails(items: seq<Json>, floatOfStr: string -> Option<real>): (r: Result<seq<AuditDetail>, Exc>)
    ensures r.Ok? <==> FirstNonDict(items) == |items|
    ensures r.Ok? ==> |r.value| == |items| &&
                      forall i :: 0 <= i < |items| ==> items[i].JObj? && r.value[i] == CoerceDetail(items[i], floatOfStr)
    ensures r.Err? ==> FirstNonDict(items) < |items| && r.error == NoGetMethod(items[FirstNonDict(items)])
  {
    CoerceDetailsUpTo(items, |items|, floatOfStr)
  }

  /** The global status derived from the details: "fail" if any is "fail",
      else "partial" if any is "warning", else "ok". */
  function DeriveStatus(details: seq<AuditDetail>): (r: string)
    ensures r in GlobalStatuses
    ensures r == "fail" <==> exists i :: 0 <= i < |details| && details[i].status == "fail"
    ensures r == "partial" <==> (forall i :: 0 <= i < |details| ==> details[i].status != "fail") &&
                                 exists i :: 0 <= i < |details| && details[i].status == "warning"
    ensures r == "ok" <==> forall i :: 0 <= i < |details| ==> details[i].status != "fail" && details[i].status != "warning"
  {
    var statuses := set i | 0 <= i < |details| :: details[i].status;
    if "fail" in statuses then "fail"
    else if "warning" in statuses then "partial"
    else "ok"
  }

  /** How many details are "valid". */
  function CountValid(details: seq<AuditDetail>): (n: nat)
    ensures n <= |details|
    ensures n == |details| <==> forall i :: 0 <= i < |details| ==> details[i].status == "valid"
    ensures n == 0 <==> forall i :: 0 <= i < |details| ==> details[i].status != "valid"
    decreases |details|
  {
    if |details| == 0 then 0
    else CountValid(details[1..]) + (if details[0].status == "valid" then 1 else 0)
  }

  /** The summary put in when the reply gives none: "<valid>/<total> agents validated". */
  function ValidatedSummary(details: seq<AuditDetail>): string {
    NatToString(CountValid(details)) + "/" + NatToString(|details|) + " agents validated"
  }

  /** The global status the reply asks for: `str(parsed.get("status", "partial")).lower()`. */
  function RequestedGlobalStatus(reply: Json): string
    requires reply.JObj?
  {
    Lower(PyStr(Get(reply, "status", JStr("partial"))))
  }

  /** The summary the reply gives: `str(parsed.get("summary", ""))`. */
  function RequestedSummary(reply: Json): string
    requires reply.JObj?
  {
    PyStr(Get(reply, "summary", JStr("")))
  }

  /** `_parse_and_coerce_audit_json` on the reply text, with `loads` standing for
      `json.loads`. A report always satisfies the audit schema: a non-empty list
      of details with known statuses, scores in [0, 1] and non-empty comments, a
      known global status (the reply's when it is one, derived otherwise) and a
      non-empty summary (the reply's, or the count of valid details). */
  function CoerceAudit(content: string, loads: string -> Result<Json, string>,
                       floatOfStr: string -> Option<real>): (r: Result<Audit, Exc>)
    ensures ParseReply(content, loads).Err? ==> r == Err(ParseReply(content, loads).error)
    ensures ParseReply(content, loads).Ok? && !ParseReply(content, loads).value.JObj? ==>
              r == Err(NoGetMethod(ParseReply(content, loads).value))
    ensures ParseReply(content, loads).Ok? && ParseReply(content, loads).value.JObj? ==>
              var items := DetailsIn(ParseReply(content, loads).value);
              (r.Ok? <==> FirstNonDict(items) == |items|) &&
              (r.Err? ==> r.error == NoGetMethod(items[FirstNonDict(items)]))
  {
    match ParseReply(content, loads)
    case Err(e) => Err(e)
    case Ok(reply) =>
      if !reply.JObj? then Err(NoGetMethod(reply))
      else
        match CoerceDetails(DetailsIn(reply), floatOfStr)
        case Err(e) => Err(e)
        case Ok(ds) =>
          var details := if |ds| == 0 then [NoDetails] else ds;
          var status := RequestedGlobalStatus(reply);
          var summary := RequestedSummary(reply);
          Ok(Audit(if status in GlobalStatuses then status else DeriveStatus(details),
                   if summary == "" then ValidatedSummary(details) else summary,
                   details))
  }

  /** The details of every report `CoerceAudit` returns: at least one, each with a
      known status, a score in [0, 1] and a non-empty comment; the coerced items
      in order, or the placeholder line when the reply has none. */
  lemma CoerceAuditDetails(content: string, loads: string -> Result<Json, string>,
                           floatOfStr: string -> Option<real>)
    ensures CoerceAudit(content, loads, floatOfStr).Ok? ==>
              var reply := ParseReply(content, loads).value;
              var items := DetailsIn(reply);
              var a := CoerceAudit(content, loads, floatOfStr).value;
              && reply.JObj?
              && |a.details| >= 1
              && (forall i :: 0 <= i < |a.details| ==>
                    a.details[i].status in DetailStatuses && 0.0 <= a.details[i].score <= 1.0 &&
                    a.details[i].comment != "")
              && (|items| == 0 ==> a.details == [NoDetails])
              && (|items| > 0 ==> |a.details| == |items| &&
                                  forall i :: 0 <= i < |items| ==> a.details[i] == CoerceDetail(items[i], floatOfStr))
  {
    if CoerceAudit(content, loads, floatOfStr).Ok? {
      var reply := ParseReply(content, loads).value;
      var items := DetailsIn(reply);
      var ds := CoerceDetails(items, floatOfStr).value;
      assert CoerceAudit(content, loads, floatOfStr).value.details == if |ds| == 0 then [NoDetails] else ds;
      forall i | 0 <= i < |ds|
        ensures ds[i].status in DetailStatuses && 0.0 <= ds[i].score <= 1.0 && ds[i].comment != ""
      {
        assert ds[i] == CoerceDetail(items[i], floatOfStr);
      }
    }
  }

  /** The status and summary of every report `CoerceAudit` returns: a known global
      status, the reply's when it is one and the one derived from the details
      otherwise; a non-empty summary, the reply's or the count of valid details. */
  lemma CoerceAuditStatusAndSummary(content: string, loads: string -> Result<Json, string>,
                                    floatOfStr: string -> Option<real>)
    ensures CoerceAudit(content, loads, floatOfStr).Ok? ==>
              var reply := ParseReply(content, loads).value;
              var a := CoerceAudit(content, loads, floatOfStr).value;
              && reply.JObj?
              && a.status in GlobalStatuses
              && (RequestedGlobalStatus(reply) in GlobalStatuses ==> a.status == RequestedGlobalStatus(reply))
              && (RequestedGlobalStatus(reply) !in GlobalStatuses ==> a.status == DeriveStatus(a.details))
              && a.summary != ""
              && (RequestedSummary(reply) != "" ==> a.summary == RequestedSummary(reply))
              && (RequestedSummary(reply) == "" ==> a.summary == ValidatedSummary(a.details))
  {
  }

  /** `_parse_and_coerce_audit_json`: builds the report, appending one coerced
      detail per item, then repairs the details, the status and the summary. */
  method ParseAndCoerce(content: string, loads: string -> Result<Json, string>,
                        floatOfStr: string -> Option<real>) returns (r: Result<Audit, Exc>)
    ensures r == CoerceAudit(content, loads, floatOfStr)
  {
    var parsedResult := ParseReply(content, loads);
    if parsedResult.Err? {
      return Err(parsedResult.error);
    }
    var parsed := parsedResult.value;
    if !parsed.JObj? {
      return Err(NoGetMethod(parsed));
    }
    var status := RequestedGlobalStatus(parsed);
    var summary := RequestedSummary(parsed);
    var detailsIn := DetailsIn(parsed);
    var details: seq<AuditDetail> := [];
    for i := 0 to |detailsIn|
      invariant CoerceDetailsUpTo(detailsIn, i, floatOfStr) == Ok(details)
    {
      var item := detailsIn[i];
      if !item.JObj? {
        assert FirstNonDict(detailsIn) == i;
        return Err(NoGetMethod(item));
      }
      details := details + [CoerceDetail(item, floatOfStr)];
    }
    assert CoerceDetails(detailsIn, floatOfStr) == Ok(details);
    if |details| == 0 {
      details := [NoDetails];
    }
    if status !in GlobalStatuses {
      status := DeriveStatus(details);
    }
    if summary == "" {
      summary := ValidatedSummary(details);
    }
    return Ok(Audit(status, summary, details));
  }

  // ------------------------------------------------------------------
  // The audit call
  // ------------------------------------------------------------------

  /** How many characters of each string field the compact trace keeps. */
  const MaxCharsPerField: nat := 800

  /** The waterdrops an audit of `steps` steps is charged: 6 + 0.5 per step. */
  function AuditCost(steps: nat): (c: real)
    ensures c >= 6.0
  {
    6.0 + 0.5 * steps as real
  }

  /** The exception `_call_mistral_chat` raises when the request fails, or when
      the reply does not have the expected shape. */
  function ChatFailed(f: CallFailure): Exc {
    match f
    case RequestFailed(t) => PyExc("Mistral API call failed: " + t)
    case Unexpected(t) => PyExc("Unexpected response shape from Mistral: " + t)
  }

  /** What `audit_trace_with_mistral` returns or raises: the report and its cost,
      or the first error among the trace check, the policy check, the key check,
      the model call and the coercion of its reply. */
  function AuditOutcome(trace: Json, apiKey: Json,
                        chat: (Json, Json) -> Result<string, CallFailure>,
                        loads: string -> Result<Json, string>,
                        floatOfStr: string -> Option<real>): Result<(Audit, real), Exc> {
    match CheckTrace(trace)
    case Fail(e) => Err(PyExc(Message(e)))
    case Pass =>
      match CheckPolicies(trace)
      case Fail(e) => Err(PyExc(Message(e)))
      case Pass =>
        WellFormedIsCompactable(trace);
        if !(apiKey.JStr? && apiKey.s != "") then Err(PyExc("Missing Mistral API key."))
        else
          match chat(CompactTraceOf(trace, MaxCharsPerField), PoliciesOf(trace))
          case Err(f) => Err(ChatFailed(f))
          case Ok(content) =>
            match CoerceAudit(content, loads, floatOfStr)
            case Err(e) => Err(e)
            case Ok(audit) => Ok((audit, AuditCost(|StepsOf(trace).items|)))
  }

  /** The audit schema every report satisfies: a known global status, a
      non-empty summary, and at least one detail, each with a known status, a
      non-empty comment and a score in [0, 1]. */
  predicate InSchema(a: Audit) {
    && a.status in GlobalStatuses
    && a.summary != ""
    && |a.details| >= 1
    && forall i :: 0 <= i < |a.details| ==>
         a.details[i].status in DetailStatuses && a.details[i].comment != "" && 0.0 <= a.details[i].score <= 1.0
  }

  /** The model is asked only about a trace whose steps and policies are valid,
      with a non-empty string key; each refusal is the ValueError of the first
      failed check; a report is within the schema and is charged 6 + 0.5 per
      step, so at least 6.5. */
  lemma AuditOutcomeSpec(trace: Json, apiKey: Json,
                         chat: (Json, Json) -> Result<string, CallFailure>,
                         loads: string -> Result<Json, string>,
                         floatOfStr: string -> Option<real>)
    ensures CheckTrace(trace).Fail? ==>
              AuditOutcome(trace, apiKey, chat, loads, floatOfStr) == Err(PyExc(Message(CheckTrace(trace).error)))
    ensures CheckTrace(trace) == Pass && CheckPolicies(trace).Fail? ==>
              AuditOutcome(trace, apiKey, chat, loads, floatOfStr) == Err(PyExc(Message(CheckPolicies(trace).error)))
    ensures CheckTrace(trace) == Pass && CheckPolicies(trace) == Pass && !(apiKey.JStr? && apiKey.s != "") ==>
              AuditOutcome(trace, apiKey, chat, loads, floatOfStr) == Err(PyExc("Missing Mistral API key."))
    ensures CheckTrace(trace) == Pass && CheckPolicies(trace) == Pass && apiKey.JStr? && apiKey.s != "" &&
            Compactable(trace) && chat(CompactTraceOf(trace, MaxCharsPerField), PoliciesOf(trace)).Err? ==>
              AuditOutcome(trace, apiKey, chat, loads, floatOfStr) ==
              Err(ChatFailed(chat(CompactTraceOf(trace, MaxCharsPerField), PoliciesOf(trace)).error))
    ensures AuditOutcome(trace, apiKey, chat, loads, floatOfStr).Ok? ==>
              var out := AuditOutcome(trace, apiKey, chat, loads, floatOfStr).value;
              && WellFormedTrace(trace) && PoliciesOk(trace)
              && apiKey.JStr? && apiKey.s != ""
              && Compactable(trace)
              && chat(CompactTraceOf(trace, MaxCharsPerField), PoliciesOf(trace)).Ok?
              && InSchema(out.0)
              && out.1 == AuditCost(|StepsOf(trace).items|)
              && out.1 >= 6.5
  {
    var r := AuditOutcome(trace, apiKey, chat, loads, floatOfStr);
    if r.Ok? {
      WellFormedIsCompactable(trace);
      var content := chat(CompactTraceOf(trace, MaxCharsPerField), PoliciesOf(trace)).value;
      CoerceAuditDetails(content, loads, floatOfStr);
      CoerceAuditStatusAndSummary(content, loads, floatOfStr);
    }
  }

  /** `audit_trace_with_mistral`: validates the trace, then its policies, and only
      then sends the compact trace and the policies to the model, whose oracle
      `chat` answers with the reply text or the error it raised; the key check
      is the one the HTTP helper makes before any request. */
  method AuditTrace(trace: Json, apiKey: Json,
                    chat: (Json, Json) -> Result<string, CallFailure>,
                    loads: string -> Result<Json, string>,
                    floatOfStr: string -> Option<real>) returns (r: Result<(Audit, real), Exc>)
    ensures r == AuditOutcome(trace, apiKey, chat, loads, floatOfStr)
  {
    var traceCheck := ValidateTrace(trace);
    if traceCheck.Fail? {
      return Err(PyExc(Message(traceCheck.error)));
    }
    var policyCheck := ValidatePolicies(trace);
    if policyCheck.Fail? {
      return Err(PyExc(Message(policyCheck.error)));
    }
    WellFormedIsCompactable(trace);
    var compact := CompactTrace(trace, MaxCharsPerField);
    var policiesByAgent := PoliciesOf(trace);
    if !apiKey.JStr? || apiKey.s == "" {
      return Err(PyExc("Missing Mistral API key."));
    }
    var reply := chat(compact, policiesByAgent);
    if reply.Err? {
      return Err(ChatFailed(reply.error));
    }
    var audit := ParseAndCoerce(reply.value, loads, floatOfStr);
    if audit.Err? {
      return Err(audit.error);
    }
    var steps := |StepsOf(trace).items|;
    return Ok((audit.value, AuditCost(steps)));
  }
}
