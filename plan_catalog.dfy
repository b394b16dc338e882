/** The orchestrator's planning helper (clearcoreai/orchestrator/tools/llm_utils.py):
    the validation of the goal and of the agent registry, the rendering of the
    agents and their capabilities as a catalog of text lines, and the plan
    request, with the language model as an oracle. */
module PlanCatalog {
  import opened Base
  import opened PyText
  import opened PyValue

  const GoalError := "Goal must be a non-empty string."
  const EmptyRegistryError := "No agents registered. Cannot generate meaningful plan."

  /** The registry: agent names with their data, in dictionary order. */
  type Registry = seq<(string, Json)>

  // ------------------------------------------------------------------
  // Capability labels and `", ".join`
  // ------------------------------------------------------------------

  /** The label of one capability: `c["name"]` for a dictionary holding "name",
      `str(c)` for anything else. */
  function Label(c: Json): Json {
    if c.JObj? && HasKey(c, "name") then Get(c, "name", JNull) else JStr(PyStr(c))
  }

  function Labels(capabilities: seq<Json>): (r: seq<Json>)
    ensures |r| == |capabilities|
    ensures forall i :: 0 <= i < |capabilities| ==> r[i] == Label(capabilities[i])
  {
    seq(|capabilities|, i requires 0 <= i < |capabilities| => Label(capabilities[i]))
  }

  /** The index of the first item at or after `from` that is not a string, or `|items|`. */
  function FirstNonStrFrom(items: seq<Json>, from: nat): (r: nat)
    requires from <= |items|
    ensures from <= r <= |items|
    ensures forall k :: from <= k < r ==> items[k].JStr?
    ensures r < |items| ==> !items[r].JStr?
    decreases |items| - from
  {
    if from == |items| then from
    else if !items[from].JStr? then from
    else FirstNonStrFrom(items, from + 1)
  }

  /** The text of each item of a list of strings. */
  function Texts(items: seq<Json>): (r: seq<string>)
    requires forall i :: 0 <= i < |items| ==> items[i].JStr?
    ensures |r| == |items|
    ensures forall i :: 0 <= i < |items| ==> JStr(r[i]) == items[i]
  {
    seq(|items|, i requires 0 <= i < |items| && items[i].JStr? => items[i].s)
  }

  /** `sep.join(items)`: the joined text when every item is a string, else the
      TypeError naming the first item that is not. */
  function JoinText(items: seq<Json>, sep: string): (r: Result<string, Exc>)
    ensures r.Ok? <==> forall i :: 0 <= i < |items| ==> items[i].JStr?
    ensures r.Ok? ==> r.value == Join(Texts(items), sep)
    ensures r.Err? ==>
              var k := FirstNonStrFrom(items, 0);
              k < |items| && r.error == PyExc("sequence item " + NatToString(k) + ": expected str instance, " +
                                              TypeName(items[k]) + " found")
  {
    var k := FirstNonStrFrom(items, 0);
    if k == |items| then Ok(Join(Texts(items), sep))
    else Err(PyExc("sequence item " + NatToString(k) + ": expected str instance, " + TypeName(items[k]) + " found"))
  }

  // ------------------------------------------------------------------
  // Catalog lines
  // ------------------------------------------------------------------

  /** The prefix of the line of agent `name`. */
  function LinePrefix(name: string): string {
    "- " + name + ": "
  }

  /** The capabilities of one registry entry, read as the source reads them:
      `data.get("manifest", {})`, then `manifest.get("capabilities", [])`, then
      iterated; each step raises when the value does not support it. */
  function Capabilities(data: Json): (r: Result<seq<Json>, Exc>)
    ensures !data.JObj? ==> r == Err(NoGetMethod(data))
    ensures data.JObj? && !HasKey(data, "manifest") ==> r == Ok([])
    ensures data.JObj? && !Get(data, "manifest", JObj([])).JObj? ==>
              r == Err(NoGetMethod(Get(data, "manifest", JObj([]))))
    ensures data.JObj? && Get(data, "manifest", JObj([])).JObj? ==>
              var capabilities := Get(Get(data, "manifest", JObj([])), "capabilities", JArr([]));
              && (capabilities.JArr? ==> r == Ok(capabilities.items))
              && (IterItems(capabilities).None? ==> r == Err(NotIterable(capabilities)))
              && (IterItems(capabilities).Some? ==> r == Ok(IterItems(capabilities).value))
  {
    if !data.JObj? then Err(NoGetMethod(data))
    else
      var manifest := Get(data, "manifest", JObj([]));
      if !manifest.JObj? then Err(NoGetMethod(manifest))
      else
        var capabilities := Get(manifest, "capabilities", JArr([]));
        match IterItems(capabilities)
        case None => Err(NotIterable(capabilities))
        case Some(cs) => Ok(cs)
  }

  /** The catalog line of one registry entry: "- <name>: " followed by its
      capability labels joined by ", ". */
  function AgentLine(name: string, data: Json): Result<string, Exc> {
    match Capabilities(data)
    case Err(e) => Err(e)
    case Ok(cs) =>
      match JoinText(Labels(cs), ", ")
      case Err(e) => Err(e)
      case Ok(t) => Ok(LinePrefix(name) + t)
  }

  /** A line is "- <name>: " and the joined labels; it fails with the exception
      raised while reading the capabilities or joining their labels. */
  lemma AgentLineSpec(name: string, data: Json)
    ensures Capabilities(data).Err? ==> AgentLine(name, data) == Err(Capabilities(data).error)
    ensures Capabilities(data).Ok? ==>
              match JoinText(Labels(Capabilities(data).value), ", ")
              case Ok(t) => AgentLine(name, data) == Ok(LinePrefix(name) + t)
              case Err(e) => AgentLine(name, data) == Err(e)
    ensures AgentLine(name, data).Ok? ==>
              |AgentLine(name, data).value| >= |name| + 4 &&
              AgentLine(name, data).value[..|name| + 4] == LinePrefix(name)
  {
    if AgentLine(name, data).Ok? {
      var t := JoinText(Labels(Capabilities(data).value), ", ").value;
      assert (LinePrefix(name) + t)[..|name| + 4] == LinePrefix(name);
    }
  }

  /** An agent whose manifest has no capabilities, or that has no manifest at
      all, renders as "- <name>: ". */
  lemma AgentWithoutCapabilities(name: string, data: Json)
    requires data.JObj?
    requires !HasKey(data, "manifest") ||
             (Get(data, "manifest", JObj([])).JObj? && !HasKey(Get(data, "manifest", JObj([])), "capabilities"))
    ensures AgentLine(name, data) == Ok(LinePrefix(name))
  {
    AgentLineSpec(name, data);
    assert Capabilities(data) == Ok([]);
    assert Labels([]) == [];
    assert Texts([]) == [];
    assert JoinText([], ", ") == Ok("");
    assert LinePrefix(name) + "" == LinePrefix(name);
  }

  /** A capability written as a dictionary with a string "name" shows that name;
      one written as a plain string shows that string. */
  lemma LabelOfCapability(c: Json)
    ensures c.JObj? && Get(c, "name", JNull).JStr? && HasKey(c, "name") ==> Label(c) == Get(c, "name", JNull)
    ensures c.JStr? ==> Label(c) == c
  {
  }

  /** A capability whose label is a string: anything but a dictionary whose
      "name" is not a string. */
  predicate LabelIsText(c: Json) {
    !(c.JObj? && HasKey(c, "name")) || Get(c, "name", JNull).JStr?
  }

  /** Joining the labels of a capability list fails exactly when some
      capability is a dictionary whose "name" is not a string; a list of plain
      strings and named dictionaries always joins. */
  lemma LabelsJoinable(capabilities: seq<Json>)
    ensures JoinText(Labels(capabilities), ", ").Ok? <==> forall i :: 0 <= i < |capabilities| ==> LabelIsText(capabilities[i])
    ensures (forall i :: 0 <= i < |capabilities| ==>
               capabilities[i].JStr? || (capabilities[i].JObj? && Get(capabilities[i], "name", JNull).JStr?)) ==>
              JoinText(Labels(capabilities), ", ").Ok?
  {
    var labels := Labels(capabilities);
    forall i | 0 <= i < |capabilities| ensures labels[i].JStr? <==> LabelIsText(capabilities[i]) {
    }
  }

  /** The rendering of every registry entry, in registry order. */
  function LineAttempts(registry: Registry): (r: seq<Result<string, Exc>>)
    ensures |r| == |registry|
    decreases |registry|
  {
    if |registry| == 0 then []
    else
      var last := registry[|registry| - 1];
      LineAttempts(registry[..|registry| - 1]) + [AgentLine(last.0, last.1)]
  }

  lemma {:induction false} LineAttemptAt(registry: Registry, k: nat)
    requires k < |registry|
    ensures LineAttempts(registry)[k] == AgentLine(registry[k].0, registry[k].1)
    decreases |registry|
  {
    if k < |registry| - 1 {
      LineAttemptAt(registry[..|registry| - 1], k);
    }
  }

  /** The lines of the first `n` renderings, or the first failure. */
  function LinesUpTo(attempts: seq<Result<string, Exc>>, n: nat): Result<seq<string>, Exc>
    requires n <= |attempts|
  {
    if n == 0 then Ok([])
    else
      match LinesUpTo(attempts, n - 1)
      case Err(e) => Err(e)
      case Ok(lines) =>
        match attempts[n - 1]
        case Err(e) => Err(e)
        case Ok(line) => Ok(lines + [line])
  }

  /** The loop stops at the first failed rendering and reports its exception;
      otherwise it has every line, in order. */
  lemma {:induction false} LinesUpToSpec(attempts: seq<Result<string, Exc>>, n: nat)
    requires n <= |attempts|
    ensures var r := LinesUpTo(attempts, n);
            && (r.Err? <==> FirstErr(attempts, n) < n)
            && (r.Err? ==> r.error == attempts[FirstErr(attempts, n)].error)
            && (r.Ok? ==> |r.value| == n && forall k :: 0 <= k < n ==> attempts[k] == Ok(r.value[k]))
  {
    if n > 0 {
      LinesUpToSpec(attempts, n - 1);
    }
  }

  /** One more turn of the catalog loop: a rendered line is appended, a failure
      is the outcome of the whole loop. */
  lemma LinesStep(attempts: seq<Result<string, Exc>>, i: nat, lines: seq<string>)
    requires i < |attempts| && LinesUpTo(attempts, i) == Ok(lines)
    ensures attempts[i].Ok? ==> LinesUpTo(attempts, i + 1) == Ok(lines + [attempts[i].value])
    ensures attempts[i].Err? ==> LinesUpTo(attempts, |attempts|) == Err(attempts[i].error)
  {
    if attempts[i].Err? {
      LinesUpToSpec(attempts, i);
      LinesUpToSpec(attempts, |attempts|);
      assert FirstErr(attempts, |attempts|) == i;
    }
  }

  /** The catalog lines: one per registry entry, in registry order. */
  function Lines(registry: Registry): Result<seq<string>, Exc> {
    LinesUpTo(LineAttempts(registry), |registry|)
  }

  /** The catalog lines exist exactly when every entry renders, and then are the
      entries' lines in registry order; otherwise the exception is that of the
      first entry that does not render. */
  lemma LinesSpec(registry: Registry)
    ensures Lines(registry).Ok? <==> forall k :: 0 <= k < |registry| ==> AgentLine(registry[k].0, registry[k].1).Ok?
    ensures Lines(registry).Ok? ==>
              |Lines(registry).value| == |registry| &&
              forall k :: 0 <= k < |registry| ==> Lines(registry).value[k] == AgentLine(registry[k].0, registry[k].1).value
    ensures Lines(registry).Err? ==>
              var k := FirstErr(LineAttempts(registry), |registry|);
              && k < |registry|
              && AgentLine(registry[k].0, registry[k].1) == Err(Lines(registry).error)
              && forall j :: 0 <= j < k ==> AgentLine(registry[j].0, registry[j].1).Ok?
  {
    var attempts := LineAttempts(registry);
    LinesUpToSpec(attempts, |registry|);
    forall k | 0 <= k < |registry| ensures attempts[k] == AgentLine(registry[k].0, registry[k].1) {
      LineAttemptAt(registry, k);
    }
  }

  /** The agent description: the catalog lines joined by newlines. */
  function Catalog(registry: Registry): Result<string, Exc> {
    match Lines(registry)
    case Err(e) => Err(e)
    case Ok(lines) => Ok(Join(lines, "\n"))
  }

  /** The loop of `generate_plan_with_mistral` that appends one line per agent
      to `agent_list`, followed by the newline join. */
  method BuildCatalog(registry: Registry) returns (r: Result<string, Exc>)
    ensures r == Catalog(registry)
  {
    ghost var attempts := LineAttempts(registry);
    var agentList: seq<string> := [];
    for i := 0 to |registry|
      invariant LinesUpTo(attempts, i) == Ok(agentList)
    {
      var (name, data) := registry[i];
      var line := AgentLine(name, data);
      LineAttemptAt(registry, i);
      LinesStep(attempts, i, agentList);
      if line.Err? {
        return Err(line.error);
      }
      agentList := agentList + [line.value];
    }
    return Ok(Join(agentList, "\n"));
  }

  predicate NoNewline(s: string) {
    forall k :: 0 <= k < |s| ==> s[k] != '\n'
  }

  /** When no name or label holds a newline, the catalog splits back into
      exactly one line per agent, in registry order, each starting with
      "- <name>: ". */
  lemma CatalogOneLinePerAgent(registry: Registry)
    requires |registry| >= 1
    requires Lines(registry).Ok?
    requires forall k :: 0 <= k < |Lines(registry).value| ==> NoNewline(Lines(registry).value[k])
    ensures Catalog(registry).Ok?
    ensures |Split(Catalog(registry).value, '\n')| == |registry|
    ensures forall k :: 0 <= k < |registry| ==>
              var line := Split(Catalog(registry).value, '\n')[k];
              |line| >= |registry[k].0| + 4 && line[..|registry[k].0| + 4] == LinePrefix(registry[k].0)
  {
    var lines := Lines(registry).value;
    LinesSpec(registry);
    SplitJoin(lines, '\n');
    assert Join(lines, "\n") == Join(lines, ['\n']);
    forall k | 0 <= k < |registry|
      ensures |lines[k]| >= |registry[k].0| + 4 && lines[k][..|registry[k].0| + 4] == LinePrefix(registry[k].0)
    {
      AgentLineSpec(registry[k].0, registry[k].1);
      assert lines[k] == AgentLine(registry[k].0, registry[k].1).value;
    }
  }

  // ------------------------------------------------------------------
  // The plan request
  // ------------------------------------------------------------------

  /** The waterdrops a plan costs. */
  const PlanCost: nat := 1

  predicate GoalOk(goal: Json) {
    goal.JStr? && goal.s != ""
  }

  /** `generate_plan_with_mistral`: the goal is checked first, then the registry,
      then the catalog is built, and only then is the model asked, through the
      oracle `planner` (given the catalog and the goal); the plan is its reply
      stripped of surrounding whitespace, for a fixed cost of 1. */
  method GeneratePlan(goal: Json, registry: Registry,
                      planner: (string, string) -> Result<string, CallFailure>)
    returns (r: Result<(string, nat), Exc>)
    ensures !GoalOk(goal) ==> r == Err(PyExc(GoalError))
    ensures GoalOk(goal) && |registry| == 0 ==> r == Err(PyExc(EmptyRegistryError))
    ensures GoalOk(goal) && |registry| > 0 && Catalog(registry).Err? ==> r == Err(Catalog(registry).error)
    ensures GoalOk(goal) && |registry| > 0 && Catalog(registry).Ok? ==>
              match planner(Catalog(registry).value, goal.s)
              case Ok(content) => r == Ok((Strip(content), PlanCost))
              case Err(RequestFailed(t)) => r == Err(PyExc("Mistral API request failed: " + t))
              case Err(Unexpected(t)) => r == Err(PyExc("Unexpected error during plan generation: " + t))
  {
    if !goal.JStr? || goal.s == "" {
      return Err(PyExc(GoalError));
    }
    if |registry| == 0 {
      return Err(PyExc(EmptyRegistryError));
    }
    var agentDescription := BuildCatalog(registry);
    if agentDescription.Err? {
      return Err(agentDescription.error);
    }
    var reply := planner(agentDescription.value, goal.s);
    match reply
    case Ok(content) => return Ok((Strip(content), PlanCost));
    case Err(RequestFailed(t)) => return Err(PyExc("Mistral API request failed: " + t));
    case Err(Unexpected(t)) => return Err(PyExc("Unexpected error during plan generation: " + t));
  }
}
