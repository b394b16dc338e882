# ClearCoreAI agents and orchestrator helpers, modelled in Dafny

ClearCoreAI runs a small set of HTTP agents under an orchestrator. This project
models their deterministic parts:

- the auditor's trace tooling: trace and policy validation, the size-bounded
  preview and compaction of a trace, and the coercion of the language model's
  JSON reply into the audit schema;
- the orchestrator's plan helper: the goal and registry checks and the catalog
  of agents and capabilities;
- the orchestrator's `AgentManager` registry;
- the summarize-articles agent: choosing the articles, the summary loop, the
  mood, and the `execute` dispatch;
- the fetch-articles agent: the three fixed articles, the article collection,
  the waterdrop charge, and `execute`;
- the waterdrop meter: a lazily loaded cache written through to a file;
- the auditor agent: building the payload, the key check, reading the report
  back, the mood and waterdrop updates, and `execute`.

Every call to the language model is a function parameter (an oracle). So are
`json.loads`, `float()` on a string and the text of a float; the model says
what each result is in terms of the oracle's answer. A Python value is the
datatype `PyValue.Json`. A dictionary is an ordered list of members, read by the
first member with a key. Exceptions are `PyValue.Exc`. An `HTTPException`
prints as "<status>: <detail>", which is what `str(e)` gives for it.

Modules, one per source file plus three shared ones:

- `Base`: Option/Result.
- `PyText`: Python `strip`, `lower`, `find`, `join`, `split`, `str(int)`.
- `PyValue`: JSON values, `.get`, truthiness, `str()`, exceptions.
- `AuditorTools`, `PlanCatalog`, `AgentManagement`, `WaterMeter`,
  `SummarizeArticles`, `FetchArticles`, `AuditorApp`: one per source file.

State that the source updates in place is a class:

- `AgentManager`, with its list of names;
- the water `Meter`, with its cache and its file;
- `SummarizeAgent`, `FetchAgent` and `AuditorAgent`, with their mood, their
  counter and their keys.

Each method is proved against a pure function of the old state.

## Model

| member | source | states |
|---|---|---|
| AuditorTools.CheckTrace | agents/auditor/tools/llm_utils.py:396-406 | a trace passes exactly when it is a dict whose "steps" is a non-empty list of dicts each holding "agent" and "output"; otherwise the first failed check, in source order, is reported, and a step is blamed only when all steps before it are fine |
| AuditorTools.ValidateTrace | agents/auditor/tools/llm_utils.py:396-406 | the loop with early raise decides exactly what `CheckTrace` decides |
| AuditorTools.MissingAgents | agents/auditor/tools/llm_utils.py:436-445 | the agents reported missing are sorted, without duplicates, and exactly the step agents that have no policy; none are missing iff every step agent has a policy |
| AuditorTools.WithoutPolicy | agents/auditor/tools/llm_utils.py:443 | keeps exactly the names without a policy, preserving sortedness |
| AuditorTools.CheckPolicyShapes | agents/auditor/tools/llm_utils.py:448-453 | passes iff every policy, in dictionary order, is a dict with a non-empty "rules" list; otherwise blames the first bad one |
| AuditorTools.CheckPolicies | agents/auditor/tools/llm_utils.py:431-453 | passes iff the policies are a non-empty dict, every step agent is a non-empty string with a policy, and every policy (also of agents not in the trace) has non-empty rules |
| AuditorTools.CheckPoliciesOrder | agents/auditor/tools/llm_utils.py:431-453 | which error is raised: the dict check first, then the agent names, then missing policies, then the shapes |
| AuditorTools.ValidatePolicies | agents/auditor/tools/llm_utils.py:431-453 | the loops decide exactly what `CheckPolicies` decides |
| AuditorTools.CollectAgentNames | agents/auditor/tools/llm_utils.py:436-441 | collects every step agent in order, or stops at the first step without a non-empty agent string |
| AuditorTools.ValidatePolicyShapes | agents/auditor/tools/llm_utils.py:448-453 | the loop over the policies decides exactly what `CheckPolicyShapes` decides |
| AuditorTools.PreviewWithinBudget | agents/auditor/tools/llm_utils.py:517-530 | every preview is within budget: strings of at most `max_chars`, lists of at most 10 items, dicts of at most 20 entries, at every depth |
| AuditorTools.PreviewKeepsBudgetedValue | agents/auditor/tools/llm_utils.py:517-530 | a value already within budget is its own preview (None, numbers, booleans and short strings unchanged) |
| AuditorTools.PreviewIdempotent | agents/auditor/tools/llm_utils.py:517-530 | previewing twice equals previewing once |
| AuditorTools.CompactStepFields | agents/auditor/tools/llm_utils.py:480-489 | a compact step copies "agent" and "error", and "has_error" is the truthiness of "error" |
| AuditorTools.CompactStepWithinBudget | agents/auditor/tools/llm_utils.py:485-486 | the input and output previews of a compact step are within budget |
| AuditorTools.CompactTrace | agents/auditor/tools/llm_utils.py:479-490 | the compact trace is {"steps": [...]} with one compact step per step, in order |
| AuditorTools.BraceSlice | agents/auditor/tools/llm_utils.py:313-317 | the retry slice exists iff there is a '{' and a later '}', and then runs from the first '{' to the last '}' inclusive |
| AuditorTools.ParseReply | agents/auditor/tools/llm_utils.py:308-321 | the whole content is parsed when it parses; otherwise only the brace slice is tried; otherwise the parse fails |
| AuditorTools.Clamp | agents/auditor/tools/llm_utils.py:342 | the score is in [0, 1]; values inside are kept, values below become 0 and values above become 1 |
| AuditorTools.DetailStatus | agents/auditor/tools/llm_utils.py:335-345 | a detail status is in {valid, warning, fail}: the requested lower-cased one when it is in the set, "warning" otherwise |
| AuditorTools.DetailComment | agents/auditor/tools/llm_utils.py:336-348 | the comment is the stripped comment, or "No comment." when that is empty; never empty |
| AuditorTools.DetailScore | agents/auditor/tools/llm_utils.py:337-342 | the score is the clamped `float()` of the requested one, 0.5 when missing or not numeric |
| AuditorTools.CoerceDetail | agents/auditor/tools/llm_utils.py:333-349 | every coerced detail has a known status, a score in [0, 1] and a non-empty comment |
| AuditorTools.CoerceDetails | agents/auditor/tools/llm_utils.py:333-349 | the details are coerced in order iff every item is a dict, or the AttributeError of the first item that is not |
| AuditorTools.DeriveStatus | agents/auditor/tools/llm_utils.py:356-363 | the derived status is "fail" iff some detail fails, "partial" iff none fails and some warns, "ok" otherwise |
| AuditorTools.CountValid | agents/auditor/tools/llm_utils.py:366 | the number of valid details, equal to the total iff all are valid and to 0 iff none is |
| AuditorTools.CoerceAudit | agents/auditor/tools/llm_utils.py:308-370 | a parse failure, a reply that is not a dict and a detail that is not a dict are each raised; otherwise a report is built |
| AuditorTools.CoerceAuditDetails | agents/auditor/tools/llm_utils.py:329-354 | a report has at least one detail, all within the schema: the coerced items in order, or exactly the placeholder detail when there are none |
| AuditorTools.CoerceAuditStatusAndSummary | agents/auditor/tools/llm_utils.py:323-368 | the global status is known: the requested one when known, derived otherwise; the summary is non-empty: the reply's, or "<valid>/<total> agents validated" |
| AuditorTools.ParseAndCoerce | agents/auditor/tools/llm_utils.py:286-370 | the imperative coercion of the reply returns exactly `CoerceAudit` |
| AuditorTools.AuditCost | agents/auditor/tools/llm_utils.py:146-147 | the cost 6 + 0.5 per step is at least 6 |
| AuditorTools.AuditOutcomeSpec | agents/auditor/tools/llm_utils.py:133-149 | both validations come before the model call, each refusal is the ValueError of the first failed check, a failed call is the exception with the "Mistral API call failed: " or "Unexpected response shape from Mistral: " prefix, a report is within the schema and costs exactly 6 + 0.5 per step |
| AuditorTools.AuditTrace | agents/auditor/tools/llm_utils.py:133-149 | the audit call returns exactly `AuditOutcome` |
| PlanCatalog.LabelsJoinable | clearcoreai/orchestrator/tools/llm_utils.py:93-94 | joining the labels fails iff some capability is a dict whose "name" is not a string; plain strings and dicts with a string "name" always join |
| PlanCatalog.LabelOfCapability | clearcoreai/orchestrator/tools/llm_utils.py:93 | a dict capability with a string "name" shows that name; a string capability shows itself |
| PlanCatalog.Capabilities | clearcoreai/orchestrator/tools/llm_utils.py:91-93 | reads data.get("manifest", {}).get("capabilities", []): a missing manifest gives no capabilities; `.get` on a data or manifest that is not a dict raises AttributeError; a list gives its items, a string its characters and a dict its keys; any other value raises "not iterable" |
| PlanCatalog.AgentLineSpec | clearcoreai/orchestrator/tools/llm_utils.py:90-94 | a catalog line is "- <name>: " followed by the labels joined by ", ", or the exception raised while reading or joining them |
| PlanCatalog.AgentWithoutCapabilities | clearcoreai/orchestrator/tools/llm_utils.py:91-94 | an agent without a manifest, or without capabilities, renders as "- <name>: " |
| PlanCatalog.LinesSpec | clearcoreai/orchestrator/tools/llm_utils.py:89-94 | the lines exist iff every entry renders, and are then the entries' lines in registry order; otherwise the error is that of the first entry that fails |
| PlanCatalog.BuildCatalog | clearcoreai/orchestrator/tools/llm_utils.py:89-95 | the loop appending to `agent_list`, then the newline join, returns exactly `Catalog` |
| PlanCatalog.CatalogOneLinePerAgent | clearcoreai/orchestrator/tools/llm_utils.py:89-95 | when no line holds a newline, the catalog splits back into exactly one line per agent, in order, each starting with "- <name>: " |
| PlanCatalog.GeneratePlan | clearcoreai/orchestrator/tools/llm_utils.py:82-141 | the goal is checked first, the registry second, both before any call; the plan is the stripped reply at a cost of 1; each failure keeps the exception's text |
| AgentManagement.Registered | clearcoreai/orchestrator/agent_manager.py:33-35 | registering fails iff the name is already present, with "Agent already registered."; otherwise the name goes at the end and the earlier names are kept |
| AgentManagement.RegisteredKeepsNoDuplicates | clearcoreai/orchestrator/agent_manager.py:33-35 | registration preserves the absence of duplicates |
| AgentManagement.RegisterAllSpec | clearcoreai/orchestrator/agent_manager.py:29-35 | after a series of registrations the list has no duplicates, keeps its prefix, and holds exactly the old and the new names |
| AgentManagement.AgentManager.constructor | clearcoreai/orchestrator/agent_manager.py:26-27 | a new manager has an empty registry |
| AgentManagement.AgentManager.Register | clearcoreai/orchestrator/agent_manager.py:29-35 | appends an absent name, or raises and leaves the list unchanged; no duplicates arise |
| AgentManagement.AgentManager.GetAgents | clearcoreai/orchestrator/agent_manager.py:37-41 | returns the manager's own list object, not a copy |
| WaterMeter.LoadStep | agents/summarize_articles/tools/water.py:52-58 | the cache becomes the stored total, 0.0 without a file or key, and is returned; the file is only read |
| WaterMeter.SaveStep | agents/summarize_articles/tools/water.py:79-80 | the file holds the saved value; the cache is untouched |
| WaterMeter.IncrementStep | agents/summarize_articles/tools/water.py:104-108 | the new cache is the old total plus the amount, loading first only when the cache is unset; the file then equals the cache |
| WaterMeter.GetStep | agents/summarize_articles/tools/water.py:126-129 | returns the current total, loading only when the cache is unset; a set cache is returned without change |
| WaterMeter.SaveThenGet | agents/summarize_articles/tools/water.py:79-129 | after a save, a get on a loaded meter still returns the old cached value |
| WaterMeter.IncrementAllSums | agents/summarize_articles/tools/water.py:104-108 | a series of increments adds up to the sum of the amounts, and the file equals the cache |
| WaterMeter.Meter.Load | agents/summarize_articles/tools/water.py:52-58 | the meter's new state and result are `LoadStep` of the old state |
| WaterMeter.Meter.Save | agents/summarize_articles/tools/water.py:79-80 | the meter's new state is `SaveStep` of the old state |
| WaterMeter.Meter.Increment | agents/summarize_articles/tools/water.py:104-108 | the meter's new state is `IncrementStep` of the old state |
| WaterMeter.Meter.Get | agents/summarize_articles/tools/water.py:126-129 | the meter's new state and result are `GetStep` of the old state |
| SummarizeArticles.SummarizeWithMistralSpec | agents/summarize_articles/tools/llm_utils.py:59-87 | only a non-empty string reaches the model; the summary is the stripped reply at a cost of 2; each failure keeps its text |
| SummarizeArticles.SummarizeArticleSpec | agents/summarize_articles/app.py:127-136 | an article that is not a dict with "content" fails with the 400 before the model is asked; every failure is a 400; a success costs 2 |
| SummarizeArticles.ArticlesOf | agents/summarize_articles/app.py:122 | truthy "articles" are used; otherwise collection.items; otherwise an empty list; `.get` on a non-dict raises |
| SummarizeArticles.CollectionLikeArticles | agents/summarize_articles/app.py:122 | a non-empty list is found the same way under "articles" and as the items of a "collection" |
| SummarizeArticles.UniformCost | agents/summarize_articles/app.py:124-139 | the total cost of summaries that each cost 2 is twice their number, 0 for none |
| SummarizeArticles.SummarizeOutcomeSpec | agents/summarize_articles/app.py:122-139 | on success, exactly one summary per article in input order, each the model's summary of that article's content, at a total cost of 2 per article |
| SummarizeArticles.NothingToSummarize | agents/summarize_articles/app.py:122-139 | with no articles, the result is no summaries at cost 0 |
| SummarizeArticles.InvalidArticleStops | agents/summarize_articles/app.py:126-136 | the first article without "content" stops the loop with its 400 when the earlier articles succeed |
| SummarizeArticles.MoodAfterSpec | agents/summarize_articles/app.py:142-143 | after success the status is "active" and last_summary is the last summary (None without articles); other entries are untouched |
| SummarizeArticles.StructuredKeepsSummaries | agents/summarize_articles/app.py:193-197 | structured output maps each summary to {"summary": s, "format": "simple_text"}, keeping order and length |
| SummarizeArticles.StructuredOutput | agents/summarize_articles/app.py:189-197 | missing or empty summaries raise the 400; truthy summaries are iterated (a list by its items, a string by its characters, a dict by its keys) into {"summary": s, "format": "simple_text"} entries; a non-iterable value raises "not iterable" |
| SummarizeArticles.Execution | agents/summarize_articles/app.py:180-203 | every failure, an unknown capability included, surfaces as a 500 "Execution failed: ..." |
| SummarizeArticles.SummarizeItems | agents/summarize_articles/app.py:123-139 | the loop with early raise returns the summaries and cost the per-article attempts determine |
| SummarizeArticles.SummarizeAgent.constructor | agents/summarize_articles/app.py:45-53 | the mood comes from the file, or is the default |
| SummarizeArticles.SummarizeAgent.Summarize | agents/summarize_articles/app.py:122-151 | the reply is the summaries and their cost, and the mood changes only on success |
| SummarizeArticles.SummarizeAgent.Execute | agents/summarize_articles/app.py:180-203 | the reply is `Execution`, and the mood is updated exactly when a summary ran to completion |
| FetchArticles.StaticArticlesShape | agents/fetch_articles/app.py:86-104 | the fixed payload holds exactly three articles, each with a non-empty title, source and content |
| FetchArticles.StaticArticlesAreSummarizable | agents/fetch_articles/app.py:86-104 | the fixed articles are what the summarize agent accepts: each has a non-empty string content |
| FetchArticles.GenerateArticleCollectionSpec | agents/fetch_articles/app.py:125-131 | "items" is the input's articles unchanged and "count" is their length; without "articles" it is count 0 and no items; a non-dict input or an unsized value raises |
| FetchArticles.CollectionFeedsSummarizer | agents/fetch_articles/app.py:125-131 | a non-empty list turned into a collection is summarized exactly like the list itself |
| FetchArticles.ExecutionSpec | agents/fetch_articles/app.py:258-279 | every failure is a 500 "Execution failed: ..."; an unknown capability costs nothing; the fixed articles ignore the input; a known capability is charged even when the collection cannot be built |
| FetchArticles.FetchAgent.constructor | agents/fetch_articles/app.py:55-67 | the total starts from the file, 0.0 without one |
| FetchArticles.FetchAgent.SaveConsumed | agents/fetch_articles/app.py:63-65 | the file holds {"aiwaterdrops_consumed": total}, which loads back as the total; the total is unchanged |
| FetchArticles.FetchAgent.GetArticles | agents/fetch_articles/app.py:217-220 | adds 3 to the total, saves it, and returns the fixed articles |
| FetchArticles.FetchAgent.Execute | agents/fetch_articles/app.py:258-279 | the reply is `Execution`; the charge is added and saved before a known capability runs; otherwise the total and the file are unchanged |
| AuditorApp.ParseTraceSpec | agents/auditor/app.py:91-101 | `ExecutionTrace(**input_data)` validates iff the input is a dict whose "steps" is a list of valid steps, one step per item in order; "policies" and every other key are ignored |
| AuditorApp.ParseStepsSpec | agents/auditor/app.py:73-101 | the steps validate iff every item does, each step being its item's validation |
| AuditorApp.StepDictRoundTrip | agents/auditor/app.py:314-321 | a step's plain dict validates back to the same step and holds the keys the tool requires |
| AuditorApp.BuildStepsPayload | agents/auditor/app.py:314-321 | one dict per step, in order, copying agent, input, output and error |
| AuditorApp.StepsPayloadChecks | agents/auditor/app.py:314-333 | the converted steps pass the tool's trace check iff there is at least one |
| AuditorApp.AsWrittenTraceHasNoPolicies | agents/auditor/app.py:330-333 | the trace handed to the tool has no "policies" |
| AuditorApp.ReadDetailDefaults | agents/auditor/app.py:342-348 | a detail without keys reads as agent "unknown", status "warning", comment "" and score 0.0 |
| AuditorApp.ReadResult | agents/auditor/app.py:335-357 | the loop appending to `details_models` reads the report exactly as `ReadAudit` |
| AuditorApp.ReadAuditRoundTrip | agents/auditor/app.py:335-357 | reading back a report the tool returns gives that report unchanged |
| AuditorApp.WaterUsed | agents/auditor/app.py:351 | the charge is the tool's cost, or 2.0 when that is zero; never zero |
| AuditorApp.TryAuditSpec | agents/auditor/app.py:328-358 | the `try` block fails exactly when the tool does; otherwise it answers the tool's report with "[LLM] " before the summary, and the tool's cost |
| AuditorApp.RunAuditAsWrittenNeverSucceeds | agents/auditor/app.py:324-361 | as written, `run_audit` never succeeds: with a key, every call is the 500 of the policy refusal, or of empty steps |
| AuditorApp.RunAuditReachesModel | agents/auditor/app.py:324-361 | corrected run (`RunAuditWithPolicies`, the policies passed next to the trace): valid steps and policies reach the model, and a coerced reply is answered with the "[LLM] " summary and the tool's cost |
| AuditorApp.RunAuditOnSpec | agents/auditor/app.py:324-361 | for whatever trace `run_audit` hands the tool: a missing key is the 500 before any audit; every failure after the key check is a 500; a response comes only from a trace whose steps and policies the tool accepted, is within the schema, is marked "[LLM] ", and is charged the tool's cost of at least 6.5 |
| AuditorApp.MoodAfterAuditSpec | agents/auditor/app.py:364-365 | after an audit the mood is "active" and last_check is the summary; other entries are untouched |
| AuditorApp.ExecutionSpec | agents/auditor/app.py:401-413 | `execute` never answers with a report: an unknown capability is the bare 400, not wrapped; an input that is not a mapping is the TypeError of `ExecutionTrace(**input_data)`; an invalid trace is the validation error; a valid audit request gets a 500 (the missing key, or the tool's refusal of a trace without policies) |
| AuditorApp.AuditorAgent.constructor | agents/auditor/app.py:50-70 | license keys default to {}, the mood to neutral with no last check, and the meter is loaded |
| AuditorApp.AuditorAgent.RunAudit | agents/auditor/app.py:314-372 | the reply is `RunAuditAsWritten` (the tool gets the steps only); a success would update the mood and add the water used to the meter; as written every call fails and leaves the mood and the meter unchanged |
| AuditorApp.AuditorAgent.Execute | agents/auditor/app.py:401-413 | the reply is `Execution`; the mood and the meter never change |
| PyValue.SetKeySpec | agents/summarize_articles/app.py:142-143 | after `d[key] = v`, the key reads v, other keys read as before, and a new key goes last |

## Left out

- Network calls to Mistral are oracle parameters. So are the request headers, the prompt texts and the answers' JSON shape (`choices[0].message.content`).
- `json.loads`, `json.dump` and file I/O. A file is a value: `WaterMeter.CounterFile`, the mood's members, an optional license file. Writing mood.json is the mood field's new value.
- Floating point. Water amounts and scores are `real`. Rounding of 0.02 steps, and the text of a float, are not modelled; the text is an oracle in `AuditorApp`.
- Exception texts from pydantic and from `float()` on unconvertible values are reduced to fixed texts (`AuditorApp.ValidationError`, `AuditorApp.FloatConversionFailed`). The TypeError of `**` on a non-mapping input (`AuditorApp.NotAMapping`) names the model as `ExecutionTrace()`, without the module prefix Python may add. Which case fails, and in which order, is modelled.
- `AuditorApp.ParseStep`: a pydantic `str` field accepts only a string; pydantic's other coercions are not modelled.
- The auditor's tools/water.py is not part of this model. The auditor's meter is the summarize agent's `WaterMeter.Meter`, which has the same interface.
- An agent that stops at import is not modelled. This covers a missing license_keys.json for the summarize agent and the orchestrator, and a missing mood.json for the fetch agent.
- A counter file that holds something other than a number is not modelled. With such a file, `+=` would raise.
- FastAPI routing, /health, /metrics, /mood, /manifest and /capabilities, start-up registration with the orchestrator, and `time.time()` are left out.
- Concurrency is left out; the meter is single-threaded as in the source.
- clearcoreai/orchestrator/main.py calls `AgentManager` with arguments and methods it does not have. The model follows agent_manager.py.
- The summarize agent's tools/llm_utils.py is modelled only as `SummarizeWithMistral`: the text check, the oracle call, the stripped reply and the cost of 2.
- PyText.Lower: only ASCII letters are lower-cased; Python's `str.lower` maps other characters too (the Kelvin sign U+212A becomes "k"), so a reply status such as "O\u212A" that Python keeps as "ok" is derived instead.
- PyValue.Repr: a nested string is always quoted with single quotes and nothing is escaped; Python switches to double quotes for a string holding a single quote and escapes backslashes and control characters, so `str(["it's"])` differs.
- `AuditorApp.AuditorAgent` follows `run_audit` as written. The corrected run, with the policies forwarded, is the function `AuditorApp.RunAuditWithPolicies` beside it; no agent method uses it.
- `AuditorTools.AuditTrace`: the chat oracle receives the compact trace and the policies; the messages built from them are not modelled.
- `SummarizeArticles.SummarizeAgent.Execute`: the `await request.json()` parse is not modelled; the request arrives as a value.

## Findings

| source | as written | input that shows it | evidently intended | confidence | as-written member | corrected member |
|---|---|---|---|---|---|---|
| agents/auditor/app.py:330-333 | `run_audit` calls the audit tool with `{"steps": steps_payload}` only; the tool requires a non-empty "policies" dict (agents/auditor/tools/llm_utils.py:431-433), and `ExecutionTrace` drops any "policies" the request carries | any trace with at least one step and a "mistral" key: the tool raises "execution_trace.policies must be a non-empty dict" and the call fails with 500 "LLM audit failed: ..." | the request's per-agent policies are forwarded to the tool next to the steps | not executed; high | AuditorApp.RunAuditAsWrittenNeverSucceeds | AuditorApp.RunAuditReachesModel |
