/** The summarize-articles agent (agents/summarize_articles/app.py): picks the
    articles out of a payload, summarizes them one by one through the language
    model, records its mood, and dispatches the orchestrator's `execute` calls. */
module SummarizeArticles {
  import opened Base
  import opened PyText
  import opened PyValue

  // ------------------------------------------------------------------
  // One article
  // ------------------------------------------------------------------

  /** The waterdrops one summary costs. */
  const SummaryCost: nat := 2

  const InvalidTextMessage := "Article text must be a non-empty string."
  const InvalidArticleDetail := "Invalid article format: missing 'content' field."

  /** `summarize_with_mistral(article_text, api_key)`: refuses anything but a
      non-empty string before any request; otherwise the oracle `mistral` is
      asked, and the summary is its reply stripped of surrounding whitespace, for
      a fixed cost of 2. */
  function SummarizeWithMistral(articleText: Json, apiKey: Json,
                                mistral: (string, Json) -> Result<string, CallFailure>): Result<(string, nat), Exc> {
    if !Truthy(articleText) || !articleText.JStr? then Err(PyExc(InvalidTextMessage))
    else
      match mistral(articleText.s, apiKey)
      case Ok(content) => Ok((Strip(content), SummaryCost))
      case Err(RequestFailed(t)) => Err(PyExc("Mistral API call failed: " + t))
      case Err(Unexpected(t)) => Err(PyExc("Unexpected error during summarization: " + t))
  }

  /** Only a non-empty string reaches the model; its summary is the stripped
      reply, at a cost of 2; each kind of failure keeps the exception's text. */
  lemma SummarizeWithMistralSpec(articleText: Json, apiKey: Json,
                                 mistral: (string, Json) -> Result<string, CallFailure>)
    ensures var r := SummarizeWithMistral(articleText, apiKey, mistral);
            && (!(articleText.JStr? && articleText.s != "") ==> r == Err(PyExc(InvalidTextMessage)))
            && (articleText.JStr? && articleText.s != "" ==>
                  match mistral(articleText.s, apiKey)
                  case Ok(content) => r == Ok((Strip(content), SummaryCost))
                  case Err(RequestFailed(t)) => r == Err(PyExc("Mistral API call failed: " + t))
                  case Err(Unexpected(t)) => r == Err(PyExc("Unexpected error during summarization: " + t)))
  {
  }

  /** The 400 every failure inside the per-article `try` becomes. */
  function FailedToSummarize(e: Exc): Exc {
    HttpExc(400, "Failed to summarize article: " + ExcText(e))
  }

  /** Premise of the per-article `try`: the article is a dictionary with "content". */
  predicate ArticleOk(article: Json) {
    article.JObj? && HasKey(article, "content")
  }

  /** The `try` block of the loop for one article: the missing-content check,
      then the summary of the article's content with the "mistral" license key. */
  function TryArticle(article: Json, licenseKeys: Json,
                      mistral: (string, Json) -> Result<string, CallFailure>): Result<(string, nat), Exc> {
    if !ArticleOk(article) then Err(HttpExc(400, InvalidArticleDetail))
    else if !licenseKeys.JObj? then Err(NoGetMethod(licenseKeys))
    else SummarizeWithMistral(Get(article, "content", JStr("")), Get(licenseKeys, "mistral", JStr("")), mistral)
  }

  /** One turn of the loop: the summary and cost of one article, or the 400 its
      `except` clause raises. */
  function SummarizeArticle(article: Json, licenseKeys: Json,
                            mistral: (string, Json) -> Result<string, CallFailure>): Result<(string, nat), Exc> {
    match TryArticle(article, licenseKeys, mistral)
    case Ok(v) => Ok(v)
    case Err(e) => Err(FailedToSummarize(e))
  }

  /** An article that is not a dictionary with "content" is refused with the
      400 before the model is asked; every failure is a 400; a success costs 2
      and is the summary of the article's content. */
  lemma SummarizeArticleSpec(article: Json, licenseKeys: Json,
                             mistral: (string, Json) -> Result<string, CallFailure>)
    ensures var r := SummarizeArticle(article, licenseKeys, mistral);
            && (!ArticleOk(article) ==> r == Err(FailedToSummarize(HttpExc(400, InvalidArticleDetail))))
            && (r.Err? ==> r.error.HttpExc? && r.error.status == 400)
            && (r.Ok? ==> r.value.1 == SummaryCost && ArticleOk(article) && licenseKeys.JObj? &&
                          SummarizeWithMistral(Get(article, "content", JStr("")), Get(licenseKeys, "mistral", JStr("")), mistral) == r)
  {
  }

  // ------------------------------------------------------------------
  // The list of articles
  // ------------------------------------------------------------------

  /** `payload.get("articles") or payload.get("collection", {}).get("items", [])`. */
  function ArticlesOf(payload: Json): (r: Result<Json, Exc>)
    ensures !payload.JObj? ==> r == Err(NoGetMethod(payload))
    ensures payload.JObj? && Truthy(Get(payload, "articles", JNull)) ==> r == Ok(Get(payload, "articles", JNull))
    ensures payload.JObj? && !HasKey(payload, "articles") && !HasKey(payload, "collection") ==> r == Ok(JArr([]))
  {
    if !payload.JObj? then Err(NoGetMethod(payload))
    else
      var articles := Get(payload, "articles", JNull);
      if Truthy(articles) then Ok(articles)
      else
        var collection := Get(payload, "collection", JObj([]));
        if !collection.JObj? then Err(NoGetMethod(collection))
        else Ok(Get(collection, "items", JArr([])))
  }

  /** A non-empty list is found the same way directly under "articles" and as
      the items of a "collection". */
  lemma CollectionLikeArticles(items: seq<Json>)
    requires |items| > 0
    ensures ArticlesOf(JObj([("articles", JArr(items))])) == Ok(JArr(items))
    ensures ArticlesOf(JObj([("collection", JObj([("items", JArr(items))]))])) == Ok(JArr(items))
  {
    var collected := JObj([("collection", JObj([("items", JArr(items))]))]);
    assert Lookup(collected.members, "articles") == Lookup(collected.members[1..], "articles") == None;
    assert Get(collected, "collection", JObj([])) == JObj([("items", JArr(items))]);
  }

  /** What the loop body gives for one article: a summary and its cost, or the
      exception that stops the loop. */
  type Attempt = Result<(string, nat), Exc>

  /** The attempt for every article, in order. */
  function Attempts(items: seq<Json>, licenseKeys: Json,
                    mistral: (string, Json) -> Result<string, CallFailure>): (r: seq<Attempt>)
    ensures |r| == |items|
    decreases |items|
  {
    if |items| == 0 then []
    else Attempts(items[..|items| - 1], licenseKeys, mistral) + [SummarizeArticle(items[|items| - 1], licenseKeys, mistral)]
  }

  lemma {:induction false} AttemptAt(items: seq<Json>, k: nat, licenseKeys: Json,
                                     mistral: (string, Json) -> Result<string, CallFailure>)
    requires k < |items|
    ensures Attempts(items, licenseKeys, mistral)[k] == SummarizeArticle(items[k], licenseKeys, mistral)
    decreases |items|
  {
    if k < |items| - 1 {
      AttemptAt(items[..|items| - 1], k, licenseKeys, mistral);
    }
  }

  /** The cost of the successful attempts among the first `n`. */
  function TotalCost(attempts: seq<Attempt>, n: nat): nat
    requires n <= |attempts|
  {
    if n == 0 then 0
    else TotalCost(attempts, n - 1) + (if attempts[n - 1].Ok? then attempts[n - 1].value.1 else 0)
  }

  /** When every attempt succeeds at the same cost, the total is that cost times their number. */
  lemma {:induction false} UniformCost(attempts: seq<Attempt>, n: nat, cost: nat)
    requires n <= |attempts|
    requires forall k :: 0 <= k < n ==> attempts[k].Ok? && attempts[k].value.1 == cost
    ensures TotalCost(attempts, n) == cost * n
  {
    if n > 0 {
      UniformCost(attempts, n - 1, cost);
    }
  }

  /** The summaries of the first `n` attempts and their total cost, or the
      first failure. */
  function SummariesUpTo(attempts: seq<Attempt>, n: nat): Result<(seq<string>, nat), Exc>
    requires n <= |attempts|
  {
    if n == 0 then Ok(([], 0))
    else
      match SummariesUpTo(attempts, n - 1)
      case Err(e) => Err(e)
      case Ok(done) =>
        match attempts[n - 1]
        case Err(e) => Err(e)
        case Ok(one) => Ok((done.0 + [one.0], done.1 + one.1))
  }

  /** The loop stops at the first failed attempt and reports its exception;
      otherwise it has one summary per attempt, in order, and their total cost. */
  lemma {:induction false} SummariesUpToSpec(attempts: seq<Attempt>, n: nat)
    requires n <= |attempts|
    ensures var r := SummariesUpTo(attempts, n);
            && (r.Err? <==> FirstErr(attempts, n) < n)
            && (r.Err? ==> r.error == attempts[FirstErr(attempts, n)].error)
            && (r.Ok? ==>
                  && |r.value.0| == n && r.value.1 == TotalCost(attempts, n)
                  && forall k :: 0 <= k < n ==> attempts[k] == Ok((r.value.0[k], attempts[k].value.1)))
  {
    if n > 0 {
      SummariesUpToSpec(attempts, n - 1);
    }
  }

  /** One more turn of the loop: a success extends the summaries and the cost,
      a failure is the outcome of the whole loop. */
  lemma SummariesStep(attempts: seq<Attempt>, i: nat, done: (seq<string>, nat))
    requires i < |attempts| && SummariesUpTo(attempts, i) == Ok(done)
    ensures attempts[i].Ok? ==>
              SummariesUpTo(attempts, i + 1) == Ok((done.0 + [attempts[i].value.0], done.1 + attempts[i].value.1))
    ensures attempts[i].Err? ==> SummariesUpTo(attempts, |attempts|) == Err(attempts[i].error)
  {
    if attempts[i].Err? {
      SummariesUpToSpec(attempts, i);
      SummariesUpToSpec(attempts, |attempts|);
      assert FirstErr(attempts, |attempts|) == i;
    }
  }

  /** The articles `summarize(payload)` iterates over, or the exception raised
      on the way to them. */
  function ArticleItems(payload: Json): Result<seq<Json>, Exc> {
    match ArticlesOf(payload)
    case Err(e) => Err(e)
    case Ok(articles) =>
      match IterItems(articles)
      case None => Err(NotIterable(articles))
      case Some(items) => Ok(items)
  }

  /** What `summarize(payload)` computes: the summaries and the waterdrops used,
      or the exception it raises. */
  function SummarizeOutcome(payload: Json, licenseKeys: Json,
                            mistral: (string, Json) -> Result<string, CallFailure>): Result<(seq<string>, nat), Exc> {
    match ArticleItems(payload)
    case Err(e) => Err(e)
    case Ok(items) => SummariesUpTo(Attempts(items, licenseKeys, mistral), |items|)
  }

  /** A successful call summarizes every article, in order, each one through the
      model's reply for its content, and costs 2 waterdrops per article. */
  lemma SummarizeOutcomeSpec(payload: Json, licenseKeys: Json,
                             mistral: (string, Json) -> Result<string, CallFailure>)
    requires SummarizeOutcome(payload, licenseKeys, mistral).Ok?
    ensures ArticleItems(payload).Ok?
    ensures var items := ArticleItems(payload).value;
            var out := SummarizeOutcome(payload, licenseKeys, mistral).value;
            && |out.0| == |items| && out.1 == SummaryCost * |items|
            && forall k :: 0 <= k < |items| ==>
                 ArticleOk(items[k]) && licenseKeys.JObj? &&
                 SummarizeWithMistral(Get(items[k], "content", JStr("")), Get(licenseKeys, "mistral", JStr("")), mistral)
                   == Ok((out.0[k], SummaryCost))
  {
    var items := ArticleItems(payload).value;
    var attempts := Attempts(items, licenseKeys, mistral);
    SummariesUpToSpec(attempts, |items|);
    forall k | 0 <= k < |items|
      ensures attempts[k].Ok? && attempts[k].value.1 == SummaryCost
      ensures ArticleOk(items[k]) && licenseKeys.JObj? &&
              SummarizeWithMistral(Get(items[k], "content", JStr("")), Get(licenseKeys, "mistral", JStr("")), mistral)
                == attempts[k]
    {
      AttemptAt(items, k, licenseKeys, mistral);
      SummarizeArticleSpec(items[k], licenseKeys, mistral);
    }
    UniformCost(attempts, |items|, SummaryCost);
  }

  /** A payload that names no articles is summarized to nothing, at no cost. */
  lemma NothingToSummarize(licenseKeys: Json, mistral: (string, Json) -> Result<string, CallFailure>)
    ensures SummarizeOutcome(JObj([]), licenseKeys, mistral) == Ok(([], 0))
  {
  }

  /** An article that is not a dictionary with "content" stops the whole call
      with the 400, whatever the model would have answered. */
  lemma InvalidArticleStops(items: seq<Json>, k: nat, licenseKeys: Json,
                            mistral: (string, Json) -> Result<string, CallFailure>)
    requires k < |items| && !ArticleOk(items[k])
    requires forall j :: 0 <= j < k ==> SummarizeArticle(items[j], licenseKeys, mistral).Ok?
    ensures SummarizeOutcome(JObj([("articles", JArr(items))]), licenseKeys, mistral) ==
              Err(FailedToSummarize(HttpExc(400, InvalidArticleDetail)))
  {
    var payload := JObj([("articles", JArr(items))]);
    assert Get(payload, "articles", JNull) == JArr(items);
    assert ArticleItems(payload) == Ok(items);
    var attempts := Attempts(items, licenseKeys, mistral);
    AttemptAt(items, k, licenseKeys, mistral);
    SummarizeArticleSpec(items[k], licenseKeys, mistral);
    assert attempts[k].Err?;
    forall j | 0 <= j < k ensures attempts[j].Ok? {
      AttemptAt(items, j, licenseKeys, mistral);
    }
    SummariesUpToSpec(attempts, |items|);
    assert FirstErr(attempts, |items|) == k;
  }

  // ------------------------------------------------------------------
  // Mood and reply
  // ------------------------------------------------------------------

  /** The mood a fresh agent starts with when no mood.json exists. */
  const DefaultMood: seq<(string, Json)> := [("status", JStr("neutral")), ("last_summary", JNull)]

  /** The mood after a successful call: "active", with the last summary. */
  function MoodAfter(mood: seq<(string, Json)>, summaries: seq<string>): seq<(string, Json)> {
    SetKey(SetKey(mood, "status", JStr("active")), "last_summary",
           if |summaries| > 0 then JStr(summaries[|summaries| - 1]) else JNull)
  }

  /** After a successful call the status is "active" and `last_summary` is the
      last summary (None without articles); every other entry is untouched. */
  lemma MoodAfterSpec(mood: seq<(string, Json)>, summaries: seq<string>)
    ensures Lookup(MoodAfter(mood, summaries), "status") == Some(JStr("active"))
    ensures Lookup(MoodAfter(mood, summaries), "last_summary") ==
              Some(if |summaries| > 0 then JStr(summaries[|summaries| - 1]) else JNull)
    ensures forall key :: key != "status" && key != "last_summary" ==>
              Lookup(MoodAfter(mood, summaries), key) == Lookup(mood, key)
  {
    var last := if |summaries| > 0 then JStr(summaries[|summaries| - 1]) else JNull;
    SetKeySpec(mood, "status", JStr("active"));
    SetKeySpec(SetKey(mood, "status", JStr("active")), "last_summary", last);
  }

  function StrList(xs: seq<string>): seq<Json> {
    seq(|xs|, k requires 0 <= k < |xs| => JStr(xs[k]))
  }

  /** `{"summaries": ..., "waterdrops_used": ...}`. */
  function SummaryReply(summaries: seq<string>, used: nat): Json {
    JObj([("summaries", JArr(StrList(summaries))), ("waterdrops_used", JInt(used))])
  }

  // ------------------------------------------------------------------
  // Dispatch
  // ------------------------------------------------------------------

  const MissingSummariesDetail := "Missing 'summaries' in input for structured output."

  /** `[{"summary": s, "format": "simple_text"} for s in summaries]`. */
  function Structured(summaries: seq<Json>): seq<Json> {
    seq(|summaries|, k requires 0 <= k < |summaries| =>
          JObj([("summary", summaries[k]), ("format", JStr("simple_text"))]))
  }

  /** Reading "summary" back out of each structured entry gives the original
      list, in order, each entry marked "simple_text". */
  lemma StructuredKeepsSummaries(summaries: seq<Json>)
    ensures |Structured(summaries)| == |summaries|
    ensures forall k :: 0 <= k < |summaries| ==>
              && Structured(summaries)[k].JObj?
              && Lookup(Structured(summaries)[k].members, "summary") == Some(summaries[k])
              && Lookup(Structured(summaries)[k].members, "format") == Some(JStr("simple_text"))
  {
    forall k | 0 <= k < |summaries|
      ensures Lookup(Structured(summaries)[k].members, "format") == Some(JStr("simple_text"))
    {
      var m := Structured(summaries)[k].members;
      assert Lookup(m, "format") == Lookup(m[1..], "format");
    }
  }

  /** The `structured_output_generation` branch, before the outer handler. */
  function StructuredOutput(input: Json): (r: Result<Json, Exc>)
    ensures !input.JObj? ==> r == Err(NoGetMethod(input))
    ensures input.JObj? && !Truthy(Get(input, "summaries", JNull)) ==> r == Err(HttpExc(400, MissingSummariesDetail))
    ensures input.JObj? && Truthy(Get(input, "summaries", JNull)) && IterItems(Get(input, "summaries", JNull)).None? ==>
              r == Err(NotIterable(Get(input, "summaries", JNull)))
    ensures input.JObj? && Truthy(Get(input, "summaries", JNull)) && IterItems(Get(input, "summaries", JNull)).Some? ==>
              r == Ok(JObj([("summaries_structured", JArr(Structured(IterItems(Get(input, "summaries", JNull)).value)))]))
    ensures input.JObj? && Get(input, "summaries", JNull).JArr? && Truthy(Get(input, "summaries", JNull)) ==>
              r == Ok(JObj([("summaries_structured", JArr(Structured(Get(input, "summaries", JNull).items)))]))
  {
    if !input.JObj? then Err(NoGetMethod(input))
    else
      var summaries := Get(input, "summaries", JNull);
      if !Truthy(summaries) then Err(HttpExc(400, MissingSummariesDetail))
      else
        match IterItems(summaries)
        case None => Err(NotIterable(summaries))
        case Some(xs) => Ok(JObj([("summaries_structured", JArr(Structured(xs)))]))
  }

  function CapabilityOf(request: Json): Json
    requires request.JObj?
  {
    Get(request, "capability", JNull)
  }

  function InputOf(request: Json): Json
    requires request.JObj?
  {
    Get(request, "input", JObj([]))
  }

  /** What `execute` answers: the summaries for "text_summarization", the
      structured list for "structured_output_generation"; everything that goes
      wrong, an unknown capability included, surfaces as a 500. */
  function Execution(request: Json, licenseKeys: Json,
                     mistral: (string, Json) -> Result<string, CallFailure>): (r: Result<Json, Exc>)
    ensures r.Err? ==> r.error.HttpExc? && r.error.status == 500 && "Execution failed: " <= r.error.detail
    ensures request.JObj? && CapabilityOf(request) != JStr("text_summarization") &&
            CapabilityOf(request) != JStr("structured_output_generation") ==>
              r == Err(ExecutionFailed(UnknownCapability(CapabilityOf(request))))
  {
    if !request.JObj? then Err(ExecutionFailed(NoGetMethod(request)))
    else
      var capability := CapabilityOf(request);
      var input := InputOf(request);
      var result :=
        if capability == JStr("text_summarization") then
          match SummarizeOutcome(input, licenseKeys, mistral)
          case Ok(out) => Ok(SummaryReply(out.0, out.1))
          case Err(e) => Err(e)
        else if capability == JStr("structured_output_generation") then StructuredOutput(input)
        else Err(UnknownCapability(capability));
      match result
      case Ok(v) => Ok(v)
      case Err(e) => Err(ExecutionFailed(e))
  }

  /** Whether `execute` ran a summary to completion, which is when it updates the mood. */
  predicate SummarizedBy(request: Json, licenseKeys: Json,
                         mistral: (string, Json) -> Result<string, CallFailure>) {
    request.JObj? && CapabilityOf(request) == JStr("text_summarization") &&
    SummarizeOutcome(InputOf(request), licenseKeys, mistral).Ok?
  }

  /** The loop of `summarize`: for each article, in order, the per-article
      `try`, stopping at the first failure; the summaries and the added-up cost. */
  method SummarizeItems(items: seq<Json>, licenseKeys: Json,
                        mistral: (string, Json) -> Result<string, CallFailure>)
    returns (r: Result<(seq<string>, nat), Exc>)
    ensures r == SummariesUpTo(Attempts(items, licenseKeys, mistral), |items|)
  {
    ghost var attempts := Attempts(items, licenseKeys, mistral);
    var summaries: seq<string> := [];
    var waterdropsUsed: nat := 0;
    for i := 0 to |items|
      invariant SummariesUpTo(attempts, i) == Ok((summaries, waterdropsUsed))
    {
      var attempt := TryArticle(items[i], licenseKeys, mistral);
      AttemptAt(items, i, licenseKeys, mistral);
      assert attempts[i] == (if attempt.Ok? then Ok(attempt.value) else Err(FailedToSummarize(attempt.error)));
      SummariesStep(attempts, i, (summaries, waterdropsUsed));
      if attempt.Err? {
        return Err(FailedToSummarize(attempt.error));
      }
      summaries := summaries + [attempt.value.0];
      waterdropsUsed := waterdropsUsed + attempt.value.1;
    }
    return Ok((summaries, waterdropsUsed));
  }

  /** The agent's module-level state: its mood and its license keys. */
  class SummarizeAgent {
    var mood: seq<(string, Json)>
    const licenseKeys: Json

    /** At import: the mood from mood.json (the default one without the file)
        and the license keys from license_keys.json. */
    constructor (moodFile: Option<seq<(string, Json)>>, licenseKeys: Json)
      ensures mood == (if moodFile.Some? then moodFile.value else DefaultMood)
      ensures this.licenseKeys == licenseKeys
    {
      mood := if moodFile.Some? then moodFile.value else DefaultMood;
      this.licenseKeys := licenseKeys;
    }

    /** `summarize(payload)`: one summary per article, in order, and their total
        cost; the mood changes only when every article was summarized. */
    method Summarize(payload: Json, mistral: (string, Json) -> Result<string, CallFailure>)
      returns (r: Result<Json, Exc>)
      modifies this
      ensures match SummarizeOutcome(payload, licenseKeys, mistral)
              case Ok(out) => r == Ok(SummaryReply(out.0, out.1)) && mood == MoodAfter(old(mood), out.0)
              case Err(e) => r == Err(e) && mood == old(mood)
    {
      if !payload.JObj? {
        return Err(NoGetMethod(payload));
      }
      var articles := Get(payload, "articles", JNull);
      if !Truthy(articles) {
        var collection := Get(payload, "collection", JObj([]));
        if !collection.JObj? {
          return Err(NoGetMethod(collection));
        }
        articles := Get(collection, "items", JArr([]));
      }
      var iteration := IterItems(articles);
      if iteration.None? {
        return Err(NotIterable(articles));
      }
      var outcome := SummarizeItems(iteration.value, licenseKeys, mistral);
      if outcome.Err? {
        return Err(outcome.error);
      }
      var summaries := outcome.value.0;
      var waterdropsUsed := outcome.value.1;
      mood := SetKey(mood, "status", JStr("active"));
      mood := SetKey(mood, "last_summary", if |summaries| > 0 then JStr(summaries[|summaries| - 1]) else JNull);
      return Ok(SummaryReply(summaries, waterdropsUsed));
    }

    /** `execute(request)`: the summaries, the structured list or a 500; only a
        completed summary changes the mood. */
    method Execute(request: Json, mistral: (string, Json) -> Result<string, CallFailure>)
      returns (r: Result<Json, Exc>)
      modifies this
      ensures r == Execution(request, licenseKeys, mistral)
      ensures SummarizedBy(request, licenseKeys, mistral) ==>
                mood == MoodAfter(old(mood), SummarizeOutcome(InputOf(request), licenseKeys, mistral).value.0)
      ensures !SummarizedBy(request, licenseKeys, mistral) ==> mood == old(mood)
    {
      if !request.JObj? {
        return Err(ExecutionFailed(NoGetMethod(request)));
      }
      var capability := Get(request, "capability", JNull);
      var input := Get(request, "input", JObj([]));
      if capability == JStr("text_summarization") {
        var reply := Summarize(input, mistral);
        if reply.Err? {
          return Err(ExecutionFailed(reply.error));
        }
        return reply;
      } else if capability == JStr("structured_output_generation") {
        var reply := StructuredOutput(input);
        if reply.Err? {
          return Err(ExecutionFailed(reply.error));
        }
        return reply;
      }
      return Err(ExecutionFailed(UnknownCapability(capability)));
    }
  }
}
