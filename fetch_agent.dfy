/** The fetch-articles agent (agents/fetch_articles/app.py): serves three fixed
    articles, repackages a list of articles as a counted collection, keeps a
    running total of the waterdrops it has spent in a file, and dispatches the
    orchestrator's `execute` calls. */
module FetchArticles {
  import opened Base
  import opened PyValue
  import WaterMeter
  import SummarizeArticles

  /** One article as the agent serves it. */
  function Article(title: string, source: string, content: string): Json {
    JObj([("title", JStr(title)), ("source", JStr(source)), ("content", JStr(content))])
  }

  const StaticArticleList: seq<Json> := [
    Article("AI Revolutionizes Healthcare", "Example News",
            "AI technologies are transforming healthcare by enabling faster diagnoses and personalized treatments."),
    Article("Climate Change Update", "Example Times",
            "Recent studies show significant progress in renewable energy adoption worldwide."),
    Article("SpaceX Launches New Mission", "Space News Daily",
            "SpaceX successfully launched a new mission to deploy communication satellites.")
  ]

  /** `fetch_static_articles()`: the same three articles on every call. */
  function StaticArticles(): Json {
    JObj([("articles", JArr(StaticArticleList))])
  }

  /** The fixed payload holds exactly three articles, each a dictionary whose
      title, source and content are non-empty strings. */
  lemma StaticArticlesShape()
    ensures var articles := Get(StaticArticles(), "articles", JNull);
            && articles == JArr(StaticArticleList)
            && |articles.items| == 3
            && forall k :: 0 <= k < 3 ==>
                 var a := articles.items[k];
                 && a.JObj?
                 && (forall key :: key in ["title", "source", "content"] ==>
                       Get(a, key, JNull).JStr? && Get(a, key, JNull).s != "")
  {
    forall k | 0 <= k < 3
      ensures forall key :: key in ["title", "source", "content"] ==>
                Get(StaticArticleList[k], key, JNull).JStr? && Get(StaticArticleList[k], key, JNull).s != ""
    {
      var a := StaticArticleList[k];
      assert a.members[0].0 == "title" && a.members[1].0 == "source" && a.members[2].0 == "content";
      assert Get(a, "title", JNull) == a.members[0].1;
      assert Lookup(a.members, "source") == Lookup(a.members[1..], "source");
      assert Lookup(a.members, "content") == Lookup(a.members[1..], "content") == Lookup(a.members[2..], "content");
    }
  }

  /** The fixed articles are what the summarize agent accepts: a non-empty list
      under "articles" whose every item has a "content" string that is not empty. */
  lemma StaticArticlesAreSummarizable()
    ensures SummarizeArticles.ArticlesOf(StaticArticles()) == Ok(JArr(StaticArticleList))
    ensures forall k :: 0 <= k < |StaticArticleList| ==>
              SummarizeArticles.ArticleOk(StaticArticleList[k]) &&
              Get(StaticArticleList[k], "content", JNull).JStr? && Get(StaticArticleList[k], "content", JNull).s != ""
  {
    StaticArticlesShape();
    SummarizeArticles.CollectionLikeArticles(StaticArticleList);
    forall k | 0 <= k < |StaticArticleList|
      ensures SummarizeArticles.ArticleOk(StaticArticleList[k])
    {
      assert "content" in ["title", "source", "content"];
    }
  }

  /** `generate_article_collection(data)`: `data.get("articles", [])` with its
      length; `.get` on anything but a dictionary and `len()` of a value without
      a length raise. */
  function GenerateArticleCollection(data: Json): Result<Json, Exc> {
    if !data.JObj? then Err(NoGetMethod(data))
    else
      var articles := Get(data, "articles", JArr([]));
      match Len(articles)
      case None => Err(NoLen(articles))
      case Some(n) => Ok(JObj([("collection", JObj([("count", JInt(n)), ("items", articles)]))]))
  }

  /** The collection holds the input's articles unchanged under "items" and
      their number under "count"; without "articles" it is the empty collection;
      the two failures are the AttributeError and the TypeError. */
  lemma GenerateArticleCollectionSpec(data: Json)
    ensures !data.JObj? ==> GenerateArticleCollection(data) == Err(NoGetMethod(data))
    ensures data.JObj? && Len(Get(data, "articles", JArr([]))).None? ==>
              GenerateArticleCollection(data) == Err(NoLen(Get(data, "articles", JArr([]))))
    ensures GenerateArticleCollection(data).Ok? ==>
              var articles := Get(data, "articles", JArr([]));
              var collection := Get(GenerateArticleCollection(data).value, "collection", JNull);
              && collection.JObj?
              && Get(collection, "items", JNull) == articles
              && Len(articles).Some?
              && Get(collection, "count", JNull) == JInt(Len(articles).value)
    ensures data.JObj? && !HasKey(data, "articles") ==>
              GenerateArticleCollection(data) == Ok(JObj([("collection", JObj([("count", JInt(0)), ("items", JArr([]))]))]))
  {
    if GenerateArticleCollection(data).Ok? {
      var collection := JObj([("count", JInt(Len(Get(data, "articles", JArr([]))).value)),
                              ("items", Get(data, "articles", JArr([])))]);
      assert Lookup(collection.members, "items") == Lookup(collection.members[1..], "items");
    }
  }

  /** A non-empty list of articles turned into a collection is summarized
      exactly as the list itself would be: the summarize agent finds the same
      items in both payloads. */
  lemma CollectionFeedsSummarizer(items: seq<Json>)
    requires |items| > 0
    ensures GenerateArticleCollection(JObj([("articles", JArr(items))])).Ok?
    ensures SummarizeArticles.ArticlesOf(GenerateArticleCollection(JObj([("articles", JArr(items))])).value) ==
            SummarizeArticles.ArticlesOf(JObj([("articles", JArr(items))]))
  {
    var data := JObj([("articles", JArr(items))]);
    var out := GenerateArticleCollection(data).value;
    var collection := JObj([("count", JInt(|items|)), ("items", JArr(items))]);
    assert out == JObj([("collection", collection)]);
    assert Lookup(out.members, "articles") == Lookup(out.members[1..], "articles") == None;
    assert Get(out, "collection", JObj([])) == collection;
    assert Lookup(collection.members, "items") == Lookup(collection.members[1..], "items");
    SummarizeArticles.CollectionLikeArticles(items);
  }

  // ------------------------------------------------------------------
  // execute
  // ------------------------------------------------------------------

  /** The waterdrops one `execute` of a known capability is charged. */
  const ExecuteCharge: real := 0.02

  /** The waterdrops one call of `/get_articles` is charged. */
  const GetArticlesCharge: real := 3.0

  predicate KnownCapability(capability: Json) {
    capability == JStr("fetch_static_articles") || capability == JStr("generate_article_collection")
  }

  /** What `execute` charges: 0.02 for a known capability, before the capability
      runs, so a failing collection is charged too; nothing otherwise. */
  function ChargeOf(request: Json): real {
    if request.JObj? && KnownCapability(Get(request, "capability", JNull)) then ExecuteCharge else 0.0
  }

  /** What `execute` answers; everything that goes wrong, an unknown capability
      included, surfaces as a 500. */
  function Execution(request: Json): Result<Json, Exc> {
    if !request.JObj? then Err(ExecutionFailed(NoGetMethod(request)))
    else
      var capability := Get(request, "capability", JNull);
      if capability == JStr("fetch_static_articles") then Ok(StaticArticles())
      else if capability == JStr("generate_article_collection") then
        match GenerateArticleCollection(Get(request, "input", JObj([])))
        case Ok(v) => Ok(v)
        case Err(e) => Err(ExecutionFailed(e))
      else Err(ExecutionFailed(UnknownCapability(capability)))
  }

  /** Every failure of `execute` is a 500 whose detail starts with
      "Execution failed: "; an unknown capability is the wrapped 400 and costs
      nothing; the fixed articles ignore the input; a known capability is
      charged even when the collection cannot be built. */
  lemma ExecutionSpec(request: Json)
    ensures Execution(request).Err? ==>
              Execution(request).error.HttpExc? && Execution(request).error.status == 500 &&
              "Execution failed: " <= Execution(request).error.detail
    ensures request.JObj? && !KnownCapability(Get(request, "capability", JNull)) ==>
              Execution(request) == Err(ExecutionFailed(UnknownCapability(Get(request, "capability", JNull)))) &&
              ChargeOf(request) == 0.0
    ensures request.JObj? && Get(request, "capability", JNull) == JStr("fetch_static_articles") ==>
              Execution(request) == Ok(StaticArticles())
    ensures request.JObj? && Get(request, "capability", JNull) == JStr("generate_article_collection") ==>
              ChargeOf(request) == ExecuteCharge &&
              (Execution(request).Ok? <==> GenerateArticleCollection(Get(request, "input", JObj([]))).Ok?)
    ensures ChargeOf(request) > 0.0 <==> request.JObj? && KnownCapability(Get(request, "capability", JNull))
  {
  }

  /** The agent's state: the running total of waterdrops and the counter file. */
  class FetchAgent {
    var consumed: real
    var file: WaterMeter.CounterFile

    /** Loading the module: the total starts from the file, 0.0 without one. */
    constructor (file: WaterMeter.CounterFile)
      ensures consumed == WaterMeter.StoredTotal(file)
      ensures this.file == file
    {
      consumed := WaterMeter.StoredTotal(file);
      this.file := file;
    }

    /** `save_aiwaterdrops(consumed)`: the file holds the total. */
    method SaveConsumed()
      modifies this
      ensures consumed == old(consumed)
      ensures file == WaterMeter.Stored(Some(consumed))
      ensures WaterMeter.StoredTotal(file) == consumed
    {
      file := WaterMeter.Stored(Some(consumed));
    }

    /** `/get_articles`: charges 3 waterdrops, saves the total, and serves the
        fixed articles. */
    method GetArticles() returns (r: Json)
      modifies this
      ensures r == StaticArticles()
      ensures consumed == old(consumed) + GetArticlesCharge
      ensures file == WaterMeter.Stored(Some(consumed))
    {
      consumed := consumed + GetArticlesCharge;
      SaveConsumed();
      r := StaticArticles();
    }

    /** `/execute`: a known capability is charged and the total saved before it
        runs; the answer is `Execution(request)`; otherwise the state is untouched. */
    method Execute(request: Json) returns (r: Result<Json, Exc>)
      modifies this
      ensures r == Execution(request)
      ensures consumed == old(consumed) + ChargeOf(request)
      ensures ChargeOf(request) > 0.0 ==> file == WaterMeter.Stored(Some(consumed))
      ensures ChargeOf(request) == 0.0 ==> file == old(file)
    {
      if !request.JObj? {
        return Err(ExecutionFailed(NoGetMethod(request)));
      }
      var capability := Get(request, "capability", JNull);
      var inputData := Get(request, "input", JObj([]));
      if capability == JStr("fetch_static_articles") {
        consumed := consumed + ExecuteCharge;
        SaveConsumed();
        return Ok(StaticArticles());
      } else if capability == JStr("generate_article_collection") {
        consumed := consumed + ExecuteCharge;
        SaveConsumed();
        var collection := GenerateArticleCollection(inputData);
        if collection.Err? {
          return Err(ExecutionFailed(collection.error));
        }
        return collection;
      } else {
        return Err(ExecutionFailed(UnknownCapability(capability)));
      }
    }
  }
}
