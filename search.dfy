/** `model search`: query the registry for repositories matching keywords
    and an optional filter, and print the ids it returns. */
module ModelSearch {
  import opened Wrappers
  import opened Strings
  import opened Fmt
  import opened Json

  /** The `search` query value: the keywords joined by single spaces,
      with no URL encoding. */
  function SearchQuery(keywords: seq<string>): (query: string)
    ensures keywords == [] ==> query == ""
    ensures |keywords| > 0 ==> |query| + 1 == TotalLength(keywords) + |keywords|
  {
    Join(keywords, " ")
  }

  /** The search URL: `{base}/api/models?search={query}`, then
      `&filter={f}` only when a filter is given. */
  function SearchUrl(keywords: seq<string>, filter: Option<string>, apiBaseUrl: string): (url: string)
    ensures StartsWith(url, apiBaseUrl + "/api/models?search=" + SearchQuery(keywords))
    ensures filter.Some? ==> EndsWith(url, "&filter=" + filter.value)
  {
    var plain := apiBaseUrl + "/api/models?search=" + SearchQuery(keywords);
    assert filter.Some? ==> (plain + ("&filter=" + filter.value))[..|plain|] == plain;
    assert filter.Some? ==> (plain + ("&filter=" + filter.value))[|plain|..] == "&filter=" + filter.value;
    assert filter.None? ==> plain + "" == plain;
    apiBaseUrl + "/api/models?search=" + SearchQuery(keywords)
    + (match filter case Some(f) => "&filter=" + f case None => "")
  }

  /** `build_search_url`: formats the base URL, then appends the filter
      parameter in place. */
  method BuildSearchUrl(keywords: seq<string>, filter: Option<string>, apiBaseUrl: string) returns (url: string)
    ensures url == SearchUrl(keywords, filter, apiBaseUrl)
  {
    var searchQuery := Join(keywords, " ");
    url := Format([Slot, Lit("/api/models?search="), Slot], [apiBaseUrl, searchQuery]);
    FormatInfix(apiBaseUrl, "/api/models?search=", searchQuery);
    if filter.Some? {
      FormatPrefix("&filter=", filter.value);
      url := url + Format([Lit("&filter="), Slot], [filter.value]);
    }
  }

  /** The lines a successful search prints: the string `modelId` of each
      element when the body is an array, else one "No models found" line
      naming the query. */
  function ModelLines(keywords: seq<string>, models: Json): (lines: seq<string>)
    ensures AsArray(models).Some? ==> |lines| <= |AsArray(models).value|
    ensures AsArray(models).None? ==> |lines| == 1
  {
    match AsArray(models)
    case Some(modelList) => StringsAt(modelList, "modelId")
    case None => ["No models found for '" + SearchQuery(keywords) + "'."]
  }

  /** `search`: builds the same URL as `build_search_url`, issues one GET
      and prints the model ids. */
  method Search(keywords: seq<string>, filter: Option<string>, apiBaseUrl: string, reply: Reply)
    returns (url: string, printed: seq<string>, r: Result<()>)
    ensures url == SearchUrl(keywords, filter, apiBaseUrl)
    ensures r.Ok? <==> reply.Response? && reply.success && reply.body.Some?
    ensures r.Ok? ==> printed == ModelLines(keywords, reply.body.value)
    ensures reply.Unreachable? ==> r == Err(Transport)
    ensures reply.Response? && !reply.success ==>
      r == Err(Failure("Failed to search models with keyword '" + SearchQuery(keywords) + "'"))
    ensures reply.Response? && reply.success && reply.body.None? ==> r == Err(Parse)
  {
    var searchQuery := Join(keywords, " ");
    url := Format([Slot, Lit("/api/models?search="), Slot], [apiBaseUrl, searchQuery]);
    FormatInfix(apiBaseUrl, "/api/models?search=", searchQuery);
    if filter.Some? {
      FormatPrefix("&filter=", filter.value);
      url := url + Format([Lit("&filter="), Slot], [filter.value]);
    }
    printed := [];
    match reply
    case Unreachable =>
      r := Err(Transport);
    case Response(success, body) =>
      if !success {
        r := Err(Failure("Failed to search models with keyword '" + searchQuery + "'"));
      } else if body.None? {
        r := Err(Parse);
      } else {
        var modelList := AsArray(body.value);
        if modelList.Some? {
          var models := modelList.value;
          for i := 0 to |models|
            invariant printed == StringsAt(models[..i], "modelId")
          {
            var modelId := StrField(models[i], "modelId");
            if modelId.Some? {
              printed := printed + [modelId.value];
            }
            assert models[..i + 1] == models[..i] + [models[i]];
            StringsAtAppend(models[..i], [models[i]], "modelId");
            StringsAtSingle(models[i], "modelId");
          }
          assert models[..|models|] == models;
        } else {
          printed := ["No models found for '" + searchQuery + "'."];
        }
        r := Ok(());
      }
  }

  /** A filter extends the unfiltered URL by `&filter={f}`. */
  lemma SearchUrlWithFilter(keywords: seq<string>, f: string, apiBaseUrl: string)
    ensures SearchUrl(keywords, Some(f), apiBaseUrl) == SearchUrl(keywords, None, apiBaseUrl) + "&filter=" + f
    ensures StartsWith(SearchUrl(keywords, Some(f), apiBaseUrl), SearchUrl(keywords, None, apiBaseUrl))
  {
    var plain := SearchUrl(keywords, None, apiBaseUrl);
    assert (plain + "&filter=" + f)[..|plain|] == plain;
  }

  /** No keywords give an empty query: `search=` is followed directly by the
      filter parameter, or ends the URL. */
  lemma SearchUrlEmptyKeywords(filter: Option<string>, apiBaseUrl: string)
    ensures SearchUrl([], None, apiBaseUrl) == apiBaseUrl + "/api/models?search="
    ensures filter.Some? ==>
      SearchUrl([], filter, apiBaseUrl) == apiBaseUrl + "/api/models?search=" + "&filter=" + filter.value
  {
  }

  /** A single keyword is the query as it is, with no separator. */
  lemma SearchUrlSingleKeyword(keyword: string, apiBaseUrl: string)
    ensures SearchUrl([keyword], None, apiBaseUrl) == apiBaseUrl + "/api/models?search=" + keyword
  {
  }

  /** The query has one space between consecutive keywords and none at
      either end: it begins with the first keyword, ends with the last,
      grows by " " + k per added keyword, and when no keyword contains a
      space, splitting it at spaces gives the keywords back. */
  lemma SearchQuerySeparators(keywords: seq<string>, next: string)
    requires |keywords| > 0
    ensures StartsWith(SearchQuery(keywords), keywords[0])
    ensures EndsWith(SearchQuery(keywords), keywords[|keywords| - 1])
    ensures SearchQuery(keywords + [next]) == SearchQuery(keywords) + " " + next
    ensures (forall i :: 0 <= i < |keywords| ==> ' ' !in keywords[i]) ==>
      Split(SearchQuery(keywords), ' ') == keywords
  {
    JoinEnds(keywords, " ");
    JoinSnoc(keywords, next, " ");
    if forall i :: 0 <= i < |keywords| ==> ' ' !in keywords[i] {
      SplitJoin(keywords, ' ');
    }
  }

  // The in-file unit tests' expected URLs.

  lemma KeywordsOnlyExample()
    ensures SearchUrl(["TheBloke", "Llama-2-7B"], None, "https://huggingface.co")
         == "https://huggingface.co/api/models?search=TheBloke Llama-2-7B"
  {
    var keywords := ["TheBloke", "Llama-2-7B"];
    assert keywords[1..] == ["Llama-2-7B"];
    assert SearchQuery(keywords) == "TheBloke" + " " + "Llama-2-7B";
    QuerySpelling();
    HubSearchPrefixSpelling();
    KeywordsUrlSpelling();
    var url := "https://huggingface.co/api/models?search=TheBloke Llama-2-7B";
    assert url + "" == url;
  }

  // Literal spellings: each only states that some string literals
  // concatenate to a longer literal, to keep the example proofs cheap.

  lemma QuerySpelling()
    ensures "TheBloke" + " " + "Llama-2-7B" == "TheBloke Llama-2-7B"
  {
  }

  lemma KeywordsUrlSpelling()
    ensures "https://huggingface.co/api/models?search=" + "TheBloke Llama-2-7B"
         == "https://huggingface.co/api/models?search=TheBloke Llama-2-7B"
  {
  }

  lemma HubSearchPrefixSpelling()
    ensures "https://huggingface.co" + "/api/models?search=" == "https://huggingface.co/api/models?search="
  {
  }

  lemma WithFilterExample()
    ensures SearchUrl(["TheBloke", "Llama-2-7B"], Some("gptq"), "https://huggingface.co")
         == "https://huggingface.co/api/models?search=TheBloke Llama-2-7B&filter=gptq"
  {
    KeywordsOnlyExample();
    SearchUrlWithFilter(["TheBloke", "Llama-2-7B"], "gptq", "https://huggingface.co");
    assert "https://huggingface.co/api/models?search=TheBloke Llama-2-7B" + "&filter=" + "gptq"
        == "https://huggingface.co/api/models?search=TheBloke Llama-2-7B&filter=gptq";
  }

  lemma SingleKeywordExample()
    ensures SearchUrl(["llama"], None, "https://huggingface.co") == "https://huggingface.co/api/models?search=llama"
    ensures SearchUrl(["test"], None, "http://localhost:8080") == "http://localhost:8080/api/models?search=test"
  {
    assert SearchQuery(["llama"]) == "llama";
    assert SearchQuery(["test"]) == "test";
    HubSearchPrefixSpelling();
    assert "https://huggingface.co/api/models?search=" + "llama" + ""
        == "https://huggingface.co/api/models?search=llama";
    assert "http://localhost:8080" + "/api/models?search=" + "test" + ""
        == "http://localhost:8080/api/models?search=test";
  }

  lemma EmptyKeywordsExample()
    ensures SearchUrl([], Some("text-classification"), "https://huggingface.co")
         == "https://huggingface.co/api/models?search=&filter=text-classification"
  {
    assert SearchQuery([]) == "";
    HubSearchPrefixSpelling();
    assert SearchUrl([], None, "https://huggingface.co") == "https://huggingface.co/api/models?search=";
    SearchUrlWithFilter([], "text-classification", "https://huggingface.co");
    EmptyQueryFilterSpelling();
  }

  // Literal spelling only: keeps the example proof above cheap.
  lemma EmptyQueryFilterSpelling()
    ensures "https://huggingface.co/api/models?search=" + "&filter=" + "text-classification"
         == "https://huggingface.co/api/models?search=&filter=text-classification"
  {
  }

  /** A two-element reply prints both model ids, in order. */
  lemma TwoModelsExample()
    ensures ModelLines(["TheBloke", "Llama-2-7B"], JArr([
              JObj(map["modelId" := JStr("TheBloke/Llama-2-7B-Chat-GPTQ")]),
              JObj(map["modelId" := JStr("TheBloke/Llama-2-13B-Chat-GPTQ")])]))
         == ["TheBloke/Llama-2-7B-Chat-GPTQ", "TheBloke/Llama-2-13B-Chat-GPTQ"]
  {
    var models := [JObj(map["modelId" := JStr("TheBloke/Llama-2-7B-Chat-GPTQ")]),
                   JObj(map["modelId" := JStr("TheBloke/Llama-2-13B-Chat-GPTQ")])];
    StringsAtAllPresent(models, "modelId");
  }
}
