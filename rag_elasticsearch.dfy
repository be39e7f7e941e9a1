/**
 * The Elasticsearch variant of the question-answering script: the fixed
 * index and query bodies as data, the projection of a search response onto
 * its `_source` documents, the context loop and the prompt.
 */
module RagElasticsearch {
  import opened Wrappers
  import opened Text
  import opened Documents
  import opened ContextAssembler
  import opened Prompts

  const IndexName: string := "course-questions"

  /** The body `elastic_search` sends: a boosted multi_match that must hold, filtered by a course term. */
  datatype MultiMatch = MultiMatch(query: string, fields: seq<string>, matchType: string)
  datatype TermFilter = TermFilter(field: string, value: string)
  datatype SearchQuery = SearchQuery(size: nat, must: MultiMatch, filter: TermFilter)

  function BuildQuery(query: string): (q: SearchQuery)
    ensures q.size == 5
    ensures q.must.query == query && q.must.matchType == "best_fields"
    ensures q.must.fields == ["question^3", "text", "section"]
    ensures q.filter == TermFilter("course", "data-engineering-zoomcamp")
  {
    SearchQuery(
      5,
      MultiMatch(query, ["question^3", "text", "section"], "best_fields"),
      TermFilter("course", "data-engineering-zoomcamp"))
  }

  /** One element of `response['hits']['hits']`. */
  datatype Hit = Hit(source: Document)
  datatype HitList = HitList(hits: seq<Hit>)
  datatype SearchResponse = SearchResponse(hits: HitList)

  /** The `_source` of each hit, in hit order. */
  function Sources(hits: seq<Hit>): (docs: seq<Document>)
    ensures |docs| == |hits|
    ensures forall i :: 0 <= i < |hits| ==> docs[i] == hits[i].source
  {
    if hits == [] then [] else Sources(hits[..|hits| - 1]) + [hits[|hits| - 1].source]
  }

  /**
   * `elastic_search(query)`: one search through the client, whose ranking is
   * not modelled (`search` stands for `es_client.search`), then the loop
   * appending each hit's `_source`.
   */
  method ElasticSearch(query: string, search: (string, SearchQuery) -> SearchResponse)
    returns (resultDocs: seq<Document>)
    ensures resultDocs == Sources(search(IndexName, BuildQuery(query)).hits.hits)
  {
    var response := search(IndexName, BuildQuery(query));
    var hits := response.hits.hits;
    resultDocs := [];
    for i := 0 to |hits|
      invariant resultDocs == Sources(hits[..i])
    {
      assert hits[..i + 1][..i] == hits[..i];
      resultDocs := resultDocs + [hits[i].source];
    }
    assert hits[..|hits|] == hits;
  }

  /** `create_context(results)`: a KeyError on the first missing field aborts it. */
  method CreateContext(results: seq<Document>) returns (r: Result<string, KeyError>)
    ensures r == ContextResult(results)
  {
    var context := "";
    for i := 0 to |results|
      invariant AllHaveBlockFields(results[..i])
      invariant context == Context(results[..i])
    {
      var doc := results[i];
      if !HasBlockFields(doc) {
        FirstIncompleteAt(results, i);
        return Err(KeyError(if "section" !in doc then "section" else if "question" !in doc then "question" else "text"));
      }
      ContextStep(results, i);
      context := context + ("section: " + doc["section"] + "\nquestion: " + doc["question"] + "\nanswer : " + doc["text"] + "\n\n");
    }
    assert results[..|results|] == results;
    return Ok(context);
  }

  /** The instruction lines of `prompt_template` between the role sentence and the fallback phrase. */
  const Instructions: string :=
    " Answer the QUESTION based on the CONTEXT. \n"
    + "    Use only the facts from the CONTEXT when answering the QUESTION.\n"
    + "    If the CONTEXT does not contain the answer, output: "

  /** `prompt_template` of `create_prompt`: every inner line indented by four spaces. */
  const PromptTemplate: Template := Template(
    "\n    ",
    Role + Instructions + Fallback + "\n\n    " + QuestionLabel,
    "\n\n    " + ContextLabel + " ",
    "\n    ")

  lemma TemplateWellFormed()
    ensures WellFormed(PromptTemplate)
  {
    HeadShape(Role, Instructions, Fallback, "\n\n    ", QuestionLabel);
    MiddleShape("\n\n    ");
  }

  /**
   * `create_prompt(query, context)`: the template filled in and stripped.
   * Whatever the context, the prompt starts with the role sentence, holds
   * `QUESTION: ` with the query and the fallback phrase verbatim, and has no
   * whitespace at either end.
   */
  function CreatePrompt(query: string, context: string): (prompt: string)
    ensures StartsWith(prompt, Role) && IsStripped(prompt)
    ensures Contains(prompt, QuestionLabel + query)
    ensures Contains(prompt, Fallback)
  {
    TemplateWellFormed();
    RenderPromises(PromptTemplate, query, context);
    Render(PromptTemplate, query, context)
  }

  /** The prompt ends with the context less its trailing whitespace. */
  lemma CreatePromptWithContext(query: string, context: string)
    requires !AllSpace(context)
    ensures CreatePrompt(query, context) == PromptTemplate.head + query + PromptTemplate.middle + TrimRight(context)
  {
    TemplateWellFormed();
    RenderWithContext(PromptTemplate, query, context);
  }

  /** With a blank context (no results give ""), the prompt ends with the bare context label. */
  lemma CreatePromptBlankContext(query: string, context: string)
    requires AllSpace(context)
    ensures CreatePrompt(query, context) == PromptTemplate.head + query + ("\n\n    " + ContextLabel)
  {
    TemplateWellFormed();
    RenderBlankContextLabel(PromptTemplate, query, context, "\n\n    ");
  }

  /**
   * The script's main path for one question: search, build the context,
   * build the prompt. The prompt goes to the chat-completion client, which
   * is not part of this model.
   */
  method Ask(query: string, search: (string, SearchQuery) -> SearchResponse)
    returns (prompt: Result<string, KeyError>)
    ensures match ContextResult(Sources(search(IndexName, BuildQuery(query)).hits.hits))
      case Ok(context) => prompt == Ok(CreatePrompt(query, context))
      case Err(e) => prompt == Err(e)
  {
    var results := ElasticSearch(query, search);
    var context := CreateContext(results);
    match context
    case Ok(c) => prompt := Ok(CreatePrompt(query, c));
    case Err(e) => prompt := Err(e);
  }
}
