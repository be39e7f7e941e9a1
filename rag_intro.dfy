/**
 * The in-memory variant of the question-answering script: flatten the
 * course groups, search them through a minsearch index, accumulate the
 * context, fill in the prompt.
 */
module RagIntro {
  import opened Wrappers
  import opened Text
  import opened Documents
  import opened ContextAssembler
  import opened Prompts

  /** The arguments of `minsearch.Index(...)`: which fields are tokenised and which are matched exactly. */
  datatype IndexSpec = IndexSpec(textFields: seq<string>, keywordFields: seq<string>)

  const Spec: IndexSpec := IndexSpec(["question", "section", "text"], ["course"])

  /** The arguments of `index.search(...)`; no filter is passed. */
  datatype SearchRequest = SearchRequest(query: string, boost: map<string, real>, numResults: nat)

  const Query: string := "When will the course start?"

  const Boost: map<string, real> := map["question" := 5.0, "section" := 0.5]

  const Request: SearchRequest := SearchRequest(Query, Boost, 5)

  /** The values of the records, read after flattening: what the index is fitted on. */
  function Values(records: seq<Record>): (docs: seq<Document>)
    reads records
    ensures |docs| == |records|
    ensures forall i :: 0 <= i < |records| ==> docs[i] == records[i].fields
  {
    if records == [] then [] else Values(records[..|records| - 1]) + [records[|records| - 1].fields]
  }

  /** The module-level context loop: `context = context + f"..."` for each result. */
  method AccumulateContext(results: seq<Document>) returns (r: Result<string, KeyError>)
    ensures r == ContextResult(results)
  {
    var context := "";
    var i := 0;
    while i < |results|
      invariant 0 <= i <= |results|
      invariant AllHaveBlockFields(results[..i])
      invariant context == Context(results[..i])
    {
      var doc := results[i];
      if !HasBlockFields(doc) {
        FirstIncompleteAt(results, i);
        return Err(KeyError(if "section" !in doc then "section" else if "question" !in doc then "question" else "text"));
      }
      ContextStep(results, i);
      context := context + ("section: " + doc["section"] + "\nquestion: " + doc["question"] + "\nanswer : " + doc["text"] + "\n\n");
      i := i + 1;
    }
    assert results[..i] == results;
    return Ok(context);
  }

  /** The instruction lines of `prompt_template` between the role sentence and the fallback phrase. */
  const Instructions: string :=
    " Answer the QUESTION based on the CONTEXT. \n"
    + "Use only the facts from the CONTEXT when answering the QUESTION.\n"
    + "If the CONTEXT does not contain the answer, output: "

  /** `prompt_template`: no indentation. */
  const PromptTemplate: Template := Template(
    "\n",
    Role + Instructions + Fallback + "\n\n" + QuestionLabel,
    "\n\n" + ContextLabel + " ",
    "\n")

  lemma TemplateWellFormed()
    ensures WellFormed(PromptTemplate)
  {
    HeadShape(Role, Instructions, Fallback, "\n\n", QuestionLabel);
    MiddleShape("\n\n");
  }

  /**
   * `prompt_template.format(question = query, context = context).strip()`
   * Whatever the context, the prompt starts with the role sentence, holds
   * `QUESTION: ` with the query and the fallback phrase verbatim, and has no
   * whitespace at either end.
   */
  function BuildPrompt(query: string, context: string): (prompt: string)
    ensures StartsWith(prompt, Role) && IsStripped(prompt)
    ensures Contains(prompt, QuestionLabel + query)
    ensures Contains(prompt, Fallback)
  {
    TemplateWellFormed();
    RenderPromises(PromptTemplate, query, context);
    Render(PromptTemplate, query, context)
  }

  /** The prompt ends with the context less its trailing whitespace. */
  lemma BuildPromptWithContext(query: string, context: string)
    requires !AllSpace(context)
    ensures BuildPrompt(query, context) == PromptTemplate.head + query + PromptTemplate.middle + TrimRight(context)
  {
    TemplateWellFormed();
    RenderWithContext(PromptTemplate, query, context);
  }

  /** With a blank context (no results give ""), the prompt ends with the bare context label. */
  lemma BuildPromptBlankContext(query: string, context: string)
    requires AllSpace(context)
    ensures BuildPrompt(query, context) == PromptTemplate.head + query + ("\n\n" + ContextLabel)
  {
    TemplateWellFormed();
    RenderBlankContextLabel(PromptTemplate, query, context, "\n\n");
  }

  /**
   * The script from loading to the prompt: flatten the groups (tagging the
   * records in place), search the index fitted on them (`search` stands for
   * minsearch's fit and search, whose ranking is not modelled), accumulate
   * the context and fill in the prompt.
   */
  method Run(groups: seq<CourseGroup>, search: (IndexSpec, seq<Document>, SearchRequest) -> seq<Document>)
    returns (documents: seq<Record>, results: seq<Document>, prompt: Result<string, KeyError>)
    modifies Records(groups)
    ensures documents == Flat(groups)
    ensures forall d :: d in Records(groups) ==> d.fields == Tagged(old(d.fields), groups, d)
    ensures results == search(Spec, Values(documents), Request)
    ensures Answers(results, prompt)
  {
    documents := Flatten(groups);
    results := search(Spec, Values(documents), Request);
    prompt := Answer(results);
  }

  /** The outcome the script has for `results`: the prompt for their context, or the KeyError of the context loop. */
  predicate Answers(results: seq<Document>, prompt: Result<string, KeyError>)
  {
    match ContextResult(results)
    case Ok(context) => prompt == Ok(BuildPrompt(Query, context))
    case Err(e) => prompt == Err(e)
  }

  /** The script's last two steps for the retrieved `results`: the context loop, then the prompt. */
  method Answer(results: seq<Document>) returns (prompt: Result<string, KeyError>)
    ensures Answers(results, prompt)
  {
    var context := AccumulateContext(results);
    match context
    case Ok(c) => prompt := Ok(BuildPrompt(Query, c));
    case Err(e) => prompt := Err(e);
  }
}
