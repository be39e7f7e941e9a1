/** The two scripts build their context with the same block, so they agree on it. */
module ScriptAgreement {
  import opened Wrappers
  import opened Documents
  import opened ContextAssembler
  import RagElasticsearch
  import RagIntro

  /** For the same result list both context loops give the same context, or the same KeyError. */
  method SameContext(results: seq<Document>) returns (fromElastic: Result<string, KeyError>, fromIntro: Result<string, KeyError>)
    ensures fromElastic == fromIntro
  {
    fromElastic := RagElasticsearch.CreateContext(results);
    fromIntro := RagIntro.AccumulateContext(results);
  }
}
