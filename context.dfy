/**
 * Rendering retrieved documents as the grounding context: one labelled
 * three-line block per document, in the order given. Both scripts build the
 * block with the same f-string; reading a missing field raises KeyError.
 */
module ContextAssembler {
  import opened Wrappers
  import opened Documents
  import opened Text

  /** The exception `doc[key]` raises for a missing key. */
  datatype KeyError = KeyError(key: string)

  /** The three fields the block reads, in the order the f-string reads them. */
  const BlockFields: seq<string> := ["section", "question", "text"]

  predicate HasBlockFields(doc: Document)
  {
    "section" in doc && "question" in doc && "text" in doc
  }

  predicate AllHaveBlockFields(docs: seq<Document>)
  {
    forall i :: 0 <= i < |docs| ==> HasBlockFields(docs[i])
  }

  /**
   * One document's block: the section, question and text values verbatim,
   * each after its label, and a blank line to close the block.
   */
  function Block(doc: Document): string
    requires HasBlockFields(doc)
  {
    "section: " + doc["section"] + "\nquestion: " + doc["question"] + "\nanswer : " + doc["text"] + "\n\n"
  }

  /**
   * A block is 32 label characters around the three values: it opens with
   * `section: `, holds the section, question and text verbatim at fixed
   * offsets, and closes with a blank line.
   */
  lemma BlockLayout(doc: Document)
    requires HasBlockFields(doc)
    ensures |Block(doc)| == 32 + |doc["section"]| + |doc["question"]| + |doc["text"]|
    ensures StartsWith(Block(doc), "section: ") && EndsWith(Block(doc), "\n\n")
    ensures OccursAt(Block(doc), doc["section"], 9)
    ensures OccursAt(Block(doc), doc["question"], 20 + |doc["section"]|)
    ensures OccursAt(Block(doc), doc["text"], 30 + |doc["section"]| + |doc["question"]|)
  {
  }

  /** The blocks of `docs` concatenated in order: the context built from a complete result list. */
  function Context(docs: seq<Document>): string
    requires AllHaveBlockFields(docs)
  {
    if docs == [] then ""
    else Context(docs[..|docs| - 1]) + Block(docs[|docs| - 1])
  }

  /**
   * The key whose lookup fails first on an incomplete document: the f-string
   * evaluates its fields left to right.
   */
  function MissingField(doc: Document): (key: string)
    requires !HasBlockFields(doc)
    ensures key in BlockFields && key !in doc
    ensures forall j :: 0 <= j < |BlockFields| && BlockFields[j] == key ==>
      forall i :: 0 <= i < j ==> BlockFields[i] in doc
  {
    if "section" !in doc then "section"
    else if "question" !in doc then "question"
    else "text"
  }

  /** The index of the first document lacking a block field, or |docs| when there is none. */
  function FirstIncomplete(docs: seq<Document>): (k: nat)
    ensures k <= |docs|
    ensures forall i :: 0 <= i < k ==> HasBlockFields(docs[i])
    ensures k < |docs| ==> !HasBlockFields(docs[k])
  {
    if docs == [] || !HasBlockFields(docs[0]) then 0
    else 1 + FirstIncomplete(docs[1..])
  }

  /**
   * What the context loop yields: the context when every document has its
   * three fields, otherwise the KeyError of the first incomplete document,
   * which aborts the loop.
   */
  function ContextResult(docs: seq<Document>): (r: Result<string, KeyError>)
    ensures r.Ok? <==> AllHaveBlockFields(docs)
  {
    var k := FirstIncomplete(docs);
    if k == |docs| then Ok(Context(docs)) else Err(KeyError(MissingField(docs[k])))
  }

  /** When the documents before `i` are complete and document `i` is not, the loop fails at `i`. */
  lemma FirstIncompleteAt(docs: seq<Document>, i: nat)
    requires i < |docs| && AllHaveBlockFields(docs[..i]) && !HasBlockFields(docs[i])
    ensures ContextResult(docs) == Err(KeyError(MissingField(docs[i])))
  {
    assert forall j :: 0 <= j < i ==> docs[..i][j] == docs[j];
  }

  /** One more complete document extends the context by its block. */
  lemma ContextStep(docs: seq<Document>, i: nat)
    requires i < |docs| && AllHaveBlockFields(docs[..i]) && HasBlockFields(docs[i])
    ensures AllHaveBlockFields(docs[..i + 1])
    ensures Context(docs[..i + 1]) == Context(docs[..i]) + Block(docs[i])
  {
    assert docs[..i + 1][..i] == docs[..i];
  }

  lemma CompleteAppend(a: seq<Document>, b: seq<Document>)
    requires AllHaveBlockFields(a) && AllHaveBlockFields(b)
    ensures AllHaveBlockFields(a + b)
  {
    forall i | 0 <= i < |a + b| ensures HasBlockFields((a + b)[i]) {
      if i < |a| { assert (a + b)[i] == a[i]; } else { assert (a + b)[i] == b[i - |a|]; }
    }
  }

  /** The context of a concatenation is the concatenation of the contexts. */
  lemma {:induction false} ContextAppend(a: seq<Document>, b: seq<Document>)
    requires AllHaveBlockFields(a) && AllHaveBlockFields(b)
    ensures AllHaveBlockFields(a + b)
    ensures Context(a + b) == Context(a) + Context(b)
    decreases |b|
  {
    CompleteAppend(a, b);
    if b == [] {
      assert a + b == a;
    } else {
      var ab, n := a + b, |b| - 1;
      assert ab[..|ab| - 1] == a + b[..n];
      assert ab[|ab| - 1] == b[n];
      ContextAppend(a, b[..n]);
      var x := Block(b[n]);
      assert Context(ab) == Context(a + b[..n]) + x;
      assert Context(b) == Context(b[..n]) + x;
    }
  }

  /** Every block is 32 characters of labels around its three field values. */
  function FieldChars(docs: seq<Document>): nat
    requires AllHaveBlockFields(docs)
  {
    if docs == [] then 0
    else
      var d := docs[|docs| - 1];
      FieldChars(docs[..|docs| - 1]) + |d["section"]| + |d["question"]| + |d["text"]|
  }

  lemma {:induction false} ContextLength(docs: seq<Document>)
    requires AllHaveBlockFields(docs)
    ensures |Context(docs)| == 32 * |docs| + FieldChars(docs)
    decreases |docs|
  {
    if docs != [] {
      ContextLength(docs[..|docs| - 1]);
    }
  }

  /** The context is empty exactly when there are no documents. */
  lemma ContextEmpty(docs: seq<Document>)
    requires AllHaveBlockFields(docs)
    ensures Context(docs) == "" <==> docs == []
  {
    ContextLength(docs);
  }

  lemma ContextSingle(doc: Document)
    requires HasBlockFields(doc)
    ensures AllHaveBlockFields([doc]) && Context([doc]) == Block(doc)
  {
    assert [doc][..0] == [];
  }

  lemma {:induction false} ContextAround(pre: seq<Document>, doc: Document, post: seq<Document>)
    requires AllHaveBlockFields(pre) && HasBlockFields(doc) && AllHaveBlockFields(post)
    ensures AllHaveBlockFields(pre + [doc] + post)
    ensures Context(pre + [doc] + post) == Context(pre) + Block(doc) + Context(post)
  {
    ContextSingle(doc);
    ContextAppend(pre, [doc]);
    ContextAppend(pre + [doc], post);
  }

  /**
   * Document `i`'s block sits, whole, right after the blocks of the documents
   * before it: nothing is reordered, dropped or cut short.
   */
  lemma {:induction false} BlockInPlace(docs: seq<Document>, i: nat)
    requires AllHaveBlockFields(docs) && i < |docs|
    ensures Context(docs) == Context(docs[..i]) + Block(docs[i]) + Context(docs[i + 1..])
  {
    var pre, doc, post := docs[..i], docs[i], docs[i + 1..];
    assert AllHaveBlockFields(pre) && AllHaveBlockFields(post);
    assert docs == pre + [doc] + post;
    ContextAround(pre, doc, post);
  }
}
