# Course-questions RAG glue, modelled in Dafny

Two Python scripts answer a question about course material. Both load course
groups from `documents.json`, flatten them into one list of documents, and tag
each document dict in place with its group's `course`. `rag_elasticsearch.py`
indexes the documents in Elasticsearch and takes the `_source` of each hit.
`rag-intro.py` fits a `minsearch` index and searches it. Each script then
renders the retrieved documents as a context of labelled blocks, fills in a
fixed prompt template, strips it, and sends it to a chat model.

This project models the deterministic part around the search engines:

- `Documents` (documents.dfy): a dict held by reference is a `Record` class with a `fields` map. The flattening loop is the method `Flatten`. It is proved against `Flat` (the groups' lists joined in order) and `LastCourse` (the course a record ends up with).
- `ContextAssembler` (context.dfy): the context block, the context of a complete result list (`Context`), and the KeyError that a missing `section`, `question` or `text` raises (`ContextResult`).
- `Text` (text.dfy): Python's whitespace set and `str.strip()`.
- `Prompts` (prompt.dfy): a template is `lead + head + {question} + middle + {context} + tail`, and `Render` is `format` followed by `strip`.
- `RagElasticsearch` (rag_elasticsearch.dfy) and `RagIntro` (rag_intro.dfy): each script's own loops, its own template constant and its main path.
- `ScriptAgreement` (agreement.dfy): the two context loops agree on every result list.

The search backends are function-valued parameters: `es_client.search`, and minsearch's `fit` plus `search`. No ranking is modelled.

The model follows the code in three places where one might expect otherwise:

- A document lacking `section`, `question` or `text` makes `create_context` raise KeyError. No empty string is substituted. The first document lacking a field decides the error. Within it, the first missing key in f-string order (`section`, `question`, `text`) is the one reported.
- Documents are not immutable after loading: flattening overwrites `course` in the loaded dicts themselves.
- If one dict were listed by two groups, the later group's course would win. `Flatten` is stated for that general case. `TaggedWithOwnCourse` covers the usual case, freshly parsed JSON, where no dict is shared.

## Model

| member | source | states |
|---|---|---|
| Documents.TagCourse | 01-intro/rag_elasticsearch.py:16 | after `doc['course'] = c`, `course` maps to `c`, no key is lost or added except `course`, and every other key keeps its value |
| Documents.Flatten | 01-intro/rag_elasticsearch.py:13-17 | the returned list is the groups' document lists joined in group order; every record of every group has its fields replaced by its old fields tagged with the course of the last group listing it; nothing outside the groups' records changes |
| Documents.FlatAppend | 01-intro/rag_elasticsearch.py:13-17 | flattening `a + b` gives the flattening of `a` followed by that of `b` |
| Documents.FlatLength | 01-intro/rag_elasticsearch.py:13-17 | the flattened list's length is the sum of the groups' document counts |
| Documents.GroupInPlace | 01-intro/rag-intro.py:10-14 | group `k`'s documents appear contiguously and in their own order, after all documents of earlier groups (at offset equal to their total count) and before those of later groups |
| Documents.FlatMembers | 01-intro/rag-intro.py:11-14 | a record is in the flattened list iff some group lists it iff flattening gives it a course |
| Documents.LastCourseIsLast | 01-intro/rag_elasticsearch.py:14-16 | the course left on a record is that of the last group listing it |
| Documents.TaggedWithOwnCourse | 01-intro/rag-intro.py:13 | when no record is shared between groups, every record of group `k` ends with `course` equal to group `k`'s course and all its other keys unchanged |
| ContextAssembler.BlockLayout | 01-intro/rag_elasticsearch.py:71 | one document's block is 32 label characters around its three values: it opens with `section: `, holds the section, question and text verbatim at offsets 9, 20 + the section's length and 30 + the section's and question's lengths, and closes with a blank line |
| ContextAssembler.MissingField | 01-intro/rag_elasticsearch.py:71 | for a document lacking a block field, the KeyError key is absent from it, is one of `section`, `question`, `text`, and every field the f-string reads before it is present |
| ContextAssembler.FirstIncomplete | 01-intro/rag_elasticsearch.py:70-71 | the index returned is the first document lacking a block field (every earlier one has all three), or the length when none lacks one |
| ContextAssembler.ContextResult | 01-intro/rag_elasticsearch.py:68-72 | the context loop succeeds iff every document has `section`, `question` and `text` |
| ContextAssembler.FirstIncompleteAt | 01-intro/rag_elasticsearch.py:70-71 | when the documents before `i` are complete and document `i` is not, the outcome is the KeyError for document `i`'s first missing field |
| ContextAssembler.ContextAppend | 01-intro/rag_elasticsearch.py:68-72 | the context of `a + b` is the context of `a` followed by that of `b` (no reordering, deduplication or truncation) |
| ContextAssembler.ContextLength | 01-intro/rag_elasticsearch.py:71 | the context is 32 label characters per document plus the lengths of the three field values of every document |
| ContextAssembler.ContextEmpty | 01-intro/rag_elasticsearch.py:69-72 | the context is `""` exactly when there are no results |
| ContextAssembler.ContextSingle | 01-intro/rag_elasticsearch.py:71 | the context of one document is its block, `section: …\nquestion: …\nanswer : …\n\n` |
| ContextAssembler.BlockInPlace | 01-intro/rag_elasticsearch.py:70-71 | document `i`'s block appears whole between the context of the documents before it and that of the documents after it |
| Text.IsSpaceListed | 01-intro/rag_elasticsearch.py:86 | the whitespace `strip()` removes is exactly the 29 characters `str.isspace` accepts: space, `\t`, `\n`, `\r`, `\v`, `\f`, U+001C to U+001F, U+0085, U+00A0, U+1680, U+2000 to U+200A, U+2028, U+2029, U+202F, U+205F and U+3000 |
| Text.TrimLeft | 01-intro/rag_elasticsearch.py:86 | the result is a suffix of the input, what was dropped is all whitespace, and it does not start with whitespace |
| Text.TrimRight | 01-intro/rag_elasticsearch.py:86 | the result is a prefix of the input, what was dropped is all whitespace, it does not end with whitespace, and it is empty iff the input is all whitespace |
| Text.Strip | 01-intro/rag_elasticsearch.py:86 | the result has no whitespace at either end, sits in the input between two all-whitespace margins, and is empty iff the input is all whitespace |
| Text.StripUnique | 01-intro/rag-intro.py:42 | anything that sits between two all-whitespace margins and has no whitespace at its ends is what `strip()` returns |
| Text.TrimRightAppend | 01-intro/rag_elasticsearch.py:86 | rstrip of `a + b` trims only `b` when `b` holds non-whitespace; otherwise it drops `b` and trims `a` |
| Prompts.FormatPlaces | 01-intro/rag_elasticsearch.py:86 | `format` keeps every part of the template text and puts the question and the context in verbatim, the question right after the head and the context right after the context label; the length is the sum of the parts |
| Prompts.RenderStripsFormat | 01-intro/rag_elasticsearch.py:86 | the rendered prompt is the formatted text with only whitespace taken off its two ends, it has no whitespace left at either end, and it is empty exactly when the formatted text is all whitespace |
| Prompts.RenderKeepsHead | 01-intro/rag_elasticsearch.py:76-86 | for a well-formed template the stripped prompt is the head, the question verbatim, then the context label and context without trailing whitespace |
| Prompts.RenderWithContext | 01-intro/rag_elasticsearch.py:83-86 | a context holding non-whitespace is kept whole except for its trailing whitespace |
| Prompts.RenderBlankContext | 01-intro/rag-intro.py:35-42 | a blank context vanishes together with the whitespace ending the context label |
| Prompts.RenderPromises | 01-intro/rag_elasticsearch.py:76-86 | for any question and context the prompt starts with the role sentence, contains `QUESTION: ` plus the question and the fallback phrase, and has no whitespace at either end |
| Prompts.HeadShape | 01-intro/rag_elasticsearch.py:77-81 | a head made of role, instructions, fallback, gap and question label starts with the role, contains the fallback and ends with the question label |
| Prompts.MiddleShape | 01-intro/rag_elasticsearch.py:83 | `CONTEXT: ` after whitespace is not blank, and rstrip removes exactly its final space |
| RagElasticsearch.BuildQuery | 01-intro/rag_elasticsearch.py:42-60 | the search body asks for 5 hits, matches the query verbatim with `best_fields` over `question^3`, `text` and `section`, and filters on the term `course` = `data-engineering-zoomcamp` |
| RagElasticsearch.Sources | 01-intro/rag_elasticsearch.py:63-64 | one document per hit, and document `i` is hit `i`'s `_source` |
| RagElasticsearch.ElasticSearch | 01-intro/rag_elasticsearch.py:61-65 | the result is exactly the `_source` of each hit the backend returned for the fixed query body, in hit order |
| RagElasticsearch.CreateContext | 01-intro/rag_elasticsearch.py:68-72 | the loop returns the concatenated blocks when every result has its fields, otherwise the KeyError of the first incomplete result |
| RagElasticsearch.TemplateWellFormed | 01-intro/rag_elasticsearch.py:76-84 | the indented template is whitespace, then the role sentence, fallback phrase and `QUESTION: `, then a non-blank context label, then whitespace |
| RagElasticsearch.CreatePrompt | 01-intro/rag_elasticsearch.py:75-87 | `create_prompt` fills the indented template with the query and context and strips it; the prompt starts with `You are a course teaching assistant.`, contains `QUESTION: ` plus the query and the fallback phrase, and has no leading or trailing whitespace, whatever the context |
| RagElasticsearch.CreatePromptWithContext | 01-intro/rag_elasticsearch.py:86 | with a non-blank context the prompt is the head, the query, the context label and the context less its trailing whitespace |
| RagElasticsearch.CreatePromptBlankContext | 01-intro/rag_elasticsearch.py:86 | with a blank context (no results) the prompt ends with the bare `CONTEXT:` |
| RagElasticsearch.Ask | 01-intro/rag_elasticsearch.py:106-109 | search, context and prompt compose: with complete results the prompt is `create_prompt` of their context; otherwise the KeyError propagates |
| RagIntro.Values | 01-intro/rag-intro.py:20 | the documents the index is fitted on are the records' current fields, one per record, in order |
| RagIntro.AccumulateContext | 01-intro/rag-intro.py:38-40 | the loop leaves the concatenated blocks of all results, `""` for none, or the KeyError of the first incomplete result |
| RagIntro.TemplateWellFormed | 01-intro/rag-intro.py:28-36 | the unindented template is whitespace, then the role sentence, fallback phrase and `QUESTION: `, then a non-blank context label, then whitespace |
| RagIntro.BuildPrompt | 01-intro/rag-intro.py:42 | the unindented template filled with the query and context and stripped; the prompt starts with the role sentence, contains `QUESTION: ` plus the query and the fallback phrase, and has no leading or trailing whitespace |
| RagIntro.BuildPromptWithContext | 01-intro/rag-intro.py:33-42 | with a non-blank context the prompt is the head, the query, the context label and the context less its trailing whitespace |
| RagIntro.BuildPromptBlankContext | 01-intro/rag-intro.py:35-42 | with a blank context the prompt ends with the bare `CONTEXT:` |
| RagIntro.Answer | 01-intro/rag-intro.py:38-42 | for the retrieved results, the outcome is the prompt built from their accumulated context when every result is complete, and the context loop's KeyError otherwise |
| RagIntro.Run | 01-intro/rag-intro.py:10-42 | the script flattens and tags as `Flatten` does; `results` are what the search returns for the tagged documents and the fixed request; the prompt is the one built from their accumulated context, or the context loop's KeyError |
| ScriptAgreement.SameContext | 01-intro/rag-intro.py:40 | for the same results the two scripts' context loops give the same context or the same KeyError |

## Left out

- Elasticsearch client construction, index creation with `index_settings`, per-document indexing with `tqdm`, and the ranking done by `es_client.search` (01-intro/rag_elasticsearch.py:20-39, 61). The search is the parameter `search`. The query body (size 5, `question^3`, `best_fields`, the course term filter) is constant data in `BuildQuery`, and its effect on ranking is not modelled.
- `minsearch.Index` `fit` and `search` (01-intro/rag-intro.py:18-26). This third-party code is not part of this model. The search is the parameter `search`. The field lists, the boosts (as `real`) and the result count are passed to it as data, uninterpreted.
- The chat-completion calls and `creds` (01-intro/rag_elasticsearch.py:90-103, 01-intro/rag-intro.py:45-54): network collaborators. `Ask` and `Run` stop at the prompt.
- Reading `documents.json`, `input()` and `print()`: I/O. The groups arrive as a parameter. `RagIntro.Run` uses the script's fixed query.
- A group without `course` or `documents`, a response without `hits` (`response['hits']['hits']`, 01-intro/rag_elasticsearch.py:63), or a hit without `_source`, raises KeyError in the scripts. The datatypes `CourseGroup`, `SearchResponse`, `HitList` and `Hit` always carry these fields, so those errors are not modelled. The other keys of a hit (`_index`, `_id`, `_score`) are never read and are left out of `Hit`.
- Field values are modelled as strings. The `str()` conversion an f-string applies to a non-string JSON value (a number, a list) is not modelled.
- Dafny's `string` holds Unicode scalar values only. A Python `str` can also hold lone surrogates (for example one decoded from the JSON escape `"\ud800"`); such strings cannot be represented.
- Python's whitespace set is fixed at the characters CPython's `str.isspace` accepts today. Changes between Unicode versions are not modelled.
