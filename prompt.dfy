/**
 * Prompt rendering: `template.format(question=..., context=...).strip()`.
 * A template's text is `lead + head + "{question}" + middle + "{context}" + tail`;
 * `format` puts the two values in verbatim and nothing else in the text is
 * interpreted.
 */
module Prompts {
  import opened Text

  /** The role sentence every prompt starts with. */
  const Role: string := "You are a course teaching assistant."

  /** The phrase the model is told to emit when the context lacks the answer. */
  const Fallback: string := "I am afraid I do not know the answer to your question."

  const QuestionLabel: string := "QUESTION: "

  const ContextLabel: string := "CONTEXT:"

  datatype Template = Template(lead: string, head: string, middle: string, tail: string)

  /** `str.format` with the two keyword arguments. */
  function Format(t: Template, question: string, context: string): string
  {
    t.lead + t.head + question + t.middle + context + t.tail
  }

  /** `t.format(question=question, context=context).strip()` */
  function Render(t: Template, question: string, context: string): string
  {
    Strip(Format(t, question, context))
  }

  /**
   * `format` keeps the template text and puts each value in verbatim, the
   * question right after the head and the context right after the middle.
   */
  lemma FormatPlaces(t: Template, question: string, context: string)
    ensures |Format(t, question, context)| == |t.lead| + |t.head| + |question| + |t.middle| + |context| + |t.tail|
    ensures StartsWith(Format(t, question, context), t.lead + t.head)
    ensures EndsWith(Format(t, question, context), t.tail)
    ensures OccursAt(Format(t, question, context), question, |t.lead| + |t.head|)
    ensures OccursAt(Format(t, question, context), t.middle, |t.lead| + |t.head| + |question|)
    ensures OccursAt(Format(t, question, context), context, |t.lead| + |t.head| + |question| + |t.middle|)
  {
    var f := Format(t, question, context);
    var i := |t.lead| + |t.head|;
    var j := i + |question|;
    var k := j + |t.middle|;
    assert f == (t.lead + t.head) + question + t.middle + context + t.tail;
    assert f[..i] == t.lead + t.head;
    assert f[i..j] == question;
    assert f[j..k] == t.middle;
    assert f[k..k + |context|] == context;
    assert f[|f| - |t.tail|..] == t.tail;
  }

  /**
   * The rendered prompt is the formatted text with only whitespace taken
   * off its two ends, and has none left there; it is empty exactly when the
   * formatted text is all whitespace.
   */
  lemma RenderStripsFormat(t: Template, question: string, context: string)
    ensures IsStripped(Render(t, question, context))
    ensures exists i :: PaddedAt(Format(t, question, context), Render(t, question, context), i)
    ensures Render(t, question, context) == [] <==> AllSpace(Format(t, question, context))
  {
  }

  /**
   * The shape both of the scripts' templates have: whitespace, then the role
   * sentence, the fallback phrase and the question label, the question, a
   * context label that is not all whitespace, the context and whitespace.
   */
  predicate WellFormed(t: Template)
  {
    && AllSpace(t.lead)
    && StartsWith(t.head, Role)
    && Contains(t.head, Fallback)
    && EndsWith(t.head, QuestionLabel)
    && !AllSpace(t.middle)
    && AllSpace(t.tail)
  }

  /**
   * What `strip()` leaves of a well-formed template: the lead and tail are
   * gone, and so is the trailing whitespace of the context label and context;
   * the head and the question are kept verbatim.
   */
  lemma {:induction false} RenderKeepsHead(t: Template, question: string, context: string)
    requires WellFormed(t)
    ensures Render(t, question, context) == t.head + question + TrimRight(t.middle + context)
  {
    var mc := t.middle + context;
    var kept := TrimRight(mc);
    var gone := mc[|kept|..];
    assert mc == kept + gone;
    AllSpaceConcat(t.middle, context);
    RenderAround(t, question, context, kept, gone);
  }

  /** A context with some non-whitespace text is kept whole but for its trailing whitespace. */
  lemma {:induction false} RenderWithContext(t: Template, question: string, context: string)
    requires WellFormed(t) && !AllSpace(context)
    ensures Render(t, question, context) == t.head + question + t.middle + TrimRight(context)
  {
    RenderKeepsHead(t, question, context);
    KeepContext(Render(t, question, context), t.head + question, t.middle, context);
  }

  /** Text ending in a label and a non-blank context, rstripped, keeps the label and loses only the context's trailing whitespace. */
  lemma KeepContext(r: string, prefix: string, tag: string, context: string)
    requires !AllSpace(context) && r == prefix + TrimRight(tag + context)
    ensures r == prefix + tag + TrimRight(context)
  {
    TrimRightAppend(tag, context);
    assert prefix + (tag + TrimRight(context)) == prefix + tag + TrimRight(context);
  }

  /** An empty or all-whitespace context vanishes, together with the whitespace ending the context label. */
  lemma {:induction false} RenderBlankContext(t: Template, question: string, context: string)
    requires WellFormed(t) && AllSpace(context)
    ensures Render(t, question, context) == t.head + question + TrimRight(t.middle)
  {
    RenderKeepsHead(t, question, context);
    TrimRightAppend(t.middle, context);
  }

  /** The prompt is the head, the question and the part `kept` of the context label and context that is not trailing whitespace. */
  lemma RenderAround(t: Template, question: string, context: string, kept: string, gone: string)
    requires WellFormed(t)
    requires kept != [] && !IsSpace(kept[|kept| - 1]) && AllSpace(gone)
    requires t.middle + context == kept + gone
    ensures Render(t, question, context) == t.head + question + kept
  {
    StrippedPrompt(t, question, kept);
    FormatSplit(t, question, context, kept, gone);
    AllSpaceConcat(gone, t.tail);
    StripUnique(t.lead, t.head + question + kept, gone + t.tail);
  }

  lemma StrippedPrompt(t: Template, question: string, kept: string)
    requires WellFormed(t)
    requires kept != [] && !IsSpace(kept[|kept| - 1])
    ensures IsStripped(t.head + question + kept)
  {
    var r := t.head + question + kept;
    assert r[0] == t.head[0] && t.head[0] == Role[0];
    assert r[|r| - 1] == kept[|kept| - 1];
  }

  lemma FormatSplit(t: Template, question: string, context: string, kept: string, gone: string)
    requires t.middle + context == kept + gone
    ensures Format(t, question, context) == t.lead + (t.head + question + kept) + (gone + t.tail)
  {
    var p := t.lead + t.head + question;
    assert Format(t, question, context) == p + (t.middle + context) + t.tail;
    assert p + (kept + gone) + t.tail == t.lead + (t.head + question + kept) + (gone + t.tail);
  }

  /**
   * Whatever the context: the prompt starts with the role sentence, contains
   * `QUESTION: ` followed by the question and the fallback phrase verbatim,
   * and has no whitespace at either end.
   */
  lemma {:induction false} RenderPromises(t: Template, question: string, context: string)
    requires WellFormed(t)
    ensures StartsWith(Render(t, question, context), Role)
    ensures Contains(Render(t, question, context), QuestionLabel + question)
    ensures Contains(Render(t, question, context), Fallback)
    ensures IsStripped(Render(t, question, context))
  {
    RenderKeepsHead(t, question, context);
    HeadPromises(t, question, TrimRight(t.middle + context));
  }

  /** The head followed by the question and anything starts with the role and holds the label with the question and the fallback. */
  lemma HeadPromises(t: Template, question: string, rest: string)
    requires WellFormed(t)
    ensures StartsWith(t.head + question + rest, Role)
    ensures Contains(t.head + question + rest, QuestionLabel + question)
    ensures Contains(t.head + question + rest, Fallback)
  {
    StartsWithAppend(t.head, Role, question + rest);
    assert t.head + question + rest == t.head + (question + rest);
    ContainsExtend(t.head, Fallback, question + rest);
    EndsWithThenContains(t.head, QuestionLabel, question, rest);
  }

  /** A head built as role, instructions, fallback, gap and question label has the shape `WellFormed` asks for. */
  lemma HeadShape(role: string, instructions: string, fallback: string, gap: string, qlabel: string)
    ensures var head := role + instructions + fallback + gap + qlabel;
      StartsWith(head, role) && Contains(head, fallback) && EndsWith(head, qlabel)
  {
    var head := role + instructions + fallback + gap + qlabel;
    assert head[..|role|] == role;
    assert head[|head| - |qlabel|..] == qlabel;
    ContainsInfix(role + instructions, fallback, gap + qlabel);
    assert role + instructions + fallback + (gap + qlabel) == head;
  }

  /** The context label followed by a space is not blank, and rstrip takes off just that space. */
  lemma MiddleShape(gap: string)
    requires AllSpace(gap)
    ensures !AllSpace(gap + ContextLabel + " ")
    ensures TrimRight(gap + ContextLabel + " ") == gap + ContextLabel
  {
    var m := gap + ContextLabel + " ";
    assert m[|gap|] == 'C';
    TrimRightBeforeSpace(gap + ContextLabel, " ");
  }

  /** A blank context leaves the context label without the space that follows it. */
  lemma RenderBlankContextLabel(t: Template, question: string, context: string, gap: string)
    requires WellFormed(t) && AllSpace(context)
    requires AllSpace(gap) && t.middle == gap + ContextLabel + " "
    ensures Render(t, question, context) == t.head + question + (gap + ContextLabel)
  {
    RenderBlankContext(t, question, context);
    MiddleShape(gap);
  }
}
