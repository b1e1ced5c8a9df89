/**
 * The message shared by the three errors for a string-valued setting the
 * runner does not recognise: what was being parsed, the rejected input and
 * the values it knows.
 */
module Unrecognized {
  import opened Text

  const KnownValuesMid := "\n(known values: "

  /**
   * The shared shape of the three "unrecognized value" errors: `lead` names
   * what was being parsed.
   */
  function UnrecognizedValue(lead: string, input: string, known: seq<string>): string {
    lead + input + KnownValuesMid + Join(known, ", ") + ")"
  }

  /** The message starts with `lead`, then names the rejected input. */
  lemma UnrecognizedValueNamesInput(lead: string, input: string, known: seq<string>)
    ensures StartsWith(UnrecognizedValue(lead, input, known), lead)
    ensures OccursAt(input, UnrecognizedValue(lead, input, known), |lead|)
    ensures OccursAt(KnownValuesMid, UnrecognizedValue(lead, input, known), |lead| + |input|)
    ensures EndsWith(UnrecognizedValue(lead, input, known), ")")
  {
    var head := lead + input + KnownValuesMid;
    var list := Join(known, ", ");
    MiddleOccurs(lead, input, KnownValuesMid);
    AfterPrefix(lead + input, KnownValuesMid);
    OccursExtend(input, head, |lead|, list + ")");
    OccursExtend(KnownValuesMid, head, |lead| + |input|, list + ")");
    StartsWithExtend(head, lead, list + ")");
    assert head + list + ")" == head + (list + ")");
    MiddleOccurs(head, list, ")");
  }

  /** Where the joined list of known values starts. */
  function KnownValuesAt(lead: string, input: string): nat {
    |lead| + |input| + |KnownValuesMid|
  }

  /**
   * The message lists every known value, in order, with `, ` between
   * neighbours, and holds nothing past the list but the closing `)`.
   */
  lemma UnrecognizedValueListsKnown(lead: string, input: string, known: seq<string>)
    ensures ListedFrom(known, ", ", UnrecognizedValue(lead, input, known), KnownValuesAt(lead, input))
    ensures SeparatedFrom(known, ", ", UnrecognizedValue(lead, input, known), KnownValuesAt(lead, input))
    ensures |UnrecognizedValue(lead, input, known)| == KnownValuesAt(lead, input) + JoinedLength(known, ", ") + 1
  {
    var head := lead + input + KnownValuesMid;
    var whole := UnrecognizedValue(lead, input, known);
    JoinedListFramed(known, ", ", head, ")", KnownValuesAt(lead, input), whole);
    JoinedSeparatedFramed(known, ", ", head, ")", KnownValuesAt(lead, input), whole);
    JoinLength(known, ", ");
  }

  /**
   * The facts above leave no freedom: a text with the lead, the input, the
   * known-values marker, the listed values and the closing `)` at those
   * places, and of that length, is the message.
   */
  lemma UnrecognizedValueExact(lead: string, input: string, known: seq<string>, r: string)
    requires StartsWith(r, lead) && OccursAt(input, r, |lead|)
    requires OccursAt(KnownValuesMid, r, |lead| + |input|)
    requires ListedFrom(known, ", ", r, KnownValuesAt(lead, input))
    requires SeparatedFrom(known, ", ", r, KnownValuesAt(lead, input))
    requires EndsWith(r, ")")
    requires |r| == KnownValuesAt(lead, input) + JoinedLength(known, ", ") + 1
    ensures r == UnrecognizedValue(lead, input, known)
  {
    FramedListExact(lead, input, KnownValuesMid, known, ", ", ")", r);
  }
}
