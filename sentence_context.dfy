/**
  The per-token sentence-context payload of the segmenter: the string
  `f=<first>,l=<last>,s=<sentence>` that `addSentenceContext` stores in the
  token's payload attribute, and a reader that recovers the three indexes.
 */
module SentenceContextCodec {
  import opened Wrappers
  import opened Decimal

  /** Position of a token within its sentence and of the sentence within the document. */
  datatype SentenceContext = SentenceContext(firstTokenIndex: nat, lastTokenIndex: nat, sentenceIndex: nat)

  /** The payload text written for a context (the part-of-speech tag is never written). */
  function EncodeSentenceContext(c: SentenceContext): string
  {
    "f=" + NatToDecimal(c.firstTokenIndex)
      + ",l=" + NatToDecimal(c.lastTokenIndex)
      + ",s=" + NatToDecimal(c.sentenceIndex)
  }

  /** Reads `tag` followed by at least one digit; yields the number and what follows it. */
  function ParseField(p: string, tag: string): Option<(nat, string)>
  {
    if |tag| <= |p| && p[..|tag|] == tag then
      var r := p[|tag|..];
      var k := LeadingDigits(r);
      if k == 0 then None else Some((DecimalValue(r[..k]), r[k..]))
    else
      None
  }

  /** Inverse of EncodeSentenceContext; None for any text it cannot have written. */
  function ParseSentenceContext(p: string): Option<SentenceContext>
  {
    match ParseField(p, "f=")
    case None => None
    case Some((f, r1)) =>
      match ParseField(r1, ",l=")
      case None => None
      case Some((l, r2)) =>
        match ParseField(r2, ",s=")
        case None => None
        case Some((s, r3)) => if r3 == [] then Some(SentenceContext(f, l, s)) else None
  }

  lemma ParseFieldOfEncoded(tag: string, n: nat, rest: string)
    requires rest == [] || !IsDigit(rest[0])
    ensures ParseField(tag + NatToDecimal(n) + rest, tag) == Some((n, rest))
  {
    var d := NatToDecimal(n);
    var p := tag + d + rest;
    assert p[..|tag|] == tag;
    assert p[|tag|..] == d + rest;
    LeadingDigitsOfDigits(d, rest);
    assert (d + rest)[..|d|] == d;
    assert (d + rest)[|d|..] == rest;
    DecimalRoundTrip(n);
  }

  /** Every payload the segmenter writes decodes to the context it was written for. */
  lemma ParseEncode(c: SentenceContext)
    ensures ParseSentenceContext(EncodeSentenceContext(c)) == Some(c)
  {
    var f, l, s := NatToDecimal(c.firstTokenIndex), NatToDecimal(c.lastTokenIndex), NatToDecimal(c.sentenceIndex);
    var r2 := ",s=" + s;
    var r1 := ",l=" + l + r2;
    assert EncodeSentenceContext(c) == "f=" + f + r1;
    ParseFieldOfEncoded("f=", c.firstTokenIndex, r1);
    ParseFieldOfEncoded(",l=", c.lastTokenIndex, r2);
    assert r2 == ",s=" + s + [];
    ParseFieldOfEncoded(",s=", c.sentenceIndex, []);
  }

  /** Distinct contexts are written as distinct payloads. */
  lemma EncodeInjective(c1: SentenceContext, c2: SentenceContext)
    requires EncodeSentenceContext(c1) == EncodeSentenceContext(c2)
    ensures c1 == c2
  {
    ParseEncode(c1);
    ParseEncode(c2);
  }
}
