/**
  Spans as produced by the sentence detector and the word tokenizer, and the
  order in which the segmenter's cursor `(indexSentence, indexWord)` visits
  the words of a loaded document: sentence-major, word-minor, sentences
  without words skipped.
 */
module SpanCursor {

  /** A half-open interval `[start, end)`; word spans are relative to their sentence. */
  datatype Span = Span(start: int, end: int)

  predicate SpanWithin(sp: Span, length: int) {
    0 <= sp.start <= sp.end <= length
  }

  predicate SpansWithin(spans: seq<Span>, length: int) {
    forall i :: 0 <= i < |spans| ==> SpanWithin(spans[i], length)
  }

  /** A cursor position: word `word` of sentence `sentence`. */
  datatype Position = Position(sentence: nat, word: nat)

  predicate IsWordPosition(words: seq<seq<Span>>, p: Position) {
    p.sentence < |words| && p.word < |words[p.sentence]|
  }

  /** Lexicographic order on positions. */
  predicate Before(p: Position, q: Position) {
    p.sentence < q.sentence || (p.sentence == q.sentence && p.word < q.word)
  }

  /** The positions the cursor still emits when it stands at word `w` of sentence `s`. */
  function Pending(words: seq<seq<Span>>, s: nat, w: nat): seq<Position>
    decreases |words| - s, if s < |words| then |words[s]| - w else 0
  {
    if s >= |words| then []
    else if w >= |words[s]| then Pending(words, s + 1, 0)
    else [Position(s, w)] + Pending(words, s, w + 1)
  }

  /** The number of words in sentences `s` onwards. */
  function WordsFrom(words: seq<seq<Span>>, s: nat): nat
    decreases |words| - s
  {
    if s >= |words| then 0 else |words[s]| + WordsFrom(words, s + 1)
  }

  /** The number of words over all sentences. */
  function TotalWords(words: seq<seq<Span>>): nat
  {
    WordsFrom(words, 0)
  }

  /** The cursor emits exactly the word positions at or after its own, and nothing else. */
  lemma {:induction false} PendingMembers(words: seq<seq<Span>>, s: nat, w: nat, p: Position)
    ensures p in Pending(words, s, w) <==> IsWordPosition(words, p) && !Before(p, Position(s, w))
    decreases |words| - s, if s < |words| then |words[s]| - w else 0
  {
    if s >= |words| {
    } else if w >= |words[s]| {
      PendingMembers(words, s + 1, 0, p);
      SkipSentence(words, s, w, p);
    } else {
      PendingMembers(words, s, w + 1, p);
      TakeWord(words, s, w, p);
    }
  }

  /** Past the last word of sentence `s`, "not before" means "not before the next sentence". */
  lemma SkipSentence(words: seq<seq<Span>>, s: nat, w: nat, p: Position)
    requires s < |words| && |words[s]| <= w
    ensures Pending(words, s, w) == Pending(words, s + 1, 0)
    ensures IsWordPosition(words, p) && !Before(p, Position(s, w)) <==>
            IsWordPosition(words, p) && !Before(p, Position(s + 1, 0))
  {
  }

  /** At a word, the pending positions are that word followed by those after it. */
  lemma TakeWord(words: seq<seq<Span>>, s: nat, w: nat, p: Position)
    requires s < |words| && w < |words[s]|
    ensures p in Pending(words, s, w) <==> p == Position(s, w) || p in Pending(words, s, w + 1)
    ensures IsWordPosition(words, p) && !Before(p, Position(s, w)) <==>
            p == Position(s, w) || (IsWordPosition(words, p) && !Before(p, Position(s, w + 1)))
  {
  }

  /** Every emitted position is a real word, and later in the sequence means later in the document. */
  lemma {:induction false} PendingOrdered(words: seq<seq<Span>>, s: nat, w: nat)
    ensures forall k :: 0 <= k < |Pending(words, s, w)| ==> IsWordPosition(words, Pending(words, s, w)[k])
    ensures forall i, j :: 0 <= i < j < |Pending(words, s, w)| ==> Before(Pending(words, s, w)[i], Pending(words, s, w)[j])
    decreases |words| - s, if s < |words| then |words[s]| - w else 0
  {
    if s >= |words| {
    } else if w >= |words[s]| {
      PendingOrdered(words, s + 1, 0);
    } else {
      var rest := Pending(words, s, w + 1);
      PendingOrdered(words, s, w + 1);
      forall k | 0 <= k < |rest|
        ensures Before(Position(s, w), rest[k])
      {
        PendingMembers(words, s, w + 1, rest[k]);
        assert rest[k] in rest;
      }
    }
  }

  /** From sentence `s`, word `w`, the cursor emits the words left in `s` and all words of later sentences. */
  lemma {:induction false} PendingLength(words: seq<seq<Span>>, s: nat, w: nat)
    requires s < |words| && w <= |words[s]|
    ensures |Pending(words, s, w)| + w == WordsFrom(words, s)
    decreases |words| - s, |words[s]| - w
  {
    if w == |words[s]| {
      assert Pending(words, s, w) == Pending(words, s + 1, 0);
      if s + 1 < |words| {
        PendingLength(words, s + 1, 0);
      }
    } else {
      PendingLength(words, s, w + 1);
    }
  }

  /** A freshly positioned cursor emits one token per word of the document. */
  lemma CountFromStart(words: seq<seq<Span>>)
    ensures |Pending(words, 0, 0)| == TotalWords(words)
  {
    if words != [] {
      PendingLength(words, 0, 0);
    }
  }
}
