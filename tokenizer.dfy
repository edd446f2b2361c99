/**
  The OpenNLP-backed segmenter: it reads a whole document, splits it into
  sentences and each sentence into words, and then hands out one word per
  `IncrementToken` call together with its corrected offsets and its
  sentence-context payload.
 */
module Tokenizer {
  import opened Wrappers
  import opened SpanCursor
  import opened SentenceContextCodec

  /** A sentence detector: sentence spans of the whole text. */
  type SentenceDetector = seq<char> -> seq<Span>
  /** A word tokenizer: word spans of one sentence, relative to the sentence start. */
  type WordTokenizer = seq<char> -> seq<Span>

  /** Size the term buffer is grown to on construction. */
  const DefaultBufferSize: nat := 256

  datatype ConfigError = IllegalArgument(message: string)

  const NeedDetectorMessage: string := "OpenNLPTokenizer: need one or both of Sentence Detector and Tokenizer"


  /** The state of the token attributes: term text, offsets and payload. */
  datatype Attributes = Attributes(term: seq<char>, startOffset: int, endOffset: int, payload: Option<string>)

  /** What `clearAttributes` leaves behind. */
  const Cleared: Attributes := Attributes([], 0, 0, None)

  function SentenceText(text: seq<char>, sentence: Span): seq<char>
    requires SpanWithin(sentence, |text|)
  {
    text[sentence.start..sentence.end]
  }

  /** The word spans of every sentence; the tokenizer is only consulted when there is a sentence. */
  function SplitAll(text: seq<char>, sentences: seq<Span>, tokenizerOp: Option<WordTokenizer>): seq<seq<Span>>
    requires SpansWithin(sentences, |text|)
    requires tokenizerOp.Some? || sentences == []
  {
    seq(|sentences|, i requires 0 <= i < |sentences| => tokenizerOp.value(SentenceText(text, sentences[i])))
  }

  /** The word at `p` lies inside its sentence. */
  ghost predicate WordInSentence(sentences: seq<Span>, words: seq<seq<Span>>, p: Position)
    requires |words| == |sentences| && IsWordPosition(words, p)
  {
    SpanWithin(words[p.sentence][p.word], sentences[p.sentence].end - sentences[p.sentence].start)
  }

  /** Sentences lie inside the text and each sentence's words inside that sentence. */
  ghost predicate WellLoaded(textLength: int, sentences: seq<Span>, words: seq<seq<Span>>) {
    && SpansWithin(sentences, textLength)
    && |words| == |sentences|
    && forall p :: IsWordPosition(words, p) ==> WordInSentence(sentences, words, p)
  }

  /**
    `loadAll` can run on `text`: the sentence detector is present, the word
    tokenizer is present once there is a sentence, and every span either
    returns lies inside the text it was given.
   */
  ghost predicate Loadable(sentenceOp: Option<SentenceDetector>, tokenizerOp: Option<WordTokenizer>, text: seq<char>) {
    && sentenceOp.Some?
    && SpansWithin(sentenceOp.value(text), |text|)
    && (tokenizerOp.Some? || sentenceOp.value(text) == [])
    && WellLoaded(|text|, sentenceOp.value(text), SplitAll(text, sentenceOp.value(text), tokenizerOp))
  }

  /**
    The end offset reported for a token ("issue 26"): the corrected end,
    unless it lies more than `termLength` past the start, in which case it is
    pulled back to `start + termLength`.
   */
  function ClipEnd(start: int, end: int, termLength: nat): (r: int)
    ensures r - start <= termLength
    ensures end - start <= termLength ==> r == end
    ensures end - start > termLength ==> r - start == termLength
  {
    if end - start > termLength then start + termLength else end
  }

  /** Applies the character-filter offset correction. */
  function CorrectedOffset(correctOffset: int -> int, offset: int): int
  {
    correctOffset(offset)
  }

  /** Absolute start of the word at `p` in the text. */
  function WordStart(sentences: seq<Span>, words: seq<seq<Span>>, p: Position): int
    requires |words| == |sentences| && IsWordPosition(words, p)
  {
    sentences[p.sentence].start + words[p.sentence][p.word].start
  }

  /** The corrected, unclipped end of the word at `p`; what `finalOffset` records. */
  function UnclippedEnd(sentences: seq<Span>, words: seq<seq<Span>>, correctOffset: int -> int, p: Position): int
    requires |words| == |sentences| && IsWordPosition(words, p)
  {
    CorrectedOffset(correctOffset, sentences[p.sentence].start + words[p.sentence][p.word].end)
  }

  /** The attributes of the token emitted for the word at `p`. */
  function TokenAt(text: seq<char>, sentences: seq<Span>, words: seq<seq<Span>>, correctOffset: int -> int, p: Position): (a: Attributes)
    requires WellLoaded(|text|, sentences, words) && IsWordPosition(words, p)
    ensures var word := words[p.sentence][p.word];
      && |a.term| == word.end - word.start
      && (forall k :: 0 <= k < |a.term| ==> a.term[k] == text[WordStart(sentences, words, p) + k])
      && a.startOffset == CorrectedOffset(correctOffset, WordStart(sentences, words, p))
      && a.endOffset - a.startOffset <= |a.term|
      && a.payload == Some(EncodeSentenceContext(SentenceContext(p.word, p.word, p.sentence)))
  {
    var word := words[p.sentence][p.word];
    var spot := WordStart(sentences, words, p);
    var termLength := word.end - word.start;
    assert SpanWithin(word, sentences[p.sentence].end - sentences[p.sentence].start);
    var start := CorrectedOffset(correctOffset, spot);
    Attributes(text[spot..spot + termLength], start,
               ClipEnd(start, UnclippedEnd(sentences, words, correctOffset, p), termLength),
               Some(EncodeSentenceContext(SentenceContext(p.word, p.word, p.sentence))))
  }

  /**
    The reported offsets of a token never span more than its text, and they
    are the corrected offsets themselves whenever those do not.
   */
  lemma TokenOffsets(text: seq<char>, sentences: seq<Span>, words: seq<seq<Span>>, correctOffset: int -> int, p: Position)
    requires WellLoaded(|text|, sentences, words) && IsWordPosition(words, p)
    ensures var a := TokenAt(text, sentences, words, correctOffset, p);
      var raw := UnclippedEnd(sentences, words, correctOffset, p);
      && a.endOffset - a.startOffset <= |a.term|
      && (raw - a.startOffset <= |a.term| ==> a.endOffset == raw)
      && (raw - a.startOffset > |a.term| ==> a.endOffset - a.startOffset == |a.term|)
  {
  }

  /** The payload of the token at `p` decodes to (word index, word index, sentence index). */
  lemma TokenContext(text: seq<char>, sentences: seq<Span>, words: seq<seq<Span>>, correctOffset: int -> int, p: Position)
    requires WellLoaded(|text|, sentences, words) && IsWordPosition(words, p)
    ensures var a := TokenAt(text, sentences, words, correctOffset, p);
      a.payload.Some? && ParseSentenceContext(a.payload.value) == Some(SentenceContext(p.word, p.word, p.sentence))
  {
    ParseEncode(SentenceContext(p.word, p.word, p.sentence));
  }

  class OpenNLPTokenizer {
    const sentenceOp: Option<SentenceDetector>
    const tokenizerOp: Option<WordTokenizer>
    /** The character-filter offset correction inherited from the tokenizer base class. */
    const correctOffset: int -> int

    /** What is left to read from the input reader. */
    var input: seq<char>

    var fullText: seq<char>
    var sentences: seq<Span>
    var words: array<seq<Span>>
    /** The word spans of the current sentence; None stands for Java's null. */
    var wordSet: Option<seq<Span>>
    var first: bool
    var indexSentence: nat
    var indexWord: nat
    var finalOffset: int

    // The token attributes.
    var termBuffer: array<char>
    var termLength: nat
    var startOffset: int
    var endOffset: int
    var payload: Option<string>

    /** The invariant of the whole tokenizer. */
    ghost predicate Valid()
      reads this`first, this`fullText, this`sentences, this`words, words, this`wordSet,
            this`indexSentence, this`indexWord, this`termBuffer, this`termLength
    {
      BufferValid() && CursorValid()
    }

    /** The term length fits the term buffer. */
    ghost predicate BufferValid()
      reads this`termBuffer, this`termLength
    {
      termLength <= termBuffer.Length
    }

    /** Once loaded, the document is well formed and the cursor points into it. */
    ghost predicate CursorValid()
      reads this`first, this`fullText, this`sentences, this`words, words, this`wordSet,
            this`indexSentence, this`indexWord
    {
      !first ==>
        && 0 < |sentences|
        && WellLoaded(|fullText|, sentences, words[..])
        && indexSentence < |sentences|
        && words.Length == |sentences| && indexWord <= |words[indexSentence]|
        && (wordSet.None? ==> indexSentence == 0 && indexWord == 0)
        && (wordSet.Some? ==> wordSet.value == words[indexSentence])
    }

    ghost predicate CanLoad()
      reads this`input
    {
      Loadable(sentenceOp, tokenizerOp, input)
    }

    /** The words still to be emitted, in emission order. */
    ghost function Remaining(): seq<Position>
      reads this`first, this`fullText, this`sentences, this`words, words, this`wordSet,
            this`indexSentence, this`indexWord
      requires CursorValid()
    {
      if first then [] else Pending(words[..], indexSentence, indexWord)
    }

    ghost function Attrs(): Attributes
      reads this`termBuffer, this`termLength, this`startOffset, this`endOffset, this`payload, termBuffer
      requires BufferValid()
    {
      Attributes(termBuffer[..termLength], startOffset, endOffset, payload)
    }

    /** At least one detector must be present; `NewOpenNLPTokenizer` reports the other case. */
    constructor (sentenceOp: Option<SentenceDetector>, tokenizerOp: Option<WordTokenizer>, correctOffset: int -> int)
      requires sentenceOp.Some? || tokenizerOp.Some?
      ensures Valid() && first
      ensures this.sentenceOp == sentenceOp && this.tokenizerOp == tokenizerOp && this.correctOffset == correctOffset
      ensures input == [] && termBuffer.Length == DefaultBufferSize && Attrs() == Cleared
      ensures fresh(termBuffer)
      ensures indexSentence == 0 && indexWord == 0 && finalOffset == 0 && wordSet == None
    {
      this.sentenceOp := sentenceOp;
      this.tokenizerOp := tokenizerOp;
      this.correctOffset := correctOffset;
      input := [];
      fullText, sentences := [], [];
      words := new seq<Span>[0];
      wordSet := None;
      first := true;
      indexSentence, indexWord, finalOffset := 0, 0, 0;
      termBuffer := new char[DefaultBufferSize];
      termLength, startOffset, endOffset, payload := 0, 0, 0, None;
    }

    /** Hands a new reader to the tokenizer (the base class's setReader). */
    method SetReader(text: seq<char>)
      modifies this`input
      ensures input == text
    {
      input := text;
    }

    method IncrementToken() returns (hasToken: bool)
      requires Valid()
      requires first ==> CanLoad()
      modifies this`fullText, this`input, this`sentences, this`words, this`first,
               this`indexWord, this`indexSentence, this`finalOffset, this`wordSet,
               this`termBuffer, termBuffer, this`termLength, this`startOffset, this`endOffset, this`payload
      ensures Valid()
      ensures old(first) ==>
        && fullText == old(input) && input == []
        && sentences == old(sentenceOp.value(input))
        && fresh(words) && words[..] == SplitAll(fullText, sentences, tokenizerOp)
      ensures !old(first) ==>
        fullText == old(fullText) && sentences == old(sentences) && words == old(words) && words[..] == old(words[..]) && input == old(input)
      ensures var todo := if old(first) then Pending(words[..], 0, 0) else old(Remaining());
        && (hasToken <==> todo != [])
        && (hasToken ==>
              && !first && Remaining() == todo[1..] && IsWordPosition(words[..], todo[0])
              && Attrs() == TokenAt(fullText, sentences, words[..], correctOffset, todo[0])
              && finalOffset == UnclippedEnd(sentences, words[..], correctOffset, todo[0]))
      ensures !hasToken ==> first && finalOffset == (if old(first) then 0 else old(finalOffset))
      ensures !hasToken && sentences == [] ==> termBuffer == old(termBuffer) && Attrs() == old(Attrs())
      ensures !hasToken && sentences != [] ==> Attrs() == Cleared
      ensures termBuffer == old(termBuffer) || fresh(termBuffer)
    {
      if first {
        StartDocument();
      }
      if |sentences| == 0 {
        first := true;
        return false;
      }
      hasToken := Advance();
    }

    /** The first call's preparation: load the document and put the cursor at its start. */
    method StartDocument()
      requires first && CanLoad()
      modifies this`fullText, this`input, this`sentences, this`words,
               this`indexWord, this`indexSentence, this`finalOffset, this`wordSet, this`first
      ensures fullText == old(input) && input == []
      ensures sentences == old(sentenceOp.value(input))
      ensures fresh(words) && words[..] == SplitAll(fullText, sentences, tokenizerOp)
      ensures WellLoaded(|fullText|, sentences, words[..])
      ensures !first && indexWord == 0 && indexSentence == 0 && finalOffset == 0 && wordSet == None
    {
      LoadAll();
      RestartAtBeginning();
      first := false;
    }

    /**
      Moves the cursor to the next word, skipping sentences without words,
      and emits it; at the end of the document re-arms loading instead.
     */
    method Advance() returns (hasToken: bool)
      requires Valid() && !first
      modifies this`termBuffer, termBuffer, this`termLength, this`startOffset, this`endOffset, this`payload,
               this`finalOffset, this`indexWord, this`indexSentence, this`wordSet, this`first
      ensures Valid()
      ensures var todo := old(Remaining());
        && (hasToken <==> todo != [])
        && (hasToken ==>
              && !first && Remaining() == todo[1..] && IsWordPosition(words[..], todo[0])
              && Attrs() == TokenAt(fullText, sentences, words[..], correctOffset, todo[0])
              && finalOffset == UnclippedEnd(sentences, words[..], correctOffset, todo[0]))
      ensures !hasToken ==> first && finalOffset == old(finalOffset) && Attrs() == Cleared
      ensures termBuffer == old(termBuffer) || fresh(termBuffer)
    {
      var sentenceOffset := sentences[indexSentence].start;
      if wordSet.None? {
        wordSet := Some(words[indexSentence]);
      }
      ClearAttributes();
      var found;
      found, sentenceOffset := SeekWord(sentenceOffset);
      if !found {
        return false;
      }
      EmitToken(sentenceOffset);
      return true;
    }

    /**
      Steps over the sentences whose words are used up; reports whether a word
      is left, re-arming loading when none is.
     */
    method SeekWord(sentenceOffset0: int) returns (found: bool, sentenceOffset: int)
      requires CursorValid() && !first
      requires wordSet == Some(words[indexSentence]) && sentenceOffset0 == sentences[indexSentence].start
      modifies this`indexSentence, this`indexWord, this`wordSet, this`first
      ensures CursorValid()
      ensures found ==>
        && !first && wordSet == Some(words[indexSentence]) && indexWord < |words[indexSentence]|
        && sentenceOffset == sentences[indexSentence].start
        && Remaining() == old(Remaining())
      ensures !found ==> first && old(Remaining()) == []
    {
      ghost var todo := Pending(words[..], indexSentence, indexWord);
      sentenceOffset := sentenceOffset0;
      // The Java encloses this loop and the token emission in
      // `while (indexSentence < sentences.length)`, whose body always returns;
      // CursorValid() keeps indexSentence in range, so its exit is never taken.
      while indexWord == |wordSet.value|
        modifies this`indexSentence, this`indexWord, this`wordSet, this`first
        invariant !first && indexSentence < |sentences|
        invariant wordSet == Some(words[indexSentence]) && indexWord <= |words[indexSentence]|
        invariant sentenceOffset == sentences[indexSentence].start
        invariant Pending(words[..], indexSentence, indexWord) == todo
        decreases |sentences| - indexSentence
      {
        indexSentence := indexSentence + 1;
        if indexSentence < |sentences| {
          wordSet := Some(words[indexSentence]);
          indexWord := 0;
          sentenceOffset := sentences[indexSentence].start;
        } else {
          first := true;
          return false, sentenceOffset;
        }
      }
      return true, sentenceOffset;
    }

    /** Fills the attributes from the word under the cursor and steps past it. */
    method EmitToken(sentenceOffset: int)
      requires Valid() && !first
      requires wordSet == Some(words[indexSentence]) && indexWord < |words[indexSentence]|
      requires sentenceOffset == sentences[indexSentence].start
      modifies this`termBuffer, termBuffer, this`termLength, this`startOffset, this`endOffset, this`payload,
               this`finalOffset, this`indexWord
      ensures Valid()
      ensures var p := Position(old(indexSentence), old(indexWord));
        && IsWordPosition(words[..], p)
        && Attrs() == TokenAt(fullText, sentences, words[..], correctOffset, p)
        && finalOffset == UnclippedEnd(sentences, words[..], correctOffset, p)
      ensures indexWord == old(indexWord) + 1
      ensures termBuffer == old(termBuffer) || fresh(termBuffer)
    {
      ghost var p := Position(indexSentence, indexWord);
      ghost var loaded := words[..];
      var sentence := sentences[indexSentence];
      var word := wordSet.value[indexWord];
      assert IsWordPosition(loaded, p) && WordInSentence(sentences, loaded, p);
      var spot := sentence.start + word.start;
      var len := word.end - word.start;
      finalOffset := CorrectedOffset(correctOffset, sentenceOffset + word.end);
      ghost var unclipped := UnclippedEnd(sentences, loaded, correctOffset, p);
      assert finalOffset == unclipped;
      var start := CorrectedOffset(correctOffset, word.start + sentenceOffset);
      var context := SentenceContext(indexWord, indexWord, indexSentence);
      ghost var token := Attributes(fullText[spot..spot + len], start, ClipEnd(start, finalOffset, len),
                                    Some(EncodeSentenceContext(context)));
      assert token == TokenAt(fullText, sentences, loaded, correctOffset, p);
      SetTokenAttributes(spot, len, start, finalOffset, context);
      indexWord := indexWord + 1;
      assert words[..] == loaded;
      assert finalOffset == unclipped;
    }

    /**
      Writes the term `fullText[spot..spot + len]`, its offsets (the end
      clipped to the term length) and its context payload.
     */
    method SetTokenAttributes(spot: nat, len: nat, start: int, end: int, context: SentenceContext)
      requires spot + len <= |fullText|
      modifies this`termBuffer, termBuffer, this`termLength, this`startOffset, this`endOffset, this`payload
      ensures BufferValid()
      ensures termBuffer == old(termBuffer) || fresh(termBuffer)
      ensures Attrs() == Attributes(fullText[spot..spot + len], start, ClipEnd(start, end, len),
                                    Some(EncodeSentenceContext(context)))
    {
      termLength := 0;
      if termBuffer.Length < len {
        ResizeBuffer(len);
      }
      termLength := len;
      CopyTerm(spot, len);
      // safeguard against an end offset that overruns the term ("issue 26")
      if end - start > len {
        startOffset, endOffset := start, start + len;
      } else {
        startOffset, endOffset := start, end;
      }
      AddSentenceContext(context.firstTokenIndex, context.lastTokenIndex, None, context.sentenceIndex);
      assert termBuffer[..termLength] == fullText[spot..spot + len];
    }

    /** Copies `len` characters of the text, from `spot` on, into the term buffer. */
    method CopyTerm(spot: nat, len: nat)
      requires spot + len <= |fullText| && len <= termBuffer.Length
      modifies termBuffer
      ensures termBuffer[..len] == fullText[spot..spot + len]
    {
      var buffer := termBuffer;
      for i := 0 to len
        invariant buffer[..i] == fullText[spot..spot + i]
      {
        buffer[i] := fullText[spot + i];
      }
    }

    method RestartAtBeginning()
      modifies this`indexWord, this`indexSentence, this`finalOffset, this`wordSet
      ensures indexWord == 0 && indexSentence == 0 && finalOffset == 0 && wordSet == None
    {
      indexWord := 0;
      indexSentence := 0;
      indexWord := 0;
      finalOffset := 0;
      wordSet := None;
    }

    /** Reads the whole input, finds its sentences and the words of each sentence. */
    method LoadAll()
      requires CanLoad()
      modifies this`fullText, this`input, this`sentences, this`words
      ensures fullText == old(input) && input == []
      ensures sentences == old(sentenceOp.value(input))
      ensures fresh(words) && words[..] == SplitAll(fullText, sentences, tokenizerOp)
      ensures WellLoaded(|fullText|, sentences, words[..])
    {
      FillBuffer();
      DetectSentences();
      words := new seq<Span>[|sentences|];
      for i := 0 to |sentences|
        modifies words
        invariant words.Length == |sentences| && (|sentences| > 0 ==> tokenizerOp.Some?)
        invariant forall j :: 0 <= j < i ==> words[j] == tokenizerOp.value(SentenceText(fullText, sentences[j]))
      {
        SplitWords(i);
      }
    }

    method SplitWords(i: nat)
      requires i < |sentences| == words.Length
      requires SpanWithin(sentences[i], |fullText|)
      requires tokenizerOp.Some?
      modifies words
      ensures words[..] == old(words[..])[i := tokenizerOp.value(SentenceText(fullText, sentences[i]))]
    {
      var current := sentences[i];
      var sentence := fullText[current.start..current.end];
      words[i] := tokenizerOp.value(sentence);
    }

    method DetectSentences()
      requires sentenceOp.Some?
      modifies this`sentences
      ensures sentences == sentenceOp.value(fullText)
    {
      sentences := sentenceOp.value(fullText);
    }

    /** Drains the reader into `fullText`. */
    method FillBuffer()
      modifies this`fullText, this`input
      ensures fullText == old(input) && input == []
    {
      fullText := input;
      input := [];
    }

    /** Grows the term buffer to hold at least `newSize` characters, keeping its contents. */
    method ResizeBuffer(newSize: nat)
      modifies this`termBuffer
      ensures newSize <= termBuffer.Length
      ensures old(termBuffer.Length) < newSize ==>
        fresh(termBuffer) && termBuffer[..old(termBuffer.Length)] == old(termBuffer[..])
      ensures newSize <= old(termBuffer.Length) ==> termBuffer == old(termBuffer)
    {
      if termBuffer.Length < newSize {
        var previous := termBuffer;
        termBuffer := new char[newSize](i requires 0 <= i < newSize reads previous =>
          if i < previous.Length then previous[i] else '\0');
        assert termBuffer[..previous.Length] == previous[..];
      }
    }

    method ClearAttributes()
      modifies this`termLength, this`startOffset, this`endOffset, this`payload
      ensures termLength == 0 && startOffset == 0 && endOffset == 0 && payload == None
    {
      termLength, startOffset, endOffset, payload := 0, 0, 0, None;
    }

    /** Stores the context payload; the part-of-speech tag is accepted and not written. */
    method AddSentenceContext(firstTokenIndex: nat, lastTokenIndex: nat, posTag: Option<string>, sentenceIndex: nat)
      modifies this`payload
      ensures payload == Some(EncodeSentenceContext(SentenceContext(firstTokenIndex, lastTokenIndex, sentenceIndex)))
    {
      payload := Some(EncodeSentenceContext(SentenceContext(firstTokenIndex, lastTokenIndex, sentenceIndex)));
    }

    /** Marks the end of the stream at `finalOffset`. */
    method End()
      modifies this`startOffset, this`endOffset
      ensures startOffset == finalOffset && endOffset == finalOffset
    {
      startOffset, endOffset := finalOffset, finalOffset;
    }

    /** Rewinds the cursor over the loaded document; does not re-arm loading. */
    method Reset()
      requires Valid()
      modifies this`termLength, this`startOffset, this`endOffset, this`payload,
               this`indexWord, this`indexSentence, this`finalOffset, this`wordSet
      ensures Valid()
      ensures Attrs() == Cleared
      ensures indexSentence == 0 && indexWord == 0 && finalOffset == 0 && wordSet == None
      ensures !first ==> Remaining() == Pending(words[..], 0, 0)
    {
      ClearAttributes();
      RestartAtBeginning();
    }
  }

  /** Construction: fails exactly when neither detector is supplied. */
  method NewOpenNLPTokenizer(sentenceOp: Option<SentenceDetector>, tokenizerOp: Option<WordTokenizer>, correctOffset: int -> int)
    returns (r: Result<OpenNLPTokenizer, ConfigError>)
    ensures r.Failure? <==> sentenceOp.None? && tokenizerOp.None?
    ensures r.Failure? ==> r.error == IllegalArgument(NeedDetectorMessage)
    ensures r.Success? ==>
      && fresh(r.value) && fresh(r.value.termBuffer) && r.value.Valid() && r.value.first
      && r.value.sentenceOp == sentenceOp && r.value.tokenizerOp == tokenizerOp && r.value.correctOffset == correctOffset
      && r.value.input == [] && r.value.termBuffer.Length == DefaultBufferSize && r.value.Attrs() == Cleared
      && r.value.indexSentence == 0 && r.value.indexWord == 0 && r.value.finalOffset == 0 && r.value.wordSet == None
  {
    if sentenceOp.None? && tokenizerOp.None? {
      return Failure(IllegalArgument(NeedDetectorMessage));
    }
    var t := new OpenNLPTokenizer(sentenceOp, tokenizerOp, correctOffset);
    return Success(t);
  }

  /**
    A consumer of the token stream: calls `IncrementToken` until it returns
    false, over one whole document, and counts the tokens.
   */
  method ConsumeDocument(t: OpenNLPTokenizer) returns (count: nat)
    requires t.Valid() && t.first && t.CanLoad()
    modifies t, t.termBuffer
    ensures t.Valid() && t.first && t.input == []
    ensures t.termBuffer == old(t.termBuffer) || fresh(t.termBuffer)
    ensures t.fullText == old(t.input) && t.sentences == old(t.sentenceOp.value(t.input))
    ensures t.words[..] == SplitAll(t.fullText, t.sentences, t.tokenizerOp)
    ensures count == TotalWords(t.words[..])
  {
    count := 0;
    var more := t.IncrementToken();
    CountFromStart(t.words[..]);
    while more
      invariant t.Valid() && (t.termBuffer == old(t.termBuffer) || fresh(t.termBuffer))
      invariant t.input == []
      invariant t.fullText == old(t.input) && t.sentences == old(t.sentenceOp.value(t.input))
      invariant t.words[..] == SplitAll(t.fullText, t.sentences, t.tokenizerOp)
      invariant more ==> !t.first && count + 1 + |t.Remaining()| == TotalWords(t.words[..])
      invariant !more ==> t.first && count == TotalWords(t.words[..])
      decreases if more then |t.Remaining()| + 1 else 0
    {
      count := count + 1;
      more := t.IncrementToken();
    }
  }
}
