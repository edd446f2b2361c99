# JATE segmenter and context-window feature master, in Dafny

This project models two parts of JATE, a term-extraction toolkit built on Solr/Lucene.

**The OpenNLP tokenizer.** This Lucene tokenizer reads a whole document and splits it into sentences, then splits each sentence into words. Each `incrementToken` call then hands out one word. The word comes with its text, its character offsets and a sentence-context payload of the form `f=<word>,l=<word>,s=<sentence>`.

The model is a class, `Tokenizer.OpenNLPTokenizer`, with the same mutable state:
- the drained text, the sentence spans and the per-sentence word spans (`words` is an array);
- the cursor: `first`, `indexSentence`, `indexWord`, `wordSet` and `finalOffset`;
- the token attributes: a term buffer array with a length, the start and end offsets, and the payload.

The sentence detector, the word tokenizer and the character-filter offset correction are function-valued parameters.

The cursor's behaviour is specified by `SpanCursor.Pending`: the word positions still to be emitted, in order. Each successful `IncrementToken` emits the head of `Pending` and leaves its tail. The token it emits is `Tokenizer.TokenAt` of that position.

Only a `false` result re-arms `first`; `reset` does not. So a document abandoned before its last token is never reloaded from the reader. Without a `Reset` it is continued where it stopped. After a new `SetReader` and `Reset` it is replayed from its first word. In neither case is the new reader read. `Tokenizer.ConsumeDocument` shows that a consumer reading to the end leaves the tokenizer re-armed.

**The frequency-in-context-window feature master.** This covers the sequential part of `build`, which runs before the fork/join pool starts:
- the list of document ids;
- the choice of candidate vocabulary;
- the effective core count;
- the per-worker chunk size;
- turning an I/O failure into a `JATEException`.

The pool is a function parameter that returns the number of documents processed.

The chunk size is the integer share `docs / cores`. It is replaced by 50 only when that share is 0, so 50 is not a floor (`FallbackIsNoFloor`). Only a configured core count of 0 is mapped to 1.

In the tokenizer, the issue-26 clip compares the corrected end and start offsets, not the raw sentence-plus-word offsets.

Module layout:
- `wrappers.dfy`: `Option` and `Result`.
- `decimal.dfy`: the decimal rendering of naturals and its inverse, for the payload.
- `sentence_context.dfy`: the payload format, its parser and the round trip.
- `span_cursor.dfy`: spans, cursor positions and the `Pending` enumeration with its properties.
- `tokenizer.dfy`: the tokenizer class and the token-level specification functions.
- `fb_master.dfy`: the feature-builder master.

## Model

All tokenizer rows cite `src/main/java/org/apache/lucene/analysis/jate/OpenNLPTokenizer.java`. All master rows cite `src/main/java/uk/ac/shef/dcs/jate/feature/FrequencyCtxWindowBasedFBMaster.java`.

| member | source | states |
|---|---|---|
| Tokenizer.NewOpenNLPTokenizer | src/main/java/org/apache/lucene/analysis/jate/OpenNLPTokenizer.java:62-70 | Construction fails, with the IllegalArgument message of the source, exactly when both the sentence detector and the tokenizer are absent. On success the tokenizer and its term buffer are new, the tokenizer is valid and waiting to load, and it keeps both detectors. Its starting state is that of the constructor: an empty reader, a buffer of 256 characters, cleared attributes, the cursor and `finalOffset` at zero, and no word set. |
| Tokenizer.OpenNLPTokenizer.constructor | src/main/java/org/apache/lucene/analysis/jate/OpenNLPTokenizer.java:42-70 | The term buffer is a new array of 256 characters, the attributes are cleared, `first` is set, and the cursor and final offset are zero. |
| Tokenizer.OpenNLPTokenizer.SetReader | src/main/java/org/apache/lucene/analysis/jate/OpenNLPTokenizer.java:187 | The reader that `fillBuffer` drains now holds the given text. |
| Tokenizer.OpenNLPTokenizer.IncrementToken | src/main/java/org/apache/lucene/analysis/jate/OpenNLPTokenizer.java:77-145 | On the first call it loads the document: text, sentences, and the words of each sentence. Later calls leave the document unchanged. Let `todo` be the pending word positions (from the document start right after a load). The call returns true exactly when `todo` is non-empty. It then emits the token of `todo`'s head, leaves `todo`'s tail pending, and sets `finalOffset` to that word's unclipped corrected end. On false it re-arms `first` and keeps `finalOffset` (0 right after a load). The attributes are untouched if there are no sentences, and cleared otherwise. The invariant is kept, and the term buffer is either the old array or a new one. |
| Tokenizer.OpenNLPTokenizer.StartDocument | src/main/java/org/apache/lucene/analysis/jate/OpenNLPTokenizer.java:78-82 | The document is loaded from the drained reader and is well formed. The cursor is at the start, and `first` is cleared. |
| Tokenizer.OpenNLPTokenizer.Advance | src/main/java/org/apache/lucene/analysis/jate/OpenNLPTokenizer.java:87-141 | From a loaded state it returns true exactly when words are pending. It then emits the token of the first pending word and drops that word. Otherwise it re-arms `first` with cleared attributes and an unchanged `finalOffset`. The term buffer is the old array or a new one. |
| Tokenizer.OpenNLPTokenizer.SeekWord | src/main/java/org/apache/lucene/analysis/jate/OpenNLPTokenizer.java:93-104 | It skips sentences whose words are used up, without changing what is pending. Either it stops at a real word, with `wordSet` and the sentence offset on that word's sentence, or it reports that nothing was pending and re-arms `first`. |
| Tokenizer.OpenNLPTokenizer.EmitToken | src/main/java/org/apache/lucene/analysis/jate/OpenNLPTokenizer.java:106-141 | The attributes become `TokenAt` of the cursor's word, `finalOffset` becomes its unclipped corrected end, and the word index moves past it. The term buffer is the old array or a new one. |
| Tokenizer.OpenNLPTokenizer.SetTokenAttributes | src/main/java/org/apache/lucene/analysis/jate/OpenNLPTokenizer.java:109-136 | The term is the `len` characters of the text from `spot`, and the start offset is the corrected start. The end offset is clipped to the term length. The payload is the encoded context. The term buffer is the old array or a new one. |
| Tokenizer.OpenNLPTokenizer.ResizeBuffer | src/main/java/org/apache/lucene/analysis/jate/OpenNLPTokenizer.java:112-114 | Afterwards the buffer holds at least `newSize` characters. A grown buffer is a new array that keeps the old contents. A buffer that was already large enough stays the same. |
| Tokenizer.OpenNLPTokenizer.CopyTerm | src/main/java/org/apache/lucene/analysis/jate/OpenNLPTokenizer.java:120-122 | The buffer's first `len` characters are the text's characters from `spot` on. |
| Tokenizer.ClipEnd | src/main/java/org/apache/lucene/analysis/jate/OpenNLPTokenizer.java:125-133 | The reported end never lies more than the term length past the start. It equals the corrected end when that fits, and is exactly start plus the term length when it does not. |
| Tokenizer.TokenAt | src/main/java/org/apache/lucene/analysis/jate/OpenNLPTokenizer.java:106-136 | A token's term has `word.end - word.start` characters, namely the text's characters from `sentence.start + word.start`. Its start offset is the corrected start, its end and start span at most the term length, and its payload encodes (word, word, sentence). |
| Tokenizer.TokenOffsets | src/main/java/org/apache/lucene/analysis/jate/OpenNLPTokenizer.java:117-133 | The clip rule, stated against the unclipped corrected end that `finalOffset` records. |
| Tokenizer.TokenContext | src/main/java/org/apache/lucene/analysis/jate/OpenNLPTokenizer.java:135-136 | A token's payload parses back to its word index (as first and last index) and its sentence index. |
| Tokenizer.OpenNLPTokenizer.RestartAtBeginning | src/main/java/org/apache/lucene/analysis/jate/OpenNLPTokenizer.java:147-153 | The indices and the final offset are zero and `wordSet` is null. Nothing else changes. |
| Tokenizer.OpenNLPTokenizer.LoadAll | src/main/java/org/apache/lucene/analysis/jate/OpenNLPTokenizer.java:155-162 | The text is the whole drained input and the sentences are the detector's result. `words` is a new array holding each sentence's word spans from the tokenizer. |
| Tokenizer.OpenNLPTokenizer.SplitWords | src/main/java/org/apache/lucene/analysis/jate/OpenNLPTokenizer.java:164-168 | Only entry `i` of `words` changes: it becomes the tokenizer's result on sentence `i`'s text. |
| Tokenizer.OpenNLPTokenizer.DetectSentences | src/main/java/org/apache/lucene/analysis/jate/OpenNLPTokenizer.java:171-173 | The sentences are the detector's spans of the full text. |
| Tokenizer.OpenNLPTokenizer.FillBuffer | src/main/java/org/apache/lucene/analysis/jate/OpenNLPTokenizer.java:186-187 | The full text is everything the reader held, and the reader is drained. |
| Tokenizer.OpenNLPTokenizer.ClearAttributes | src/main/java/org/apache/lucene/analysis/jate/OpenNLPTokenizer.java:91 | The term is empty, the offsets are zero and there is no payload. |
| Tokenizer.OpenNLPTokenizer.AddSentenceContext | src/main/java/org/apache/lucene/analysis/jate/OpenNLPTokenizer.java:224-234 | The payload is `f=<first>,l=<last>,s=<sentence>` (`SentenceContextCodec.EncodeSentenceContext`), and the part-of-speech tag plays no part. |
| Tokenizer.OpenNLPTokenizer.End | src/main/java/org/apache/lucene/analysis/jate/OpenNLPTokenizer.java:202-205 | Both offsets become `finalOffset`. |
| Tokenizer.OpenNLPTokenizer.Reset | src/main/java/org/apache/lucene/analysis/jate/OpenNLPTokenizer.java:216-220 | The attributes are cleared and the cursor is at the start, so the whole loaded document is pending again. `first` and the document are not touched. |
| Tokenizer.ConsumeDocument | src/main/java/org/apache/lucene/analysis/jate/OpenNLPTokenizer.java:77-145 | A consumer that calls `incrementToken` until it returns false gets one true result per word of the loaded document, so the count equals the total number of words. The tokenizer is then re-armed and its reader is empty. The term buffer is the old array or a new one, so the tokenizer can take the next document. The document is the drained input with its detected sentences and words. |
| SpanCursor.PendingMembers | src/main/java/org/apache/lucene/analysis/jate/OpenNLPTokenizer.java:93-104 | A position is still pending in `SpanCursor.Pending`, the cursor's visiting order, exactly when it is a real word at or after the cursor in sentence-major order. Sentences without words contribute nothing. |
| SpanCursor.PendingOrdered | src/main/java/org/apache/lucene/analysis/jate/OpenNLPTokenizer.java:93-104 | Every pending position is a real word, and pending positions come in strictly increasing (sentence, word) order. |
| SpanCursor.PendingLength | src/main/java/org/apache/lucene/analysis/jate/OpenNLPTokenizer.java:93-104 | From word `w` of sentence `s`, the cursor has all the remaining words of `s` and every word of the later sentences still to emit. |
| SpanCursor.CountFromStart | src/main/java/org/apache/lucene/analysis/jate/OpenNLPTokenizer.java:139-141 | After a load, the number of tokens (true results) before the next false equals the total word count of all sentences. |
| SentenceContextCodec.ParseEncode | src/main/java/org/apache/lucene/analysis/jate/OpenNLPTokenizer.java:224-228 | The payload text parses back to the context it was built from. |
| SentenceContextCodec.EncodeInjective | src/main/java/org/apache/lucene/analysis/jate/OpenNLPTokenizer.java:224-228 | Different contexts give different payload texts. |
| Decimal.NatToDecimal | src/main/java/org/apache/lucene/analysis/jate/OpenNLPTokenizer.java:226-228 | An index is rendered as a non-empty string of decimal digits with no leading zero. |
| Decimal.DecimalRoundTrip | src/main/java/org/apache/lucene/analysis/jate/OpenNLPTokenizer.java:226-228 | The rendering of an index reads back as the same number. |
| FeatureBuilderMaster.AllDocIds | src/main/java/uk/ac/shef/dcs/jate/feature/FrequencyCtxWindowBasedFBMaster.java:34-37 | The document list is exactly `0, 1, ..., maxDoc - 1`, in order, with length `maxDoc`. |
| FeatureBuilderMaster.ChooseVocabulary | src/main/java/uk/ac/shef/dcs/jate/feature/FrequencyCtxWindowBasedFBMaster.java:41-44 | `termOrWord == 0` selects the unique terms, and every other value selects the unique words. |
| FeatureBuilderMaster.EffectiveCores | src/main/java/uk/ac/shef/dcs/jate/feature/FrequencyCtxWindowBasedFBMaster.java:48-49 | A configured 0 becomes 1 and any other count is kept, so the result is at least 1. |
| FeatureBuilderMaster.MaxPerThread | src/main/java/uk/ac/shef/dcs/jate/feature/FrequencyCtxWindowBasedFBMaster.java:50-52 | The chunk size is at least 1. It is 50 when there are fewer documents than cores. Otherwise it is the integer share `m` of documents per core, with `m * cores <= docs < (m + 1) * cores`. |
| FeatureBuilderMaster.FallbackIsNoFloor | src/main/java/uk/ac/shef/dcs/jate/feature/FrequencyCtxWindowBasedFBMaster.java:50-52 | 50 is not a lower bound: with at least as many documents as cores, but fewer than 50 per core, the chunk size is below 50. |
| FeatureBuilderMaster.FallbackOnlyWhenShareZero | src/main/java/uk/ac/shef/dcs/jate/feature/FrequencyCtxWindowBasedFBMaster.java:51-52 | The chunk size is 50 exactly when there are fewer documents than cores, or when the share happens to be 50. |
| FeatureBuilderMaster.Build | src/main/java/uk/ac/shef/dcs/jate/feature/FrequencyCtxWindowBasedFBMaster.java:32-73 | It fails exactly when the chosen vocabulary could not be read. The failure is a JATEException whose message is "Failed to build features!", a newline, and the stack trace, and no feature is returned. Otherwise the pool is started with the effective cores and runs a worker built from all document ids in order, the chosen vocabulary, the window and the chunk size. The report carries the pool's processed count. |

## Left out

- Lucene attribute plumbing is not modelled. The attributes are four plain fields. The payload is the string before its UTF-8 `BytesRef` encoding, and the base class's `reset` is not modelled. Lucene's `setOffset` rejects a negative start or an end before the start with an IllegalArgumentException. The offset correction is arbitrary here, so the model can store offsets that the source would reject.
- Tokenizer.OpenNLPTokenizer.ResizeBuffer: it grows the buffer to exactly the requested size. Lucene's `resizeBuffer` may over-allocate, so the model states only that the buffer is large enough and keeps its contents.
- constructor: the new term buffer has exactly 256 characters, while Lucene's `resizeBuffer(256)` promises only at least 256. Nothing in the model depends on the exact size.
- The reader is a sequence of characters and cannot fail. `fillBuffer`'s `IOUtils.toCharArray(input)` can throw an IOException, which `incrementToken` passes on, and the model does not represent that.
- `fullText`, `sentences` and each sentence's word spans are sequences, not arrays. The source only ever replaces these arrays whole and never writes into them. `words`, which `splitWords` fills entry by entry, is an array.
- The OpenNLP sentence detector and word tokenizer are arbitrary functions from text to spans, and the offset correction is an arbitrary function on integers.
- The offset correction is fixed for the tokenizer's whole life. In Lucene it comes from the current reader's character filters, so it can change from one document to the next after `setReader`.
- Tokenizer.OpenNLPTokenizer.IncrementToken: its first call requires that the document can be loaded. That means a sentence detector is present, a word tokenizer is present when there is a sentence, every sentence span lies inside the text, and every word span lies inside its sentence. Without a detector, or with a sentence span outside the text, the source fails with a NullPointerException or an index exception (`String.copyValueOf`), which the model does not represent. The word-span requirement is what the word tokenizer guarantees. The source itself indexes only `fullText` through `sentence.start + word.start`, so a word span outside its sentence but inside the text would copy neighbouring characters without failing.
- The outer `while (indexSentence < sentences.length)` of `incrementToken` has a fall-through exit (`first = true; return false`), and the model shows it can never be taken. Its body always returns, and the cursor invariant keeps `indexSentence` in range.
- Java's 32-bit `int` is not modelled: indices, offsets and the payload numbers are unbounded.
- AddSentenceContext: it takes natural numbers. The public `addSentenceContext` accepts any `int`, and a negative index would render with a minus sign. The tokenizer's own call always passes non-negative indices.
- Logging is not modelled: the offset-anomaly warning and the feature master's `LOG` calls.
- The fork/join pool and `FrequencyCtxWindowBasedFBWorker` are an abstract function that returns the processed count. The worker's chunking, the co-occurrence map and the window logic are not modelled, and `FrequencyCtxWindowBasedFBWorker` is not part of this model.
- `getUniqueTerms`, `getUniqueWords` and `maxDoc()` are inputs, and either vocabulary may carry an I/O error. Only these reads can raise the I/O exception that `build` catches.
- The CLI applications, the Weirdness and GlossEx scoring, the threshold and top-N cutoff, and the reference-list loader are not part of this model.
- FeatureBuilderMaster.Build: it requires a non-negative core count. The code maps only 0 to 1 and keeps a negative count, which then makes `new ForkJoinPool(cores)` throw an IllegalArgumentException that the model does not represent. The same constructor also rejects a parallelism above 32767, while the model accepts any positive count.
