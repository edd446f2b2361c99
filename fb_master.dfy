/**
  The sequential preparation done by the frequency-in-context-window feature
  builder before it hands the work to a fork/join pool: the list of document
  ids, the candidate vocabulary, the number of cores and the chunk size each
  worker takes.
 */
module FeatureBuilderMaster {
  import opened Wrappers

  /** The two candidate vocabularies of the index. */
  datatype Vocabulary = UniqueTerms | UniqueWords

  /** An I/O failure while reading the index, with its stack trace. */
  datatype IOError = IOError(stackTrace: string)

  datatype JATEException = JATEException(message: string)

  const FailureHeading: string := "Failed to build features!"

  /** The chunk size used when there are fewer documents than cores. */
  const FallbackMaxPerThread: int := 50

  /** What the pool is started with: the core count, and the worker's documents, vocabulary, window and chunk size. */
  datatype WorkerJob = WorkerJob(docs: seq<int>, candidates: set<string>, window: int, maxPerThread: int, cores: int)

  /** The job handed to the pool and the number of documents the pool reports processed. */
  datatype BuildReport = BuildReport(job: WorkerJob, processed: int)

  /** `termOrWord` 0 selects terms; every other value selects words. */
  function ChooseVocabulary(termOrWord: int): (v: Vocabulary)
    ensures v == UniqueTerms <==> termOrWord == 0
    ensures v == UniqueWords <==> termOrWord != 0
  {
    if termOrWord == 0 then UniqueTerms else UniqueWords
  }

  /** A configured core count of 0 means one core; any other count is kept. */
  function EffectiveCores(configured: int): (cores: int)
    requires configured >= 0
    ensures cores >= 1
    ensures configured == 0 ==> cores == 1
    ensures configured != 0 ==> cores == configured
  {
    if configured == 0 then 1 else configured
  }

  /**
    Documents per worker: the documents shared evenly among the cores, or
    the fallback when that share rounds down to nothing.
   */
  function MaxPerThread(docCount: nat, cores: int): (m: int)
    requires cores >= 1
    ensures m >= 1
    ensures docCount < cores ==> m == FallbackMaxPerThread
    ensures docCount >= cores ==> m * cores <= docCount < (m + 1) * cores
  {
    var share := docCount / cores;
    if share == 0 then FallbackMaxPerThread else share
  }

  /**
    The fallback is not a lower bound: with at least as many documents as
    cores the share is used even when it is below the fallback.
   */
  lemma FallbackIsNoFloor(docCount: nat, cores: int)
    requires 1 <= cores <= docCount < FallbackMaxPerThread * cores
    ensures MaxPerThread(docCount, cores) < FallbackMaxPerThread
  {
  }

  /** The chunk size is the fallback only when the share is zero or is itself the fallback. */
  lemma FallbackOnlyWhenShareZero(docCount: nat, cores: int)
    requires cores >= 1
    ensures MaxPerThread(docCount, cores) == FallbackMaxPerThread <==>
      docCount < cores || docCount / cores == FallbackMaxPerThread
  {
  }

  /** The ids of all documents of the index, `0` to `maxDoc - 1` in order. */
  method AllDocIds(maxDoc: nat) returns (allDocs: seq<int>)
    ensures |allDocs| == maxDoc
    ensures forall i :: 0 <= i < maxDoc ==> allDocs[i] == i
  {
    allDocs := [];
    for i := 0 to maxDoc
      invariant |allDocs| == i
      invariant forall k :: 0 <= k < i ==> allDocs[k] == k
    {
      allDocs := allDocs + [i];
    }
  }

  /**
    Everything `build` does before and around the pool: the index size and
    the two vocabularies are given (each may have failed with an I/O error),
    and `pool` stands for the fork/join run of the worker, returning the
    number of documents processed.
   */
  method Build(maxDoc: nat, termOrWord: int, window: int, maxCPUCores: int,
               uniqueTerms: Result<set<string>, IOError>, uniqueWords: Result<set<string>, IOError>,
               pool: WorkerJob -> int)
    returns (r: Result<BuildReport, JATEException>)
    requires maxCPUCores >= 0
    ensures var chosen := if ChooseVocabulary(termOrWord) == UniqueTerms then uniqueTerms else uniqueWords;
      && (r.Failure? <==> chosen.Failure?)
      && (r.Failure? ==> r.error == JATEException(FailureHeading + "\n" + chosen.error.stackTrace))
      && (r.Success? ==>
            var job := r.value.job;
            && |job.docs| == maxDoc
            && (forall i :: 0 <= i < maxDoc ==> job.docs[i] == i)
            && job.candidates == chosen.value
            && job.window == window
            && job.cores == EffectiveCores(maxCPUCores)
            && job.maxPerThread == MaxPerThread(maxDoc, job.cores)
            && r.value.processed == pool(job))
  {
    var allDocs := AllDocIds(maxDoc);
    var allCandidates := if termOrWord == 0 then uniqueTerms else uniqueWords;
    if allCandidates.Failure? {
      return Failure(JATEException(FailureHeading + "\n" + allCandidates.error.stackTrace));
    }
    var cores := maxCPUCores;
    cores := if cores == 0 then 1 else cores;
    var maxPerThread := |allDocs| / cores;
    if maxPerThread == 0 {
      maxPerThread := FallbackMaxPerThread;
    }
    var job := WorkerJob(allDocs, allCandidates.value, window, maxPerThread, cores);
    var total := pool(job);
    return Success(BuildReport(job, total));
  }
}
