/** The translation pipeline of `lib/translation.js`: the three-stage
    single-chunk path, the three passes of the multi-chunk path, and
    `translate`, which picks a path by token count and wraps every failure.
    The tokenizer and the text splitter are parameters whose behaviour is not
    modelled; the completion service is a `CompletionService`. */
module Pipeline {
  import opened Results
  import opened Text
  import opened ChunkSize
  import opened Prompts
  import opened Completion

  // ---------------------------------------------------------------------
  // One pass over the chunks

  /** The calls `log` of a pass over `requests` ended in `outcome`: the
      requests were issued in order, stopping at the first failure, whose
      message is the outcome's; without failure there is one call per
      request and the outcome lists the replies in order. */
  ghost predicate PassOutcome(requests: seq<Request>, log: seq<Exchange>, outcome: Result<seq<string>>)
  {
    && |log| <= |requests|
    && (forall k :: 0 <= k < |log| ==> log[k].request == requests[k])
    && (outcome.Success? ==> |log| == |requests| && AllSucceeded(log) && outcome.value == Replies(log))
    && (outcome.Failure? ==>
          && log != []
          && (forall k :: 0 <= k < |log| - 1 ==> log[k].reply.Success?)
          && log[|log| - 1].reply == Failure(outcome.error))
  }

  /** The loop shared by the three multi-chunk passes: one awaited
      completion per chunk, in index order, each pushed onto the output.
      `log` is the part of the service's history this pass adds. */
  method RunPass(service: CompletionService, requests: seq<Request>)
    returns (outcome: Result<seq<string>>, ghost log: seq<Exchange>)
    modifies service
    ensures service.history == old(service.history) + log
    ensures PassOutcome(requests, log, outcome)
  {
    log := [];
    var replies: seq<string> := [];
    var i := 0;
    while i < |requests|
      invariant i <= |requests| && |log| == i && |replies| == i
      invariant service.history == old(service.history) + log
      invariant forall k :: 0 <= k < i ==> log[k] == Exchange(requests[k], Success(replies[k]))
    {
      var reply := service.Complete(requests[i]);
      LogAppendAssociates(old(service.history), log, [Exchange(requests[i], reply)]);
      log := log + [Exchange(requests[i], reply)];
      if reply.Failure? {
        return Failure(reply.error), log;
      }
      replies := replies + [reply.value];
      i := i + 1;
    }
    assert replies == Replies(log);
    return Success(replies), log;
  }

  /** The pass-1 requests, one per chunk, in chunk order. */
  function InitialRequests(sourceLang: string, targetLang: string, chunks: seq<string>): seq<Request>
  {
    seq(|chunks|, i requires 0 <= i < |chunks| => InitialRequest(sourceLang, targetLang, chunks, i))
  }

  /** The pass-2 requests; entry `i` quotes entry `i` of the pass-1 output. */
  function ReflectRequests(sourceLang: string, targetLang: string, country: string, chunks: seq<string>,
                           translation1Chunks: seq<string>): seq<Request>
    requires |translation1Chunks| == |chunks|
  {
    seq(|chunks|, i requires 0 <= i < |chunks| =>
      ReflectRequest(sourceLang, targetLang, country, chunks, translation1Chunks, i))
  }

  /** The pass-3 requests; entry `i` quotes entry `i` of both earlier outputs. */
  function ImproveRequests(sourceLang: string, targetLang: string, chunks: seq<string>,
                           translation1Chunks: seq<string>, reflectionChunks: seq<string>): seq<Request>
    requires |translation1Chunks| == |chunks| && |reflectionChunks| == |chunks|
  {
    seq(|chunks|, i requires 0 <= i < |chunks| =>
      ImproveRequest(sourceLang, targetLang, chunks, translation1Chunks, reflectionChunks, i))
  }

  /** Every pass-1 request goes to the translator persona; when neither the
      languages nor the text contain `{`, request `i` asks for chunk `i`
      inside the whole tagged text, then chunk `i` on its own. */
  lemma {:induction false} InitialRequestsContent(sourceLang: string, targetLang: string, chunks: seq<string>)
    ensures var requests := InitialRequests(sourceLang, targetLang, chunks);
      && |requests| == |chunks|
      && (forall i :: 0 <= i < |chunks| ==> requests[i].system == TranslatorSystem(sourceLang, targetLang))
      && (BraceFree(sourceLang) && BraceFree(targetLang) && BraceFree(Join(chunks)) ==>
            forall i :: 0 <= i < |chunks| ==>
              requests[i].prompt == PartTranslateHead(sourceLang, targetLang) + TaggedView(chunks, i)
                                    + SourceToChunk + chunks[i] + PartTranslateTail)
  {
    if BraceFree(sourceLang) && BraceFree(targetLang) && BraceFree(Join(chunks)) {
      forall i | 0 <= i < |chunks|
        ensures InitialRequests(sourceLang, targetLang, chunks)[i].prompt
             == PartTranslateHead(sourceLang, targetLang) + TaggedView(chunks, i)
                + SourceToChunk + chunks[i] + PartTranslateTail
      {
        MultiInitialPromptFilled(sourceLang, targetLang, chunks, i);
      }
    }
  }

  /** Every pass-2 request goes to the reviewer persona; with brace-free
      languages, country and text, request `i` quotes the tagged text,
      chunk `i` and entry `i` of the pass-1 output, whatever it contains,
      each where its placeholder was. */
  lemma {:induction false} ReflectRequestsContent(sourceLang: string, targetLang: string, country: string,
                                                  chunks: seq<string>, translation1Chunks: seq<string>)
    requires |translation1Chunks| == |chunks|
    ensures var requests := ReflectRequests(sourceLang, targetLang, country, chunks, translation1Chunks);
      && |requests| == |chunks|
      && (forall i :: 0 <= i < |chunks| ==> requests[i].system == ReviewerSystem(sourceLang, targetLang))
      && (BraceFree(sourceLang) && BraceFree(targetLang) && BraceFree(country) && BraceFree(Join(chunks)) ==>
            forall i :: 0 <= i < |chunks| ==>
              requests[i].prompt
                == PartReflectHead(sourceLang, targetLang, country) + TaggedView(chunks, i) + SourceToChunkAgain
                   + chunks[i] + ChunkToTranslation + translation1Chunks[i]
                   + ("\n</TRANSLATION>\n\n" + ReviewCriteria(targetLang)))
  {
    if BraceFree(sourceLang) && BraceFree(targetLang) && BraceFree(country) && BraceFree(Join(chunks)) {
      forall i | 0 <= i < |chunks|
        ensures ReflectRequests(sourceLang, targetLang, country, chunks, translation1Chunks)[i].prompt
             == PartReflectHead(sourceLang, targetLang, country) + TaggedView(chunks, i) + SourceToChunkAgain
                + chunks[i] + ChunkToTranslation + translation1Chunks[i]
                + ("\n</TRANSLATION>\n\n" + ReviewCriteria(targetLang))
      {
        MultiReflectPromptFilled(sourceLang, targetLang, country, chunks, i, translation1Chunks[i]);
      }
    }
  }

  /** Every pass-3 request goes to the editor persona; with brace-free
      languages and text, request `i` quotes the tagged text, chunk `i` and,
      when it is brace-free too, entry `i` of the pass-1 output followed by
      entry `i` of the pass-2 output, each where its placeholder was. */
  lemma {:induction false} ImproveRequestsContent(sourceLang: string, targetLang: string, chunks: seq<string>,
                                                  translation1Chunks: seq<string>, reflectionChunks: seq<string>)
    requires |translation1Chunks| == |chunks| && |reflectionChunks| == |chunks|
    ensures var requests := ImproveRequests(sourceLang, targetLang, chunks, translation1Chunks, reflectionChunks);
      && |requests| == |chunks|
      && (forall i :: 0 <= i < |chunks| ==> requests[i].system == EditorSystem(sourceLang, targetLang))
      && (BraceFree(sourceLang) && BraceFree(targetLang) && BraceFree(Join(chunks)) ==>
            forall i :: 0 <= i < |chunks| && BraceFree(translation1Chunks[i]) ==>
              requests[i].prompt
                == PartEditHead(sourceLang, targetLang) + TaggedView(chunks, i) + SourceToChunkAgain + chunks[i]
                   + ChunkToTranslation + translation1Chunks[i] + TranslationToSuggestions + reflectionChunks[i]
                   + ("\n</EXPERT_SUGGESTIONS>\n\n" + EditCriteria(targetLang)))
  {
    if BraceFree(sourceLang) && BraceFree(targetLang) && BraceFree(Join(chunks)) {
      forall i | 0 <= i < |chunks| && BraceFree(translation1Chunks[i])
        ensures ImproveRequests(sourceLang, targetLang, chunks, translation1Chunks, reflectionChunks)[i].prompt
             == PartEditHead(sourceLang, targetLang) + TaggedView(chunks, i) + SourceToChunkAgain + chunks[i]
                + ChunkToTranslation + translation1Chunks[i] + TranslationToSuggestions + reflectionChunks[i]
                + ("\n</EXPERT_SUGGESTIONS>\n\n" + EditCriteria(targetLang))
      {
        MultiImprovePromptFilled(sourceLang, targetLang, chunks, i, translation1Chunks[i], reflectionChunks[i]);
      }
    }
  }

  /** `multichunkInitialTranslation`: translate every chunk, in order. */
  method MultichunkInitialTranslation(service: CompletionService, sourceLang: string, targetLang: string,
                                      chunks: seq<string>) returns (outcome: Result<seq<string>>, ghost log: seq<Exchange>)
    modifies service
    ensures service.history == old(service.history) + log
    ensures PassOutcome(InitialRequests(sourceLang, targetLang, chunks), log, outcome)
  {
    outcome, log := RunPass(service, InitialRequests(sourceLang, targetLang, chunks));
  }

  /** `multichunkReflectOnTranslation`: criticise every chunk's translation. */
  method MultichunkReflectOnTranslation(service: CompletionService, sourceLang: string, targetLang: string,
                                        chunks: seq<string>, translation1Chunks: seq<string>, country: string)
    returns (outcome: Result<seq<string>>, ghost log: seq<Exchange>)
    requires |translation1Chunks| == |chunks|
    modifies service
    ensures service.history == old(service.history) + log
    ensures PassOutcome(ReflectRequests(sourceLang, targetLang, country, chunks, translation1Chunks), log, outcome)
  {
    outcome, log := RunPass(service, ReflectRequests(sourceLang, targetLang, country, chunks, translation1Chunks));
  }

  /** `multichunkImproveTranslation`: edit every chunk's translation. */
  method MultichunkImproveTranslation(service: CompletionService, sourceLang: string, targetLang: string,
                                      chunks: seq<string>, translation1Chunks: seq<string>,
                                      reflectionChunks: seq<string>)
    returns (outcome: Result<seq<string>>, ghost log: seq<Exchange>)
    requires |translation1Chunks| == |chunks| && |reflectionChunks| == |chunks|
    modifies service
    ensures service.history == old(service.history) + log
    ensures PassOutcome(ImproveRequests(sourceLang, targetLang, chunks, translation1Chunks, reflectionChunks),
                        log, outcome)
  {
    outcome, log := RunPass(service, ImproveRequests(sourceLang, targetLang, chunks, translation1Chunks, reflectionChunks));
  }

  // ---------------------------------------------------------------------
  // How a run ends

  /** A log of calls that stopped as the pipeline stops: either all `total`
      calls succeeded, or the last call failed. */
  predicate Halted(log: seq<Exchange>, total: nat)
  {
    && (AllSucceeded(log) ==> |log| == total)
    && (!AllSucceeded(log) ==> log != [] && log[|log| - 1].reply.Failure?)
  }

  /** The error of the call that stopped a run. */
  function LastError(log: seq<Exchange>): string
    requires log != [] && log[|log| - 1].reply.Failure?
  {
    log[|log| - 1].reply.error
  }

  /** Every call before call `j` got a reply. */
  predicate SucceededBefore(log: seq<Exchange>, j: nat)
    requires j <= |log|
  {
    forall k :: 0 <= k < j ==> log[k].reply.Success?
  }

  lemma {:induction false} SucceededSlice(log: seq<Exchange>, lo: nat, hi: nat, j: nat)
    requires lo <= hi <= j <= |log| && SucceededBefore(log, j)
    ensures AllSucceeded(log[..hi]) && AllSucceeded(log[lo..hi])
  {
    assert forall k :: 0 <= k < hi ==> log[..hi][k] == log[k];
    assert forall k :: 0 <= k < hi - lo ==> log[lo..hi][k] == log[lo + k];
  }

  // ---------------------------------------------------------------------
  // The multi-chunk schedule

  /** The request the multi-chunk path issues as call `j`, after the calls
      before it succeeded: pass 1 for chunk `j`, then pass 2 for chunk
      `j - n`, quoting the replies of the first `n` calls, then pass 3 for
      chunk `j - 2n`, quoting those of the first `2n`. Only calls before
      `j` are read. */
  function PlannedMultiRequest(sourceLang: string, targetLang: string, country: string, chunks: seq<string>,
                               log: seq<Exchange>, j: nat): Request
    requires j < 3 * |chunks| && j <= |log| && SucceededBefore(log, j)
  {
    var n := |chunks|;
    if j < n then
      InitialRequest(sourceLang, targetLang, chunks, j)
    else if j < 2 * n then
      SucceededSlice(log, 0, n, j);
      ReflectRequest(sourceLang, targetLang, country, chunks, Replies(log[..n]), j - n)
    else
      SucceededSlice(log, 0, n, j);
      SucceededSlice(log, n, 2 * n, j);
      ImproveRequest(sourceLang, targetLang, chunks, Replies(log[..n]), Replies(log[n..2 * n]), j - 2 * n)
  }

  /** Call `j` of `log` came after successful calls only and issued the
      planned request. */
  predicate CallPlanned(sourceLang: string, targetLang: string, country: string, chunks: seq<string>,
                        log: seq<Exchange>, j: nat)
    requires j < |log| <= 3 * |chunks|
  {
    && SucceededBefore(log, j)
    && log[j].request == PlannedMultiRequest(sourceLang, targetLang, country, chunks, log, j)
  }

  /** Every call in `log` issued the planned request, and no call was made
      after a failed one. */
  predicate MultiScheduled(sourceLang: string, targetLang: string, country: string, chunks: seq<string>,
                           log: seq<Exchange>)
  {
    && |log| <= 3 * |chunks|
    && forall j :: 0 <= j < |log| ==> CallPlanned(sourceLang, targetLang, country, chunks, log, j)
  }

  /** A complete run of the multi-chunk path. */
  predicate MultiRun(sourceLang: string, targetLang: string, country: string, chunks: seq<string>,
                     log: seq<Exchange>)
  {
    MultiScheduled(sourceLang, targetLang, country, chunks, log) && Halted(log, 3 * |chunks|)
  }

  /** What a run of the multi-chunk path returns: the pass-3 replies, or the
      error that stopped it. */
  function MultiResult(chunks: seq<string>, log: seq<Exchange>): Result<seq<string>>
    requires Halted(log, 3 * |chunks|)
  {
    if AllSucceeded(log) then
      SucceededSlice(log, 2 * |chunks|, |log|, |log|);
      Success(Replies(log[2 * |chunks|..]))
    else
      Failure(LastError(log))
  }

  /** Call `m` of a pass: the calls before it succeeded, and it issued
      request `m`. */
  lemma {:induction false} PassCall(requests: seq<Request>, log: seq<Exchange>, outcome: Result<seq<string>>, m: nat)
    requires PassOutcome(requests, log, outcome) && m < |log|
    ensures SucceededBefore(log, m) && log[m].request == requests[m]
  {
  }

  /** Call `m` of pass 2 issued the reflection request for chunk `m`. */
  lemma {:induction false} ReflectPassCall(sourceLang: string, targetLang: string, country: string,
                                           chunks: seq<string>, translation1Chunks: seq<string>,
                                           log: seq<Exchange>, outcome: Result<seq<string>>, m: nat)
    requires |translation1Chunks| == |chunks|
    requires PassOutcome(ReflectRequests(sourceLang, targetLang, country, chunks, translation1Chunks), log, outcome)
    requires m < |log|
    ensures m < |chunks| && SucceededBefore(log, m)
    ensures log[m].request == ReflectRequest(sourceLang, targetLang, country, chunks, translation1Chunks, m)
  {
    PassCall(ReflectRequests(sourceLang, targetLang, country, chunks, translation1Chunks), log, outcome, m);
  }

  /** Call `m` of pass 3 issued the improvement request for chunk `m`. */
  lemma {:induction false} ImprovePassCall(sourceLang: string, targetLang: string, chunks: seq<string>,
                                           translation1Chunks: seq<string>, reflectionChunks: seq<string>,
                                           log: seq<Exchange>, outcome: Result<seq<string>>, m: nat)
    requires |translation1Chunks| == |chunks| && |reflectionChunks| == |chunks|
    requires PassOutcome(ImproveRequests(sourceLang, targetLang, chunks, translation1Chunks, reflectionChunks),
                         log, outcome)
    requires m < |log|
    ensures m < |chunks| && SucceededBefore(log, m)
    ensures log[m].request == ImproveRequest(sourceLang, targetLang, chunks, translation1Chunks, reflectionChunks, m)
  {
    PassCall(ImproveRequests(sourceLang, targetLang, chunks, translation1Chunks, reflectionChunks), log, outcome, m);
  }

  /** Where the calls of each pass sit in the log of a run. */
  lemma {:induction false} CallInPasses(first: seq<Exchange>, second: seq<Exchange>, third: seq<Exchange>, j: nat)
    requires j < |first| + |second| + |third|
    ensures j < |first| ==> (first + second + third)[j] == first[j]
    ensures |first| <= j < |first| + |second| ==> (first + second + third)[j] == second[j - |first|]
    ensures |first| + |second| <= j ==> (first + second + third)[j] == third[j - |first| - |second|]
  {
  }

  /** Success of the calls before call `j` of a run, from that of the
      passes. */
  lemma {:induction false} SucceededInPasses(first: seq<Exchange>, second: seq<Exchange>, third: seq<Exchange>, j: nat)
    requires j < |first| + |second| + |third|
    requires j < |first| ==> SucceededBefore(first, j)
    requires |first| <= j < |first| + |second| ==> AllSucceeded(first) && SucceededBefore(second, j - |first|)
    requires |first| + |second| <= j ==>
      AllSucceeded(first) && AllSucceeded(second) && SucceededBefore(third, j - |first| - |second|)
    ensures SucceededBefore(first + second + third, j)
  {
    var all := first + second + third;
    forall k | 0 <= k < j ensures all[k].reply.Success? {
      CallInPasses(first, second, third, k);
    }
  }

  /** The calls of pass 1 are the planned ones, whatever follows them. */
  lemma {:induction false} FirstPassScheduled(sourceLang: string, targetLang: string, country: string,
                                              chunks: seq<string>, first: seq<Exchange>, second: seq<Exchange>,
                                              third: seq<Exchange>, outcome: Result<seq<string>>)
    requires PassOutcome(InitialRequests(sourceLang, targetLang, chunks), first, outcome)
    requires |first + second + third| <= 3 * |chunks|
    ensures forall j :: 0 <= j < |first| ==>
      CallPlanned(sourceLang, targetLang, country, chunks, first + second + third, j)
  {
    forall j | 0 <= j < |first|
      ensures CallPlanned(sourceLang, targetLang, country, chunks, first + second + third, j)
    {
      PassCall(InitialRequests(sourceLang, targetLang, chunks), first, outcome, j);
      CallInPasses(first, second, third, j);
      SucceededInPasses(first, second, third, j);
    }
  }

  /** One call of pass 2 that issued its planned reflection request is
      the planned call of the run. */
  lemma {:induction false} SecondCallPlanned(sourceLang: string, targetLang: string, country: string,
                                             chunks: seq<string>, first: seq<Exchange>, second: seq<Exchange>,
                                             third: seq<Exchange>, translation1Chunks: seq<string>, j: nat)
    requires |first| == |chunks| && AllSucceeded(first) && translation1Chunks == Replies(first)
    requires |second| <= |chunks| && |chunks| <= j < |chunks| + |second| && |first + second + third| <= 3 * |chunks|
    requires SucceededBefore(second, j - |chunks|)
    requires second[j - |chunks|].request
      == ReflectRequest(sourceLang, targetLang, country, chunks, translation1Chunks, j - |chunks|)
    ensures CallPlanned(sourceLang, targetLang, country, chunks, first + second + third, j)
  {
    PassesInLog(first, second, third);
    CallInPasses(first, second, third, j);
    SucceededInPasses(first, second, third, j);
  }

  /** The calls of pass 2, after a successful pass 1, are the planned
      ones, whatever follows them. */
  lemma {:induction false} SecondPassScheduled(sourceLang: string, targetLang: string, country: string,
                                               chunks: seq<string>, first: seq<Exchange>, second: seq<Exchange>,
                                               third: seq<Exchange>, translation1Chunks: seq<string>,
                                               outcome: Result<seq<string>>)
    requires |first| == |chunks| && AllSucceeded(first) && translation1Chunks == Replies(first)
    requires PassOutcome(ReflectRequests(sourceLang, targetLang, country, chunks, translation1Chunks), second, outcome)
    requires |first + second + third| <= 3 * |chunks|
    ensures forall j :: |chunks| <= j < |chunks| + |second| ==>
      CallPlanned(sourceLang, targetLang, country, chunks, first + second + third, j)
  {
    forall j | |chunks| <= j < |chunks| + |second|
      ensures CallPlanned(sourceLang, targetLang, country, chunks, first + second + third, j)
    {
      ReflectPassCall(sourceLang, targetLang, country, chunks, translation1Chunks, second, outcome, j - |chunks|);
      SecondCallPlanned(sourceLang, targetLang, country, chunks, first, second, third, translation1Chunks, j);
    }
  }

  /** One call of pass 3 that issued its planned improvement request is
      the planned call of the run. */
  lemma {:induction false} ThirdCallPlanned(sourceLang: string, targetLang: string, country: string,
                                            chunks: seq<string>, first: seq<Exchange>, second: seq<Exchange>,
                                            third: seq<Exchange>, translation1Chunks: seq<string>,
                                            reflectionChunks: seq<string>, j: nat)
    requires |first| == |chunks| && |second| == |chunks| && AllSucceeded(first) && AllSucceeded(second)
    requires translation1Chunks == Replies(first) && reflectionChunks == Replies(second)
    requires 2 * |chunks| <= j < 2 * |chunks| + |third| && |first + second + third| <= 3 * |chunks|
    requires SucceededBefore(third, j - 2 * |chunks|)
    requires third[j - 2 * |chunks|].request
      == ImproveRequest(sourceLang, targetLang, chunks, translation1Chunks, reflectionChunks, j - 2 * |chunks|)
    ensures CallPlanned(sourceLang, targetLang, country, chunks, first + second + third, j)
  {
    PassesInLog(first, second, third);
    CallInPasses(first, second, third, j);
    SucceededInPasses(first, second, third, j);
  }

  /** The calls of pass 3, after successful passes 1 and 2, are the planned
      ones. */
  lemma {:induction false} ThirdPassScheduled(sourceLang: string, targetLang: string, country: string,
                                              chunks: seq<string>, first: seq<Exchange>, second: seq<Exchange>,
                                              third: seq<Exchange>, translation1Chunks: seq<string>,
                                              reflectionChunks: seq<string>, outcome: Result<seq<string>>)
    requires |first| == |chunks| && |second| == |chunks| && AllSucceeded(first) && AllSucceeded(second)
    requires translation1Chunks == Replies(first) && reflectionChunks == Replies(second)
    requires PassOutcome(ImproveRequests(sourceLang, targetLang, chunks, translation1Chunks, reflectionChunks),
                         third, outcome)
    requires |first + second + third| <= 3 * |chunks|
    ensures forall j :: 2 * |chunks| <= j < 2 * |chunks| + |third| ==>
      CallPlanned(sourceLang, targetLang, country, chunks, first + second + third, j)
  {
    forall j | 2 * |chunks| <= j < 2 * |chunks| + |third|
      ensures CallPlanned(sourceLang, targetLang, country, chunks, first + second + third, j)
    {
      ImprovePassCall(sourceLang, targetLang, chunks, translation1Chunks, reflectionChunks, third, outcome,
                      j - 2 * |chunks|);
      ThirdCallPlanned(sourceLang, targetLang, country, chunks, first, second, third,
                       translation1Chunks, reflectionChunks, j);
    }
  }

  /** The first two passes can be cut back out of the log. */
  lemma {:induction false} PassesInLog(first: seq<Exchange>, second: seq<Exchange>, third: seq<Exchange>)
    ensures (first + second + third)[..|first|] == first
    ensures (first + second + third)[|first|..|first| + |second|] == second
  {
    var all := first + second + third;
    assert forall k :: 0 <= k < |first| ==> all[..|first|][k] == first[k];
    assert forall k :: 0 <= k < |second| ==> all[|first|..|first| + |second|][k] == second[k];
  }

  /** Passes whose calls are each the planned ones make a scheduled run. */
  lemma {:induction false} PassesScheduled(sourceLang: string, targetLang: string, country: string,
                                           chunks: seq<string>, first: seq<Exchange>, second: seq<Exchange>,
                                           third: seq<Exchange>)
    requires |first + second + third| <= 3 * |chunks|
    requires forall j :: 0 <= j < |first| ==>
      CallPlanned(sourceLang, targetLang, country, chunks, first + second + third, j)
    requires second != [] ==> |first| == |chunks|
    requires forall j :: |chunks| <= j < |chunks| + |second| ==>
      CallPlanned(sourceLang, targetLang, country, chunks, first + second + third, j)
    requires third != [] ==> |first| == |chunks| && |second| == |chunks|
    requires forall j :: 2 * |chunks| <= j < 2 * |chunks| + |third| ==>
      CallPlanned(sourceLang, targetLang, country, chunks, first + second + third, j)
    ensures MultiScheduled(sourceLang, targetLang, country, chunks, first + second + third)
  {
  }

  lemma {:induction false} NothingAppended(log: seq<Exchange>)
    ensures log + [] == log
  {
  }

  /** A run whose pass 1 fails ends there, with that pass's error. */
  lemma {:induction false} FirstPassFails(sourceLang: string, targetLang: string, country: string,
                                          chunks: seq<string>, first: seq<Exchange>, translation1: Result<seq<string>>)
    requires PassOutcome(InitialRequests(sourceLang, targetLang, chunks), first, translation1)
    requires translation1.Failure?
    ensures MultiRun(sourceLang, targetLang, country, chunks, first)
    ensures Failure(translation1.error) == MultiResult(chunks, first)
  {
    NothingAppended(first);
    NothingAppended(first + []);
    FirstPassScheduled(sourceLang, targetLang, country, chunks, first, [], [], translation1);
    PassesScheduled(sourceLang, targetLang, country, chunks, first, [], []);
    FailureHalts(chunks, first, translation1);
  }

  /** A run whose pass 2 fails ends there, with that pass's error. */
  lemma {:induction false} SecondPassFails(sourceLang: string, targetLang: string, country: string,
                                           chunks: seq<string>, first: seq<Exchange>, second: seq<Exchange>,
                                           translation1: Result<seq<string>>, reflections: Result<seq<string>>)
    requires PassOutcome(InitialRequests(sourceLang, targetLang, chunks), first, translation1)
    requires translation1.Success? && |translation1.value| == |chunks|
    requires PassOutcome(ReflectRequests(sourceLang, targetLang, country, chunks, translation1.value), second, reflections)
    requires reflections.Failure?
    ensures MultiRun(sourceLang, targetLang, country, chunks, first + second)
    ensures Failure(reflections.error) == MultiResult(chunks, first + second)
  {
    assert |first| == |chunks| && |second| <= |chunks|;
    NothingAppended(first + second);
    FirstPassScheduled(sourceLang, targetLang, country, chunks, first, second, [], translation1);
    SecondPassScheduled(sourceLang, targetLang, country, chunks, first, second, [], translation1.value, reflections);
    PassesScheduled(sourceLang, targetLang, country, chunks, first, second, []);
    LastOfAppend(first, second);
    FailureHalts(chunks, first + second, reflections);
  }

  /** The calls of a run that reaches pass 3 are the planned ones. */
  lemma {:induction false} AllPassesScheduled(sourceLang: string, targetLang: string, country: string,
                                              chunks: seq<string>, first: seq<Exchange>, second: seq<Exchange>,
                                              third: seq<Exchange>, translation1: Result<seq<string>>,
                                              reflections: Result<seq<string>>, translation2: Result<seq<string>>)
    requires PassOutcome(InitialRequests(sourceLang, targetLang, chunks), first, translation1)
    requires translation1.Success? && |translation1.value| == |chunks|
    requires PassOutcome(ReflectRequests(sourceLang, targetLang, country, chunks, translation1.value), second, reflections)
    requires reflections.Success? && |reflections.value| == |chunks|
    requires PassOutcome(ImproveRequests(sourceLang, targetLang, chunks, translation1.value, reflections.value),
                         third, translation2)
    ensures MultiScheduled(sourceLang, targetLang, country, chunks, first + second + third)
  {
    FirstPassScheduled(sourceLang, targetLang, country, chunks, first, second, third, translation1);
    SecondPassScheduled(sourceLang, targetLang, country, chunks, first, second, third, translation1.value, reflections);
    ThirdPassScheduled(sourceLang, targetLang, country, chunks, first, second, third, translation1.value,
                       reflections.value, translation2);
    PassesScheduled(sourceLang, targetLang, country, chunks, first, second, third);
  }

  /** A run that reaches pass 3 ends with it: with its error, or with its
      replies. */
  lemma {:induction false} ThirdPassEnds(chunks: seq<string>, first: seq<Exchange>, second: seq<Exchange>,
                                         third: seq<Exchange>, requests: seq<Request>,
                                         translation2: Result<seq<string>>)
    requires |first| == |chunks| && AllSucceeded(first)
    requires |second| == |chunks| && AllSucceeded(second)
    requires |requests| == |chunks| && PassOutcome(requests, third, translation2)
    ensures Halted(first + second + third, 3 * |chunks|)
    ensures translation2 == MultiResult(chunks, first + second + third)
  {
    if translation2.Failure? {
      LastOfAppend(first + second, third);
      FailureHalts(chunks, first + second + third, translation2);
    } else {
      AllSucceededJoin(first, second);
      LastPassCompletes(chunks, first + second, third, translation2);
    }
  }

  /** `multichunkTranslation`: the three passes in turn; a failing call
      ends the run with its error. `log` is the part of the service's
      history the run adds. */
  method MultichunkTranslation(service: CompletionService, sourceLang: string, targetLang: string,
                               chunks: seq<string>, country: string)
    returns (outcome: Result<seq<string>>, ghost log: seq<Exchange>)
    modifies service
    ensures service.history == old(service.history) + log
    ensures MultiRun(sourceLang, targetLang, country, chunks, log)
    ensures outcome == MultiResult(chunks, log)
  {
    var translation1, first := MultichunkInitialTranslation(service, sourceLang, targetLang, chunks);
    if translation1.Failure? {
      FirstPassFails(sourceLang, targetLang, country, chunks, first, translation1);
      return Failure(translation1.error), first;
    }

    var reflections, second := MultichunkReflectOnTranslation(service, sourceLang, targetLang, chunks,
                                                              translation1.value, country);
    LogAppendAssociates(old(service.history), first, second);
    if reflections.Failure? {
      SecondPassFails(sourceLang, targetLang, country, chunks, first, second, translation1, reflections);
      return Failure(reflections.error), first + second;
    }

    var translation2, third := MultichunkImproveTranslation(service, sourceLang, targetLang, chunks,
                                                            translation1.value, reflections.value);
    LogAppendAssociates(old(service.history), first + second, third);
    AllPassesScheduled(sourceLang, targetLang, country, chunks, first, second, third,
                       translation1, reflections, translation2);
    ThirdPassEnds(chunks, first, second, third,
                  ImproveRequests(sourceLang, targetLang, chunks, translation1.value, reflections.value), translation2);
    return translation2, first + second + third;
  }

  lemma {:induction false} AllSucceededJoin(a: seq<Exchange>, b: seq<Exchange>)
    requires AllSucceeded(a) && AllSucceeded(b)
    ensures AllSucceeded(a + b)
  {
    assert forall k :: 0 <= k < |a + b| ==> (a + b)[k] == (if k < |a| then a[k] else b[k - |a|]);
  }

  lemma {:induction false} LastOfAppend(a: seq<Exchange>, b: seq<Exchange>)
    requires b != []
    ensures a + b != [] && (a + b)[|a + b| - 1] == b[|b| - 1]
  {
  }

  /** A failed call at the end of the log stops the run, with its error. */
  lemma {:induction false} FailureHalts(chunks: seq<string>, log: seq<Exchange>, outcome: Result<seq<string>>)
    requires outcome.Failure? && log != [] && log[|log| - 1].reply == Failure(outcome.error)
    ensures Halted(log, 3 * |chunks|)
    ensures MultiResult(chunks, log) == Failure(outcome.error)
  {
  }

  /** A pass 3 that succeeds after two successful passes completes the run
      with its replies. */
  lemma {:induction false} LastPassCompletes(chunks: seq<string>, prev: seq<Exchange>, log: seq<Exchange>,
                                             outcome: Result<seq<string>>)
    requires |prev| == 2 * |chunks| && AllSucceeded(prev)
    requires |log| == |chunks| && AllSucceeded(log) && outcome == Success(Replies(log))
    ensures Halted(prev + log, 3 * |chunks|)
    ensures MultiResult(chunks, prev + log) == outcome
  {
    AllSucceededJoin(prev, log);
    assert (prev + log)[2 * |chunks|..] == log;
  }

  /** Once the multi-chunk path has finished without error it made
      `3 * |chunks|` calls, and its result holds, at index `i`, the pass-3
      reply for chunk `i`. Which request each call issued is stated by
      `InitialCallAt`, `ReflectCallAt` and `ImproveCallAt`. */
  lemma {:induction false} MultiRunSucceeds(sourceLang: string, targetLang: string, country: string,
                                            chunks: seq<string>, log: seq<Exchange>)
    requires MultiRun(sourceLang, targetLang, country, chunks, log) && AllSucceeded(log)
    ensures |log| == 3 * |chunks|
    ensures var result := MultiResult(chunks, log);
      && result.Success? && |result.value| == |chunks|
      && forall i :: 0 <= i < |chunks| ==> result.value[i] == log[2 * |chunks| + i].reply.value
  {
  }

  /** Call `i` of a run is the pass-1 request for chunk `i`. */
  lemma {:induction false} InitialCallAt(sourceLang: string, targetLang: string, country: string,
                                         chunks: seq<string>, log: seq<Exchange>, i: nat)
    requires MultiScheduled(sourceLang, targetLang, country, chunks, log)
    requires i < |chunks| && i < |log|
    ensures log[i].request == InitialRequest(sourceLang, targetLang, chunks, i)
  {
    assert CallPlanned(sourceLang, targetLang, country, chunks, log, i);
  }

  /** Call `|chunks| + i` of a run is the pass-2 request for chunk `i`,
      quoting the pass-1 replies, which all succeeded. */
  lemma {:induction false} ReflectCallAt(sourceLang: string, targetLang: string, country: string,
                                         chunks: seq<string>, log: seq<Exchange>, i: nat)
    requires MultiScheduled(sourceLang, targetLang, country, chunks, log)
    requires i < |chunks| && |chunks| + i < |log|
    ensures AllSucceeded(log[..|chunks|])
    ensures log[|chunks| + i].request
         == ReflectRequest(sourceLang, targetLang, country, chunks, Replies(log[..|chunks|]), i)
  {
    assert CallPlanned(sourceLang, targetLang, country, chunks, log, |chunks| + i);
    SucceededSlice(log, 0, |chunks|, |chunks| + i);
  }

  /** Call `2 * |chunks| + i` of a run is the pass-3 request for chunk `i`,
      quoting the replies of the first two passes, which all succeeded. */
  lemma {:induction false} ImproveCallAt(sourceLang: string, targetLang: string, country: string,
                                         chunks: seq<string>, log: seq<Exchange>, i: nat)
    requires MultiScheduled(sourceLang, targetLang, country, chunks, log)
    requires i < |chunks| && 2 * |chunks| + i < |log|
    ensures AllSucceeded(log[..|chunks|]) && AllSucceeded(log[|chunks|..2 * |chunks|])
    ensures log[2 * |chunks| + i].request
         == ImproveRequest(sourceLang, targetLang, chunks, Replies(log[..|chunks|]),
                           Replies(log[|chunks|..2 * |chunks|]), i)
  {
    assert CallPlanned(sourceLang, targetLang, country, chunks, log, 2 * |chunks| + i);
    SucceededSlice(log, 0, |chunks|, 2 * |chunks| + i);
    SucceededSlice(log, |chunks|, 2 * |chunks|, 2 * |chunks| + i);
  }

  /** Calls stop at the first failure: in a run of the multi-chunk path
      only the last call can have failed, and then the run reports its
      error. */
  lemma {:induction false} MultiRunStopsAtFailure(sourceLang: string, targetLang: string, country: string,
                                                  chunks: seq<string>, log: seq<Exchange>, k: nat)
    requires MultiRun(sourceLang, targetLang, country, chunks, log)
    requires k < |log| && log[k].reply.Failure?
    ensures k == |log| - 1
    ensures MultiResult(chunks, log) == Failure(log[k].reply.error)
  {
    assert CallPlanned(sourceLang, targetLang, country, chunks, log, |log| - 1);
  }

  // ---------------------------------------------------------------------
  // The single-chunk path

  /** `oneChunkInitialTranslation`: one call with the translator prompt. */
  method OneChunkInitialTranslation(service: CompletionService, sourceLang: string, targetLang: string,
                                    sourceText: string) returns (translation: Result<string>)
    modifies service
    ensures service.history
         == old(service.history) + [Exchange(OneChunkInitialRequest(sourceLang, targetLang, sourceText), translation)]
  {
    translation := service.Complete(OneChunkInitialRequest(sourceLang, targetLang, sourceText));
  }

  /** `oneChunkReflectOnTranslation`: one call with the reviewer prompt. */
  method OneChunkReflectOnTranslation(service: CompletionService, sourceLang: string, targetLang: string,
                                      sourceText: string, translation1: string, country: string)
    returns (reflection: Result<string>)
    modifies service
    ensures service.history == old(service.history)
      + [Exchange(OneChunkReflectRequest(sourceLang, targetLang, sourceText, translation1, country), reflection)]
  {
    reflection := service.Complete(OneChunkReflectRequest(sourceLang, targetLang, sourceText, translation1, country));
  }

  /** `oneChunkImproveTranslation`: one call with the editor prompt. */
  method OneChunkImproveTranslation(service: CompletionService, sourceLang: string, targetLang: string,
                                    sourceText: string, translation1: string, reflection: string)
    returns (translation2: Result<string>)
    modifies service
    ensures service.history == old(service.history)
      + [Exchange(OneChunkImproveRequest(sourceLang, targetLang, sourceText, translation1, reflection), translation2)]
  {
    translation2 := service.Complete(OneChunkImproveRequest(sourceLang, targetLang, sourceText, translation1, reflection));
  }

  /** The request the single-chunk path issues after the successful calls
      `done`: translate, then review the translation, then edit it. */
  function PlannedOneRequest(sourceLang: string, targetLang: string, sourceText: string, country: string,
                             done: seq<Exchange>): Request
    requires |done| < 3 && AllSucceeded(done)
  {
    if |done| == 0 then
      OneChunkInitialRequest(sourceLang, targetLang, sourceText)
    else if |done| == 1 then
      OneChunkReflectRequest(sourceLang, targetLang, sourceText, done[0].reply.value, country)
    else
      OneChunkImproveRequest(sourceLang, targetLang, sourceText, done[0].reply.value, done[1].reply.value)
  }

  /** Every call in `log` issued the planned request, and no call was made
      after a failed one. */
  predicate OneScheduled(sourceLang: string, targetLang: string, sourceText: string, country: string,
                         log: seq<Exchange>)
  {
    && |log| <= 3
    && forall j :: 0 <= j < |log| ==>
         && AllSucceeded(log[..j])
         && log[j].request == PlannedOneRequest(sourceLang, targetLang, sourceText, country, log[..j])
  }

  /** A complete run of the single-chunk path. */
  predicate OneRun(sourceLang: string, targetLang: string, sourceText: string, country: string,
                   log: seq<Exchange>)
  {
    OneScheduled(sourceLang, targetLang, sourceText, country, log) && Halted(log, 3)
  }

  /** What a run of the single-chunk path returns: the edited translation,
      or the error that stopped it. */
  function OneResult(log: seq<Exchange>): Result<string>
    requires Halted(log, 3)
  {
    if AllSucceeded(log) then Success(log[2].reply.value) else Failure(LastError(log))
  }

  /** A single-chunk run whose first call fails ends there. */
  lemma {:induction false} OneFirstCallFails(sourceLang: string, targetLang: string, sourceText: string,
                                             country: string, translation1: Result<string>)
    requires translation1.Failure?
    ensures var log := [Exchange(OneChunkInitialRequest(sourceLang, targetLang, sourceText), translation1)];
      OneRun(sourceLang, targetLang, sourceText, country, log) && Failure(translation1.error) == OneResult(log)
  {
    var log := [Exchange(OneChunkInitialRequest(sourceLang, targetLang, sourceText), translation1)];
    assert log[..0] == [];
  }

  /** A single-chunk run whose second call fails ends there. */
  lemma {:induction false} OneSecondCallFails(sourceLang: string, targetLang: string, sourceText: string,
                                              country: string, translation1: Result<string>,
                                              reflection: Result<string>)
    requires translation1.Success? && reflection.Failure?
    ensures var log := [Exchange(OneChunkInitialRequest(sourceLang, targetLang, sourceText), translation1)]
      + [Exchange(OneChunkReflectRequest(sourceLang, targetLang, sourceText, translation1.value, country),
                  reflection)];
      OneRun(sourceLang, targetLang, sourceText, country, log) && Failure(reflection.error) == OneResult(log)
  {
    var log := [Exchange(OneChunkInitialRequest(sourceLang, targetLang, sourceText), translation1)]
      + [Exchange(OneChunkReflectRequest(sourceLang, targetLang, sourceText, translation1.value, country),
                  reflection)];
    assert log[..0] == [];
    assert log[..1] == [log[0]];
  }

  /** A single-chunk run that reaches the third call ends with it. */
  lemma {:induction false} OneThirdCallEnds(sourceLang: string, targetLang: string, sourceText: string,
                                            country: string, translation1: Result<string>,
                                            reflection: Result<string>, translation2: Result<string>)
    requires translation1.Success? && reflection.Success?
    ensures var log := [Exchange(OneChunkInitialRequest(sourceLang, targetLang, sourceText), translation1)]
      + [Exchange(OneChunkReflectRequest(sourceLang, targetLang, sourceText, translation1.value, country),
                  reflection)]
      + [Exchange(OneChunkImproveRequest(sourceLang, targetLang, sourceText, translation1.value,
                                         reflection.value), translation2)];
      OneRun(sourceLang, targetLang, sourceText, country, log) && translation2 == OneResult(log)
  {
    var log := [Exchange(OneChunkInitialRequest(sourceLang, targetLang, sourceText), translation1)]
      + [Exchange(OneChunkReflectRequest(sourceLang, targetLang, sourceText, translation1.value, country),
                  reflection)]
      + [Exchange(OneChunkImproveRequest(sourceLang, targetLang, sourceText, translation1.value,
                                         reflection.value), translation2)];
    assert log[..0] == [];
    assert log[..1] == [log[0]];
    assert log[..2] == [log[0], log[1]];
  }

  /** `oneChunkTranslateText`: translate, reflect, improve; a failing call
      ends the run with its error. */
  method OneChunkTranslateText(service: CompletionService, sourceLang: string, targetLang: string,
                               sourceText: string, country: string)
    returns (outcome: Result<string>, ghost log: seq<Exchange>)
    modifies service
    ensures service.history == old(service.history) + log
    ensures OneRun(sourceLang, targetLang, sourceText, country, log)
    ensures outcome == OneResult(log)
  {
    var translation1 := OneChunkInitialTranslation(service, sourceLang, targetLang, sourceText);
    log := [Exchange(OneChunkInitialRequest(sourceLang, targetLang, sourceText), translation1)];
    if translation1.Failure? {
      OneFirstCallFails(sourceLang, targetLang, sourceText, country, translation1);
      return Failure(translation1.error), log;
    }

    var reflection := OneChunkReflectOnTranslation(service, sourceLang, targetLang, sourceText,
                                                   translation1.value, country);
    ghost var step := [Exchange(OneChunkReflectRequest(sourceLang, targetLang, sourceText, translation1.value, country),
                                reflection)];
    LogAppendAssociates(old(service.history), log, step);
    log := log + step;
    if reflection.Failure? {
      OneSecondCallFails(sourceLang, targetLang, sourceText, country, translation1, reflection);
      return Failure(reflection.error), log;
    }

    var translation2 := OneChunkImproveTranslation(service, sourceLang, targetLang, sourceText,
                                                   translation1.value, reflection.value);
    step := [Exchange(OneChunkImproveRequest(sourceLang, targetLang, sourceText, translation1.value,
                                             reflection.value), translation2)];
    LogAppendAssociates(old(service.history), log, step);
    log := log + step;
    OneThirdCallEnds(sourceLang, targetLang, sourceText, country, translation1, reflection, translation2);
    return translation2, log;
  }

  /** A single-chunk run that has finished without error made the three
      calls in order: translate the text, review that translation, edit it
      with that review; its result is the edited text. */
  lemma {:induction false} OneRunSucceeds(sourceLang: string, targetLang: string, sourceText: string,
                                          country: string, log: seq<Exchange>)
    requires OneRun(sourceLang, targetLang, sourceText, country, log) && AllSucceeded(log)
    ensures |log| == 3
    ensures log[0].request == OneChunkInitialRequest(sourceLang, targetLang, sourceText)
    ensures log[1].request == OneChunkReflectRequest(sourceLang, targetLang, sourceText, log[0].reply.value, country)
    ensures log[2].request
         == OneChunkImproveRequest(sourceLang, targetLang, sourceText, log[0].reply.value, log[1].reply.value)
    ensures OneResult(log) == Success(log[2].reply.value)
  {
    assert log[..1][0] == log[0];
    assert log[..2][0] == log[0] && log[..2][1] == log[1];
  }

  /** Calls stop at the first failure: in a single-chunk run only the last
      call can have failed, and then the run reports its error. */
  lemma {:induction false} OneRunStopsAtFailure(sourceLang: string, targetLang: string, sourceText: string,
                                                country: string, log: seq<Exchange>, k: nat)
    requires OneRun(sourceLang, targetLang, sourceText, country, log)
    requires k < |log| && log[k].reply.Failure?
    ensures k == |log| - 1
    ensures OneResult(log) == Failure(log[k].reply.error)
  {
  }

  // ---------------------------------------------------------------------
  // translate

  /** `MAX_TOKENS_PER_CHUNK`, the default `maxTokens` of `translate`. */
  const MaxTokensPerChunk: nat := 1000

  const FailurePrefix := "Translation failed: "

  /** The message of the error `translate` throws in place of the one that
      stopped it. */
  function FailureMessage(cause: string): (message: string)
    ensures IsPrefix(FailurePrefix, message) && message[|FailurePrefix|..] == cause
  {
    FailurePrefix + cause
  }

  /** What `translate` makes of the outcome of a path. */
  function Wrapped(outcome: Result<string>): Result<string>
  {
    if outcome.Success? then outcome else Failure(FailureMessage(outcome.error))
  }

  /** The multi-chunk outcome, its chunks joined with no separator. */
  function Joined(outcome: Result<seq<string>>): Result<string>
  {
    if outcome.Success? then Success(Join(outcome.value)) else Failure(outcome.error)
  }

  /** A run of `translate`: count the tokens of the text; within the budget,
      the single-chunk path on the whole text; over it, split the text into
      chunks of the computed size and run the multi-chunk path. `log` holds
      the completion calls made, and every failure, of the tokenizer, the
      splitter or a call, comes back wrapped. */
  ghost predicate TranslateRun(countTokens: string -> Result<nat>, splitText: (string, nat) -> Result<seq<string>>,
                               sourceLang: string, targetLang: string, sourceText: string, country: string,
                               maxTokens: nat, log: seq<Exchange>, result: Result<string>)
  {
    match countTokens(sourceText)
    case Failure(cause) => log == [] && result == Failure(FailureMessage(cause))
    case Success(count) =>
      if count <= maxTokens then
        OneRun(sourceLang, targetLang, sourceText, country, log) && result == Wrapped(OneResult(log))
      else
        match splitText(sourceText, CalculateChunkSize(count, maxTokens))
        case Failure(cause) => log == [] && result == Failure(FailureMessage(cause))
        case Success(chunks) =>
          && MultiRun(sourceLang, targetLang, country, chunks, log)
          && result == Wrapped(Joined(MultiResult(chunks, log)))
  }

  /** `translate`. The tokenizer (`numTokensInString`) and the splitter
      (`RecursiveCharacterTextSplitter` with no overlap) are parameters; a
      thrown error is a `Failure`. */
  method Translate(service: CompletionService, countTokens: string -> Result<nat>,
                   splitText: (string, nat) -> Result<seq<string>>, sourceLang: string, targetLang: string,
                   sourceText: string, country: string, maxTokens: nat)
    returns (result: Result<string>, ghost log: seq<Exchange>)
    modifies service
    ensures service.history == old(service.history) + log
    ensures TranslateRun(countTokens, splitText, sourceLang, targetLang, sourceText, country, maxTokens, log, result)
  {
    var numTokensInText := countTokens(sourceText);
    if numTokensInText.Failure? {
      NothingAppended(service.history);
      return Failure(FailureMessage(numTokensInText.error)), [];
    }

    if numTokensInText.value <= maxTokens {
      var translation;
      translation, log := OneChunkTranslateText(service, sourceLang, targetLang, sourceText, country);
      return Wrapped(translation), log;
    }

    var tokenSize := CalculateChunkSize(numTokensInText.value, maxTokens);
    var sourceTextChunks := splitText(sourceText, tokenSize);
    if sourceTextChunks.Failure? {
      NothingAppended(service.history);
      return Failure(FailureMessage(sourceTextChunks.error)), [];
    }

    var translationChunks;
    translationChunks, log := MultichunkTranslation(service, sourceLang, targetLang, sourceTextChunks.value, country);
    return Wrapped(Joined(translationChunks)), log;
  }

  /** Whatever step fails, `translate` reports it under one prefix,
      followed by the original message. */
  lemma {:induction false} TranslateErrorsWrapped(countTokens: string -> Result<nat>,
                                                  splitText: (string, nat) -> Result<seq<string>>,
                                                  sourceLang: string, targetLang: string, sourceText: string,
                                                  country: string, maxTokens: nat, log: seq<Exchange>,
                                                  result: Result<string>)
    requires TranslateRun(countTokens, splitText, sourceLang, targetLang, sourceText, country, maxTokens, log, result)
    requires result.Failure?
    ensures IsPrefix(FailurePrefix, result.error)
  {
    match countTokens(sourceText)
    case Failure(cause) =>
    case Success(count) =>
      if count > maxTokens {
        match splitText(sourceText, CalculateChunkSize(count, maxTokens))
        case Failure(cause) =>
        case Success(chunks) =>
          assert MultiResult(chunks, log).Failure?;
      }
  }

  /** A text within the budget is translated whole: at most three calls,
      the first asking for the translation of the entire text. A text over
      the budget is split with the computed chunk size, and the first call,
      if any, asks for the translation of the first chunk. */
  lemma {:induction false} TranslateRoutes(countTokens: string -> Result<nat>,
                                           splitText: (string, nat) -> Result<seq<string>>,
                                           sourceLang: string, targetLang: string, sourceText: string,
                                           country: string, maxTokens: nat, log: seq<Exchange>,
                                           result: Result<string>)
    requires TranslateRun(countTokens, splitText, sourceLang, targetLang, sourceText, country, maxTokens, log, result)
    requires countTokens(sourceText).Success? && log != []
    ensures var count := countTokens(sourceText).value;
      && (count <= maxTokens ==>
            |log| <= 3 && log[0].request == OneChunkInitialRequest(sourceLang, targetLang, sourceText))
      && (count > maxTokens ==>
            var chunks := splitText(sourceText, CalculateChunkSize(count, maxTokens));
            && chunks.Success? && 0 < |chunks.value| && |log| <= 3 * |chunks.value|
            && log[0].request == InitialRequest(sourceLang, targetLang, chunks.value, 0))
  {
    var count := countTokens(sourceText).value;
    if count <= maxTokens {
      assert log[..0] == [];
    } else {
      var chunks := splitText(sourceText, CalculateChunkSize(count, maxTokens)).value;
      InitialCallAt(sourceLang, targetLang, country, chunks, log, 0);
    }
  }

  /** A successful `translate` made every call without error, and returns
      the edited text of the single-chunk path, or the pass-3 replies of the
      multi-chunk path joined in chunk order. */
  lemma {:induction false} TranslateSucceeds(countTokens: string -> Result<nat>,
                                             splitText: (string, nat) -> Result<seq<string>>,
                                             sourceLang: string, targetLang: string, sourceText: string,
                                             country: string, maxTokens: nat, log: seq<Exchange>,
                                             result: Result<string>)
    requires TranslateRun(countTokens, splitText, sourceLang, targetLang, sourceText, country, maxTokens, log, result)
    requires result.Success?
    ensures countTokens(sourceText).Success? && AllSucceeded(log)
    ensures var count := countTokens(sourceText).value;
      && (count <= maxTokens ==> |log| == 3 && result.value == log[2].reply.value)
      && (count > maxTokens ==>
            var chunks := splitText(sourceText, CalculateChunkSize(count, maxTokens));
            && chunks.Success? && |log| == 3 * |chunks.value|
            && result.value == Join(Replies(log[2 * |chunks.value|..])))
  {
    var count := countTokens(sourceText).value;
    if count <= maxTokens {
      OneRunSucceeds(sourceLang, targetLang, sourceText, country, log);
    } else {
      var chunks := splitText(sourceText, CalculateChunkSize(count, maxTokens)).value;
      assert MultiResult(chunks, log).Success?;
      MultiRunSucceeds(sourceLang, targetLang, country, chunks, log);
    }
  }

  /** At the default budget: a text of exactly `MaxTokensPerChunk` tokens
      is still translated whole, and a text of one token more is split into
      chunks of 500 tokens. */
  lemma {:induction false} TranslateDefaultBudget(countTokens: string -> Result<nat>,
                                                  splitText: (string, nat) -> Result<seq<string>>,
                                                  sourceLang: string, targetLang: string, sourceText: string,
                                                  country: string, log: seq<Exchange>, result: Result<string>)
    requires TranslateRun(countTokens, splitText, sourceLang, targetLang, sourceText, country,
                          MaxTokensPerChunk, log, result)
    ensures countTokens(sourceText) == Success(MaxTokensPerChunk) ==>
      OneRun(sourceLang, targetLang, sourceText, country, log)
    ensures countTokens(sourceText) == Success(MaxTokensPerChunk + 1) && splitText(sourceText, 500).Success? ==>
      MultiRun(sourceLang, targetLang, country, splitText(sourceText, 500).value, log)
  {
    assert CalculateChunkSize(MaxTokensPerChunk + 1, MaxTokensPerChunk) == 500;
  }
}
