/**
 * The generation engine of `llama_wrapper_generate` as a specification:
 * what the emit loop produces and why it stops, and the reply (return code,
 * error message, pieces handed to the callback) of a whole call. Every answer
 * of llama.cpp is an input (an `Oracle`); the method in module LlamaWrapper
 * runs the loop and is proved to agree with `Loop` and `GenerateReply`.
 */
module Generation {
  import opened Wrappers
  import opened Errors

  type Token = int

  /**
   * The answers of llama.cpp during one call. Per-iteration answers are
   * functions of the iteration index, which equals the number of tokens
   * produced so far.
   */
  datatype Oracle = Oracle(
    tokenized: int,             // result of `llama_tokenize` (negative: failure)
    promptDecodes: bool,        // `llama_decode` of the prompt batch returned 0
    sampled: nat -> Token,      // token drawn by the sampler at iteration i
    isEog: Token -> bool,       // `llama_vocab_is_eog`
    pieceLen: Token -> int,     // `llama_token_to_piece` into 255 bytes
    decodes: nat -> bool,       // `llama_decode` of iteration i's token returned 0
    cancelled: nat -> bool)     // a concurrent cancel landed before iteration i's check

  /** The caller's callback, as its answer at each iteration (0 = continue). */
  type Callback = nat -> int

  datatype StopReason = Exhausted | Cancelled | EndOfGeneration | CallbackStop | DecodeFailed

  /**
   * The emit loop's outcome: the tokens decoded and counted, why it stopped,
   * and the tokens whose pieces were handed to the callback, in order.
   */
  datatype Run = Run(produced: seq<Token>, reason: StopReason, emitted: seq<Token>)

  /** The reply of one generate call. */
  datatype Reply = Reply(code: int, message: string, emitted: seq<Token>)

  function Max0(x: int): nat {
    if x > 0 then x else 0
  }

  /** The callback is called with `t`'s piece: it exists and the piece is not empty. */
  predicate Shown(o: Oracle, callback: Option<Callback>, t: Token) {
    callback.Some? && o.pieceLen(t) > 0
  }

  /** The callback asks to stop at iteration `i`, having been shown `t`. */
  predicate StopsAt(o: Oracle, callback: Option<Callback>, i: nat, t: Token) {
    Shown(o, callback, t) && callback.value(i) != 0
  }

  /**
   * The emit loop from iteration `i` on. Each stop other than an exhausted
   * budget leaves the current token uncounted.
   */
  function Loop(o: Oracle, maxTokens: int, callback: Option<Callback>, i: nat): (r: Run)
    ensures |r.produced| <= Max0(maxTokens - i)
    ensures r.reason == Exhausted <==> i + |r.produced| >= maxTokens
    ensures callback.None? ==> r.emitted == [] && r.reason != CallbackStop
    decreases maxTokens - i
  {
    if i >= maxTokens then Run([], Exhausted, [])
    else if o.cancelled(i) then Run([], Cancelled, [])
    else
      var t := o.sampled(i);
      if o.isEog(t) then Run([], EndOfGeneration, [])
      else
        var shown := if Shown(o, callback, t) then [t] else [];
        if StopsAt(o, callback, i, t) then Run([], CallbackStop, shown)
        else if !o.decodes(i) then Run([], DecodeFailed, shown)
        else
          var rest := Loop(o, maxTokens, callback, i + 1);
          Run([t] + rest.produced, rest.reason, shown + rest.emitted)
  }

  /** The counted tokens are the sampler's draws, in order, with none skipped. */
  lemma {:induction false} ProducedAreSamples(o: Oracle, maxTokens: int, callback: Option<Callback>, i: nat, k: nat)
    requires k < |Loop(o, maxTokens, callback, i).produced|
    ensures Loop(o, maxTokens, callback, i).produced[k] == o.sampled(i + k)
    decreases maxTokens - i
  {
    if k > 0 {
      ProducedAreSamples(o, maxTokens, callback, i + 1, k - 1);
    }
  }

  /**
   * After `n` counted iterations that produced `produced` and showed `emitted`,
   * the rest of the loop completes the whole run.
   */
  ghost predicate RunSoFar(o: Oracle, maxTokens: int, callback: Option<Callback>, n: nat,
                           produced: seq<Token>, emitted: seq<Token>)
  {
    var rest := Loop(o, maxTokens, callback, n);
    Loop(o, maxTokens, callback, 0) == Run(produced + rest.produced, rest.reason, emitted + rest.emitted)
  }

  /** A counted iteration extends the run so far by its token and its shown piece. */
  lemma Advance(o: Oracle, maxTokens: int, callback: Option<Callback>, n: nat,
                produced: seq<Token>, emitted: seq<Token>)
    requires RunSoFar(o, maxTokens, callback, n, produced, emitted)
    requires n < maxTokens && !o.cancelled(n) && !o.isEog(o.sampled(n))
    requires !StopsAt(o, callback, n, o.sampled(n)) && o.decodes(n)
    ensures var t := o.sampled(n);
            RunSoFar(o, maxTokens, callback, n + 1, produced + [t],
                     emitted + (if Shown(o, callback, t) then [t] else []))
  {
  }

  /** Iteration `n` ends the loop for `reason` (or the budget is spent). */
  predicate StopsWith(o: Oracle, maxTokens: int, callback: Option<Callback>, n: nat, reason: StopReason) {
    match reason
    case Exhausted => n >= maxTokens
    case Cancelled => n < maxTokens && o.cancelled(n)
    case EndOfGeneration => n < maxTokens && !o.cancelled(n) && o.isEog(o.sampled(n))
    case CallbackStop =>
      n < maxTokens && !o.cancelled(n) && !o.isEog(o.sampled(n))
      && StopsAt(o, callback, n, o.sampled(n))
    case DecodeFailed =>
      n < maxTokens && !o.cancelled(n) && !o.isEog(o.sampled(n))
      && !StopsAt(o, callback, n, o.sampled(n)) && !o.decodes(n)
  }

  /** A stopping iteration completes the run, adding the piece shown before the stop. */
  lemma Finish(o: Oracle, maxTokens: int, callback: Option<Callback>, n: nat,
               produced: seq<Token>, emitted: seq<Token>, reason: StopReason)
    requires RunSoFar(o, maxTokens, callback, n, produced, emitted)
    requires StopsWith(o, maxTokens, callback, n, reason)
    ensures Loop(o, maxTokens, callback, 0)
            == Run(produced, reason, emitted + StopPiece(o, callback, reason, n))
  {
  }

  /** Every counted iteration passed all four stop tests. */
  lemma {:induction false} CountedIterations(o: Oracle, maxTokens: int, callback: Option<Callback>, i: nat, j: nat)
    requires i <= j < i + |Loop(o, maxTokens, callback, i).produced|
    ensures j < maxTokens && !o.cancelled(j) && !o.isEog(o.sampled(j))
    ensures !StopsAt(o, callback, j, o.sampled(j)) && o.decodes(j)
    decreases maxTokens - i
  {
    if j > i {
      CountedIterations(o, maxTokens, callback, i + 1, j);
    }
  }

  /** The iteration after the counted ones is the one that tripped the stop rule named. */
  lemma {:induction false} StopIteration(o: Oracle, maxTokens: int, callback: Option<Callback>, i: nat)
    ensures var r := Loop(o, maxTokens, callback, i);
            var k := i + |r.produced|;
            && (r.reason == Cancelled ==> k < maxTokens && o.cancelled(k))
            && (r.reason == EndOfGeneration ==>
                  k < maxTokens && !o.cancelled(k) && o.isEog(o.sampled(k)))
            && (r.reason == CallbackStop ==>
                  k < maxTokens && !o.cancelled(k) && !o.isEog(o.sampled(k))
                  && StopsAt(o, callback, k, o.sampled(k)))
            && (r.reason == DecodeFailed ==>
                  k < maxTokens && !o.cancelled(k) && !o.isEog(o.sampled(k))
                  && !StopsAt(o, callback, k, o.sampled(k)) && !o.decodes(k))
    decreases maxTokens - i
  {
    if i < maxTokens && !o.cancelled(i) && !o.isEog(o.sampled(i))
       && !StopsAt(o, callback, i, o.sampled(i)) && o.decodes(i)
    {
      StopIteration(o, maxTokens, callback, i + 1);
    }
  }

  /** The tokens of `ts` whose pieces the callback is shown. */
  function Visible(o: Oracle, callback: Option<Callback>, ts: seq<Token>): seq<Token>
  {
    if ts == [] then []
    else (if Shown(o, callback, ts[0]) then [ts[0]] else []) + Visible(o, callback, ts[1..])
  }

  lemma VisibleCons(o: Oracle, callback: Option<Callback>, t: Token, ts: seq<Token>)
    ensures Visible(o, callback, [t] + ts)
            == (if Shown(o, callback, t) then [t] else []) + Visible(o, callback, ts)
  {
  }

  /** The piece shown at the stopping iteration `k`, if the stop came after the callback. */
  function StopPiece(o: Oracle, callback: Option<Callback>, reason: StopReason, k: nat): seq<Token>
  {
    if (reason == CallbackStop || reason == DecodeFailed) && Shown(o, callback, o.sampled(k))
    then [o.sampled(k)] else []
  }

  /**
   * The callback sees exactly the counted tokens with a non-empty piece, plus
   * the uncounted last token when its piece was shown before the stop.
   */
  lemma {:induction false} EmittedPieces(o: Oracle, maxTokens: int, callback: Option<Callback>, i: nat)
    ensures var r := Loop(o, maxTokens, callback, i);
            r.emitted == Visible(o, callback, r.produced)
                         + StopPiece(o, callback, r.reason, i + |r.produced|)
    decreases maxTokens - i
  {
    if i < maxTokens && !o.cancelled(i) && !o.isEog(o.sampled(i))
       && !StopsAt(o, callback, i, o.sampled(i)) && o.decodes(i)
    {
      var t := o.sampled(i);
      var rest := Loop(o, maxTokens, callback, i + 1);
      EmittedPieces(o, maxTokens, callback, i + 1);
      VisibleCons(o, callback, t, rest.produced);
      assert |Loop(o, maxTokens, callback, i).produced| == 1 + |rest.produced|;
    }
  }

  /** A token with an empty piece skips the callback but is still decoded and counted. */
  lemma EmptyPieceStillCounted(o: Oracle, maxTokens: int, callback: Option<Callback>, i: nat)
    requires i < maxTokens && !o.cancelled(i) && !o.isEog(o.sampled(i))
    requires o.pieceLen(o.sampled(i)) <= 0 && o.decodes(i)
    ensures var r := Loop(o, maxTokens, callback, i);
            var rest := Loop(o, maxTokens, callback, i + 1);
            r.produced == [o.sampled(i)] + rest.produced && r.emitted == rest.emitted
  {
  }

  /** Once a cancel is observed at iteration `j`, at most `j` tokens are counted. */
  lemma CancelBoundsCount(o: Oracle, maxTokens: int, callback: Option<Callback>, j: nat)
    requires o.cancelled(j)
    ensures |Loop(o, maxTokens, callback, 0).produced| <= j
  {
    if |Loop(o, maxTokens, callback, 0).produced| > j {
      CountedIterations(o, maxTokens, callback, 0, j);
    }
  }

  /** Without budget the loop consults neither the library nor the callback. */
  lemma {:induction false} NoBudgetNoIteration(o: Oracle, o': Oracle, maxTokens: int,
                                             callback: Option<Callback>, callback': Option<Callback>)
    requires maxTokens <= 0
    ensures Loop(o, maxTokens, callback, 0) == Loop(o', maxTokens, callback', 0) == Run([], Exhausted, [])
  {
  }

  /**
   * A callback that asks to stop on the very first token: the token's piece
   * was shown, but the token is neither decoded nor counted, so the call
   * returns 0 with no error.
   */
  lemma CallbackStopOnFirstToken(o: Oracle, maxTokens: int, callback: Option<Callback>)
    requires o.tokenized >= 0 && o.promptDecodes && maxTokens >= 1
    requires !o.cancelled(0) && !o.isEog(o.sampled(0))
    requires StopsAt(o, callback, 0, o.sampled(0))
    ensures GenerateReply(true, true, maxTokens, callback, o) == Reply(0, "", [o.sampled(0)])
  {
  }

  /** A cancel that lands before the first check: nothing sampled, shown or counted, no error. */
  lemma CancelBeforeFirstToken(o: Oracle, maxTokens: int, callback: Option<Callback>)
    requires o.tokenized >= 0 && o.promptDecodes && o.cancelled(0)
    ensures GenerateReply(true, true, maxTokens, callback, o) == Reply(0, "", [])
  {
  }

  /** The sampler chain is attached past tokenization, and only then. */
  predicate SamplerAttached(hasHandle: bool, hasPrompt: bool, o: Oracle) {
    hasHandle && hasPrompt && o.tokenized >= 0
  }

  /**
   * The reply of a generate call. Negative codes are the four failures before
   * the loop, each with its own message; otherwise the count of produced
   * tokens, with an error message only after a failed token decode.
   */
  function GenerateReply(hasHandle: bool, hasPrompt: bool, maxTokens: int,
                         callback: Option<Callback>, o: Oracle): (r: Reply)
    ensures r.code == -1 <==> !hasHandle
    ensures r.code == -2 <==> hasHandle && !hasPrompt
    ensures r.code == -3 <==> hasHandle && hasPrompt && o.tokenized < 0
    ensures r.code == -4 <==> SamplerAttached(hasHandle, hasPrompt, o) && !o.promptDecodes
    ensures r.code < 0 ==> -4 <= r.code && r.message != "" && r.emitted == []
    ensures r.code == -1 ==> r.message == ContextIsNull
    ensures r.code == -2 ==> r.message == PromptIsNull
    ensures r.code == -3 ==> r.message == TokenizeFailed
    ensures r.code == -4 ==> r.message == PromptDecodeFailed
    ensures r.code >= 0 && r.message != "" ==> r.message == TokenDecodeFailed
    ensures r.code >= 0 ==> r.code <= Max0(maxTokens)
    ensures r.code >= 0 ==>
      r.code == |Loop(o, maxTokens, callback, 0).produced|
      && r.emitted == Loop(o, maxTokens, callback, 0).emitted
    ensures r.code >= 0 ==> (r.message != "" <==> Loop(o, maxTokens, callback, 0).reason == DecodeFailed)
  {
    if !hasHandle then Reply(-1, ContextIsNull, [])
    else if !hasPrompt then Reply(-2, PromptIsNull, [])
    else if o.tokenized < 0 then Reply(-3, TokenizeFailed, [])
    else if !o.promptDecodes then Reply(-4, PromptDecodeFailed, [])
    else
      var run := Loop(o, maxTokens, callback, 0);
      Reply(|run.produced|, if run.reason == DecodeFailed then TokenDecodeFailed else "", run.emitted)
  }
}
