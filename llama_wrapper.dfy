/**
 * The handle lifecycle of the wrapper around llama.cpp: load, unload,
 * generate, cancel and the two queries, over `LlamaContextInternal`.
 * Each call into llama.cpp is an input; the process-wide error slot is an
 * `ErrorChannel` and the library's allocations are logged in a `Library`.
 * The per-handle generate lock is modelled as the exclusive access that a
 * Dafny method has to the objects it modifies.
 */
module LlamaWrapper {
  import opened Wrappers
  import opened Errors
  import opened Sampling
  import opened Resources
  import opened Generation

  const DefaultContextSize := 2048
  const BatchSize := 512
  const Threads := 4
  const InfoCapacity := 1023   // `char buf[1024]` less the terminator

  /** The context parameters handed to `llama_init_from_model`. */
  datatype ContextParams = ContextParams(nCtx: int, nBatch: int, nThreads: int, nThreadsBatch: int)

  /** `LlamaContextInternal`: presence flags stand for the owned pointers. */
  class Handle {
    var model: bool
    var ctx: bool
    var sampler: Option<Chain>
    var cancel: bool
    var nCtx: int
    var path: string

    /** The member initialisers of the struct. */
    constructor ()
      ensures !model && !ctx && sampler == None && !cancel
      ensures nCtx == DefaultContextSize && path == ""
    {
      model, ctx, sampler, cancel := false, false, None, false;
      nCtx, path := DefaultContextSize, "";
    }

    /**
     * A handle as load returns it and as generate finds and leaves it: model
     * and context both present, no sampler attached, a positive window.
     */
    predicate Ready()
      reads this
    {
      model && ctx && sampler == None && nCtx > 0
    }
  }

  /** The window size load stores: the caller's when positive, else the default. */
  function ResolveContextSize(nCtx: int): (size: int)
    ensures size > 0
    ensures nCtx > 0 ==> size == nCtx
    ensures nCtx <= 0 ==> size == DefaultContextSize
  {
    if nCtx > 0 then nCtx else DefaultContextSize
  }

  /** The context parameters for a requested window size. */
  function ParamsFor(nCtx: int): ContextParams {
    ContextParams(ResolveContextSize(nCtx), BatchSize, Threads, Threads)
  }

  /**
   * A path load accepts: not null and not empty. Paths are taken to hold no
   * NUL character, so this is the code's `strlen(model_path) == 0` test.
   */
  predicate PathGiven(path: Option<string>) {
    path.Some? && path.value != ""
  }

  /** What load takes from and gives back to the library, by how far it got. */
  function LoadEvents(pathGiven: bool, modelLoaded: bool, contextCreated: bool): seq<Event> {
    if !pathGiven then []
    else if !modelLoaded then [Allocated(HandleObject), Released(HandleObject)]
    else if !contextCreated then
      [Allocated(HandleObject), Allocated(Model), Released(Model), Released(HandleObject)]
    else [Allocated(HandleObject), Allocated(Model), Allocated(Context)]
  }

  /** Unload's releases, in order: sampler, context, model, then the handle. */
  function UnloadEvents(sampler: Option<Chain>, ctx: bool, model: bool): seq<Event> {
    (if sampler.Some? then [Released(Sampler(sampler.value))] else [])
    + (if ctx then [Released(Context)] else [])
    + (if model then [Released(Model)] else [])
    + [Released(HandleObject)]
  }

  /** The chain a generate call attaches, if it gets past tokenization. */
  function ChainUsed(hasHandle: bool, hasPrompt: bool, temperature: real, topP: real, o: Oracle): Option<Chain> {
    if SamplerAttached(hasHandle, hasPrompt, o) then Some(ChooseChain(temperature, topP)) else None
  }

  /** A generate call creates its chain and frees it before returning. */
  function GenerateEvents(chain: Option<Chain>): seq<Event> {
    if chain.Some? then [Allocated(Sampler(chain.value)), Released(Sampler(chain.value))] else []
  }

  /** The releases of a series of generate calls, one after another. */
  function GenerateLog(chains: seq<Option<Chain>>): seq<Event> {
    if chains == [] then [] else GenerateEvents(chains[0]) + GenerateLog(chains[1..])
  }

  /** A load that fails, at whatever step, gives back everything it took. */
  lemma LoadFailureLeaksNothing(pathGiven: bool, modelLoaded: bool, contextCreated: bool, r: Resource)
    requires !(pathGiven && modelLoaded && contextCreated)
    ensures Live(LoadEvents(pathGiven, modelLoaded, contextCreated), r) == 0
  {
  }

  /** Every generate call frees the chain it built. */
  lemma {:induction false} GenerateLogLeaksNothing(chains: seq<Option<Chain>>, r: Resource)
    ensures Live(GenerateLog(chains), r) == 0
  {
    if chains != [] {
      GenerateLogLeaksNothing(chains[1..], r);
    }
  }

  /**
   * A successful load, any number of generate calls and an unload of the
   * handle they leave ready leave every resource as alive as before.
   */
  lemma {:induction false} SessionLeaksNothing(chains: seq<Option<Chain>>, r: Resource)
    ensures Live(LoadEvents(true, true, true) + GenerateLog(chains) + UnloadEvents(None, true, true), r) == 0
  {
    GenerateLogLeaksNothing(chains, r);
  }

  /**
   * `llama_wrapper_load_model`. `loadModel` and `createContext` are the
   * library's answers to the model file and to the context parameters.
   */
  method LoadModel(path: Option<string>, nCtx: int, nGpuLayers: int,
                   loadModel: (string, int) -> bool, createContext: ContextParams -> bool,
                   err: ErrorChannel, lib: Library)
    returns (h: Handle?)
    modifies err, lib
    ensures h != null <==>
      PathGiven(path) && loadModel(path.value, nGpuLayers) && createContext(ParamsFor(nCtx))
    ensures !PathGiven(path) ==> err.message == ModelPathEmpty
    ensures PathGiven(path) && !loadModel(path.value, nGpuLayers) ==>
      err.message == ModelLoadFailed(path.value)
    ensures PathGiven(path) && loadModel(path.value, nGpuLayers) && !createContext(ParamsFor(nCtx)) ==>
      err.message == ContextCreateFailed
    ensures h != null ==>
      && fresh(h) && h.Ready() && IsModelLoaded(h) && !h.cancel
      && h.nCtx == ResolveContextSize(nCtx) && h.path == path.value && err.message == ""
    ensures lib.log == old(lib.log) + LoadEvents(PathGiven(path),
      PathGiven(path) && loadModel(path.value, nGpuLayers), createContext(ParamsFor(nCtx)))
  {
    err.Clear();
    if path.None? || |path.value| == 0 {
      err.Set(ModelPathEmpty);
      return null;
    }
    var internal := new Handle();
    internal.path := path.value;
    internal.nCtx := ResolveContextSize(nCtx);

    internal.model := loadModel(path.value, nGpuLayers);
    if !internal.model {
      err.Set(ModelLoadFailed(path.value));
      lib.log := lib.log + [Allocated(HandleObject), Released(HandleObject)];
      return null;
    }

    internal.ctx := createContext(ParamsFor(nCtx));
    if !internal.ctx {
      err.Set(ContextCreateFailed);
      internal.model := false;
      lib.log := lib.log
        + [Allocated(HandleObject), Allocated(Model), Released(Model), Released(HandleObject)];
      return null;
    }
    lib.log := lib.log + [Allocated(HandleObject), Allocated(Model), Allocated(Context)];
    h := internal;
  }

  /**
   * `llama_wrapper_unload_model`: a no-op on null; otherwise releases the
   * sampler, the context and the model, whichever are present, and then the
   * handle, which the caller must not use again.
   */
  method UnloadModel(h: Handle?, lib: Library)
    modifies h, lib
    ensures h == null ==> lib.log == old(lib.log)
    ensures h != null ==>
      && !h.model && !h.ctx && h.sampler == None && !IsModelLoaded(h)
      && h.cancel == old(h.cancel) && h.nCtx == old(h.nCtx) && h.path == old(h.path)
      && lib.log == old(lib.log) + UnloadEvents(old(h.sampler), old(h.ctx), old(h.model))
  {
    if h == null {
      return;
    }
    ghost var released: seq<Event> := [];
    if h.sampler.Some? {
      released := released + [Released(Sampler(h.sampler.value))];
      h.sampler := None;
    }
    if h.ctx {
      released := released + [Released(Context)];
      h.ctx := false;
    }
    if h.model {
      released := released + [Released(Model)];
      h.model := false;
    }
    lib.log := lib.log + released + [Released(HandleObject)];
  }

  /**
   * `llama_wrapper_generate`, holding the handle's generate lock throughout.
   * Returns the code and the tokens whose pieces went to the callback; both,
   * and the error slot, are those of `GenerateReply`. The handle is ready
   * again on every return, with no sampler attached.
   */
  method Generate(h: Handle?, prompt: Option<string>, maxTokens: int,
                  temperature: real, topP: real, callback: Option<Callback>,
                  o: Oracle, err: ErrorChannel, lib: Library)
    returns (n: int, emitted: seq<Token>)
    requires h != null ==> h.Ready()
    modifies h, err, lib
    ensures var r := GenerateReply(h != null, prompt.Some?, maxTokens, callback, o);
            n == r.code && emitted == r.emitted && err.message == r.message
    ensures lib.log == old(lib.log)
                       + GenerateEvents(ChainUsed(h != null, prompt.Some?, temperature, topP, o))
    ensures h != null ==> h.Ready() && h.nCtx == old(h.nCtx) && h.path == old(h.path)
    ensures h != null && prompt == None ==> h.cancel == old(h.cancel)
    ensures h != null && prompt.Some? ==>
      (h.cancel <==> n >= 0 && Loop(o, maxTokens, callback, 0).reason == Cancelled)
  {
    if h == null {
      err.Set(ContextIsNull);
      return -1, [];
    }
    if prompt == None {
      err.Set(PromptIsNull);
      return -2, [];
    }
    h.cancel := false;
    err.Clear();

    var nTokens := o.tokenized;
    if nTokens < 0 {
      err.Set(TokenizeFailed);
      return -3, [];
    }

    var chain := ChooseChain(temperature, topP);
    lib.log := lib.log + [Allocated(Sampler(chain))];
    h.sampler := Some(chain);

    if !o.promptDecodes {
      err.Set(PromptDecodeFailed);
      lib.log := lib.log + [Released(Sampler(chain))];
      h.sampler := None;
      return -4, [];
    }

    n, emitted := EmitTokens(h, maxTokens, callback, o, err);

    lib.log := lib.log + [Released(Sampler(chain))];
    h.sampler := None;
  }

  /**
   * The emit loop of `llama_wrapper_generate` (cpp:219-265), run with the
   * chain attached, the cancel flag and the error slot cleared. It returns
   * the count and the shown tokens of `Loop`, writes the error slot only on a
   * failed token decode, and leaves the flag set only after a cancel stop.
   */
  method EmitTokens(h: Handle, maxTokens: int, callback: Option<Callback>,
                    o: Oracle, err: ErrorChannel)
    returns (n: int, emitted: seq<Token>)
    requires h.model && h.ctx && h.sampler.Some? && !h.cancel && err.message == ""
    modifies h, err
    ensures var run := Loop(o, maxTokens, callback, 0);
            && n == |run.produced| && emitted == run.emitted
            && err.message == (if run.reason == DecodeFailed then TokenDecodeFailed else "")
            && (h.cancel <==> run.reason == Cancelled)
    ensures h.model && h.ctx && h.sampler == old(h.sampler)
    ensures h.nCtx == old(h.nCtx) && h.path == old(h.path)
  {
    n, emitted := 0, [];
    ghost var produced: seq<Token> := [];
    ghost var reason := Exhausted;
    ghost var stopped := false;
    while n < maxTokens
      invariant 0 <= n == |produced|
      invariant RunSoFar(o, maxTokens, callback, n, produced, emitted)
      invariant h.model && h.ctx && h.sampler == old(h.sampler) && !h.cancel
      invariant h.nCtx == old(h.nCtx) && h.path == old(h.path)
      invariant err.message == ""
      decreases maxTokens - n
    {
      if o.cancelled(n) {
        CancelGenerate(h);
      }
      if h.cancel {
        reason, stopped := Cancelled, true;
        Finish(o, maxTokens, callback, n, produced, emitted, reason);
        break;
      }
      var token := o.sampled(n);
      if o.isEog(token) {
        reason, stopped := EndOfGeneration, true;
        Finish(o, maxTokens, callback, n, produced, emitted, reason);
        break;
      }
      var tokenLen := o.pieceLen(token);
      ghost var before := emitted;
      if tokenLen > 0 {
        if callback.Some? {
          emitted := emitted + [token];
          var result := callback.value(n);
          if result != 0 {
            reason, stopped := CallbackStop, true;
            Finish(o, maxTokens, callback, n, produced, before, reason);
            break;
          }
        }
      }
      if !o.decodes(n) {
        err.Set(TokenDecodeFailed);
        reason, stopped := DecodeFailed, true;
        Finish(o, maxTokens, callback, n, produced, before, reason);
        break;
      }
      assert emitted == before + (if Shown(o, callback, token) then [token] else []);
      Advance(o, maxTokens, callback, n, produced, before);
      produced := produced + [token];
      n := n + 1;
    }
    if !stopped {
      Finish(o, maxTokens, callback, n, produced, emitted, reason);
    }
    assert Loop(o, maxTokens, callback, 0) == Run(produced, reason, emitted);
  }

  /** `llama_wrapper_cancel_generate`: raises the flag; nothing on null. */
  method CancelGenerate(h: Handle?)
    modifies h
    ensures h != null ==> h.cancel
    ensures h != null ==>
      && h.model == old(h.model) && h.ctx == old(h.ctx) && h.sampler == old(h.sampler)
      && h.nCtx == old(h.nCtx) && h.path == old(h.path)
  {
    if h == null {
      return;
    }
    h.cancel := true;
  }

  /** `llama_wrapper_is_model_loaded`: never true of null or of a handle missing either part. */
  function IsModelLoaded(h: Handle?): (loaded: bool)
    reads h
    ensures loaded ==> h != null && h.model && h.ctx
    ensures h != null && h.Ready() ==> loaded
  {
    h != null && h.model && h.ctx
  }

  function DigitChar(d: nat): char
    requires d < 10
  {
    "0123456789"[d]
  }

  /** `%d` of a non-negative number. */
  function Digits(x: nat): (s: string)
    ensures |s| > 0
    decreases x
  {
    if x < 10 then [DigitChar(x)] else Digits(x / 10) + [DigitChar(x % 10)]
  }

  /** `%d`. */
  function Decimal(x: int): string {
    if x < 0 then "-" + Digits(-x) else Digits(x)
  }

  /** The text `get_model_info` formats; the path goes in without escaping. */
  function InfoText(nCtx: int, nVocab: int, path: string): string {
    "{\"n_ctx\":" + Decimal(nCtx) + ",\"n_vocab\":" + Decimal(nVocab)
      + ",\"model_path\":\"" + path + "\"}"
  }

  /**
   * `llama_wrapper_get_model_info`: "{}" for a null handle, a handle without
   * a model or a missing vocabulary (`nVocab` is the library's answer);
   * otherwise the info text cut to what fits the 1024-byte buffer.
   */
  function ModelInfo(h: Handle?, nVocab: Option<int>): (info: string)
    reads h
    ensures h == null || !h.model || nVocab == None ==> info == "{}"
    ensures h != null && h.model && nVocab.Some? ==>
      var full := InfoText(h.nCtx, nVocab.value, h.path);
      info <= full && (info == full || |info| == InfoCapacity)
    ensures |info| <= InfoCapacity
  {
    if h == null || !h.model || nVocab == None then "{}"
    else
      var full := InfoText(h.nCtx, nVocab.value, h.path);
      if |full| <= InfoCapacity then full else full[..InfoCapacity]
  }
}
