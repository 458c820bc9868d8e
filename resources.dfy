/**
 * What the wrapper takes from and gives back to llama.cpp: a log of
 * allocations and releases, so that "nothing leaks" can be stated.
 */
module Resources {
  import opened Sampling

  datatype Resource =
    | HandleObject                     // the `LlamaContextInternal` itself
    | Model
    | Context
    | Sampler(chain: Chain)

  datatype Event = Allocated(res: Resource) | Released(res: Resource)

  /** How many of `r` the log leaves alive: allocations minus releases. */
  function Live(log: seq<Event>, r: Resource): int {
    (multiset(log)[Allocated(r)] as int) - (multiset(log)[Released(r)] as int)
  }

  /** The library's bookkeeping, updated by the wrapper's operations. */
  class Library {
    ghost var log: seq<Event>

    constructor ()
      ensures log == []
    {
      log := [];
    }
  }
}
