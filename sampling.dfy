/** The sampler chain that generate builds before it primes the context. */
module Sampling {

  /** One stage of a llama.cpp sampler chain, with the arguments it gets. */
  datatype Stage =
    | TopP(p: real, minKeep: nat)      // nucleus filter
    | Temperature(t: real)             // reshapes the distribution
    | Dist(seed: nat)                  // categorical draw
    | Greedy                           // arg-max

  type Chain = seq<Stage>

  /** Stages that pick a token rather than transform the distribution. */
  predicate Selects(s: Stage) {
    s.Dist? || s.Greedy?
  }

  /**
   * The chain for one generate call: stochastic exactly when the temperature
   * is strictly positive, otherwise greedy with both parameters ignored.
   */
  function ChooseChain(temperature: real, topP: real): (c: Chain)
    ensures |c| > 0 && Selects(c[|c| - 1])
    ensures forall k :: 0 <= k < |c| - 1 ==> !Selects(c[k])
    ensures c == [Greedy] <==> temperature <= 0.0
    ensures temperature > 0.0 ==>
      |c| == 3 && c[0] == TopP(topP, 1) && c[1] == Temperature(temperature) && c[2] == Dist(0)
  {
    if temperature > 0.0 then
      [TopP(topP, 1), Temperature(temperature), Dist(0)]
    else
      [Greedy]
  }

  /** With a non-positive temperature neither parameter reaches the chain. */
  lemma GreedyIgnoresParameters(t1: real, p1: real, t2: real, p2: real)
    requires t1 <= 0.0 && t2 <= 0.0
    ensures ChooseChain(t1, p1) == ChooseChain(t2, p2) == [Greedy]
  {
  }
}
