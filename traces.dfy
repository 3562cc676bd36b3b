/** Sequences of events fed to a state machine one at a time. */
module Traces {

  /** The state reached from `s` by applying `step` to the events `es`,
      first one first. */
  function Run<S, E>(step: (S, E) -> S, s: S, es: seq<E>): S
    decreases |es|
  {
    if es == [] then s else Run(step, step(s, es[0]), es[1..])
  }

  /** One more event at the end is one more step after the rest. */
  lemma {:induction false} RunAppend<S, E>(step: (S, E) -> S, s: S, es: seq<E>, e: E)
    ensures Run(step, s, es + [e]) == step(Run(step, s, es), e)
    decreases |es|
  {
    if es == [] {
      assert [e][1..] == [];
    } else {
      assert (es + [e])[1..] == es[1..] + [e];
      RunAppend(step, step(s, es[0]), es[1..], e);
    }
  }
}
