/** The states a step function goes through on a sequence of inputs. */
module Traces {

  ghost function StatesFrom<S, I>(step: (S, I) -> S, start: S, inputs: seq<I>): (states: seq<S>)
    ensures |states| == |inputs| + 1 && states[0] == start
    ensures forall k | 0 <= k < |inputs| :: states[k + 1] == step(states[k], inputs[k])
  {
    if inputs == [] then [start]
    else
      var n := |inputs| - 1;
      var before := StatesFrom(step, start, inputs[..n]);
      before + [step(before[n], inputs[n])]
  }
}
