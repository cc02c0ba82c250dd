/** Values shared by the rollout and the training-loop models. */
module Common {

  /** `None` stands for a missing value; `Mean` uses it for numpy's NaN. */
  datatype Option<T> = None | Some(value: T)

  /** A flattened tensor: an observation, an action or a policy's parameter vector. */
  type Vec = seq<real>

  /** Sum of a sequence of reals, folded from the left as a running total is. */
  function Sum(s: seq<real>): real
  {
    if s == [] then 0.0 else Sum(s[..|s| - 1]) + s[|s| - 1]
  }

  /** `np.mean`: the arithmetic mean, and NaN (here `None`) for an empty list. */
  function Mean(s: seq<real>): (m: Option<real>)
    ensures m.None? <==> s == []
    ensures m.Some? ==> m.value * (|s| as real) == Sum(s)
  {
    if s == [] then None else Some(Sum(s) / (|s| as real))
  }
}
