/**
 * Error values and the two result shapes the backup tool uses: a
 * `Result<T>` for an operation that returns a value or an error (Go's
 * `(T, error)` pair) and an `Outcome` for one that returns only an error.
 */
module Outcomes {

  /** Go errors as the tool builds them: a cause coming from a foreign
      library, or a context string wrapped around an inner error with
      `fmt.Errorf("<context>: %w", inner)`. */
  datatype Error =
    | Cause(description: string)
    | Wrapped(context: string, inner: Error)

  datatype Result<+T> = Ok(value: T) | Err(error: Error)

  datatype Outcome = Pass | Fail(error: Error)

  datatype Option<+T> = None | Some(value: T)

  /** `errors.Is` for errors compared by value: `target` is `e` or is
      reached from `e` by a chain of unwraps. */
  predicate Is(e: Error, target: Error)
  {
    e == target || (e.Wrapped? && Is(e.inner, target))
  }

  /** Index of the first element satisfying `p`, or `|s|` if there is none. */
  function FirstWhere<T>(s: seq<T>, p: T -> bool): (k: nat)
    ensures k <= |s|
    ensures forall i :: 0 <= i < k ==> !p(s[i])
    ensures k < |s| ==> p(s[k])
  {
    if s == [] then 0
    else if p(s[0]) then 0
    else 1 + FirstWhere(s[1..], p)
  }

  /** The elements of `s` in the opposite order; taking the last element
      first is how a LIFO stack is drained. */
  function Reversed<T>(s: seq<T>): (r: seq<T>)
    ensures |r| == |s|
    ensures forall i :: 0 <= i < |s| ==> r[i] == s[|s| - 1 - i]
  {
    if s == [] then [] else [s[|s| - 1]] + Reversed(s[..|s| - 1])
  }
}
