/** Optional values, results and the python exceptions the modelled code raises. */
module Wrappers {

  datatype Option<+T> = None | Some(value: T)

  /** The exceptions of the modelled code that a caller can observe. */
  datatype Error =
    | KeyError(key: string)              // `d[key]` on a dict without that key
    | TypeError                          // an operation applied to a value of the wrong type
    | AttributeError(attribute: string)  // an attribute the object does not have
    | ValueError(check: string)          // a failed validation, named by what was checked
    | OverflowError                      // datetime arithmetic before year 1
    | FileNotFoundError                  // no data root for the user
    | ZeroDivisionError                  // a division by a zero frequency

  datatype Result<+T> = Ok(value: T) | Err(error: Error)
  {
    predicate IsFailure() { Err? }

    function PropagateFailure<U>(): Result<U>
      requires Err?
    {
      Err(error)
    }

    function Extract(): T
      requires Ok?
    {
      value
    }
  }

  /** A sequence cut around its element at `i`. */
  lemma SplitAround<T>(s: seq<T>, i: nat)
    requires i < |s|
    ensures s == s[..i] + s[i..] && s[i..] == [s[i]] + s[i + 1..]
  {
  }

  /** A prefix one element longer is the shorter prefix and that element. */
  lemma TakeSnoc<T>(s: seq<T>, k: nat)
    requires 0 < k <= |s|
    ensures s[..k] == s[..k - 1] + [s[k - 1]]
  {
  }

  /** A sequence of three elements is the display of those three. */
  lemma Three<T>(s: seq<T>, a: T, b: T, c: T)
    requires |s| == 3 && s[0] == a && s[1] == b && s[2] == c
    ensures s == [a, b, c]
  {
  }
}
