/** Shared building blocks: an optional value, a result that carries one of
    the exceptions the retrieval tools can raise, and small sequence helpers. */
module Basics {

  /** Python's `None` or a value. */
  datatype Option<+T> = None | Some(value: T)

  /** The exceptions (and the one internal failure) the modelled code can end in. */
  datatype Error =
    | IndexError            // `electrodes[0]` on an empty list, or a channel id outside the label list
    | ChannelNotInIeeg      // ValueError("Channel not in iEEG")
    | FailedToOpenDataset   // ValueError("Failed to open dataset")
    | NotALabel             // a label cleaner applied to an integer electrode
    | NoLeadMatch           // `.group` called on a regex match that was None
    | NothingToConcatenate  // np.concatenate of an empty list
    | ConcatenateNone       // np.concatenate of a list holding None
    | ShapeMismatch         // np.concatenate of blocks whose other dimension differs
    | ColumnCountMismatch   // pd.DataFrame given a different number of column names

  /** A value or the exception that was raised instead; usable with `:-`. */
  datatype Result<+T> = Ok(value: T) | Err(error: Error) {

    predicate IsFailure() {
      Err?
    }

    function PropagateFailure<U>(): Result<U>
      requires Err?
    {
      Err(error)
    }

    function Extract(): T
      requires Ok?
    {
      value
    }
  }

  /** The concatenation of a list of lists, in order. */
  function Flatten<T>(xss: seq<seq<T>>): seq<T>
  {
    if |xss| == 0 then [] else xss[0] + Flatten(xss[1..])
  }

  lemma {:induction false} FlattenAppend<T>(xss: seq<seq<T>>, yss: seq<seq<T>>)
    ensures Flatten(xss + yss) == Flatten(xss) + Flatten(yss)
  {
    if |xss| == 0 {
      assert xss + yss == yss;
    } else {
      assert (xss + yss)[1..] == xss[1..] + yss;
      FlattenAppend(xss[1..], yss);
    }
  }

  /** Every element is larger than the one before it. */
  predicate StrictlyIncreasing(xs: seq<int>)
  {
    forall i, j :: 0 <= i < j < |xs| ==> xs[i] < xs[j]
  }

  /** `range(n)` as a list. */
  function Range(n: nat): (r: seq<int>)
    ensures |r| == n
    ensures forall i :: 0 <= i < n ==> r[i] == i
  {
    seq(n, i => i)
  }
}
