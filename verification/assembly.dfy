/** The arrays the remote service returns and how `np.concatenate` joins them:
    rows are samples in time order, columns are channels in request order. */
module Assembly {
  import opened Basics

  /** A two-dimensional array: its number of columns and its rows. */
  datatype Matrix = Matrix(width: nat, rows: seq<seq<int>>)
  {
    function Height(): nat
    {
      |rows|
    }

    /** Every row has `width` entries. */
    predicate Rectangular()
    {
      forall i :: 0 <= i < |rows| ==> |rows[i]| == width
    }
  }

  /** `axis=0` stacks arrays on top of each other (more samples), `axis=1`
      puts them side by side (more channels). */
  datatype Axis = Rows | Columns

  /** The arrays on top of each other. */
  function VStack(ms: seq<Matrix>): (m: Matrix)
    requires |ms| > 0
    ensures m.width == ms[0].width
    ensures (forall k :: 0 <= k < |ms| ==> ms[k].Rectangular() && ms[k].width == ms[0].width) ==> m.Rectangular()
  {
    if |ms| == 1 then ms[0]
    else
      var rest := VStack(ms[1..]);
      assert forall k :: 1 <= k < |ms| ==> ms[k] == ms[1..][k - 1];
      Matrix(ms[0].width, ms[0].rows + rest.rows)
  }

  /** The arrays side by side; row `i` of the result is row `i` of each array,
      joined in order. */
  function HStack(ms: seq<Matrix>): (m: Matrix)
    requires |ms| > 0
    requires forall k :: 0 <= k < |ms| ==> ms[k].Height() == ms[0].Height()
    ensures m.Height() == ms[0].Height()
    ensures (forall k :: 0 <= k < |ms| ==> ms[k].Rectangular()) ==> m.Rectangular()
  {
    if |ms| == 1 then ms[0]
    else
      assert forall k :: 1 <= k < |ms| ==> ms[k] == ms[1..][k - 1];
      var rest := HStack(ms[1..]);
      Matrix(ms[0].width + rest.width,
             seq(ms[0].Height(), i requires 0 <= i < ms[0].Height() => ms[0].rows[i] + rest.rows[i]))
  }

  /** `np.concatenate(data, axis=...)` on a list whose entries may be None. */
  function Concatenate(parts: seq<Option<Matrix>>, axis: Axis): (r: Result<Matrix>)
    ensures |parts| == 0 ==> r == Err(NothingToConcatenate)
    ensures |parts| > 0 && (exists k :: 0 <= k < |parts| && parts[k].None?) ==> r == Err(ConcatenateNone)
    ensures r.Ok? ==> |parts| > 0 && forall k :: 0 <= k < |parts| ==> parts[k].Some?
    ensures r.Err? ==> r.error in {NothingToConcatenate, ConcatenateNone, ShapeMismatch}
    ensures r.Ok? && axis == Rows ==>
              forall k :: 0 <= k < |parts| ==> parts[k].value.width == r.value.width
    ensures r.Ok? && axis == Columns ==>
              forall k :: 0 <= k < |parts| ==> parts[k].value.Height() == r.value.Height()
    ensures r.Ok? && (forall k :: 0 <= k < |parts| ==> parts[k].value.Rectangular()) ==> r.value.Rectangular()
  {
    if |parts| == 0 then Err(NothingToConcatenate)
    else if exists k :: 0 <= k < |parts| && parts[k].None? then Err(ConcatenateNone)
    else
      var ms := seq(|parts|, k requires 0 <= k < |parts| => parts[k].value);
      assert forall k :: 0 <= k < |parts| ==> parts[k].value == ms[k];
      match axis
      case Rows =>
        if forall k :: 0 <= k < |ms| ==> ms[k].width == ms[0].width then Ok(VStack(ms))
        else Err(ShapeMismatch)
      case Columns =>
        if forall k :: 0 <= k < |ms| ==> ms[k].Height() == ms[0].Height() then Ok(HStack(ms))
        else Err(ShapeMismatch)
  }

  /** Joining a single array along either axis gives it back unchanged. */
  lemma ConcatenateSingle(m: Matrix, axis: Axis)
    ensures Concatenate([Some(m)], axis) == Ok(m)
  {
    var ms := seq(1, k requires 0 <= k < 1 => [Some(m)][k].value);
    assert ms == [m];
  }

  /** Stacking several arrays puts the first one's rows on top of the rest. */
  lemma VStackCons(ms: seq<Matrix>)
    requires |ms| > 1
    ensures VStack(ms).rows == ms[0].rows + VStack(ms[1..]).rows
  {
  }

  /** Side by side, row `i` is row `i` of the first array followed by row `i`
      of the rest put side by side. */
  lemma HStackCons(ms: seq<Matrix>)
    requires |ms| > 1
    requires forall k :: 0 <= k < |ms| ==> ms[k].Height() == ms[0].Height()
    ensures forall k :: 0 <= k < |ms| - 1 ==> ms[1..][k].Height() == ms[1..][0].Height()
    ensures HStack(ms).width == ms[0].width + HStack(ms[1..]).width
    ensures HStack(ms).Height() == ms[0].Height()
    ensures forall i :: 0 <= i < ms[0].Height() ==> HStack(ms).rows[i] == ms[0].rows[i] + HStack(ms[1..]).rows[i]
  {
    assert forall k :: 1 <= k < |ms| ==> ms[k] == ms[1..][k - 1];
  }

  /** Stacking two runs of arrays is stacking the two results: the rows of
      the whole are the rows of the first run followed by those of the second. */
  lemma {:induction false} VStackAppend(xs: seq<Matrix>, ys: seq<Matrix>)
    requires |xs| > 0 && |ys| > 0
    ensures VStack(xs + ys).rows == VStack(xs).rows + VStack(ys).rows
  {
    if |xs| == 1 {
      assert (xs + ys)[1..] == ys;
    } else {
      assert (xs + ys)[1..] == xs[1..] + ys;
      VStackAppend(xs[1..], ys);
    }
  }
}
