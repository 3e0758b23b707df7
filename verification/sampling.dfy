/** What a well-behaved remote service returns, and why cutting a retrieval
    into requests and joining the answers gives back the uncut retrieval.

    The service is taken to sample one fixed signal on one fixed time grid:
    a request `(start, duration, ids)` is answered with one row per grid time
    in `[start, start + duration)` and, in each row, one entry per requested
    channel in request order. */
module Sampling {
  import opened Basics
  import opened Planner
  import opened Assembly

  /** The value of channel `id` at time `t` (microseconds). */
  type Signal = (int, int) -> int

  /** The grid times in `[a, b)`: the multiples of `period`, in order. */
  function SampleTimes(a: int, b: int, period: nat): (ts: seq<int>)
    requires period > 0
    ensures forall k :: 0 <= k < |ts| ==> a <= ts[k] < b && ts[k] % period == 0
    ensures forall t :: a <= t < b && t % period == 0 ==> t in ts
    ensures StrictlyIncreasing(ts)
    decreases b - a
  {
    if a >= b then []
    else
      var rest := SampleTimes(a + 1, b, period);
      if a % period == 0 then [a] + rest else rest
  }

  /** Consecutive intervals have consecutive grid times. */
  lemma {:induction false} SampleTimesSplit(a: int, b: int, c: int, period: nat)
    requires period > 0 && a <= b <= c
    ensures SampleTimes(a, c, period) == SampleTimes(a, b, period) + SampleTimes(b, c, period)
    decreases b - a
  {
    if a < b {
      SampleTimesSplit(a + 1, b, c, period);
    }
  }

  /** The entries of the requested channels at time `t`. */
  function Row(signal: Signal, ids: seq<int>, t: int): seq<int>
  {
    seq(|ids|, j requires 0 <= j < |ids| => signal(ids[j], t))
  }

  /** The rows for the times `ts`. */
  function RowsAt(signal: Signal, ids: seq<int>, ts: seq<int>): seq<seq<int>>
  {
    seq(|ts|, i requires 0 <= i < |ts| => Row(signal, ids, ts[i]))
  }

  /** The service's answer to `req`. */
  function Recording(signal: Signal, period: nat, req: Request): (m: Matrix)
    requires period > 0
    ensures m.Rectangular() && m.width == |req.ids|
  {
    Matrix(|req.ids|, RowsAt(signal, req.ids, SampleTimes(req.start, req.start + req.duration, period)))
  }

  /** The answers to a list of requests, in order. */
  function Answers(signal: Signal, period: nat, reqs: seq<Request>): (ms: seq<Matrix>)
    requires period > 0
    ensures |ms| == |reqs| && forall k :: 0 <= k < |reqs| ==> ms[k] == Recording(signal, period, reqs[k])
  {
    seq(|reqs|, k requires 0 <= k < |reqs| => Recording(signal, period, reqs[k]))
  }

  /** The answers as the `data` list of `get_iEEG_data`: none missing. */
  function Received(ms: seq<Matrix>): (parts: seq<Option<Matrix>>)
    ensures |parts| == |ms| && forall k :: 0 <= k < |ms| ==> parts[k] == Some(ms[k])
  {
    seq(|ms|, k requires 0 <= k < |ms| => Some(ms[k]))
  }

  lemma RowsAtAppend(signal: Signal, ids: seq<int>, ts1: seq<int>, ts2: seq<int>)
    ensures RowsAt(signal, ids, ts1 + ts2) == RowsAt(signal, ids, ts1) + RowsAt(signal, ids, ts2)
  {
  }

  lemma RowAppend(signal: Signal, ids: seq<int>, n: nat, t: int)
    requires n <= |ids|
    ensures Row(signal, ids[..n], t) + Row(signal, ids[n..], t) == Row(signal, ids, t)
  {
  }

  lemma AnswersTail(signal: Signal, period: nat, reqs: seq<Request>)
    requires period > 0 && |reqs| > 0
    ensures Answers(signal, period, reqs)[1..] == Answers(signal, period, reqs[1..])
  {
  }

  /** The answer to the first clip of a long clip, and the answers to the
      clips after it. */
  lemma AnswersTimeChunksUnfold(signal: Signal, period: nat, clipStart: int, stop: int, ids: seq<int>)
    requires period > 0 && clipStart + ClipSize < stop
    ensures var ms := Answers(signal, period, TimeChunks(clipStart, stop, ids));
            && |ms| > 1
            && ms[0] == Recording(signal, period, Request(clipStart, ClipSize, ids))
            && ms[1..] == Answers(signal, period, TimeChunks(clipStart + ClipSize, stop, ids))
  {
    var reqs := TimeChunks(clipStart, stop, ids);
    assert reqs[1..] == TimeChunks(clipStart + ClipSize, stop, ids);
    AnswersTail(signal, period, reqs);
  }

  /** The answer to the request for `[a, b)` has the rows at the grid times
      of `[a, b)`. */
  lemma RecordingSpan(signal: Signal, period: nat, ids: seq<int>, a: int, b: int)
    requires period > 0 && a <= b
    ensures Recording(signal, period, Request(a, b - a, ids)).rows == RowsAt(signal, ids, SampleTimes(a, b, period))
  {
    assert a + (b - a) == b;
  }

  /** One step of the stacking: the first answer's rows on top of the rest's. */
  lemma StackStep(signal: Signal, period: nat, ids: seq<int>, a: int, mid: int, stop: int, ms: seq<Matrix>)
    requires period > 0 && a <= mid <= stop && |ms| > 1
    requires ms[0] == Recording(signal, period, Request(a, mid - a, ids))
    requires VStack(ms[1..]).rows == RowsAt(signal, ids, SampleTimes(mid, stop, period))
    ensures VStack(ms).rows == RowsAt(signal, ids, SampleTimes(a, stop, period))
  {
    var ts1 := SampleTimes(a, mid, period);
    var ts2 := SampleTimes(mid, stop, period);
    calc {
      VStack(ms).rows;
    == { VStackCons(ms); }
      ms[0].rows + VStack(ms[1..]).rows;
    == { RecordingSpan(signal, period, ids, a, mid); }
      RowsAt(signal, ids, ts1) + RowsAt(signal, ids, ts2);
    == { RowsAtAppend(signal, ids, ts1, ts2); }
      RowsAt(signal, ids, ts1 + ts2);
    == { SampleTimesSplit(a, mid, stop, period); }
      RowsAt(signal, ids, SampleTimes(a, stop, period));
    }
  }

  /** Stacking the answers to consecutive clips gives the rows of the answer
      to the whole clip. */
  lemma {:induction false} TimeChunksStack(signal: Signal, period: nat, clipStart: int, stop: int, ids: seq<int>)
    requires period > 0 && clipStart < stop
    ensures VStack(Answers(signal, period, TimeChunks(clipStart, stop, ids))).rows ==
              RowsAt(signal, ids, SampleTimes(clipStart, stop, period))
    decreases stop - clipStart
  {
    if clipStart + ClipSize < stop {
      var mid := clipStart + ClipSize;
      AnswersTimeChunksUnfold(signal, period, clipStart, stop, ids);
      TimeChunksStack(signal, period, mid, stop, ids);
      StackStep(signal, period, ids, clipStart, mid, stop, Answers(signal, period, TimeChunks(clipStart, stop, ids)));
    }
  }

  /** The array whose rows are the first group's rows followed by the rest's
      rows is the array for all the channels. */
  lemma JoinMatrices(signal: Signal, period: nat, start: int, duration: int, ids: seq<int>, n: nat,
                     m: Matrix, rest: Matrix, h: Matrix)
    requires period > 0 && 0 < n < |ids|
    requires m == Recording(signal, period, Request(start, duration, ids[..n]))
    requires rest == Recording(signal, period, Request(start, duration, ids[n..]))
    requires h.width == m.width + rest.width && |h.rows| == |m.rows|
    requires forall i :: 0 <= i < |m.rows| ==> h.rows[i] == m.rows[i] + rest.rows[i]
    ensures h == Recording(signal, period, Request(start, duration, ids))
  {
    var ts := SampleTimes(start, start + duration, period);
    forall i | 0 <= i < |ts|
      ensures h.rows[i] == RowsAt(signal, ids, ts)[i]
    {
      RowAppend(signal, ids, n, ts[i]);
    }
  }

  /** One step of the joining: the first group's columns left of the rest's. */
  lemma JoinStep(signal: Signal, period: nat, start: int, duration: int, ids: seq<int>, n: nat, ms: seq<Matrix>)
    requires period > 0 && 0 < n < |ids| && |ms| > 1
    requires forall k :: 0 <= k < |ms| ==> ms[k].Height() == ms[0].Height()
    requires ms[0] == Recording(signal, period, Request(start, duration, ids[..n]))
    requires HStack(ms[1..]) == Recording(signal, period, Request(start, duration, ids[n..]))
    ensures HStack(ms) == Recording(signal, period, Request(start, duration, ids))
  {
    HStackCons(ms);
    JoinMatrices(signal, period, start, duration, ids, n, ms[0], HStack(ms[1..]), HStack(ms));
  }

  /** Every channel group is answered over the same grid times. */
  lemma ChannelAnswersSameHeight(signal: Signal, period: nat, start: int, duration: int, ids: seq<int>)
    requires period > 0
    ensures var ms := Answers(signal, period, ChannelChunks(start, duration, ids));
            forall k :: 0 <= k < |ms| ==> ms[k].Height() == |SampleTimes(start, start + duration, period)|
  {
  }

  /** The answer to the first channel group, and the answers to the groups
      after it. */
  lemma AnswersChannelChunksUnfold(signal: Signal, period: nat, start: int, duration: int, ids: seq<int>)
    requires period > 0 && ChannelSize < |ids|
    ensures var ms := Answers(signal, period, ChannelChunks(start, duration, ids));
            && |ms| > 1
            && ms[0] == Recording(signal, period, Request(start, duration, ids[..ChannelSize]))
            && ms[1..] == Answers(signal, period, ChannelChunks(start, duration, ids[ChannelSize..]))
  {
    var reqs := ChannelChunks(start, duration, ids);
    assert reqs[1..] == ChannelChunks(start, duration, ids[ChannelSize..]);
    AnswersTail(signal, period, reqs);
  }

  /** Putting the answers to consecutive channel groups side by side gives
      the answer for all the channels. */
  lemma {:induction false} ChannelChunksJoin(signal: Signal, period: nat, start: int, duration: int, ids: seq<int>)
    requires period > 0 && |ids| > 0
    ensures var ms := Answers(signal, period, ChannelChunks(start, duration, ids));
            && (forall k :: 0 <= k < |ms| ==> ms[k].Height() == ms[0].Height())
            && HStack(ms) == Recording(signal, period, Request(start, duration, ids))
    decreases |ids|
  {
    ChannelAnswersSameHeight(signal, period, start, duration, ids);
    if ChannelSize < |ids| {
      ChannelChunksJoin(signal, period, start, duration, ids[ChannelSize..]);
      AnswersChannelChunksUnfold(signal, period, start, duration, ids);
      JoinStep(signal, period, start, duration, ids, ChannelSize,
               Answers(signal, period, ChannelChunks(start, duration, ids)));
    } else {
      assert ids[..|ids|] == ids && ids[|ids|..] == [];
      assert ChannelChunks(start, duration, ids) == [Request(start, duration, ids)];
    }
  }

  /** `np.concatenate` of arrays that are all there and that agree in width
      (sample axis) or in height (channel axis) stacks them or puts them
      side by side. */
  lemma ConcatenateReceived(ms: seq<Matrix>, axis: Axis)
    requires |ms| > 0
    requires axis == Rows ==> forall k :: 0 <= k < |ms| ==> ms[k].width == ms[0].width
    requires axis == Columns ==> forall k :: 0 <= k < |ms| ==> ms[k].Height() == ms[0].Height()
    ensures Concatenate(Received(ms), axis) == Ok(if axis == Rows then VStack(ms) else HStack(ms))
  {
    var parts := Received(ms);
    assert seq(|parts|, k requires 0 <= k < |parts| => parts[k].value) == ms;
  }

  /** Joining the answers to consecutive clips along the sample axis, as the
      code does for a long clip, gives back the answer for the whole clip. */
  lemma ConcatenateTimeChunks(signal: Signal, period: nat, start: int, stop: int, ids: seq<int>)
    requires period > 0 && start < stop
    ensures Concatenate(Received(Answers(signal, period, TimeChunks(start, stop, ids))), Rows) ==
              Ok(Recording(signal, period, Request(start, stop - start, ids)))
  {
    var ms := Answers(signal, period, TimeChunks(start, stop, ids));
    ConcatenateReceived(ms, Rows);
    TimeChunksStack(signal, period, start, stop, ids);
    RecordingSpan(signal, period, ids, start, stop);
  }

  /** Joining the answers to channel groups along the channel axis, as the code
      does for a short clip, gives back the answer for all the channels. */
  lemma ConcatenateChannelChunks(signal: Signal, period: nat, start: int, duration: int, ids: seq<int>)
    requires period > 0 && |ids| > 0
    ensures Concatenate(Received(Answers(signal, period, ChannelChunks(start, duration, ids))), Columns) ==
              Ok(Recording(signal, period, Request(start, duration, ids)))
  {
    ChannelChunksJoin(signal, period, start, duration, ids);
    ConcatenateReceived(Answers(signal, period, ChannelChunks(start, duration, ids)), Columns);
  }
}
