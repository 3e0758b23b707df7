/** How `get_iEEG_data` cuts one retrieval into remote requests: one request
    when the clip is short and has few channels, otherwise consecutive clips
    of `ClipSize` microseconds when the clip is long, otherwise groups of
    `ChannelSize` channels. Times are whole microseconds. */
module Planner {
  import opened Basics

  /** `CLIP_DURATION_LIMIT`: 120 s. */
  const ClipDurationLimit: int := 120_000_000
  /** `MAX_CHANNELS_AT_ONCE`. */
  const MaxChannelsAtOnce: int := 100
  /** `CLIP_SIZE`: 60 s. */
  const ClipSize: int := 60_000_000
  /** `CHANNEL_SIZE`. */
  const ChannelSize: int := 20

  /** One call of `_pull_iEEG(dataset, start, duration, channel_ids)`. */
  datatype Request = Request(start: int, duration: int, ids: seq<int>)

  /** Which of the three branches the request was cut by. */
  datatype Split = Whole | ByTime | ByChannel

  datatype Plan = Plan(split: Split, requests: seq<Request>)

  /** The clips `range(clip_start, stop, CLIP_SIZE)`, each
      `min(CLIP_SIZE, stop - clip_start)` long. */
  function TimeChunks(clipStart: int, stop: int, ids: seq<int>): (r: seq<Request>)
    ensures clipStart >= stop ==> r == []
    ensures clipStart < stop ==> |r| > 0 && r[0].start == clipStart
    ensures forall k :: 0 <= k < |r| ==> r[k].start == clipStart + k * ClipSize && r[k].ids == ids
    ensures forall k :: 0 <= k < |r| ==> 0 < r[k].duration <= ClipSize
    ensures forall k :: 0 <= k < |r| - 1 ==> r[k].duration == ClipSize
    ensures |r| > 0 ==> r[|r| - 1].start + r[|r| - 1].duration == stop
    decreases stop - clipStart
  {
    if clipStart >= stop then []
    else
      var duration := if ClipSize < stop - clipStart then ClipSize else stop - clipStart;
      [Request(clipStart, duration, ids)] + TimeChunks(clipStart + ClipSize, stop, ids)
  }

  /** Each clip starts where the previous one ends. */
  lemma TimeChunksContiguous(clipStart: int, stop: int, ids: seq<int>)
    ensures var r := TimeChunks(clipStart, stop, ids);
            forall k :: 0 <= k < |r| - 1 ==> r[k].start + r[k].duration == r[k + 1].start
  {
    var r := TimeChunks(clipStart, stop, ids);
    forall k | 0 <= k < |r| - 1
      ensures r[k].start + r[k].duration == r[k + 1].start
    {
      assert (k + 1) * ClipSize == k * ClipSize + ClipSize;
    }
  }

  /** The clips' durations add up to the whole clip. */
  lemma {:induction false} TimeChunksTotal(clipStart: int, stop: int, ids: seq<int>)
    requires clipStart < stop
    ensures TotalDuration(TimeChunks(clipStart, stop, ids)) == stop - clipStart
    decreases stop - clipStart
  {
    var r := TimeChunks(clipStart, stop, ids);
    var rest := TimeChunks(clipStart + ClipSize, stop, ids);
    assert r[1..] == rest;
    if clipStart + ClipSize < stop {
      TimeChunksTotal(clipStart + ClipSize, stop, ids);
    }
  }

  /** The number of clips is the clip's length divided by `ClipSize`, rounded up. */
  lemma {:induction false} TimeChunksCount(clipStart: int, stop: int, ids: seq<int>)
    requires clipStart < stop
    ensures |TimeChunks(clipStart, stop, ids)| == (stop - clipStart + ClipSize - 1) / ClipSize
    decreases stop - clipStart
  {
    if clipStart + ClipSize < stop {
      TimeChunksCount(clipStart + ClipSize, stop, ids);
    }
  }

  function TotalDuration(rs: seq<Request>): int
  {
    if |rs| == 0 then 0 else rs[0].duration + TotalDuration(rs[1..])
  }

  /** The groups `channel_ids[i:i + CHANNEL_SIZE]` for `i` in
      `range(0, len(channel_ids), CHANNEL_SIZE)`, each over the whole clip. */
  function ChannelChunks(start: int, duration: int, ids: seq<int>): (r: seq<Request>)
    ensures |ids| == 0 <==> r == []
    ensures forall k :: 0 <= k < |r| ==> r[k].start == start && r[k].duration == duration
    ensures forall k :: 0 <= k < |r| ==> 0 < |r[k].ids| <= ChannelSize
    ensures forall k :: 0 <= k < |r| - 1 ==> |r[k].ids| == ChannelSize
    decreases |ids|
  {
    if |ids| == 0 then []
    else
      var n := if |ids| < ChannelSize then |ids| else ChannelSize;
      [Request(start, duration, ids[..n])] + ChannelChunks(start, duration, ids[n..])
  }

  /** The ids of every request, in request order. */
  function IdsOf(rs: seq<Request>): (r: seq<seq<int>>)
    ensures |r| == |rs| && forall k :: 0 <= k < |rs| ==> r[k] == rs[k].ids
  {
    seq(|rs|, k requires 0 <= k < |rs| => rs[k].ids)
  }

  /** The channel groups, read in order, are exactly the chosen channels. */
  lemma {:induction false} ChannelChunksCover(start: int, duration: int, ids: seq<int>)
    ensures Flatten(IdsOf(ChannelChunks(start, duration, ids))) == ids
    decreases |ids|
  {
    if |ids| > 0 {
      var n := if |ids| < ChannelSize then |ids| else ChannelSize;
      var r := ChannelChunks(start, duration, ids);
      ChannelChunksCover(start, duration, ids[n..]);
      assert IdsOf(r)[1..] == IdsOf(ChannelChunks(start, duration, ids[n..]));
      assert ids == ids[..n] + ids[n..];
    }
  }

  /** The branch `get_iEEG_data` takes for a clip of `duration` over `count` channels. */
  function SplitFor(duration: int, count: nat): (s: Split)
    ensures s == Whole <==> duration < ClipDurationLimit && count < MaxChannelsAtOnce
    ensures s == ByTime <==> duration > ClipDurationLimit
    ensures s == ByChannel <==> duration <= ClipDurationLimit && (duration == ClipDurationLimit || count >= MaxChannelsAtOnce)
  {
    if duration < ClipDurationLimit && count < MaxChannelsAtOnce then Whole
    else if duration > ClipDurationLimit then ByTime
    else ByChannel
  }

  /** The requests `get_iEEG_data` sends for `[start, stop)` over `ids`. The
      contract names the branch taken; what the requests of each branch are
      is stated by `TimeChunks`, `ChannelChunks` and `PlanRequestBounds`. */
  function PlanRequests(start: int, stop: int, ids: seq<int>): (p: Plan)
    ensures p.split == SplitFor(stop - start, |ids|)
    ensures p.split == Whole ==> p.requests == [Request(start, stop - start, ids)]
    ensures p.split == ByTime ==> p.requests == TimeChunks(start, stop, ids)
    ensures p.split == ByChannel ==> p.requests == ChannelChunks(start, stop - start, ids)
  {
    var duration := stop - start;
    match SplitFor(duration, |ids|)
    case Whole => Plan(Whole, [Request(start, duration, ids)])
    case ByTime => Plan(ByTime, TimeChunks(start, stop, ids))
    case ByChannel => Plan(ByChannel, ChannelChunks(start, duration, ids))
  }

  /** Every request of a plan asks for at most `ClipDurationLimit` microseconds;
      a request over 100 channels or more can still be sent when the clip is
      long, since clips carry every chosen channel. */
  lemma PlanRequestBounds(start: int, stop: int, ids: seq<int>)
    ensures var p := PlanRequests(start, stop, ids);
            forall k :: 0 <= k < |p.requests| ==> p.requests[k].duration <= ClipDurationLimit
    ensures var p := PlanRequests(start, stop, ids);
            p.split == ByChannel ==> forall k :: 0 <= k < |p.requests| ==> |p.requests[k].ids| <= ChannelSize
    ensures var p := PlanRequests(start, stop, ids);
            p.split == ByTime ==> forall k :: 0 <= k < |p.requests| ==> p.requests[k].ids == ids
  {
  }

  /** A clip of exactly `ClipDurationLimit` is never sent whole, even with a
      single channel: it is cut into channel groups. */
  lemma LimitDurationSplitsByChannel(start: int, ids: seq<int>)
    ensures PlanRequests(start, start + ClipDurationLimit, ids).split == ByChannel
    ensures PlanRequests(start, start + ClipDurationLimit, ids).requests ==
              ChannelChunks(start, ClipDurationLimit, ids)
  {
  }

  /** With no channel chosen and a clip of exactly `ClipDurationLimit`, the
      plan has no request at all. */
  lemma NoChannelsLongClipPlansNothing(start: int, stop: int)
    requires stop - start == ClipDurationLimit
    ensures PlanRequests(start, stop, []).requests == []
  {
  }
}
