/** `get_iEEG_data` end to end: open the dataset, optionally clean the labels,
    choose the channels, cut the retrieval into requests, pull every request
    with retries, join the answers and wrap them with their channel names and
    the sample rate.

    The remote service is a parameter: `connect(n)` is what the `n`-th attempt
    at opening the dataset and reading its labels gives (None when it raised),
    `fetch(n, req)` is what the `n`-th `get_data` call gives for `req` (calls
    are numbered across the whole retrieval), and `sampleRate(label)` is the
    sample rate the service reports for a channel. */
module Pipeline {
  import opened Basics
  import opened Labels
  import opened Selection
  import opened Retry
  import opened Planner
  import opened Assembly
  import opened Sampling

  /** The arguments of `get_iEEG_data` that shape the result; the account,
      password file and dataset name only matter to the service. */
  datatype Config = Config(
    start: int,
    stop: int,
    select: Option<Electrodes>,
    ignore: Option<Electrodes>,
    clean: bool,
    removeSubstr: Option<string>,
    delimiter: Option<string>,
    outputFile: Option<string>)

  datatype Service = Service(
    connect: nat -> Option<seq<string>>,
    fetch: (nat, Request) -> Option<Matrix>,
    sampleRate: string -> real)

  /** The `(DataFrame, sample rate)` pair: column names, data, rate. */
  datatype Frame = Frame(columns: seq<string>, data: Matrix, sampleRate: real)

  /** What a call that raised nothing ends with: the pair returned, the pair
      written to `output_file` (and None returned), or None because some
      request of a cut retrieval gave up. */
  datatype Outcome = Returned(frame: Frame) | Saved(frame: Frame) | Missing

  /** The connection loop: the labels read by the first attempt that
      succeeds among `MaxRetries`. */
  function OpenDataset(service: Service): (r: Result<seq<string>>)
    ensures r.Err? <==> AllFail(service.connect, 0, MaxRetries)
    ensures r.Err? ==> r.error == FailedToOpenDataset
    ensures r.Ok? ==> exists n: nat :: n < MaxRetries && AllFail(service.connect, 0, n) && service.connect(n) == Some(r.value)
  {
    var a := FirstSuccess(service.connect, 0, MaxRetries);
    FirstSuccessIsFirst(service.connect, 0, MaxRetries);
    if a.outcome.None? then Err(FailedToOpenDataset) else Ok(a.outcome.value)
  }

  /** A given list of channel positions. */
  predicate GivenIds(electrodes: Option<Electrodes>)
  {
    Given(electrodes) && electrodes.value.Ids?
  }

  /** `clean_labels` applied to a given electrode list; on a list of positions
      the regex step raises. */
  function CleanElectrodes(electrodes: Option<Electrodes>, removeSubstr: Option<string>, delimiter: Option<string>): (r: Result<Option<Electrodes>>)
    ensures r.Err? <==> GivenIds(electrodes)
    ensures r.Err? ==> r.error == NotALabel
    ensures r.Ok? ==> (Given(r.value) <==> Given(electrodes))
    ensures !Given(electrodes) ==> r == Ok(electrodes)
    ensures r.Ok? && Given(electrodes) ==>
              electrodes.value.Names? && r.value == Some(Names(CleanLabels(electrodes.value.names, removeSubstr, delimiter)))
  {
    if !Given(electrodes) then Ok(electrodes)
    else match electrodes.value
      case Ids(_) => Err(NotALabel)
      case Names(names) => Ok(Some(Names(CleanLabels(names, removeSubstr, delimiter))))
  }

  /** An electrode list as `get_iEEG_data` hands it to the channel choice:
      cleaned when `clean_channel_labels` is set, as given otherwise. */
  function Prepared(electrodes: Option<Electrodes>, cfg: Config): Result<Option<Electrodes>>
  {
    if cfg.clean then CleanElectrodes(electrodes, cfg.removeSubstr, cfg.delimiter) else Ok(electrodes)
  }

  /** The labels the channels are chosen and named by, the chosen positions
      and their names. */
  datatype Selected = Selected(labels: seq<string>, ids: seq<int>, names: seq<string>)

  /** The channel labels channels are chosen and named by: cleaned when
      `clean_channel_labels` is set. */
  function ChannelLabels(raw: seq<string>, cfg: Config): seq<string>
  {
    if cfg.clean then CleanLabels(raw, cfg.removeSubstr, cfg.delimiter) else raw
  }

  /** `get_iEEG_data` from the cleaning step to `channel_names`. */
  function SelectChannels(raw: seq<string>, cfg: Config): (r: Result<Selected>)
    ensures r.Ok? <==>
              && Prepared(cfg.select, cfg).Ok? && Prepared(cfg.ignore, cfg).Ok?
              && var ids := ChooseChannelIds(ChannelLabels(raw, cfg), Prepared(cfg.select, cfg).value, Prepared(cfg.ignore, cfg).value);
                 ids.Ok? && ChannelNames(ChannelLabels(raw, cfg), ids.value).Ok?
    ensures cfg.clean && (GivenIds(cfg.select) || GivenIds(cfg.ignore)) ==> r == Err(NotALabel)
    ensures r.Err? ==> r.error in {NotALabel, ChannelNotInIeeg, IndexError}
    ensures r.Ok? ==> r.value.labels == (if cfg.clean then CleanLabels(raw, cfg.removeSubstr, cfg.delimiter) else raw)
    ensures r.Ok? ==> Prepared(cfg.select, cfg).Ok? && Prepared(cfg.ignore, cfg).Ok?
    ensures r.Ok? ==>
              Ok(r.value.ids) == ChooseChannelIds(r.value.labels, Prepared(cfg.select, cfg).value, Prepared(cfg.ignore, cfg).value)
    ensures r.Ok? ==> |r.value.names| == |r.value.ids|
    ensures r.Ok? ==> forall k :: 0 <= k < |r.value.ids| ==>
              && InRange(|r.value.labels|, r.value.ids[k])
              && r.value.names[k] == r.value.labels[Wrap(|r.value.labels|, r.value.ids[k])]
    ensures !Given(cfg.select) && !Given(cfg.ignore) ==>
              r.Ok? && r.value.ids == Range(|raw|) && r.value.names == r.value.labels
  {
    var labels := ChannelLabels(raw, cfg);
    var select :- Prepared(cfg.select, cfg);
    var ignore :- Prepared(cfg.ignore, cfg);
    var ids :- ChooseChannelIds(labels, select, ignore);
    var names :- ChannelNames(labels, ids);
    Ok(Selected(labels, ids, names))
  }

  /** A select list of labels chooses exactly the channels whose label, after
      cleaning when asked, is one of the listed labels, cleaned the same way;
      every listed label names a channel. */
  lemma SelectChannelsByName(raw: seq<string>, cfg: Config)
    requires SelectChannels(raw, cfg).Ok?
    requires Given(cfg.select) && cfg.select.value.Names?
    ensures var sel := SelectChannels(raw, cfg).value;
            var wanted := if cfg.clean then CleanLabels(cfg.select.value.names, cfg.removeSubstr, cfg.delimiter)
                          else cfg.select.value.names;
            && (forall e :: e in wanted ==> e in sel.labels)
            && forall i :: i in sel.ids <==> 0 <= i < |sel.labels| && sel.labels[i] in wanted
  {
  }

  /** Without a select list, an ignore list of labels chooses exactly the
      channels whose label, after cleaning when asked, is not listed. */
  lemma IgnoreChannelsByName(raw: seq<string>, cfg: Config)
    requires SelectChannels(raw, cfg).Ok?
    requires !Given(cfg.select) && Given(cfg.ignore) && cfg.ignore.value.Names?
    ensures var sel := SelectChannels(raw, cfg).value;
            var unwanted := if cfg.clean then CleanLabels(cfg.ignore.value.names, cfg.removeSubstr, cfg.delimiter)
                            else cfg.ignore.value.names;
            forall i :: i in sel.ids <==> 0 <= i < |sel.labels| && sel.labels[i] !in unwanted
  {
  }

  /** `limit` calls in a row, from call `from` on, all failed for `req`. */
  predicate GaveUp(fetch: (nat, Request) -> Option<Matrix>, req: Request, from: nat, limit: nat)
  {
    forall n: nat :: from <= n < from + limit ==> fetch(n, req).None?
  }

  /** Some call answered `req` with `m`. */
  ghost predicate AnswersTo(fetch: (nat, Request) -> Option<Matrix>, req: Request, m: Matrix)
  {
    exists n: nat :: fetch(n, req) == Some(m)
  }

  /** What the pulls of a list of requests give, in order, the number of the
      first call of each pull, and the number of the next `get_data` call. */
  datatype Fetched = Fetched(parts: seq<Option<Matrix>>, starts: seq<nat>, next: nat)

  /** The calls of one `_pull_iEEG`, by call number. */
  function PullCalls(fetch: (nat, Request) -> Option<Matrix>, req: Request): nat -> Option<Matrix>
  {
    (n: nat) => fetch(n, req)
  }

  /** `_pull_iEEG` of `req` allowed `limit` tries (`MaxRetries` in the
      code), its calls numbered from `base`: at least one call and at most
      `limit`, ending with the answer of its last call or after `limit`
      failed calls; the first call answers if it can. */
  function PullIeeg(fetch: (nat, Request) -> Option<Matrix>, req: Request, base: nat, limit: nat): (a: Attempts<Matrix>)
    requires limit > 0
    ensures 1 <= a.calls <= limit
    ensures a.outcome.Some? ==> fetch(base + a.calls - 1, req) == a.outcome
    ensures AllFail(PullCalls(fetch, req), base, base + a.calls - 1)
    ensures a.outcome.None? ==> GaveUp(fetch, req, base, limit)
    ensures a.calls < limit ==> a.outcome.Some?
    ensures fetch(base, req).Some? ==> a == Attempts(fetch(base, req), 1)
  {
    PullAnswered(fetch, req, base, limit);
    PullGaveUp(fetch, req, base, limit);
    FirstSuccess(PullCalls(fetch, req), base, limit)
  }

  /** A pull that answers ends with the answer of its last call, every
      earlier call having failed. */
  lemma PullAnswered(fetch: (nat, Request) -> Option<Matrix>, req: Request, base: nat, limit: nat)
    ensures var a := FirstSuccess(PullCalls(fetch, req), base, limit);
            a.outcome.Some? ==> fetch(base + a.calls - 1, req) == a.outcome
    ensures var a := FirstSuccess(PullCalls(fetch, req), base, limit);
            forall n: nat :: base <= n < base + a.calls - 1 ==> fetch(n, req).None?
  {
    var attempt := PullCalls(fetch, req);
    var a := FirstSuccess(attempt, base, limit);
    if a.outcome.Some? {
      var last: nat := base + a.calls - 1;
      assert a.outcome == attempt(last);
    }
    forall n: nat | base <= n < base + a.calls - 1
      ensures fetch(n, req).None?
    {
      assert attempt(n).None?;
    }
  }

  /** A pull that gives nothing saw every one of its calls fail. */
  lemma PullGaveUp(fetch: (nat, Request) -> Option<Matrix>, req: Request, base: nat, limit: nat)
    ensures FirstSuccess(PullCalls(fetch, req), base, limit).outcome.None? ==> GaveUp(fetch, req, base, limit)
  {
    var attempt := PullCalls(fetch, req);
    if FirstSuccess(attempt, base, limit).outcome.None? {
      forall n: nat | base <= n < base + limit
        ensures fetch(n, req).None?
      {
        assert attempt(n).None?;
      }
    }
  }

  /** `_pull_iEEG` on each request in turn, the numbering of the calls
      continuing from `base`; `FetchAllPull` says what each pull is. */
  function FetchAll(fetch: (nat, Request) -> Option<Matrix>, reqs: seq<Request>, base: nat, limit: nat): (r: Fetched)
    requires limit > 0
    ensures |r.parts| == |reqs| && |r.starts| == |reqs|
    ensures |reqs| > 0 ==> r.starts[0] == base
    ensures |reqs| == 0 ==> r.next == base
    decreases |reqs|
  {
    if |reqs| == 0 then Fetched([], [], base)
    else
      var a := PullIeeg(fetch, reqs[0], base, limit);
      var rest := FetchAll(fetch, reqs[1..], base + a.calls, limit);
      Fetched([a.outcome] + rest.parts, [base] + rest.starts, rest.next)
  }

  /** Pull `k` of a fetch is `_pull_iEEG` of request `k` with its calls
      numbered from `starts[k]`; its outcome is part `k`, and the next pull
      (or the next `get_data` call after the last pull) comes right after
      its calls. */
  lemma {:induction false} FetchAllPull(fetch: (nat, Request) -> Option<Matrix>, reqs: seq<Request>, base: nat, limit: nat, k: nat)
    requires limit > 0 && k < |reqs|
    ensures var r := FetchAll(fetch, reqs, base, limit);
            var a := PullIeeg(fetch, reqs[k], r.starts[k], limit);
            && r.parts[k] == a.outcome
            && (if k + 1 < |reqs| then r.starts[k + 1] else r.next) == r.starts[k] + a.calls
    decreases k
  {
    var r := FetchAll(fetch, reqs, base, limit);
    var first := PullIeeg(fetch, reqs[0], base, limit);
    var rest := FetchAll(fetch, reqs[1..], base + first.calls, limit);
    if k > 0 {
      FetchAllPull(fetch, reqs[1..], base + first.calls, limit, k - 1);
      assert reqs[1..][k - 1] == reqs[k];
      assert r.parts[k] == rest.parts[k - 1] && r.starts[k] == rest.starts[k - 1];
      assert PullIeeg(fetch, reqs[k], r.starts[k], limit) == PullIeeg(fetch, reqs[1..][k - 1], rest.starts[k - 1], limit);
      if k + 1 < |reqs| {
        assert r.starts[k + 1] == rest.starts[k];
      }
    } else {
      assert r.parts[0] == first.outcome && r.starts[0] == base;
      if 1 < |reqs| {
        assert r.starts[1] == rest.starts[0];
      }
    }
  }

  /** A part and its request: an answer some call gave to that request, or
      `limit` failed calls in a row for it. */
  ghost predicate Accounted(fetch: (nat, Request) -> Option<Matrix>, req: Request, part: Option<Matrix>, limit: nat)
  {
    (part.Some? ==> AnswersTo(fetch, req, part.value)) &&
    (part.None? ==> exists from: nat :: GaveUp(fetch, req, from, limit))
  }

  /** Every part of a fetch is accounted for by its own request. */
  lemma FetchAllParts(fetch: (nat, Request) -> Option<Matrix>, reqs: seq<Request>, base: nat, limit: nat)
    requires limit > 0
    ensures var r := FetchAll(fetch, reqs, base, limit);
            forall k :: 0 <= k < |reqs| ==> Accounted(fetch, reqs[k], r.parts[k], limit)
  {
    var r := FetchAll(fetch, reqs, base, limit);
    forall k | 0 <= k < |reqs|
      ensures Accounted(fetch, reqs[k], r.parts[k], limit)
    {
      FetchAllPull(fetch, reqs, base, limit, k);
      var a := PullIeeg(fetch, reqs[k], r.starts[k], limit);
      if a.outcome.Some? {
        assert fetch(r.starts[k] + a.calls - 1, reqs[k]) == a.outcome;
      }
    }
  }

  /** Calls are numbered without gaps: pull `k` starts after at least `k` and
      at most `k * limit` earlier calls, and the fetch makes between one and
      `limit` calls per request. */
  lemma FetchAllCalls(fetch: (nat, Request) -> Option<Matrix>, reqs: seq<Request>, base: nat, limit: nat)
    requires limit > 0
    ensures var r := FetchAll(fetch, reqs, base, limit);
            forall k :: 0 <= k < |reqs| ==> 1 <= After(r, k) - r.starts[k] <= limit
    ensures var r := FetchAll(fetch, reqs, base, limit);
            && (forall k :: 0 <= k < |reqs| ==> base + k <= r.starts[k] <= base + k * limit)
            && base + |reqs| <= r.next <= base + |reqs| * limit
  {
    forall k | 0 <= k < |reqs|
      ensures var r := FetchAll(fetch, reqs, base, limit);
              && 1 <= After(r, k) - r.starts[k] <= limit
              && base + k <= r.starts[k] <= base + k * limit
    {
      FetchAllPull(fetch, reqs, base, limit, k);
      PullCallsBound(fetch, reqs, base, limit, k);
    }
    if |reqs| > 0 {
      PullCallsBound(fetch, reqs, base, limit, |reqs| - 1);
    }
  }

  /** The number of the first call after pull `k`: the first call of the
      next pull, or the next call once the last pull is done. */
  function After(r: Fetched, k: nat): nat
    requires k < |r.starts|
  {
    if k + 1 < |r.starts| then r.starts[k + 1] else r.next
  }

  /** The bounds of `FetchAllCalls` for pull `k` and the one after it. */
  lemma {:induction false} PullCallsBound(fetch: (nat, Request) -> Option<Matrix>, reqs: seq<Request>, base: nat, limit: nat, k: nat)
    requires limit > 0 && k < |reqs|
    ensures var r := FetchAll(fetch, reqs, base, limit);
            var after := if k + 1 < |reqs| then r.starts[k + 1] else r.next;
            && base + k <= r.starts[k] <= base + k * limit
            && base + k + 1 <= after <= base + (k + 1) * limit
    decreases k
  {
    if k > 0 {
      PullCallsBound(fetch, reqs, base, limit, k - 1);
    }
    FetchAllPull(fetch, reqs, base, limit, k);
    assert k * limit + limit == (k + 1) * limit;
  }

  /** The axis `np.concatenate` is called with. */
  function AxisFor(duration: int): (a: Axis)
    ensures a == Columns <==> duration <= ClipDurationLimit
  {
    if duration <= ClipDurationLimit then Columns else Rows
  }

  /** Some pull of a cut retrieval gave nothing: the early `return None`. */
  predicate SomeMissing(plan: Plan, parts: seq<Option<Matrix>>)
  {
    plan.split != Whole && exists k :: 0 <= k < |parts| && parts[k].None?
  }

  /** `output_file` is given and not empty. */
  predicate Saving(cfg: Config)
  {
    cfg.outputFile.Some? && cfg.outputFile.value != ""
  }

  /** `get_iEEG_data` from the pulled parts on: the early `return None` of a
      cut retrieval, the join, the DataFrame, the sample rate of the
      dataset's first channel and the optional pickle. */
  function Collect(cfg: Config, plan: Plan, parts: seq<Option<Matrix>>, names: seq<string>,
                   raw: seq<string>, sampleRate: string -> real): (r: Result<Outcome>)
    ensures r == Ok(Missing) <==> SomeMissing(plan, parts)
    ensures r.Err? ==> r.error in {NothingToConcatenate, ConcatenateNone, ShapeMismatch, ColumnCountMismatch, IndexError}
    ensures r.Ok? && !r.value.Missing? ==>
              && |parts| > 0 && (forall k :: 0 <= k < |parts| ==> parts[k].Some?)
              && Concatenate(parts, AxisFor(cfg.stop - cfg.start)) == Ok(r.value.frame.data)
              && r.value.frame.columns == names && r.value.frame.data.width == |names|
              && |raw| > 0 && r.value.frame.sampleRate == sampleRate(raw[0])
              && (r.value.Saved? <==> Saving(cfg))
  {
    if SomeMissing(plan, parts) then Ok(Missing)
    else
      var data :- Concatenate(parts, AxisFor(cfg.stop - cfg.start));
      if data.width != |names| then Err(ColumnCountMismatch)
      else if |raw| == 0 then Err(IndexError)
      else
        var frame := Frame(names, data, sampleRate(raw[0]));
        if Saving(cfg) then Ok(Saved(frame)) else Ok(Returned(frame))
  }

  /** `get_iEEG_data(...)`. */
  function GetIeegData(cfg: Config, service: Service): (r: Result<Outcome>)
    ensures r == Err(FailedToOpenDataset) <==> AllFail(service.connect, 0, MaxRetries)
    ensures r.Ok? ==> OpenDataset(service).Ok? && SelectChannels(OpenDataset(service).value, cfg).Ok?
  {
    var raw :- OpenDataset(service);
    var sel :- SelectChannels(raw, cfg);
    var plan := PlanRequests(cfg.start, cfg.stop, sel.ids);
    Collect(cfg, plan, FetchAll(service.fetch, plan.requests, 0, MaxRetries).parts, sel.names, raw, service.sampleRate)
  }

  /** Once the dataset is open and the channels are chosen, the rest of the
      call is `Collect` of what the requests of the plan pulled. */
  lemma GetIeegDataAfterSelection(cfg: Config, service: Service)
    requires OpenDataset(service).Ok?
    requires SelectChannels(OpenDataset(service).value, cfg).Ok?
    ensures var raw := OpenDataset(service).value;
            var sel := SelectChannels(raw, cfg).value;
            var plan := PlanRequests(cfg.start, cfg.stop, sel.ids);
            GetIeegData(cfg, service) ==
              Collect(cfg, plan, FetchAll(service.fetch, plan.requests, 0, MaxRetries).parts, sel.names, raw, service.sampleRate)
  {
  }

  /** `FetchAll` against a service whose every call answers: call `base + k`
      answers request `k`, one call per request. */
  lemma FetchAllReliable(fetch: (nat, Request) -> Option<Matrix>, reqs: seq<Request>, base: nat, limit: nat)
    requires limit > 0
    requires forall n: nat, req :: fetch(n, req).Some?
    ensures var r := FetchAll(fetch, reqs, base, limit);
            && r.next == base + |reqs|
            && forall k :: 0 <= k < |reqs| ==> r.parts[k] == fetch(base + k, reqs[k])
  {
    forall k | 0 <= k < |reqs|
      ensures FetchAll(fetch, reqs, base, limit).parts[k] == fetch(base + k, reqs[k])
    {
      ReliablePull(fetch, reqs, base, limit, k);
    }
    if |reqs| > 0 {
      ReliablePull(fetch, reqs, base, limit, |reqs| - 1);
    }
  }

  /** Against a service whose every call answers, pull `k` is the single
      call `base + k`. */
  lemma {:induction false} ReliablePull(fetch: (nat, Request) -> Option<Matrix>, reqs: seq<Request>, base: nat, limit: nat, k: nat)
    requires limit > 0 && k < |reqs|
    requires forall n: nat, req :: fetch(n, req).Some?
    ensures var r := FetchAll(fetch, reqs, base, limit);
            && r.starts[k] == base + k
            && r.parts[k] == fetch(base + k, reqs[k])
            && (if k + 1 < |reqs| then r.starts[k + 1] else r.next) == base + k + 1
    decreases k
  {
    if k > 0 {
      ReliablePull(fetch, reqs, base, limit, k - 1);
    }
    FetchAllPull(fetch, reqs, base, limit, k);
    assert fetch(base + k, reqs[k]).Some?;
  }

  /** Every answer the service gives is the recording of what was asked. */
  ghost predicate Faithful(fetch: (nat, Request) -> Option<Matrix>, signal: Signal, period: nat)
  {
    period > 0 && forall n: nat, req :: fetch(n, req).Some? ==> fetch(n, req).value == Recording(signal, period, req)
  }

  /** Every part fetched from a faithful service is the recording of its
      own request. */
  lemma PartsAreAnswers(fetch: (nat, Request) -> Option<Matrix>, signal: Signal, period: nat, reqs: seq<Request>, base: nat, limit: nat)
    requires limit > 0
    requires Faithful(fetch, signal, period)
    ensures var parts := FetchAll(fetch, reqs, base, limit).parts;
            forall k :: 0 <= k < |reqs| && parts[k].Some? ==> parts[k].value == Recording(signal, period, reqs[k])
  {
    var parts := FetchAll(fetch, reqs, base, limit).parts;
    FetchAllParts(fetch, reqs, base, limit);
    forall k | 0 <= k < |reqs| && parts[k].Some?
      ensures parts[k].value == Recording(signal, period, reqs[k])
    {
      assert Accounted(fetch, reqs[k], parts[k], limit);
    }
  }

  /** Parts that are the recordings of their requests, none missing, are the
      answers to the requests. */
  lemma AllPartsReceived(signal: Signal, period: nat, reqs: seq<Request>, parts: seq<Option<Matrix>>)
    requires period > 0 && |parts| == |reqs|
    requires forall k :: 0 <= k < |reqs| ==> parts[k].Some?
    requires forall k :: 0 <= k < |reqs| && parts[k].Some? ==> parts[k].value == Recording(signal, period, reqs[k])
    ensures parts == Received(Answers(signal, period, reqs))
  {
  }

  /** Joining the answers to the requests of any plan, along the axis the
      code picks, gives back the recording of the whole retrieval, and it
      fails only when the plan has no request at all. */
  lemma JoinedPlanIsRecording(signal: Signal, period: nat, start: int, stop: int, ids: seq<int>)
    requires period > 0
    ensures var plan := PlanRequests(start, stop, ids);
            var r := Concatenate(Received(Answers(signal, period, plan.requests)), AxisFor(stop - start));
            && (r.Ok? <==> |plan.requests| > 0)
            && (r.Ok? ==> r.value == Recording(signal, period, Request(start, stop - start, ids)))
  {
    var plan := PlanRequests(start, stop, ids);
    var whole := Recording(signal, period, Request(start, stop - start, ids));
    match plan.split
    case Whole =>
      assert Received(Answers(signal, period, plan.requests)) == [Some(whole)];
      ConcatenateSingle(whole, AxisFor(stop - start));
    case ByTime =>
      ConcatenateTimeChunks(signal, period, start, stop, ids);
    case ByChannel =>
      if |ids| > 0 {
        ConcatenateChannelChunks(signal, period, start, stop - start, ids);
      }
  }

  /** `Collect` over the plan of a retrieval whose parts are recordings of
      their requests gives, when it gives a frame, the recording of the whole
      retrieval. */
  lemma CollectIsRecording(cfg: Config, ids: seq<int>, parts: seq<Option<Matrix>>, names: seq<string>,
                           raw: seq<string>, sampleRate: string -> real, signal: Signal, period: nat)
    requires period > 0
    requires var plan := PlanRequests(cfg.start, cfg.stop, ids);
             && |parts| == |plan.requests|
             && forall k :: 0 <= k < |parts| && parts[k].Some? ==> parts[k].value == Recording(signal, period, plan.requests[k])
    requires var r := Collect(cfg, PlanRequests(cfg.start, cfg.stop, ids), parts, names, raw, sampleRate);
             r.Ok? && !r.value.Missing?
    ensures Collect(cfg, PlanRequests(cfg.start, cfg.stop, ids), parts, names, raw, sampleRate).value.frame.data ==
              Recording(signal, period, Request(cfg.start, cfg.stop - cfg.start, ids))
  {
    var plan := PlanRequests(cfg.start, cfg.stop, ids);
    AllPartsReceived(signal, period, plan.requests, parts);
    JoinedPlanIsRecording(signal, period, cfg.start, cfg.stop, ids);
  }

  /** The main property: whatever the pattern of failures, a retrieval from a
      faithful service that returns or saves a frame has the recording of
      `[start, stop)` over the chosen channels as its data, their names as
      its columns, and the rate of the dataset's first channel. */
  lemma RetrievalIsFaithful(cfg: Config, service: Service, signal: Signal, period: nat)
    requires Faithful(service.fetch, signal, period)
    requires GetIeegData(cfg, service).Ok? && !GetIeegData(cfg, service).value.Missing?
    ensures OpenDataset(service).Ok? && |OpenDataset(service).value| > 0
    ensures SelectChannels(OpenDataset(service).value, cfg).Ok?
    ensures var raw := OpenDataset(service).value;
            var sel := SelectChannels(raw, cfg).value;
            var frame := GetIeegData(cfg, service).value.frame;
            && frame.columns == sel.names
            && frame.data == Recording(signal, period, Request(cfg.start, cfg.stop - cfg.start, sel.ids))
            && frame.sampleRate == service.sampleRate(raw[0])
            && (GetIeegData(cfg, service).value.Saved? <==> Saving(cfg))
  {
    var raw := OpenDataset(service).value;
    var sel := SelectChannels(raw, cfg).value;
    var plan := PlanRequests(cfg.start, cfg.stop, sel.ids);
    var parts := FetchAll(service.fetch, plan.requests, 0, MaxRetries).parts;
    GetIeegDataAfterSelection(cfg, service);
    PartsAreAnswers(service.fetch, signal, period, plan.requests, 0, MaxRetries);
    CollectIsRecording(cfg, sel.ids, parts, sel.names, raw, service.sampleRate, signal, period);
  }

  /** A service that answers every call, faithfully, always leads to a frame
      once the dataset has a channel, the selection is valid and there is
      something to request. */
  lemma ReliableRetrievalSucceeds(cfg: Config, service: Service, signal: Signal, period: nat)
    requires Faithful(service.fetch, signal, period)
    requires forall n: nat, req :: service.fetch(n, req).Some?
    requires OpenDataset(service).Ok? && |OpenDataset(service).value| > 0
    requires SelectChannels(OpenDataset(service).value, cfg).Ok?
    requires |PlanRequests(cfg.start, cfg.stop, SelectChannels(OpenDataset(service).value, cfg).value.ids).requests| > 0
    ensures GetIeegData(cfg, service).Ok? && !GetIeegData(cfg, service).value.Missing?
  {
    var raw := OpenDataset(service).value;
    var sel := SelectChannels(raw, cfg).value;
    var plan := PlanRequests(cfg.start, cfg.stop, sel.ids);
    GetIeegDataAfterSelection(cfg, service);
    ReliablePartsAreAnswers(service.fetch, signal, period, plan.requests, 0, MaxRetries);
    CollectSucceeds(cfg, sel.ids, sel.names, raw, service.sampleRate, signal, period);
  }

  /** From a faithful service whose every call answers, the parts are the
      answers to the requests, none missing. */
  lemma ReliablePartsAreAnswers(fetch: (nat, Request) -> Option<Matrix>, signal: Signal, period: nat,
                                reqs: seq<Request>, base: nat, limit: nat)
    requires limit > 0
    requires Faithful(fetch, signal, period)
    requires forall n: nat, req :: fetch(n, req).Some?
    ensures FetchAll(fetch, reqs, base, limit).parts == Received(Answers(signal, period, reqs))
  {
    FetchAllReliable(fetch, reqs, base, limit);
    PartsAreAnswers(fetch, signal, period, reqs, base, limit);
    AllPartsReceived(signal, period, reqs, FetchAll(fetch, reqs, base, limit).parts);
  }

  /** `Collect` of the answers to a plan with some request, each channel
      named and the dataset not empty, gives a frame. */
  lemma CollectSucceeds(cfg: Config, ids: seq<int>, names: seq<string>, raw: seq<string>,
                        sampleRate: string -> real, signal: Signal, period: nat)
    requires period > 0 && |names| == |ids| && |raw| > 0
    requires |PlanRequests(cfg.start, cfg.stop, ids).requests| > 0
    ensures var plan := PlanRequests(cfg.start, cfg.stop, ids);
            var r := Collect(cfg, plan, Received(Answers(signal, period, plan.requests)), names, raw, sampleRate);
            r.Ok? && !r.value.Missing?
  {
    JoinedPlanIsRecording(signal, period, cfg.start, cfg.stop, ids);
  }

  /** The call returns None without saving exactly when the retrieval was cut
      and one of its requests gave up after `MaxRetries` failed calls. */
  lemma MissingMeansGaveUp(cfg: Config, service: Service)
    requires OpenDataset(service).Ok?
    requires SelectChannels(OpenDataset(service).value, cfg).Ok?
    ensures var plan := PlanRequests(cfg.start, cfg.stop, SelectChannels(OpenDataset(service).value, cfg).value.ids);
            var parts := FetchAll(service.fetch, plan.requests, 0, MaxRetries).parts;
            GetIeegData(cfg, service) == Ok(Missing) <==> SomeMissing(plan, parts)
    ensures var plan := PlanRequests(cfg.start, cfg.stop, SelectChannels(OpenDataset(service).value, cfg).value.ids);
            GetIeegData(cfg, service) == Ok(Missing) ==>
              plan.split != Whole &&
              exists k, from: nat :: 0 <= k < |plan.requests| && GaveUp(service.fetch, plan.requests[k], from, MaxRetries)
  {
    var plan := PlanRequests(cfg.start, cfg.stop, SelectChannels(OpenDataset(service).value, cfg).value.ids);
    var parts := FetchAll(service.fetch, plan.requests, 0, MaxRetries).parts;
    GetIeegDataAfterSelection(cfg, service);
    FetchAllParts(service.fetch, plan.requests, 0, MaxRetries);
    if SomeMissing(plan, parts) {
      var k :| 0 <= k < |parts| && parts[k].None?;
      assert Accounted(service.fetch, plan.requests[k], parts[k], MaxRetries);
    }
  }
}
