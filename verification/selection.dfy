/** Which channels a retrieval asks for: `get_channel_ids`, the choice between
    the select list, the ignore list and all channels, and the lookup of the
    chosen channels' names (process_iEEG_data.py / iEEG_pipeline.py). */
module Selection {
  import opened Basics

  /** The `mode` argument of `get_channel_ids`. */
  datatype Mode = Select | Ignore

  /** An electrode list as the caller gives it: channel labels, or channel
      positions. The type of the first element decides which in the source. */
  datatype Electrodes = Names(names: seq<string>) | Ids(ids: seq<int>)
  {
    function Length(): nat
    {
      match this
      case Names(ns) => |ns|
      case Ids(xs) => |xs|
    }
  }

  /** The positions below `n` that `keep` accepts, in increasing order:
      `[i for i in range(n) if keep(i)]`. */
  function Positions(n: nat, keep: int -> bool): (r: seq<int>)
    ensures StrictlyIncreasing(r)
    ensures forall k :: 0 <= k < |r| ==> 0 <= r[k] < n && keep(r[k])
  {
    if n == 0 then []
    else
      var front := Positions(n - 1, keep);
      if keep(n - 1) then front + [n - 1] else front
  }

  /** Every position below `n` that `keep` accepts is listed. */
  lemma {:induction false} PositionsComplete(n: nat, keep: int -> bool)
    ensures forall i :: 0 <= i < n && keep(i) ==> i in Positions(n, keep)
  {
    if n > 0 {
      PositionsComplete(n - 1, keep);
    }
  }

  /** `get_channel_ids(all_channel_labels, electrodes, mode)`. */
  function GetChannelIds(all: seq<string>, electrodes: Electrodes, mode: Mode): (r: Result<seq<int>>)
    ensures electrodes.Length() == 0 ==> r == Err(IndexError)
    ensures electrodes.Length() > 0 && (electrodes.Ids? || forall e :: e in electrodes.names ==> e in all) ==> r.Ok?
    ensures electrodes.Names? && electrodes.Length() > 0 ==>
              (r == Err(ChannelNotInIeeg) <==> exists e :: e in electrodes.names && e !in all)
    ensures electrodes.Ids? && electrodes.Length() > 0 && mode == Select ==> r == Ok(electrodes.ids)
    ensures r.Ok? ==> electrodes.Length() > 0
    ensures r.Ok? && (electrodes.Names? || mode == Ignore) ==>
              StrictlyIncreasing(r.value) && forall k :: 0 <= k < |r.value| ==> 0 <= r.value[k] < |all|
    ensures r.Ok? && electrodes.Names? ==>
              forall i :: i in r.value <==> 0 <= i < |all| && (all[i] in electrodes.names <==> mode == Select)
    ensures r.Ok? && electrodes.Ids? && mode == Ignore ==>
              forall i :: i in r.value <==> 0 <= i < |all| && i !in electrodes.ids
  {
    match electrodes
    case Ids(ids) =>
      if |ids| == 0 then Err(IndexError)
      else if mode == Select then Ok(ids)
      else
        PositionsComplete(|all|, i => i !in ids);
        Ok(Positions(|all|, i => i !in ids))
    case Names(names) =>
      if |names| == 0 then Err(IndexError)
      else if exists e :: e in names && e !in all then Err(ChannelNotInIeeg)
      else
        PositionsComplete(|all|, i => 0 <= i < |all| && (all[i] in names) == (mode == Select));
        Ok(Positions(|all|, i => 0 <= i < |all| && (all[i] in names) == (mode == Select)))
  }

  /** Selecting and ignoring the same labels split the channels in two: no
      position is in both, every position is in one, and the counts add up. */
  lemma SelectIgnorePartition(all: seq<string>, names: seq<string>)
    requires GetChannelIds(all, Names(names), Select).Ok?
    ensures GetChannelIds(all, Names(names), Ignore).Ok?
    ensures var s := GetChannelIds(all, Names(names), Select).value;
            var g := GetChannelIds(all, Names(names), Ignore).value;
            && (forall i :: !(i in s && i in g))
            && (forall i :: 0 <= i < |all| ==> i in s || i in g)
            && |s| + |g| == |all|
  {
    var listed: int -> bool := i => 0 <= i < |all| && (all[i] in names) == true;
    var unlisted: int -> bool := i => 0 <= i < |all| && (all[i] in names) == false;
    assert GetChannelIds(all, Names(names), Select).value == Positions(|all|, listed);
    assert GetChannelIds(all, Names(names), Ignore).value == Positions(|all|, unlisted);
    PositionsComplement(|all|, listed);
    PositionsExtensional(|all|, unlisted, Rejects(listed));
  }

  /** `Positions` only looks at the positions below `n`. */
  lemma {:induction false} PositionsExtensional(n: nat, p: int -> bool, q: int -> bool)
    requires forall i :: 0 <= i < n ==> (p(i) <==> q(i))
    ensures Positions(n, p) == Positions(n, q)
  {
    if n > 0 {
      PositionsExtensional(n - 1, p, q);
    }
  }

  /** The positions a predicate accepts and the positions it rejects share
      nothing, cover everything below `n`, and their counts add to `n`. */
  lemma PositionsComplement(n: nat, p: int -> bool)
    ensures var a := Positions(n, p);
            var b := Positions(n, Rejects(p));
            && (forall i :: !(i in a && i in b))
            && (forall i :: 0 <= i < n ==> i in a || i in b)
            && |a| + |b| == n
  {
    PositionsCount(n, p);
  }

  /** The two counts of `PositionsComplement` add to `n`. */
  lemma {:induction false} PositionsCount(n: nat, p: int -> bool)
    ensures |Positions(n, p)| + |Positions(n, Rejects(p))| == n
  {
    if n > 0 {
      PositionsCount(n - 1, p);
      PositionsStep(n, p);
      PositionsStep(n, Rejects(p));
    }
  }

  /** Position `n - 1` adds one to the count exactly when it is accepted. */
  lemma PositionsStep(n: nat, keep: int -> bool)
    requires n > 0
    ensures |Positions(n, keep)| == |Positions(n - 1, keep)| + (if keep(n - 1) then 1 else 0)
  {
  }

  /** The predicate that accepts what `p` rejects. */
  function Rejects(p: int -> bool): int -> bool
  {
    i => !p(i)
  }

  /** An electrode list counts as given when it is present and not empty
      (`if select_electrodes:`). */
  predicate Given(electrodes: Option<Electrodes>)
  {
    electrodes.Some? && electrodes.value.Length() > 0
  }

  /** The dispatch of `get_iEEG_data`: a given select list wins, then a given
      ignore list, and otherwise every channel in order. The contract names
      the branch taken; what each branch chooses is `GetChannelIds`'s
      contract. */
  function ChooseChannelIds(all: seq<string>, select: Option<Electrodes>, ignore: Option<Electrodes>): (r: Result<seq<int>>)
    ensures Given(select) ==> r == GetChannelIds(all, select.value, Select)
    ensures !Given(select) && Given(ignore) ==> r == GetChannelIds(all, ignore.value, Ignore)
    ensures !Given(select) && !Given(ignore) ==> r == Ok(Range(|all|))
    ensures r.Err? ==> r.error == ChannelNotInIeeg
  {
    if Given(select) then GetChannelIds(all, select.value, Select)
    else if Given(ignore) then GetChannelIds(all, ignore.value, Ignore)
    else Ok(Range(|all|))
  }

  /** Python's `xs[i]`: a negative index counts from the end. */
  predicate InRange(n: nat, i: int)
  {
    -(n as int) <= i < n
  }

  function Wrap(n: nat, i: int): (k: nat)
    requires InRange(n, i)
    ensures k < n && (k == i || k == i + n)
  {
    if i < 0 then i + n else i
  }

  /** `[all_channel_labels[i] for i in channel_ids]`. */
  function ChannelNames(all: seq<string>, ids: seq<int>): (r: Result<seq<string>>)
    ensures r.Ok? <==> forall k :: 0 <= k < |ids| ==> InRange(|all|, ids[k])
    ensures r.Err? ==> r.error == IndexError
    ensures r.Ok? ==> |r.value| == |ids| && forall k :: 0 <= k < |ids| ==> r.value[k] == all[Wrap(|all|, ids[k])]
  {
    if forall k :: 0 <= k < |ids| ==> InRange(|all|, ids[k]) then
      Ok(seq(|ids|, k requires 0 <= k < |ids| => all[Wrap(|all|, ids[k])]))
    else
      Err(IndexError)
  }

  /** The ids chosen by label always name channels, and those names are the
      listed ones under `select` and the unlisted ones under `ignore`. */
  lemma ChosenByNameHaveNames(all: seq<string>, names: seq<string>, mode: Mode)
    requires GetChannelIds(all, Names(names), mode).Ok?
    ensures var ids := GetChannelIds(all, Names(names), mode).value;
            && ChannelNames(all, ids).Ok?
            && forall k :: 0 <= k < |ids| ==> (ChannelNames(all, ids).value[k] in names <==> mode == Select)
  {
  }
}
