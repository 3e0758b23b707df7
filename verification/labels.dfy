/** Channel-label normalisers and classifiers. Every one of them reads a label
    as lead text followed by a contact number ("LA 1" -> lead "LA ", contact 1)
    and writes the contact back zero-padded to two digits ("LA01").

    - `CleanLabels`: `clean_labels` in process_iEEG_data.py / iEEG_pipeline.py
      (optional substring removal and delimiter cut; labels that do not match
      are kept as they are).
    - `IsNonIeeg` / `FindNonIeeg`: `find_non_ieeg` (both copies).
    - `CleanLabelsWithFallback`: `clean_labels` in clean_labels.py ("EEG"
      removed from the lead, contact 0 when the label has no number).
    - `CleanChannels`: `clean_channels` in clean_channels.py (cleaned labels
      plus a keep-mask). */
module Labels {
  import opened Basics
  import opened PyStr
  import opened LeadContact

  /** Lead names of channels that are not intracranial EEG. */
  const NonIeegLeads: seq<string> := ["EKG", "O", "C", "ECG"]

  /** `f"{lead}{contact:02d}"`. */
  function ChannelName(lead: string, contact: nat): string
  {
    lead + Pad2(contact)
  }

  /** A formatted name is read back by the regex as the same lead and a digit
      run whose value is the same contact. */
  lemma MatchChannelName(lead: string, contact: nat)
    requires |lead| > 0 && NoDigits(lead)
    ensures MatchLeadContact(ChannelName(lead, contact)) == Some(Match(lead, Pad2(contact)))
  {
    var s := ChannelName(lead, contact);
    var ds := Pad2(contact);
    assert s[..|lead| + |ds|] == lead + ds;
    assert Admits(s, lead, ds);
    MatchIsGreedy(s);
    var m := MatchLeadContact(s).value;
    assert m.lead == lead;
    assert m.digits == s[|lead|..|lead| + |m.digits|];
    assert m.digits == ds;
  }

  // ------------------------------------------------ clean_labels (process_iEEG_data.py)

  /** The regex step of `clean_labels`: stripped lead plus zero-padded contact,
      or the label itself when it does not match. */
  function NormalizeLabel(lbl: string): string
  {
    match MatchLeadContact(lbl)
    case None => lbl
    case Some(m) => ChannelName(Strip(m.lead), DigitsValue(m.digits))
  }

  /** A matching label becomes text with no digit and no surrounding
      whitespace, followed by at least two digits that spell the contact
      number; whatever followed the contact's digits is gone. */
  lemma NormalizeLabelFormat(lbl: string)
    ensures MatchLeadContact(lbl).None? ==> NormalizeLabel(lbl) == lbl
    ensures MatchLeadContact(lbl).Some? ==>
              var m := MatchLeadContact(lbl).value;
              var r := NormalizeLabel(lbl);
              var n := |Strip(m.lead)|;
              && n + 2 <= |r|
              && r[..n] == Strip(m.lead) && NoDigits(r[..n])
              && AllDigits(r[n..]) && DigitsValue(r[n..]) == DigitsValue(m.digits)
              && (|r| > n + 2 ==> r[n] != '0')
  {
    var mm := MatchLeadContact(lbl);
    if mm.Some? {
      var m := mm.value;
      var lead := Strip(m.lead);
      StripKeepsNoDigits(m.lead);
      var r := NormalizeLabel(lbl);
      assert r[..|lead|] == lead;
      assert r[|lead|..] == Pad2(DigitsValue(m.digits));
    }
  }

  /** Normalising an already normalised label changes nothing. */
  lemma NormalizeLabelIdempotent(lbl: string)
    ensures NormalizeLabel(NormalizeLabel(lbl)) == NormalizeLabel(lbl)
  {
    match MatchLeadContact(lbl)
    case None =>
    case Some(m) =>
      var lead := Strip(m.lead);
      var v := DigitsValue(m.digits);
      var r := ChannelName(lead, v);
      if |lead| == 0 {
        assert r == Pad2(v);
        assert NonDigitRun(r) == 0;
      } else {
        StripKeepsNoDigits(m.lead);
        MatchChannelName(lead, v);
        StripIdempotent(m.lead);
      }
  }

  /** One label through `clean_labels`: substring removal, then the cut at the
      first delimiter, then the regex step. Empty options count as absent. */
  function CleanLabel(lbl: string, removeSubstr: Option<string>, delimiter: Option<string>): string
  {
    var removed := if removeSubstr.Some? && removeSubstr.value != "" then RemoveAll(lbl, removeSubstr.value) else lbl;
    var cut := if delimiter.Some? && delimiter.value != "" then AfterFirst(removed, delimiter.value) else removed;
    NormalizeLabel(cut)
  }

  /** `clean_labels(channel_list, remove_substr, delimiter)`. */
  function CleanLabels(labels: seq<string>, removeSubstr: Option<string>, delimiter: Option<string>): (r: seq<string>)
    ensures |r| == |labels|
    ensures forall i :: 0 <= i < |labels| ==> r[i] == CleanLabel(labels[i], removeSubstr, delimiter)
  {
    if |labels| == 0 then []
    else [CleanLabel(labels[0], removeSubstr, delimiter)] + CleanLabels(labels[1..], removeSubstr, delimiter)
  }

  /** With neither option, cleaning a cleaned list changes nothing. */
  lemma {:induction false} CleanLabelsIdempotent(labels: seq<string>)
    ensures CleanLabels(CleanLabels(labels, None, None), None, None) == CleanLabels(labels, None, None)
  {
    var once := CleanLabels(labels, None, None);
    var twice := CleanLabels(once, None, None);
    forall i | 0 <= i < |labels|
      ensures twice[i] == once[i]
    {
      NormalizeLabelIdempotent(labels[i]);
    }
  }

  /** With `remove_substr` set, the label is the pieces around its
      left-to-right occurrences of the substring, and cleaning sees those
      pieces glued together without it. */
  lemma CleanLabelRemovesSubstring(lbl: string, substr: string)
    requires substr != ""
    ensures Join(substr, Split(lbl, substr)) == lbl
    ensures CleanLabel(lbl, Some(substr), None) == NormalizeLabel(Join("", Split(lbl, substr)))
    ensures forall i, k :: 0 <= i < |Split(lbl, substr)| ==> !OccursAt(Split(lbl, substr)[i], substr, k)
  {
    JoinSplit(lbl, substr);
    RemoveAllIsJoinOfSplit(lbl, substr);
    SplitPiecesAvoidDelimiter(lbl, substr);
  }

  /** With `delimiter` set, everything up to and including its first
      occurrence is dropped; a label without it is cleaned as "". */
  lemma CleanLabelCutsAtDelimiter(lbl: string, delimiter: string)
    requires delimiter != ""
    ensures Find(lbl, delimiter).None? ==> CleanLabel(lbl, None, Some(delimiter)) == NormalizeLabel("")
    ensures Find(lbl, delimiter).Some? ==>
              CleanLabel(lbl, None, Some(delimiter)) == NormalizeLabel(lbl[Find(lbl, delimiter).value + |delimiter|..])
  {
    AfterFirstDropsThroughDelimiter(lbl, delimiter);
  }

  // ------------------------------------------------ find_non_ieeg

  /** One entry of `find_non_ieeg`: the unstripped lead of a matching label
      is exactly one of the non-iEEG names. */
  function IsNonIeeg(lbl: string): bool
  {
    match MatchLeadContact(lbl)
    case None => false
    case Some(m) => m.lead in NonIeegLeads
  }

  /** `label` is `name` immediately followed by a digit. */
  predicate StartsWithNameThenDigit(lbl: string, name: string)
  {
    |name| < |lbl| && lbl[..|name|] == name && IsDigit(lbl[|name|])
  }

  /** A label is non-iEEG exactly when it spells one of the non-iEEG names
      and then a digit. */
  lemma IsNonIeegIff(lbl: string)
    ensures IsNonIeeg(lbl) <==>
              exists i :: 0 <= i < |NonIeegLeads| && StartsWithNameThenDigit(lbl, NonIeegLeads[i])
  {
    MatchIsGreedy(lbl);
    if i :| 0 <= i < |NonIeegLeads| && StartsWithNameThenDigit(lbl, NonIeegLeads[i]) {
      var name := NonIeegLeads[i];
      assert NoDigits(name);
      assert lbl[..|name| + 1] == name + [lbl[|name|]];
      assert Admits(lbl, name, [lbl[|name|]]);
    }
    var m := MatchLeadContact(lbl);
    if m.Some? && m.value.lead in NonIeegLeads {
      var i :| 0 <= i < |NonIeegLeads| && NonIeegLeads[i] == m.value.lead;
      assert lbl[|m.value.lead|] == m.value.digits[0];
      assert StartsWithNameThenDigit(lbl, NonIeegLeads[i]);
    }
  }

  /** `find_non_ieeg(channel_li)`: starts from all False and sets the entries
      of non-iEEG labels to True. */
  method FindNonIeeg(channels: seq<string>) returns (flags: seq<bool>)
    ensures |flags| == |channels|
    ensures forall i :: 0 <= i < |channels| ==> (flags[i] <==> IsNonIeeg(channels[i]))
  {
    flags := seq(|channels|, _ => false);
    var ind := 0;
    while ind < |channels|
      invariant 0 <= ind <= |channels| && |flags| == |channels|
      invariant forall i :: 0 <= i < ind ==> (flags[i] <==> IsNonIeeg(channels[i]))
      invariant forall i :: ind <= i < |flags| ==> !flags[i]
    {
      var m := MatchLeadContact(channels[ind]);
      if m.Some? && m.value.lead in NonIeegLeads {
        flags := flags[ind := true];
      }
      ind := ind + 1;
    }
  }

  // ------------------------------------------------ clean_labels.py and clean_channels.py

  /** The lead cleaning both stand-alone cleaners use: every "EEG" removed, then stripped. */
  function CleanLead(lead: string): string
  {
    Strip(RemoveAll(lead, "EEG"))
  }

  /** One label through clean_labels.py; a label with no number gets contact 0,
      and one that is empty or starts with a digit makes `.group` fail. */
  function CleanLabelWithFallback(lbl: string): (r: Result<string>)
    ensures r.Ok? <==> |lbl| > 0 && !IsDigit(lbl[0])
    ensures r.Err? ==> r.error == NoLeadMatch
  {
    match MatchLeadContact(lbl)
    case Some(m) => Ok(ChannelName(CleanLead(m.lead), DigitsValue(m.digits)))
    case None =>
      match MatchLead(lbl)
      case None => Err(NoLeadMatch)
      case Some(lead) => Ok(ChannelName(CleanLead(lead), 0))
  }

  /** `clean_labels(channel_li)` from clean_labels.py (its keep-mask is never
      returned): the first label that is empty or starts with a digit ends the
      call with an error. */
  method CleanLabelsWithFallback(labels: seq<string>) returns (r: Result<seq<string>>)
    ensures r.Ok? <==> forall i :: 0 <= i < |labels| ==> |labels[i]| > 0 && !IsDigit(labels[i][0])
    ensures r.Err? ==> r.error == NoLeadMatch
    ensures r.Ok? ==> |r.value| == |labels|
    ensures r.Ok? ==> forall i :: 0 <= i < |labels| ==> Ok(r.value[i]) == CleanLabelWithFallback(labels[i])
  {
    var newChannels: seq<string> := [];
    for ind := 0 to |labels|
      invariant |newChannels| == ind
      invariant forall i :: 0 <= i < ind ==> Ok(newChannels[i]) == CleanLabelWithFallback(labels[i])
    {
      var cleaned := CleanLabelWithFallback(labels[ind]);
      if cleaned.Err? {
        return cleaned.PropagateFailure();
      }
      newChannels := newChannels + [cleaned.value];
    }
    return Ok(newChannels);
  }

  lemma ChannelNameEndsInTwoDigits(lead: string, contact: nat)
    ensures var r := ChannelName(lead, contact);
            |r| >= 2 && IsDigit(r[|r| - 1]) && IsDigit(r[|r| - 2])
  {
    var ds := Pad2(contact);
    var r := ChannelName(lead, contact);
    assert r[|r| - 1] == ds[|ds| - 1];
    assert r[|r| - 2] == ds[|ds| - 2];
  }

  /** Every label clean_labels.py produces ends in at least two decimal digits. */
  lemma CleanLabelWithFallbackEndsInDigits(lbl: string)
    ensures CleanLabelWithFallback(lbl).Ok? ==>
              var r := CleanLabelWithFallback(lbl).value;
              |r| >= 2 && IsDigit(r[|r| - 1]) && IsDigit(r[|r| - 2])
  {
    match MatchLeadContact(lbl)
    case Some(m) => ChannelNameEndsInTwoDigits(CleanLead(m.lead), DigitsValue(m.digits));
    case None =>
      match MatchLead(lbl)
      case None =>
      case Some(lead) => ChannelNameEndsInTwoDigits(CleanLead(lead), 0);
  }

  /** A label that matches `(\D+)(\d+)` becomes its cleaned lead followed by
      its contact number in at least two digits. */
  lemma CleanLabelWithFallbackWithContact(lbl: string)
    requires MatchLeadContact(lbl).Some?
    ensures CleanLabelWithFallback(lbl).Ok?
    ensures var m := MatchLeadContact(lbl).value;
            var lead := CleanLead(m.lead);
            var r := CleanLabelWithFallback(lbl).value;
            && |r| >= |lead| + 2 && r[..|lead|] == lead
            && AllDigits(r[|lead|..]) && DigitsValue(r[|lead|..]) == DigitsValue(m.digits)
            && (|r| > |lead| + 2 ==> r[|lead|] != '0')
  {
    var m := MatchLeadContact(lbl).value;
    var lead := CleanLead(m.lead);
    var r := CleanLabelWithFallback(lbl).value;
    assert r[..|lead|] == lead;
    assert r[|lead|..] == Pad2(DigitsValue(m.digits));
  }

  /** A label with no digit at all gets contact 0: its cleaned lead then "00". */
  lemma CleanLabelWithFallbackNoContact(lbl: string)
    requires |lbl| > 0 && NoDigits(lbl)
    ensures CleanLabelWithFallback(lbl) == Ok(CleanLead(lbl) + "00")
  {
    assert NonDigitRun(lbl) == |lbl|;
    assert lbl[..|lbl|] == lbl;
    assert MatchLeadContact(lbl).None?;
    assert MatchLead(lbl) == Some(lbl);
    assert Pad2(0) == "00";
  }

  /** One label through `clean_channels`: the cleaned name and whether the
      channel is kept; a label that does not match makes `.group` fail. */
  function CleanChannel(lbl: string): (r: Result<(string, bool)>)
    ensures r.Ok? <==> MatchLeadContact(lbl).Some?
    ensures r.Err? ==> r.error == NoLeadMatch
  {
    match MatchLeadContact(lbl)
    case None => Err(NoLeadMatch)
    case Some(m) =>
      var lead := CleanLead(m.lead);
      Ok((ChannelName(lead, DigitsValue(m.digits)), lead !in NonIeegLeads))
  }

  /** `clean_channels(channel_li)`: the cleaned labels and the keep-mask, which
      starts all true and is cleared at each non-iEEG channel; the first label
      the regex does not match ends the call with an error. */
  method CleanChannels(labels: seq<string>) returns (r: Result<(seq<string>, seq<bool>)>)
    ensures r.Ok? <==> forall i :: 0 <= i < |labels| ==> MatchLeadContact(labels[i]).Some?
    ensures r.Err? ==> r.error == NoLeadMatch
    ensures r.Ok? ==> |r.value.0| == |labels| && |r.value.1| == |labels|
    ensures r.Ok? ==> forall i :: 0 <= i < |labels| ==> CleanChannel(labels[i]) == Ok((r.value.0[i], r.value.1[i]))
  {
    var newChannels: seq<string> := [];
    var keepChannels := seq(|labels|, _ => true);
    for ind := 0 to |labels|
      invariant |newChannels| == ind && |keepChannels| == |labels|
      invariant forall i :: 0 <= i < ind ==> CleanChannel(labels[i]) == Ok((newChannels[i], keepChannels[i]))
      invariant forall i :: ind <= i < |labels| ==> keepChannels[i]
    {
      var m := MatchLeadContact(labels[ind]);
      if m.None? {
        return Err(NoLeadMatch);
      }
      var lead := CleanLead(m.value.lead);
      if lead in NonIeegLeads {
        keepChannels := keepChannels[ind := false];
      }
      newChannels := newChannels + [ChannelName(lead, DigitsValue(m.value.digits))];
    }
    return Ok((newChannels, keepChannels));
  }

  /** A channel is dropped exactly when its cleaned lead (not its raw lead) is
      a non-iEEG name, and its new label is that cleaned lead with the contact
      zero-padded to at least two digits. */
  lemma CleanChannelKeepsIeeg(lbl: string)
    requires MatchLeadContact(lbl).Some?
    ensures CleanChannel(lbl).Ok?
    ensures var m := MatchLeadContact(lbl).value;
            var lead := CleanLead(m.lead);
            var (name, keep) := CleanChannel(lbl).value;
            && (keep <==> lead !in NonIeegLeads)
            && |name| >= |lead| + 2 && name[..|lead|] == lead
            && AllDigits(name[|lead|..]) && DigitsValue(name[|lead|..]) == DigitsValue(m.digits)
  {
    var m := MatchLeadContact(lbl).value;
    var lead := CleanLead(m.lead);
    var name := CleanChannel(lbl).value.0;
    assert name[..|lead|] == lead;
    assert name[|lead|..] == Pad2(DigitsValue(m.digits));
  }
}
