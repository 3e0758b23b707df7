/** Worked labels for the cleaners and the non-iEEG classifier. Each example
    is assembled from small facts about the string primitives, one lemma per
    fact, so that no single proof has to unfold every primitive at once. */
module LabelExamples {
  import opened Basics
  import opened PyStr
  import opened LeadContact
  import opened Labels

  // ------------------------------------------------ small facts

  lemma DigitsValueOne()
    ensures DigitsValue("1") == 1 && DigitsValue("3") == 3
  {
    assert "1"[..0] == "" && "3"[..0] == "";
  }

  lemma DigitsValueTwelve()
    ensures DigitsValue("12") == 12
  {
    assert "12"[..1] == "1";
    assert "1"[..0] == "";
  }

  lemma StripTrailingBlank()
    ensures Strip("LA ") == "LA"
  {
    assert LeadingSpaces("LA ") == 0 && "LA "[0..] == "LA ";
    assert "LA "[..2] == "LA" && TrailingSpaces("LA") == 0;
    assert TrailingSpaces("LA ") == 1;
  }

  lemma StripLeadingBlank()
    ensures Strip(" C") == "C"
  {
    assert " C"[1..] == "C" && LeadingSpaces("C") == 0;
    assert LeadingSpaces(" C") == 1;
    assert TrailingSpaces("C") == 0 && "C"[..1] == "C";
  }

  lemma RemoveEegPrefix()
    ensures RemoveAll("EEG C", "EEG") == " C"
  {
    assert "EEG C"[..3] == "EEG";
    assert "EEG C"[3..] == " C";
  }

  lemma RemoveEegAbsent()
    ensures RemoveAll("EKG", "EEG") == "EKG"
  {
    assert "EKG"[..3] != "EEG" by {
      assert "EKG"[..3][1] != "EEG"[1];
    }
    assert "EKG"[1..] == "KG";
  }

  lemma RemoveEegBeforeFz()
    ensures RemoveAll("EEG Fz", "EEG") == " Fz"
  {
    assert "EEG Fz"[..3] == "EEG";
    assert "EEG Fz"[3..] == " Fz";
  }

  lemma StripLeadingBlankFz()
    ensures Strip(" Fz") == "Fz"
  {
    assert " Fz"[1..] == "Fz" && LeadingSpaces("Fz") == 0;
    assert LeadingSpaces(" Fz") == 1;
    assert TrailingSpaces("Fz") == 0 && "Fz"[..2] == "Fz";
  }

  lemma PadOneDigit()
    ensures Pad2(0) == "00" && Pad2(1) == "01" && Pad2(3) == "03"
  {
  }

  lemma PadTwelve()
    ensures Pad2(12) == "12"
  {
    assert Decimal(1) == "1";
  }

  lemma CIsNonIeeg()
    ensures "C" in NonIeegLeads
  {
    assert NonIeegLeads[2] == "C";
  }

  lemma MatchLa1()
    ensures MatchLeadContact("LA1") == Some(Match("LA", "1"))
  {
    var s := "LA1";
    MatchLeadContactAt(s, 2, 1);
    assert s[..2] == "LA" && s[2..3] == "1";
  }

  lemma MatchLa12x()
    ensures MatchLeadContact("LA 12x") == Some(Match("LA ", "12"))
  {
    var s := "LA 12x";
    MatchLeadContactAt(s, 3, 2);
    assert s[..3] == "LA " && s[3..5] == "12";
  }

  lemma MatchEegC3()
    ensures MatchLeadContact("EEG C3") == Some(Match("EEG C", "3"))
  {
    var s := "EEG C3";
    MatchLeadContactAt(s, 5, 1);
    assert s[..5] == "EEG C" && s[5..6] == "3";
  }

  // ------------------------------------------------ the examples

  /** "LA1" becomes "LA01". */
  lemma NormalizeLabelPadsContact()
    ensures NormalizeLabel("LA1") == "LA01"
  {
    MatchLa1();
    StripUnchanged("LA");
    DigitsValueOne();
    PadOneDigit();
  }

  /** "LA 12x" becomes "LA12": the lead is stripped and the text after the
      contact is dropped. */
  lemma NormalizeLabelDropsTrailingText()
    ensures NormalizeLabel("LA 12x") == "LA12"
  {
    MatchLa12x();
    StripTrailingBlank();
    DigitsValueTwelve();
    PadTwelve();
  }

  /** "C3" is non-iEEG: its lead is exactly "C". */
  lemma NonIeegC3()
    ensures IsNonIeeg("C3")
  {
    MatchLeadContactAt("C3", 1, 1);
    assert "C3"[..1] == "C" == NonIeegLeads[2];
  }

  /** "Cz1" is not: its lead "Cz" only starts with a non-iEEG name. */
  lemma NonIeegCz1()
    ensures !IsNonIeeg("Cz1")
  {
    MatchLeadContactAt("Cz1", 2, 1);
    assert "Cz1"[..2] == "Cz";
  }

  /** Nor is "ECGX1", whose lead is "ECGX". */
  lemma NonIeegEcgx1()
    ensures !IsNonIeeg("ECGX1")
  {
    MatchLeadContactAt("ECGX1", 4, 1);
    assert "ECGX1"[..4] == "ECGX";
  }

  /** Nor is "EKG 1": the blank belongs to the lead, which is never stripped here. */
  lemma NonIeegEkgBlank1()
    ensures !IsNonIeeg("EKG 1")
  {
    MatchLeadContactAt("EKG 1", 4, 1);
    assert "EKG 1"[..4] == "EKG ";
  }

  /** "EKG" (no contact number) and "1A" (no lead) do not match at all. */
  lemma NonIeegNeedsMatch()
    ensures !IsNonIeeg("EKG") && !IsNonIeeg("1A")
  {
    NonDigitRunIsUnique("EKG", 3);
    assert "EKG"[..3] == "EKG";
    NonDigitRunIsUnique("1A", 0);
  }

  /** "EKG" becomes "EKG00" under clean_labels.py: no contact number means contact 0. */
  lemma CleanLabelWithFallbackEkg()
    ensures CleanLabelWithFallback("EKG") == Ok("EKG00")
  {
    CleanLeadUnchanged();
    assert NoDigits("EKG");
    CleanLabelWithFallbackNoContact("EKG");
    assert "EKG" + "00" == "EKG00";
  }

  /** "EEG Fz" becomes "Fz00": "EEG" is taken out of the lead and the blank
      it leaves is stripped. */
  lemma CleanLabelWithFallbackEegFz()
    ensures CleanLabelWithFallback("EEG Fz") == Ok("Fz00")
  {
    CleanLeadEegFz();
    NoDigitsEegFz();
    CleanLabelWithFallbackNoContact("EEG Fz");
    FzThenZeros();
  }

  lemma NoDigitsEegFz()
    ensures |"EEG Fz"| > 0 && NoDigits("EEG Fz")
  {
  }

  lemma FzThenZeros()
    ensures "Fz" + "00" == "Fz00"
  {
  }

  lemma ChannelNameC03()
    ensures ChannelName("C", 3) == "C03"
  {
    PadOneDigit();
    assert "C" + "03" == "C03";
  }

  lemma CleanLeadUnchanged()
    ensures CleanLead("EKG") == "EKG"
  {
    RemoveEegAbsent();
    StripUnchanged("EKG");
  }

  lemma CleanLeadEegC()
    ensures CleanLead("EEG C") == "C"
  {
    RemoveEegPrefix();
    StripLeadingBlank();
  }

  lemma CleanLeadEegFz()
    ensures CleanLead("EEG Fz") == "Fz"
  {
    RemoveEegBeforeFz();
    StripLeadingBlankFz();
  }

  /** "EEG C3" is dropped by `clean_channels`, whose test sees the cleaned
      lead "C" ... */
  lemma CleanChannelEegC3()
    ensures CleanChannel("EEG C3") == Ok(("C03", false))
  {
    MatchEegC3();
    CleanLeadEegC();
    DigitsValueOne();
    ChannelNameC03();
    CIsNonIeeg();
  }

  /** ... yet `find_non_ieeg` keeps it, whose test sees the raw lead "EEG C". */
  lemma FindNonIeegKeepsEegC3()
    ensures !IsNonIeeg("EEG C3")
  {
    MatchEegC3();
  }
}
