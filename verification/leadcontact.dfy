/** `re.match(r"(\D+)(\d+)", label)` and `re.match(r"(\D+)", label)`: split a
    channel label such as "LA12" into its lead text "LA" and its contact digits
    "12". Both patterns are anchored at the start of the label. */
module LeadContact {
  import opened Basics
  import opened PyStr

  /** The two groups of a successful match. */
  datatype Match = Match(lead: string, digits: string)

  /** The length of the longest prefix of `s` that holds no digit. */
  function NonDigitRun(s: string): (n: nat)
    ensures n <= |s| && NoDigits(s[..n])
    ensures n < |s| ==> IsDigit(s[n])
  {
    if |s| == 0 || IsDigit(s[0]) then 0
    else
      var n := 1 + NonDigitRun(s[1..]);
      assert s[..n] == [s[0]] + s[1..][..n - 1];
      n
  }

  /** The length of the longest prefix of `s` that holds only digits. */
  function DigitRun(s: string): (n: nat)
    ensures n <= |s| && AllDigits(s[..n])
    ensures n < |s| ==> !IsDigit(s[n])
  {
    if |s| == 0 || !IsDigit(s[0]) then 0
    else
      var n := 1 + DigitRun(s[1..]);
      assert s[..n] == [s[0]] + s[1..][..n - 1];
      n
  }

  /** The decompositions the pattern `(\D+)(\d+)` admits at the start of `s`,
      before greediness picks one. */
  predicate Admits(s: string, lead: string, digits: string)
  {
    && |lead| > 0 && NoDigits(lead)
    && |digits| > 0 && AllDigits(digits)
    && |lead| + |digits| <= |s| && s[..|lead| + |digits|] == lead + digits
  }

  /** `re.match(r"(\D+)(\d+)", s)`: greedy `\D+`, then greedy `\d+`. */
  function MatchLeadContact(s: string): (m: Option<Match>)
    ensures m.Some? ==> Admits(s, m.value.lead, m.value.digits)
  {
    var k := NonDigitRun(s);
    if 0 < k < |s| then
      var n := DigitRun(s[k..]);
      assert s[..k + n] == s[..k] + s[k..][..n];
      Some(Match(s[..k], s[k..][..n]))
    else
      None
  }

  /** The greedy match is the regex's answer: it exists exactly when some
      decomposition is admitted, its lead is the only possible lead, and its
      digit run is the longest possible one. */
  lemma MatchIsGreedy(s: string)
    ensures MatchLeadContact(s).Some? <==> exists lead, digits :: Admits(s, lead, digits)
    ensures MatchLeadContact(s).Some? ==>
              forall lead, digits :: Admits(s, lead, digits) ==>
                lead == MatchLeadContact(s).value.lead && |digits| <= |MatchLeadContact(s).value.digits|
  {
    var k := NonDigitRun(s);
    forall lead, digits | Admits(s, lead, digits)
      ensures 0 < k < |s| && lead == s[..k]
      ensures |digits| <= DigitRun(s[k..])
    {
      var l := |lead|;
      assert s[..l] == lead by {
        assert s[..l] == s[..l + |digits|][..l];
      }
      assert s[l] == digits[0] by {
        assert s[l] == s[..l + |digits|][l];
      }
      assert l == k;
      assert |digits| <= DigitRun(s[k..]);
    }
    var m := MatchLeadContact(s);
    if m.Some? {
      assert Admits(s, m.value.lead, m.value.digits);
    }
  }

  /** The non-digit run is the only prefix length that holds no digit and is
      followed by a digit or by the end of `s`. */
  lemma NonDigitRunIsUnique(s: string, k: nat)
    requires k <= |s| && NoDigits(s[..k])
    requires k < |s| ==> IsDigit(s[k])
    ensures NonDigitRun(s) == k
  {
    var n := NonDigitRun(s);
    assert forall i :: 0 <= i < k ==> !IsDigit(s[i]) by {
      forall i | 0 <= i < k ensures !IsDigit(s[i]) { assert s[..k][i] == s[i]; }
    }
    assert forall i :: 0 <= i < n ==> !IsDigit(s[i]) by {
      forall i | 0 <= i < n ensures !IsDigit(s[i]) { assert s[..n][i] == s[i]; }
    }
  }

  /** The digit run is the only prefix length that holds only digits and is
      followed by a non-digit or by the end of `s`. */
  lemma DigitRunIsUnique(s: string, n: nat)
    requires n <= |s| && AllDigits(s[..n])
    requires n < |s| ==> !IsDigit(s[n])
    ensures DigitRun(s) == n
  {
    var m := DigitRun(s);
    assert forall i :: 0 <= i < n ==> IsDigit(s[i]) by {
      forall i | 0 <= i < n ensures IsDigit(s[i]) { assert s[..n][i] == s[i]; }
    }
    assert forall i :: 0 <= i < m ==> IsDigit(s[i]) by {
      forall i | 0 <= i < m ensures IsDigit(s[i]) { assert s[..m][i] == s[i]; }
    }
  }

  /** Where the lead ends at `k` and the digits end at `k + n`, the match is
      exactly those two pieces. */
  lemma MatchLeadContactAt(s: string, k: nat, n: nat)
    requires 0 < k && 0 < n && k + n <= |s|
    requires NoDigits(s[..k]) && AllDigits(s[k..k + n])
    requires k + n < |s| ==> !IsDigit(s[k + n])
    ensures MatchLeadContact(s) == Some(Match(s[..k], s[k..k + n]))
  {
    assert s[k..k + n][0] == s[k];
    NonDigitRunIsUnique(s, k);
    assert s[k..][..n] == s[k..k + n];
    DigitRunIsUnique(s[k..], n);
  }

  /** `re.match(r"(\D+)", s)`: the whole leading non-digit run, if there is one. */
  function MatchLead(s: string): (m: Option<string>)
    ensures m.Some? <==> |s| > 0 && !IsDigit(s[0])
    ensures m.Some? ==> |m.value| > 0 && NoDigits(m.value) && m.value <= s
    ensures m.Some? && |m.value| < |s| ==> IsDigit(s[|m.value|])
  {
    var k := NonDigitRun(s);
    if k > 0 then Some(s[..k]) else None
  }
}
