/**
  The action identifiers of agent/model.py and the identifier check of
  validator/validator.py.
 */
module ActionIds {
  import opened Text

  // The characters `[A-Za-z0-9._:-]` both sides agree on.
  predicate IsLetterOrDigit(c: char) {
    'A' <= c <= 'Z' || 'a' <= c <= 'z' || IsDigit(c)
  }

  predicate IsSafe(c: char) {
    IsLetterOrDigit(c) || c == '.' || c == '_' || c == ':' || c == '-'
  }

  predicate AllSafe(s: string) {
    forall i :: 0 <= i < |s| ==> IsSafe(s[i])
  }

  // Every maximal run of unsafe characters becomes one hyphen.
  function Hyphenated(s: string, inRun: bool): string {
    if s == "" then ""
    else if IsSafe(s[0]) then [s[0]] + Hyphenated(s[1..], false)
    else if inRun then Hyphenated(s[1..], true)
    else "-" + Hyphenated(s[1..], true)
  }

  function WithoutLeadingHyphens(s: string): string {
    if s != "" && s[0] == '-' then WithoutLeadingHyphens(s[1..]) else s
  }

  function WithoutTrailingHyphens(s: string): string {
    if s != "" && s[|s| - 1] == '-' then WithoutTrailingHyphens(s[..|s| - 1]) else s
  }

  function Stem(findingId: string): string {
    var stripped := WithoutTrailingHyphens(WithoutLeadingHyphens(Hyphenated(findingId, false)));
    var named := if stripped == "" then "finding" else stripped;
    if |named| <= 96 then named else named[..96]
  }

  lemma {:induction false} HyphenatedIsSafe(s: string, inRun: bool)
    ensures AllSafe(Hyphenated(s, inRun))
  {
    if s != "" {
      HyphenatedIsSafe(s[1..], false);
      HyphenatedIsSafe(s[1..], true);
    }
  }

  lemma {:induction false} LeadingKeepsSafe(s: string)
    requires AllSafe(s)
    ensures AllSafe(WithoutLeadingHyphens(s))
  {
    if s != "" && s[0] == '-' {
      LeadingKeepsSafe(s[1..]);
    }
  }

  lemma {:induction false} TrailingKeepsSafe(s: string)
    requires AllSafe(s)
    ensures AllSafe(WithoutTrailingHyphens(s))
  {
    if s != "" && s[|s| - 1] == '-' {
      TrailingKeepsSafe(s[..|s| - 1]);
    }
  }

  lemma StemIsSafe(findingId: string)
    ensures AllSafe(Stem(findingId)) && 0 < |Stem(findingId)| <= 96
  {
    HyphenatedIsSafe(findingId, false);
    LeadingKeepsSafe(Hyphenated(findingId, false));
    TrailingKeepsSafe(WithoutLeadingHyphens(Hyphenated(findingId, false)));
    assert AllSafe("finding");
  }

  // Letters, digits, full stop, underscore, colon and hyphen, by their codes.
  lemma SafeAre(c: char)
    ensures IsLetterOrDigit(c) <==> 48 <= c as int <= 57 || 65 <= c as int <= 90 || 97 <= c as int <= 122
    ensures IsSafe(c) <==> IsLetterOrDigit(c) || c as int in {45, 46, 58, 95}
  {
  }

  // Safe text stays as it is.
  lemma {:induction false} SafeTextStays(s: string, rest: string, inRun: bool)
    requires AllSafe(s)
    ensures Hyphenated(s + rest, inRun) == s + Hyphenated(rest, if s == "" then inRun else false)
  {
    if s == "" {
      assert s + rest == rest;
    } else {
      assert (s + rest)[1..] == s[1..] + rest;
      SafeTextStays(s[1..], rest, false);
    }
  }

  // A run of unsafe characters becomes one hyphen.
  lemma {:induction false} UnsafeRunIsOneHyphen(run: string, rest: string, inRun: bool)
    requires run != "" && forall i :: 0 <= i < |run| ==> !IsSafe(run[i])
    requires rest == "" || IsSafe(rest[0])
    ensures Hyphenated(run + rest, inRun) == (if inRun then "" else "-") + Hyphenated(rest, false)
  {
    var s := run + rest;
    assert s[1..] == run[1..] + rest;
    if |run| > 1 {
      UnsafeRunIsOneHyphen(run[1..], rest, true);
    } else {
      assert s[1..] == rest;
    }
  }

  lemma {:induction false} HyphensAreStripped(before: string, core: string, behind: string)
    requires forall i :: 0 <= i < |before| ==> before[i] == '-'
    requires forall i :: 0 <= i < |behind| ==> behind[i] == '-'
    requires core != "" && core[0] != '-' && core[|core| - 1] != '-'
    ensures WithoutTrailingHyphens(WithoutLeadingHyphens(before + core + behind)) == core
    decreases |before| + |behind|
  {
    var s := before + core + behind;
    if before != "" {
      assert s[1..] == before[1..] + core + behind;
      HyphensAreStripped(before[1..], core, behind);
    } else if behind != "" {
      var front := behind[..|behind| - 1];
      assert s == core + behind && s[..|s| - 1] == "" + core + front;
      HyphensAreStripped("", core, front);
      assert ("" + core + front)[0] == core[0];
    } else {
      assert s == core;
    }
  }

  lemma {:induction false} OnlyHyphensAreStripped(s: string)
    requires forall i :: 0 <= i < |s| ==> s[i] == '-'
    ensures WithoutTrailingHyphens(WithoutLeadingHyphens(s)) == ""
  {
    if s != "" {
      OnlyHyphensAreStripped(s[1..]);
    }
  }

  // An identifier is made from the finding's own, hyphens at its ends stripped: its
  // first 96 characters, or a word for nothing left, between the prefix and the
  // number.
  lemma BuiltIdIs(findingId: string, iteration: nat, before: string, core: string, behind: string)
    requires Hyphenated(findingId, false) == before + core + behind
    requires forall i :: 0 <= i < |before| ==> before[i] == '-'
    requires forall i :: 0 <= i < |behind| ==> behind[i] == '-'
    requires core != "" ==> core[0] != '-' && core[|core| - 1] != '-'
    ensures BuildActionId(findingId, iteration) ==
      "action-" + (if core == "" then "finding" else if |core| < 97 then core else core[..96])
      + ("-" + Digits(iteration))
  {
    if core == "" {
      OnlyHyphensAreStripped(before + core + behind);
    } else {
      HyphensAreStripped(before, core, behind);
    }
  }

  // `_build_action_id`; an iteration is at least one wherever an action exists.
  function BuildActionId(findingId: string, iteration: nat): string {
    "action-" + Stem(findingId) + "-" + Digits(iteration)
  }

  // `_ACTION_ID_RE`.
  predicate MatchesActionId(s: string) {
    1 <= |s| <= 128 && IsLetterOrDigit(s[0]) && AllSafe(s)
  }

  lemma PatternIs(s: string)
    ensures MatchesActionId(s) <==>
      && s != "" && |s| < 129 && s[0] != '.' && s[0] != '_' && s[0] != ':' && s[0] != '-'
      && forall i :: 0 <= i < |s| ==> IsSafe(s[i])
  {
  }

  lemma {:induction false} DigitsAreShort(n: nat, width: nat)
    requires n < Power10(width) && width > 0
    ensures |Digits(n)| <= width
  {
    if n >= 10 {
      DigitsAreShort(n / 10, width - 1);
    }
  }

  function Power10(width: nat): nat {
    if width == 0 then 1 else 10 * Power10(width - 1)
  }

  // Whatever the scanner called its finding, the identifier built for it
  // passes the policy's identifier check in every run the step limit allows.
  lemma BuiltIdsPassThePolicy(findingId: string, iteration: nat)
    requires iteration < Power10(24)
    ensures MatchesActionId(BuildActionId(findingId, iteration))
  {
    DigitsAreShort(iteration, 24);
    StemIsSafe(findingId);
    assert AllSafe("action-") && "action-"[0] == 'a';
    assert AllSafe("action-" + Stem(findingId) + "-");
    assert AllSafe(Digits(iteration));
  }

  // Two iterations on one finding never share an identifier.
  lemma BuiltIdsAreDistinct(findingId: string, m: nat, n: nat)
    ensures BuildActionId(findingId, m) == BuildActionId(findingId, n) ==> m == n
  {
    var front := "action-" + Stem(findingId) + "-";
    var a, b := front + Digits(m), front + Digits(n);
    assert a[|front|..] == Digits(m) && b[|front|..] == Digits(n);
    DigitsInjective(m, n);
  }
}
