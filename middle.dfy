/** `get_middle_two_digits`, identical in all three versions. */
module Middle {
  import opened Runs
  import opened Terms

  /** Identity below length 2; otherwise the two characters at len/2 - 1 and len/2. */
  function MiddleTwoDigits(s: string): (r: string)
    ensures |s| < 2 ==> r == s
    ensures |s| >= 2 ==> |r| == 2 && r[0] == s[|s| / 2 - 1] && r[1] == s[|s| / 2]
  {
    if |s| < 2 then s else s[|s| / 2 - 1 .. |s| / 2 + 1]
  }

  /** The window is the two-character slice with as many characters after it as before, or one more. */
  lemma MiddleIsCentred(s: string, i: nat)
    requires i + 2 <= |s|
    requires |s| - (i + 2) == i || |s| - (i + 2) == i + 1
    ensures MiddleTwoDigits(s) == s[i..i + 2]
    ensures s == s[..i] + MiddleTwoDigits(s) + s[i + 2..]
  {
  }

  /** From term 2 on a term has even length, so its middle two digits sit exactly in the centre. */
  lemma TermMiddleBalanced(n: nat)
    requires n >= 2
    ensures |Term(n)| >= 2
    ensures var t, i := Term(n), |Term(n)| / 2 - 1;
      |t[..i]| == |t[i + 2..]| && MiddleTwoDigits(t) == t[i..i + 2]
  {
    var t := Term(n);
    TermPairs(n);
    TermDigits(n - 1);
    RunsOfWellFormed(Term(n - 1));
    var h := |RunsOf(Term(n - 1))|;
    assert |t| == 2 * h && h >= 1;
    MiddleIsCentred(t, h - 1);
  }
}
