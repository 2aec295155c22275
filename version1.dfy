/** The recursive generator and its `say` encoder (algorithm_test/look_and_say_version1.py). */
module Version1 {
  import opened Decimal
  import opened Runs
  import opened Terms

  /** `say`: nested while loops over index and count, accumulating `str(count) + s[index]`. */
  method Say(s: string) returns (result: string)
    ensures result == Encode(s)
  {
    result := "";
    var index := 0;
    while index < |s|
      invariant 0 <= index <= |s|
      invariant result + EncodeFrom(s, index) == Encode(s)
    {
      var count := 1;
      ghost var start := index;
      while index + 1 < |s| && s[index] == s[index + 1]
        invariant start <= index < |s|
        invariant count == index - start + 1
        invariant SameFrom(s, start, index)
      {
        SameFromExtend(s, start, index);
        count := count + 1;
        index := index + 1;
      }
      ScanAdvance(s, start, index, count, result);
      result := result + NatToDecimal(count) + [s[index]];
      index := index + 1;
    }
  }

  /** `look_and_say`: term 1 is "1", term n is `say` of term n - 1; below 1 the source never stops. */
  method LookAndSay(n: int) returns (r: string)
    requires n >= 1
    ensures r == Term(n)
    decreases n
  {
    if n == 1 {
      return "1";
    }
    var prev := LookAndSay(n - 1);
    r := Say(prev);
    TermNext(n - 1);
  }
}
