/** The iterative generator with the encoder written inline (algorithm_test/look_and_say_version2.py). */
module Version2 {
  import opened Decimal
  import opened Runs
  import opened Terms
  import opened Validation

  /** Entry k of a history of terms is the encoding of entry k - 1. */
  predicate EncodedAt(terms: seq<string>, k: nat)
    requires 0 < k < |terms|
  {
    terms[k] == Encode(terms[k - 1])
  }

  /** A history that starts at "1" and encodes each entry into the next holds the terms, in order. */
  lemma {:induction false} HistoryHoldsTerms(terms: seq<string>, m: nat)
    requires 1 <= m <= |terms| && terms[0] == "1"
    requires forall k :: 0 < k < |terms| ==> EncodedAt(terms, k)
    ensures terms[m - 1] == Term(m)
    decreases m
  {
    if m >= 2 {
      HistoryHoldsTerms(terms, m - 1);
      assert EncodedAt(terms, m - 1);
      TermNext(m - 1);
    }
  }

  /** `look_and_say_iterative`: checks the range, then applies the encoding n - 1 times to "1". */
  method LookAndSayIterative(n: int) returns (r: Result<string>)
    ensures r.Err? <==> OutOfRange(n)
    ensures r.Err? ==> r.error == ValueError(RangeMessage)
    ensures r.Ok? ==> r.value == Term(n)
  {
    if n <= 3 || n >= 100 {
      return Err(ValueError(RangeMessage));
    }
    var current := "1";
    // `terms` records every value `current` has held: the terms computed so far.
    ghost var terms := ["1"];
    for i := 1 to n
      invariant |terms| == i && terms[0] == "1" && terms[i - 1] == current
      invariant forall k :: 0 < k < |terms| ==> EncodedAt(terms, k)
    {
      var nextTerm := "";
      var index := 0;
      while index < |current|
        invariant 0 <= index <= |current|
        invariant nextTerm + EncodeFrom(current, index) == Encode(current)
      {
        var count := 1;
        ghost var start := index;
        while index + 1 < |current| && current[index] == current[index + 1]
          invariant start <= index < |current|
          invariant count == index - start + 1
          invariant SameFrom(current, start, index)
        {
          SameFromExtend(current, start, index);
          count := count + 1;
          index := index + 1;
        }
        ScanAdvance(current, start, index, count, nextTerm);
        nextTerm := nextTerm + NatToDecimal(count) + [current[index]];
        index := index + 1;
      }
      assert nextTerm == Encode(current);
      ghost var old_terms := terms;
      current := nextTerm;
      terms := terms + [current];
      assert EncodedAt(terms, i);
      forall k | 0 < k < i ensures EncodedAt(terms, k) {
        assert EncodedAt(old_terms, k);
        assert terms[k] == old_terms[k] && terms[k - 1] == old_terms[k - 1];
      }
    }
    TermNext(1);
    HistoryHoldsTerms(terms, n);
    return Ok(current);
  }
}
