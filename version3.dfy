/** The generator over a per-call cache, with a list-and-join encoder (algorithm_test/look_and_say_version3.py). */
module Version3 {
  import opened Decimal
  import opened Runs
  import opened Terms
  import opened Validation

  /** `"".join(parts)`: the parts concatenated left to right, the first part first. */
  function Join(parts: seq<string>): (r: string)
    ensures parts == [] ==> r == []
    ensures parts != [] ==> r == parts[0] + Join(parts[1..])
    decreases |parts|
  {
    if parts == [] then [] else
      var init, last := parts[..|parts| - 1], parts[|parts| - 1];
      assert init != [] ==> init[1..] == parts[1..][..|parts| - 2];
      Join(init) + last
  }

  lemma JoinAppend(parts: seq<string>, p: string)
    ensures Join(parts + [p]) == Join(parts) + p
  {
    assert (parts + [p])[..|parts|] == parts;
  }

  /** `read_and_count`: appends one token `f"{count}{s[index]}"` per run, then joins them. */
  method ReadAndCount(s: string) returns (result: string)
    ensures result == Encode(s)
  {
    var nextParts: seq<string> := [];
    var index := 0;
    while index < |s|
      invariant 0 <= index <= |s|
      invariant Join(nextParts) + EncodeFrom(s, index) == Encode(s)
    {
      var count := 1;
      ghost var start := index;
      while index + 1 < |s| && s[index] == s[index + 1]
        invariant start <= index < |s|
        invariant count == index - start + 1
        invariant SameFrom(s, start, index)
      {
        SameFromExtend(s, start, index);
        count := count + 1;
        index := index + 1;
      }
      ScanAdvance(s, start, index, count, Join(nextParts));
      var token := NatToDecimal(count) + [s[index]];
      JoinAppend(nextParts, token);
      nextParts := nextParts + [token];
      index := index + 1;
    }
    result := Join(nextParts);
  }

  /** Entry k of the cache is the encoding of entry k - 1. */
  predicate CachedAt(cache: map<int, string>, k: int)
    requires k in cache && k - 1 in cache
  {
    cache[k] == Encode(cache[k - 1])
  }

  /** A cache that starts at "1" and holds the encoding of each previous entry holds the terms. */
  lemma {:induction false} CacheHoldsTerms(cache: map<int, string>, m: int)
    requires forall k :: 1 <= k <= m ==> k in cache
    requires 1 in cache && cache[1] == "1"
    requires forall k :: 2 <= k <= m ==> CachedAt(cache, k)
    ensures forall k :: 1 <= k <= m ==> cache[k] == Term(k)
    decreases m
  {
    if m >= 2 {
      CacheHoldsTerms(cache, m - 1);
      assert CachedAt(cache, m);
      TermNext(m - 1);
    }
  }

  /** `look_and_say_iterative`: checks the range, then fills a fresh cache from index 2 to n. */
  method LookAndSayIterative(n: int) returns (r: Result<string>)
    ensures r.Err? <==> OutOfRange(n)
    ensures r.Err? ==> r.error == ValueError(RangeMessage)
    ensures r.Ok? ==> r.value == Term(n)
  {
    if n <= 3 || n >= 100 {
      return Err(ValueError(RangeMessage));
    }
    var cache: map<int, string> := map[1 := "1"];
    for i := 2 to n + 1
      invariant forall k :: k in cache <==> 1 <= k < i
      invariant cache[1] == "1"
      invariant forall k :: 2 <= k < i ==> CachedAt(cache, k)
    {
      // The cache is created by this call, so index i is never present yet.
      assert i !in cache;
      if i !in cache {
        var prev := cache[i - 1];
        var next := ReadAndCount(prev);
        ghost var before := cache;
        cache := cache[i := next];
        assert CachedAt(cache, i);
        forall k | 2 <= k < i ensures CachedAt(cache, k) {
          assert CachedAt(before, k);
        }
      }
    }
    CacheHoldsTerms(cache, n);
    return Ok(cache[n]);
  }
}
