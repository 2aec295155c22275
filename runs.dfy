/** Maximal runs of equal characters: the intermediate concept every encoder scans for. */
module Runs {

  /** A run: `count` consecutive copies of `digit`. */
  datatype Run = Run(count: nat, digit: char)

  /** Length of the maximal run of s starting at index i (the inner while loop of every encoder). */
  function RunLength(s: string, i: nat): (r: nat)
    requires i < |s|
    ensures 1 <= r <= |s| - i
    decreases |s| - i
  {
    if i + 1 < |s| && s[i] == s[i + 1] then 1 + RunLength(s, i + 1) else 1
  }

  /** The run at i is uniform and maximal: every character in it is s[i], and the next one is not. */
  lemma {:induction false} RunLengthIsMaximal(s: string, i: nat)
    requires i < |s|
    ensures forall k :: i <= k < i + RunLength(s, i) ==> s[k] == s[i]
    ensures i + RunLength(s, i) == |s| || s[i + RunLength(s, i)] != s[i]
    decreases |s| - i
  {
    if i + 1 < |s| && s[i] == s[i + 1] {
      RunLengthIsMaximal(s, i + 1);
    }
  }

  /** Every character of s from start to last (inclusive) equals s[start]: the inner loops' invariant. */
  predicate SameFrom(s: string, start: nat, last: nat)
    requires start <= last < |s|
  {
    forall k :: start <= k <= last ==> s[k] == s[start]
  }

  /** The inner loop's step: a next character equal to the current one extends the run. */
  lemma SameFromExtend(s: string, start: nat, last: nat)
    requires start <= last && last + 1 < |s|
    requires SameFrom(s, start, last) && s[last] == s[last + 1]
    ensures SameFrom(s, start, last + 1)
  {
  }

  /** Any length with the two properties of RunLengthIsMaximal is RunLength. */
  lemma {:induction false} RunLengthUnique(s: string, i: nat, c: nat)
    requires 1 <= c && i + c <= |s|
    requires forall k :: i <= k < i + c ==> s[k] == s[i]
    requires i + c == |s| || s[i + c] != s[i]
    ensures RunLength(s, i) == c
    decreases c
  {
    if c > 1 {
      assert s[i + 1] == s[i];
      RunLengthUnique(s, i + 1, c - 1);
    }
  }

  /** The maximal runs of s[i..], left to right. */
  function RunsFrom(s: string, i: nat): seq<Run>
    requires i <= |s|
    decreases |s| - i
  {
    if i == |s| then [] else
      var k := RunLength(s, i);
      [Run(k, s[i])] + RunsFrom(s, i + k)
  }

  /** The maximal runs of s, left to right. */
  function RunsOf(s: string): seq<Run>
  {
    RunsFrom(s, 0)
  }

  /** The first run found from index i, and the runs after it. */
  lemma RunsFromFront(s: string, i: nat)
    requires i < |s|
    ensures RunsFrom(s, i) != []
    ensures RunsFrom(s, i)[0] == Run(RunLength(s, i), s[i])
    ensures RunsFrom(s, i)[1..] == RunsFrom(s, i + RunLength(s, i))
  {
  }

  /** Run j > 0 found from i is run j - 1 found after the first run. */
  lemma RunsFromLater(s: string, i: nat, j: nat)
    requires i < |s| && 0 < j < |RunsFrom(s, i)|
    ensures j - 1 < |RunsFrom(s, i + RunLength(s, i))|
    ensures RunsFrom(s, i)[j] == RunsFrom(s, i + RunLength(s, i))[j - 1]
  {
    RunsFromFront(s, i);
    var rs := RunsFrom(s, i);
    assert rs[j] == rs[1..][j - 1];
  }

  function Repeat(c: char, k: nat): (r: string)
    ensures |r| == k
    ensures forall i :: 0 <= i < k ==> r[i] == c
  {
    seq(k, _ => c)
  }

  /** Expands a run list back into the characters it describes. */
  function Decode(rs: seq<Run>): string
  {
    if rs == [] then [] else Repeat(rs[0].digit, rs[0].count) + Decode(rs[1..])
  }

  /** Run i carries a different character from run i - 1. */
  predicate Changes(rs: seq<Run>, i: nat)
    requires 0 < i < |rs|
  {
    rs[i - 1].digit != rs[i].digit
  }

  /** Every count is positive and neighbouring runs carry different characters. */
  predicate WellFormed(rs: seq<Run>)
  {
    (forall i :: 0 <= i < |rs| ==> rs[i].count >= 1) &&
    (forall i: nat :: 0 < i < |rs| ==> Changes(rs, i))
  }

  lemma RepeatIsSlice(s: string, i: nat, k: nat)
    requires 1 <= k && i + k <= |s| && forall j :: i <= j < i + k ==> s[j] == s[i]
    ensures Repeat(s[i], k) == s[i..i + k]
  {
  }

  /** Round trip from index i: expanding the runs of s[i..] gives back s[i..]. */
  lemma {:induction false} DecodeRunsFrom(s: string, i: nat)
    requires i <= |s|
    ensures Decode(RunsFrom(s, i)) == s[i..]
    decreases |s| - i
  {
    if i < |s| {
      var k := RunLength(s, i);
      var rs := RunsFrom(s, i);
      RunsFromFront(s, i);
      RunLengthIsMaximal(s, i);
      calc {
        Decode(rs);
        Repeat(s[i], k) + Decode(RunsFrom(s, i + k));
        == { DecodeRunsFrom(s, i + k); }
        Repeat(s[i], k) + s[i + k..];
        == { RepeatIsSlice(s, i, k); }
        s[i..i + k] + s[i + k..];
        s[i..];
      }
    }
  }

  /** Round trip: repeating each digit by its count and concatenating gives back s. */
  lemma DecodeRunsOf(s: string)
    ensures Decode(RunsOf(s)) == s
  {
    DecodeRunsFrom(s, 0);
    assert s[0..] == s;
  }

  /** The runs found from index i are maximal: positive counts, no two neighbours with the same digit. */
  lemma {:induction false} RunsFromWellFormed(s: string, i: nat)
    requires i <= |s|
    ensures WellFormed(RunsFrom(s, i))
    ensures RunsFrom(s, i) == [] <==> i == |s|
    ensures i < |s| ==> RunsFrom(s, i)[0].digit == s[i]
    decreases |s| - i
  {
    if i < |s| {
      var k := RunLength(s, i);
      var rs := RunsFrom(s, i);
      var tail := RunsFrom(s, i + k);
      RunsFromFront(s, i);
      RunLengthIsMaximal(s, i);
      RunsFromWellFormed(s, i + k);
      forall j: nat | 0 < j < |rs| ensures Changes(rs, j) {
        RunsFromLater(s, i, j);
        if j == 1 {
          assert i + k < |s| && tail[0].digit == s[i + k];
          assert s[i + k] != s[i];
        } else {
          assert Changes(tail, j - 1);
          RunsFromLater(s, i, j - 1);
        }
      }
      forall j | 0 <= j < |rs| ensures rs[j].count >= 1 {
        if j > 0 {
          RunsFromLater(s, i, j);
        }
      }
    }
  }

  /** The runs found are maximal: positive counts and no two neighbours with the same digit. */
  lemma RunsOfWellFormed(s: string)
    ensures WellFormed(RunsOf(s))
    ensures RunsOf(s) == [] <==> s == []
    ensures s != [] ==> RunsOf(s)[0].digit == s[0]
  {
    RunsFromWellFormed(s, 0);
  }

  lemma DecodeEmpty(rs: seq<Run>)
    requires WellFormed(rs)
    ensures Decode(rs) == [] <==> rs == []
    ensures rs != [] ==> Decode(rs)[0] == rs[0].digit
  {
  }

  lemma WellFormedTail(rs: seq<Run>)
    requires WellFormed(rs) && rs != []
    ensures WellFormed(rs[1..])
  {
    var tail := rs[1..];
    forall j: nat | 0 < j < |tail| ensures Changes(tail, j) {
      assert Changes(rs, j + 1);
      assert tail[j - 1] == rs[j] && tail[j] == rs[j + 1];
    }
  }

  /** The first run of a well-formed list that decodes to s[i..] is the maximal run of s at i. */
  lemma FirstRunOfDecode(rs: seq<Run>, s: string, i: nat)
    requires i <= |s| && rs != []
    requires WellFormed(rs) && Decode(rs) == s[i..]
    ensures i < |s| && RunLength(s, i) == rs[0].count && s[i] == rs[0].digit
    ensures WellFormed(rs[1..]) && Decode(rs[1..]) == s[i + rs[0].count..]
  {
    var c, d := rs[0].count, rs[0].digit;
    var t, tail := s[i..], rs[1..];
    WellFormedTail(rs);
    DecodeEmpty(tail);
    assert t == Repeat(d, c) + Decode(tail);
    forall k | i <= k < i + c ensures s[k] == d {
      assert s[k] == t[k - i];
    }
    assert c >= 1 && i + c <= |s|;
    assert s[i] == d;
    if i + c < |s| {
      assert s[i + c] == t[c] == Decode(tail)[0];
      assert Changes(rs, 1);
    }
    RunLengthUnique(s, i, c);
    assert t[c..] == s[i + c..];
  }

  lemma SameHeadAndTail(a: seq<Run>, b: seq<Run>)
    requires a != [] && b != [] && a[0] == b[0] && a[1..] == b[1..]
    ensures a == b
  {
    assert a == [a[0]] + a[1..] && b == [b[0]] + b[1..];
  }

  /** Maximal runs are unique: a well-formed run list that decodes to s[i..] is RunsFrom(s, i). */
  lemma {:induction false} RunsFromUnique(rs: seq<Run>, s: string, i: nat)
    requires i <= |s|
    requires WellFormed(rs) && Decode(rs) == s[i..]
    ensures rs == RunsFrom(s, i)
    decreases |rs|
  {
    if rs == [] {
      DecodeEmpty(rs);
    } else {
      FirstRunOfDecode(rs, s, i);
      RunsFromUnique(rs[1..], s, i + rs[0].count);
      RunsFromFront(s, i);
      SameHeadAndTail(rs, RunsFrom(s, i));
    }
  }

  /** Maximal runs are unique: a well-formed run list that decodes to s is RunsOf(s). */
  lemma RunsOfUnique(rs: seq<Run>, s: string)
    requires WellFormed(rs) && Decode(rs) == s
    ensures rs == RunsOf(s)
  {
    assert s[0..] == s;
    RunsFromUnique(rs, s, 0);
  }
}
