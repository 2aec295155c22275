/** The look-and-say rule as a specification: the encoder all three versions implement, and the terms. */
module Terms {
  import opened Decimal
  import opened Runs

  /** "count, then digit" for one run: `str(count) + s[index]`. The token ends in the digit, and
      the numeral before it reads back as the count, so the run can be recovered from its token. */
  function Token(r: Run): (t: string)
    ensures |t| >= 2 && t[|t| - 1] == r.digit
    ensures IsDigits(t[..|t| - 1]) && DecimalToNat(t[..|t| - 1]) == r.count
  {
    var t := NatToDecimal(r.count) + [r.digit];
    assert t[..|t| - 1] == NatToDecimal(r.count);
    DecimalRoundTrip(r.count);
    t
  }

  /** The tokens of a run list, concatenated left to right. */
  function EncodeRuns(rs: seq<Run>): string
  {
    if rs == [] then [] else Token(rs[0]) + EncodeRuns(rs[1..])
  }

  /** The encoding of s[i..], read off as the encoders scan: the token of the run at i, then the rest. */
  function EncodeFrom(s: string, i: nat): string
    requires i <= |s|
    decreases |s| - i
  {
    if i == |s| then [] else
      var k := RunLength(s, i);
      NatToDecimal(k) + [s[i]] + EncodeFrom(s, i + k)
  }

  /** The next term: the whole of s, scanned from the left. It is empty exactly when s is, so
      `say("")` is `""` and no other input reads as nothing. */
  function Encode(s: string): (r: string)
    ensures r == [] <==> s == []
  {
    EncodeFrom(s, 0)
  }

  /** s with the encoding applied k times. */
  function Iterate(s: string, k: nat): string
    decreases k
  {
    if k == 0 then s else Iterate(Encode(s), k - 1)
  }

  /** Term n of the sequence, 1-based: "1" with the encoding applied n - 1 times. */
  function Term(n: nat): string
    requires n >= 1
  {
    Iterate("1", n - 1)
  }

  /** Applying the encoding once more is encoding the last result. */
  lemma {:induction false} IterateLast(s: string, k: nat)
    ensures Iterate(s, k + 1) == Encode(Iterate(s, k))
    decreases k
  {
    if k > 0 {
      IterateLast(Encode(s), k - 1);
    }
  }

  /** The recursive reading: term 1 is "1", and each later term is the encoding of the one before. */
  lemma TermNext(n: nat)
    requires n >= 1
    ensures Term(1) == "1"
    ensures Term(n + 1) == Encode(Term(n))
  {
    IterateLast("1", n - 1);
  }

  lemma EncodeRunsCons(r: Run, rs: seq<Run>)
    ensures EncodeRuns([r] + rs) == Token(r) + EncodeRuns(rs)
  {
    assert ([r] + rs)[1..] == rs;
  }

  /** The scan and the run-level reading agree: scanning from i gives the tokens of the maximal runs of s[i..]. */
  lemma {:induction false} EncodeFromIsTokensOfRuns(s: string, i: nat)
    requires i <= |s|
    ensures EncodeFrom(s, i) == EncodeRuns(RunsFrom(s, i))
    decreases |s| - i
  {
    if i < |s| {
      var k := RunLength(s, i);
      var r := Run(k, s[i]);
      calc {
        EncodeFrom(s, i);
        Token(r) + EncodeFrom(s, i + k);
        == { EncodeFromIsTokensOfRuns(s, i + k); }
        Token(r) + EncodeRuns(RunsFrom(s, i + k));
        == { EncodeRunsCons(r, RunsFrom(s, i + k)); }
        EncodeRuns([r] + RunsFrom(s, i + k));
        EncodeRuns(RunsFrom(s, i));
      }
    }
  }

  /** Encode(s) is the tokens of the maximal runs of s, left to right. */
  lemma EncodeIsTokensOfRuns(s: string)
    ensures Encode(s) == EncodeRuns(RunsOf(s))
  {
    EncodeFromIsTokensOfRuns(s, 0);
  }

  /** A string is encoded into the tokens of any well-formed run list that expands to it. */
  lemma EncodeDecode(rs: seq<Run>, s: string)
    requires WellFormed(rs) && Decode(rs) == s
    ensures Encode(s) == EncodeRuns(rs)
  {
    RunsOfUnique(rs, s);
    EncodeIsTokensOfRuns(s);
  }

  /** The outer-loop invariant of each encoder survives emitting the token of the run scanned from
      `start` to `index`: the inner loop has stopped, so that run is maximal. */
  lemma ScanAdvance(s: string, start: nat, index: nat, count: nat, acc: string)
    requires start <= index < |s| && count == index - start + 1
    requires SameFrom(s, start, index)
    requires !(index + 1 < |s| && s[index] == s[index + 1])
    requires acc + EncodeFrom(s, start) == Encode(s)
    ensures acc + NatToDecimal(count) + [s[index]] + EncodeFrom(s, index + 1) == Encode(s)
    ensures acc + (NatToDecimal(count) + [s[index]]) + EncodeFrom(s, index + 1) == Encode(s)
  {
    var tok, rest := NatToDecimal(count) + [s[start]], EncodeFrom(s, start + count);
    assert s[index] == s[start];
    RunLengthUnique(s, start, count);
    calc {
      acc + tok + rest;
      acc + (tok + rest);
      acc + EncodeFrom(s, start);
      Encode(s);
    }
  }

  /** Every run found from index i carries a character of s. */
  lemma {:induction false} RunDigitsFrom(s: string, i: nat)
    requires i <= |s|
    ensures forall j :: 0 <= j < |RunsFrom(s, i)| ==> RunsFrom(s, i)[j].digit in s
    decreases |s| - i
  {
    if i < |s| {
      var k := RunLength(s, i);
      var rs := RunsFrom(s, i);
      RunsFromFront(s, i);
      RunDigitsFrom(s, i + k);
      forall j | 0 <= j < |rs| ensures rs[j].digit in s {
        if j > 0 {
          RunsFromLater(s, i, j);
        }
      }
    }
  }

  lemma {:induction false} EncodeRunsDigits(rs: seq<Run>)
    requires forall j :: 0 <= j < |rs| ==> IsDigit(rs[j].digit)
    ensures IsDigits(EncodeRuns(rs))
    decreases |rs|
  {
    if rs != [] {
      EncodeRunsDigits(rs[1..]);
    }
  }

  /** A digit string is encoded into a digit string. */
  lemma EncodeDigits(s: string)
    requires IsDigits(s)
    ensures IsDigits(Encode(s))
  {
    RunDigitsFrom(s, 0);
    EncodeRunsDigits(RunsOf(s));
    EncodeIsTokensOfRuns(s);
  }

  /** Every term is a non-empty string of decimal digits. */
  lemma {:induction false} TermDigits(n: nat)
    requires n >= 1
    ensures Term(n) != [] && IsDigits(Term(n))
    decreases n
  {
    if n > 1 {
      TermNext(n - 1);
      TermDigits(n - 1);
      EncodeDigits(Term(n - 1));
    }
  }

  // Conway's observation: no term contains a digit other than 1, 2, 3,
  // so every `str(count)` the generators emit is one character.

  predicate Digits123(s: string)
  {
    forall i :: 0 <= i < |s| ==> '1' <= s[i] <= '3'
  }

  /** Four equal characters start at position p. */
  predicate FourAt(s: string, p: nat)
    requires p + 3 < |s|
  {
    s[p] == s[p + 1] && s[p + 1] == s[p + 2] && s[p + 2] == s[p + 3]
  }

  predicate NoFourInARow(s: string)
  {
    forall p: nat :: p + 3 < |s| ==> !FourAt(s, p)
  }

  /** Without four equal characters in a row, no maximal run is longer than 3. */
  lemma {:induction false} RunsShort(s: string, i: nat)
    requires i <= |s| && NoFourInARow(s)
    ensures forall j :: 0 <= j < |RunsFrom(s, i)| ==> 1 <= RunsFrom(s, i)[j].count <= 3
    decreases |s| - i
  {
    if i < |s| {
      var k := RunLength(s, i);
      var rs := RunsFrom(s, i);
      RunsFromFront(s, i);
      RunLengthIsMaximal(s, i);
      if k > 3 {
        assert FourAt(s, i);
      }
      RunsShort(s, i + k);
      forall j | 0 <= j < |rs| ensures 1 <= rs[j].count <= 3 {
        if j > 0 {
          RunsFromLater(s, i, j);
        }
      }
    }
  }

  /** With single-digit counts the encoding is a plain sequence of (count, digit) pairs. */
  lemma {:induction false} EncodePairs(rs: seq<Run>)
    requires forall j :: 0 <= j < |rs| ==> rs[j].count < 10
    ensures |EncodeRuns(rs)| == 2 * |rs|
    ensures forall j :: 0 <= j < |rs| ==>
      EncodeRuns(rs)[2 * j] == DigitChar(rs[j].count) && EncodeRuns(rs)[2 * j + 1] == rs[j].digit
    decreases |rs|
  {
    if rs != [] {
      var e := EncodeRuns(rs);
      var tail := rs[1..];
      EncodePairs(tail);
      assert e == [DigitChar(rs[0].count), rs[0].digit] + EncodeRuns(tail);
      forall j | 0 < j < |rs|
        ensures e[2 * j] == DigitChar(rs[j].count) && e[2 * j + 1] == rs[j].digit
      {
        assert rs[j] == tail[j - 1];
        assert e[2 * j] == EncodeRuns(tail)[2 * (j - 1)];
        assert e[2 * j + 1] == EncodeRuns(tail)[2 * (j - 1) + 1];
      }
    }
  }

  /** A pair sequence whose runs are maximal never has four equal characters in a row. */
  lemma PairsNoFour(e: string, rs: seq<Run>)
    requires WellFormed(rs) && |e| == 2 * |rs|
    requires forall j :: 0 <= j < |rs| ==> e[2 * j + 1] == rs[j].digit
    ensures NoFourInARow(e)
  {
    forall p: nat | p + 3 < |e| ensures !FourAt(e, p) {
      var j := p / 2;
      assert 2 * j + 3 <= p + 3;
      assert e[2 * j + 1] == rs[j].digit;
      assert e[2 * (j + 1) + 1] == rs[j + 1].digit;
      assert Changes(rs, j + 1);
    }
  }

  /** Pairs of small counts and digits taken from a 1-2-3 string use only 1, 2 and 3. */
  lemma PairsDigits123(e: string, rs: seq<Run>, s: string)
    requires |e| == 2 * |rs| && Digits123(s)
    requires forall j :: 0 <= j < |rs| ==> 1 <= rs[j].count <= 3 && rs[j].digit in s
    requires forall j :: 0 <= j < |rs| ==> e[2 * j] == DigitChar(rs[j].count) && e[2 * j + 1] == rs[j].digit
    ensures Digits123(e)
  {
    forall i | 0 <= i < |e| ensures '1' <= e[i] <= '3' {
      var j := i / 2;
      if i % 2 == 0 {
        assert e[2 * j] == DigitChar(rs[j].count);
      } else {
        assert e[2 * j + 1] == rs[j].digit;
      }
    }
  }

  /** The encoding of a 1-2-3 string without four equal characters in a row is again one, made of pairs. */
  lemma EncodeShape(s: string)
    requires Digits123(s) && NoFourInARow(s)
    ensures |Encode(s)| == 2 * |RunsOf(s)|
    ensures Digits123(Encode(s)) && NoFourInARow(Encode(s))
  {
    var rs := RunsOf(s);
    RunsShort(s, 0);
    RunsOfWellFormed(s);
    RunDigitsFrom(s, 0);
    EncodePairs(rs);
    PairsDigits123(EncodeRuns(rs), rs, s);
    PairsNoFour(EncodeRuns(rs), rs);
    EncodeIsTokensOfRuns(s);
  }

  /** Every term uses only the digits 1, 2 and 3, and has no run longer than 3. */
  lemma {:induction false} TermDigits123(n: nat)
    requires n >= 1
    ensures Digits123(Term(n)) && NoFourInARow(Term(n))
    decreases n
  {
    if n > 1 {
      TermNext(n - 1);
      TermDigits123(n - 1);
      EncodeShape(Term(n - 1));
    }
  }

  /** From term 2 on, a term is one (count, digit) pair per run of the previous term. */
  lemma TermPairs(n: nat)
    requires n >= 2
    ensures |Term(n)| == 2 * |RunsOf(Term(n - 1))|
  {
    var s := Term(n - 1);
    TermNext(n - 1);
    TermDigits123(n - 1);
    EncodeShape(s);
  }
}
