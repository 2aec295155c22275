/** The concrete values the repository's tests pin down (algorithm_test/test_look_and_say.py). */
module Examples {
  import opened Runs
  import opened Terms
  import opened Middle
  import opened Validation
  import Version1
  import Version2
  import Version3

  // The maximal runs of terms 1 to 9, each checked three ways: maximal, spelling the term, and
  // reading off as the next term.

  const Term1Runs: seq<Run> := [Run(1, '1')]
  lemma Term1RunsMaximal() ensures WellFormed(Term1Runs) { }
  lemma Term1RunsSpell() ensures Decode(Term1Runs) == "1" { }
  lemma Term1RunsRead() ensures EncodeRuns(Term1Runs) == "11" { }

  const Term2Runs: seq<Run> := [Run(2, '1')]
  lemma Term2RunsMaximal() ensures WellFormed(Term2Runs) { }
  lemma Term2RunsSpell() ensures Decode(Term2Runs) == "11" { }
  lemma Term2RunsRead() ensures EncodeRuns(Term2Runs) == "21" { }

  const Term3Runs: seq<Run> := [Run(1, '2'), Run(1, '1')]
  lemma Term3RunsMaximal() ensures WellFormed(Term3Runs) { }
  lemma Term3RunsSpell() ensures Decode(Term3Runs) == "21" { }
  lemma Term3RunsRead() ensures EncodeRuns(Term3Runs) == "1211" { }

  const Term4Runs: seq<Run> := [Run(1, '1'), Run(1, '2'), Run(2, '1')]
  lemma Term4RunsMaximal() ensures WellFormed(Term4Runs) { }
  lemma Term4RunsSpell() ensures Decode(Term4Runs) == "1211" { }
  lemma Term4RunsRead() ensures EncodeRuns(Term4Runs) == "111221" { }

  const Term5Runs: seq<Run> := [Run(3, '1'), Run(2, '2'), Run(1, '1')]
  lemma Term5RunsMaximal() ensures WellFormed(Term5Runs) { }
  lemma Term5RunsSpell() ensures Decode(Term5Runs) == "111221" { }
  lemma Term5RunsRead() ensures EncodeRuns(Term5Runs) == "312211" { }

  const Term6Runs: seq<Run> := [Run(1, '3'), Run(1, '1'), Run(2, '2'), Run(2, '1')]
  lemma Term6RunsMaximal() ensures WellFormed(Term6Runs) { }
  lemma Term6RunsSpell() ensures Decode(Term6Runs) == "312211" { }
  lemma Term6RunsRead() ensures EncodeRuns(Term6Runs) == "13112221" { }

  const Term7Runs: seq<Run> := [Run(1, '1'), Run(1, '3'), Run(2, '1'), Run(3, '2'), Run(1, '1')]
  lemma Term7RunsMaximal() ensures WellFormed(Term7Runs) { }
  lemma Term7RunsSpell() ensures Decode(Term7Runs) == "13112221" { }
  lemma Term7RunsRead() ensures EncodeRuns(Term7Runs) == "1113213211" { }

  const Term8Runs: seq<Run> := [Run(3, '1'), Run(1, '3'), Run(1, '2'), Run(1, '1'), Run(1, '3'), Run(1, '2'), Run(2, '1')]
  lemma Term8RunsMaximal() ensures WellFormed(Term8Runs) { }
  lemma Term8RunsSpell() ensures Decode(Term8Runs) == "1113213211" { }
  lemma Term8RunsRead() ensures EncodeRuns(Term8Runs) == "31131211131221" { }

  const Term9Runs: seq<Run> := [Run(1, '3'), Run(2, '1'), Run(1, '3'), Run(1, '1'), Run(1, '2'), Run(3, '1'), Run(1, '3'), Run(1, '1'), Run(2, '2'), Run(1, '1')]
  lemma Term9RunsMaximal() ensures WellFormed(Term9Runs) { }
  lemma Term9RunsSpell() ensures Decode(Term9Runs) == "31131211131221" { }
  lemma Term9RunsRead() ensures EncodeRuns(Term9Runs) == "13211311123113112211" { }

  /** `say` and `read_and_count` on the four inputs the tests give them. */
  lemma EncodeExamples()
    ensures Encode("1") == "11"
    ensures Encode("11") == "21"
    ensures Encode("21") == "1211"
    ensures Encode("1211") == "111221"
  {
    Term1RunsMaximal();
    Term1RunsSpell();
    Term1RunsRead();
    EncodeDecode(Term1Runs, "1");
    Term2RunsMaximal();
    Term2RunsSpell();
    Term2RunsRead();
    EncodeDecode(Term2Runs, "11");
    Term3RunsMaximal();
    Term3RunsSpell();
    Term3RunsRead();
    EncodeDecode(Term3Runs, "21");
    Term4RunsMaximal();
    Term4RunsSpell();
    Term4RunsRead();
    EncodeDecode(Term4Runs, "1211");
  }

  /** The first ten terms, as listed in the tests. */
  lemma {:induction false} TermExamples()
    ensures Term(1) == "1"
    ensures Term(2) == "11"
    ensures Term(3) == "21"
    ensures Term(4) == "1211"
    ensures Term(5) == "111221"
    ensures Term(6) == "312211"
    ensures Term(7) == "13112221"
    ensures Term(8) == "1113213211"
    ensures Term(9) == "31131211131221"
    ensures Term(10) == "13211311123113112211"
  {
    Term1RunsMaximal();
    Term1RunsSpell();
    Term1RunsRead();
    EncodeDecode(Term1Runs, "1");
    TermNext(1);
    Term2RunsMaximal();
    Term2RunsSpell();
    Term2RunsRead();
    EncodeDecode(Term2Runs, "11");
    TermNext(2);
    Term3RunsMaximal();
    Term3RunsSpell();
    Term3RunsRead();
    EncodeDecode(Term3Runs, "21");
    TermNext(3);
    Term4RunsMaximal();
    Term4RunsSpell();
    Term4RunsRead();
    EncodeDecode(Term4Runs, "1211");
    TermNext(4);
    Term5RunsMaximal();
    Term5RunsSpell();
    Term5RunsRead();
    EncodeDecode(Term5Runs, "111221");
    TermNext(5);
    Term6RunsMaximal();
    Term6RunsSpell();
    Term6RunsRead();
    EncodeDecode(Term6Runs, "312211");
    TermNext(6);
    Term7RunsMaximal();
    Term7RunsSpell();
    Term7RunsRead();
    EncodeDecode(Term7Runs, "13112221");
    TermNext(7);
    Term8RunsMaximal();
    Term8RunsSpell();
    Term8RunsRead();
    EncodeDecode(Term8Runs, "1113213211");
    TermNext(8);
    Term9RunsMaximal();
    Term9RunsSpell();
    Term9RunsRead();
    EncodeDecode(Term9Runs, "31131211131221");
    TermNext(9);
  }

  /** The middle two digits the tests expect for terms 1, 2, 3, 4, 5 and 8. */
  lemma MiddleExamples()
    ensures MiddleTwoDigits(Term(1)) == "1"
    ensures MiddleTwoDigits(Term(2)) == "11"
    ensures MiddleTwoDigits(Term(3)) == "21"
    ensures MiddleTwoDigits(Term(4)) == "21"
    ensures MiddleTwoDigits(Term(5)) == "12"
    ensures MiddleTwoDigits(Term(8)) == "21"
  {
    TermExamples();
    MiddleOfListedTerms();
  }

  lemma MiddleOfListedTerms()
    ensures MiddleTwoDigits("1") == "1" && MiddleTwoDigits("11") == "11" && MiddleTwoDigits("21") == "21"
    ensures MiddleTwoDigits("1211") == "21" && MiddleTwoDigits("111221") == "12"
    ensures MiddleTwoDigits("1113213211") == "21"
  {
  }

  /** `test_say_function`: the recursive version's encoder on the test inputs. */
  method SayExamples() returns (a: string, b: string, c: string, d: string)
    ensures a == "11" && b == "21" && c == "1211" && d == "111221"
  {
    a := Version1.Say("1");
    b := Version1.Say("11");
    c := Version1.Say("21");
    d := Version1.Say("1211");
    EncodeExamples();
  }

  /** `test_read_and_count`: the list-based encoder on the same inputs. */
  method ReadAndCountExamples() returns (a: string, b: string, c: string, d: string)
    ensures a == "11" && b == "21" && c == "1211" && d == "111221"
  {
    a := Version3.ReadAndCount("1");
    b := Version3.ReadAndCount("11");
    c := Version3.ReadAndCount("21");
    d := Version3.ReadAndCount("1211");
    EncodeExamples();
  }

  /** `say` and `read_and_count` compute the same string on every input; only the empty input gives "". */
  method EncodersAgree(s: string) returns (v1: string, v3: string)
    ensures v1 == v3
    ensures v1 == [] <==> s == []
  {
    v1 := Version1.Say(s);
    v3 := Version3.ReadAndCount(s);
  }

  /** The boundary cases of both iterative versions: 3 and 100 are rejected with the input. */
  method BoundaryExamples() returns (low2: Result<string>, high2: Result<string>, low3: Result<string>, high3: Result<string>)
    ensures low2 == Err(ValueError(RangeMessage)) && high2 == Err(ValueError(RangeMessage))
    ensures low3 == Err(ValueError(RangeMessage)) && high3 == Err(ValueError(RangeMessage))
  {
    low2 := Version2.LookAndSayIterative(3);
    high2 := Version2.LookAndSayIterative(100);
    low3 := Version3.LookAndSayIterative(3);
    high3 := Version3.LookAndSayIterative(100);
  }

  /** `test_sequences` of the iterative versions: both accept 4 and 10 and return the listed terms. */
  method IterativeSequences() returns (low2: Result<string>, high2: Result<string>, low3: Result<string>, high3: Result<string>)
    ensures low2 == Ok("1211") && high2 == Ok("13211311123113112211")
    ensures low3 == Ok("1211") && high3 == Ok("13211311123113112211")
  {
    low2 := Version2.LookAndSayIterative(4);
    high2 := Version2.LookAndSayIterative(10);
    low3 := Version3.LookAndSayIterative(4);
    high3 := Version3.LookAndSayIterative(10);
    TermExamples();
  }

  /** `test_results_equal`, for every index: where the iterative versions accept n, all three agree. */
  method ResultsEqual(n: int) returns (v1: string, v2: Result<string>, v3: Result<string>)
    requires n >= 1
    ensures !OutOfRange(n) ==> v2 == Ok(v1) && v3 == Ok(v1)
    ensures OutOfRange(n) ==> v2 == v3 == Err(ValueError(RangeMessage))
  {
    v1 := Version1.LookAndSay(n);
    v2 := Version2.LookAndSayIterative(n);
    v3 := Version3.LookAndSayIterative(n);
  }

  /** `test_caching`: calling the memoised version twice with the same index gives the same result. */
  method RepeatedCalls(n: int) returns (first: Result<string>, second: Result<string>)
    ensures first == second
    ensures first.Ok? <==> !OutOfRange(n)
  {
    first := Version3.LookAndSayIterative(n);
    second := Version3.LookAndSayIterative(n);
  }
}
