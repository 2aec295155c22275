# Look-and-say sequence generators, modelled in Dafny

The `algorithm_test` package computes terms of the look-and-say sequence. Term 1 is `"1"`. Each
later term reads the previous one aloud, run by run: the length of each maximal run of equal
characters, in decimal, followed by the character. So "1211" becomes "111221". The package ships
three generators. Version 1 recurses from `n` down to 1 and uses the `+=` encoder `say`. Version 2
loops `n - 1` times with the encoder written inline. Version 3 fills a dictionary of terms from
index 2 to `n` and uses the list-and-join encoder `read_and_count`. Versions 2 and 3 reject an index
outside `4..99` with `ValueError` before they compute anything. Every file also carries the same
`get_middle_two_digits`, which picks the two central characters of a term.

The model has two layers:

- A pure specification:
  - `Decimal` gives `str(count)`.
  - `Runs` splits a string into its maximal runs and expands runs back into a string.
  - `Terms` defines `Encode`, the count-then-digit reading, and `Term(n)`, which is `Encode`
    applied `n - 1` times to `"1"`.
- Imperative Dafny methods for the Python code, each with the same loops, proved equal to that
  specification:
  - `Version1.Say`, `Version3.ReadAndCount` and the inline loop of `Version2.LookAndSayIterative`
    each prove that they compute `Encode`.
  - The three generators each prove that they compute `Term`.
  - `Validation` models the raised `ValueError`, with its fixed message, as the `Err` case of a `Result`.
  - `Examples` restates the concrete values and cross-version agreements from
    `algorithm_test/test_look_and_say.py`.

Python strings are `seq<char>` (Dafny `string`). Integers are unbounded, as they are in Python.

## Model

| member | source | states |
|---|---|---|
| Decimal.NatToDecimal | algorithm_test/look_and_say_version1.py:81 | `str(count)` is a non-empty string of decimal digits. It has one character exactly when the count is below 10, and starts with '0' only for 0. |
| Decimal.DecimalRoundTrip | algorithm_test/look_and_say_version1.py:81 | reading the numeral written for a count gives the count back, so a token loses no information |
| Runs.RunLength | algorithm_test/look_and_say_version1.py:77-80 | the run measured from position i has at least one character and stays inside the string |
| Runs.RunLengthIsMaximal | algorithm_test/look_and_say_version1.py:78-80 | every character of the measured run equals `s[i]`, and the run ends at the end of the string or just before a different character |
| Runs.RunLengthUnique | algorithm_test/look_and_say_version1.py:78-80 | any run length with these two properties is the measured one, so the inner loop's stopping point is determined |
| Runs.DecodeRunsOf | algorithm_test/look_and_say_version1.py:76-82 | repeating each run's digit by its count and concatenating gives back the input string |
| Runs.RunsOfWellFormed | algorithm_test/look_and_say_version1.py:77-80 | the runs of a string all have count at least 1, and neighbouring runs carry different digits |
| Runs.RunsOfUnique | algorithm_test/look_and_say_version1.py:76-82 | a well-formed run list whose expansion is s is the run list of s, so the decomposition is unique |
| Terms.Token | algorithm_test/look_and_say_version1.py:81 | the token of one run, `str(count)` then the digit (also `f"{count}{s[index]}"` at algorithm_test/look_and_say_version3.py:31). It ends in the run's digit, and the numeral before that reads back as the run's count, so the run can be recovered from its token. |
| Terms.Encode | algorithm_test/look_and_say_version1.py:74-83 | the next term: the whole input read from the left, one token per maximal run. It is empty exactly when the input is empty, so `say("")` is `""`. |
| Terms.Term | algorithm_test/look_and_say_version1.py:49-62 | term n, for n at least 1: "1" with the encoding applied n - 1 times. Its recursive reading is Terms.TermNext. |
| Terms.EncodeIsTokensOfRuns | algorithm_test/look_and_say_version1.py:76-82 | the encoding is the left-to-right concatenation of `str(count) + digit` over the maximal runs |
| Terms.EncodeDecode | algorithm_test/look_and_say_version1.py:76-82 | a string is encoded into the tokens of any well-formed run list that expands to it, so encoding the expansion of such a list reads back exactly its runs |
| Terms.ScanAdvance | algorithm_test/look_and_say_version1.py:78-82 | when the inner loop stops, appending its token moves the accumulator past exactly one maximal run, so the outer-loop invariant holds again |
| Terms.IterateLast | algorithm_test/look_and_say_version2.py:20-37 | applying the encoding k + 1 times is encoding the result of applying it k times, which is the step each loop iteration takes |
| Terms.TermNext | algorithm_test/look_and_say_version1.py:58-62 | term 1 is "1", and term n + 1 is the encoding of term n, the recursive definition |
| Terms.TermDigits | algorithm_test/test_look_and_say.py:122-148 | every term is a non-empty string of decimal digits, so the benchmarks' `assert result` holds |
| Terms.EncodeDigits | algorithm_test/look_and_say_version1.py:81 | encoding a string of digits gives a string of digits |
| Terms.EncodeShape | algorithm_test/look_and_say_version1.py:76-82 | on a string over 1, 2, 3 with no run longer than 3, every token has a single-digit count. The encoding is two characters per run and keeps both properties. |
| Terms.TermDigits123 | algorithm_test/look_and_say_version1.py:58-62 | every term uses only the digits 1, 2 and 3 and has no four equal digits in a row |
| Terms.TermPairs | algorithm_test/look_and_say_version1.py:61-62 | from term 2 on, a term has two characters per run of the previous term, so its length is even |
| Version1.Say | algorithm_test/look_and_say_version1.py:65-83 | the nested while loops with the `+=` accumulator return the encoding of s, for every s including "" |
| Version1.LookAndSay | algorithm_test/look_and_say_version1.py:49-62 | for n at least 1, the recursion returns term n |
| Version2.HistoryHoldsTerms | algorithm_test/look_and_say_version2.py:20-37 | when successive values of `current` start at "1" and each encode the one before, the m-th value is term m |
| Validation.OutOfRange | algorithm_test/look_and_say_version2.py:17 | the guard `n <= 3 or n >= 100` (also algorithm_test/look_and_say_version3.py:47) refuses exactly the indices outside 3 < n < 100, the range its error message names |
| Version2.LookAndSayIterative | algorithm_test/look_and_say_version2.py:8-38 | raises `ValueError` with the fixed range message exactly when n <= 3 or n >= 100, before any loop runs. Otherwise the n - 1 passes of the inline encoder return term n. |
| Version3.Join | algorithm_test/look_and_say_version3.py:35 | `"".join(parts)`: the empty list joins to "", and a non-empty list joins to its first part followed by the join of the rest |
| Version3.JoinAppend | algorithm_test/look_and_say_version3.py:31-35 | joining a list with one more part appended is the old join followed by that part |
| Version3.ReadAndCount | algorithm_test/look_and_say_version3.py:10-35 | appending `f"{count}{s[index]}"` per run and joining returns the encoding of s, the same result as `say` |
| Version3.CacheHoldsTerms | algorithm_test/look_and_say_version3.py:51-57 | a cache with keys 1..m, entry 1 equal to "1", and each entry k the encoding of entry k - 1 holds term k at every key k |
| Version3.LookAndSayIterative | algorithm_test/look_and_say_version3.py:38-59 | raises `ValueError` with the fixed range message exactly when n <= 3 or n >= 100, before the cache exists. Otherwise it returns term n. Its loop invariant is that the keys are exactly 1..i-1, that entry 1 is "1", and that each entry encodes its predecessor. The `i not in cache` guard is always true. |
| Middle.MiddleTwoDigits | algorithm_test/look_and_say_version1.py:86-101 | a string shorter than 2 comes back unchanged. Otherwise the result is the two characters at positions len/2 - 1 and len/2. The copies at algorithm_test/look_and_say_version2.py:40-55 and algorithm_test/look_and_say_version3.py:61-76 are the same function. |
| Middle.MiddleIsCentred | algorithm_test/look_and_say_version1.py:95-101 | the window is the two-character slice with equally many characters after it as before, or one more. The string is its prefix, the window and its suffix. |
| Middle.TermMiddleBalanced | algorithm_test/look_and_say_version1.py:100-101 | from term 2 on, the middle two digits of a term have exactly as many digits before them as after them |
| Examples.EncodeExamples | algorithm_test/test_look_and_say.py:35-40 | the encoding maps "1", "11", "21" and "1211" to "11", "21", "1211" and "111221" |
| Examples.TermExamples | algorithm_test/test_look_and_say.py:8-19 | terms 1 to 10 are the ten strings of the test table |
| Examples.MiddleOfListedTerms | algorithm_test/test_look_and_say.py:22-29 | the middle two digits of the listed term strings are the expected windows |
| Examples.MiddleExamples | algorithm_test/test_look_and_say.py:48-53 | the middle two digits of terms 1, 2, 3, 4, 5 and 8 are "1", "11", "21", "21", "12" and "21" |
| Examples.SayExamples | algorithm_test/test_look_and_say.py:35-40 | `say` returns the four expected strings on the test inputs |
| Examples.ReadAndCountExamples | algorithm_test/test_look_and_say.py:76-81 | `read_and_count` returns the same four expected strings |
| Examples.EncodersAgree | algorithm_test/look_and_say_version3.py:10-35 | `say` and `read_and_count` agree on every input, and both return "" only for "" |
| Examples.BoundaryExamples | algorithm_test/test_look_and_say.py:63-66 | both iterative versions raise `ValueError` with the range message at the boundary indices 3 and 100 (also algorithm_test/test_look_and_say.py:87-90) |
| Examples.IterativeSequences | algorithm_test/test_look_and_say.py:68-70 | both iterative versions return terms 4 and 10 of the test table (also algorithm_test/test_look_and_say.py:92-94) |
| Examples.ResultsEqual | algorithm_test/test_look_and_say.py:150-159 | for every n at least 1, versions 2 and 3 both return version 1's term when n is in range, and both raise the same `ValueError`, with the range message, when it is not |
| Examples.RepeatedCalls | algorithm_test/test_look_and_say.py:100-111 | two calls of version 3 with the same index give identical results, and succeed exactly when the index is in range |

The loops of `Version1.Say`, `Version2.LookAndSayIterative` and `Version3.ReadAndCount` keep the
same invariant: the output so far, followed by the encoding of the unread suffix, is the encoding
of the whole input. The inner loop keeps that every character from the run start to `index` equals
the first one. Together these keep every `s[index]` in range, and make each loop end.

## Left out

- Console I/O: the module-level `input()` and `print` of algorithm_test/look_and_say_version1.py:46 and 104-105, and the `__main__` blocks of versions 2 and 3. The middle function the printout uses is modelled.
- Version1.LookAndSay: requires n >= 1. For n < 1 the Python recursion never reaches its base case and ends in `RecursionError`. Stack depth is not modelled, and neither is the `RecursionError` that large n would hit.
- Timing and benchmarks: the timing half of `test_caching` and the `pytest-benchmark` runs are not modelled. Only their result assertions are kept (Examples.RepeatedCalls, Terms.TermDigits).
- Version3.LookAndSayIterative: the cache is a local dictionary created on every call, as at algorithm_test/look_and_say_version3.py:51. Nothing is reused across calls, so the model has no persistent term store, although the module's docstring and `test_caching` describe one.
- Version2.LookAndSayIterative: the encoder stays inline, as in the source. The ghost sequence of earlier values of `current` exists only for the proof and is not part of the computed state.
- Exceptions: raising `ValueError` is modelled as returning `Err`. Python's unwinding of the call stack is not modelled.
- `get_middle_two_digits`: its three copies are textually identical, so it is one function, not three.
- Character set: inputs to the encoders may contain any characters, as Python's `str` allows. No Unicode normalisation is modelled.
- The food-nutrition web application, its database services, data import and analysis scripts, the browser script and the load-testing scripts are not part of this model.
