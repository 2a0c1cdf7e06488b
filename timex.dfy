/** The duration encoding the parser emits: the single-designator form of the
    ISO 8601 duration notation (section 4.4.3.2), `P[T]<number><designator>`. */
module Timex {
  import opened Wrappers

  /** True exactly for the codes of seconds, minutes and hours, the units that
      ISO 8601 writes after the time designator "T". */
  function IsLessThanDay(unit: string): (r: bool)
    ensures r ==> |unit| == 1 && unit[0] in "SMH"
    ensures |unit| == 1 ==> (r <==> unit[0] in "SMH")
    ensures unit == "MON" ==> !r
  {
    unit == "S" || unit == "M" || unit == "H"
  }

  /** The encoding built by the three number-with-unit strategies. */
  function DurationTimex(code: string, numeral: string): (t: string)
    requires code != []
    ensures |t| == |numeral| + (if IsLessThanDay(code) then 3 else 2)
    ensures t[0] == 'P' && t[|t| - 1] == code[0]
    ensures IsLessThanDay(code) ==> t[1] == 'T'
    ensures t[|t| - 1 - |numeral|..|t| - 1] == numeral
  {
    "P" + (if IsLessThanDay(code) then "T" else "") + numeral + [code[0]]
  }

  /** The encoding built by the implicit whole/half-unit strategy, which never
      writes the time designator. */
  function ImplicitTimex(code: string, numeral: string): (t: string)
    requires code != []
    ensures |t| == |numeral| + 2
    ensures t[0] == 'P' && t[|t| - 1] == code[0]
    ensures t[1..|t| - 1] == numeral
  {
    "P" + numeral + [code[0]]
  }

  /** The parts of a single-designator duration. */
  datatype TimexParts = TimexParts(timePart: bool, numeral: string, designator: char)

  /** Reads `P[T]<number><designator>` back, independently of how it was built:
      the number is everything between the optional "T" and the last character. */
  function DecodeTimex(t: string): Option<TimexParts>
  {
    if |t| < 3 || t[0] != 'P' then None
    else if t[1] == 'T' then
      if |t| < 4 then None else Some(TimexParts(true, t[2..|t| - 1], t[|t| - 1]))
    else Some(TimexParts(false, t[1..|t| - 1], t[|t| - 1]))
  }

  /** A numeral that cannot be confused with the time designator. */
  predicate PlainNumeral(numeral: string)
  {
    numeral != [] && numeral[0] != 'T'
  }

  /** The number-with-unit encoding keeps its three ingredients recoverable:
      "T" is present exactly for sub-day codes, the numeral text is unchanged
      and the designator is the first character of the code. */
  lemma DecodeDurationTimex(code: string, numeral: string)
    requires code != [] && PlainNumeral(numeral)
    ensures DecodeTimex(DurationTimex(code, numeral))
         == Some(TimexParts(IsLessThanDay(code), numeral, code[0]))
  {
    var t := DurationTimex(code, numeral);
    if IsLessThanDay(code) {
      assert t == ['P', 'T'] + numeral + [code[0]];
      assert t[2..|t| - 1] == numeral;
    } else {
      assert t == ['P'] + numeral + [code[0]];
      assert t[1] == numeral[0];
    }
  }

  /** The implicit encoding never reads as a time-part duration. */
  lemma DecodeImplicitTimex(code: string, numeral: string)
    requires code != [] && PlainNumeral(numeral)
    ensures DecodeTimex(ImplicitTimex(code, numeral)) == Some(TimexParts(false, numeral, code[0]))
  {
    var t := ImplicitTimex(code, numeral);
    assert t == ['P'] + numeral + [code[0]];
    assert t[1] == numeral[0];
  }

  /** Months ("MON") and minutes ("M") share the designator 'M'; the time
      designator is what keeps the two encodings apart. */
  lemma MonthsAndMinutesDiffer(numeral: string)
    requires PlainNumeral(numeral)
    ensures DurationTimex("MON", numeral) != DurationTimex("M", numeral)
    ensures DurationTimex("MON", numeral)[|numeral| + 1] == DurationTimex("M", numeral)[|numeral| + 2] == 'M'
  {
    DecodeDurationTimex("MON", numeral);
    DecodeDurationTimex("M", numeral);
  }
}
