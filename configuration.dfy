/** The capability set a locale supplies to the duration parser: the cardinal
    extractor and number parser, four compiled regexes, and the unit lexicon.
    Everything but the lexicon is an oracle: the model never looks inside it. */
module DurationParserConfiguration {
  import opened Wrappers

  /** A span produced by the cardinal extractor. Start and length are nullable
      integers in the source. */
  datatype NumberSpan = NumberSpan(start: Option<int>, length: Option<int>, text: string)

  /** The offset just past a cardinal span; a missing start or length counts as 0. */
  function EndOffset(s: NumberSpan): int
  {
    match (s.start, s.length)
    case (Some(a), Some(b)) => a + b
    case _ => 0
  }

  /** The captures of a successful regex match: the value of the `num` and
      `unit` groups ("" when the group did not take part) and whether the
      `half` group took part. */
  datatype Match = Match(num: string, unit: string, half: bool)

  /** A compiled regex: None when it does not match the text. */
  type Regex = string -> Option<Match>

  datatype Config = Config(
    cardinalExtractor: string -> seq<NumberSpan>,
    numberParser: NumberSpan -> real,
    numberCombinedWithUnit: Regex,
    anUnitRegex: Regex,
    allDateUnitRegex: Regex,
    halfDateUnitRegex: Regex,
    // surface unit word -> canonical unit code ("hours" -> "H", "months" -> "MON")
    unitMap: map<string, string>,
    // surface unit word -> scale factor in seconds ("hours" -> 3600)
    unitValueMap: map<string, real>)
  {
    /** The lexicon the parser can use without a lookup failing: every word
        that has a code has a scale and vice versa, and every code has a first
        character. */
    predicate ValidLexicon()
    {
      && unitMap.Keys == unitValueMap.Keys
      && forall w :: w in unitMap ==> unitMap[w] != []
    }

    /** When the cardinal extractor finds exactly one number in `text`, the
        text after it can be taken with Substring. */
    predicate CardinalEndInRange(text: string)
    {
      var ers := cardinalExtractor(text);
      |ers| == 1 ==> 0 <= EndOffset(ers[0]) <= |text|
    }
  }

  /** The culture-dependent primitives of the .NET runtime the parser calls:
      String.Trim, String.ToLower, double.ToString and double.Parse. */
  datatype Runtime = Runtime(
    trim: string -> string,
    toLower: string -> string,
    format: real -> string,
    parseDouble: string -> real)
}
