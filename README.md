# Duration resolution of Microsoft.Recognizers.Text, in Dafny

This project models `BaseDurationParser`, the resolver that turns an
extracted span of type "duration" ("5 hours", "2days", "half an hour",
"all day") into a duration encoding in the single-designator form of
ISO 8601 (section 4.4.3.2, e.g. `PT5H`, `P2D`, `P0.5Y`) and a value in
seconds, published identically as future and past value.

The parser tries its strategies in a fixed order:

1. a cardinal number separated from a unit word;
2. a number fused to its unit, with a guard that rejects more than 1000
   years, months or weeks;
3. an indefinite article or "half" before a unit;
4. only if 1-3 did not succeed, the implicit whole-unit and half-unit
   phrases, where a half match replaces the whole-unit result.

Files and modules:

- `wrappers.dfy` (`Wrappers`): `Option`, which stands for nullable references.
- `configuration.dfy` (`DurationParserConfiguration`): the locale's
  capability set. The cardinal extractor, the number parser and the four
  regexes are function-valued fields (oracles). The unit lexicon is two
  maps: unit word to unit code, and unit word to seconds. `Runtime` holds
  the .NET primitives the parser calls: `Trim`, `ToLower`,
  `double.ToString` and `double.Parse`.
- `timex.dfy` (`Timex`): `IsLessThanDay`, the two encodings, and an
  independent decoder of `P[T]<number><designator>` with round-trip lemmas.
- `duration_spec.dfy` (`DurationSpec`): what each strategy computes, as
  pure functions. The number-with-unit strategies are an ordered chain of
  steps: hit, miss, or reject. The module also gives the resolution of a
  text and the outcome of `Parse`.
- `duration_properties.dfy` (`DurationProperties`): strategy precedence,
  the fused guard, the article and implicit numerals, and the encodings.
- `duration_parser.dfy` (`DurationParser`): the parser as the source
  writes it. `DateTimeResolutionResult` is a class whose fields the
  methods assign step by step. The `BaseDurationParser` methods use early
  returns and an out parameter. Each method is proved to yield the
  corresponding `DurationSpec` function.
- `duration_examples.dfy` (`DurationExamples`): "5 hours", and "1500years"
  against "1500seconds".

Points where the code's behaviour is easy to misread; the model follows the code:

- The half-unit result replaces the whole-unit result whenever the half
  regex matches, even when its unit is unknown and the whole-unit result
  succeeded.
- The separated strategy encodes the parsed number formatted back
  (`pr.Value.ToString()`), not the original numeral text.
- A numeral that `double.Parse` cannot read would raise an exception in
  the code; it does not fall through to the next strategy (see Left out).

## Model

| member | source | states |
|---|---|---|
| `Timex.IsLessThanDay` | Microsoft.Recognizers.Text.DateTime/Parsers/BaseDurationParser.cs:169-176 | true exactly for the one-letter codes S, M, H; false for every other code, "MON" included |
| `Timex.DurationTimex` | Microsoft.Recognizers.Text.DateTime/Parsers/BaseDurationParser.cs:84 | starts with 'P', then 'T' for sub-day codes (one character longer exactly for them), the numeral text unchanged, and the code's first character last |
| `Timex.ImplicitTimex` | Microsoft.Recognizers.Text.DateTime/Parsers/BaseDurationParser.cs:161 | 'P', the numeral text unchanged, the code's first character; no time designator |
| `Timex.DecodeDurationTimex` | Microsoft.Recognizers.Text.DateTime/Parsers/BaseDurationParser.cs:106 | decoding the number-with-unit encoding gives back: "T" present iff IsLessThanDay(code), the numeral, the code's first character |
| `Timex.DecodeImplicitTimex` | Microsoft.Recognizers.Text.DateTime/Parsers/BaseDurationParser.cs:161 | decoding the implicit encoding gives back no time part, the numeral, the code's first character |
| `Timex.MonthsAndMinutesDiffer` | Microsoft.Recognizers.Text.DateTime/Parsers/BaseDurationParser.cs:169-176 | months and minutes both end in 'M' but their encodings differ, because only minutes carry "T" |
| `DurationSpec.Resolved` | Microsoft.Recognizers.Text.DateTime/Parsers/BaseDurationParser.cs:84-86 | a hit is a success whose future and past values are equal, both the numeral's value times the word's scale |
| `DurationSpec.ResolvedEncoding` | Microsoft.Recognizers.Text.DateTime/Parsers/BaseDurationParser.cs:120-124 | the encoding of a hit decodes to: time part iff the strategy writes one and the code is sub-day, the numeral text, the code's first character |
| `DurationSpec.RunChain` | Microsoft.Recognizers.Text.DateTime/Parsers/BaseDurationParser.cs:67-130 | when every hit in the ordered strategies is coherent (untouched or fully filled), so is the chain's result |
| `DurationSpec.RunChainFirstHit` | Microsoft.Recognizers.Text.DateTime/Parsers/BaseDurationParser.cs:84-125 | the first strategy that hits, after only misses, decides the result; later ones are not consulted |
| `DurationSpec.RunChainStopsAtReject` | Microsoft.Recognizers.Text.DateTime/Parsers/BaseDurationParser.cs:101-104 | a rejection after only misses ends the chain unresolved |
| `DurationSpec.RunChainAllMiss` | Microsoft.Recognizers.Text.DateTime/Parsers/BaseDurationParser.cs:129 | when every strategy misses, the result is the untouched fresh result |
| `DurationSpec.SeparatedStep` | Microsoft.Recognizers.Text.DateTime/Parsers/BaseDurationParser.cs:74-89 | hits only when exactly one cardinal is extracted; never rejects; a hit is a coherent success |
| `DurationSpec.FusedStep` | Microsoft.Recognizers.Text.DateTime/Parsers/BaseDurationParser.cs:92-111 | rejects only when the fused regex matched; a hit is a coherent success |
| `DurationSpec.AnUnitStep` | Microsoft.Recognizers.Text.DateTime/Parsers/BaseDurationParser.cs:113-127 | hits only when the article regex matched; never rejects |
| `DurationSpec.NumberWithUnit` | Microsoft.Recognizers.Text.DateTime/Parsers/BaseDurationParser.cs:67-130 | either untouched or a full success with equal future and past values |
| `DurationSpec.RegexOutcome` | Microsoft.Recognizers.Text.DateTime/Parsers/BaseDurationParser.cs:151-167 | reports a match iff the regex matched, whether or not the unit is known; succeeds exactly when the unit capture is a key of the scale map, then with the numeral's value times that word's scale and the implicit encoding |
| `DurationSpec.ImplicitDuration` | Microsoft.Recognizers.Text.DateTime/Parsers/BaseDurationParser.cs:133-149 | either untouched or a full success with equal future and past values |
| `DurationSpec.ResolveDuration` | Microsoft.Recognizers.Text.DateTime/Parsers/BaseDurationParser.cs:32-36 | a number-with-unit success is the result; the implicit strategy's result is used exactly when the number-with-unit strategies fail |
| `DurationSpec.Published` | Microsoft.Recognizers.Text.DateTime/Parsers/BaseDurationParser.cs:38-49 | future and past resolution each hold exactly one entry, under the duration key, with the same formatted value |
| `DurationSpec.ParseOutcome` | Microsoft.Recognizers.Text.DateTime/Parsers/BaseDurationParser.cs:23-64 | text, start, length, type and data copied; no value and empty timex iff the type is not "duration" or nothing resolved; otherwise the value is the resolution of the text with its future and past values published, and TimexStr is its timex |
| `DurationProperties.SeparatedTakesPrecedence` | Microsoft.Recognizers.Text.DateTime/Parsers/BaseDurationParser.cs:74-88 | when exactly one cardinal is followed by a unit word, that reading wins, with the parsed number formatted as numeral text |
| `DurationProperties.FusedGuard` | Microsoft.Recognizers.Text.DateTime/Parsers/BaseDurationParser.cs:97-110 | after a separated miss, a fused match of a known unit decides alone: unresolved iff the number exceeds 1000 and the code is Y, MON or W, otherwise resolved from the capture; the article regex is irrelevant |
| `DurationProperties.RejectedMagnitudeFallsBackToImplicit` | Microsoft.Recognizers.Text.DateTime/Parsers/BaseDurationParser.cs:32-36 | a guard rejection still lets the implicit strategy decide the resolution |
| `DurationProperties.ArticleFallback` | Microsoft.Recognizers.Text.DateTime/Parsers/BaseDurationParser.cs:113-126 | when strategies 1-2 do not apply, an article phrase with a known unit resolves with numeral "0.5" if the half group matched and "1" otherwise |
| `DurationProperties.NoNumberStrategyApplies` | Microsoft.Recognizers.Text.DateTime/Parsers/BaseDurationParser.cs:129 | when none of strategies 1-3 applies, the number-with-unit result is untouched |
| `DurationProperties.HalfReplacesWhole` | Microsoft.Recognizers.Text.DateTime/Parsers/BaseDurationParser.cs:142-146 | a half match decides the implicit result, and an unknown half unit makes it unsuccessful even if the whole-unit check succeeded |
| `DurationProperties.WholeDecidesWithoutHalf` | Microsoft.Recognizers.Text.DateTime/Parsers/BaseDurationParser.cs:138-147 | without a half match the whole-unit sub-check decides; a known unit resolves to one unit of it, valued as the numeral "1" times the word's scale |
| `DurationProperties.ImplicitEncoding` | Microsoft.Recognizers.Text.DateTime/Parsers/BaseDurationParser.cs:157-163 | an implicit success has no time part, numeral "0.5" when the half regex matched and "1" otherwise, and the code of the matched unit |
| `DurationParser.DateTimeResolutionResult.constructor` | Microsoft.Recognizers.Text.DateTime/Parsers/BaseDurationParser.cs:69 | a new result is unsuccessful with every reference field null |
| `DurationParser.DateTimeResolutionResult.SetResolved` | Microsoft.Recognizers.Text.DateTime/Parsers/BaseDurationParser.cs:84-86 | sets the timex, the same value as future and past value, and success; the resolutions stay as they were |
| `DurationParser.BaseDurationParser.constructor` | Microsoft.Recognizers.Text.DateTime/Parsers/BaseDurationParser.cs:13-16 | keeps the configuration it is given |
| `DurationParser.BaseDurationParser.Parse` | Microsoft.Recognizers.Text.DateTime/Parsers/BaseDurationParser.cs:23-64 | returns exactly ParseOutcome; a returned resolution result is freshly allocated |
| `DurationParser.BaseDurationParser.ParseNumberWithUnit` | Microsoft.Recognizers.Text.DateTime/Parsers/BaseDurationParser.cs:67-130 | the result's fields are exactly NumberWithUnit of the text |
| `DurationParser.BaseDurationParser.ParseImplicitDuration` | Microsoft.Recognizers.Text.DateTime/Parsers/BaseDurationParser.cs:133-149 | the result's fields are exactly ImplicitDuration of the text |
| `DurationParser.BaseDurationParser.TryGetResultFromRegex` | Microsoft.Recognizers.Text.DateTime/Parsers/BaseDurationParser.cs:151-167 | the returned flag and result are exactly RegexOutcome of the regex's match |
| `DurationExamples.FiveHours` | Microsoft.Recognizers.Text.DateTime/Parsers/BaseDurationParser.cs:74-88 | "5 hours" parses to PT5H with 18000 seconds as future and past value |
| `DurationExamples.FifteenHundred` | Microsoft.Recognizers.Text.DateTime/Parsers/BaseDurationParser.cs:92-110 | "1500years" is unresolved by the number-with-unit strategies, "1500seconds" resolves to PT1500S and 1500 seconds |

## Left out

- `Parse(ExtractResult)` (lines 18-21) passes the clock's current time; the clock is ambient I/O. The reference time of the other overload is never used by the duration logic, so it is not a parameter.
- The regexes (`NumberCombinedWithUnit`, `AnUnitRegex`, `AllDateUnitRegex`, `HalfDateUnitRegex`), the `CardinalExtractor` and the `NumberParser` are collaborators whose code is not part of this model. They are oracles that return optional captures, spans and numbers.
- `double` arithmetic is modelled with `real`. `double.ToString`, `double.Parse`, `String.Trim` and `String.ToLower` depend on the culture, so they are oracles in `Runtime`. The model therefore does not fix the numeric value of the numerals "0.5" and "1"; in a culture whose group separator is '.', `double.Parse("0.5")` need not be one half.
- `double.Parse` throws `FormatException` on text it cannot read; the oracle is total, so that exception path is not modelled.
- The parser would throw on a malformed lexicon (a word in one map but not the other, or an empty unit code) and on a cardinal span that ends outside the text. These are excluded by the preconditions `ValidLexicon` and `CardinalEndInRange` rather than modelled.
- A null `Type`, a null `pr.Value` and other null dereferences are not modelled.
- The values of `Constants.SYS_DATETIME_DURATION` and `TimeTypeConstants.DURATION` are taken to be "duration"; the constants files are not part of this model.
- `DateTimeParseResult` is a class in the source. It is a datatype here because `Parse` never mutates it after building it. Its `Value` still refers to the mutable resolution result.
- `DateTimeResolutionResult` is not part of this model beyond the six fields the parser reads and writes.
- Microsoft.Recognizers.Text.DateTime/Extractors/IDateTimeExtractorConfiguration.cs is an interface of regexes and keyword detectors used by the date-time extractor, not by this parser. It has no behaviour and is not modelled.
- Microsoft.Recognizers.Text.NumberWithUnit/Portuguese/Extractors/CurrencyExtractorConfiguration.cs is a table of currency synonyms with no algorithm and is not modelled.
- Idempotence of `Parse` (same span, same result) holds because every specification here is a function; no separate lemma states it.
