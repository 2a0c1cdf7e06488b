/** Properties of the duration parser's strategies: their precedence, the
    fused magnitude guard, the numerals of the article and implicit phrases,
    and the encodings they produce. */
module DurationProperties {
  import opened Wrappers
  import opened Timex
  import opened DurationParserConfiguration
  import opened DurationSpec

  /** When the separated strategy applies, it decides the result. */
  lemma SeparatedTakesPrecedence(cfg: Config, rt: Runtime, text: string)
    requires cfg.ValidLexicon() && cfg.CardinalEndInRange(text)
    requires SeparatedApplies(cfg, rt, text)
    ensures var value := cfg.numberParser(cfg.cardinalExtractor(text)[0]);
      NumberWithUnit(cfg, rt, text)
        == Resolved(cfg, SeparatedWord(cfg, rt, text), rt.format(value), value, true)
  {
    RunChainFirstHit(NumberWithUnitSteps(cfg, rt, text), 0);
  }

  /** Once the separated strategy does not apply and the fused regex matches a
      known unit, the fused strategy alone decides: more than 1000 years,
      months or weeks is unresolved (the article strategy is not consulted),
      anything else is resolved from the fused capture. */
  lemma FusedGuard(cfg: Config, rt: Runtime, text: string)
    requires cfg.ValidLexicon() && cfg.CardinalEndInRange(text)
    requires !SeparatedApplies(cfg, rt, text) && FusedApplies(cfg, rt, text)
    ensures
      var m := cfg.numberCombinedWithUnit(text).value;
      var word := rt.toLower(m.unit);
      var n := rt.parseDouble(m.num);
      NumberWithUnit(cfg, rt, text)
        == if ImplausibleMagnitude(n, cfg.unitMap[word]) then Unresolved
           else Resolved(cfg, word, m.num, n, true)
  {
    var steps := NumberWithUnitSteps(cfg, rt, text);
    if steps[1].Reject? {
      RunChainStopsAtReject(steps, 1);
    } else {
      RunChainFirstHit(steps, 1);
    }
  }

  /** A rejected fused magnitude does not stop the implicit strategy. */
  lemma RejectedMagnitudeFallsBackToImplicit(cfg: Config, rt: Runtime, text: string)
    requires cfg.ValidLexicon() && cfg.CardinalEndInRange(text)
    requires !SeparatedApplies(cfg, rt, text) && FusedApplies(cfg, rt, text)
    requires var m := cfg.numberCombinedWithUnit(text).value;
      ImplausibleMagnitude(rt.parseDouble(m.num), cfg.unitMap[rt.toLower(m.unit)])
    ensures ResolveDuration(cfg, rt, text) == ImplicitDuration(cfg, rt, text)
  {
    FusedGuard(cfg, rt, text);
  }

  /** When neither number strategy applies, an article phrase with a known unit
      resolves to one unit, or half a unit when the `half` group matched. */
  lemma ArticleFallback(cfg: Config, rt: Runtime, text: string)
    requires cfg.ValidLexicon() && cfg.CardinalEndInRange(text)
    requires !SeparatedApplies(cfg, rt, text) && !FusedApplies(cfg, rt, text)
    requires cfg.anUnitRegex(text).Some? && rt.toLower(cfg.anUnitRegex(text).value.unit) in cfg.unitMap
    ensures
      var m := cfg.anUnitRegex(text).value;
      var numeral := if m.half then "0.5" else "1";
      var r := NumberWithUnit(cfg, rt, text);
      && r == Resolved(cfg, rt.toLower(m.unit), numeral, rt.parseDouble(numeral), true)
      && DecodeTimex(r.timex.value).Some?
      && DecodeTimex(r.timex.value).value.numeral == numeral
  {
    var steps := NumberWithUnitSteps(cfg, rt, text);
    RunChainFirstHit(steps, 2);
    var m := cfg.anUnitRegex(text).value;
    ResolvedEncoding(cfg, rt.toLower(m.unit), ArticleNumeral(m), rt.parseDouble(ArticleNumeral(m)), true);
  }

  /** When no number-with-unit strategy applies, their result is untouched. */
  lemma NoNumberStrategyApplies(cfg: Config, rt: Runtime, text: string)
    requires cfg.ValidLexicon() && cfg.CardinalEndInRange(text)
    requires !SeparatedApplies(cfg, rt, text) && !FusedApplies(cfg, rt, text)
    requires cfg.anUnitRegex(text).None? || rt.toLower(cfg.anUnitRegex(text).value.unit) !in cfg.unitMap
    ensures NumberWithUnit(cfg, rt, text) == Unresolved
  {
    RunChainAllMiss(NumberWithUnitSteps(cfg, rt, text));
  }

  /** A half-unit match replaces the whole-unit result, even when its own unit
      is not in the lexicon and the whole-unit result was a success. */
  lemma HalfReplacesWhole(cfg: Config, rt: Runtime, text: string)
    requires cfg.ValidLexicon() && cfg.halfDateUnitRegex(text).Some?
    ensures ImplicitDuration(cfg, rt, text)
         == RegexOutcome(cfg, rt, cfg.halfDateUnitRegex(text), "0.5").1
    ensures cfg.halfDateUnitRegex(text).value.unit !in cfg.unitValueMap
         ==> ImplicitDuration(cfg, rt, text) == Unresolved
  {
  }

  /** Without a half match, the whole-unit sub-check decides the implicit
      result: one unit of the matched word when it is a key of the scale map. */
  lemma WholeDecidesWithoutHalf(cfg: Config, rt: Runtime, text: string)
    requires cfg.ValidLexicon() && cfg.halfDateUnitRegex(text).None?
    ensures ImplicitDuration(cfg, rt, text)
         == RegexOutcome(cfg, rt, cfg.allDateUnitRegex(text), "1").1
    ensures cfg.allDateUnitRegex(text).Some? && cfg.allDateUnitRegex(text).value.unit in cfg.unitValueMap
         ==> ImplicitDuration(cfg, rt, text)
             == Resolved(cfg, cfg.allDateUnitRegex(text).value.unit, "1", rt.parseDouble("1"), false)
  {
  }

  /** A successful implicit result never carries the time designator; its
      numeral is "0.5" when the half regex matched and "1" otherwise, and its
      designator is the first character of the matched unit's code. */
  lemma ImplicitEncoding(cfg: Config, rt: Runtime, text: string)
    requires cfg.ValidLexicon() && ImplicitDuration(cfg, rt, text).success
    ensures
      var half := cfg.halfDateUnitRegex(text).Some?;
      var m := if half then cfg.halfDateUnitRegex(text).value else cfg.allDateUnitRegex(text).value;
      && m.unit in cfg.unitMap
      && DecodeTimex(ImplicitDuration(cfg, rt, text).timex.value)
           == Some(TimexParts(false, if half then "0.5" else "1", cfg.unitMap[m.unit][0]))
  {
    var numeral := if cfg.halfDateUnitRegex(text).Some? then "0.5" else "1";
    var m := if cfg.halfDateUnitRegex(text).Some? then cfg.halfDateUnitRegex(text).value
             else cfg.allDateUnitRegex(text).value;
    ResolvedEncoding(cfg, m.unit, numeral, rt.parseDouble(numeral), false);
  }
}
