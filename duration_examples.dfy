/** Worked cases of the duration parser under an English-like lexicon, with
    the collaborators' answers for the text at hand stated as hypotheses. */
module DurationExamples {
  import opened Wrappers
  import opened Timex
  import opened DurationParserConfiguration
  import opened DurationSpec
  import opened DurationProperties

  /** "5 hours": one cardinal, then the unit word after a space. */
  lemma FiveHours<D>(cfg: Config, rt: Runtime, data: D)
    requires cfg.ValidLexicon()
    requires cfg.cardinalExtractor("5 hours") == [NumberSpan(Some(0), Some(1), "5")]
    requires cfg.numberParser(NumberSpan(Some(0), Some(1), "5")) == 5.0
    requires rt.toLower(rt.trim(" hours")) == "hours" && rt.format(5.0) == "5"
    requires "hours" in cfg.unitMap && cfg.unitMap["hours"] == "H" && cfg.unitValueMap["hours"] == 3600.0
    ensures var p := ParseOutcome(cfg, rt, ExtractResult(Some(0), Some(7), "5 hours", DurationType, data));
      && p.timexStr == "PT5H"
      && p.value.Some? && p.value.value.futureValue == p.value.value.pastValue == Some(18000.0)
  {
    assert "5 hours"[1..] == " hours";
    SeparatedTakesPrecedence(cfg, rt, "5 hours");
  }

  /** "1500years" is rejected by the fused guard, while "1500seconds" resolves. */
  lemma FifteenHundred(cfg: Config, rt: Runtime)
    requires cfg.ValidLexicon()
    requires cfg.cardinalExtractor("1500years") == [] && cfg.cardinalExtractor("1500seconds") == []
    requires cfg.numberCombinedWithUnit("1500years") == Some(Match("1500", "years", false))
    requires cfg.numberCombinedWithUnit("1500seconds") == Some(Match("1500", "seconds", false))
    requires rt.toLower("years") == "years" && rt.toLower("seconds") == "seconds"
    requires rt.parseDouble("1500") == 1500.0
    requires "years" in cfg.unitMap && cfg.unitMap["years"] == "Y"
    requires "seconds" in cfg.unitMap && cfg.unitMap["seconds"] == "S" && cfg.unitValueMap["seconds"] == 1.0
    ensures NumberWithUnit(cfg, rt, "1500years") == Unresolved
    ensures NumberWithUnit(cfg, rt, "1500seconds").timex == Some("PT1500S")
    ensures NumberWithUnit(cfg, rt, "1500seconds").futureValue == Some(1500.0)
  {
    FusedGuard(cfg, rt, "1500years");
    FusedGuard(cfg, rt, "1500seconds");
    assert DurationTimex("S", "1500") == "PT1500S";
  }
}
