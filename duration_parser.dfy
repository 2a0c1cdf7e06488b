/** The duration parser as the source writes it: step by step on freshly
    allocated, mutable resolution results, with early returns and an out
    parameter. Each method is proved to produce what module DurationSpec
    says it computes. */
module DurationParser {
  import opened Wrappers
  import opened Timex
  import opened DurationParserConfiguration
  import opened DurationSpec
  import opened DurationProperties

  /** The mutable resolution result the strategies fill in. */
  class DateTimeResolutionResult {
    var success: bool
    var timex: Option<string>
    var futureValue: Option<real>
    var pastValue: Option<real>
    var futureResolution: Option<map<string, string>>
    var pastResolution: Option<map<string, string>>

    /** The current contents of the result. */
    function View(): Resolution
      reads this
    {
      Resolution(success, timex, futureValue, pastValue, futureResolution, pastResolution)
    }

    constructor ()
      ensures View() == Unresolved
    {
      success := false;
      timex := None;
      futureValue := None;
      pastValue := None;
      futureResolution := None;
      pastResolution := None;
    }

    /** Fills in a success: the encoding and the same value as future and past value. */
    method SetResolved(t: string, value: real)
      modifies this
      ensures success && timex == Some(t) && futureValue == pastValue == Some(value)
      ensures futureResolution == old(futureResolution) && pastResolution == old(pastResolution)
    {
      timex := Some(t);
      futureValue, pastValue := Some(value), Some(value);
      success := true;
    }
  }

  /** What Parse returns: the span's fields copied, and the resolution result
      itself (null when nothing resolved). */
  datatype DateTimeParseResult<D> = DateTimeParseResult(
    start: Option<int>, length: Option<int>, text: string, typeName: string, data: D,
    value: DateTimeResolutionResult?, timexStr: string, resolutionStr: string)
  {
    function View(): ParseView<D>
      reads value
    {
      ParseView(start, length, text, typeName, data,
                if value == null then None else Some(value.View()), timexStr, resolutionStr)
    }
  }

  class BaseDurationParser {
    const config: Config
    const runtime: Runtime

    constructor (configuration: Config, runtime: Runtime)
      ensures config == configuration && this.runtime == runtime
    {
      config := configuration;
      this.runtime := runtime;
    }

    method Parse<D>(er: ExtractResult<D>) returns (ret: DateTimeParseResult<D>)
      requires config.ValidLexicon()
      requires er.typeName == DurationType ==> config.CardinalEndInRange(er.text)
      ensures ret.value != null ==> fresh(ret.value)
      ensures ret.View() == ParseOutcome(config, runtime, er)
    {
      var value: DateTimeResolutionResult? := null;
      if er.typeName == DurationType {
        var innerResult := ParseNumberWithUnit(er.text);
        if !innerResult.success {
          innerResult := ParseImplicitDuration(er.text);
        }
        if innerResult.success {
          innerResult.futureResolution := Some(map[DurationKey := runtime.format(innerResult.futureValue.value)]);
          innerResult.pastResolution := Some(map[DurationKey := runtime.format(innerResult.pastValue.value)]);
          value := innerResult;
        }
      }
      ret := DateTimeParseResult(er.start, er.length, er.text, er.typeName, er.data, value,
                                 if value == null then "" else value.timex.value, "");
    }

    /** Simple cases: a number followed by a unit, with or without a space, or
        an article followed by a unit. */
    method ParseNumberWithUnit(text: string) returns (ret: DateTimeResolutionResult)
      requires config.ValidLexicon() && config.CardinalEndInRange(text)
      ensures fresh(ret)
      ensures ret.View() == NumberWithUnit(config, runtime, text)
    {
      ret := new DateTimeResolutionResult();

      // a space between number and unit
      var ers := config.cardinalExtractor(text);
      if |ers| == 1 {
        var prValue := config.numberParser(ers[0]);
        var srcUnit := runtime.toLower(runtime.trim(text[EndOffset(ers[0])..]));
        if srcUnit in config.unitMap {
          var numStr := runtime.format(prValue);
          var unitStr := config.unitMap[srcUnit];
          ret.SetResolved(DurationTimex(unitStr, numStr), Seconds(prValue, config.unitValueMap[srcUnit]));
          SeparatedTakesPrecedence(config, runtime, text);
          return;
        }
      }
      assert !SeparatedApplies(config, runtime, text);

      // no space between number and unit
      var found := config.numberCombinedWithUnit(text);
      if found.Some? {
        var numStr := found.value.num;
        var srcUnit := runtime.toLower(found.value.unit);
        if srcUnit in config.unitMap {
          var unitStr := config.unitMap[srcUnit];
          FusedGuard(config, runtime, text);
          if runtime.parseDouble(numStr) > 1000.0 && (unitStr == "Y" || unitStr == "MON" || unitStr == "W") {
            return;
          }
          ret.SetResolved(DurationTimex(unitStr, numStr),
                          Seconds(runtime.parseDouble(numStr), config.unitValueMap[srcUnit]));
          return;
        }
      }
      assert !FusedApplies(config, runtime, text);

      found := config.anUnitRegex(text);
      if found.Some? {
        var numStr := if found.value.half then "0.5" else "1";
        var srcUnit := runtime.toLower(found.value.unit);
        if srcUnit in config.unitMap {
          var unitStr := config.unitMap[srcUnit];
          ret.SetResolved(DurationTimex(unitStr, numStr),
                          Seconds(runtime.parseDouble(numStr), config.unitValueMap[srcUnit]));
          ArticleFallback(config, runtime, text);
          return;
        }
      }

      NoNumberStrategyApplies(config, runtime, text);
    }

    /** Cases without a number: "all day", "half year". */
    method ParseImplicitDuration(text: string) returns (ret: DateTimeResolutionResult)
      requires config.ValidLexicon()
      ensures fresh(ret)
      ensures ret.View() == ImplicitDuration(config, runtime, text)
    {
      ret := new DateTimeResolutionResult();
      var matched, result := TryGetResultFromRegex(config.allDateUnitRegex, text, "1");
      if matched {
        ret := result;
      }
      matched, result := TryGetResultFromRegex(config.halfDateUnitRegex, text, "0.5");
      if matched {
        ret := result;
      }
    }

    /** Whether `regex` matches `text`, and the result for one unit of the
        captured unit counted as `numStr`; a match whose unit is not in the
        scale map still reports a match. */
    method TryGetResultFromRegex(regex: Regex, text: string, numStr: string)
      returns (matched: bool, ret: DateTimeResolutionResult)
      requires config.ValidLexicon()
      ensures fresh(ret)
      ensures matched == RegexOutcome(config, runtime, regex(text), numStr).0
      ensures ret.View() == RegexOutcome(config, runtime, regex(text), numStr).1
    {
      ret := new DateTimeResolutionResult();
      var found := regex(text);
      if found.Some? {
        var srcUnit := found.value.unit;
        if srcUnit in config.unitValueMap {
          var unitStr := config.unitMap[srcUnit];
          ret.SetResolved(ImplicitTimex(unitStr, numStr),
                          Seconds(runtime.parseDouble(numStr), config.unitValueMap[srcUnit]));
          assert ret.View() == Resolved(config, srcUnit, numStr, runtime.parseDouble(numStr), false);
        }
      }
      matched := found.Some?;
    }
  }
}
