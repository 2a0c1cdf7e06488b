/** What the duration parser computes, as functions of the text, the locale's
    configuration and the runtime's primitives. The imperative parser in
    module DurationParser is proved to produce exactly these values. */
module DurationSpec {
  import opened Wrappers
  import opened Timex
  import opened DurationParserConfiguration

  /** The parser's name, which an extracted span's type must equal. */
  const DurationType: string := "duration"
  /** The key of the single entry of each published resolution map. */
  const DurationKey: string := "duration"

  /** The fields of a resolution result the duration parser reads or writes;
      None stands for a reference field left null. */
  datatype Resolution = Resolution(
    success: bool,
    timex: Option<string>,
    futureValue: Option<real>,
    pastValue: Option<real>,
    futureResolution: Option<map<string, string>>,
    pastResolution: Option<map<string, string>>)

  /** A freshly allocated result. */
  const Unresolved: Resolution := Resolution(false, None, None, None, None, None)

  /** A strategy's result is either untouched, or a success with an encoding
      and equal future and past values; never partially filled. */
  predicate Coherent(r: Resolution)
  {
    || r == Unresolved
    || (&& r.success && r.timex.Some? && r.futureValue.Some?
        && r.pastValue == r.futureValue
        && r.futureResolution.None? && r.pastResolution.None?)
  }

  /** A numeral's value in seconds, given the scale of its unit word. */
  function Seconds(value: real, scale: real): real
  {
    value * scale
  }

  /** The result a strategy fills in once the unit word `word` is in the
      lexicon: the encoding of the unit's code and the numeral text, and the
      numeral's value times the word's scale as both future and past value.
      `timePart` is false only for the implicit strategy, which never writes
      the time designator. */
  function Resolved(cfg: Config, word: string, numeral: string, value: real, timePart: bool): (r: Resolution)
    requires cfg.ValidLexicon() && word in cfg.unitMap
    ensures Coherent(r) && r.success
    ensures r.futureValue == r.pastValue == Some(Seconds(value, cfg.unitValueMap[word]))
  {
    var code := cfg.unitMap[word];
    var timex := if timePart then DurationTimex(code, numeral) else ImplicitTimex(code, numeral);
    var v := Seconds(value, cfg.unitValueMap[word]);
    Resolution(true, Some(timex), Some(v), Some(v), None, None)
  }

  /** The encoding of a resolved result reads back as: time part exactly when
      the strategy writes one and the code is sub-day, the numeral text
      unchanged, and the first character of the unit's code. */
  lemma ResolvedEncoding(cfg: Config, word: string, numeral: string, value: real, timePart: bool)
    requires cfg.ValidLexicon() && word in cfg.unitMap && PlainNumeral(numeral)
    ensures var code := cfg.unitMap[word];
      DecodeTimex(Resolved(cfg, word, numeral, value, timePart).timex.value)
        == Some(TimexParts(timePart && IsLessThanDay(code), numeral, code[0]))
  {
    var code := cfg.unitMap[word];
    if timePart {
      DecodeDurationTimex(code, numeral);
    } else {
      DecodeImplicitTimex(code, numeral);
    }
  }

  // ---------------------------------------------------------------------
  // The number-with-unit strategies, as an ordered chain

  /** What one strategy of the chain decides: a successful result, no match
      (try the next strategy), or a rejection that ends the chain unresolved. */
  datatype Step = Hit(result: Resolution) | Miss | Reject

  /** Runs the strategies in order: the first hit wins, a rejection stops. */
  function RunChain(steps: seq<Step>): (r: Resolution)
    ensures (forall i :: 0 <= i < |steps| && steps[i].Hit? ==> Coherent(steps[i].result)) ==> Coherent(r)
  {
    if steps == [] then Unresolved
    else match steps[0]
      case Hit(r) => r
      case Reject => Unresolved
      case Miss => RunChain(steps[1..])
  }

  lemma {:induction false} RunChainFirstHit(steps: seq<Step>, i: nat)
    requires i < |steps| && steps[i].Hit?
    requires forall j :: 0 <= j < i ==> steps[j].Miss?
    ensures RunChain(steps) == steps[i].result
  {
    if i > 0 {
      assert steps[1..][i - 1] == steps[i];
      RunChainFirstHit(steps[1..], i - 1);
    }
  }

  lemma {:induction false} RunChainStopsAtReject(steps: seq<Step>, i: nat)
    requires i < |steps| && steps[i].Reject?
    requires forall j :: 0 <= j < i ==> steps[j].Miss?
    ensures RunChain(steps) == Unresolved
  {
    if i > 0 {
      assert steps[1..][i - 1] == steps[i];
      RunChainStopsAtReject(steps[1..], i - 1);
    }
  }

  lemma {:induction false} RunChainAllMiss(steps: seq<Step>)
    requires forall j :: 0 <= j < |steps| ==> steps[j].Miss?
    ensures RunChain(steps) == Unresolved
  {
    if steps != [] {
      RunChainAllMiss(steps[1..]);
    }
  }

  /** The unit word of the separated strategy: the text after the single
      cardinal, trimmed and lower-cased. */
  function SeparatedWord(cfg: Config, rt: Runtime, text: string): string
    requires cfg.CardinalEndInRange(text) && |cfg.cardinalExtractor(text)| == 1
  {
    rt.toLower(rt.trim(text[EndOffset(cfg.cardinalExtractor(text)[0])..]))
  }

  /** Exactly one cardinal is extracted and the rest of the text is a unit word. */
  predicate SeparatedApplies(cfg: Config, rt: Runtime, text: string)
    requires cfg.CardinalEndInRange(text)
  {
    |cfg.cardinalExtractor(text)| == 1 && SeparatedWord(cfg, rt, text) in cfg.unitMap
  }

  /** Strategy 1: a number separated from its unit. The numeral text is the
      parsed number formatted back. It never rejects. */
  function SeparatedStep(cfg: Config, rt: Runtime, text: string): (s: Step)
    requires cfg.ValidLexicon() && cfg.CardinalEndInRange(text)
    ensures !s.Reject?
    ensures s.Hit? ==> |cfg.cardinalExtractor(text)| == 1 && Coherent(s.result) && s.result.success
  {
    if SeparatedApplies(cfg, rt, text) then
      var value := cfg.numberParser(cfg.cardinalExtractor(text)[0]);
      Hit(Resolved(cfg, SeparatedWord(cfg, rt, text), rt.format(value), value, true))
    else Miss
  }

  /** The fused strategy's guard: more than 1000 years, months or weeks. */
  predicate ImplausibleMagnitude(magnitude: real, code: string)
  {
    magnitude > 1000.0 && (code == "Y" || code == "MON" || code == "W")
  }

  /** The fused regex matches and its lower-cased unit capture is a unit word. */
  predicate FusedApplies(cfg: Config, rt: Runtime, text: string)
  {
    cfg.numberCombinedWithUnit(text).Some?
    && rt.toLower(cfg.numberCombinedWithUnit(text).value.unit) in cfg.unitMap
  }

  /** Strategy 2: a number fused to its unit, matched by one regex; the
      numeral text is the `num` capture as matched. */
  function FusedStep(cfg: Config, rt: Runtime, text: string): (s: Step)
    requires cfg.ValidLexicon()
    ensures s.Hit? ==> Coherent(s.result) && s.result.success
    ensures s.Reject? ==> cfg.numberCombinedWithUnit(text).Some?
  {
    match cfg.numberCombinedWithUnit(text)
    case None => Miss
    case Some(m) =>
      var word := rt.toLower(m.unit);
      if word !in cfg.unitMap then Miss
      else if ImplausibleMagnitude(rt.parseDouble(m.num), cfg.unitMap[word]) then Reject
      else Hit(Resolved(cfg, word, m.num, rt.parseDouble(m.num), true))
  }

  /** The numeral an indefinite-article phrase stands for. */
  function ArticleNumeral(m: Match): string
  {
    if m.half then "0.5" else "1"
  }

  /** Strategy 3: "a"/"an"/"half a" followed by a unit. It never rejects. */
  function AnUnitStep(cfg: Config, rt: Runtime, text: string): (s: Step)
    requires cfg.ValidLexicon()
    ensures !s.Reject?
    ensures s.Hit? ==> cfg.anUnitRegex(text).Some? && Coherent(s.result) && s.result.success
  {
    match cfg.anUnitRegex(text)
    case None => Miss
    case Some(m) =>
      var word := rt.toLower(m.unit);
      if word !in cfg.unitMap then Miss
      else
        var numeral := ArticleNumeral(m);
        Hit(Resolved(cfg, word, numeral, rt.parseDouble(numeral), true))
  }

  function NumberWithUnitSteps(cfg: Config, rt: Runtime, text: string): (steps: seq<Step>)
    requires cfg.ValidLexicon() && cfg.CardinalEndInRange(text)
  {
    [SeparatedStep(cfg, rt, text), FusedStep(cfg, rt, text), AnUnitStep(cfg, rt, text)]
  }

  /** The result of the three number-with-unit strategies tried in order. */
  function NumberWithUnit(cfg: Config, rt: Runtime, text: string): (r: Resolution)
    requires cfg.ValidLexicon() && cfg.CardinalEndInRange(text)
    ensures Coherent(r)
  {
    RunChain(NumberWithUnitSteps(cfg, rt, text))
  }

  // ---------------------------------------------------------------------
  // The implicit whole/half-unit strategy

  /** One implicit sub-check with regex match `m` and numeral text `numeral`:
      whether the regex matched, and the result. The unit capture is looked
      up as it is, in the scale map. */
  function RegexOutcome(cfg: Config, rt: Runtime, m: Option<Match>, numeral: string): (o: (bool, Resolution))
    requires cfg.ValidLexicon()
    ensures o.0 <==> m.Some?
    ensures Coherent(o.1)
    ensures o.1.success ==> m.Some? && m.value.unit in cfg.unitValueMap
    ensures m.Some? && m.value.unit in cfg.unitValueMap
         ==> o.1 == Resolved(cfg, m.value.unit, numeral, rt.parseDouble(numeral), false)
  {
    match m
    case None => (false, Unresolved)
    case Some(mt) =>
      if mt.unit in cfg.unitValueMap
      then (true, Resolved(cfg, mt.unit, numeral, rt.parseDouble(numeral), false))
      else (true, Unresolved)
  }

  /** Strategy 4: "all day"-style phrases count one unit, "half year"-style
      phrases half a unit; a half match replaces the whole-unit result. */
  function ImplicitDuration(cfg: Config, rt: Runtime, text: string): (r: Resolution)
    requires cfg.ValidLexicon()
    ensures Coherent(r)
  {
    var whole := RegexOutcome(cfg, rt, cfg.allDateUnitRegex(text), "1");
    var half := RegexOutcome(cfg, rt, cfg.halfDateUnitRegex(text), "0.5");
    if half.0 then half.1 else if whole.0 then whole.1 else Unresolved
  }

  /** The resolution of a duration text: the implicit strategy is consulted
      only when the number-with-unit strategies did not succeed. */
  function ResolveDuration(cfg: Config, rt: Runtime, text: string): (r: Resolution)
    requires cfg.ValidLexicon() && cfg.CardinalEndInRange(text)
    ensures Coherent(r)
    ensures NumberWithUnit(cfg, rt, text).success ==> r == NumberWithUnit(cfg, rt, text)
    ensures !NumberWithUnit(cfg, rt, text).success ==> r == ImplicitDuration(cfg, rt, text)
  {
    var r := NumberWithUnit(cfg, rt, text);
    if r.success then r else ImplicitDuration(cfg, rt, text)
  }

  // ---------------------------------------------------------------------
  // Parse

  /** An extracted span handed to the parser; `data` is opaque to it. */
  datatype ExtractResult<D> = ExtractResult(
    start: Option<int>, length: Option<int>, text: string, typeName: string, data: D)

  /** The observable content of a parse result; `value` is the resolution
      result the parser returns, if any. */
  datatype ParseView<D> = ParseView(
    start: Option<int>, length: Option<int>, text: string, typeName: string, data: D,
    value: Option<Resolution>, timexStr: string, resolutionStr: string)

  /** A successful result with its future and past values published, each
      under the single key DurationKey, in their formatted form. */
  function Published(rt: Runtime, r: Resolution): (p: Resolution)
    requires Coherent(r) && r.success
    ensures p.success && p.timex == r.timex
    ensures p.futureValue == p.pastValue == r.futureValue
    ensures p.futureResolution.Some? && p.futureResolution.value.Keys == {DurationKey}
    ensures p.pastResolution.Some? && p.pastResolution.value.Keys == {DurationKey}
    ensures p.futureResolution.value[DurationKey] == p.pastResolution.value[DurationKey]
         == rt.format(r.futureValue.value)
  {
    r.(futureResolution := Some(map[DurationKey := rt.format(r.futureValue.value)]),
       pastResolution := Some(map[DurationKey := rt.format(r.pastValue.value)]))
  }

  /** What Parse returns for span `er`. */
  function ParseOutcome<D>(cfg: Config, rt: Runtime, er: ExtractResult<D>): (p: ParseView<D>)
    requires cfg.ValidLexicon()
    requires er.typeName == DurationType ==> cfg.CardinalEndInRange(er.text)
    ensures p.start == er.start && p.length == er.length && p.text == er.text
    ensures p.typeName == er.typeName && p.data == er.data && p.resolutionStr == ""
    ensures p.value.None? <==> er.typeName != DurationType || !ResolveDuration(cfg, rt, er.text).success
    ensures p.value.None? ==> p.timexStr == ""
    ensures p.value.Some? ==> p.value.value == Published(rt, ResolveDuration(cfg, rt, er.text))
    ensures p.value.Some? ==>
      && p.value.value.success
      && Some(p.timexStr) == p.value.value.timex
      && p.value.value.futureValue == p.value.value.pastValue
      && p.value.value.futureResolution.Some? && p.value.value.pastResolution.Some?
      && p.value.value.futureResolution.value.Keys == p.value.value.pastResolution.value.Keys == {DurationKey}
  {
    var value :=
      if er.typeName == DurationType && ResolveDuration(cfg, rt, er.text).success
      then Some(Published(rt, ResolveDuration(cfg, rt, er.text)))
      else None;
    ParseView(er.start, er.length, er.text, er.typeName, er.data, value,
              if value.None? then "" else value.value.timex.value, "")
  }
}
