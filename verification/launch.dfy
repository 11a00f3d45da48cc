/**
 * The Run button of the pack simulation window (`run_simulation`): every
 * setting is converted and written into a copy of the environment, and
 * only when every conversion succeeds is the simulation script started
 * with that environment. Also the script's reading of `DRAW_CIRCUIT`.
 */
module Launch {
  import opened Wrappers
  import opened Text
  import opened OrderedMap
  import opened CurrentTests
  import opened TestList

  /** The settings fields of the window, as the text typed into them. */
  datatype Settings = Settings(
    ambientTemp: string,           // °C
    numParallel: string,
    numSeries: string,
    busbarResistance: string,
    connectionResistance: string,
    internalResistance: string,
    initialVoltage: string,
    cutOffVoltage: string,
    initialSoc: string,
    nominalCapacity: string,
    experimentPeriod: string,      // passed on as typed
    experimentTime: string,
    drawCircuit: bool,
    circuitDpi: string,
    circuitCptSize: string,
    circuitNodeSpacing: string)

  type Env = map<string, string>

  /** The offset from degrees Celsius to kelvin. */
  const KelvinOffset: real := 273.15

  /**
   * `str(n)` for an int: a minus sign exactly for negatives, then decimal
   * digits with no leading zero.
   */
  function IntText(n: int): (r: string)
    ensures |r| >= 1
    ensures r[0] == '-' <==> n < 0
    ensures |r| > (if n < 0 then 1 else 0) && (r[if n < 0 then 1 else 0] == '0' ==> n == 0)
    ensures forall i :: (if n < 0 then 1 else 0) <= i < |r| ==> IsDigit(r[i])
  {
    if n < 0 then "-" + Decimal(-n) else Decimal(n)
  }

  /** The value of an optionally signed string of decimal digits (`int(text)` on such text). */
  function IntValue(s: string): int
    requires |s| >= 1
    requires forall i :: (if s[0] == '-' then 1 else 0) <= i < |s| ==> IsDigit(s[i])
  {
    if s[0] == '-' then -(DecimalValue(s[1..]) as int) else DecimalValue(s)
  }

  /** Reading the text of an int back gives the int. */
  lemma IntTextRoundTrip(n: int)
    ensures IntValue(IntText(n)) == n
  {
    if n < 0 {
      assert IntText(n)[1..] == Decimal(-n);
      DecimalRoundTrip(-n);
    } else {
      DecimalRoundTrip(n);
    }
  }

  /** `int(text)`, raising on text that is not an integer. */
  function ParseInt(text: string, nt: NumberText): (r: Result<int, ParseError>)
    ensures r.Success? <==> nt.parseInt(text).Some?
    ensures r.Success? ==> r.value == nt.parseInt(text).value
    ensures r.Failure? ==> r.error == InvalidNumber(text)
  {
    match nt.parseInt(text)
    case None => Failure(InvalidNumber(text))
    case Some(n) => Success(n)
  }

  function BoolText(b: bool): string
  {
    if b then "true" else "false"
  }

  /** Every field the Run button converts holds a number of the right kind. */
  predicate AllConvert(s: Settings, tests: seq<Fields>, nt: NumberText)
  {
    && nt.parseFloat(s.ambientTemp).Some?
    && nt.parseInt(s.numParallel).Some?
    && nt.parseInt(s.numSeries).Some?
    && nt.parseFloat(s.busbarResistance).Some?
    && nt.parseFloat(s.connectionResistance).Some?
    && nt.parseFloat(s.internalResistance).Some?
    && nt.parseFloat(s.initialVoltage).Some?
    && nt.parseFloat(s.cutOffVoltage).Some?
    && nt.parseFloat(s.initialSoc).Some?
    && nt.parseFloat(s.nominalCapacity).Some?
    && nt.parseInt(s.experimentTime).Some?
    && (forall j :: 0 <= j < |tests| ==> nt.parseFloat(tests[j].currentText).Some?)
    && nt.parseInt(s.circuitDpi).Some?
    && nt.parseFloat(s.circuitCptSize).Some?
    && nt.parseFloat(s.circuitNodeSpacing).Some?
  }

  /** A field's text and the conversion the Run button puts it through. */
  datatype Typed = AsFloat(text: string) | AsInt(text: string)

  /** `float(text)` or `int(text)` accepts the text. */
  predicate Converts(t: Typed, nt: NumberText)
  {
    match t
    case AsFloat(text) => nt.parseFloat(text).Some?
    case AsInt(text) => nt.parseInt(text).Some?
  }

  /**
   * Text `i` of those `run_simulation` converts, in its order: eleven
   * settings, the current of each test, then the three circuit settings.
   */
  function TextAt(s: Settings, tests: seq<Fields>, i: nat): Typed
    requires i < |tests| + 14
  {
    var n := |tests|;
    if i == 0 then AsFloat(s.ambientTemp)
    else if i == 1 then AsInt(s.numParallel)
    else if i == 2 then AsInt(s.numSeries)
    else if i == 3 then AsFloat(s.busbarResistance)
    else if i == 4 then AsFloat(s.connectionResistance)
    else if i == 5 then AsFloat(s.internalResistance)
    else if i == 6 then AsFloat(s.initialVoltage)
    else if i == 7 then AsFloat(s.cutOffVoltage)
    else if i == 8 then AsFloat(s.initialSoc)
    else if i == 9 then AsFloat(s.nominalCapacity)
    else if i == 10 then AsInt(s.experimentTime)
    else if i < n + 11 then AsFloat(tests[i - 11].currentText)
    else if i == n + 11 then AsInt(s.circuitDpi)
    else if i == n + 12 then AsFloat(s.circuitCptSize)
    else AsFloat(s.circuitNodeSpacing)
  }

  /** Every text `run_simulation` converts, in the order it converts them. */
  function ConvertedTexts(s: Settings, tests: seq<Fields>): (ts: seq<Typed>)
    ensures |ts| == |tests| + 14
    ensures forall i :: 0 <= i < |ts| ==> ts[i] == TextAt(s, tests, i)
  {
    seq(|tests| + 14, i requires 0 <= i < |tests| + 14 => TextAt(s, tests, i))
  }

  /** Text `i` of `ts` is the first that does not convert. */
  predicate FirstFailure(ts: seq<Typed>, i: int, nt: NumberText)
  {
    0 <= i < |ts| && !Converts(ts[i], nt) && forall j :: 0 <= j < i ==> Converts(ts[j], nt)
  }

  /** The conversions in order: the ValueError of the first that raises, if any. */
  function CheckEach(ts: seq<Typed>, nt: NumberText): (r: Option<ParseError>)
    ensures r.None? <==> forall i :: 0 <= i < |ts| ==> Converts(ts[i], nt)
  {
    if |ts| == 0 then None
    else if !Converts(ts[0], nt) then Some(InvalidNumber(ts[0].text))
    else CheckEach(ts[1..], nt)
  }

  /** The error of a failed run of conversions is that of the first text that does not convert. */
  lemma {:induction false} CheckEachFirst(ts: seq<Typed>, nt: NumberText)
    requires CheckEach(ts, nt).Some?
    ensures exists i :: FirstFailure(ts, i, nt) && CheckEach(ts, nt).value == InvalidNumber(ts[i].text)
  {
    if Converts(ts[0], nt) {
      var rest := ts[1..];
      CheckEachFirst(rest, nt);
      var i :| FirstFailure(rest, i, nt) && CheckEach(rest, nt).value == InvalidNumber(rest[i].text);
      assert rest[i] == ts[i + 1];
      forall j | 0 <= j < i + 1 ensures Converts(ts[j], nt) {
        if j > 0 {
          assert ts[j] == rest[j - 1];
        }
      }
      assert FirstFailure(ts, i + 1, nt);
    } else {
      assert FirstFailure(ts, 0, nt);
    }
  }

  /** `AllConvert` is "every text `run_simulation` converts is accepted". */
  lemma AllConvertTexts(s: Settings, tests: seq<Fields>, nt: NumberText)
    ensures AllConvert(s, tests, nt) <==>
      forall i :: 0 <= i < |ConvertedTexts(s, tests)| ==> Converts(ConvertedTexts(s, tests)[i], nt)
  {
    var ts := ConvertedTexts(s, tests);
    var n := |tests|;
    if AllConvert(s, tests, nt) {
      forall i | 0 <= i < |ts| ensures Converts(ts[i], nt) {
        assert ts[i] == TextAt(s, tests, i);
      }
    }
    if forall i :: 0 <= i < |ts| ==> Converts(ts[i], nt) {
      forall j | 0 <= j < n ensures nt.parseFloat(tests[j].currentText).Some? {
        assert Converts(ts[11 + j], nt);
      }
      assert Converts(ts[0], nt) && Converts(ts[1], nt) && Converts(ts[2], nt);
      assert Converts(ts[3], nt) && Converts(ts[4], nt) && Converts(ts[5], nt);
      assert Converts(ts[6], nt) && Converts(ts[7], nt) && Converts(ts[8], nt);
      assert Converts(ts[9], nt) && Converts(ts[10], nt);
      assert Converts(ts[n + 11], nt) && Converts(ts[n + 12], nt) && Converts(ts[n + 13], nt);
    }
  }

  /** The converted settings, each as the text written to the environment. */
  datatype Converted = Converted(
    ambientTemp: string, numParallel: string, numSeries: string,
    busbarResistance: string, connectionResistance: string, internalResistance: string,
    initialVoltage: string, cutOffVoltage: string, initialSoc: string,
    nominalCapacity: string, experimentTime: string, tests: seq<(string, real)>,
    circuitDpi: string, circuitCptSize: string, circuitNodeSpacing: string)

  /** `str(float(text))`, for text `float()` accepts. */
  function FloatSetting(text: string, nt: NumberText): string
    requires nt.parseFloat(text).Some?
  {
    nt.formatFloat(nt.parseFloat(text).value)
  }

  /** `str(int(text))`, for text `int()` accepts. */
  function IntSetting(text: string, nt: NumberText): string
    requires nt.parseInt(text).Some?
  {
    IntText(nt.parseInt(text).value)
  }

  /**
   * The converted settings once every field converts: `str(float(...))` or
   * `str(int(...))` of each setting, the temperature in kelvin, and the
   * tests as collected.
   */
  function Build(s: Settings, tests: seq<Fields>, nt: NumberText): (c: Converted)
    requires AllConvert(s, tests, nt)
    ensures Collect(tests, nt) == Success(c.tests)
  {
    Converted(
      nt.formatFloat(nt.parseFloat(s.ambientTemp).value + KelvinOffset),
      IntSetting(s.numParallel, nt), IntSetting(s.numSeries, nt),
      FloatSetting(s.busbarResistance, nt), FloatSetting(s.connectionResistance, nt),
      FloatSetting(s.internalResistance, nt), FloatSetting(s.initialVoltage, nt),
      FloatSetting(s.cutOffVoltage, nt), FloatSetting(s.initialSoc, nt),
      FloatSetting(s.nominalCapacity, nt), IntSetting(s.experimentTime, nt),
      Collect(tests, nt).value, IntSetting(s.circuitDpi, nt),
      FloatSetting(s.circuitCptSize, nt), FloatSetting(s.circuitNodeSpacing, nt))
  }

  /**
   * The conversions of `run_simulation`, in its order: the first text that
   * does not convert raises its ValueError, and then nothing is converted.
   */
  function Convert(s: Settings, tests: seq<Fields>, nt: NumberText): (r: Result<Converted, ParseError>)
    ensures r.Success? <==> AllConvert(s, tests, nt)
    ensures r.Failure? ==>
      exists i :: (FirstFailure(ConvertedTexts(s, tests), i, nt)
        && r.error == InvalidNumber(ConvertedTexts(s, tests)[i].text))
    ensures r.Success? ==>
      && r.value.ambientTemp == nt.formatFloat(nt.parseFloat(s.ambientTemp).value + 273.15)
      && r.value.numParallel == IntText(nt.parseInt(s.numParallel).value)
      && r.value.numSeries == IntText(nt.parseInt(s.numSeries).value)
      && r.value.nominalCapacity == nt.formatFloat(nt.parseFloat(s.nominalCapacity).value)
      && Collect(tests, nt) == Success(r.value.tests)
  {
    var ts := ConvertedTexts(s, tests);
    AllConvertTexts(s, tests, nt);
    match CheckEach(ts, nt)
    case Some(e) =>
      CheckEachFirst(ts, nt);
      Failure(e)
    case None =>
      Success(Build(s, tests, nt))
  }

  /** The environment variables the Run button sets. */
  const LaunchKeys: set<string> := {
    "AMBIENT_TEMP", "NUM_PARALLEL", "NUM_SERIES", "BUSBAR_RESISTANCE",
    "CONNECTION_RESISTANCE", "INTERNAL_RESISTANCE", "INITIAL_VOLTAGE",
    "CUT_OFF_VOLTAGE", "INITIAL_SOC", "NOMINAL_CAPACITY", "EXPERIMENT_PERIOD",
    "EXPERIMENT_TIME", "CURRENT_TESTS", "DRAW_CIRCUIT", "CIRCUIT_DPI",
    "CIRCUIT_CPT_SIZE", "CIRCUIT_NODE_SPACING"}

  /** The text the Run button writes for setting `k`. */
  function SettingText(c: Converted, s: Settings, nt: NumberText, k: string): string
    requires k in LaunchKeys
  {
    if k == "AMBIENT_TEMP" then c.ambientTemp
    else if k == "NUM_PARALLEL" then c.numParallel
    else if k == "NUM_SERIES" then c.numSeries
    else if k == "BUSBAR_RESISTANCE" then c.busbarResistance
    else if k == "CONNECTION_RESISTANCE" then c.connectionResistance
    else if k == "INTERNAL_RESISTANCE" then c.internalResistance
    else if k == "INITIAL_VOLTAGE" then c.initialVoltage
    else if k == "CUT_OFF_VOLTAGE" then c.cutOffVoltage
    else if k == "INITIAL_SOC" then c.initialSoc
    else if k == "NOMINAL_CAPACITY" then c.nominalCapacity
    else if k == "EXPERIMENT_PERIOD" then s.experimentPeriod
    else if k == "EXPERIMENT_TIME" then c.experimentTime
    else if k == "CURRENT_TESTS" then Serialise(c.tests, nt)
    else if k == "DRAW_CIRCUIT" then BoolText(s.drawCircuit)
    else if k == "CIRCUIT_DPI" then c.circuitDpi
    else if k == "CIRCUIT_CPT_SIZE" then c.circuitCptSize
    else c.circuitNodeSpacing
  }

  /**
   * The copied environment with the converted settings written into it:
   * exactly the inherited variables and the seventeen settings.
   */
  function Environment(c: Converted, s: Settings, base: Env, nt: NumberText): (env: Env)
    ensures env.Keys == base.Keys + LaunchKeys
    ensures forall k :: k in base && k !in LaunchKeys ==> k in env && env[k] == base[k]
    ensures env["AMBIENT_TEMP"] == c.ambientTemp
    ensures env["NUM_PARALLEL"] == c.numParallel
    ensures env["NUM_SERIES"] == c.numSeries
    ensures env["BUSBAR_RESISTANCE"] == c.busbarResistance
    ensures env["CONNECTION_RESISTANCE"] == c.connectionResistance
    ensures env["INTERNAL_RESISTANCE"] == c.internalResistance
    ensures env["INITIAL_VOLTAGE"] == c.initialVoltage
    ensures env["CUT_OFF_VOLTAGE"] == c.cutOffVoltage
    ensures env["INITIAL_SOC"] == c.initialSoc
    ensures env["NOMINAL_CAPACITY"] == c.nominalCapacity
    ensures env["EXPERIMENT_PERIOD"] == s.experimentPeriod
    ensures env["EXPERIMENT_TIME"] == c.experimentTime
    ensures env["CURRENT_TESTS"] == Serialise(c.tests, nt)
    ensures env["DRAW_CIRCUIT"] == BoolText(s.drawCircuit)
    ensures env["CIRCUIT_DPI"] == c.circuitDpi
    ensures env["CIRCUIT_CPT_SIZE"] == c.circuitCptSize
    ensures env["CIRCUIT_NODE_SPACING"] == c.circuitNodeSpacing
  {
    map k | k in base.Keys + LaunchKeys ::
      if k in LaunchKeys then SettingText(c, s, nt, k) else base[k]
  }

  /**
   * `run_simulation`: the environment the script is started with, or the
   * ValueError of the first field that does not convert, in which case no
   * script is started.
   */
  function Run(s: Settings, tests: seq<Fields>, base: Env, nt: NumberText): (r: Result<Env, ParseError>)
    ensures r.Success? <==> AllConvert(s, tests, nt)
    ensures r.Failure? ==>
      exists i :: (FirstFailure(ConvertedTexts(s, tests), i, nt)
        && r.error == InvalidNumber(ConvertedTexts(s, tests)[i].text))
  {
    var c :- Convert(s, tests, nt);
    Success(Environment(c, s, base, nt))
  }

  /** The temperature is passed in kelvin: the typed Celsius value plus 273.15. */
  lemma RunAmbientTemp(s: Settings, tests: seq<Fields>, base: Env, nt: NumberText)
    requires AllConvert(s, tests, nt)
    ensures var env := Run(s, tests, base, nt).value;
      "AMBIENT_TEMP" in env
      && env["AMBIENT_TEMP"] == nt.formatFloat(nt.parseFloat(s.ambientTemp).value + 273.15)
  {
    var c := Convert(s, tests, nt).value;
    assert Run(s, tests, base, nt) == Success(Environment(c, s, base, nt));
    assert "AMBIENT_TEMP" in LaunchKeys;
  }

  /** The tests are passed as the serialised list of the collected fields. */
  lemma RunCurrentTests(s: Settings, tests: seq<Fields>, base: Env, nt: NumberText)
    requires AllConvert(s, tests, nt)
    ensures Collect(tests, nt).Success?
    ensures var env := Run(s, tests, base, nt).value;
      "CURRENT_TESTS" in env && env["CURRENT_TESTS"] == Serialise(Collect(tests, nt).value, nt)
  {
  }

  /** The checkbox is passed as "true" or "false", the period as typed. */
  lemma RunFlags(s: Settings, tests: seq<Fields>, base: Env, nt: NumberText)
    requires AllConvert(s, tests, nt)
    ensures var env := Run(s, tests, base, nt).value;
      && "DRAW_CIRCUIT" in env && env["DRAW_CIRCUIT"] == (if s.drawCircuit then "true" else "false")
      && "EXPERIMENT_PERIOD" in env && env["EXPERIMENT_PERIOD"] == s.experimentPeriod
  {
  }

  /** Pack shape and capacity are passed as the normalised numbers typed. */
  lemma RunPackFields(s: Settings, tests: seq<Fields>, base: Env, nt: NumberText)
    requires AllConvert(s, tests, nt)
    ensures var env := Run(s, tests, base, nt).value;
      && "NUM_PARALLEL" in env && env["NUM_PARALLEL"] == IntText(nt.parseInt(s.numParallel).value)
      && "NUM_SERIES" in env && env["NUM_SERIES"] == IntText(nt.parseInt(s.numSeries).value)
      && "NOMINAL_CAPACITY" in env
      && env["NOMINAL_CAPACITY"] == nt.formatFloat(nt.parseFloat(s.nominalCapacity).value)
  {
  }

  /** The script's `DRAW_CIRCUIT`: "true" in any letter case, and false when unset. */
  function ReadDrawCircuit(env: Env): (r: bool)
    ensures "DRAW_CIRCUIT" !in env ==> !r
    ensures r ==> "DRAW_CIRCUIT" in env && |env["DRAW_CIRCUIT"]| == 4
  {
    assert Lower("false")[0] == 'f';
    Lower(if "DRAW_CIRCUIT" in env then env["DRAW_CIRCUIT"] else "false") == "true"
  }

  /** The script reads back exactly the state of the checkbox. */
  lemma DrawCircuitRoundTrip(env: Env, b: bool)
    ensures ReadDrawCircuit(env["DRAW_CIRCUIT" := BoolText(b)]) == b
  {
    if !b {
      assert Lower("false")[0] == 'f';
    }
  }

  /** `c` is the letter `lower`, in either case. */
  predicate EitherCase(c: char, lower: char)
  {
    c == lower || c as int == lower as int - 'a' as int + 'A' as int
  }

  /**
   * The script draws the circuit exactly when `DRAW_CIRCUIT` is set to
   * "true" in some mix of letter cases ("True", "TRUE", ...).
   */
  lemma DrawCircuitAccepts(env: Env)
    ensures ReadDrawCircuit(env) <==>
      && "DRAW_CIRCUIT" in env && |env["DRAW_CIRCUIT"]| == 4
      && EitherCase(env["DRAW_CIRCUIT"][0], 't') && EitherCase(env["DRAW_CIRCUIT"][1], 'r')
      && EitherCase(env["DRAW_CIRCUIT"][2], 'u') && EitherCase(env["DRAW_CIRCUIT"][3], 'e')
  {
    if "DRAW_CIRCUIT" in env {
      var v := env["DRAW_CIRCUIT"];
      var l := Lower(v);
      if |v| == 4 {
        assert l == "true" <==> l[0] == 't' && l[1] == 'r' && l[2] == 'u' && l[3] == 'e';
      } else {
        assert |l| != |"true"|;
      }
    } else {
      assert Lower("false")[0] == 'f';
    }
  }
}
