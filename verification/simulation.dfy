/**
 * The simulation script's `main`: every current test is configured,
 * solved and post-processed in the order of `CURRENT_TESTS`, and the
 * processed results are gathered under the tests' names for plotting. Any
 * failure along the way aborts the whole run, and then nothing is plotted.
 *
 * Configuring and solving a test is done by foreign solver libraries; here
 * it is a parameter, a function from the discharge current to the solver's
 * output, or `None` when configuring or solving raises.
 */
module Simulation {
  import opened Wrappers
  import opened Text
  import opened OrderedMap
  import opened CurrentTests
  import opened PostProcess
  import opened TestList
  import opened Launch

  /** `configure_simulation` then `run_simulation` for one discharge current. */
  type Solver = real -> Option<RawOutput>

  /** What stopped a run, and at which test. */
  datatype RunError =
    | SolveFailed(test: string)                         // configuring or solving raised
    | ProcessFailed(test: string, error: ProcessError)  // post-processing raised

  /** The solver's output for this current, when there is one, is a well-formed table set. */
  predicate Shaped(solve: Solver, current: real)
  {
    solve(current).Some? ==> solve(current).value.WellShaped()
  }

  predicate AllShaped(solve: Solver, tests: seq<(string, real)>)
  {
    forall j :: 0 <= j < |tests| ==> Shaped(solve, tests[j].1)
  }

  /** One pass of the loop body: solve the test, then post-process its output. */
  function RunTest(test: (string, real), solve: Solver, cfg: Config): (r: Result<Report, RunError>)
    requires Shaped(solve, test.1) && cfg.nominalCapacity != 0.0
    ensures r.Failure? <==> solve(test.1).None? || |solve(test.1).value.time| < 2
    ensures r.Failure? ==> r.error.test == test.0
    ensures r.Failure? && solve(test.1).Some? ==> r.error == ProcessFailed(test.0, TooFewSamples)
    ensures r.Success? ==> Process(solve(test.1).value, cfg) == Success(r.value)
  {
    match solve(test.1)
    case None => Failure(SolveFailed(test.0))
    case Some(raw) =>
      match Process(raw, cfg)
      case Failure(e) => Failure(ProcessFailed(test.0, e))
      case Success(report) => Success(report)
  }

  /**
   * `main`'s loop, for any step: the results, as the `all_results`
   * dictionary, when every test's step succeeds; otherwise the error of
   * the first test that fails, and no results at all. The tests come from
   * a dictionary, so their names are distinct, and the results list exactly
   * those names in the same order.
   */
  method Gather<R, E>(tests: seq<(string, real)>, step: ((string, real)) -> Result<R, E>)
    returns (r: Result<seq<(string, R)>, E>)
    requires DistinctKeys(tests)
    ensures r.Success? <==> forall j :: 0 <= j < |tests| ==> step(tests[j]).Success?
    ensures r.Success? ==> Keys(r.value) == Keys(tests)
    ensures r.Success? ==> forall j :: 0 <= j < |tests| ==> r.value[j].1 == step(tests[j]).value
    ensures r.Failure? ==>
      exists j :: (0 <= j < |tests| && step(tests[j]) == Failure(r.error)
        && forall j' :: 0 <= j' < j ==> step(tests[j']).Success?)
  {
    var all: seq<(string, R)> := [];
    var i := 0;
    while i < |tests|
      invariant 0 <= i <= |tests|
      invariant Keys(all) == Keys(tests[..i])
      invariant forall j :: 0 <= j < i ==> step(tests[j]).Success? && all[j].1 == step(tests[j]).value
    {
      var outcome := step(tests[i]);
      if outcome.Failure? {
        return Failure(outcome.error);
      }
      FreshKey(tests, i);
      PutNew(all, tests[i].0, outcome.value);
      all := Put(all, tests[i].0, outcome.value);
      i := i + 1;
    }
    assert tests[..|tests|] == tests;
    return Success(all);
  }

  /** `main`: `Gather` with each test solved and post-processed. */
  method RunAll(tests: seq<(string, real)>, solve: Solver, cfg: Config)
    returns (r: Result<seq<(string, Report)>, RunError>)
    requires DistinctKeys(tests)
    requires AllShaped(solve, tests) && cfg.nominalCapacity != 0.0
    ensures r.Success? <==> forall j :: 0 <= j < |tests| ==> RunTest(tests[j], solve, cfg).Success?
    ensures r.Success? ==> Keys(r.value) == Keys(tests)
    ensures r.Success? ==> forall j :: 0 <= j < |tests| ==>
      r.value[j].1 == RunTest(tests[j], solve, cfg).value
    ensures r.Failure? ==>
      exists j :: (0 <= j < |tests| && RunTest(tests[j], solve, cfg) == Failure(r.error)
        && forall j' :: 0 <= j' < j ==> RunTest(tests[j'], solve, cfg).Success?)
  {
    // The guard holds for every test given; it only makes the step total.
    var step := (t: (string, real)) =>
      if Shaped(solve, t.1) && cfg.nominalCapacity != 0.0 then RunTest(t, solve, cfg)
      else Failure(SolveFailed(t.0));
    assert forall j :: 0 <= j < |tests| ==> step(tests[j]) == RunTest(tests[j], solve, cfg);
    r := Gather(tests, step);
  }

  /** What stopped the script: the tests it was given, or the run itself. */
  datatype ScriptError =
    | BadCurrentTests(parseError: ParseError)  // raised while the script loads
    | RunFailed(runError: RunError)       // caught and logged by `main`

  /** The text the script parses: `CURRENT_TESTS`, or the default when unset. */
  function CurrentTestsText(env: Env): (t: string)
    ensures "CURRENT_TESTS" in env ==> t == env["CURRENT_TESTS"]
    ensures "CURRENT_TESTS" !in env ==> t == DefaultCurrentTests
  {
    if "CURRENT_TESTS" in env then env["CURRENT_TESTS"] else DefaultCurrentTests
  }

  /** A solver whose every output is well formed. */
  ghost predicate SolverShaped(solve: Solver)
  {
    forall current :: Shaped(solve, current)
  }

  /**
   * The whole script: parse the tests it is given, then run them all. A
   * malformed test list stops it before any test runs; otherwise it is
   * `RunAll` on the parsed tests, whose first failure is reported.
   */
  method Script(env: Env, solve: Solver, cfg: Config, nt: NumberText)
    returns (r: Result<seq<(string, Report)>, ScriptError>)
    requires SolverShaped(solve) && cfg.nominalCapacity != 0.0
    ensures Parse(CurrentTestsText(env), nt).Failure? ==>
      r == Failure(BadCurrentTests(Parse(CurrentTestsText(env), nt).error))
    ensures r.Success? ==> Parse(CurrentTestsText(env), nt).Success?
    ensures r.Success? ==> Keys(r.value) == Keys(Parse(CurrentTestsText(env), nt).value)
    ensures r.Success? ==> |r.value| >= 1
    ensures Parse(CurrentTestsText(env), nt).Success? ==>
      var tests := Parse(CurrentTestsText(env), nt).value;
      && (r.Success? <==> forall j :: 0 <= j < |tests| ==> RunTest(tests[j], solve, cfg).Success?)
      && (r.Success? ==> forall j :: 0 <= j < |tests| ==>
            r.value[j].1 == RunTest(tests[j], solve, cfg).value)
      && (r.Failure? ==> (r.error.RunFailed?
            && exists j :: (0 <= j < |tests| && RunTest(tests[j], solve, cfg) == Failure(r.error.runError)
                 && forall j' :: 0 <= j' < j ==> RunTest(tests[j'], solve, cfg).Success?)))
  {
    var parsed := Parse(CurrentTestsText(env), nt);
    if parsed.Failure? {
      return Failure(BadCurrentTests(parsed.error));
    }
    var tests := parsed.value;
    ParseSpec(CurrentTestsText(env), nt);
    var run := RunAll(tests, solve, cfg);
    if run.Failure? {
      return Failure(RunFailed(run.error));
    }
    return Success(run.value);
  }

  /**
   * From window to script: when every field converts and the collected
   * tests are non-empty and serialisable, the script started by the Run
   * button parses back exactly the collected list, as a dictionary.
   */
  lemma LaunchedTests(s: Settings, fields: seq<Fields>, base: Env, nt: NumberText)
    requires AllConvert(s, fields, nt)
    requires |fields| >= 1
    requires Collect(fields, nt).Success? && Serialisable(Collect(fields, nt).value, nt)
    ensures Launch.Run(s, fields, base, nt).Success?
    ensures Parse(CurrentTestsText(Launch.Run(s, fields, base, nt).value), nt)
      == Success(FromEntries(Collect(fields, nt).value))
  {
    RunCurrentTests(s, fields, base, nt);
    SerialiseRoundTrip(Collect(fields, nt).value, nt);
  }
}
