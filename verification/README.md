# Battery-pack simulation scripts: post-processing, test list and launch

This project models the self-contained logic of a lithium-ion battery-pack
simulation tool. The tool has two parts: a script that simulates a pack
under several discharge currents, and a window that collects settings and
starts that script. The battery solvers and all plotting are foreign code,
so they are not modelled. What remains is modelled here:

- **Post-processing** (`process_simulation_output`, module `PostProcess`,
  with `Series`). It averages the per-cell tables over the cell axis and
  integrates the mean current into capacity in ampere-hours. It derives the
  state of charge (SoC). It picks the earliest cutoff: the voltage floor, or
  SoC reaching zero, with a tie going to voltage. It cuts all eleven output
  series to one prefix. It also covers the pack scaling the plots apply:
  capacity times the parallel count, voltage times the series count.
- **The `CURRENT_TESTS` parser** (module `CurrentTests`, with `Text` and
  `OrderedMap`). The string is split on commas, and each token is split at
  its first colon. Both parts are stripped. A bare number is keyed by
  `str(float(token))` followed by "A", the number's text as Python
  writes it back, not the token as typed. The result is an insertion-ordered dictionary: a
  repeated name keeps its first position and takes its last value.
- **The window's current-test list** (module `TestList`). It holds the
  stored rows and the entry fields shown for them, with Add, Delete and
  editing. It also builds the `CURRENT_TESTS` string that the Run button
  sends.
- **The Run button** (module `Launch`). Every field is converted, and the
  settings are written into a copy of the environment. The script starts
  only when every conversion succeeds. This module also covers how the
  script reads `DRAW_CIRCUIT`.
- **The script's `main`** (module `Simulation`). The tests are solved and
  processed in dictionary order. The results are gathered under the tests'
  names. The first failure aborts the run, and no partial results are kept.

Python's conversions between numbers and text (`float()`, `int()`,
`str(x)` of a float) are left uninterpreted. They are passed in a
`NumberText` record of functions. Wherever a property depends on them, its
lemma states the assumption it needs, for example that `float()` reads
back what `str()` wrote. The solver is a parameter of type `Solver`: a
function from the discharge current to the raw output, or to `None` when
configuring or solving raises. Configuration is passed as explicit
records: `PostProcess.Config`, `Launch.Settings`, and the environment map.

`src/4P1S.py` and `src/PackSimulation.py` are identical, so the rows below
cite `src/PackSimulation.py` for both. The window starts `src/4P1S.py`.

Two input checks one would expect of the post-processor are not in the
code, and the model follows the code:
- The code rejects neither a nominal capacity of zero or less nor tables
  whose length differs from `time`. numpy gives inf/nan for a zero
  capacity, and the solver always produces aligned tables. So `Process`
  takes both as preconditions (non-zero capacity, aligned tables), and has
  no error case for them.
- Its only error is the IndexError from reading `time[1]` when there are
  fewer than two samples.

## Model

| member | source | states |
|---|---|---|
| Series.RunningSum | src/PackSimulation.py:179 | `np.cumsum` with a seed: one value per input, the first is the seed plus the first input and the last is the seed plus the sum of all inputs |
| Series.RunningSumIsPrefixSum | src/PackSimulation.py:179 | `np.cumsum`: element i of the running sum is the seed plus the sum of the first i+1 inputs |
| Series.FirstAtOrBelow | src/PackSimulation.py:188-190 | `np.where(x <= b)[0][0]`: the index found is at or below the bound and every earlier one is above it; None exactly when no element is at or below it |
| Series.Mean | src/PackSimulation.py:172-175 | the mean of a non-empty row times its length is the row's sum |
| Series.MeanBounds | src/PackSimulation.py:172-175 | the mean of a row lies between any lower and upper bound of its cells |
| Series.MeanConstant | src/PackSimulation.py:172-175 | a row whose cells all hold c has mean c |
| Series.SumScale | src/PackSimulation.py:179 | scaling every term scales the sum, so the step width can be taken out of the sum |
| PostProcess.Means | src/PackSimulation.py:172-175 | `np.mean(t, axis=1)`: one value per time step, each the arithmetic mean of that step's cells |
| PostProcess.Capacity | src/PackSimulation.py:179 | one capacity value per mean-current sample; the values themselves are stated by CapacityAt |
| PostProcess.CapacityAt | src/PackSimulation.py:178-179 | capacity at step i is `dt * sum(current_avg[0..i]) / 3600` |
| PostProcess.StateOfCharge | src/PackSimulation.py:182 | SoC at each step is the initial SoC less capacity over nominal capacity |
| PostProcess.SelectCutoff | src/PackSimulation.py:185-202 | the cutoff is absent exactly when neither index exists; it is at or before each index that exists; the SoC reason wins only when its index is strictly smaller than the voltage index |
| PostProcess.Derive | src/PackSimulation.py:165-182 | before truncation, all eleven series have one value per time sample; their values are stated, for the kept prefix, by ProcessAverages, ProcessCapacity and ProcessSoc |
| PostProcess.FindCutoff | src/PackSimulation.py:185-202 | no cutoff exactly when every mean voltage is above the cutoff voltage and every SoC is above zero; a voltage cutoff is at the first voltage at or below the cutoff, with SoC above zero before it; a SoC cutoff is at the first SoC at or below zero, with every voltage up to and including it above the cutoff |
| PostProcess.Truncate | src/PackSimulation.py:204-219 | with no cutoff the series are returned whole; a cutoff at k leaves all eleven series with k+1 samples; the result is always a common prefix of the input series |
| PostProcess.Process | src/PackSimulation.py:150-221 | fails exactly when there are fewer than two samples (the `time[1]` IndexError); otherwise between 1 and all samples are kept, and all eleven series have that length |
| PostProcess.ProcessAverages | src/PackSimulation.py:165-175 | every returned sample keeps the raw time and cell rows, and each returned average is the mean of that step's cells |
| PostProcess.ProcessCapacity | src/PackSimulation.py:178-218 | the returned capacity is the integral of the returned mean current: truncating and integrating commute |
| PostProcess.CapacityTake | src/PackSimulation.py:179 | integrating a prefix of the mean current gives the same prefix of the capacity |
| PostProcess.ProcessSoc | src/PackSimulation.py:182-219 | the returned SoC is, step by step, the initial SoC less the returned capacity over nominal capacity |
| PostProcess.ProcessCutoff | src/PackSimulation.py:185-219 | no kept sample before the last meets either cutoff condition; a voltage cutoff ends on a sample at or below the cutoff voltage; a SoC cutoff ends on a sample with SoC ≤ 0 whose voltage is still above the cutoff; with no cutoff, every sample is kept and none meets either condition |
| PostProcess.ProcessTruncatesConsistently | src/PackSimulation.py:204-219 | all eleven series are cut to one common length, k+1 for a cutoff at k; with no cutoff the result is the untruncated one |
| PostProcess.DischargeIsMonotone | src/PackSimulation.py:178-182 | with non-negative mean currents, a non-decreasing first step and positive nominal capacity, the returned capacity never decreases and the returned SoC never increases |
| PostProcess.CapacityNonDecreasing | src/PackSimulation.py:179 | non-negative currents over a non-negative step give a non-decreasing capacity |
| PostProcess.CapacityMonotone | src/PackSimulation.py:179 | with non-negative currents and step, capacity at an earlier step is at most capacity at a later one |
| PostProcess.SocNonIncreasing | src/PackSimulation.py:182 | with positive nominal capacity, a non-decreasing capacity gives a non-increasing SoC |
| PostProcess.CellDischargeMeansDischarge | src/PackSimulation.py:172 | non-negative cell currents give a non-negative mean current |
| PostProcess.ConstantCurrentCapacity | src/PackSimulation.py:178-179 | with a constant mean current c, capacity at step i is `dt * c * (i+1) / 3600` |
| PostProcess.PackCurves | src/PackSimulation.py:257-258 | the pack curves have the processed length; pack capacity is cell capacity times Np and pack voltage is mean voltage times Ns; with Np ≥ 0, a non-decreasing cell capacity gives a non-decreasing pack capacity |
| PostProcess.PackCapacity | src/PackSimulation.py:257 | `capacity_Ah * NUM_PARALLEL`: one value per sample, each the cell capacity times Np |
| PostProcess.PackVoltage | src/PackSimulation.py:258 | `voltage_avg * NUM_SERIES`: one value per sample, each the mean voltage times Ns |
| PostProcess.ScaleKeepsOrder | src/PackSimulation.py:257 | scaling by a non-negative factor keeps a series non-decreasing |
| PostProcess.FourSampleScenario | src/PackSimulation.py:150-221 | four samples 10 s apart at 5 A with voltages 4.0, 3.5, 3.2, 2.9 and a 3.0 V cutoff: the voltage cutoff fires at index 3, all four samples are kept, and the final capacity is 200/3600 Ah |
| PostProcess.OneHourAtOneC | src/PackSimulation.py:178-219 | 5 A per cell, 10 s steps, SoC 1, 5 Ah, voltage always above the cutoff: the SoC cutoff fires at sample 359, where capacity is exactly 5 Ah and SoC exactly 0, and 360 samples are kept |
| Text.Strip | src/PackSimulation.py:44 | `str.strip()`: the result neither starts nor ends with whitespace |
| Text.StripInfix | src/PackSimulation.py:44 | what `strip()` keeps is an infix of the text, and what it removes on either side is whitespace |
| Text.StripStripped | src/PackSimulation.py:44 | a text with no surrounding whitespace is unchanged by `strip()` |
| Text.JoinAppend | src/batteryPack_gui.py:266 | `",".join(parts)`: one part joins to itself, and appending a part adds the separator and that part at the end |
| Text.Split | src/PackSimulation.py:41 | `str.split(sep)`: at least one piece, no piece contains the separator, and joining the pieces with it gives the text back |
| Text.SplitJoin | src/batteryPack_gui.py:266 | splitting a join of separator-free pieces gives back exactly those pieces |
| Text.SplitFirst | src/PackSimulation.py:43 | `str.split(sep, 1)`: the text is the head, the separator and the rest, and the head holds no separator |
| Text.SplitFirstOf | src/PackSimulation.py:43 | a text whose head holds no separator splits back into that head and the whole rest, later separators included |
| Text.Lower | src/PackSimulation.py:50 | `str.lower()`: same length, each ASCII capital mapped to its small letter, every other character kept |
| Text.Decimal | src/batteryPack_gui.py:202 | `f"{n}"` for a non-negative int: a non-empty string of decimal digits, with no leading zero: it starts with 0 only for 0 |
| Text.DecimalRoundTrip | src/batteryPack_gui.py:202 | reading the digits back gives the number written |
| OrderedMap.Find | src/PackSimulation.py:40-47 | dictionary lookup: absent exactly when the key is not among the keys |
| OrderedMap.Put | src/PackSimulation.py:44 | `d[k] = v`: an existing key keeps its place, a new key goes last, and the keys stay distinct |
| OrderedMap.PutFind | src/PackSimulation.py:44 | after `d[k] = v`, k holds v and every other key holds what it held |
| OrderedMap.FromEntries | src/PackSimulation.py:40-47 | a dictionary built by assignments has distinct keys |
| OrderedMap.FromEntriesKeys | src/PackSimulation.py:40-47 | a dictionary built by assignments has exactly the keys assigned |
| OrderedMap.FromEntriesFind | src/PackSimulation.py:40-47 | each key holds the value of its last assignment |
| OrderedMap.FromEntriesOrder | src/PackSimulation.py:40-47 | the keys are listed in the order of their first assignment |
| OrderedMap.FromDistinctEntries | src/PackSimulation.py:313-332 | assignments with distinct keys give a dictionary that lists exactly those entries, in that order |
| CurrentTests.ParseFloat | src/PackSimulation.py:44 | `float(text)` succeeds exactly when the text is a number, with that value; otherwise a ValueError carrying the text |
| CurrentTests.ParseTokenShape | src/PackSimulation.py:42-47 | a token with a colon yields a stripped name; a bare token yields `str(float(...))` of its value followed by "A"; a failure carries stripped text that `float()` rejects |
| CurrentTests.ParseNamedToken | src/PackSimulation.py:42-44 | a token with a colon is cut at its first colon; the key is the stripped head, the value is the stripped rest read as a float, and an unreadable rest is the error |
| CurrentTests.ParseBareToken | src/PackSimulation.py:45-47 | a token without a colon parses exactly when its stripped text is a number; its key is that number's text followed by "A" |
| CurrentTests.ParseEntries | src/PackSimulation.py:41-47 | a parsed token list has one entry per token; the entries themselves are stated by ParseEntriesSpec |
| CurrentTests.ParseEntriesSpec | src/PackSimulation.py:41-47 | the token list parses exactly when every token does; each entry is its token's parse; a failure is the error of the first token that fails, and every token before it parses |
| CurrentTests.ParseEntriesOf | src/PackSimulation.py:41-47 | tokens that each parse to an entry give exactly those entries, in order |
| CurrentTests.Parse | src/PackSimulation.py:40-47 | the parsed dictionary has distinct names |
| CurrentTests.ParseSpec | src/PackSimulation.py:40-47 | a parsed dictionary has at least one test; its names are exactly the tokens' names; they are in first-occurrence order; each holds the value of its last occurrence |
| CurrentTests.ParseJoinedTokens | src/PackSimulation.py:41-44 | `name:current` tokens joined by commas parse back to the names with their values, later duplicates overwriting earlier ones, provided names hold no comma or colon or surrounding whitespace and currents hold no comma |
| CurrentTests.ParseDefault | src/PackSimulation.py:38-47 | the default string gives exactly 0.5C → 7.5, 1C → 15.0, 2C → 30.0, in that order |
| TestList.Refresh | src/batteryPack_gui.py:173-199 | `update_current_tests_ui`: one pair of fields per stored row, each holding the row's name and `str(current)` |
| TestList.EditName | src/batteryPack_gui.py:186-189 | typing into a name field changes that field only |
| TestList.EditCurrent | src/batteryPack_gui.py:191-194 | typing into a current field changes that field only |
| TestList.Add | src/batteryPack_gui.py:201-203 | `add_current_test` as written: appends "Test n+1" at 10 A, leaves the stored rows unchanged and grows them by one, and rebuilds every field from the stored rows |
| TestList.Delete | src/batteryPack_gui.py:205-210 | `delete_current_test(i)` as written: with more than one row, removes exactly row i, keeps the others in order, and rebuilds the fields; with one row, changes nothing and warns |
| TestList.AddKeepingEdits | src/batteryPack_gui.py:201-203 | the corrected Add: the same new row, with its fields appended and the fields on screen kept |
| TestList.DeleteKeepingEdits | src/batteryPack_gui.py:205-210 | the corrected Delete: row i and its fields removed together, the others kept in order with their text; with one row, nothing changes and a warning is shown |
| TestList.AddKeepingEditsRefines | src/batteryPack_gui.py:201-203 | when nothing was typed since the last rebuild, the corrected Add equals the original |
| TestList.DeleteKeepingEditsRefines | src/batteryPack_gui.py:205-210 | when nothing was typed since the last rebuild, the corrected Delete equals the original |
| TestList.AddDropsEdits | src/batteryPack_gui.py:173-203 | renaming the first test to "Fast" and pressing Add shows "0.5C" again; the corrected Add keeps "Fast" |
| TestList.DeleteDropsEdits | src/batteryPack_gui.py:173-210 | renaming the first test to "Fast" and deleting the last shows "0.5C" again; the corrected Delete keeps "Fast" |
| TestList.Apply | src/batteryPack_gui.py:186-210 | one action of the window as written (Add and Delete rebuilding every field from the stored rows): it keeps one field pair per row and never empties a non-empty list |
| TestList.NeverEmpty | src/batteryPack_gui.py:201-210 | after any sequence of edits, adds and deletes of the window as written, there is still one field pair per row and at least one row |
| TestList.ApplyKeepingEdits | src/batteryPack_gui.py:186-210 | one action with the corrected Add and Delete: it keeps one field pair per row and never empties a non-empty list |
| TestList.NeverEmptyKeepingEdits | src/batteryPack_gui.py:201-210 | after any sequence of actions with the corrected Add and Delete, there is still one field pair per row and at least one row |
| TestList.InitialNonEmpty | src/batteryPack_gui.py:113-117 | the window starts with three rows, each with its fields |
| TestList.Collect | src/batteryPack_gui.py:261-265 | the Run button reads one test per row, in order, with each name as typed and each current through `float()`; it fails exactly when some current is not a number |
| TestList.CollectFailure | src/batteryPack_gui.py:261-265 | a failed collection carries the ValueError of the first row whose current `float()` rejects, and every earlier row's current is accepted |
| TestList.CollectOf | src/batteryPack_gui.py:261-265 | fields whose currents all read as numbers are collected as exactly those tests |
| TestList.TokensSplit | src/batteryPack_gui.py:261-266 | the `name:current` tokens joined by commas split back on commas into exactly those tokens, when the list is non-empty and no name or current text holds a comma |
| TestList.Serialise | src/batteryPack_gui.py:261-266 | the `CURRENT_TESTS` string of a non-empty, comma-free list splits on commas into exactly one `name:str(current)` token per test, in order |
| TestList.SerialiseRoundTrip | src/batteryPack_gui.py:261-266 | the script parses the `CURRENT_TESTS` string back to the rows' names with their currents, in list order, later duplicates overwriting earlier ones; this needs a non-empty list, plain names, and currents whose text has no comma and reads back as the same number |
| TestList.InitialSerialises | src/batteryPack_gui.py:113-117 | the untouched window collects 0.5C/7.5, 1C/15.0, 2C/30.0 and sends exactly the script's default string |
| Launch.IntText | src/batteryPack_gui.py:242 | `str(n)` of an int: non-empty, a leading minus sign exactly for negative numbers, then decimal digits with no leading zero (a first digit 0 only for 0) |
| Launch.IntTextRoundTrip | src/batteryPack_gui.py:242 | reading `str(n)` back as an integer gives n |
| Launch.ParseInt | src/batteryPack_gui.py:242 | `int(text)` succeeds exactly when the text is an integer, with that value; otherwise a ValueError carrying the text |
| Launch.ConvertedTexts | src/batteryPack_gui.py:238-272 | the texts `run_simulation` converts, one per setting and per test current, each with its conversion, in the order of the code: eleven settings, the test currents, the three circuit settings |
| Launch.CheckEach | src/batteryPack_gui.py:238-272 | running the conversions in order raises nothing exactly when every text converts |
| Launch.CheckEachFirst | src/batteryPack_gui.py:238-272 | when a conversion raises, its ValueError is that of the first text in order that does not convert, and every earlier text converts |
| Launch.AllConvertTexts | src/batteryPack_gui.py:238-272 | every numeric field holds a number of its kind exactly when every text in the conversion order converts |
| Launch.Build | src/batteryPack_gui.py:238-272 | once every field converts, the tests of the converted record are exactly the collected fields |
| Launch.Convert | src/batteryPack_gui.py:238-272 | the conversions succeed exactly when every numeric field holds a number of its kind; a failure is the ValueError of the first text, in the order of the code, that does not convert; the temperature is converted to kelvin, the pack shape is normalised through `int`, the capacity through `float`, and the tests are the collected fields |
| Launch.Environment | src/batteryPack_gui.py:236-272 | the variables are exactly the inherited ones plus the seventeen settings; every inherited variable other than the settings is passed on unchanged; each of the seventeen settings holds its converted value (`EXPERIMENT_PERIOD` as typed, `DRAW_CIRCUIT` as "true"/"false", `CURRENT_TESTS` as the serialised list) |
| Launch.Run | src/batteryPack_gui.py:233-288 | the script is started (an environment is produced) exactly when every field converts; otherwise nothing starts and the error is the ValueError of the first text, in the order of the code, that does not convert |
| Launch.RunAmbientTemp | src/batteryPack_gui.py:239 | `AMBIENT_TEMP` is the typed Celsius value plus 273.15 |
| Launch.RunCurrentTests | src/batteryPack_gui.py:261-266 | `CURRENT_TESTS` is the serialised list of the collected fields |
| Launch.RunFlags | src/batteryPack_gui.py:257-269 | `DRAW_CIRCUIT` is "true" or "false" as the checkbox is set, and `EXPERIMENT_PERIOD` is passed as typed |
| Launch.RunPackFields | src/batteryPack_gui.py:242-254 | `NUM_PARALLEL` and `NUM_SERIES` are `str(int(...))` of the typed text, and `NOMINAL_CAPACITY` is `str(float(...))` |
| Launch.ReadDrawCircuit | src/PackSimulation.py:50 | unset `DRAW_CIRCUIT` means false, and true needs a four-character value |
| Launch.DrawCircuitRoundTrip | src/PackSimulation.py:50 | the script's `lower() == "true"` reads back exactly the state of the checkbox |
| Launch.DrawCircuitAccepts | src/PackSimulation.py:50 | the script draws the circuit exactly when `DRAW_CIRCUIT` is set to "true" in any mix of letter cases; unset means false |
| Simulation.RunTest | src/PackSimulation.py:321-329 | one test fails exactly when configuring or solving raises, or post-processing raises on too few samples; the `test` field of `RunError` is an addition of the model, since `main` logs only `str(e)` (line 351) |
| Simulation.Gather | src/PackSimulation.py:313-332 | the loop succeeds exactly when every test's step does; the results list exactly the tests' names, in order, each with its step's result; otherwise the error is that of the first failing test, and every test before it succeeded |
| Simulation.RunAll | src/PackSimulation.py:307-351 | `main` runs the tests in `CURRENT_TESTS` order; `all_results` has the same names in the same order, each with its processed result; any failure aborts with that test's error and no results |
| Simulation.CurrentTestsText | src/PackSimulation.py:39 | the script reads `CURRENT_TESTS`, or the default string when it is unset |
| Simulation.Script | src/PackSimulation.py:38-351 | a malformed test list stops the script before any test runs; on a parsed list it succeeds exactly when every test's run succeeds, with at least one result, exactly the parsed names in order and each test's own report; otherwise it fails with the error of the first failing test, every earlier test having succeeded |
| Simulation.LaunchedTests | src/batteryPack_gui.py:261-283 | from window to script: when every field converts and the collected tests are serialisable, the started script parses exactly the collected list, as a dictionary |

## Left out

- The battery solvers (`lp.solve`, `lp.setup_circuit`, PyBaMM experiments and parameter sets) and `lp.draw_circuit` are foreign libraries. The solver is a `Solver` parameter, and circuit drawing is not modelled.
- Plotting, figure saving, backend detection and `pybamm.print_citations` are left out. Only the two pack-scaling multiplications are modelled. A failure in plotting would also be caught by `main`; this is not modelled.
- The tkinter widgets, tooltips, message boxes and `subprocess.Popen` are not modelled. A warning is a returned flag, the launch is the returned environment, and a ValueError is a returned error.
- Reading the environment is not modelled, except `CURRENT_TESTS` and `DRAW_CIRCUIT`. The other settings reach the post-processor as an explicit `Config`.
- Logging is not modelled. The logged cutoff reason is returned as the `Cutoff` tag.
- Python's `float()`, `int()` and `str()` of a float are uninterpreted functions in `NumberText`.
- IEEE-754 rounding, NaN and infinity are not modelled: the series are `real`.
- Non-ValueError exceptions in `run_simulation` are not modelled. No conversion in the model raises anything else.
- PostProcess.Process: requires a non-zero nominal capacity, because numpy gives inf/nan for it instead of raising. It also requires aligned tables (`WellShaped`), because the solver always returns one row per time sample; misaligned tables would give series of different lengths, or an IndexError at `time[cutoff_idx]` when the first cutoff lies past the end of `time`.
- PostProcess.Means: requires every row to hold at least one cell, because numpy gives NaN for an empty cell axis.
- Text.Lower: maps only ASCII capitals, because Unicode case tables are out of scope. `lower()` is applied to whatever `DRAW_CIRCUIT` holds, but no non-ASCII character lowercases to t, r, u or e, so `lower() == "true"` accepts exactly the ASCII case variants of "true", as the model does.
- Launch.Convert: states the result only for the temperature, the pack shape, the nominal capacity and the tests. The other fields go through the same `str(float(...))` and `str(int(...))` in the body.
- TestList.Apply and TestList.ApplyKeepingEdits: an index with no row on screen changes nothing, because the window only offers Delete buttons and fields for rows that exist.
- The other script-only files (src/constDischargeVarTemp.py, src/constTempVarDischarge.py, constDischargeVarTemp.py, the root 4P1S.py, src/grok.py, gpt.py, src/singleCell.py) are not part of this model. Each only wraps a solver call with a one-line formula, and the root 4P1S.py integrates capacity without the time step.

## Findings

| source | as written | input that shows it | evidently intended | confidence | as-written member | corrected member |
|---|---|---|---|---|---|---|
| src/batteryPack_gui.py:173-203 | `add_current_test` calls `update_current_tests_ui`, which recreates every entry field from the stored dictionaries. Names and currents typed since the last rebuild are only in the fields, so they are lost | Start the window, rename "0.5C" to "Fast", press Add: the first field shows "0.5C" again | Adding a row keeps the text typed into the other rows | not executed | TestList.AddDropsEdits | TestList.AddKeepingEdits |
| src/batteryPack_gui.py:205-208 | `delete_current_test` removes the stored row and then rebuilds every field from the stored dictionaries, so text typed into the remaining rows is lost | Start the window, rename "0.5C" to "Fast", delete the last row: the first field shows "0.5C" again | Deleting a row keeps the text typed into the other rows | not executed | TestList.DeleteDropsEdits | TestList.DeleteKeepingEdits |
