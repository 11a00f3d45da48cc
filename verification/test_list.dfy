/**
 * The current-test list of the pack simulation window: the stored rows
 * (`self.current_tests`, each a name and a current) and the two text
 * fields shown for each row, with the Add / Delete buttons, editing, and
 * the `CURRENT_TESTS` string the Run button builds from the fields.
 */
module TestList {
  import opened Wrappers
  import opened Text
  import opened OrderedMap
  import opened CurrentTests

  /** One stored test: `{"name": ..., "current": ...}`. */
  datatype TestRow = TestRow(name: string, current: real)

  /** The two entry fields shown for a row: its name and its current, as text. */
  datatype Fields = Fields(nameText: string, currentText: string)

  /** The stored rows and, row by row, the fields on screen. */
  datatype Form = Form(rows: seq<TestRow>, fields: seq<Fields>)
  {
    /** One row of fields per stored row. */
    predicate Synced()
    {
      |fields| == |rows|
    }
  }

  /** The name and current a new test is given. */
  const NewTestCurrent: real := 10.0

  function NewTestName(count: nat): string
  {
    "Test " + Decimal(count + 1)
  }

  /** The three tests the window starts with. */
  const InitialRows: seq<TestRow> := [TestRow("0.5C", 7.5), TestRow("1C", 15.0), TestRow("2C", 30.0)]

  /**
   * `update_current_tests_ui`: every field is recreated from the stored
   * row, so text typed into a field since the last rebuild is replaced.
   */
  function Refresh(rows: seq<TestRow>, nt: NumberText): (f: Form)
    ensures f.Synced() && f.rows == rows
    ensures forall j :: 0 <= j < |rows| ==>
      f.fields[j] == Fields(rows[j].name, nt.formatFloat(rows[j].current))
  {
    Form(rows, seq(|rows|, j requires 0 <= j < |rows| => Fields(rows[j].name, nt.formatFloat(rows[j].current))))
  }

  function Initial(nt: NumberText): Form
  {
    Refresh(InitialRows, nt)
  }

  /** Typing into the name field of row `i`. */
  function EditName(f: Form, i: nat, text: string): (g: Form)
    requires i < |f.fields|
    ensures g.rows == f.rows && |g.fields| == |f.fields|
    ensures g.fields[i].nameText == text && g.fields[i].currentText == f.fields[i].currentText
    ensures forall j :: 0 <= j < |f.fields| && j != i ==> g.fields[j] == f.fields[j]
  {
    Form(f.rows, f.fields[i := Fields(text, f.fields[i].currentText)])
  }

  /** Typing into the current field of row `i`. */
  function EditCurrent(f: Form, i: nat, text: string): (g: Form)
    requires i < |f.fields|
    ensures g.rows == f.rows && |g.fields| == |f.fields|
    ensures g.fields[i].currentText == text && g.fields[i].nameText == f.fields[i].nameText
    ensures forall j :: 0 <= j < |f.fields| && j != i ==> g.fields[j] == f.fields[j]
  {
    Form(f.rows, f.fields[i := Fields(f.fields[i].nameText, text)])
  }

  /**
   * `add_current_test` as written: one row "Test n+1" with 10 A is
   * appended to the stored rows, which are otherwise unchanged, and every
   * field is rebuilt from the stored rows.
   */
  function Add(f: Form, nt: NumberText): (g: Form)
    ensures |g.rows| == |f.rows| + 1
    ensures g.rows[..|f.rows|] == f.rows
    ensures g.rows[|f.rows|] == TestRow(NewTestName(|f.rows|), NewTestCurrent)
    ensures g.Synced()
    ensures forall j :: 0 <= j < |g.rows| ==>
      g.fields[j] == Fields(g.rows[j].name, nt.formatFloat(g.rows[j].current))
  {
    var rows := f.rows + [TestRow(NewTestName(|f.rows|), NewTestCurrent)];
    assert rows[..|f.rows|] == f.rows;
    Refresh(rows, nt)
  }

  /**
   * `delete_current_test(i)` as written: with more than one row, exactly
   * row `i` is removed and every field is rebuilt; with a single row the
   * list is kept and a warning is shown (the flag).
   */
  function Delete(f: Form, i: nat, nt: NumberText): (r: (Form, bool))
    requires i < |f.rows|
    ensures |f.rows| > 1 ==> !r.1 && |r.0.rows| == |f.rows| - 1
    ensures |f.rows| > 1 ==> forall j :: 0 <= j < |r.0.rows| ==>
      r.0.rows[j] == if j < i then f.rows[j] else f.rows[j + 1]
    ensures |f.rows| > 1 ==> r.0 == Refresh(r.0.rows, nt)
    ensures |f.rows| <= 1 ==> r.1 && r.0 == f
  {
    if |f.rows| > 1 then (Refresh(f.rows[..i] + f.rows[i + 1..], nt), false)
    else (f, true)
  }

  /**
   * Add, keeping what was typed: the new row's fields are appended and the
   * fields already on screen are left as they are.
   */
  function AddKeepingEdits(f: Form, nt: NumberText): (g: Form)
    requires f.Synced()
    ensures g.Synced()
    ensures |g.rows| == |f.rows| + 1
    ensures g.rows[..|f.rows|] == f.rows
    ensures g.rows[|f.rows|] == TestRow(NewTestName(|f.rows|), NewTestCurrent)
    ensures g.fields[..|f.fields|] == f.fields
    ensures g.fields[|f.fields|] == Fields(NewTestName(|f.rows|), nt.formatFloat(NewTestCurrent))
  {
    var row := TestRow(NewTestName(|f.rows|), NewTestCurrent);
    var g := Form(f.rows + [row], f.fields + [Fields(row.name, nt.formatFloat(row.current))]);
    assert g.rows[..|f.rows|] == f.rows;
    assert g.fields[..|f.fields|] == f.fields;
    g
  }

  /**
   * Delete, keeping what was typed: row `i` and its fields are removed
   * together and every other field keeps its text and relative order.
   */
  function DeleteKeepingEdits(f: Form, i: nat): (r: (Form, bool))
    requires f.Synced() && i < |f.rows|
    ensures r.0.Synced()
    ensures |f.rows| > 1 ==> !r.1 && |r.0.rows| == |f.rows| - 1
    ensures |f.rows| > 1 ==> forall j :: 0 <= j < |r.0.rows| ==>
      && r.0.rows[j] == (if j < i then f.rows[j] else f.rows[j + 1])
      && r.0.fields[j] == (if j < i then f.fields[j] else f.fields[j + 1])
    ensures |f.rows| <= 1 ==> r.1 && r.0 == f
  {
    if |f.rows| > 1 then
      (Form(f.rows[..i] + f.rows[i + 1..], f.fields[..i] + f.fields[i + 1..]), false)
    else (f, true)
  }

  /** When nothing has been typed since the last rebuild, the corrected Add is the original one. */
  lemma AddKeepingEditsRefines(f: Form, nt: NumberText)
    requires f == Refresh(f.rows, nt)
    ensures AddKeepingEdits(f, nt) == Add(f, nt)
  {
    var g := AddKeepingEdits(f, nt);
    var h := Add(f, nt);
    assert |g.fields| == |h.fields|;
    forall j | 0 <= j < |g.fields| ensures g.fields[j] == h.fields[j] {
      if j < |f.fields| {
        assert g.fields[j] == g.fields[..|f.fields|][j];
      }
    }
  }

  /** When nothing has been typed since the last rebuild, the corrected Delete is the original one. */
  lemma DeleteKeepingEditsRefines(f: Form, i: nat, nt: NumberText)
    requires f == Refresh(f.rows, nt) && i < |f.rows|
    ensures DeleteKeepingEdits(f, i) == Delete(f, i, nt)
  {
    if |f.rows| > 1 {
      var g := DeleteKeepingEdits(f, i).0;
      var h := Delete(f, i, nt).0;
      assert g.rows == h.rows;
      assert g.fields == h.fields;
    }
  }

  /** Renaming the first test and then pressing Add brings back its old name. */
  lemma AddDropsEdits(nt: NumberText)
    ensures var edited := EditName(Initial(nt), 0, "Fast");
      && edited.fields[0].nameText == "Fast"
      && Add(edited, nt).fields[0].nameText == "0.5C"
      && AddKeepingEdits(edited, nt).fields[0].nameText == "Fast"
  {
    var edited := EditName(Initial(nt), 0, "Fast");
    var g := AddKeepingEdits(edited, nt);
    assert g.fields[0] == g.fields[..|edited.fields|][0];
  }

  /** Renaming the first test and then deleting the last brings back its old name. */
  lemma DeleteDropsEdits(nt: NumberText)
    ensures var edited := EditName(Initial(nt), 0, "Fast");
      && edited.fields[0].nameText == "Fast"
      && Delete(edited, 2, nt).0.fields[0].nameText == "0.5C"
      && DeleteKeepingEdits(edited, 2).0.fields[0].nameText == "Fast"
  {
  }

  /** What the user can do to the list. A Delete button exists only for rows on screen. */
  datatype Action = AddTest | DeleteTest(index: nat) | RenameTest(index: nat, text: string)
                  | SetCurrent(index: nat, text: string)

  /**
   * One action on the window as written; an index with no row on screen
   * changes nothing. Add and Delete rebuild every field from the stored rows.
   */
  function Apply(f: Form, a: Action, nt: NumberText): (g: Form)
    requires f.Synced()
    ensures g.Synced()
    ensures |f.rows| >= 1 ==> |g.rows| >= 1
  {
    match a
    case AddTest => Add(f, nt)
    case DeleteTest(i) => if i < |f.rows| then Delete(f, i, nt).0 else f
    case RenameTest(i, text) => if i < |f.fields| then EditName(f, i, text) else f
    case SetCurrent(i, text) => if i < |f.fields| then EditCurrent(f, i, text) else f
  }

  /** A sequence of actions on the window as written. */
  function RunActions(f: Form, actions: seq<Action>, nt: NumberText): Form
    requires f.Synced()
    decreases |actions|
  {
    if |actions| == 0 then f else RunActions(Apply(f, actions[0], nt), actions[1..], nt)
  }

  /** However the user edits, adds and deletes, the list is never empty. */
  lemma {:induction false} NeverEmpty(f: Form, actions: seq<Action>, nt: NumberText)
    requires f.Synced() && |f.rows| >= 1
    ensures RunActions(f, actions, nt).Synced() && |RunActions(f, actions, nt).rows| >= 1
    decreases |actions|
  {
    if |actions| > 0 {
      NeverEmpty(Apply(f, actions[0], nt), actions[1..], nt);
    }
  }

  /** One action on the corrected list, where Add and Delete keep what was typed. */
  function ApplyKeepingEdits(f: Form, a: Action, nt: NumberText): (g: Form)
    requires f.Synced()
    ensures g.Synced()
    ensures |f.rows| >= 1 ==> |g.rows| >= 1
  {
    match a
    case AddTest => AddKeepingEdits(f, nt)
    case DeleteTest(i) => if i < |f.rows| then DeleteKeepingEdits(f, i).0 else f
    case RenameTest(i, text) => if i < |f.fields| then EditName(f, i, text) else f
    case SetCurrent(i, text) => if i < |f.fields| then EditCurrent(f, i, text) else f
  }

  /** A sequence of actions on the corrected list. */
  function RunActionsKeepingEdits(f: Form, actions: seq<Action>, nt: NumberText): Form
    requires f.Synced()
    decreases |actions|
  {
    if |actions| == 0 then f
    else RunActionsKeepingEdits(ApplyKeepingEdits(f, actions[0], nt), actions[1..], nt)
  }

  /** The corrected list is never empty either. */
  lemma {:induction false} NeverEmptyKeepingEdits(f: Form, actions: seq<Action>, nt: NumberText)
    requires f.Synced() && |f.rows| >= 1
    ensures RunActionsKeepingEdits(f, actions, nt).Synced()
    ensures |RunActionsKeepingEdits(f, actions, nt).rows| >= 1
    decreases |actions|
  {
    if |actions| > 0 {
      NeverEmptyKeepingEdits(ApplyKeepingEdits(f, actions[0], nt), actions[1..], nt);
    }
  }

  lemma InitialNonEmpty(nt: NumberText)
    ensures Initial(nt).Synced() && |Initial(nt).rows| == 3
  {
  }

  /**
   * The Run button's reading of the fields: each name as typed and each
   * current through `float()`, in list order; the first current that is
   * not a number stops it.
   */
  function Collect(fields: seq<Fields>, nt: NumberText): (r: Result<seq<(string, real)>, ParseError>)
    ensures r.Success? ==> |r.value| == |fields|
    ensures r.Success? ==> forall j :: 0 <= j < |fields| ==>
      r.value[j].0 == fields[j].nameText && nt.parseFloat(fields[j].currentText) == Some(r.value[j].1)
    ensures r.Failure? <==> exists j :: 0 <= j < |fields| && nt.parseFloat(fields[j].currentText).None?
  {
    if |fields| == 0 then Success([])
    else
      var v :- ParseFloat(fields[0].currentText, nt);
      var rest :- Collect(fields[1..], nt);
      Success([(fields[0].nameText, v)] + rest)
  }

  /**
   * A collection that fails reports the first current that is not a
   * number: the ValueError of that current's text.
   */
  lemma {:induction false} CollectFailure(fields: seq<Fields>, nt: NumberText)
    requires Collect(fields, nt).Failure?
    ensures exists j :: (0 <= j < |fields| && nt.parseFloat(fields[j].currentText).None?
      && (forall k :: 0 <= k < j ==> nt.parseFloat(fields[k].currentText).Some?)
      && Collect(fields, nt).error == InvalidNumber(fields[j].currentText))
  {
    if nt.parseFloat(fields[0].currentText).Some? {
      var rest := fields[1..];
      CollectFailure(rest, nt);
      var j :| 0 <= j < |rest| && nt.parseFloat(rest[j].currentText).None?
        && (forall k :: 0 <= k < j ==> nt.parseFloat(rest[k].currentText).Some?)
        && Collect(rest, nt).error == InvalidNumber(rest[j].currentText);
      assert rest[j] == fields[j + 1];
      forall k | 0 <= k < j + 1 ensures nt.parseFloat(fields[k].currentText).Some? {
        if k > 0 {
          assert fields[k] == rest[k - 1];
        }
      }
    }
  }

  /** The current texts `str(current)` of a list of tests. */
  function CurrentTexts(tests: seq<(string, real)>, nt: NumberText): (r: seq<string>)
    ensures |r| == |tests|
    ensures forall j :: 0 <= j < |tests| ==> r[j] == nt.formatFloat(tests[j].1)
  {
    seq(|tests|, j requires 0 <= j < |tests| => nt.formatFloat(tests[j].1))
  }

  /** No name and no current text holds a comma. */
  predicate CommaFree(tests: seq<(string, real)>, nt: NumberText)
  {
    forall j :: 0 <= j < |tests| ==> ',' !in tests[j].0 && ',' !in nt.formatFloat(tests[j].1)
  }

  /**
   * `",".join(f"{name}:{current}" for each test)`: when no name or current
   * text holds a comma, splitting at commas gives back one `name:current`
   * token per test.
   */
  function Serialise(tests: seq<(string, real)>, nt: NumberText): (r: string)
    ensures |tests| >= 1 && CommaFree(tests, nt) ==>
      Split(r, ',') == Tokens(Keys(tests), CurrentTexts(tests, nt))
  {
    TokensSplit(Keys(tests), CurrentTexts(tests, nt));
    Join(',', Tokens(Keys(tests), CurrentTexts(tests, nt)))
  }

  /** Comma-free `name:current` tokens joined by commas split back into the tokens. */
  lemma TokensSplit(names: seq<string>, currents: seq<string>)
    requires |names| == |currents|
    ensures |names| >= 1 && (forall j :: 0 <= j < |names| ==> ',' !in names[j] && ',' !in currents[j]) ==>
      Split(Join(',', Tokens(names, currents)), ',') == Tokens(names, currents)
  {
    var tokens := Tokens(names, currents);
    if |names| >= 1 && (forall j :: 0 <= j < |names| ==> ',' !in names[j] && ',' !in currents[j]) {
      forall j | 0 <= j < |tokens| ensures ',' !in tokens[j] {
        TokenWithoutComma(names[j], currents[j]);
      }
      SplitJoin(tokens, ',');
    }
  }

  /**
   * No name holds a separator or surrounding whitespace, and the text of
   * every current holds no comma and reads back as the same number.
   */
  predicate Serialisable(tests: seq<(string, real)>, nt: NumberText)
  {
    forall j :: 0 <= j < |tests| ==>
      && PlainName(tests[j].0)
      && ',' !in nt.formatFloat(tests[j].1)
      && nt.parseFloat(Strip(nt.formatFloat(tests[j].1))) == Some(tests[j].1)
  }

  /**
   * The serialised list parses back, in the script, to the tests' names
   * with their currents, in list order, a repeated name keeping its first
   * place and its last current; provided there is a test and the list is
   * serialisable.
   */
  lemma SerialiseRoundTrip(tests: seq<(string, real)>, nt: NumberText)
    requires |tests| >= 1
    requires Serialisable(tests, nt)
    ensures Parse(Serialise(tests, nt), nt) == Success(FromEntries(tests))
  {
    var names := Keys(tests);
    var currents := CurrentTexts(tests, nt);
    forall j | 0 <= j < |tests| ensures Renders(names[j], currents[j], tests[j], nt) {
    }
    ParseJoinedTokens(names, currents, tests, nt);
  }

  /**
   * Pressing Run on the untouched window sends the script's own default
   * string, given that `str()` writes 7.5, 15.0 and 30.0 the usual way and
   * `float()` reads them back.
   */
  lemma InitialSerialises(nt: NumberText)
    requires nt.formatFloat(7.5) == "7.5" && nt.formatFloat(15.0) == "15.0" && nt.formatFloat(30.0) == "30.0"
    requires nt.parseFloat("7.5") == Some(7.5) && nt.parseFloat("15.0") == Some(15.0)
    requires nt.parseFloat("30.0") == Some(30.0)
    ensures Collect(Initial(nt).fields, nt) == Success([("0.5C", 7.5), ("1C", 15.0), ("2C", 30.0)])
    ensures Serialise([("0.5C", 7.5), ("1C", 15.0), ("2C", 30.0)], nt) == DefaultCurrentTests
  {
    var fields := Initial(nt).fields;
    assert fields == [Fields("0.5C", "7.5"), Fields("1C", "15.0"), Fields("2C", "30.0")];
    CollectOf(fields, [("0.5C", 7.5), ("1C", 15.0), ("2C", 30.0)], nt);
    SerialiseThree("0.5C", 7.5, "1C", 15.0, "2C", 30.0, nt);
    DefaultTokens();
  }

  /** Fields whose currents all read as numbers are collected as exactly those tests. */
  lemma {:induction false} CollectOf(fields: seq<Fields>, tests: seq<(string, real)>, nt: NumberText)
    requires |fields| == |tests|
    requires forall j :: 0 <= j < |fields| ==>
      tests[j].0 == fields[j].nameText && nt.parseFloat(fields[j].currentText) == Some(tests[j].1)
    ensures Collect(fields, nt) == Success(tests)
  {
    if |fields| > 0 {
      CollectOf(fields[1..], tests[1..], nt);
      assert [(fields[0].nameText, tests[0].1)] + tests[1..] == tests;
    }
  }

  lemma SerialiseThree(n1: string, v1: real, n2: string, v2: real, n3: string, v3: real, nt: NumberText)
    ensures Serialise([(n1, v1), (n2, v2), (n3, v3)], nt) ==
      Join(',', [Token(n1, nt.formatFloat(v1)), Token(n2, nt.formatFloat(v2)), Token(n3, nt.formatFloat(v3))])
  {
    var tests := [(n1, v1), (n2, v2), (n3, v3)];
    assert Keys(tests) == [n1, n2, n3];
    assert CurrentTexts(tests, nt) == [nt.formatFloat(v1), nt.formatFloat(v2), nt.formatFloat(v3)];
    assert Tokens(Keys(tests), CurrentTexts(tests, nt)) ==
      [Token(n1, nt.formatFloat(v1)), Token(n2, nt.formatFloat(v2)), Token(n3, nt.formatFloat(v3))];
  }
}
