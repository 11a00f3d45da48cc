/**
 * The `CURRENT_TESTS` setting of the pack simulation script: a string such
 * as "0.5C:7.5,1C:15.0" read into an insertion-ordered map from test name
 * to discharge current (A).
 */
module CurrentTests {
  import opened Wrappers
  import opened Text
  import opened OrderedMap

  /**
   * Python's conversions between numbers and text, left uninterpreted:
   * `float(s)` (None where it raises ValueError), `str(x)` / `f"{x}"` for a
   * float, and `int(s)`.
   */
  datatype NumberText = NumberText(
    parseFloat: string -> Option<real>,
    formatFloat: real -> string,
    parseInt: string -> Option<int>)

  /** The ValueError `float()` raises, carrying the text it rejected. */
  datatype ParseError = InvalidNumber(text: string)

  /** The value used when the environment does not set `CURRENT_TESTS`. */
  const DefaultCurrentTests: string := "0.5C:7.5,1C:15.0,2C:30.0"

  /** `float(text)`, raising on text that is not a number. */
  function ParseFloat(text: string, nt: NumberText): (r: Result<real, ParseError>)
    ensures r.Success? <==> nt.parseFloat(text).Some?
    ensures r.Success? ==> r.value == nt.parseFloat(text).value
    ensures r.Failure? ==> r.error == InvalidNumber(text)
  {
    match nt.parseFloat(text)
    case None => Failure(InvalidNumber(text))
    case Some(v) => Success(v)
  }

  /**
   * One comma-separated token: `name:current` split at the first colon,
   * both parts stripped; a token without a colon is a bare current keyed
   * by `str(float(token))` followed by "A".
   */
  function ParseToken(token: string, nt: NumberText): Result<(string, real), ParseError>
  {
    if ':' in token then
      var (name, current) := SplitFirst(token, ':');
      var v :- ParseFloat(Strip(current), nt);
      Success((Strip(name), v))
    else
      var v :- ParseFloat(Strip(token), nt);
      Success((nt.formatFloat(v) + "A", v))
  }

  /**
   * What any token parses to: a named token's name is stripped, a bare
   * current is keyed by its value's text followed by "A", and a ValueError
   * carries the stripped text `float()` rejected.
   */
  lemma ParseTokenShape(token: string, nt: NumberText)
    ensures var r := ParseToken(token, nt);
      && (':' in token && r.Success? ==> Stripped(r.value.0))
      && (':' !in token && r.Success? ==> r.value.0 == nt.formatFloat(r.value.1) + "A")
      && (r.Failure? ==> Stripped(r.error.text) && nt.parseFloat(r.error.text).None?)
  {
  }

  /**
   * A named token is cut at its first colon: the name is everything before
   * it, stripped, and everything after it, colons included, is the current.
   */
  lemma ParseNamedToken(name: string, current: string, nt: NumberText)
    requires ':' !in name
    ensures ParseToken(name + ":" + current, nt) ==
      match nt.parseFloat(Strip(current))
      case None => Failure(InvalidNumber(Strip(current)))
      case Some(v) => Success((Strip(name), v))
  {
    SplitFirstOf(name, ':', current);
    assert name + ":" + current == name + [':'] + current;
  }

  /** A token without a colon is keyed by the text of its value followed by "A". */
  lemma ParseBareToken(token: string, nt: NumberText)
    requires ':' !in token
    ensures ParseToken(token, nt).Success? <==> nt.parseFloat(Strip(token)).Some?
    ensures ParseToken(token, nt).Success? ==>
      var v := nt.parseFloat(Strip(token)).value;
      ParseToken(token, nt).value == (nt.formatFloat(v) + "A", v)
  {
  }

  /**
   * Every token in order; the first token that fails to parse makes the
   * whole list fail with its error.
   */
  function ParseEntries(tokens: seq<string>, nt: NumberText): (r: Result<seq<(string, real)>, ParseError>)
    ensures r.Success? ==> |r.value| == |tokens|
  {
    if |tokens| == 0 then Success([])
    else
      var first :- ParseToken(tokens[0], nt);
      var rest :- ParseEntries(tokens[1..], nt);
      Success([first] + rest)
  }

  /**
   * A token list parses exactly when each of its tokens does: each entry is
   * its token's parse, and a failure is the error of the first token that
   * fails.
   */
  lemma {:induction false} ParseEntriesSpec(tokens: seq<string>, nt: NumberText)
    ensures var r := ParseEntries(tokens, nt);
      && (r.Success? <==> forall i :: 0 <= i < |tokens| ==> ParseToken(tokens[i], nt).Success?)
      && (r.Success? ==> forall i :: 0 <= i < |tokens| ==> ParseToken(tokens[i], nt) == Success(r.value[i]))
      && (r.Failure? ==> exists i :: 0 <= i < |tokens| && ParseToken(tokens[i], nt) == Failure(r.error)
                                    && forall j :: 0 <= j < i ==> ParseToken(tokens[j], nt).Success?)
  {
    if |tokens| > 0 {
      ParseEntriesSpec(tokens[1..], nt);
      var r := ParseEntries(tokens, nt);
      if ParseToken(tokens[0], nt).Success? && r.Failure? {
        var i :| 0 <= i < |tokens[1..]| && ParseToken(tokens[1..][i], nt) == Failure(r.error)
                 && forall j :: 0 <= j < i ==> ParseToken(tokens[1..][j], nt).Success?;
        assert ParseToken(tokens[i + 1], nt) == Failure(r.error);
        assert forall j :: 0 < j <= i ==> tokens[j] == tokens[1..][j - 1];
      }
    }
  }

  /** Tokens that each parse to an entry give exactly those entries, in order. */
  lemma {:induction false} ParseEntriesOf(tokens: seq<string>, entries: seq<(string, real)>, nt: NumberText)
    requires |tokens| == |entries|
    requires forall i :: 0 <= i < |tokens| ==> ParseToken(tokens[i], nt) == Success(entries[i])
    ensures ParseEntries(tokens, nt) == Success(entries)
  {
    if |tokens| > 0 {
      ParseEntriesOf(tokens[1..], entries[1..], nt);
      assert ParseToken(tokens[0], nt) == Success(entries[0]);
      assert [entries[0]] + entries[1..] == entries;
    }
  }

  /** The map the script builds from a `CURRENT_TESTS` string. */
  function Parse(spec: string, nt: NumberText): (r: Result<seq<(string, real)>, ParseError>)
    ensures r.Success? ==> DistinctKeys(r.value)
  {
    var entries :- ParseEntries(Split(spec, ','), nt);
    Success(FromEntries(entries))
  }

  /**
   * A successful parse has one name per distinct token name, in the order
   * each name first appears, holding the current of its last token; and
   * there is always at least one test.
   */
  lemma ParseSpec(spec: string, nt: NumberText)
    requires Parse(spec, nt).Success?
    ensures var entries := ParseEntries(Split(spec, ','), nt).value;
      var m := Parse(spec, nt).value;
      && |m| >= 1
      && (forall k :: k in Keys(m) <==> k in Keys(entries))
      && InFirstSeenOrder(Keys(m), Keys(entries))
      && (forall k :: Find(m, k) == LastValue(entries, k))
  {
    var entries := ParseEntries(Split(spec, ','), nt).value;
    FromEntriesKeys(entries);
    FromEntriesOrder(entries);
    forall k ensures Find(FromEntries(entries), k) == LastValue(entries, k) {
      FromEntriesFind(entries, k);
    }
    assert entries[0].0 in Keys(entries);
  }

  /**
   * A test name that survives the trip through the string format: no comma
   * or colon inside it and no whitespace around it.
   */
  predicate PlainName(name: string)
  {
    ',' !in name && ':' !in name && Stripped(name)
  }

  /**
   * `name:current` is a token that parses back to `entry`: the name is
   * plain, the current text holds no comma and, stripped, reads as the
   * entry's value.
   */
  predicate Renders(name: string, current: string, entry: (string, real), nt: NumberText)
  {
    && PlainName(name)
    && ',' !in current
    && entry.0 == name
    && nt.parseFloat(Strip(current)) == Some(entry.1)
  }

  /** The `name:current` token for one test. */
  function Token(name: string, current: string): string
  {
    name + ":" + current
  }

  lemma TokenWithoutComma(name: string, current: string)
    requires ',' !in name && ',' !in current
    ensures ',' !in Token(name, current)
  {
    var t := Token(name, current);
    forall i | 0 <= i < |t| ensures t[i] != ',' {
      if i < |name| {
        assert t[i] == name[i];
      } else if i > |name| {
        assert t[i] == current[i - |name| - 1];
      }
    }
  }

  /** The comma-joined tokens for a list of names and current texts. */
  function Tokens(names: seq<string>, currents: seq<string>): (r: seq<string>)
    requires |names| == |currents|
    ensures |r| == |names|
    ensures forall i :: 0 <= i < |r| ==> r[i] == Token(names[i], currents[i])
  {
    seq(|names|, i requires 0 <= i < |names| => Token(names[i], currents[i]))
  }

  /**
   * Joining `name:current` tokens and parsing the result gives back the
   * names, each with the value its current text parses to, with later
   * duplicates overwriting earlier ones; provided there is at least one
   * token, names hold no comma or colon and no surrounding whitespace, and
   * current texts hold no comma.
   */
  lemma ParseJoinedTokens(names: seq<string>, currents: seq<string>, entries: seq<(string, real)>, nt: NumberText)
    requires |names| == |currents| == |entries| >= 1
    requires forall i :: 0 <= i < |names| ==> Renders(names[i], currents[i], entries[i], nt)
    ensures Parse(Join(',', Tokens(names, currents)), nt) == Success(FromEntries(entries))
  {
    var tokens := Tokens(names, currents);
    forall i | 0 <= i < |tokens|
      ensures ',' !in tokens[i]
      ensures ParseToken(tokens[i], nt) == Success(entries[i])
    {
      TokenWithoutComma(names[i], currents[i]);
      ParseNamedToken(names[i], currents[i], nt);
      StripStripped(names[i]);
    }
    SplitJoin(tokens, ',');
    ParseEntriesOf(tokens, entries, nt);
  }

  /** The default string gives exactly the three tests 0.5C, 1C and 2C, in that order. */
  lemma ParseDefault(nt: NumberText)
    requires nt.parseFloat("7.5") == Some(7.5)
    requires nt.parseFloat("15.0") == Some(15.0)
    requires nt.parseFloat("30.0") == Some(30.0)
    ensures Parse(DefaultCurrentTests, nt) == Success([("0.5C", 7.5), ("1C", 15.0), ("2C", 30.0)])
  {
    DefaultTexts();
    DefaultTokens();
    ParseThreeTokens(DefaultCurrentTests, "0.5C", "7.5", 7.5, "1C", "15.0", 15.0, "2C", "30.0", 30.0, nt);
  }

  /** The texts inside the default string are plain. */
  lemma DefaultTexts()
    ensures PlainName("0.5C") && PlainName("1C") && PlainName("2C")
    ensures ',' !in "7.5" && ',' !in "15.0" && ',' !in "30.0"
    ensures Stripped("7.5") && Stripped("15.0") && Stripped("30.0")
  {
  }

  /** The default string is the three default tests rendered as tokens. */
  lemma DefaultTokens()
    ensures Join(',', [Token("0.5C", "7.5"), Token("1C", "15.0"), Token("2C", "30.0")]) == DefaultCurrentTests
  {
    assert Token("0.5C", "7.5") == "0.5C:7.5";
    assert Token("1C", "15.0") == "1C:15.0";
    assert Token("2C", "30.0") == "2C:30.0";
    assert Join(',', ["0.5C:7.5", "1C:15.0", "2C:30.0"]) == DefaultCurrentTests;
  }

  /** Three distinct well-formed tokens parse to their three entries, in order. */
  lemma ParseThreeTokens(spec: string, n1: string, c1: string, v1: real, n2: string, c2: string, v2: real,
                         n3: string, c3: string, v3: real, nt: NumberText)
    requires PlainName(n1) && PlainName(n2) && PlainName(n3)
    requires ',' !in c1 && ',' !in c2 && ',' !in c3
    requires Stripped(c1) && Stripped(c2) && Stripped(c3)
    requires nt.parseFloat(c1) == Some(v1)
    requires nt.parseFloat(c2) == Some(v2)
    requires nt.parseFloat(c3) == Some(v3)
    requires n1 != n2 && n1 != n3 && n2 != n3
    requires spec == Join(',', [Token(n1, c1), Token(n2, c2), Token(n3, c3)])
    ensures Parse(spec, nt) == Success([(n1, v1), (n2, v2), (n3, v3)])
  {
    var names := [n1, n2, n3];
    var currents := [c1, c2, c3];
    var entries := [(n1, v1), (n2, v2), (n3, v3)];
    FromThreeEntries(n1, v1, n2, v2, n3, v3);
    ThreeRenders(names, currents, entries, nt);
    ThreeTokens(names, currents);
    ParseJoinedTokens(names, currents, entries, nt);
  }

  lemma ThreeRenders(names: seq<string>, currents: seq<string>, entries: seq<(string, real)>, nt: NumberText)
    requires |names| == |currents| == |entries| == 3
    requires PlainName(names[0]) && PlainName(names[1]) && PlainName(names[2])
    requires ',' !in currents[0] && ',' !in currents[1] && ',' !in currents[2]
    requires Stripped(currents[0]) && Stripped(currents[1]) && Stripped(currents[2])
    requires entries[0].0 == names[0] && entries[1].0 == names[1] && entries[2].0 == names[2]
    requires nt.parseFloat(currents[0]) == Some(entries[0].1)
    requires nt.parseFloat(currents[1]) == Some(entries[1].1)
    requires nt.parseFloat(currents[2]) == Some(entries[2].1)
    ensures forall i :: 0 <= i < 3 ==> Renders(names[i], currents[i], entries[i], nt)
  {
    StripStripped(currents[0]);
    StripStripped(currents[1]);
    StripStripped(currents[2]);
    assert Renders(names[0], currents[0], entries[0], nt);
    assert Renders(names[1], currents[1], entries[1], nt);
    assert Renders(names[2], currents[2], entries[2], nt);
    forall i | 0 <= i < 3 ensures Renders(names[i], currents[i], entries[i], nt) {
      assert i == 0 || i == 1 || i == 2;
    }
  }

  lemma ThreeTokens(names: seq<string>, currents: seq<string>)
    requires |names| == |currents| == 3
    ensures Tokens(names, currents) == [Token(names[0], currents[0]), Token(names[1], currents[1]), Token(names[2], currents[2])]
  {
  }

  lemma FromThreeEntries<V>(n1: string, v1: V, n2: string, v2: V, n3: string, v3: V)
    requires n1 != n2 && n1 != n3 && n2 != n3
    ensures FromEntries([(n1, v1), (n2, v2), (n3, v3)]) == [(n1, v1), (n2, v2), (n3, v3)]
  {
    var entries := [(n1, v1), (n2, v2), (n3, v3)];
    assert Keys(entries) == [n1, n2, n3];
    FromDistinctEntries(entries);
  }
}
