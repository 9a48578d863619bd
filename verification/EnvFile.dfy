/** The installation's env file: the text `materialize` prints, readEnv and replaceEnv of
    internal/installer/installer.go, as functions of the text. */
module EnvFile {
  import opened Text

  const ORDER: seq<string> := ["LRP_ZONE", "LRP_DASHBOARD_PORT", "LRP_VERSION", "LRP_ADMIN_TOKEN"]

  // ----- Parsing -----

  /** strings.Cut at the first "=": a line without one says nothing. */
  function ParseLine(line: string): map<string, string> {
    if '=' in line then
      CutFits(line);
      map[Before(line, '=') := line[|Before(line, '=')| + 1..]]
    else map[]
  }

  lemma {:induction false} CutFits(line: string)
    requires '=' in line
    ensures |Before(line, '=')| < |line|
  {
    if line[0] != '=' {
      assert line == [line[0]] + line[1..];
      CutFits(line[1..]);
    }
  }

  function ParseLines(lines: seq<string>): map<string, string> {
    if lines == [] then map[] else ParseLine(lines[0]) + ParseLines(lines[1..])
  }

  function ParseEnv(text: string): map<string, string> {
    ParseLines(Split(text, '\n'))
  }

  lemma LineByLine(values: map<string, string>, lines: seq<string>, i: nat)
    requires i < |lines|
    ensures values + ParseLines(lines[i..]) == (values + ParseLine(lines[i])) + ParseLines(lines[i + 1..])
  {
    hide ParseLine;
    assert lines[i..][1..] == lines[i + 1..];
  }

  lemma Assigned(values: map<string, string>, line: string)
    ensures '=' in line ==>
              (|Before(line, '=')| < |line|
               && values + ParseLine(line) == values[Before(line, '=') := line[|Before(line, '=')| + 1..]])
    ensures '=' !in line ==> values + ParseLine(line) == values
  {
    if '=' in line {
      CutFits(line);
    }
  }

  /** readEnv: fill the map line by line, later lines winning. */
  method ReadEnv(text: string) returns (values: map<string, string>)
    ensures values == ParseEnv(text)
  {
    hide Split, Before, ParseLine;
    values := map[];
    var lines := Split(text, '\n');
    for i := 0 to |lines|
      invariant values + ParseLines(lines[i..]) == ParseLines(lines)
    {
      var line := lines[i];
      LineByLine(values, lines, i);
      Assigned(values, line);
      if '=' in line {
        values := values[Before(line, '=') := line[|Before(line, '=')| + 1..]];
      }
    }
  }

  /** The line assigns the value to the key: it is the key, the first "=", and the value. */
  predicate Assigns(line: string, key: string, value: string) {
    '=' !in key && line == key + "=" + value
  }

  lemma {:induction false} CutIs(line: string)
    requires '=' in line
    ensures |Before(line, '=')| < |line| && '=' !in Before(line, '=')
    ensures line == Before(line, '=') + "=" + line[|Before(line, '=')| + 1..]
  {
    if line[0] != '=' {
      CutIs(line[1..]);
      assert Before(line, '=') == [line[0]] + Before(line[1..], '=');
      assert line == [line[0]] + line[1..];
    }
  }

  lemma LineAssigns(line: string, key: string, value: string)
    ensures Assigns(line, key, value) <==> key in ParseLine(line) && ParseLine(line)[key] == value
  {
    if Assigns(line, key, value) {
      BeforeFirst(key, '=', value);
      assert line == key + ['='] + value && line[|key|] == '=';
      assert line[|key| + 1..] == value;
    }
    if '=' in line {
      CutIs(line);
    }
  }

  /** The line at `i` is the last that assigns anything to the key. */
  ghost predicate AssignsLast(lines: seq<string>, i: int, key: string, value: string) {
    && 0 <= i < |lines| && Assigns(lines[i], key, value)
    && forall j, other :: i < j < |lines| ==> !Assigns(lines[j], key, other)
  }

  ghost predicate AssignedAtLast(lines: seq<string>, key: string, value: string) {
    exists i :: AssignsLast(lines, i, key, value)
  }

  lemma {:induction false} ParsedFromLine(lines: seq<string>, key: string)
    ensures key in ParseLines(lines) ==> exists i :: AssignsLast(lines, i, key, ParseLines(lines)[key])
    ensures key !in ParseLines(lines) ==> forall i, value :: 0 <= i < |lines| ==> !Assigns(lines[i], key, value)
  {
    if lines != [] {
      var rest := lines[1..];
      ParsedFromLine(rest, key);
      if key in ParseLines(rest) {
        var i :| AssignsLast(rest, i, key, ParseLines(rest)[key]);
        forall j, other | i + 1 < j < |lines| ensures !Assigns(lines[j], key, other) {
          assert lines[j] == rest[j - 1];
        }
        assert AssignsLast(lines, i + 1, key, ParseLines(lines)[key]);
      } else {
        forall j, other | 0 < j < |lines| ensures !Assigns(lines[j], key, other) {
          assert lines[j] == rest[j - 1];
        }
        if key in ParseLine(lines[0]) {
          LineAssigns(lines[0], key, ParseLine(lines[0])[key]);
          assert AssignsLast(lines, 0, key, ParseLines(lines)[key]);
        } else {
          forall value ensures !Assigns(lines[0], key, value) {
            LineAssigns(lines[0], key, value);
          }
        }
      }
    }
  }

  /** A key has a value exactly when the last line of the text that assigns to the key assigns it. */
  lemma ParsesAssignments(text: string, key: string, value: string)
    ensures (key in ParseEnv(text) && ParseEnv(text)[key] == value)
            <==> AssignedAtLast(Split(text, '\n'), key, value)
  {
    LinesAssign(Split(text, '\n'), key, value);
  }

  lemma LinesAssign(lines: seq<string>, key: string, value: string)
    ensures (key in ParseLines(lines) && ParseLines(lines)[key] == value)
            <==> AssignedAtLast(lines, key, value)
  {
    ParsedFromLine(lines, key);
    forall i | AssignsLast(lines, i, key, value)
      ensures key in ParseLines(lines) && ParseLines(lines)[key] == value
    {
      AssignedIsParsed(lines, i, key, value);
      var k :| AssignsLast(lines, k, key, ParseLines(lines)[key]);
      OneAssignment(lines, i, k, key, value, ParseLines(lines)[key]);
    }
  }

  lemma AssignedIsParsed(lines: seq<string>, i: int, key: string, value: string)
    requires AssignsLast(lines, i, key, value)
    ensures key in ParseLines(lines)
  {
    hide ParseLines, Assigns;
    ParsedFromLine(lines, key);
    assert Assigns(lines[i], key, value);
  }

  lemma OneAssignment(lines: seq<string>, i: int, k: int, key: string, value: string, other: string)
    requires AssignsLast(lines, i, key, value) && AssignsLast(lines, k, key, other)
    ensures value == other
  {
    assert Assigns(lines[i], key, value) && Assigns(lines[k], key, other);
    assert i == k;
    assert value == lines[i][|key| + 1..] && other == lines[i][|key| + 1..];
  }

  // ----- Printing -----

  /** A missing entry prints as the empty string. */
  function Value(values: map<string, string>, name: string): string {
    if name in values then values[name] else ""
  }

  function Line(values: map<string, string>, name: string): string {
    name + "=" + Value(values, name)
  }

  function PrintEnv(values: map<string, string>, names: seq<string>): string {
    if names == [] then "" else Line(values, names[0]) + "\n" + PrintEnv(values, names[1..])
  }

  /** The text of a new installation. */
  function EnvText(zone: string, port: int, version: string, token: string): string {
    ("LRP_ZONE=" + zone + "\n") + (("LRP_DASHBOARD_PORT=" + PrintInt(port) + "\n")
    + (("LRP_VERSION=" + version + "\n") + ("LRP_ADMIN_TOKEN=" + token + "\n")))
  }

  function Replaced(text: string, key: string, value: string): string {
    PrintEnv(ParseEnv(text)[key := value], ORDER)
  }

  lemma PrintedSoFar(output: string, values: map<string, string>, names: seq<string>, i: nat)
    requires i < |names|
    ensures output + PrintEnv(values, names[i..])
              == (output + (Line(values, names[i]) + "\n")) + PrintEnv(values, names[i + 1..])
  {
    hide Line;
    assert names[i..][1..] == names[i + 1..];
  }

  /** replaceEnv: update the entry, then write the four lines in order. */
  method ReplaceEnv(text: string, key: string, value: string) returns (output: string)
    ensures output == Replaced(text, key, value)
  {
    hide ParseEnv;
    var values := ReadEnv(text);
    values := values[key := value];
    var order := ORDER;
    output := "";
    for i := 0 to |order|
      invariant output + PrintEnv(values, order[i..]) == PrintEnv(values, order)
    {
      var name := order[i];
      PrintedSoFar(output, values, order, i);
      output := output + (name + "=" + (if name in values then values[name] else "") + "\n");
    }
  }

  // ----- Round trips -----

  predicate IsName(name: string) {
    '=' !in name && '\n' !in name
  }

  predicate Distinct(names: seq<string>) {
    forall i, j :: 0 <= i < j < |names| ==> names[i] != names[j]
  }

  /** Exactly the named entries, missing ones as empty. */
  function Entries(values: map<string, string>, names: seq<string>): map<string, string> {
    map name | name in names :: Value(values, name)
  }

  lemma LineParses(values: map<string, string>, name: string)
    requires IsName(name)
    ensures ParseLine(Line(values, name)) == map[name := Value(values, name)]
  {
    var value := Value(values, name);
    var line := Line(values, name);
    assert line == name + ['='] + value;
    BeforeFirst(name, '=', value);
    assert line[|name|] == '=';
    assert line[|name| + 1..] == value;
  }

  /** The first line's entry counts unless a later line says otherwise. */
  lemma ParseFirst(line: string, rest: string)
    requires '\n' !in line
    ensures ParseEnv(line + "\n" + rest) == ParseLine(line) + ParseEnv(rest)
  {
    hide Split, ParseLine;
    SplitAtom(line, '\n');
    SplitConcat(line, rest, '\n');
    assert line + "\n" + rest == line + ['\n'] + rest;
    var later := Split(rest, '\n');
    assert ([line] + later)[0] == line && ([line] + later)[1..] == later;
  }

  lemma ParseEmpty()
    ensures ParseEnv("") == map[]
  {
    assert Split("", '\n') == [""] && [""][1..] == [];
  }

  lemma EntriesFirst(values: map<string, string>, names: seq<string>)
    requires names != [] && Distinct(names)
    ensures Entries(values, names) == map[names[0] := Value(values, names[0])] + Entries(values, names[1..])
  {
    hide Value;
    assert names == [names[0]] + names[1..];
  }

  /** The replaced text is the four lines in their order, with the new value under its key, the values
      found before under the others, and nothing after the "=" of one that was missing. */
  lemma ReplacedText(text: string, key: string, value: string)
    ensures var found := ParseEnv(text)[key := value];
            var zone := if "LRP_ZONE" in found then found["LRP_ZONE"] else "";
            var port := if "LRP_DASHBOARD_PORT" in found then found["LRP_DASHBOARD_PORT"] else "";
            var version := if "LRP_VERSION" in found then found["LRP_VERSION"] else "";
            var token := if "LRP_ADMIN_TOKEN" in found then found["LRP_ADMIN_TOKEN"] else "";
            Replaced(text, key, value) ==
              ("LRP_ZONE" + "=" + zone + "\n") + (("LRP_DASHBOARD_PORT" + "=" + port + "\n")
              + (("LRP_VERSION" + "=" + version + "\n") + ("LRP_ADMIN_TOKEN" + "=" + token + "\n")))
  {
    hide PrintEnv, ParseEnv;
    FourLines(ParseEnv(text)[key := value], ORDER);
  }

  /** Parsing what was printed gives exactly the printed entries; values may contain "=". */
  lemma {:induction false} PrintParses(values: map<string, string>, names: seq<string>)
    requires Distinct(names) && forall i :: 0 <= i < |names| ==> IsName(names[i])
    requires forall i :: 0 <= i < |names| ==> '\n' !in Value(values, names[i])
    ensures ParseEnv(PrintEnv(values, names)) == Entries(values, names)
  {
    hide Value, ParseLine;
    if names == [] {
      ParseEmpty();
    } else {
      hide ParseEnv, Entries;
      var line, rest := Line(values, names[0]), PrintEnv(values, names[1..]);
      PrintParses(values, names[1..]);
      assert '\n' !in line;
      ParseFirst(line, rest);
      LineParses(values, names[0]);
      EntriesFirst(values, names);
    }
  }

  lemma {:induction false} ParsedValuesAreLines(lines: seq<string>)
    requires forall i :: 0 <= i < |lines| ==> '\n' !in lines[i]
    ensures forall k :: k in ParseLines(lines) ==> '\n' !in ParseLines(lines)[k]
  {
    if lines != [] {
      ParsedValuesAreLines(lines[1..]);
      if '=' in lines[0] {
        CutFits(lines[0]);
      }
    }
  }

  lemma ParsedIsNewlineFree(text: string)
    ensures forall k :: k in ParseEnv(text) ==> '\n' !in ParseEnv(text)[k]
  {
    JoinSplit(text, '\n');
    ParsedValuesAreLines(Split(text, '\n'));
  }

  lemma OrderIsNames()
    ensures Distinct(ORDER) && forall i :: 0 <= i < |ORDER| ==> IsName(ORDER[i])
  {
    assert ORDER[0][4] == 'Z' && ORDER[1][4] == 'D' && ORDER[2][4] == 'V' && ORDER[3][4] == 'A';
  }

  lemma FourLines(values: map<string, string>, names: seq<string>)
    requires |names| == 4
    ensures PrintEnv(values, names) ==
              (Line(values, names[0]) + "\n") + ((Line(values, names[1]) + "\n")
              + ((Line(values, names[2]) + "\n") + (Line(values, names[3]) + "\n")))
  {
    hide Line;
    assert names[1..][1..] == names[2..] && names[2..][1..] == names[3..] && names[3..][1..] == [];
    var last := Line(values, names[3]) + "\n";
    assert PrintEnv(values, names[3..]) == last + "" == last;
    assert PrintEnv(values, names[2..]) == (Line(values, names[2]) + "\n") + last;
  }

  /** The installer's own entries. */
  function Given(zone: string, port: int, version: string, token: string): map<string, string> {
    map["LRP_ZONE" := zone, "LRP_DASHBOARD_PORT" := PrintInt(port), "LRP_VERSION" := version,
        "LRP_ADMIN_TOKEN" := token]
  }

  lemma GivenValues(zone: string, port: int, version: string, token: string)
    ensures var values := Given(zone, port, version, token);
            && Value(values, ORDER[0]) == zone && Value(values, ORDER[1]) == PrintInt(port)
            && Value(values, ORDER[2]) == version && Value(values, ORDER[3]) == token
  {
    hide PrintInt;
    OrderIsNames();
  }

  lemma EnvTextPrints(zone: string, port: int, version: string, token: string)
    ensures EnvText(zone, port, version, token) == PrintEnv(Given(zone, port, version, token), ORDER)
  {
    hide PrintInt, PrintEnv, Value, Given;
    GivenValues(zone, port, version, token);
    FourLines(Given(zone, port, version, token), ORDER);
    assert "LRP_ZONE=" == "LRP_ZONE" + "=";
    assert "LRP_DASHBOARD_PORT=" == "LRP_DASHBOARD_PORT" + "=";
    assert "LRP_VERSION=" == "LRP_VERSION" + "=";
    assert "LRP_ADMIN_TOKEN=" == "LRP_ADMIN_TOKEN" + "=";
  }

  lemma PrintedIntIsLine(n: int)
    ensures '\n' !in PrintInt(n)
  {
    var digits := Decimal(if n < 0 then -n else n);
    assert IsDigits(digits);
  }

  /** A new installation reads back what it was given: the four entries and nothing else. */
  lemma InstallReadsBack(zone: string, port: int, version: string, token: string)
    requires '\n' !in zone && '\n' !in version && '\n' !in token
    ensures ParseEnv(EnvText(zone, port, version, token)) == Given(zone, port, version, token)
  {
    var values := Given(zone, port, version, token);
    PrintedIntIsLine(port);
    OrderIsNames();
    EnvTextPrints(zone, port, version, token);
    GivenValues(zone, port, version, token);
    PrintParses(values, ORDER);
    assert Entries(values, ORDER) == values;
  }

  /** Replacing one of the four keys by a newline-free value changes that entry among the four and
      no other, and doing it again leaves the text unchanged. */
  lemma ReplaceChangesOne(text: string, key: string, value: string)
    requires key in ORDER && '\n' !in value
    ensures ParseEnv(Replaced(text, key, value)) == Entries(ParseEnv(text), ORDER)[key := value]
    ensures Replaced(Replaced(text, key, value), key, value) == Replaced(text, key, value)
  {
    hide ParseEnv, PrintEnv, Entries;
    var parsed := ParseEnv(text);
    var values := parsed[key := value];
    ParsedIsNewlineFree(text);
    OrderIsNames();
    var order := ORDER;
    forall i | 0 <= i < |order| ensures '\n' !in Value(values, order[i]) {
    }
    PrintParses(values, order);
    OneEntryChanged(parsed, key, value, order);
    SamePrint(Entries(values, order)[key := value], values, order);
  }

  lemma OneEntryChanged(parsed: map<string, string>, key: string, value: string, names: seq<string>)
    requires key in names
    ensures Entries(parsed[key := value], names) == Entries(parsed, names)[key := value]
    ensures forall i :: 0 <= i < |names| ==>
              Value(Entries(parsed[key := value], names)[key := value], names[i])
                  == Value(parsed[key := value], names[i])
  {
  }

  lemma {:induction false} SamePrint(a: map<string, string>, b: map<string, string>, names: seq<string>)
    requires forall i :: 0 <= i < |names| ==> Value(a, names[i]) == Value(b, names[i])
    ensures PrintEnv(a, names) == PrintEnv(b, names)
  {
    if names != [] {
      SamePrint(a, b, names[1..]);
    }
  }

  /** A replaced value reads back exactly when it holds no newline. */
  lemma ReplaceReadsBack(text: string, key: string, value: string)
    requires key in ORDER
    ensures (key in ParseEnv(Replaced(text, key, value)) && ParseEnv(Replaced(text, key, value))[key] == value)
              <==> '\n' !in value
  {
    ParsedIsNewlineFree(Replaced(text, key, value));
    if '\n' !in value {
      ReplaceChangesOne(text, key, value);
    }
  }
}
