/** `read_config` of `utils.cpp`: a `key:value` file read line by line into
    the caller's settings.  The float parser `std::stof` and the two
    preferred-platform string constants are parameters; the file is its
    contents, or `None` when it cannot be opened. */
module Config {
  import opened Basics
  import opened CText

  /** The caller's settings, which `read_config` updates through references. */
  datatype Settings<P, F> = Settings(
    platform: P,
    width: nat,
    height: nat,
    initialTemp: F,
    airTemp: F,
    pointTemp: F)

  /** `std::getline` on the whole file: the pieces between '\n's, where a
      final '\n' does not start another (empty) line. */
  function SplitLines(content: string): (lines: seq<string>)
    ensures forall k | 0 <= k < |lines| :: '\n' !in lines[k]
    decreases |content|
  {
    if |content| == 0 then []
    else
      match FindChar(content, '\n')
      case None => [content]
      case Some(i) => [content[..i]] + SplitLines(content[i + 1..])
  }

  /** A file written as one line per entry, each ended by '\n'. */
  function JoinLines(lines: seq<string>): string {
    if |lines| == 0 then "" else lines[0] + "\n" + JoinLines(lines[1..])
  }

  /** The first `c` of `text + [c] + rest` is the one after `text`. */
  lemma FirstAfter(text: string, c: char, rest: string)
    requires c !in text
    ensures FindChar(text + [c] + rest, c) == Some(|text|)
    ensures (text + [c] + rest)[..|text|] == text
  {
    var s := text + [c] + rest;
    assert s[..|text|] == text;
    assert s[|text|] == c;
  }

  /** A line ended by '\n' is split off the front of the file. */
  lemma SplitFirstLine(line: string, rest: string)
    requires '\n' !in line
    ensures SplitLines(line + "\n" + rest) == [line] + SplitLines(rest)
  {
    var s := line + "\n" + rest;
    FirstAfter(line, '\n', rest);
    assert s[|line| + 1..] == rest;
  }

  /** Splitting a joined file gives back its lines. */
  lemma {:induction false} SplitJoinedLines(lines: seq<string>)
    requires forall k | 0 <= k < |lines| :: '\n' !in lines[k]
    ensures SplitLines(JoinLines(lines)) == lines
  {
    if |lines| > 0 {
      SplitFirstLine(lines[0], JoinLines(lines[1..]));
      SplitJoinedLines(lines[1..]);
      assert lines == [lines[0]] + lines[1..];
    }
  }

  /** `getline(test, attribute_name, ':')`: the text before the first ':'. */
  function Key(line: string): (key: string)
    ensures ':' !in key && key <= line
  {
    match FindChar(line, ':')
    case None => line
    case Some(i) => line[..i]
  }

  /** The second `getline(test, attribute_value, ':')`: the text between the
      first and the second ':' (or the end); empty when there is no ':'. */
  function Value(line: string): (value: string)
    ensures ':' !in value
  {
    match FindChar(line, ':')
    case None => ""
    case Some(i) => Key(line[i + 1..])
  }

  /** A line written as key ':' value [':' ...] splits back into that key and value. */
  lemma KeyValueOfLine(key: string, value: string, suffix: string)
    requires ':' !in key && ':' !in value
    requires suffix == [] || suffix[0] == ':'
    ensures Key(key + ":" + value + suffix) == key
    ensures Value(key + ":" + value + suffix) == value
  {
    var line := key + ":" + value + suffix;
    FirstAfter(key, ':', value + suffix);
    assert line == key + ":" + (value + suffix);
    assert line[|key| + 1..] == value + suffix;
    if suffix == [] {
      assert value + suffix == value;
    } else {
      FirstAfter(value, ':', suffix[1..]);
      assert value + suffix == value + ":" + suffix[1..];
    }
  }

  const INT_MIN: int := -0x8000_0000
  const INT_MAX: int := 0x7FFF_FFFF

  /** `std::stoi`: the `strtol` prefix grammar, then a range check against
      the 32-bit `int`; `None` is a thrown `invalid_argument` or `out_of_range`. */
  function StoI(text: string): (r: Option<int>)
    ensures r.Some? ==> INT_MIN <= r.value <= INT_MAX
    ensures ScanInt(text).None? ==> r.None?
    ensures ScanInt(text).Some? ==>
      r == if INT_MIN <= ScanInt(text).value.value <= INT_MAX then Some(ScanInt(text).value.value) else None
  {
    match ScanInt(text)
    case None => None
    case Some(scanned) => if INT_MIN <= scanned.value <= INT_MAX then Some(scanned.value) else None
  }

  /** One line's effect: `None` when `stoi`/`stof` throws. */
  function ApplyLine<P, F>(settings: Settings<P, F>, line: string, intel: P, amd: P, stof: string -> Option<F>): (r: Option<Settings<P, F>>)
    ensures Key(line) == "width" ==>
      r == if StoI(Value(line)).Some? then Some(settings.(width := ToU32(StoI(Value(line)).value))) else None
    ensures Key(line) == "height" ==>
      r == if StoI(Value(line)).Some? then Some(settings.(height := ToU32(StoI(Value(line)).value))) else None
    // the platform changes only for the two exact names
    ensures Key(line) == "platform" ==>
      r == Some(if Value(line) == "Intel" then settings.(platform := intel)
                else if Value(line) == "AMD" then settings.(platform := amd)
                else settings)
    ensures Key(line) == "initial_temp" ==>
      r == if stof(Value(line)).Some? then Some(settings.(initialTemp := stof(Value(line)).value)) else None
    ensures Key(line) == "air_temp" ==>
      r == if stof(Value(line)).Some? then Some(settings.(airTemp := stof(Value(line)).value)) else None
    ensures Key(line) == "point_temp" ==>
      r == if stof(Value(line)).Some? then Some(settings.(pointTemp := stof(Value(line)).value)) else None
    // any other key changes nothing
    ensures !IsSettingKey(Key(line)) ==> r == Some(settings)
  {
    var name, value := Key(line), Value(line);
    if name == "width" then
      match StoI(value)
      case None => None
      case Some(n) => Some(settings.(width := ToU32(n)))
    else if name == "height" then
      match StoI(value)
      case None => None
      case Some(n) => Some(settings.(height := ToU32(n)))
    else if name == "platform" && value == "Intel" then Some(settings.(platform := intel))
    else if name == "platform" && value == "AMD" then Some(settings.(platform := amd))
    else if name == "initial_temp" then
      match stof(value)
      case None => None
      case Some(t) => Some(settings.(initialTemp := t))
    else if name == "air_temp" then
      match stof(value)
      case None => None
      case Some(t) => Some(settings.(airTemp := t))
    else if name == "point_temp" then
      match stof(value)
      case None => None
      case Some(t) => Some(settings.(pointTemp := t))
    else Some(settings)
  }

  predicate IsSettingKey(key: string) {
    key == "width" || key == "height" || key == "platform"
    || key == "initial_temp" || key == "air_temp" || key == "point_temp"
  }

  /** The result of `read_config`: every line applied, or an exception out
      of line `line` with the settings as far as they had been written. */
  datatype ConfigOutcome<P, F> = Loaded(settings: Settings<P, F>) | Thrown(line: nat, partial: Settings<P, F>)

  /** The `while (getline(...))` loop over the lines. */
  function ApplyLines<P, F>(settings: Settings<P, F>, lines: seq<string>, intel: P, amd: P, stof: string -> Option<F>): (r: ConfigOutcome<P, F>)
    ensures r.Thrown? ==> r.line < |lines|
    decreases |lines|
  {
    if |lines| == 0 then Loaded(settings)
    else
      match ApplyLine(settings, lines[0], intel, amd, stof)
      case None => Thrown(0, settings)
      case Some(next) =>
        match ApplyLines(next, lines[1..], intel, amd, stof)
        case Loaded(s) => Loaded(s)
        case Thrown(k, partial) => Thrown(k + 1, partial)
  }

  /** Model of `read_config`. */
  function ReadConfig<P, F>(file: Option<string>, settings: Settings<P, F>, intel: P, amd: P, stof: string -> Option<F>): (r: ConfigOutcome<P, F>)
    // a file that cannot be opened yields no lines and changes nothing
    ensures file.None? ==> r == Loaded(settings)
    ensures file.Some? && |file.value| == 0 ==> r == Loaded(settings)
  {
    var lines := if file.Some? then SplitLines(file.value) else [];
    ApplyLines(settings, lines, intel, amd, stof)
  }

  /** An outcome of a later stretch of lines, renumbered by the lines before it. */
  function Shifted<P, F>(r: ConfigOutcome<P, F>, offset: nat): ConfigOutcome<P, F> {
    match r
    case Loaded(s) => Loaded(s)
    case Thrown(k, partial) => Thrown(offset + k, partial)
  }

  /** Reading more lines after a clean stretch continues from where that
      stretch left off. */
  lemma {:induction false} ApplyLinesAppend<P, F>(
    settings: Settings<P, F>, first: seq<string>, second: seq<string>, intel: P, amd: P, stof: string -> Option<F>)
    requires ApplyLines(settings, first, intel, amd, stof).Loaded?
    ensures ApplyLines(settings, first + second, intel, amd, stof) ==
      Shifted(ApplyLines(ApplyLines(settings, first, intel, amd, stof).settings, second, intel, amd, stof), |first|)
    decreases |first|
  {
    if |first| == 0 {
      assert first + second == second;
      match ApplyLines(settings, second, intel, amd, stof)
      case Loaded(_) =>
      case Thrown(_, _) =>
    } else {
      assert (first + second)[1..] == first[1..] + second;
      assert (first + second)[0] == first[0];
      var next := ApplyLine(settings, first[0], intel, amd, stof).value;
      ApplyLinesAppend(next, first[1..], second, intel, amd, stof);
      var s := ApplyLines(next, first[1..], intel, amd, stof).settings;
      match ApplyLines(s, second, intel, amd, stof)
      case Loaded(_) =>
      case Thrown(_, _) =>
    }
  }

  /** Once a line throws, later lines are never read. */
  lemma {:induction false} ApplyLinesAppendThrown<P, F>(
    settings: Settings<P, F>, first: seq<string>, second: seq<string>, intel: P, amd: P, stof: string -> Option<F>)
    requires ApplyLines(settings, first, intel, amd, stof).Thrown?
    ensures ApplyLines(settings, first + second, intel, amd, stof) == ApplyLines(settings, first, intel, amd, stof)
    decreases |first|
  {
    assert (first + second)[1..] == first[1..] + second;
    assert (first + second)[0] == first[0];
    match ApplyLine(settings, first[0], intel, amd, stof)
    case None =>
    case Some(next) =>
      ApplyLinesAppendThrown(next, first[1..], second, intel, amd, stof);
  }

  /** A "width:<n>" line sets the width to n. */
  lemma WidthLine<P, F>(settings: Settings<P, F>, n: nat, intel: P, amd: P, stof: string -> Option<F>)
    requires n <= INT_MAX
    ensures ApplyLines(settings, ["width:" + NatToString(n)], intel, amd, stof) == Loaded(settings.(width := n))
  {
    var line := "width:" + NatToString(n);
    assert line == "width" + ":" + NatToString(n) + "";
    KeyValueOfLine("width", NatToString(n), "");
    assert NatToString(n) + "" == NatToString(n);
    ScanIntOfNatToString(n, "");
    assert StoI(Value(line)) == Some(n);
    assert ApplyLine(settings, line, intel, amd, stof) == Some(settings.(width := n));
    assert [line][1..] == [];
  }

  /** The last `width` line wins: whatever came before, a final
      "width:<n>" line leaves exactly n. */
  lemma LastWidthWins<P, F>(
    settings: Settings<P, F>, lines: seq<string>, n: nat, intel: P, amd: P, stof: string -> Option<F>)
    requires n <= INT_MAX
    requires ApplyLines(settings, lines, intel, amd, stof).Loaded?
    ensures var r := ApplyLines(settings, lines + ["width:" + NatToString(n)], intel, amd, stof);
      r == Loaded(ApplyLines(settings, lines, intel, amd, stof).settings.(width := n))
  {
    ApplyLinesAppend(settings, lines, ["width:" + NatToString(n)], intel, amd, stof);
    WidthLine(ApplyLines(settings, lines, intel, amd, stof).settings, n, intel, amd, stof);
  }

  /** Lines whose keys are not `width` never change the width (absent keys
      keep the caller's value), as long as no line throws. */
  lemma {:induction false} WidthKeptWithoutWidthLines<P, F>(
    settings: Settings<P, F>, lines: seq<string>, intel: P, amd: P, stof: string -> Option<F>)
    requires forall k | 0 <= k < |lines| :: Key(lines[k]) != "width"
    ensures var r := ApplyLines(settings, lines, intel, amd, stof);
      r.Loaded? ==> r.settings.width == settings.width
    decreases |lines|
  {
    if |lines| > 0 {
      match ApplyLine(settings, lines[0], intel, amd, stof)
      case None =>
      case Some(next) =>
        assert next.width == settings.width;
        WidthKeptWithoutWidthLines(next, lines[1..], intel, amd, stof);
    }
  }

  /** Lines with keys outside the six settings change nothing at all. */
  lemma {:induction false} UnknownKeysIgnored<P, F>(
    settings: Settings<P, F>, lines: seq<string>, intel: P, amd: P, stof: string -> Option<F>)
    requires forall k | 0 <= k < |lines| :: !IsSettingKey(Key(lines[k]))
    ensures ApplyLines(settings, lines, intel, amd, stof) == Loaded(settings)
  {
    if |lines| > 0 {
      UnknownKeysIgnored(settings, lines[1..], intel, amd, stof);
    }
  }
}
