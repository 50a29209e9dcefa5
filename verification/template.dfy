/**
  The template side of the resolver: the task re-indenter, the helper
  functions registered with the template engine (indent, last, toYAML,
  fromYAML) and the render step with its advisory validation.
 */
module Template {
  import opened Wrappers
  import opened Strings
  import opened Model

  // =====================================================================
  // formatTasksYAML: re-indenting tasks for a Pipeline's task list
  // =====================================================================

  /** A marshalled task made into a list item: "- " in front, document marker dropped. */
  function AsListItem(taskText: string): (item: string)
    ensures HasPrefix(item, "- ")
    ensures HasPrefix(taskText, "- ") ==> item == taskText
    ensures !HasPrefix(taskText, "- ") ==> item[2..] == TrimPrefix(taskText, "---\n")
  {
    if HasPrefix(taskText, "- ") then taskText else "- " + TrimPrefix(taskText, "---\n")
  }

  /** The lines after the first: each non-empty one indented by six spaces, empty ones dropped. */
  function IndentFollowing(lines: seq<string>): string
  {
    if lines == [] then ""
    else (if lines[0] != "" then "      " + lines[0] + "\n" else "") + IndentFollowing(lines[1..])
  }

  /** One task as it is emitted: first line indented by four spaces, the rest by six. */
  function FormatTask(taskText: string): string
  {
    var lines := Split(AsListItem(taskText), '\n');
    "    " + lines[0] + "\n" + IndentFollowing(lines[1..])
  }

  /** `prefix` in front of a successful result; failures pass through. */
  function Prepend(prefix: string, r: Result<string, string>): Result<string, string>
  {
    match r
    case Success(text) => Success(prefix + text)
    case Failure(e) => Failure(e)
  }

  /** Prepending twice is prepending the concatenation. */
  lemma PrependPrepend(a: string, b: string, r: Result<string, string>)
    ensures Prepend(a, Prepend(b, r)) == Prepend(a + b, r)
  {
    if r.Success? {
      assert a + (b + r.value) == a + b + r.value;
    }
  }

  /** Every task marshalled and formatted, in order; the first marshalling error wins. */
  function FormatAll(tasks: seq<Record>, codec: Codec): Result<string, string>
  {
    if tasks == [] then Success("")
    else
      match codec.encodeYamlRecord(tasks[0])
      case Failure(e) => Failure(e)
      case Success(text) => Prepend(FormatTask(text), FormatAll(tasks[1..], codec))
  }

  /** What formatTasksYAML returns for a YAML document of tasks. */
  function FormatTasks(content: string, codec: Codec): Result<string, string>
  {
    if content == "" then Success("")
    else
      match codec.decodeYamlRecords(content)
      case Failure(e) => Failure(e)
      case Success(tasks) => if |tasks| == 0 then Success("") else FormatAll(tasks, codec)
  }

  /**
    formatTasksYAML: decodes the tasks, then builds the result task by task
    and, within a task, line by line.
   */
  method FormatTasksYAML(content: string, codec: Codec) returns (r: Result<string, string>)
    ensures r == FormatTasks(content, codec)
    ensures content == "" ==> r == Success("")
    ensures content != "" && codec.decodeYamlRecords(content).Failure? ==> r == Failure(codec.decodeYamlRecords(content).error)
    ensures codec.decodeYamlRecords(content) == Success([]) ==> r == Success("")
    ensures r.Success? ==> WellIndented(r.value)
  {
    if content == "" {
      return Success("");
    }
    var decoded := codec.decodeYamlRecords(content);
    if decoded.Failure? {
      return Failure(decoded.error);
    }
    var tasks := decoded.value;
    if |tasks| == 0 {
      return Success("");
    }
    r := FormatEach(tasks, codec);
    FormatAllWellIndented(tasks, codec);
  }

  /**
    One step of the outer loop: with the text built so far in front, a
    failing task ends the result in its error, and a formatted task moves
    from the rest of the result onto the text built so far.
   */
  lemma {:induction false} FormatAllStep(tasks: seq<Record>, i: nat, built: string, codec: Codec)
    requires i < |tasks|
    ensures codec.encodeYamlRecord(tasks[i]).Failure? ==>
      Prepend(built, FormatAll(tasks[i..], codec)) == Failure(codec.encodeYamlRecord(tasks[i]).error)
    ensures codec.encodeYamlRecord(tasks[i]).Success? ==>
      Prepend(built, FormatAll(tasks[i..], codec))
      == Prepend(built + FormatTask(codec.encodeYamlRecord(tasks[i]).value), FormatAll(tasks[i + 1..], codec))
  {
    assert tasks[i..][1..] == tasks[i + 1..];
    assert tasks[i..][0] == tasks[i];
    var encoded := codec.encodeYamlRecord(tasks[i]);
    if encoded.Success? {
      PrependPrepend(built, FormatTask(encoded.value), FormatAll(tasks[i + 1..], codec));
    }
  }

  /** The outer loop of formatTasksYAML: each task marshalled, formatted and appended. */
  method FormatEach(tasks: seq<Record>, codec: Codec) returns (r: Result<string, string>)
    ensures r == FormatAll(tasks, codec)
  {
    var result := "";
    var i := 0;
    assert tasks[0..] == tasks;
    if FormatAll(tasks, codec).Success? {
      assert "" + FormatAll(tasks, codec).value == FormatAll(tasks, codec).value;
    }
    while i < |tasks|
      invariant 0 <= i <= |tasks|
      invariant FormatAll(tasks, codec) == Prepend(result, FormatAll(tasks[i..], codec))
    {
      FormatAllStep(tasks, i, result, codec);
      var encoded := codec.encodeYamlRecord(tasks[i]);
      if encoded.Failure? {
        return Failure(encoded.error);
      }
      var indented := IndentTask(encoded.value);
      result := result + indented;
      i := i + 1;
    }
    assert tasks[i..] == [];
    assert result + "" == result;
    r := Success(result);
  }

  /** The inner loop of formatTasksYAML: one marshalled task, line by line. */
  method IndentTask(taskText: string) returns (indented: string)
    ensures indented == FormatTask(taskText)
    ensures HasPrefix(indented, "    - ")
  {
    var item := AsListItem(taskText);
    var lines := Split(item, '\n');
    indented := "    " + lines[0] + "\n";
    var j := 1;
    while j < |lines|
      invariant 1 <= j <= |lines|
      invariant indented + IndentFollowing(lines[j..]) == FormatTask(taskText)
    {
      assert lines[j..][1..] == lines[j + 1..];
      if lines[j] != "" {
        indented := indented + "      " + lines[j] + "\n";
      }
      j := j + 1;
    }
    assert lines[j..] == [];
    FormatTaskMarker(taskText);
  }

  /**
    The shape of emitted text: complete lines (the last piece after the final
    newline is empty), each indented by at least four spaces.
   */
  predicate WellIndented(text: string)
  {
    var lines := Split(text, '\n');
    lines[|lines| - 1] == "" && forall i :: 0 <= i < |lines| - 1 ==> HasPrefix(lines[i], "    ")
  }

  /** The six-space lines, one per non-empty line, in order. */
  function SixSpaced(lines: seq<string>): seq<string>
  {
    if lines == [] then []
    else (if lines[0] != "" then ["      " + lines[0]] else []) + SixSpaced(lines[1..])
  }

  /** The lines emitted for the lines after the first. */
  lemma {:induction false} IndentFollowingLines(lines: seq<string>)
    requires forall i :: 0 <= i < |lines| ==> '\n' !in lines[i]
    ensures Split(IndentFollowing(lines), '\n') == SixSpaced(lines) + [""]
  {
    if lines != [] {
      IndentFollowingLines(lines[1..]);
      var rest := IndentFollowing(lines[1..]);
      if lines[0] != "" {
        var line := "      " + lines[0];
        assert IndentFollowing(lines) == line + ['\n'] + rest;
        SplitAppend(line, rest, '\n');
        SplitNoSep(line, '\n');
        assert SixSpaced(lines) == [line] + SixSpaced(lines[1..]);
        assert Split(IndentFollowing(lines), '\n') == [line] + (SixSpaced(lines[1..]) + [""]);
      } else {
        assert IndentFollowing(lines) == rest;
        assert SixSpaced(lines) == SixSpaced(lines[1..]);
      }
    }
  }

  /**
    A formatted task: its first line is the list item indented by four
    spaces, each later non-empty line follows indented by six, empty lines are
    dropped and every line ends with a newline.
   */
  lemma FormatTaskLines(taskText: string)
    ensures var lines := Split(AsListItem(taskText), '\n');
      Split(FormatTask(taskText), '\n') == ["    " + lines[0]] + SixSpaced(lines[1..]) + [""]
  {
    var lines := Split(AsListItem(taskText), '\n');
    var first := "    " + lines[0];
    IndentFollowingLines(lines[1..]);
    assert FormatTask(taskText) == first + ['\n'] + IndentFollowing(lines[1..]);
    SplitAppend(first, IndentFollowing(lines[1..]), '\n');
    SplitNoSep(first, '\n');
  }

  /** A formatted task starts with the list marker indented by four spaces. */
  lemma FormatTaskMarker(taskText: string)
    ensures HasPrefix(FormatTask(taskText), "    - ")
  {
    var item := AsListItem(taskText);
    var lines := Split(item, '\n');
    // the list marker survives the split into lines
    assert item == "- " + item[2..];
    SplitPrefix("- ", item[2..], '\n');
    assert HasPrefix(lines[0], "- ");
    assert FormatTask(taskText) == "    " + lines[0] + "\n" + IndentFollowing(lines[1..]);
    assert FormatTask(taskText)[..6] == "    " + lines[0][..2];
  }

  /** Every line of a formatted task is indented by at least four spaces. */
  lemma {:induction false} SixSpacedIndented(lines: seq<string>)
    ensures forall i :: 0 <= i < |SixSpaced(lines)| ==> HasPrefix(SixSpaced(lines)[i], "    ")
  {
    if lines != [] {
      SixSpacedIndented(lines[1..]);
      var head := if lines[0] != "" then ["      " + lines[0]] else [];
      assert SixSpaced(lines) == head + SixSpaced(lines[1..]);
      forall i | 0 <= i < |SixSpaced(lines)|
        ensures HasPrefix(SixSpaced(lines)[i], "    ")
      {
        if i < |head| {
          assert SixSpaced(lines)[i] == "      " + lines[0];
        } else {
          assert SixSpaced(lines)[i] == SixSpaced(lines[1..])[i - |head|];
        }
      }
    }
  }

  /** Appending complete lines to complete lines keeps the shape. */
  lemma WellIndentedAppend(a: string, b: string)
    requires WellIndented(a) && WellIndented(b)
    ensures WellIndented(a + b)
  {
    var la := Split(a, '\n');
    if |la| == 1 {
      assert a == Join(la, "\n") by { JoinSplit(a, '\n'); }
      assert a + b == b;
    } else {
      var front := Join(la[..|la| - 1], "\n");
      assert a == front + "\n" by {
        JoinSplit(a, '\n');
        JoinSnoc(la[..|la| - 1], "", "\n");
        assert la == la[..|la| - 1] + [""];
      }
      assert Split(front, '\n') == la[..|la| - 1] by {
        SplitJoin(la[..|la| - 1], '\n');
      }
      assert a + b == front + ['\n'] + b;
      SplitAppend(front, b, '\n');
    }
  }

  /** Whatever formatTasksYAML emits consists of complete, indented lines. */
  lemma {:induction false} FormatAllWellIndented(tasks: seq<Record>, codec: Codec)
    ensures FormatAll(tasks, codec).Success? ==> WellIndented(FormatAll(tasks, codec).value)
  {
    if tasks != [] && codec.encodeYamlRecord(tasks[0]).Success? {
      var text := codec.encodeYamlRecord(tasks[0]).value;
      FormatAllWellIndented(tasks[1..], codec);
      FormatTaskLines(text);
      var lines := Split(AsListItem(text), '\n');
      SixSpacedIndented(lines[1..]);
      var out := Split(FormatTask(text), '\n');
      assert WellIndented(FormatTask(text)) by {
        forall i | 0 <= i < |out| - 1
          ensures HasPrefix(out[i], "    ")
        {
          if i > 0 {
            assert out[i] == SixSpaced(lines[1..])[i - 1];
          }
        }
      }
      if FormatAll(tasks[1..], codec).Success? {
        WellIndentedAppend(FormatTask(text), FormatAll(tasks[1..], codec).value);
      }
    }
    if tasks == [] {
      assert Split("", '\n') == [""];
    }
  }

  // =====================================================================
  // indent: padding every non-empty line
  // =====================================================================

  /** Each non-empty line with `padding` in front; empty lines stay empty. */
  function PadLines(padding: string, lines: seq<string>): (padded: seq<string>)
    ensures |padded| == |lines|
    ensures forall i :: 0 <= i < |lines| ==> padded[i] == if lines[i] == "" then "" else padding + lines[i]
  {
    seq(|lines|, i requires 0 <= i < |lines| => if lines[i] == "" then "" else padding + lines[i])
  }

  /** The text `indent n` produces. */
  function IndentText(n: nat, text: string): string
  {
    Join(PadLines(Spaces(n), Split(text, '\n')), "\n")
  }

  /** The error text/template reports when strings.Repeat is given a negative count. */
  const NegativeRepeatCount := "strings: negative Repeat count"

  /**
    indent: the lines are padded in place, then joined again. A negative
    width makes strings.Repeat panic, which the template engine turns into an
    execution error.
   */
  method Indent(spaces: int, v: string) returns (r: Result<string, string>)
    ensures spaces < 0 ==> r == Failure(NegativeRepeatCount)
    ensures spaces >= 0 ==> r == Success(IndentText(spaces, v))
    ensures spaces >= 0 ==>
      var before, after := Split(v, '\n'), Split(r.value, '\n');
      |after| == |before|
      && forall i :: 0 <= i < |before| ==>
        after[i] == if before[i] == "" then "" else Spaces(spaces) + before[i]
  {
    if spaces < 0 {
      return Failure(NegativeRepeatCount);
    }
    var padding := Spaces(spaces);
    var lines := Split(v, '\n');
    ghost var original := lines;
    for i := 0 to |lines|
      invariant |lines| == |original|
      invariant forall j :: 0 <= j < i ==> lines[j] == if original[j] == "" then "" else padding + original[j]
      invariant forall j :: i <= j < |lines| ==> lines[j] == original[j]
    {
      if lines[i] != "" {
        lines := lines[i := padding + lines[i]];
      }
    }
    assert lines == PadLines(padding, original);
    r := Success(Join(lines, "\n"));
    IndentKeepsLines(spaces, v);
  }

  /** indent n keeps the lines: the same count, each non-empty one shifted by exactly n spaces. */
  lemma IndentKeepsLines(n: nat, text: string)
    ensures Split(IndentText(n, text), '\n') == PadLines(Spaces(n), Split(text, '\n'))
  {
    var padded := PadLines(Spaces(n), Split(text, '\n'));
    forall i | 0 <= i < |padded|
      ensures '\n' !in padded[i]
    {
      if padded[i] != "" {
        assert padded[i] == Spaces(n) + Split(text, '\n')[i];
      }
    }
    SplitJoin(padded, '\n');
  }

  /** indent 0 is the identity. */
  lemma IndentZero(text: string)
    ensures IndentText(0, text) == text
  {
    var lines := Split(text, '\n');
    assert Spaces(0) == "";
    forall i | 0 <= i < |lines|
      ensures PadLines(Spaces(0), lines)[i] == lines[i]
    {
      assert "" + lines[i] == lines[i];
    }
    assert PadLines(Spaces(0), lines) == lines;
    JoinSplit(text, '\n');
  }

  // =====================================================================
  // last: is this the last key in sorted order?
  // =====================================================================

  /** Byte-wise (equivalently, rune-wise) lexicographic order, as sort.Strings uses. */
  predicate StrLe(a: string, b: string)
  {
    a == [] || (b != [] && (a[0] < b[0] || (a[0] == b[0] && StrLe(a[1..], b[1..]))))
  }

  lemma {:induction false} StrLeReflexive(a: string)
    ensures StrLe(a, a)
  {
    if a != [] {
      StrLeReflexive(a[1..]);
    }
  }

  lemma {:induction false} StrLeTotal(a: string, b: string)
    ensures StrLe(a, b) || StrLe(b, a)
  {
    if a != [] && b != [] && a[0] == b[0] {
      StrLeTotal(a[1..], b[1..]);
    }
  }

  lemma {:induction false} StrLeAntisymmetric(a: string, b: string)
    requires StrLe(a, b) && StrLe(b, a)
    ensures a == b
  {
    if a != [] && b != [] {
      StrLeAntisymmetric(a[1..], b[1..]);
      assert a == [a[0]] + a[1..] && b == [b[0]] + b[1..];
    }
  }

  lemma {:induction false} StrLeTransitive(a: string, b: string, c: string)
    requires StrLe(a, b) && StrLe(b, c)
    ensures StrLe(a, c)
  {
    if a != [] && b != [] && c != [] && a[0] == b[0] && b[0] == c[0] {
      StrLeTransitive(a[1..], b[1..], c[1..]);
    }
  }

  /** The error text/template reports when `last` indexes keys[-1] of an empty map. */
  const IndexOutOfRange := "runtime error: index out of range [-1]"

  /**
    last: collects the keys of the map, then compares `key` with the final
    key in sorted order, the greatest one. A nil map gives false; an empty
    one makes the index -1 panic, which the template engine turns into an
    execution error.
   */
  method Last(obj: Option<map<string, Value>>, key: string) returns (r: Result<bool, string>)
    ensures obj.None? ==> r == Success(false)
    ensures obj.Some? && obj.value == map[] ==> r == Failure(IndexOutOfRange)
    ensures obj.Some? && obj.value != map[] ==>
      r == Success(key in obj.value && forall k :: k in obj.value ==> StrLe(k, key))
  {
    if obj.None? {
      return Success(false);
    }
    var m := obj.value;
    var keys: seq<string> := [];
    var remaining := m.Keys;
    while remaining != {}
      invariant remaining <= m.Keys
      invariant forall k :: k in m ==> k in remaining || k in keys
      invariant forall j :: 0 <= j < |keys| ==> keys[j] in m
      decreases remaining
    {
      var k :| k in remaining;
      keys := keys + [k];
      remaining := remaining - {k};
    }
    if |keys| == 0 {
      assert m.Keys == {};
      assert m == map[];
      return Failure(IndexOutOfRange);
    }
    // keys[len(keys)-1] after sort.Strings is the greatest key
    var greatest := keys[0];
    StrLeReflexive(greatest);
    for i := 1 to |keys|
      invariant greatest in m
      invariant forall j :: 0 <= j < i ==> StrLe(keys[j], greatest)
    {
      StrLeTotal(greatest, keys[i]);
      if !StrLe(keys[i], greatest) {
        forall j | 0 <= j < i
          ensures StrLe(keys[j], keys[i])
        {
          StrLeTransitive(keys[j], greatest, keys[i]);
        }
        StrLeReflexive(keys[i]);
        greatest := keys[i];
      }
    }
    r := Success(greatest == key);
    if key in m && forall k :: k in m ==> StrLe(k, key) {
      StrLeAntisymmetric(greatest, key);
    }
    assert m != map[] by {
      assert keys[0] in m;
    }
  }

  // =====================================================================
  // toYAML: a decoded value re-serialised flush-left
  // =====================================================================

  /**
    The smallest indentation (count of leading ' ') over the lines that are
    not white space only, or -1 when there is no such line.
   */
  function MinIndent(lines: seq<string>): (m: int)
    ensures m >= -1
    ensures m == -1 <==> forall i :: 0 <= i < |lines| ==> IsBlank(lines[i])
    ensures m >= 0 ==> exists i :: 0 <= i < |lines| && !IsBlank(lines[i]) && LeadingSpaces(lines[i]) == m
    ensures forall i :: 0 <= i < |lines| && !IsBlank(lines[i]) ==> m <= LeadingSpaces(lines[i])
  {
    if lines == [] then -1
    else
      var front := lines[..|lines| - 1];
      var m := MinIndent(front);
      var line := lines[|lines| - 1];
      assert forall i :: 0 <= i < |front| ==> front[i] == lines[i];
      if IsBlank(line) then m
      else
        var d := LeadingSpaces(line);
        if m == -1 || d < m then d else m
  }

  /** Every line at least `m` long loses its first `m` runes, when `m` is positive. */
  function Dedent(lines: seq<string>, m: int): (out: seq<string>)
    ensures |out| == |lines|
  {
    seq(|lines|, i requires 0 <= i < |lines| => if m > 0 && |lines[i]| >= m then lines[i][m..] else lines[i])
  }

  /** The indentation step of toYAML. */
  function NormalizeIndent(lines: seq<string>): seq<string>
  {
    Dedent(lines, MinIndent(lines))
  }

  /** The document marker and then one list marker removed from the front. */
  function StripMarkers(text: string): string
  {
    TrimPrefix(TrimPrefix(text, "---\n"), "- ")
  }

  /** The text `toYAML` produces for a value. */
  function ToYAMLText(obj: Value, codec: Codec): string
  {
    if obj.Null? then ""
    else
      match codec.encodeYamlValue(obj)
      case Failure(e) => "Error: " + e
      case Success(text) => TrimSpace(Join(NormalizeIndent(Split(StripMarkers(text), '\n')), "\n"))
  }

  /**
    toYAML: marshals the value, strips the markers, finds the minimum
    indentation in one pass over the lines and removes it in a second.
   */
  method ToYAML(obj: Value, codec: Codec) returns (r: string)
    ensures r == ToYAMLText(obj, codec)
    ensures obj.Null? ==> r == ""
    ensures !obj.Null? && codec.encodeYamlValue(obj).Failure? ==> r == "Error: " + codec.encodeYamlValue(obj).error
    ensures !obj.Null? && codec.encodeYamlValue(obj).Success? ==>
      r == "" || (!IsSpace(r[0]) && !IsSpace(r[|r| - 1]))
  {
    if obj.Null? {
      return "";
    }
    var encoded := codec.encodeYamlValue(obj);
    if encoded.Failure? {
      return "Error: " + encoded.error;
    }
    var yamlStr := TrimPrefix(encoded.value, "---\n");
    yamlStr := TrimPrefix(yamlStr, "- ");
    var lines := Split(yamlStr, '\n');
    var minIndent := FindMinIndent(lines);
    lines := DedentLines(lines, minIndent);
    r := TrimSpace(Join(lines, "\n"));
  }

  /** The second loop of toYAML: each line long enough loses the minimum indentation. */
  method DedentLines(lines: seq<string>, minIndent: int) returns (out: seq<string>)
    ensures out == Dedent(lines, minIndent)
  {
    out := lines;
    if minIndent > 0 {
      for i := 0 to |out|
        invariant |out| == |lines|
        invariant forall j :: 0 <= j < i ==> out[j] == Dedent(lines, minIndent)[j]
        invariant forall j :: i <= j < |out| ==> out[j] == lines[j]
      {
        if |out[i]| >= minIndent {
          out := out[i := out[i][minIndent..]];
        }
      }
    }
  }

  /** The first loop of toYAML: the minimum indentation over the non-blank lines. */
  method FindMinIndent(lines: seq<string>) returns (minIndent: int)
    ensures minIndent == MinIndent(lines)
    ensures minIndent == -1 <==> forall i :: 0 <= i < |lines| ==> IsBlank(lines[i])
    ensures forall i :: 0 <= i < |lines| && !IsBlank(lines[i]) ==> minIndent <= LeadingSpaces(lines[i])
  {
    minIndent := -1;
    for i := 0 to |lines|
      invariant minIndent == MinIndent(lines[..i])
    {
      assert lines[..i + 1][..i] == lines[..i];
      var line := lines[i];
      if TrimSpace(line) != "" {
        var indent := LeadingSpaces(line);
        if minIndent == -1 || indent < minIndent {
          minIndent := indent;
        }
      }
    }
    assert lines[..|lines|] == lines;
  }

  /** A white-space-only line stays so whatever is cut from its front. */
  lemma BlankSuffix(line: string, k: nat)
    requires IsBlank(line) && k <= |line|
    ensures IsBlank(line[k..])
  {
    forall i | 0 <= i < |line[k..]|
      ensures IsSpace(line[k..][i])
    {
      assert line[k..][i] == line[k + i];
    }
  }

  /** Cutting at most the leading spaces keeps the rest of the line's shape. */
  lemma CutLeadingSpaces(line: string, k: nat)
    requires k <= LeadingSpaces(line)
    ensures line == Spaces(k) + line[k..]
    ensures LeadingSpaces(line[k..]) == LeadingSpaces(line) - k
    ensures IsBlank(line[k..]) <==> IsBlank(line)
  {
    assert line[..k] == Spaces(k);
    assert line == line[..k] + line[k..];
    if k > 0 {
      assert line[k..] == line[1..][k - 1..];
      CutLeadingSpaces(line[1..], k - 1);
    }
    if IsBlank(line[k..]) {
      forall i | 0 <= i < |line|
        ensures IsSpace(line[i])
      {
        if i >= k {
          assert line[i] == line[k..][i - k];
        }
      }
    }
    if IsBlank(line) {
      BlankSuffix(line, k);
    }
  }

  /** Each line keeps or loses its white-space-only status unchanged through the step. */
  lemma NormalizeIndentKeepsBlankness(lines: seq<string>)
    ensures forall i :: 0 <= i < |lines| ==> (IsBlank(NormalizeIndent(lines)[i]) <==> IsBlank(lines[i]))
  {
    var m := MinIndent(lines);
    forall i | 0 <= i < |lines|
      ensures IsBlank(NormalizeIndent(lines)[i]) <==> IsBlank(lines[i])
    {
      if m > 0 && |lines[i]| >= m {
        if IsBlank(lines[i]) {
          BlankSuffix(lines[i], m);
        } else {
          CutLeadingSpaces(lines[i], m);
        }
      }
    }
  }

  /**
    When the minimum indentation m is positive, every line that is not white
    space only loses exactly its first m runes, all of them spaces.
   */
  lemma NormalizeIndentStripsMinimum(lines: seq<string>)
    ensures var m := MinIndent(lines);
      m > 0 ==> forall i :: 0 <= i < |lines| && !IsBlank(lines[i]) ==>
        lines[i] == Spaces(m) + NormalizeIndent(lines)[i]
  {
    var m := MinIndent(lines);
    if m > 0 {
      forall i | 0 <= i < |lines| && !IsBlank(lines[i])
        ensures lines[i] == Spaces(m) + NormalizeIndent(lines)[i]
      {
        CutLeadingSpaces(lines[i], m);
      }
    }
  }

  /**
    After the step the text is flush left: when some line is not white space
    only, some such line starts with a rune other than ' ', so the minimum
    indentation is zero.
   */
  lemma NormalizeIndentFlushLeft(lines: seq<string>)
    ensures MinIndent(NormalizeIndent(lines)) == if MinIndent(lines) == -1 then -1 else 0
  {
    var m := MinIndent(lines);
    var out := NormalizeIndent(lines);
    if m <= 0 {
      assert out == lines;
    } else {
      var k :| 0 <= k < |lines| && !IsBlank(lines[k]) && LeadingSpaces(lines[k]) == m;
      CutLeadingSpaces(lines[k], m);
      assert out[k] == lines[k][m..];
      assert !IsBlank(out[k]) && LeadingSpaces(out[k]) == 0;
      assert MinIndent(out) != -1;
    }
  }

  /** Normalising the indentation twice is normalising it once. */
  lemma NormalizeIndentIdempotent(lines: seq<string>)
    ensures NormalizeIndent(NormalizeIndent(lines)) == NormalizeIndent(lines)
  {
    var out := NormalizeIndent(lines);
    NormalizeIndentFlushLeft(lines);
    assert Dedent(out, MinIndent(out)) == out;
  }

  // =====================================================================
  // fromYAML: decoding that never fails the render
  // =====================================================================

  /**
    fromYAML: white space only gives nil; a decoding error gives a map with
    the single key "error" holding the message.
   */
  function FromYAML(yamlStr: string, codec: Codec): (r: Value)
    ensures IsBlank(yamlStr) ==> r == Null
    ensures !IsBlank(yamlStr) && codec.decodeYamlValue(yamlStr).Failure? ==>
      r.Object? && r.fields.Keys == {"error"}
      && r.fields["error"] == Str("Error parsing YAML: " + codec.decodeYamlValue(yamlStr).error)
    ensures !IsBlank(yamlStr) && codec.decodeYamlValue(yamlStr).Success? ==>
      r == codec.decodeYamlValue(yamlStr).value
  {
    if TrimSpace(yamlStr) == "" then Null
    else
      match codec.decodeYamlValue(yamlStr)
      case Failure(e) => Object(map["error" := Str("Error parsing YAML: " + e)])
      case Success(v) => v
  }

  // =====================================================================
  // renderTemplate: parse, execute, then advisory validation
  // =====================================================================

  /** What renderTemplate returns: the parse error, the execution error, or the output. */
  function Render(content: string, data: Namespace, engine: TemplateEngine): Result<string, string>
  {
    match engine.parse(content)
    case Fail(e) => Failure(e)
    case Pass => engine.execute(content, data)
  }

  /** The 1-based numbers of the lines that do not decode on their own, in order. */
  function SuspectLines(lines: seq<string>, codec: Codec): seq<nat>
  {
    if lines == [] then []
    else
      SuspectLines(lines[..|lines| - 1], codec)
      + (if codec.decodeYamlValue(lines[|lines| - 1]).Failure? then [|lines|] else [])
  }

  /** Exactly the lines that fail to decode are listed, each once, in increasing order. */
  lemma {:induction false} SuspectLinesExact(lines: seq<string>, codec: Codec)
    ensures forall k :: k in SuspectLines(lines, codec) <==>
      1 <= k <= |lines| && codec.decodeYamlValue(lines[k - 1]).Failure?
    ensures forall i, j :: 0 <= i < j < |SuspectLines(lines, codec)| ==>
      SuspectLines(lines, codec)[i] < SuspectLines(lines, codec)[j]
  {
    if lines != [] {
      var front := lines[..|lines| - 1];
      SuspectLinesExact(front, codec);
      var s := SuspectLines(front, codec);
      var tail: seq<nat> := if codec.decodeYamlValue(lines[|lines| - 1]).Failure? then [|lines|] else [];
      assert SuspectLines(lines, codec) == s + tail;
      assert forall i :: 0 <= i < |s| ==> s[i] in s && s[i] <= |front|;
      assert forall k :: k in s ==> lines[k - 1] == front[k - 1];
    }
  }

  /**
    renderTemplate: the text the engine produced, or its error. When the
    output does not decode as YAML, each line is tried on its own and the
    failing ones are reported as diagnostics; the returned text is never
    touched by this.
   */
  method RenderTemplate(content: string, data: Namespace, engine: TemplateEngine, codec: Codec)
    returns (r: Result<string, string>, suspects: seq<nat>)
    ensures r == Render(content, data, engine)
    ensures r.Failure? <==> engine.parse(content).Fail? || engine.execute(content, data).Failure?
    ensures r.Success? ==> r.value == engine.execute(content, data).value
    ensures suspects ==
      if r.Success? && codec.decodeYamlValue(r.value).Failure?
      then SuspectLines(Split(r.value, '\n'), codec)
      else []
  {
    suspects := [];
    var parsed := engine.parse(content);
    if parsed.Fail? {
      return Failure(parsed.error), suspects;
    }
    var executed := engine.execute(content, data);
    if executed.Failure? {
      return Failure(executed.error), suspects;
    }
    var result := executed.value;
    if codec.decodeYamlValue(result).Failure? {
      var lines := Split(result, '\n');
      for i := 0 to |lines|
        invariant suspects == SuspectLines(lines[..i], codec)
      {
        assert lines[..i + 1][..i] == lines[..i];
        if codec.decodeYamlValue(lines[i]).Failure? {
          suspects := suspects + [i + 1];
        }
      }
      assert lines[..|lines|] == lines;
    }
    r := Success(result);
  }
}
