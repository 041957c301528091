/**
 * The line-oriented assembler of src/core/IR/parser.rs.
 *
 * The file is split at `\n`; the main loop looks at one line at a time. A
 * `.section` line names a section (`.data:`, `.extern`, `.program:`), a line
 * holding `@` and no jump mnemonic is a label header, and every other line is
 * ignored. After a `.data:` or `.extern` header or a label header a block
 * parser reads the lines that follow and tells the main loop how many of them
 * to skip.
 *
 * `Examine` and `ParseFrom` are the reference meaning: the line examined after
 * line `i` is line `i + 1 + skip`. The methods are the loops of the source,
 * each proved equal to its reference.
 */
module IRParser {
  import opened RustStd
  import opened Blocks
  import opened Lang

  // ---------------------------------------------------------------------
  // Line classes

  // The fixed words the parser looks for.
  const SectionWord: string := ".section"
  const LabelSign: string := "@"
  const DataName: string := ".data:"
  const ExternName: string := ".extern"
  const ProgramName: string := ".program:"
  const JmpWord: string := "JMP"
  const JeqWord: string := "JEQ"
  const JltWord: string := "JLT"
  const JgtWord: string := "JGT"

  /** The instruction types whose mnemonic disqualifies a line from being a label header. */
  predicate IsJumpType(t: InstructionType) {
    t == JMP || t == JEQ || t == JLT || t == JGT
  }

  /** `has_jump`: the line mentions a jump mnemonic, written in upper case. */
  predicate HasJump(line: string) {
    Contains(line, JmpWord) || Contains(line, JeqWord) || Contains(line, JltWord) || Contains(line, JgtWord)
  }

  /** `has_jump` looks for exactly the upper-case mnemonics of the four jump instructions. */
  lemma HasJumpMnemonics(line: string)
    ensures HasJump(line) <==> exists t :: IsJumpType(t) && Contains(line, ToUpper(Mnemonic(t)))
  {
    assert ToUpper(Mnemonic(JMP)) == JmpWord;
    assert ToUpper(Mnemonic(JEQ)) == JeqWord;
    assert ToUpper(Mnemonic(JLT)) == JltWord;
    assert ToUpper(Mnemonic(JGT)) == JgtWord;
  }

  /** A line that opens a section. */
  predicate IsSectionLine(line: string) {
    Contains(line, SectionWord)
  }

  /** A line that opens a label: it mentions `@` and no jump. */
  predicate IsLabelHeader(line: string) {
    Contains(line, LabelSign) && !HasJump(line)
  }

  /** A line that ends the instructions of a label. */
  predicate EndsLabel(line: string) {
    IsLabelHeader(line) || IsSectionLine(line)
  }

  // ---------------------------------------------------------------------
  // Items of the blocks

  /** One line of an `.extern` block names a function, surrounding whitespace removed. */
  function ExternItem(line: string): Outcome<string> {
    Done(Trim(line))
  }

  /** One line of a label is an instruction; a malformed one panics at `unwrap`. */
  function LabelItem(line: string): Outcome<Instruction> {
    match InstructionFromStr(line)
    case Err(e) => Panicked(UnwrapErr(e))
    case Ok(instruction) => Done(instruction)
  }

  /** The words of a `.data:` line: type, name and the rest as the raw value. */
  function VariableWords(line: string): (r: seq<string>)
    ensures 1 <= |r| <= 3 && Join(r, ' ') == Trim(line)
  {
    SplitNJoin(Trim(line), 3, ' ');
    SplitN(Trim(line), 3, ' ')
  }

  /**
   * One line of a `.data:` block is a variable. The type is read first; a
   * missing name or value is an out-of-bounds index.
   */
  function VariableItem(line: string): (r: Outcome<Variable>)
    ensures r.Done? <==> DataTypeFromStr(VariableWords(line)[0]).Ok? && |VariableWords(line)| == 3
  {
    var words := VariableWords(line);
    match DataTypeFromStr(words[0])
    case Err(e) => Panicked(UnwrapErr(e))
    case Ok(ty) =>
      if |words| < 2 then Panicked(IndexOutOfBounds(1, |words|))
      else if |words| < 3 then Panicked(IndexOutOfBounds(2, |words|))
      else Done(Variable(words[1], ty, words[2]))
  }

  /**
   * A variable read from a line is the trimmed line's type word, name and
   * value, separated by single spaces; neither type word nor name holds a space.
   */
  lemma VariableLineShape(line: string)
    requires VariableItem(line).Done?
    ensures var v, w := VariableItem(line).value, VariableWords(line)[0];
            Trim(line) == w + " " + v.name + " " + v.value &&
            ToLower(w) == DataTypeName(v.ty) && ' ' !in w && ' ' !in v.name
  {
    var words, v := VariableWords(line), VariableItem(line).value;
    assert words[1] == v.name && words[2] == v.value;
    JoinThree(words);
  }

  /** Three words joined by spaces. */
  lemma JoinThree(words: seq<string>)
    requires |words| == 3
    ensures Join(words, ' ') == words[0] + " " + words[1] + " " + words[2]
  {
    assert Join(words, ' ') == words[0] + " " + Join(words[1..], ' ');
    assert Join(words[1..], ' ') == words[1] + " " + words[2];
  }

  /** Splitting `a b c` into at most three words, where `a` and `b` hold no space. */
  lemma ThreeWords(a: string, b: string, c: string)
    requires ' ' !in a && ' ' !in b
    ensures SplitN(a + " " + b + " " + c, 3, ' ') == [a, b, c]
  {
    var line := a + " " + b + " " + c;
    var rest := b + " " + c;
    assert line == a + [' '] + rest;
    assert line[..|a|] == a && line[|a| + 1..] == rest;
    SplitOnceAt(line, ' ', |a|);
    assert rest[..|b|] == b && rest[|b| + 1..] == c;
    SplitOnceAt(rest, ' ', |b|);
    assert SplitN(rest, 2, ' ') == [b] + SplitN(c, 1, ' ');
  }

  /**
   * A `.data:` line written as type, one space, a name without spaces, one
   * space and a value is read back as that variable.
   */
  lemma VariableRoundTrip(ty: DataType, name: string, value: string)
    requires ' ' !in name
    requires value != [] && !IsWhitespace(value[|value| - 1])
    ensures VariableItem(DataTypeName(ty) + " " + name + " " + value) == Done(Variable(name, ty, value))
  {
    var word := DataTypeName(ty);
    DataTypeNameShape(ty);
    var line := word + " " + name + " " + value;
    assert line[0] == word[0];
    assert line[|line| - 1] == value[|value| - 1];
    TrimmedAlready(line);
    ThreeWords(word, name, value);
    assert VariableWords(line) == [word, name, value];
    DataTypeNameRoundTrip(ty);
  }

  // ---------------------------------------------------------------------
  // Block parsers

  /** `parse_extern`: trimmed function names up to the next `.section` line. */
  method ParseExtern(lines: seq<string>) returns (r: Outcome<(seq<string>, nat)>)
    ensures r == Scan(lines, IsSectionLine, ExternItem, LenMinusOne)
  {
    var functions: seq<string> := [];
    for i := 0 to |lines|
      invariant FirstEnd(lines[..i], IsSectionLine) == None
      invariant Collect(lines[..i], ExternItem) == Done(functions)
    {
      var line := lines[i];
      if line == [] {
        StepOver(lines, IsSectionLine, ExternItem, i);
        continue;
      }
      if Contains(line, SectionWord) {
        ScanStopsAt(lines, IsSectionLine, ExternItem, LenMinusOne, i, functions);
        return Done((functions, i));
      }
      StepOver(lines, IsSectionLine, ExternItem, i);
      functions := functions + [Trim(line)];
    }
    ScanExhausted(lines, IsSectionLine, ExternItem, LenMinusOne, functions);
    if |lines| == 0 {
      return Panicked(SubtractWithOverflow);
    }
    return Done((functions, |lines| - 1));
  }

  /** `parse_label`: instructions up to the next label header or `.section` line. */
  method ParseLabel(lines: seq<string>) returns (r: Outcome<(seq<Instruction>, nat)>)
    ensures r == Scan(lines, EndsLabel, LabelItem, LenMinusOne)
  {
    var instructions: seq<Instruction> := [];
    for i := 0 to |lines|
      invariant FirstEnd(lines[..i], EndsLabel) == None
      invariant Collect(lines[..i], LabelItem) == Done(instructions)
    {
      var line := lines[i];
      if line == [] {
        StepOver(lines, EndsLabel, LabelItem, i);
        continue;
      }
      if Contains(line, LabelSign) && !HasJump(line) {
        ScanStopsAt(lines, EndsLabel, LabelItem, LenMinusOne, i, instructions);
        return Done((instructions, i));
      }
      if Contains(line, SectionWord) {
        ScanStopsAt(lines, EndsLabel, LabelItem, LenMinusOne, i, instructions);
        return Done((instructions, i));
      }
      StepOver(lines, EndsLabel, LabelItem, i);
      var parsed := InstructionFromStr(line);
      if parsed.Err? {
        ScanPanicsAt(lines, EndsLabel, LabelItem, LenMinusOne, i);
        return Panicked(UnwrapErr(parsed.error));
      }
      instructions := instructions + [parsed.value];
    }
    ScanExhausted(lines, EndsLabel, LabelItem, LenMinusOne, instructions);
    if |lines| == 0 {
      return Panicked(SubtractWithOverflow);
    }
    return Done((instructions, |lines| - 1));
  }

  /** `parse_variables`: variables up to the next `.section` line; runs to `len` otherwise. */
  method ParseVariables(lines: seq<string>) returns (r: Outcome<(seq<Variable>, nat)>)
    ensures r == Scan(lines, IsSectionLine, VariableItem, Len)
  {
    var variables: seq<Variable> := [];
    for i := 0 to |lines|
      invariant FirstEnd(lines[..i], IsSectionLine) == None
      invariant Collect(lines[..i], VariableItem) == Done(variables)
    {
      var line := lines[i];
      if line == [] {
        StepOver(lines, IsSectionLine, VariableItem, i);
        continue;
      }
      var words := SplitN(Trim(line), 3, ' ');
      if Contains(line, SectionWord) {
        ScanStopsAt(lines, IsSectionLine, VariableItem, Len, i, variables);
        return Done((variables, i));
      }
      StepOver(lines, IsSectionLine, VariableItem, i);
      var ty := DataTypeFromStr(words[0]);
      if ty.Err? {
        ScanPanicsAt(lines, IsSectionLine, VariableItem, Len, i);
        return Panicked(UnwrapErr(ty.error));
      }
      if |words| < 2 {
        ScanPanicsAt(lines, IsSectionLine, VariableItem, Len, i);
        return Panicked(IndexOutOfBounds(1, |words|));
      }
      if |words| < 3 {
        ScanPanicsAt(lines, IsSectionLine, VariableItem, Len, i);
        return Panicked(IndexOutOfBounds(2, |words|));
      }
      variables := variables + [Variable(words[1], ty.value, words[2])];
    }
    ScanExhausted(lines, IsSectionLine, VariableItem, Len, variables);
    return Done((variables, |lines|));
  }

  // ---------------------------------------------------------------------
  // The main loop

  /** The labels of a program, `None` read as none. */
  function LabelsOf(p: Program): seq<Label> {
    if p.labels.None? then [] else p.labels.value
  }

  /** The panic message for a section name that is not one of the three. */
  function InvalidSection(name: string): string {
    "Invalid Section Name: \"" + name + "\"!. Perhaps you were trying to create a @label?"
  }

  /** A section line names one of the three sections the parser knows. */
  predicate KnownSection(name: string) {
    name == DataName || name == ExternName || name == ProgramName
  }

  /**
   * A section named `name` opened before the lines `rest`: the program with
   * the section read, and how many of `rest` the main loop skips.
   */
  function OpenSection(name: string, rest: seq<string>, p: Program): (r: Outcome<(Program, nat)>)
    ensures r.Done? ==> r.value.1 <= |rest|
  {
    if name == DataName then
      match Scan(rest, IsSectionLine, VariableItem, Len)
      case Panicked(e) => Panicked(e)
      case Done((variables, skip)) => Done((p.(data := variables), skip))
    else if name == ExternName then
      match Scan(rest, IsSectionLine, ExternItem, LenMinusOne)
      case Panicked(e) => Panicked(e)
      case Done((functions, skip)) => Done((p.(externFunctions := Some(functions)), skip))
    else if name == ProgramName then Done((p, 0))
    else Panicked(Explicit(InvalidSection(name)))
  }

  /** A label named `name` opened before the lines `rest`: it is appended to the labels. */
  function OpenLabel(name: string, rest: seq<string>, p: Program): (r: Outcome<(Program, nat)>)
    ensures r.Done? ==> r.value.1 <= |rest|
  {
    match Scan(rest, EndsLabel, LabelItem, LenMinusOne)
    case Panicked(e) => Panicked(e)
    case Done((instructions, skip)) =>
      Done((p.(labels := Some(LabelsOf(p) + [Label(name, Some(instructions))])), skip))
  }

  /**
   * What the main loop does with the line at index `i` when it is not skipped:
   * the new program and the number of following lines to skip.
   */
  function Examine(f: seq<string>, i: nat, p: Program): (r: Outcome<(Program, nat)>)
    requires i < |f|
    ensures r.Done? ==> i + 1 + r.value.1 <= |f|
  {
    var line := f[i];
    if IsSectionLine(line) then
      match SplitOnce(line, ' ')
      case None => Panicked(UnwrapNone)
      case Some((_, name)) => OpenSection(name, f[i + 1..], p)
    else if IsLabelHeader(line) then OpenLabel(Trim(line), f[i + 1..], p)
    else Done((p, 0))
  }

  /** The program built from line `i` on, starting from `p`. */
  function ParseFrom(f: seq<string>, i: nat, p: Program): Outcome<Program>
    requires i <= |f|
    decreases |f| - i, 3
  {
    if i == |f| then Done(p) else ParseAt(f, i, p)
  }

  /**
   * The program built from line `i` on, when there is a line `i`. Kept apart
   * from `ParseLine` so that mentioning the parse of a later line does not
   * unfold the examination of that line.
   */
  function ParseAt(f: seq<string>, i: nat, p: Program): Outcome<Program>
    requires i < |f|
    decreases |f| - i, 2
  {
    ParseLine(f, i, p)
  }

  /** Line `i` is examined, and the parse goes on. */
  function ParseLine(f: seq<string>, i: nat, p: Program): Outcome<Program>
    requires i < |f|
    decreases |f| - i, 1
  {
    Continue(f, i, Examine(f, i, p))
  }

  /**
   * How the parse goes on once line `i` was examined with result `e`: a panic
   * ends it, otherwise the next examined line is the one after the skipped ones.
   */
  function Continue(f: seq<string>, i: nat, e: Outcome<(Program, nat)>): Outcome<Program>
    requires i < |f| && (e.Done? ==> i + 1 + e.value.1 <= |f|)
    decreases |f| - i, 0
  {
    match e
    case Panicked(x) => Panicked(x)
    case Done((q, skip)) => ParseFrom(f, i + 1 + skip, q)
  }

  /** The main loop moves from an examined line to the line after the skipped ones. */
  lemma ParseFromStep(f: seq<string>, i: nat, p: Program)
    requires i < |f|
    ensures ParseFrom(f, i, p) == Continue(f, i, Examine(f, i, p))
  {
    assert ParseFrom(f, i, p) == ParseAt(f, i, p) == ParseLine(f, i, p);
  }

  /** After examining line `i`, the parse ends in the line's panic or resumes after the skipped lines. */
  lemma ParseResumes(f: seq<string>, i: nat, p: Program, e: Outcome<(Program, nat)>)
    requires i < |f| && e == Examine(f, i, p)
    ensures e.Panicked? ==> ParseFrom(f, i, p) == Panicked(e.panic)
    ensures e.Done? ==> i + 1 + e.value.1 <= |f| && ParseFrom(f, i + 1 + e.value.1, e.value.0) == ParseFrom(f, i, p)
  {
    ParseFromStep(f, i, p);
    if e.Done? {
      ContinueDone(f, i, e);
    }
  }

  /** Going on after a line that did not panic is parsing from the line after the skipped ones. */
  lemma ContinueDone(f: seq<string>, i: nat, e: Outcome<(Program, nat)>)
    requires i < |f| && e.Done? && i + 1 + e.value.1 <= |f|
    ensures Continue(f, i, e) == ParseFrom(f, i + 1 + e.value.1, e.value.0)
  {
  }

  /** `parse_input`: the program a source text describes. */
  function Parse(file: string): Outcome<Program> {
    ParseFrom(Split(file, '\n'), 0, NewProgram())
  }

  /** The `match` on the section name in `parse_input`, with the block parser it calls. */
  method SectionLine(name: string, rest: seq<string>, program: Program) returns (r: Outcome<(Program, nat)>)
    ensures r == OpenSection(name, rest, program)
  {
    if name == DataName {
      var parsed := ParseVariables(rest);
      if parsed.Panicked? {
        return Panicked(parsed.panic);
      }
      return Done((program.(data := parsed.value.0), parsed.value.1));
    } else if name == ExternName {
      var parsed := ParseExtern(rest);
      if parsed.Panicked? {
        return Panicked(parsed.panic);
      }
      return Done((program.(externFunctions := Some(parsed.value.0)), parsed.value.1));
    } else if name == ProgramName {
      return Done((program, 0));
    } else {
      return Panicked(Explicit(InvalidSection(name)));
    }
  }

  /** A label header in `parse_input`: the label's instructions are read and the label is appended. */
  method LabelLine(name: string, rest: seq<string>, program: Program) returns (r: Outcome<(Program, nat)>)
    ensures r == OpenLabel(name, rest, program)
  {
    var parsed := ParseLabel(rest);
    if parsed.Panicked? {
      return Panicked(parsed.panic);
    }
    var updated := program;
    if updated.labels.None? {
      updated := updated.(labels := Some([]));
    }
    updated := updated.(labels := Some(updated.labels.value + [Label(name, Some(parsed.value.0))]));
    return Done((updated, parsed.value.1));
  }

  /**
   * The body of `parse_input`'s loop for a line that is not skipped: the
   * section dispatch or the label header, and the number of lines to skip.
   */
  method ExamineLine(f: seq<string>, lineNum: nat, program: Program) returns (r: Outcome<(Program, nat)>)
    requires lineNum < |f|
    ensures r == Examine(f, lineNum, program)
  {
    var line := f[lineNum];
    if Contains(line, SectionWord) {
      var split := SplitOnce(line, ' ');
      if split.None? {
        return Panicked(UnwrapNone);
      }
      r := SectionLine(split.value.1, f[lineNum + 1..], program);
      return;
    }
    if Contains(line, LabelSign) && !HasJump(line) {
      r := LabelLine(Trim(line), f[lineNum + 1..], program);
      return;
    }
    return Done((program, 0));
  }

  /**
   * A line that is not skipped, seen from the loop: either the parse ends in
   * the line's panic, or it resumes after the lines the line's block took.
   */
  method ResumeAfter(f: seq<string>, lineNum: nat, program: Program) returns (r: Outcome<(Program, nat)>)
    requires lineNum < |f|
    ensures r.Panicked? ==> ParseFrom(f, lineNum, program) == Panicked(r.panic)
    ensures r.Done? ==> lineNum + 1 + r.value.1 <= |f|
    ensures r.Done? ==> ParseFrom(f, lineNum + 1 + r.value.1, r.value.0) == ParseFrom(f, lineNum, program)
  {
    r := ExamineLine(f, lineNum, program);
    ParseResumes(f, lineNum, program, r);
  }

  /**
   * `parse_input`: the loop over the lines with its `skip` counter. The lines
   * a block parser consumed are counted down and never examined.
   */
  method ParseInput(file: string) returns (r: Outcome<Program>)
    ensures r == Parse(file)
  {
    var program := NewProgram();
    var f := Split(file, '\n');
    ghost var target := ParseFrom(f, 0, program);
    var skip: nat := 0;
    for lineNum := 0 to |f|
      invariant lineNum + skip <= |f|
      invariant ParseFrom(f, lineNum + skip, program) == target
    {
      if skip > 0 {
        skip := skip - 1;
        continue;
      }
      var examined := ResumeAfter(f, lineNum, program);
      if examined.Panicked? {
        return Panicked(examined.panic);
      }
      program, skip := examined.value.0, examined.value.1;
    }
    return Done(program);
  }

  // ---------------------------------------------------------------------
  // Properties of the parse

  /** Line `j` is a label header whose trimmed text is `name`. */
  predicate HeaderAt(f: seq<string>, j: int, name: string) {
    0 <= j < |f| && !IsSectionLine(f[j]) && IsLabelHeader(f[j]) && Trim(f[j]) == name
  }

  /**
   * The labels `added` are named after header lines at or after line `i`,
   * found at the strictly increasing line numbers `js`.
   */
  predicate HeadersAt(f: seq<string>, i: int, added: seq<Label>, js: seq<int>) {
    |js| == |added| &&
    (forall k :: 0 <= k < |js| ==> i <= js[k] && HeaderAt(f, js[k], added[k].labelName)) &&
    (forall k1, k2 :: 0 <= k1 < k2 < |js| ==> js[k1] < js[k2])
  }

  /** The labels `added` are named after header lines at or after line `i`, in the order of those lines. */
  ghost predicate InSourceOrder(f: seq<string>, i: int, added: seq<Label>) {
    exists js :: HeadersAt(f, i, added, js)
  }

  /**
   * From `p` to `q` labels were only appended: the labels of `p` stay first,
   * in order, and the added labels are named after header lines at or after
   * line `i`, in the order of those lines. `labels` turns from `None` to
   * `Some` only by adding a label.
   */
  ghost predicate LabelsGrow(f: seq<string>, i: int, p: Program, q: Program) {
    LabelsOf(p) <= LabelsOf(q) &&
    (q.labels.Some? ==> p.labels.Some? || |LabelsOf(q)| > 0) &&
    InSourceOrder(f, i, LabelsOf(q)[|LabelsOf(p)|..])
  }

  /** Some line at or after `i` is a label header whose trimmed text is `name`. */
  ghost predicate HeaderFrom(f: seq<string>, i: int, name: string) {
    exists j :: i <= j && HeaderAt(f, j, name)
  }

  /** What one examined line `i` may do to the labels: nothing, or append the label it opens. */
  predicate LabelStep(f: seq<string>, i: int, p: Program, q: Program)
    requires 0 <= i < |f|
  {
    var n := |LabelsOf(p)|;
    q.labels == p.labels ||
    (HeaderAt(f, i, Trim(f[i])) && q.labels.Some? && |LabelsOf(q)| == n + 1 &&
     LabelsOf(q)[..n] == LabelsOf(p) && LabelsOf(q)[n].labelName == Trim(f[i]))
  }

  /** Examining one line adds at most one label, named after that line when it is a header. */
  lemma ExamineLabels(f: seq<string>, i: nat, p: Program, q: Program, skip: nat)
    requires i < |f| && Examine(f, i, p) == Done((q, skip))
    ensures LabelStep(f, i, p, q)
  {
    if q.labels != p.labels {
      var n := |LabelsOf(p)|;
      assert LabelsOf(q)[..n] == LabelsOf(p);
    }
  }

  /** One label step followed by growth from a later line is growth from this line. */
  lemma LabelsGrowStep(f: seq<string>, i: nat, later: nat, p: Program, q1: Program, q: Program)
    requires i < later && i < |f|
    requires LabelStep(f, i, p, q1) && LabelsGrow(f, later, q1, q)
    ensures LabelsGrow(f, i, p, q)
  {
    var added1 := LabelsOf(q)[|LabelsOf(q1)|..];
    var js1 :| HeadersAt(f, later, added1, js1);
    var added := LabelsOf(q)[|LabelsOf(p)|..];
    if q1.labels == p.labels {
      assert added == added1;
      HeadersFromEarlier(f, i, later, added1, js1);
    } else {
      var n := |LabelsOf(p)|;
      assert LabelsOf(q)[n] == LabelsOf(q1)[n];
      assert added == [LabelsOf(q1)[n]] + added1;
      HeaderBefore(f, i, later, LabelsOf(q1)[n], added1, js1);
    }
    assert LabelsOf(p) <= LabelsOf(q1) <= LabelsOf(q);
  }

  /** Header lines at or after a line are at or after every earlier line. */
  lemma HeadersFromEarlier(f: seq<string>, i: int, later: int, added: seq<Label>, js: seq<int>)
    requires i <= later && HeadersAt(f, later, added, js)
    ensures HeadersAt(f, i, added, js)
  {
  }

  /** A header at line `i`, before the headers of `added`, comes first among them. */
  lemma HeaderBefore(f: seq<string>, i: int, later: int, l: Label, added: seq<Label>, js: seq<int>)
    requires i < later && HeaderAt(f, i, l.labelName) && HeadersAt(f, later, added, js)
    ensures HeadersAt(f, i, [l] + added, [i] + js)
  {
    var at := (j: int, x: Label) => HeaderAt(f, j, x.labelName);
    assert forall k :: 0 <= k < |js| ==> at(js[k], added[k]);
    PrependAt(at, i, later, l, added, js);
    var all, js2 := [l] + added, [i] + js;
    assert forall k :: 0 <= k < |js2| ==> at(js2[k], all[k]);
  }

  /** Parsing only appends labels, each named after a header line examined on the way. */
  lemma {:induction false} LabelsFromHeaders(f: seq<string>, i: nat, p: Program)
    requires i <= |f| && ParseFrom(f, i, p).Done?
    ensures LabelsGrow(f, i, p, ParseFrom(f, i, p).value)
    decreases |f| - i, 1
  {
    if i < |f| {
      ParseFromStep(f, i, p);
      var e := Examine(f, i, p);
      ExamineLabels(f, i, p, e.value.0, e.value.1);
      LabelsAfterStep(f, i, p, e);
    } else {
      assert ParseFrom(f, i, p) == Done(p);
      assert HeadersAt(f, i, LabelsOf(p)[|LabelsOf(p)|..], []);
    }
  }

  /** The same, once line `i` has been examined with result `e`. */
  lemma {:induction false} LabelsAfterStep(f: seq<string>, i: nat, p: Program, e: Outcome<(Program, nat)>)
    requires i < |f| && e.Done? && i + 1 + e.value.1 <= |f| && Continue(f, i, e).Done?
    requires LabelStep(f, i, p, e.value.0)
    ensures LabelsGrow(f, i, p, Continue(f, i, e).value)
    decreases |f| - i, 0
  {
    var (q1, skip) := e.value;
    LabelsFromHeaders(f, i + 1 + skip, q1);
    LabelsGrowStep(f, i, i + 1 + skip, p, q1, Continue(f, i, e).value);
  }

  /**
   * Labels grown from none are named after header lines, in the order of
   * those lines, and stay `None` when there is no header.
   */
  lemma LabelsGrowFromNone(f: seq<string>, q: Program)
    requires LabelsGrow(f, 0, NewProgram(), q)
    ensures InSourceOrder(f, 0, LabelsOf(q))
    ensures forall k :: 0 <= k < |LabelsOf(q)| ==> HeaderFrom(f, 0, LabelsOf(q)[k].labelName)
    ensures (forall j :: 0 <= j < |f| ==> !IsLabelHeader(f[j])) ==> q.labels.None?
  {
    assert LabelsOf(NewProgram()) == [];
    assert LabelsOf(q)[0..] == LabelsOf(q);
    var js :| HeadersAt(f, 0, LabelsOf(q), js);
    forall k | 0 <= k < |LabelsOf(q)|
      ensures HeaderFrom(f, 0, LabelsOf(q)[k].labelName)
    {
      assert 0 <= js[k] && HeaderAt(f, js[k], LabelsOf(q)[k].labelName);
    }
    if q.labels.Some? {
      assert HeaderAt(f, js[0], LabelsOf(q)[0].labelName);
    }
  }

  /**
   * Every label of a parsed program is named after a header line of the
   * text, the labels appear in the order of their header lines, and a text
   * without headers has `labels == None`.
   */
  lemma ParsedLabels(file: string)
    requires Parse(file).Done?
    ensures InSourceOrder(Split(file, '\n'), 0, LabelsOf(Parse(file).value))
    ensures forall k :: 0 <= k < |LabelsOf(Parse(file).value)| ==>
              HeaderFrom(Split(file, '\n'), 0, LabelsOf(Parse(file).value)[k].labelName)
    ensures (forall j :: 0 <= j < |Split(file, '\n')| ==> !IsLabelHeader(Split(file, '\n')[j])) ==>
              Parse(file).value.labels.None?
  {
    var f := Split(file, '\n');
    LabelsFromHeaders(f, 0, NewProgram());
    LabelsGrowFromNone(f, ParseFrom(f, 0, NewProgram()).value);
  }

  /** The line `j` opens a section with a name other than the three known ones, and `m` is the panic message. */
  predicate BadSectionAt(f: seq<string>, j: int, m: string) {
    0 <= j < |f| && IsSectionLine(f[j]) && SplitOnce(f[j], ' ').Some? &&
    !KnownSection(SplitOnce(f[j], ' ').value.1) && m == InvalidSection(SplitOnce(f[j], ' ').value.1)
  }

  /** After a `.section` line with a name, the parse ends in the section's panic or resumes after its block. */
  lemma SectionResumes(f: seq<string>, i: nat, p: Program)
    requires i < |f| && IsSectionLine(f[i]) && SplitOnce(f[i], ' ').Some?
    ensures var e := OpenSection(SplitOnce(f[i], ' ').value.1, f[i + 1..], p);
            && (e.Panicked? ==> ParseFrom(f, i, p) == Panicked(e.panic))
            && (e.Done? ==> i + 1 + e.value.1 <= |f| && ParseFrom(f, i + 1 + e.value.1, e.value.0) == ParseFrom(f, i, p))
  {
    ExamineSection(f, i, p);
    ParseResumes(f, i, p, Examine(f, i, p));
  }

  /** A label header that opens no section opens a label, named after the trimmed line, over the lines after it. */
  lemma ExamineHeader(f: seq<string>, i: nat, p: Program)
    requires i < |f| && !IsSectionLine(f[i]) && IsLabelHeader(f[i])
    ensures Examine(f, i, p) == OpenLabel(Trim(f[i]), f[i + 1..], p)
  {
  }

  /** Opening a label gives its block's panic, or the program with the label appended and the block's length. */
  lemma OpenLabelIs(name: string, rest: seq<string>, p: Program)
    ensures var block := Scan(rest, EndsLabel, LabelItem, LenMinusOne);
            && (block.Panicked? ==> OpenLabel(name, rest, p) == Panicked(block.panic))
            && (block.Done? ==> OpenLabel(name, rest, p) == Done((p.(labels := Some(LabelsOf(p) + [Label(name, Some(block.value.0))])), block.value.1)))
  {
  }

  /** A line that examines to a panic ends the parse in that panic. */
  lemma ExaminePanics(f: seq<string>, i: nat, p: Program, e: Panic)
    requires i < |f| && Examine(f, i, p) == Panicked(e)
    ensures ParseFrom(f, i, p) == Panicked(e)
  {
    ParseResumes(f, i, p, Examine(f, i, p));
  }

  /** A line that examines to a new program and a count of lines taken resumes the parse after them. */
  lemma ExamineResumes(f: seq<string>, i: nat, p: Program, q: Program, skip: nat)
    requires i < |f| && Examine(f, i, p) == Done((q, skip))
    ensures i + 1 + skip <= |f| && ParseFrom(f, i, p) == ParseFrom(f, i + 1 + skip, q)
  {
    ParseResumes(f, i, p, Examine(f, i, p));
  }

  /**
   * After a label header the parse ends in the panic of the label's block, or
   * resumes after the lines the block took, with the label appended.
   */
  lemma LabelResumes(f: seq<string>, i: nat, p: Program)
    requires i < |f| && !IsSectionLine(f[i]) && IsLabelHeader(f[i])
    ensures var block := Scan(f[i + 1..], EndsLabel, LabelItem, LenMinusOne);
            && (block.Panicked? ==> ParseFrom(f, i, p) == Panicked(block.panic))
            && (block.Done? ==>
                  i + 1 + block.value.1 <= |f| &&
                  ParseFrom(f, i, p) ==
                  ParseFrom(f, i + 1 + block.value.1,
                            p.(labels := Some(LabelsOf(p) + [Label(Trim(f[i]), Some(block.value.0))]))))
  {
    var block := Scan(f[i + 1..], EndsLabel, LabelItem, LenMinusOne);
    ExamineHeader(f, i, p);
    OpenLabelIs(Trim(f[i]), f[i + 1..], p);
    if block.Done? {
      var q := p.(labels := Some(LabelsOf(p) + [Label(Trim(f[i]), Some(block.value.0))]));
      ExamineResumes(f, i, p, q, block.value.1);
    } else {
      ExaminePanics(f, i, p, block.panic);
    }
  }

  /**
   * A label whose block meets a header or a section line at line `j` ends
   * there: the lines in between are its instructions and line `j` is the next
   * one examined.
   */
  lemma LabelEndsAt(f: seq<string>, i: nat, j: nat, p: Program)
    requires i < j < |f| && !IsSectionLine(f[i]) && IsLabelHeader(f[i])
    requires EndsLabel(f[j]) && forall k :: i < k < j ==> !EndsLabel(f[k])
    requires Scan(f[i + 1..], EndsLabel, LabelItem, LenMinusOne).Done?
    ensures var instructions := Scan(f[i + 1..], EndsLabel, LabelItem, LenMinusOne).value.0;
            ParseFrom(f, i, p) ==
            ParseFrom(f, j, p.(labels := Some(LabelsOf(p) + [Label(Trim(f[i]), Some(instructions))])))
  {
    var block := Scan(f[i + 1..], EndsLabel, LabelItem, LenMinusOne);
    BlockEndsAt(f, i, j, EndsLabel, LabelItem, LenMinusOne);
    ExamineHeader(f, i, p);
    OpenLabelIs(Trim(f[i]), f[i + 1..], p);
    ExamineResumesAt(f, i, p, p.(labels := Some(LabelsOf(p) + [Label(Trim(f[i]), Some(block.value.0))])), block.value.1, j);
  }

  /** As `ExamineResumes`, with the line the parse resumes at named. */
  lemma ExamineResumesAt(f: seq<string>, i: nat, p: Program, q: Program, skip: nat, j: nat)
    requires i < |f| && Examine(f, i, p) == Done((q, skip)) && i + 1 + skip == j
    ensures ParseFrom(f, i, p) == ParseFrom(f, j, q)
  {
    ParseFromStep(f, i, p);
    ContinueAt(f, i, Examine(f, i, p), j);
  }

  /** As `ContinueDone`, with the line the parse goes on at named. */
  lemma ContinueAt(f: seq<string>, i: nat, e: Outcome<(Program, nat)>, j: nat)
    requires i < |f| && e.Done? && i + 1 + e.value.1 == j <= |f|
    ensures Continue(f, i, e) == ParseFrom(f, j, e.value.0)
  {
  }

  /** A block after line `i` that meets its first end line at `j` takes the lines in between. */
  lemma BlockEndsAt<T>(f: seq<string>, i: nat, j: nat, isEnd: string -> bool, item: string -> Outcome<T>,
                       whenExhausted: Exhausted)
    requires i < j < |f| && isEnd(f[j]) && forall k :: i < k < j ==> !isEnd(f[k])
    requires Scan(f[i + 1..], isEnd, item, whenExhausted).Done?
    ensures i + 1 + Scan(f[i + 1..], isEnd, item, whenExhausted).value.1 == j
  {
    var rest := f[i + 1..];
    forall m | 0 <= m < j - i - 1
      ensures !isEnd(rest[m])
    {
      assert rest[m] == f[i + 1 + m];
    }
    assert rest[j - i - 1] == f[j];
    ScanStopsAtFirst(rest, isEnd, item, whenExhausted, j - i - 1);
  }

  /**
   * After a `.data:` line the parse ends in the panic of its block, or resumes
   * after the lines the block took, with the variables read as the data.
   */
  lemma DataResumes(f: seq<string>, i: nat, p: Program)
    requires i < |f| && IsSectionLine(f[i]) && SplitOnce(f[i], ' ').Some?
    requires SplitOnce(f[i], ' ').value.1 == DataName
    ensures var block := Scan(f[i + 1..], IsSectionLine, VariableItem, Len);
            && (block.Panicked? ==> ParseFrom(f, i, p) == Panicked(block.panic))
            && (block.Done? ==>
                  i + 1 + block.value.1 <= |f| &&
                  ParseFrom(f, i, p) == ParseFrom(f, i + 1 + block.value.1, p.(data := block.value.0)))
  {
    SectionResumes(f, i, p);
  }

  /**
   * After an `.extern` line the parse ends in the panic of its block, or
   * resumes after the lines the block took, with the functions read recorded.
   */
  lemma ExternResumes(f: seq<string>, i: nat, p: Program)
    requires i < |f| && IsSectionLine(f[i]) && SplitOnce(f[i], ' ').Some?
    requires SplitOnce(f[i], ' ').value.1 == ExternName
    ensures var block := Scan(f[i + 1..], IsSectionLine, ExternItem, LenMinusOne);
            && (block.Panicked? ==> ParseFrom(f, i, p) == Panicked(block.panic))
            && (block.Done? ==>
                  i + 1 + block.value.1 <= |f| &&
                  ParseFrom(f, i, p) == ParseFrom(f, i + 1 + block.value.1, p.(externFunctions := Some(block.value.0))))
  {
    SectionResumes(f, i, p);
  }

  /**
   * A `.data:` block that meets a section line at line `j` ends there: the
   * lines in between are its variables and line `j` is the next one examined.
   */
  lemma DataEndsAt(f: seq<string>, i: nat, j: nat, p: Program)
    requires i < j < |f| && IsSectionLine(f[i]) && SplitOnce(f[i], ' ').Some?
    requires SplitOnce(f[i], ' ').value.1 == DataName
    requires IsSectionLine(f[j]) && forall k :: i < k < j ==> !IsSectionLine(f[k])
    requires Scan(f[i + 1..], IsSectionLine, VariableItem, Len).Done?
    ensures var variables := Scan(f[i + 1..], IsSectionLine, VariableItem, Len).value.0;
            ParseFrom(f, i, p) == ParseFrom(f, j, p.(data := variables))
  {
    var block := Scan(f[i + 1..], IsSectionLine, VariableItem, Len);
    BlockEndsAt(f, i, j, IsSectionLine, VariableItem, Len);
    ExamineSection(f, i, p);
    ExamineResumesAt(f, i, p, p.(data := block.value.0), block.value.1, j);
  }

  /**
   * An `.extern` block that meets a section line at line `j` never panics and
   * ends there: the lines in between are its functions and line `j` is the
   * next one examined.
   */
  lemma ExternEndsAt(f: seq<string>, i: nat, j: nat, p: Program)
    requires i < j < |f| && IsSectionLine(f[i]) && SplitOnce(f[i], ' ').Some?
    requires SplitOnce(f[i], ' ').value.1 == ExternName
    requires IsSectionLine(f[j]) && forall k :: i < k < j ==> !IsSectionLine(f[k])
    ensures Scan(f[i + 1..], IsSectionLine, ExternItem, LenMinusOne).Done?
    ensures var functions := Scan(f[i + 1..], IsSectionLine, ExternItem, LenMinusOne).value.0;
            ParseFrom(f, i, p) == ParseFrom(f, j, p.(externFunctions := Some(functions)))
  {
    var block := Scan(f[i + 1..], IsSectionLine, ExternItem, LenMinusOne);
    ExternScanDone(f[i + 1..]);
    BlockEndsAt(f, i, j, IsSectionLine, ExternItem, LenMinusOne);
    ExamineSection(f, i, p);
    ExamineResumesAt(f, i, p, p.(externFunctions := Some(block.value.0)), block.value.1, j);
  }

  /** An `.extern` block over at least one line never panics: reading a function name cannot fail. */
  lemma ExternScanDone(rest: seq<string>)
    requires rest != []
    ensures Scan(rest, IsSectionLine, ExternItem, LenMinusOne).Done?
  {
    if Scan(rest, IsSectionLine, ExternItem, LenMinusOne).Panicked? {
      ScanPanics(rest, IsSectionLine, ExternItem, LenMinusOne);
      assert false;
    }
  }

  /** A `.section` line with a name opens that section over the lines after it. */
  lemma ExamineSection(f: seq<string>, i: nat, p: Program)
    requires i < |f| && IsSectionLine(f[i]) && SplitOnce(f[i], ' ').Some?
    ensures Examine(f, i, p) == OpenSection(SplitOnce(f[i], ' ').value.1, f[i + 1..], p)
  {
  }

  /** How a `.section` line is dispatched. */
  lemma SectionDispatch(f: seq<string>, i: nat, p: Program)
    requires i < |f| && IsSectionLine(f[i])
    ensures SplitOnce(f[i], ' ').None? ==> ParseFrom(f, i, p) == Panicked(UnwrapNone)
    ensures SplitOnce(f[i], ' ').Some? && SplitOnce(f[i], ' ').value.1 == ProgramName ==>
              ParseFrom(f, i, p) == ParseFrom(f, i + 1, p)
    ensures SplitOnce(f[i], ' ').Some? && BadSectionAt(f, i, InvalidSection(SplitOnce(f[i], ' ').value.1)) ==>
              ParseFrom(f, i, p) == Panicked(Explicit(InvalidSection(SplitOnce(f[i], ' ').value.1)))
  {
    ParseFromStep(f, i, p);
  }

  /** A line that neither opens a section nor a label is ignored. */
  lemma IgnoredLine(f: seq<string>, i: nat, p: Program)
    requires i < |f| && !IsSectionLine(f[i]) && !IsLabelHeader(f[i])
    ensures ParseFrom(f, i, p) == ParseFrom(f, i + 1, p)
  {
    ParseFromStep(f, i, p);
  }

  /** No item of a block panics explicitly. */
  lemma ItemsNeverExplicit(line: string, m: string)
    ensures ExternItem(line) != Panicked(Explicit(m))
    ensures LabelItem(line) != Panicked(Explicit(m))
    ensures VariableItem(line) != Panicked(Explicit(m))
  {
    LabelItemNeverExplicit(line, m);
    VariableItemNeverExplicit(line, m);
  }

  /** An instruction line panics only in `unwrap`. */
  lemma LabelItemNeverExplicit(line: string, m: string)
    ensures LabelItem(line) != Panicked(Explicit(m))
  {
    var r := InstructionFromStr(line);
    assert r.Err? ==> LabelItem(line) == Panicked(UnwrapErr(r.error));
  }

  /** A variable line panics only in `unwrap` or in an index. */
  lemma VariableItemNeverExplicit(line: string, m: string)
    ensures VariableItem(line) != Panicked(Explicit(m))
  {
  }

  /** The only explicit panic of a section is the one for an unknown name. */
  lemma OpenSectionExplicit(name: string, rest: seq<string>, p: Program, m: string)
    requires OpenSection(name, rest, p) == Panicked(Explicit(m))
    ensures !KnownSection(name) && m == InvalidSection(name)
  {
    if name == DataName {
      ScanPanics(rest, IsSectionLine, VariableItem, Len);
      if j :| 0 <= j < |rest| && VariableItem(rest[j]) == Panicked(Explicit(m)) {
        ItemsNeverExplicit(rest[j], m);
      }
    } else if name == ExternName {
      ScanPanics(rest, IsSectionLine, ExternItem, LenMinusOne);
    }
  }

  /** A label never panics explicitly. */
  lemma OpenLabelNeverExplicit(name: string, rest: seq<string>, p: Program, m: string)
    ensures OpenLabel(name, rest, p) != Panicked(Explicit(m))
  {
    if OpenLabel(name, rest, p).Panicked? {
      ScanPanics(rest, EndsLabel, LabelItem, LenMinusOne);
      if j :| 0 <= j < |rest| && LabelItem(rest[j]) == Panicked(Explicit(m)) {
        ItemsNeverExplicit(rest[j], m);
      }
    }
  }

  /** A line whose examination panics explicitly opens a section with an unknown name. */
  lemma ExamineExplicit(f: seq<string>, i: nat, p: Program, m: string)
    requires i < |f| && Examine(f, i, p) == Panicked(Explicit(m))
    ensures BadSectionAt(f, i, m)
  {
    if IsSectionLine(f[i]) {
      OpenSectionExplicit(SplitOnce(f[i], ' ').value.1, f[i + 1..], p, m);
    } else {
      OpenLabelNeverExplicit(Trim(f[i]), f[i + 1..], p, m);
    }
  }

  /** The only explicit panic of the parse is the one for an unknown section name, raised at that line. */
  lemma {:induction false} ExplicitPanicIsBadSection(f: seq<string>, i: nat, p: Program, m: string)
    requires i <= |f| && ParseFrom(f, i, p) == Panicked(Explicit(m))
    ensures exists j :: i <= j && BadSectionAt(f, j, m)
    decreases |f| - i
  {
    ParseFromStep(f, i, p);
    var e := Examine(f, i, p);
    if e.Done? {
      ExplicitPanicIsBadSection(f, i + 1 + e.value.1, e.value.0, m);
    } else {
      ExamineExplicit(f, i, p, m);
    }
  }

  /** A label header on the last line, with no line after it, panics in `len - 1`. */
  lemma HeaderOnLastLine(f: seq<string>, p: Program)
    requires |f| > 0 && IsLabelHeader(f[|f| - 1]) && !IsSectionLine(f[|f| - 1])
    ensures ParseFrom(f, |f| - 1, p) == Panicked(SubtractWithOverflow)
  {
    ParseFromStep(f, |f| - 1, p);
    assert f[|f|..] == [];
  }

  /** An `.extern` block never panics on its lines. */
  lemma {:induction false} ExternCollectDone(lines: seq<string>)
    ensures Collect(lines, ExternItem).Done?
    decreases |lines|
  {
    if lines != [] {
      ExternCollectDone(lines[..|lines| - 1]);
    }
  }

  /** An `.extern` block over lines none of which is a section line ends one line short of them. */
  lemma ExternScanToEnd(rest: seq<string>)
    requires rest != [] && forall j :: 0 <= j < |rest| ==> !IsSectionLine(rest[j])
    ensures Collect(rest, ExternItem).Done?
    ensures Scan(rest, IsSectionLine, ExternItem, LenMinusOne) ==
            Done((Collect(rest, ExternItem).value, |rest| - 1))
  {
    assert rest[..|rest|] == rest;
    ExternCollectDone(rest);
    ScanExhausted(rest, IsSectionLine, ExternItem, LenMinusOne, Collect(rest, ExternItem).value);
  }

  /**
   * An `.extern` block that runs to the end of the text returns `len - 1`, so
   * its last line is examined once more by the main loop.
   */
  lemma ExternLastLineAgain(f: seq<string>, i: nat, p: Program)
    requires i + 1 < |f| && IsSectionLine(f[i]) && SplitOnce(f[i], ' ').Some?
    requires SplitOnce(f[i], ' ').value.1 == ExternName
    requires forall j :: i < j < |f| ==> !IsSectionLine(f[j])
    ensures Scan(f[i + 1..], IsSectionLine, ExternItem, LenMinusOne).Done?
    ensures var functions := Scan(f[i + 1..], IsSectionLine, ExternItem, LenMinusOne).value.0;
            ParseFrom(f, i, p) == ParseFrom(f, |f| - 1, p.(externFunctions := Some(functions)))
  {
    var rest := f[i + 1..];
    assert forall j :: 0 <= j < |rest| ==> !IsSectionLine(rest[j]) by {
      forall j | 0 <= j < |rest| ensures !IsSectionLine(rest[j]) {
        assert rest[j] == f[i + 1 + j];
      }
    }
    ExternOpensToEnd(rest, p);
    SectionResumes(f, i, p);
  }

  /** An `.extern` section over lines none of which is a section line: it resumes at the last line. */
  lemma ExternOpensToEnd(rest: seq<string>, p: Program)
    requires rest != [] && forall j :: 0 <= j < |rest| ==> !IsSectionLine(rest[j])
    ensures Scan(rest, IsSectionLine, ExternItem, LenMinusOne).Done?
    ensures OpenSection(ExternName, rest, p) ==
            Done((p.(externFunctions := Some(Scan(rest, IsSectionLine, ExternItem, LenMinusOne).value.0)), |rest| - 1))
  {
    ExternScanToEnd(rest);
  }

  /** A `.data:` block that runs to the end of the text returns `len`: nothing after it is examined. */
  lemma DataRunsToEnd(f: seq<string>, i: nat, p: Program)
    requires i < |f| && IsSectionLine(f[i]) && SplitOnce(f[i], ' ').Some?
    requires SplitOnce(f[i], ' ').value.1 == DataName
    requires forall j :: i < j < |f| ==> !IsSectionLine(f[j])
    requires Scan(f[i + 1..], IsSectionLine, VariableItem, Len).Done?
    ensures var variables := Scan(f[i + 1..], IsSectionLine, VariableItem, Len).value.0;
            ParseFrom(f, i, p) == Done(p.(data := variables))
  {
    var rest := f[i + 1..];
    assert forall j :: 0 <= j < |rest| ==> !IsSectionLine(rest[j]) by {
      forall j | 0 <= j < |rest| ensures !IsSectionLine(rest[j]) {
        assert rest[j] == f[i + 1 + j];
      }
    }
    ParseFromStep(f, i, p);
  }
}
