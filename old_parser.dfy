/**
 * The line-oriented assembler of src/core/parser.rs, for the older language.
 *
 * The file is split at `\n` and the main loop looks at one line at a time.
 * A `.section` line names a section; `.data:` and `.program:` are accepted and
 * read nothing, any other name panics. A line holding `_` and no `JMP` is a
 * label header: the label parser reads the instructions after it, up to the
 * next label header, and tells the main loop how many lines to skip. Every
 * other line is ignored, so no variable is ever read.
 *
 * `Examine` and `ParseFrom` are the reference meaning: the line examined after
 * line `i` is line `i + 1 + skip`. They take the reader of one instruction
 * line as a parameter; the parser of the source is `Parse`, which passes
 * `LabelItem`, and the properties of the main loop hold for every reader.
 * The methods are the loops of the source, each proved equal to its reference.
 */
module OldParser {
  import opened RustStd
  import opened Blocks
  import opened OldLang
  import L = Lang

  // ---------------------------------------------------------------------
  // Line classes

  // The fixed words the parser looks for.
  const SectionWord: string := ".section"
  const LabelSign: string := "_"
  const DataName: string := ".data:"
  const ProgramName: string := ".program:"
  const JmpWord: string := "JMP"

  /** A line that opens a section. */
  predicate IsSectionLine(line: string) {
    Contains(line, SectionWord)
  }

  /** A line that opens a label (and ends the one before): it holds `_` and no `JMP`. */
  predicate IsLabelHeader(line: string) {
    Contains(line, LabelSign) && !Contains(line, JmpWord)
  }

  /** How one line of a label is read. */
  type Reader = string -> Outcome<Instruction>

  /** One line of a label is an instruction; a malformed one panics at `unwrap`. */
  function LabelItem(line: string): Outcome<Instruction> {
    match InstructionFromStr(line)
    case Err(e) => Panicked(UnwrapErr(e))
    case Ok(instruction) => Done(instruction)
  }

  /**
   * `parse_label`: instructions up to the next label header. A `.section` line
   * does not end a label; it is read as an instruction.
   */
  method ParseLabel(lines: seq<string>) returns (r: Outcome<(seq<Instruction>, nat)>)
    ensures r == Scan(lines, IsLabelHeader, LabelItem, LenMinusOne)
  {
    var instructions: seq<Instruction> := [];
    for i := 0 to |lines|
      invariant FirstEnd(lines[..i], IsLabelHeader) == None
      invariant Collect(lines[..i], LabelItem) == Done(instructions)
    {
      var line := lines[i];
      if line == [] {
        StepOver(lines, IsLabelHeader, LabelItem, i);
        continue;
      }
      if Contains(line, LabelSign) && !Contains(line, JmpWord) {
        ScanStopsAt(lines, IsLabelHeader, LabelItem, LenMinusOne, i, instructions);
        return Done((instructions, i));
      }
      StepOver(lines, IsLabelHeader, LabelItem, i);
      var parsed := InstructionFromStr(line);
      if parsed.Err? {
        ScanPanicsAt(lines, IsLabelHeader, LabelItem, LenMinusOne, i);
        return Panicked(UnwrapErr(parsed.error));
      }
      instructions := instructions + [parsed.value];
    }
    ScanExhausted(lines, IsLabelHeader, LabelItem, LenMinusOne, instructions);
    if |lines| == 0 {
      return Panicked(SubtractWithOverflow);
    }
    return Done((instructions, |lines| - 1));
  }

  /** A line whose first word is not three characters long is no instruction: it panics at `unwrap`. */
  lemma NoThreeLetterWord(line: string)
    requires |L.MnemonicPart(line)| != 3
    ensures LabelItem(line) == Panicked(UnwrapErr("Unknown instruction: " + L.MnemonicPart(line)))
  {
    var r := InstructionTypeFromStr(L.MnemonicPart(line));
    if r.Ok? {
      NameShape(r.value);
    }
  }

  /**
   * A `.section` line inside a label does not end the label: it is read as an
   * instruction, and the label parser panics on it.
   */
  lemma SectionLineInLabel(name: string)
    requires name != [] && !IsWhitespace(name[|name| - 1]) && '_' !in name
    ensures Scan([SectionWord + " " + name], IsLabelHeader, LabelItem, LenMinusOne) ==
            Panicked(UnwrapErr("Unknown instruction: " + SectionWord))
  {
    var line := SectionWord + " " + name;
    SectionLineNoHeader(name);
    SectionLinePanics(name);
    LineRead(line, LabelItem);
  }

  /** A block of one line that does not end it: the line is read, and the block ends on it. */
  lemma LineRead(line: string, read: Reader)
    requires line != [] && !IsLabelHeader(line)
    ensures Scan([line], IsLabelHeader, read, LenMinusOne) ==
            match read(line)
            case Panicked(e) => Panicked(e)
            case Done(x) => Done(([x], 0))
  {
    var lines := [line];
    assert lines[..0] == [] && lines[..1] == lines && lines[|lines| - 1] == line;
    assert FirstEnd(lines, IsLabelHeader) == None;
    match read(line)
    case Panicked(e) =>
      assert Collect(lines, read) == Panicked(e);
    case Done(x) =>
      assert [] + [x] == [x];
      assert Collect(lines, read) == Done([x]);
  }

  /** Read as an instruction, a `.section` line with a name panics: `.section` is no mnemonic. */
  lemma SectionLinePanics(name: string)
    requires name != [] && !IsWhitespace(name[|name| - 1])
    ensures LabelItem(SectionWord + " " + name) == Panicked(UnwrapErr("Unknown instruction: " + SectionWord))
  {
    SectionLineWord(name);
    NoThreeLetterWord(SectionWord + " " + name);
  }

  /** The first word of a `.section` line with a name is `.section`. */
  lemma SectionLineWord(name: string)
    requires name != [] && !IsWhitespace(name[|name| - 1])
    ensures L.MnemonicPart(SectionWord + " " + name) == SectionWord
  {
    assert SectionWord[0] == '.' && ' ' !in SectionWord;
    FirstWord(SectionWord, name);
  }

  /** A word with no space, a space and a rest: its first word is the word. */
  lemma FirstWord(w: string, rest: string)
    requires w != [] && !IsWhitespace(w[0]) && ' ' !in w
    requires rest != [] && !IsWhitespace(rest[|rest| - 1])
    ensures L.MnemonicPart(w + " " + rest) == w
  {
    var line := w + " " + rest;
    assert line[0] == w[0] && line[|line| - 1] == rest[|rest| - 1];
    TrimmedAlready(line);
    var i := |w|;
    assert line[..i] == w && line[i] == ' ' && line[i + 1..] == rest;
    SplitOnceAt(line, ' ', i);
  }

  /** A `.section` line with a name free of `_` is no label header. */
  lemma SectionLineNoHeader(name: string)
    requires '_' !in name
    ensures !IsLabelHeader(SectionWord + " " + name)
  {
    var line := SectionWord + " " + name;
    assert '_' !in line;
    ContainsChar(line, '_');
  }

  // ---------------------------------------------------------------------
  // The main loop

  /** The labels of a program, `None` read as none. */
  function LabelsOf(p: Program): seq<Label> {
    if p.labels.None? then [] else p.labels.value
  }

  /** The panic message for a section name that is not one of the two. */
  function InvalidSection(name: string): string {
    "Invalid Section Name: \"" + name + "\"!. Perhaps you were trying to create a _label?"
  }

  /** A section line names one of the two sections the parser knows. */
  predicate KnownSection(name: string) {
    name == DataName || name == ProgramName
  }

  /** The label `name` opened before the lines `rest`: its instructions are read and it is appended. */
  function OpenLabel(name: string, rest: seq<string>, p: Program, read: Reader): (r: Outcome<(Program, nat)>)
    ensures r.Done? ==> r.value.1 <= |rest|
  {
    match Scan(rest, IsLabelHeader, read, LenMinusOne)
    case Panicked(e) => Panicked(e)
    case Done((instructions, skip)) =>
      Done((p.(labels := Some(LabelsOf(p) + [Label(name, Some(instructions))])), skip))
  }

  /**
   * What the main loop does with the line at index `i` when it is not skipped:
   * the new program and the number of following lines to skip.
   */
  function Examine(f: seq<string>, i: nat, p: Program, read: Reader): (r: Outcome<(Program, nat)>)
    requires i < |f|
    ensures r.Done? ==> i + 1 + r.value.1 <= |f|
  {
    var line := f[i];
    if IsSectionLine(line) then
      match SplitOnce(line, ' ')
      case None => Panicked(UnwrapNone)
      case Some((_, name)) =>
        if KnownSection(name) then Done((p, 0)) else Panicked(Explicit(InvalidSection(name)))
    else if IsLabelHeader(line) then OpenLabel(Trim(line), f[i + 1..], p, read)
    else Done((p, 0))
  }

  /** The program built from line `i` on, starting from `p`. */
  function ParseFrom(f: seq<string>, i: nat, p: Program, read: Reader): Outcome<Program>
    requires i <= |f|
    decreases |f| - i, 3
  {
    if i == |f| then Done(p) else ParseAt(f, i, p, read)
  }

  /**
   * The program built from line `i` on, when there is a line `i`. Kept apart
   * from `ParseLine` so that mentioning the parse of a later line does not
   * unfold the examination of that line.
   */
  function ParseAt(f: seq<string>, i: nat, p: Program, read: Reader): Outcome<Program>
    requires i < |f|
    decreases |f| - i, 2
  {
    ParseLine(f, i, p, read)
  }

  /** Line `i` is examined, and the parse goes on. */
  function ParseLine(f: seq<string>, i: nat, p: Program, read: Reader): Outcome<Program>
    requires i < |f|
    decreases |f| - i, 1
  {
    Continue(f, i, Examine(f, i, p, read), read)
  }

  /**
   * How the parse goes on once line `i` was examined with result `e`: a panic
   * ends it, otherwise the next examined line is the one after the skipped ones.
   */
  function Continue(f: seq<string>, i: nat, e: Outcome<(Program, nat)>, read: Reader): Outcome<Program>
    requires i < |f| && (e.Done? ==> i + 1 + e.value.1 <= |f|)
    decreases |f| - i, 0
  {
    match e
    case Panicked(x) => Panicked(x)
    case Done((q, skip)) => ParseFrom(f, i + 1 + skip, q, read)
  }

  /** The main loop moves from an examined line to the line after the skipped ones. */
  lemma ParseFromStep(f: seq<string>, i: nat, p: Program, read: Reader)
    requires i < |f|
    ensures ParseFrom(f, i, p, read) == Continue(f, i, Examine(f, i, p, read), read)
  {
    assert ParseFrom(f, i, p, read) == ParseAt(f, i, p, read) == ParseLine(f, i, p, read);
  }

  /** After examining line `i`, the parse ends in the line's panic or resumes after the skipped lines. */
  lemma ParseResumes(f: seq<string>, i: nat, p: Program, read: Reader, e: Outcome<(Program, nat)>)
    requires i < |f| && e == Examine(f, i, p, read)
    ensures e.Panicked? ==> ParseFrom(f, i, p, read) == Panicked(e.panic)
    ensures e.Done? ==> i + 1 + e.value.1 <= |f| && ParseFrom(f, i + 1 + e.value.1, e.value.0, read) == ParseFrom(f, i, p, read)
  {
    ParseFromStep(f, i, p, read);
  }

  /** `parse_file`: the program a source text describes. */
  function Parse(file: string): Outcome<Program> {
    ParseFrom(Split(file, '\n'), 0, NewProgram(), LabelItem)
  }

  /** A label header in `parse_file`: the label's instructions are read and the label is appended. */
  method LabelLine(name: string, rest: seq<string>, program: Program) returns (r: Outcome<(Program, nat)>)
    ensures r == OpenLabel(name, rest, program, LabelItem)
  {
    var parsed := ParseLabel(rest);
    if parsed.Panicked? {
      return Panicked(parsed.panic);
    }
    var updated := program;
    if updated.labels.None? {
      updated := updated.(labels := Some([]));
    }
    updated := updated.(labels := Some(updated.labels.value + [Label(name, Some(parsed.value.0))]));
    return Done((updated, parsed.value.1));
  }

  /**
   * The body of `parse_file`'s loop for a line that is not skipped: the
   * section check or the label header, and the number of lines to skip.
   */
  method ExamineLine(f: seq<string>, lineNum: nat, program: Program) returns (r: Outcome<(Program, nat)>)
    requires lineNum < |f|
    ensures r == Examine(f, lineNum, program, LabelItem)
  {
    var line := f[lineNum];
    if Contains(line, SectionWord) {
      var split := SplitOnce(line, ' ');
      if split.None? {
        return Panicked(UnwrapNone);
      }
      var name := split.value.1;
      if name == DataName {
        return Done((program, 0));
      } else if name == ProgramName {
        return Done((program, 0));
      }
      return Panicked(Explicit(InvalidSection(name)));
    }
    if Contains(line, LabelSign) && !Contains(line, JmpWord) {
      r := LabelLine(Trim(line), f[lineNum + 1..], program);
      return;
    }
    return Done((program, 0));
  }

  /**
   * A line that is not skipped, seen from the loop: either the parse ends in
   * the line's panic, or it resumes after the lines the line's label took.
   */
  method ResumeAfter(f: seq<string>, lineNum: nat, program: Program) returns (r: Outcome<(Program, nat)>)
    requires lineNum < |f|
    ensures r.Panicked? ==> ParseFrom(f, lineNum, program, LabelItem) == Panicked(r.panic)
    ensures r.Done? ==> lineNum + 1 + r.value.1 <= |f|
    ensures r.Done? ==> ParseFrom(f, lineNum + 1 + r.value.1, r.value.0, LabelItem) == ParseFrom(f, lineNum, program, LabelItem)
  {
    r := ExamineLine(f, lineNum, program);
    ParseResumes(f, lineNum, program, LabelItem, r);
  }

  /**
   * `parse_file`: the loop over the lines with its `skip` counter. The lines
   * a label consumed are counted down and never examined.
   */
  method ParseFile(file: string) returns (r: Outcome<Program>)
    ensures r == Parse(file)
  {
    var program := NewProgram();
    var f := Split(file, '\n');
    ghost var target := ParseFrom(f, 0, program, LabelItem);
    var skip: nat := 0;
    for lineNum := 0 to |f|
      invariant lineNum + skip <= |f|
      invariant ParseFrom(f, lineNum + skip, program, LabelItem) == target
    {
      if skip > 0 {
        skip := skip - 1;
        continue;
      }
      var examined := ResumeAfter(f, lineNum, program);
      if examined.Panicked? {
        return Panicked(examined.panic);
      }
      program, skip := examined.value.0, examined.value.1;
    }
    return Done(program);
  }

  // ---------------------------------------------------------------------
  // Properties of the parse

  /** Line `j` is a label header whose trimmed text is `name`. */
  predicate HeaderAt(f: seq<string>, j: int, name: string) {
    0 <= j < |f| && !IsSectionLine(f[j]) && IsLabelHeader(f[j]) && Trim(f[j]) == name
  }

  /** Some line at or after `i` is a label header whose trimmed text is `name`. */
  ghost predicate HeaderFrom(f: seq<string>, i: int, name: string) {
    exists j :: i <= j && HeaderAt(f, j, name)
  }

  /**
   * The labels `added` are named after header lines at or after line `i`,
   * found at the strictly increasing line numbers `js`.
   */
  predicate HeadersAt(f: seq<string>, i: int, added: seq<Label>, js: seq<int>) {
    |js| == |added| &&
    (forall k :: 0 <= k < |js| ==> i <= js[k] && HeaderAt(f, js[k], added[k].labelName)) &&
    (forall k1, k2 :: 0 <= k1 < k2 < |js| ==> js[k1] < js[k2])
  }

  /** The labels `added` are named after header lines at or after line `i`, in the order of those lines. */
  ghost predicate InSourceOrder(f: seq<string>, i: int, added: seq<Label>) {
    exists js :: HeadersAt(f, i, added, js)
  }

  /**
   * From `p` to `q` labels were only appended: the labels of `p` stay first,
   * in order, and the added labels are named after header lines at or after
   * line `i`, in the order of those lines. `labels` turns from `None` to
   * `Some` only by adding a label. The data and the environment are never
   * touched.
   */
  ghost predicate LabelsGrow(f: seq<string>, i: int, p: Program, q: Program) {
    q.data == p.data && q.env == p.env &&
    LabelsOf(p) <= LabelsOf(q) &&
    (q.labels.Some? ==> p.labels.Some? || |LabelsOf(q)| > 0) &&
    InSourceOrder(f, i, LabelsOf(q)[|LabelsOf(p)|..])
  }

  /** What one examined line `i` may do to a program: nothing, or append the label it opens. */
  predicate LabelStep(f: seq<string>, i: int, p: Program, q: Program)
    requires 0 <= i < |f|
  {
    var n := |LabelsOf(p)|;
    q.data == p.data && q.env == p.env &&
    (q.labels == p.labels ||
     (HeaderAt(f, i, Trim(f[i])) && q.labels.Some? && |LabelsOf(q)| == n + 1 &&
      LabelsOf(q)[..n] == LabelsOf(p) && LabelsOf(q)[n].labelName == Trim(f[i])))
  }

  /** Examining one line adds at most one label, named after that line when it is a header. */
  lemma ExamineLabels(f: seq<string>, i: nat, p: Program, read: Reader, q: Program, skip: nat)
    requires i < |f| && Examine(f, i, p, read) == Done((q, skip))
    ensures LabelStep(f, i, p, q)
  {
    if q.labels != p.labels {
      var n := |LabelsOf(p)|;
      assert LabelsOf(q)[..n] == LabelsOf(p);
    }
  }

  /** One label step followed by growth from a later line is growth from this line. */
  lemma LabelsGrowStep(f: seq<string>, i: nat, later: nat, p: Program, q1: Program, q: Program)
    requires i < later && i < |f|
    requires LabelStep(f, i, p, q1) && LabelsGrow(f, later, q1, q)
    ensures LabelsGrow(f, i, p, q)
  {
    var added1 := LabelsOf(q)[|LabelsOf(q1)|..];
    var js1 :| HeadersAt(f, later, added1, js1);
    var added := LabelsOf(q)[|LabelsOf(p)|..];
    if q1.labels == p.labels {
      assert added == added1;
      HeadersFromEarlier(f, i, later, added1, js1);
    } else {
      var n := |LabelsOf(p)|;
      assert LabelsOf(q)[n] == LabelsOf(q1)[n];
      assert added == [LabelsOf(q1)[n]] + added1;
      HeaderBefore(f, i, later, LabelsOf(q1)[n], added1, js1);
    }
    assert LabelsOf(p) <= LabelsOf(q1) <= LabelsOf(q);
  }

  /** Header lines at or after a line are at or after every earlier line. */
  lemma HeadersFromEarlier(f: seq<string>, i: int, later: int, added: seq<Label>, js: seq<int>)
    requires i <= later && HeadersAt(f, later, added, js)
    ensures HeadersAt(f, i, added, js)
  {
  }

  /** A header at line `i`, before the headers of `added`, comes first among them. */
  lemma HeaderBefore(f: seq<string>, i: int, later: int, l: Label, added: seq<Label>, js: seq<int>)
    requires i < later && HeaderAt(f, i, l.labelName) && HeadersAt(f, later, added, js)
    ensures HeadersAt(f, i, [l] + added, [i] + js)
  {
    var at := (j: int, x: Label) => HeaderAt(f, j, x.labelName);
    assert forall k :: 0 <= k < |js| ==> at(js[k], added[k]);
    PrependAt(at, i, later, l, added, js);
    var all, js2 := [l] + added, [i] + js;
    assert forall k :: 0 <= k < |js2| ==> at(js2[k], all[k]);
  }

  /** Parsing only appends labels, each named after a header line examined on the way. */
  lemma {:induction false} LabelsFromHeaders(f: seq<string>, i: nat, p: Program, read: Reader)
    requires i <= |f| && ParseFrom(f, i, p, read).Done?
    ensures LabelsGrow(f, i, p, ParseFrom(f, i, p, read).value)
    decreases |f| - i, 1
  {
    if i < |f| {
      ParseFromStep(f, i, p, read);
      var e := Examine(f, i, p, read);
      ExamineLabels(f, i, p, read, e.value.0, e.value.1);
      LabelsAfterStep(f, i, p, read, e);
    } else {
      assert ParseFrom(f, i, p, read) == Done(p);
      assert HeadersAt(f, i, LabelsOf(p)[|LabelsOf(p)|..], []);
    }
  }

  /** The same, once line `i` has been examined with result `e`. */
  lemma {:induction false} LabelsAfterStep(f: seq<string>, i: nat, p: Program, read: Reader, e: Outcome<(Program, nat)>)
    requires i < |f| && e.Done? && i + 1 + e.value.1 <= |f| && Continue(f, i, e, read).Done?
    requires LabelStep(f, i, p, e.value.0)
    ensures LabelsGrow(f, i, p, Continue(f, i, e, read).value)
    decreases |f| - i, 0
  {
    var (q1, skip) := e.value;
    LabelsFromHeaders(f, i + 1 + skip, q1, read);
    LabelsGrowStep(f, i, i + 1 + skip, p, q1, Continue(f, i, e, read).value);
  }

  /**
   * Labels grown from none are named after header lines, in the order of
   * those lines, stay `None` when there is no header, and leave the data and
   * the environment empty.
   */
  lemma LabelsGrowFromNone(f: seq<string>, q: Program)
    requires LabelsGrow(f, 0, NewProgram(), q)
    ensures InSourceOrder(f, 0, LabelsOf(q))
    ensures forall k :: 0 <= k < |LabelsOf(q)| ==> HeaderFrom(f, 0, LabelsOf(q)[k].labelName)
    ensures (forall j :: 0 <= j < |f| ==> !IsLabelHeader(f[j])) ==> q.labels.None?
    ensures q.data == [] && q.env.None?
  {
    assert LabelsOf(NewProgram()) == [];
    assert LabelsOf(q)[0..] == LabelsOf(q);
    var js :| HeadersAt(f, 0, LabelsOf(q), js);
    forall k | 0 <= k < |LabelsOf(q)|
      ensures HeaderFrom(f, 0, LabelsOf(q)[k].labelName)
    {
      assert 0 <= js[k] && HeaderAt(f, js[k], LabelsOf(q)[k].labelName);
    }
    if q.labels.Some? {
      assert HeaderAt(f, js[0], LabelsOf(q)[0].labelName);
    }
  }

  /**
   * Every label of a parsed program is named after a header line of the
   * text, the labels appear in the order of their header lines, a text
   * without headers has `labels == None`, and no variable and no
   * environment is ever read: `data` stays empty.
   */
  lemma ParsedLabels(file: string)
    requires Parse(file).Done?
    ensures InSourceOrder(Split(file, '\n'), 0, LabelsOf(Parse(file).value))
    ensures forall k :: 0 <= k < |LabelsOf(Parse(file).value)| ==>
              HeaderFrom(Split(file, '\n'), 0, LabelsOf(Parse(file).value)[k].labelName)
    ensures (forall j :: 0 <= j < |Split(file, '\n')| ==> !IsLabelHeader(Split(file, '\n')[j])) ==>
              Parse(file).value.labels.None?
    ensures Parse(file).value.data == [] && Parse(file).value.env.None?
  {
    var f := Split(file, '\n');
    LabelsFromHeaders(f, 0, NewProgram(), LabelItem);
    LabelsGrowFromNone(f, ParseFrom(f, 0, NewProgram(), LabelItem).value);
  }

  /** The line `j` opens a section with a name other than the two known ones, and `m` is the panic message. */
  predicate BadSectionAt(f: seq<string>, j: int, m: string) {
    0 <= j < |f| && IsSectionLine(f[j]) && SplitOnce(f[j], ' ').Some? &&
    !KnownSection(SplitOnce(f[j], ' ').value.1) && m == InvalidSection(SplitOnce(f[j], ' ').value.1)
  }

  /**
   * How a `.section` line is dispatched: without a space it panics in
   * `unwrap`, `.data:` and `.program:` move on to the next line, and any
   * other name panics with its message.
   */
  lemma SectionDispatch(f: seq<string>, i: nat, p: Program, read: Reader)
    requires i < |f| && IsSectionLine(f[i])
    ensures SplitOnce(f[i], ' ').None? ==> ParseFrom(f, i, p, read) == Panicked(UnwrapNone)
    ensures SplitOnce(f[i], ' ').Some? && KnownSection(SplitOnce(f[i], ' ').value.1) ==>
              ParseFrom(f, i, p, read) == ParseFrom(f, i + 1, p, read)
    ensures SplitOnce(f[i], ' ').Some? && !KnownSection(SplitOnce(f[i], ' ').value.1) ==>
              ParseFrom(f, i, p, read) == Panicked(Explicit(InvalidSection(SplitOnce(f[i], ' ').value.1)))
  {
    ParseFromStep(f, i, p, read);
  }

  /** A line that neither opens a section nor a label is ignored. */
  lemma IgnoredLine(f: seq<string>, i: nat, p: Program, read: Reader)
    requires i < |f| && !IsSectionLine(f[i]) && !IsLabelHeader(f[i])
    ensures ParseFrom(f, i, p, read) == ParseFrom(f, i + 1, p, read)
  {
    ParseFromStep(f, i, p, read);
  }

  /** The reader never panics explicitly with message `m`. */
  ghost predicate NeverExplicit(read: Reader, m: string) {
    forall line :: read(line) != Panicked(Explicit(m))
  }

  /** An instruction line never panics explicitly. */
  lemma LabelItemNeverExplicit(m: string)
    ensures NeverExplicit(LabelItem, m)
  {
  }

  /** A label whose reader never panics explicitly never panics explicitly. */
  lemma OpenLabelNeverExplicit(name: string, rest: seq<string>, p: Program, read: Reader, m: string)
    requires NeverExplicit(read, m)
    ensures OpenLabel(name, rest, p, read) != Panicked(Explicit(m))
  {
    if OpenLabel(name, rest, p, read).Panicked? {
      ScanPanics(rest, IsLabelHeader, read, LenMinusOne);
    }
  }

  /** A line whose examination panics explicitly opens a section with an unknown name. */
  lemma ExamineExplicit(f: seq<string>, i: nat, p: Program, read: Reader, m: string)
    requires NeverExplicit(read, m)
    requires i < |f| && Examine(f, i, p, read) == Panicked(Explicit(m))
    ensures BadSectionAt(f, i, m)
  {
    if !IsSectionLine(f[i]) {
      OpenLabelNeverExplicit(Trim(f[i]), f[i + 1..], p, read, m);
    }
  }

  /** The only explicit panic of the parse is the one for an unknown section name, raised at that line. */
  lemma {:induction false} ExplicitPanicIsBadSection(f: seq<string>, i: nat, p: Program, read: Reader, m: string)
    requires NeverExplicit(read, m)
    requires i <= |f| && ParseFrom(f, i, p, read) == Panicked(Explicit(m))
    ensures exists j :: i <= j && BadSectionAt(f, j, m)
    decreases |f| - i
  {
    ParseFromStep(f, i, p, read);
    var e := Examine(f, i, p, read);
    if e.Done? {
      ExplicitPanicIsBadSection(f, i + 1 + e.value.1, e.value.0, read, m);
    } else {
      ExamineExplicit(f, i, p, read, m);
    }
  }

  /** The only explicit panic of `parse_file` is the one for an unknown section name. */
  lemma ParsedExplicitPanic(file: string, m: string)
    requires Parse(file) == Panicked(Explicit(m))
    ensures exists j :: BadSectionAt(Split(file, '\n'), j, m)
  {
    LabelItemNeverExplicit(m);
    ExplicitPanicIsBadSection(Split(file, '\n'), 0, NewProgram(), LabelItem, m);
  }

  /** A label header on the last line, with no line after it, panics in `len - 1`. */
  lemma HeaderOnLastLine(f: seq<string>, p: Program, read: Reader)
    requires |f| > 0 && IsLabelHeader(f[|f| - 1]) && !IsSectionLine(f[|f| - 1])
    ensures ParseFrom(f, |f| - 1, p, read) == Panicked(SubtractWithOverflow)
  {
    ParseFromStep(f, |f| - 1, p, read);
    assert f[|f|..] == [];
  }

  /** A label header that opens no section opens a label over the lines after it. */
  lemma ExamineHeader(f: seq<string>, i: nat, p: Program, read: Reader)
    requires i < |f| && !IsSectionLine(f[i]) && IsLabelHeader(f[i])
    ensures Examine(f, i, p, read) == OpenLabel(Trim(f[i]), f[i + 1..], p, read)
  {
  }

  /**
   * After a label header whose block is read, the parse resumes after the
   * lines the label took, with the label appended.
   */
  lemma LabelResumes(f: seq<string>, i: nat, p: Program, read: Reader)
    requires i < |f| && !IsSectionLine(f[i]) && IsLabelHeader(f[i])
    requires Scan(f[i + 1..], IsLabelHeader, read, LenMinusOne).Done?
    ensures i + 1 + Scan(f[i + 1..], IsLabelHeader, read, LenMinusOne).value.1 <= |f|
    ensures var (instructions, skip) := Scan(f[i + 1..], IsLabelHeader, read, LenMinusOne).value;
            ParseFrom(f, i, p, read) ==
            ParseFrom(f, i + 1 + skip, p.(labels := Some(LabelsOf(p) + [Label(Trim(f[i]), Some(instructions))])), read)
  {
    ExamineHeader(f, i, p, read);
    ParseResumes(f, i, p, read, Examine(f, i, p, read));
  }

  /**
   * A label whose block meets another header at line `j` ends there: the
   * lines in between are skipped and line `j` is the next one examined.
   */
  lemma LabelEndsAtHeader(f: seq<string>, i: nat, j: nat, p: Program, read: Reader)
    requires i < j < |f| && !IsSectionLine(f[i]) && IsLabelHeader(f[i])
    requires IsLabelHeader(f[j]) && forall k :: i < k < j ==> !IsLabelHeader(f[k])
    requires Scan(f[i + 1..], IsLabelHeader, read, LenMinusOne).Done?
    ensures var instructions := Scan(f[i + 1..], IsLabelHeader, read, LenMinusOne).value.0;
            ParseFrom(f, i, p, read) ==
            ParseFrom(f, j, p.(labels := Some(LabelsOf(p) + [Label(Trim(f[i]), Some(instructions))])), read)
  {
    var rest := f[i + 1..];
    forall m | 0 <= m < j - i - 1
      ensures !IsLabelHeader(rest[m])
    {
      assert rest[m] == f[i + 1 + m];
    }
    assert rest[j - i - 1] == f[j];
    ScanStopsAtFirst(f[i + 1..], IsLabelHeader, read, LenMinusOne, j - i - 1);
    LabelResumes(f, i, p, read);
  }

  /**
   * A label whose block runs to the end of the text returns `len - 1`, so the
   * last line, already read as an instruction, is examined once more by the
   * main loop.
   */
  lemma LabelLastLineAgain(f: seq<string>, i: nat, p: Program, read: Reader)
    requires i + 1 < |f| && !IsSectionLine(f[i]) && IsLabelHeader(f[i])
    requires forall k :: i < k < |f| ==> !IsLabelHeader(f[k])
    requires Scan(f[i + 1..], IsLabelHeader, read, LenMinusOne).Done?
    ensures var instructions := Scan(f[i + 1..], IsLabelHeader, read, LenMinusOne).value.0;
            ParseFrom(f, i, p, read) ==
            ParseFrom(f, |f| - 1, p.(labels := Some(LabelsOf(p) + [Label(Trim(f[i]), Some(instructions))])), read)
  {
    var rest := f[i + 1..];
    forall m | 0 <= m < |rest|
      ensures !IsLabelHeader(rest[m])
    {
      assert rest[m] == f[i + 1 + m];
    }
    ScanRunsOut(f[i + 1..], IsLabelHeader, read, LenMinusOne);
    LabelResumes(f, i, p, read);
  }
}
