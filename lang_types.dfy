/**
 * The current language of CPU-V (src/core/lang/types.rs): programs, labels,
 * static variables, the 15-mnemonic instruction set and the parsing of one
 * instruction line.
 */
module Lang {
  import opened RustStd

  // ---------------------------------------------------------------------
  // Programs

  /** A parsed program: declared extern functions, static data and labelled blocks. */
  datatype Program = Program(
    externFunctions: Option<seq<string>>,
    data: seq<Variable>,
    labels: Option<seq<Label>>
  )

  /** A named block of instructions. */
  datatype Label = Label(labelName: string, instructions: Option<seq<Instruction>>)

  /** A static datum; its initial value is kept as the raw text it was written as. */
  datatype Variable = Variable(name: string, ty: DataType, value: string)

  /** `Program::new`: no externs, no data, no labels. */
  function NewProgram(): (p: Program)
    ensures p.externFunctions == None && p.data == [] && p.labels == None
    ensures StartLabel(p) == Panicked(UnwrapNone)
  {
    Program(None, [], None)
  }

  /** A label is an entry point when its name contains `start`. */
  predicate IsStart(l: Label) {
    Contains(l.labelName, "start")
  }

  /** Index of the first entry-point label. */
  function FirstStart(labels: seq<Label>): (r: Option<nat>)
    ensures r.Some? ==> r.value < |labels| && IsStart(labels[r.value])
    ensures r.Some? ==> forall j :: 0 <= j < r.value ==> !IsStart(labels[j])
    ensures r.None? ==> forall j :: 0 <= j < |labels| ==> !IsStart(labels[j])
  {
    if labels == [] then None
    else if IsStart(labels[0]) then Some(0)
    else
      match FirstStart(labels[1..])
      case None => None
      case Some(k) => Some(k + 1)
  }

  /**
   * What `Program::get_start_label` returns: a copy of the first label whose
   * name contains `start`, `Err(())` when there is none, and a panic when the
   * program has no label list at all.
   */
  function StartLabel(p: Program): (r: Outcome<Result<Label, ()>>)
    ensures r.Panicked? <==> p.labels.None?
    ensures r.Panicked? ==> r.panic == UnwrapNone
    ensures r.Done? && r.value.Ok? ==>
              exists k :: 0 <= k < |p.labels.value| && r.value.value == p.labels.value[k] &&
                          IsStart(p.labels.value[k]) &&
                          forall j :: 0 <= j < k ==> !IsStart(p.labels.value[j])
    ensures r.Done? && r.value.Err? ==> forall j :: 0 <= j < |p.labels.value| ==> !IsStart(p.labels.value[j])
  {
    match p.labels
    case None => Panicked(UnwrapNone)
    case Some(labels) =>
      match FirstStart(labels)
      case Some(k) => Done(Ok(labels[k]))
      case None => Done(Err(()))
  }

  /** `Program::get_start_label`: a linear search with an early return. */
  method GetStartLabel(p: Program) returns (r: Outcome<Result<Label, ()>>)
    ensures r == StartLabel(p)
  {
    if p.labels.None? {
      return Panicked(UnwrapNone);
    }
    var labels := p.labels.value;
    for i := 0 to |labels|
      invariant forall j :: 0 <= j < i ==> !IsStart(labels[j])
    {
      if Contains(labels[i].labelName, "start") {
        return Done(Ok(labels[i]));
      }
    }
    return Done(Err(()));
  }

  // ---------------------------------------------------------------------
  // Data types

  datatype DataType =
    | Byte | SByte | TByte
    | Word | SWord | DWord | SDWord | QWord
    | Real4 | Real8
    | Str4 | Str8 | Str16 | Str32 | Str64 | Str128

  /** The lower-case name under which each data type is written. */
  function DataTypeName(t: DataType): string {
    match t
    case Byte => "byte"
    case SByte => "sbyte"
    case TByte => "tbyte"
    case Word => "word"
    case SWord => "sword"
    case DWord => "dword"
    case SDWord => "sdword"
    case QWord => "qword"
    case Real4 => "real4"
    case Real8 => "real8"
    case Str4 => "str4"
    case Str8 => "str8"
    case Str16 => "str16"
    case Str32 => "str32"
    case Str64 => "str64"
    case Str128 => "str128"
  }

  /** The first value paired with `key` in `table`. */
  function Lookup<T>(table: seq<(string, T)>, key: string): (r: Option<T>)
    ensures r.Some? ==> exists k :: 0 <= k < |table| && table[k] == (key, r.value)
    ensures r.None? ==> forall k :: 0 <= k < |table| ==> table[k].0 != key
  {
    if table == [] then None
    else if table[0].0 == key then Some(table[0].1)
    else Lookup(table[1..], key)
  }

  /** A key is found at its first occurrence. */
  lemma {:induction false} LookupAt<T>(table: seq<(string, T)>, key: string, k: nat)
    requires k < |table| && table[k].0 == key
    requires forall j :: 0 <= j < k ==> table[j].0 != key
    ensures Lookup(table, key) == Some(table[k].1)
    decreases k
  {
    if k > 0 {
      assert table[0].0 != key;
      LookupAt(table[1..], key, k - 1);
    }
  }

  /** The arms of `DataType::from_str`, in the order they are written. */
  const DataTypeNames: seq<(string, DataType)> := [
    ("byte", Byte), ("sbyte", SByte), ("word", Word), ("sword", SWord),
    ("dword", DWord), ("sdword", SDWord), ("qword", QWord), ("tbyte", TByte),
    ("real4", Real4), ("real8", Real8), ("str4", Str4), ("str8", Str8),
    ("str16", Str16), ("str32", Str32), ("str64", Str64), ("str128", Str128)
  ]

  /** Each arm reads the name of its own type. */
  lemma DataTypeNamesAgree()
    ensures forall k :: 0 <= k < |DataTypeNames| ==> DataTypeName(DataTypeNames[k].1) == DataTypeNames[k].0
  {
  }

  /** `DataType::from_str`: a case-insensitive lookup of the 16 type names. */
  function DataTypeFromStr(input: string): (r: Result<DataType, string>)
    ensures r.Ok? ==> DataTypeName(r.value) == ToLower(input)
    ensures r.Err? ==> r.error == "Invalid DataType string: " + input
  {
    DataTypeNamesAgree();
    match Lookup(DataTypeNames, ToLower(input))
    case Some(t) => Ok(t)
    case None => Err("Invalid DataType string: " + input)
  }

  /** Every type's name is found, paired with that type. */
  lemma DataTypeNameFound(t: DataType)
    ensures Lookup(DataTypeNames, DataTypeName(t)) == Some(t)
  {
    if t.Byte? || t.SByte? || t.Word? || t.SWord? || t.DWord? || t.SDWord? || t.QWord? || t.TByte? {
      DataTypeNameFoundFirstArms(t);
    } else {
      DataTypeNameFoundLastArms(t);
    }
  }

  /** The first eight arms of the type lookup. */
  lemma DataTypeNameFoundFirstArms(t: DataType)
    requires t.Byte? || t.SByte? || t.Word? || t.SWord? || t.DWord? || t.SDWord? || t.QWord? || t.TByte?
    ensures Lookup(DataTypeNames, DataTypeName(t)) == Some(t)
  {
    match t
    case Byte => LookupAt(DataTypeNames, "byte", 0);
    case SByte => LookupAt(DataTypeNames, "sbyte", 1);
    case TByte => LookupAt(DataTypeNames, "tbyte", 7);
    case Word => LookupAt(DataTypeNames, "word", 2);
    case SWord => LookupAt(DataTypeNames, "sword", 3);
    case DWord => LookupAt(DataTypeNames, "dword", 4);
    case SDWord => LookupAt(DataTypeNames, "sdword", 5);
    case QWord => LookupAt(DataTypeNames, "qword", 6);
  }

  /** The last eight arms of the type lookup. */
  lemma DataTypeNameFoundLastArms(t: DataType)
    requires !(t.Byte? || t.SByte? || t.Word? || t.SWord? || t.DWord? || t.SDWord? || t.QWord? || t.TByte?)
    ensures Lookup(DataTypeNames, DataTypeName(t)) == Some(t)
  {
    match t
    case Real4 => LookupAt(DataTypeNames, "real4", 8);
    case Real8 => LookupAt(DataTypeNames, "real8", 9);
    case Str4 => LookupAt(DataTypeNames, "str4", 10);
    case Str8 => LookupAt(DataTypeNames, "str8", 11);
    case Str16 => LookupAt(DataTypeNames, "str16", 12);
    case Str32 => LookupAt(DataTypeNames, "str32", 13);
    case Str64 => LookupAt(DataTypeNames, "str64", 14);
    case Str128 => LookupAt(DataTypeNames, "str128", 15);
  }

  /** Every type name is read back as its type, in lower or upper case. */
  lemma DataTypeNameRoundTrip(t: DataType)
    ensures DataTypeFromStr(DataTypeName(t)) == Ok(t)
    ensures DataTypeFromStr(ToUpper(DataTypeName(t))) == Ok(t)
  {
    LowerIgnoresCase(DataTypeName(t));
    assert ToLower(DataTypeName(t)) == DataTypeName(t);
    DataTypeNameFound(t);
  }

  /** Type names are single non-empty words. */
  lemma DataTypeNameShape(t: DataType)
    ensures |DataTypeName(t)| > 0 && ' ' !in DataTypeName(t) && !IsWhitespace(DataTypeName(t)[0])
  {
  }

  /** Exactly the 16 names are accepted, whatever their case; distinct types have distinct names. */
  lemma DataTypeFromStrExact(input: string)
    ensures DataTypeFromStr(input).Ok? <==> exists t :: DataTypeName(t) == ToLower(input)
    ensures forall a, b :: DataTypeName(a) == DataTypeName(b) ==> a == b
  {
    if t :| DataTypeName(t) == ToLower(input) {
      DataTypeNameRoundTrip(t);
    }
    forall a, b | DataTypeName(a) == DataTypeName(b)
      ensures a == b
    {
      DataTypeNameRoundTrip(a);
      DataTypeNameRoundTrip(b);
    }
  }

  // ---------------------------------------------------------------------
  // Instructions

  datatype InstructionType =
    | CALL
    | LOAD | MOVE | INC | DEC
    | ADD | SUB
    | CMP | JEQ | JLT | JGT | JMP
    | NOP | BRK | EXIT
  {
    /** Only `JMP` takes a comma-separated pair of operands. */
    predicate HasMultipleValues()
      ensures HasMultipleValues() <==> Mnemonic(this) == "jmp"
    {
      match this
      case JMP => true
      case _ => false
    }

    /** Only `NOP` may be written without an operand. */
    predicate IsValueless()
      ensures IsValueless() <==> Mnemonic(this) == "nop"
      ensures IsValueless() ==> !HasMultipleValues()
    {
      match this
      case NOP => true
      case _ => false
    }
  }

  /** The lower-case mnemonic of each instruction type. */
  function Mnemonic(t: InstructionType): string {
    match t
    case CALL => "call"
    case LOAD => "load"
    case MOVE => "move"
    case INC => "inc"
    case DEC => "dec"
    case ADD => "add"
    case SUB => "sub"
    case CMP => "cmp"
    case JEQ => "jeq"
    case JLT => "jlt"
    case JGT => "jgt"
    case JMP => "jmp"
    case NOP => "nop"
    case BRK => "brk"
    case EXIT => "exit"
  }

  /** The arms of `InstructionType::from_str`, in the order they are written. */
  const Mnemonics: seq<(string, InstructionType)> := [
    ("call", CALL), ("load", LOAD), ("move", MOVE), ("inc", INC), ("dec", DEC),
    ("add", ADD), ("sub", SUB), ("cmp", CMP), ("jeq", JEQ), ("jlt", JLT),
    ("jgt", JGT), ("jmp", JMP), ("nop", NOP), ("brk", BRK), ("exit", EXIT)
  ]

  /** Each arm reads the mnemonic of its own type. */
  lemma MnemonicsAgree()
    ensures forall k :: 0 <= k < |Mnemonics| ==> Mnemonic(Mnemonics[k].1) == Mnemonics[k].0
  {
  }

  /** `InstructionType::from_str`: a case-insensitive lookup of the 15 mnemonics. */
  function InstructionTypeFromStr(s: string): (r: Result<InstructionType, string>)
    ensures r.Ok? ==> Mnemonic(r.value) == ToLower(s)
    ensures r.Err? ==> r.error == "Unknown instruction: " + s
  {
    MnemonicsAgree();
    match Lookup(Mnemonics, ToLower(s))
    case Some(t) => Ok(t)
    case None => Err("Unknown instruction: " + s)
  }

  /** Every mnemonic is found, paired with its type. */
  lemma MnemonicFound(t: InstructionType)
    ensures Lookup(Mnemonics, Mnemonic(t)) == Some(t)
  {
    if t.CALL? || t.LOAD? || t.MOVE? || t.INC? || t.DEC? || t.ADD? || t.SUB? || t.CMP? {
      MnemonicFoundFirstArms(t);
    } else {
      MnemonicFoundLastArms(t);
    }
  }

  /** The first eight arms of the mnemonic lookup. */
  lemma MnemonicFoundFirstArms(t: InstructionType)
    requires t.CALL? || t.LOAD? || t.MOVE? || t.INC? || t.DEC? || t.ADD? || t.SUB? || t.CMP?
    ensures Lookup(Mnemonics, Mnemonic(t)) == Some(t)
  {
    match t
    case CALL => LookupAt(Mnemonics, "call", 0);
    case LOAD => LookupAt(Mnemonics, "load", 1);
    case MOVE => LookupAt(Mnemonics, "move", 2);
    case INC => LookupAt(Mnemonics, "inc", 3);
    case DEC => LookupAt(Mnemonics, "dec", 4);
    case ADD => LookupAt(Mnemonics, "add", 5);
    case SUB => LookupAt(Mnemonics, "sub", 6);
    case CMP => LookupAt(Mnemonics, "cmp", 7);
  }

  /** The last seven arms of the mnemonic lookup. */
  lemma MnemonicFoundLastArms(t: InstructionType)
    requires !(t.CALL? || t.LOAD? || t.MOVE? || t.INC? || t.DEC? || t.ADD? || t.SUB? || t.CMP?)
    ensures Lookup(Mnemonics, Mnemonic(t)) == Some(t)
  {
    match t
    case JEQ => LookupAt(Mnemonics, "jeq", 8);
    case JLT => LookupAt(Mnemonics, "jlt", 9);
    case JGT => LookupAt(Mnemonics, "jgt", 10);
    case JMP => LookupAt(Mnemonics, "jmp", 11);
    case NOP => LookupAt(Mnemonics, "nop", 12);
    case BRK => LookupAt(Mnemonics, "brk", 13);
    case EXIT => LookupAt(Mnemonics, "exit", 14);
  }

  /** Every mnemonic is read back as its instruction type, in lower or upper case. */
  lemma MnemonicRoundTrip(t: InstructionType)
    ensures InstructionTypeFromStr(Mnemonic(t)) == Ok(t)
    ensures InstructionTypeFromStr(ToUpper(Mnemonic(t))) == Ok(t)
  {
    LowerIgnoresCase(Mnemonic(t));
    assert ToLower(Mnemonic(t)) == Mnemonic(t);
    MnemonicFound(t);
  }

  /** Exactly the 15 mnemonics are accepted, whatever their case; distinct types have distinct mnemonics. */
  lemma InstructionTypeFromStrExact(s: string)
    ensures InstructionTypeFromStr(s).Ok? <==> exists t :: Mnemonic(t) == ToLower(s)
    ensures forall a, b :: Mnemonic(a) == Mnemonic(b) ==> a == b
  {
    if t :| Mnemonic(t) == ToLower(s) {
      MnemonicRoundTrip(t);
    }
    forall a, b | Mnemonic(a) == Mnemonic(b)
      ensures a == b
    {
      MnemonicRoundTrip(a);
      MnemonicRoundTrip(b);
    }
  }

  /** The operand text of an instruction: one raw string, or the two halves around a comma. */
  datatype InstructionValue = SingleValue(value: string) | MultipleValue(left: string, right: string)

  datatype Instruction = Instruction(ty: InstructionType, val: InstructionValue)

  /** The mnemonic part of a line: the trimmed line up to its first space. */
  function MnemonicPart(s: string): string {
    match SplitOnce(Trim(s), ' ')
    case Some((left, _)) => left
    case None => Trim(s)
  }

  /** The operand part of a line: everything after the first space of the trimmed line. */
  function OperandPart(s: string): string {
    match SplitOnce(Trim(s), ' ')
    case Some((_, right)) => right
    case None => ""
  }

  /** The operand of an instruction of type `ty` written as `value`. */
  function OperandOf(ty: InstructionType, value: string): InstructionValue {
    if ty.HasMultipleValues() then
      match SplitOnce(value, ',')
      case Some((left, right)) => MultipleValue(left, right)
      case None => SingleValue(value)
    else SingleValue(value)
  }

  /**
   * `Instruction::from_str`. A line without a space must name a valueless
   * instruction; a line with one is split at its first space into mnemonic and
   * operand, whatever the mnemonic's arity.
   */
  function InstructionFromStr(s: string): (r: Result<Instruction, string>)
    ensures r.Ok? ==> Mnemonic(r.value.ty) == ToLower(MnemonicPart(s))
    ensures r.Ok? && ' ' !in Trim(s) ==> r.value.ty.IsValueless() && r.value.val == SingleValue("")
    ensures InstructionTypeFromStr(MnemonicPart(s)).Err? ==> r == Err(InstructionTypeFromStr(MnemonicPart(s)).error)
  {
    var line := Trim(s);
    match SplitOnce(line, ' ')
    case Some((word, value)) =>
      (match InstructionTypeFromStr(word)
       case Err(e) => Err(e)
       case Ok(ty) => Ok(Instruction(ty, OperandOf(ty, value))))
    case None =>
      match InstructionTypeFromStr(line)
      case Err(e) => Err(e)
      case Ok(ty) =>
        if !ty.IsValueless() then
          Err("Error: Instruction is not valueless: " + line + ", " + ToUpper(Mnemonic(ty)))
        else Ok(Instruction(ty, SingleValue("")))
  }

  /**
   * A bare mnemonic (no space after trimming) is accepted exactly when it names
   * `NOP`; any other known mnemonic is rejected for missing its operand.
   */
  lemma BareMnemonic(s: string)
    requires ' ' !in Trim(s)
    ensures InstructionFromStr(s).Ok? <==> InstructionTypeFromStr(Trim(s)) == Ok(NOP)
    ensures InstructionFromStr(s).Ok? ==> InstructionFromStr(s).value == Instruction(NOP, SingleValue(""))
  {
  }

  /**
   * With a space, the mnemonic is the word before it and the operand is made
   * of the whole rest of the line; a valueless mnemonic is not rejected for
   * having one.
   */
  lemma OperandIsRest(s: string, ty: InstructionType)
    requires ' ' in Trim(s)
    requires InstructionTypeFromStr(MnemonicPart(s)) == Ok(ty)
    ensures InstructionFromStr(s) == Ok(Instruction(ty, OperandOf(ty, OperandPart(s))))
  {
    var (word, value) := SplitOnce(Trim(s), ' ').value;
    FromWordAndOperand(s, word, value, ty);
  }

  /**
   * `JMP` splits its operand at the first comma when there is one; every
   * other mnemonic keeps the operand whole.
   */
  lemma OperandOfSplits(ty: InstructionType, value: string)
    ensures ty != JMP || ',' !in value ==> OperandOf(ty, value) == SingleValue(value)
    ensures ty == JMP && ',' in value ==>
              var v := OperandOf(ty, value);
              v.MultipleValue? && v.left + [','] + v.right == value && ',' !in v.left
  {
  }

  /** A line with a space: the word before it names the type, the rest is the operand. */
  lemma FromWordAndOperand(s: string, word: string, value: string, ty: InstructionType)
    requires SplitOnce(Trim(s), ' ') == Some((word, value))
    requires InstructionTypeFromStr(word) == Ok(ty)
    ensures InstructionFromStr(s) == Ok(Instruction(ty, OperandOf(ty, value)))
  {
  }

  /** A word whose lower-case form is a mnemonic names that type. */
  lemma KnownWord(word: string, ty: InstructionType)
    requires ToLower(word) == Mnemonic(ty)
    ensures InstructionTypeFromStr(word) == Ok(ty)
  {
    MnemonicFound(ty);
  }

  /** `NOP` lower-cased is the mnemonic of `NOP`. */
  lemma LowerNop()
    ensures ToLower("NOP") == Mnemonic(NOP)
  {
    var lower := ToLower("NOP");
    assert |lower| == 3 && lower[0] == 'n' && lower[1] == 'o' && lower[2] == 'p';
  }

  /**
   * An operand after `NOP` is kept rather than refused: `NOP` followed by a
   * space and any operand that does not end in whitespace parses to `NOP`
   * carrying that whole operand.
   */
  lemma NopKeepsOperand(value: string)
    requires value != [] && !IsWhitespace(value[|value| - 1])
    ensures InstructionFromStr("NOP " + value) == Ok(Instruction(NOP, SingleValue(value)))
  {
    NopLineWords(value);
    LowerNop();
    KnownWord("NOP", NOP);
    assert OperandOf(NOP, value) == SingleValue(value);
    FromWordAndOperand("NOP " + value, "NOP", value, NOP);
  }

  /** `NOP` followed by a space and an operand is the word `NOP` and that operand. */
  lemma NopLineWords(value: string)
    requires value != [] && !IsWhitespace(value[|value| - 1])
    ensures SplitOnce(Trim("NOP " + value), ' ') == Some(("NOP", value))
  {
    var line := "NOP " + value;
    assert line[..3] == "NOP" && line[3] == ' ' && line[4..] == value;
    SplitOnceAt(line, ' ', 3);
    assert line[0] == 'N' && line[|line| - 1] == value[|value| - 1];
    TrimmedAlready(line);
  }

  // ---------------------------------------------------------------------
  // Registers

  newtype u8 = x: int | 0 <= x < 0x100
  newtype u16 = x: int | 0 <= x < 0x1_0000
  newtype u32 = x: int | 0 <= x < 0x1_0000_0000
  newtype u64 = x: int | 0 <= x < 0x1_0000_0000_0000_0000
  newtype i8 = x: int | -0x80 <= x < 0x80
  newtype i16 = x: int | -0x8000 <= x < 0x8000
  newtype i32 = x: int | -0x8000_0000 <= x < 0x8000_0000
  newtype i64 = x: int | -0x8000_0000_0000_0000 <= x < 0x8000_0000_0000_0000

  /** The fixed register file, by name; the engine only copies it into snapshots. */
  datatype Registers = Registers(
    // 64-bit registers
    rax: u64, rbx: u64, rcx: u64, rsp: u64, rbp: u64, rdi: u64, rsi: u64, rdx: u64,
    // 32-bit registers
    eax: u32, ebx: u32, ecx: u32, esp: u32, ebp: u32, edi: u32, esi: u32, edx: u32,
    // 16-bit registers
    ax: u16, bx: u16, cx: u16, sp: u16, bp: u16, di: u16, si: u16, dx: u16,
    // 8-bit registers
    ah: u8, al: u8, bh: u8, bl: u8, ch: u8, cl: u8, spl: u8, bpl: u8, dil: u8, sil: u8, dh: u8, dl: u8,
    // 64-bit signed registers
    srax: i64, srbx: i64, srcx: i64, srsp: i64, srbp: i64, srdi: i64, srsi: i64, srdx: i64,
    // 32-bit signed registers
    seax: i32, sebx: i32, secx: i32, sesp: i32, sebp: i32, sedi: i32, sesi: i32, sedx: i32,
    // 16-bit signed registers
    sax: i16, sbx: i16, scx: i16, ssp: i16, sbp: i16, sdi: i16, ssi: i16, sdx: i16,
    // 8-bit signed registers
    sah: i8, sal: i8, sbh: i8, sbl: i8, sch: i8, scl: i8, sspl: i8, sbpl: i8, sdil: i8, ssil: i8, sdh: i8, sdl: i8
  )

  /** Every one of the 72 registers, unsigned and signed, holds zero. */
  predicate AllZero(r: Registers) {
    && r.rax == 0 && r.rbx == 0 && r.rcx == 0 && r.rsp == 0 && r.rbp == 0 && r.rdi == 0 && r.rsi == 0 && r.rdx == 0
    && r.eax == 0 && r.ebx == 0 && r.ecx == 0 && r.esp == 0 && r.ebp == 0 && r.edi == 0 && r.esi == 0 && r.edx == 0
    && r.ax == 0 && r.bx == 0 && r.cx == 0 && r.sp == 0 && r.bp == 0 && r.di == 0 && r.si == 0 && r.dx == 0
    && r.ah == 0 && r.al == 0 && r.bh == 0 && r.bl == 0 && r.ch == 0 && r.cl == 0
    && r.spl == 0 && r.bpl == 0 && r.dil == 0 && r.sil == 0 && r.dh == 0 && r.dl == 0
    && r.srax == 0 && r.srbx == 0 && r.srcx == 0 && r.srsp == 0 && r.srbp == 0 && r.srdi == 0 && r.srsi == 0 && r.srdx == 0
    && r.seax == 0 && r.sebx == 0 && r.secx == 0 && r.sesp == 0 && r.sebp == 0 && r.sedi == 0 && r.sesi == 0 && r.sedx == 0
    && r.sax == 0 && r.sbx == 0 && r.scx == 0 && r.ssp == 0 && r.sbp == 0 && r.sdi == 0 && r.ssi == 0 && r.sdx == 0
    && r.sah == 0 && r.sal == 0 && r.sbh == 0 && r.sbl == 0 && r.sch == 0 && r.scl == 0
    && r.sspl == 0 && r.sbpl == 0 && r.sdil == 0 && r.ssil == 0 && r.sdh == 0 && r.sdl == 0
  }

  /** `Registers::default()`: every register zero. */
  function DefaultRegisters(): (r: Registers)
    ensures r.rax == 0 && r.eax == 0 && r.ax == 0 && r.al == 0
    ensures r.srax == 0 && r.seax == 0 && r.sax == 0 && r.sal == 0
    ensures AllZero(r)
  {
    Registers(0, 0, 0, 0, 0, 0, 0, 0, 0, 0, 0, 0, 0, 0, 0, 0, 0, 0, 0, 0, 0, 0, 0, 0, 0, 0, 0, 0, 0, 0, 0, 0, 0, 0, 0, 0, 0, 0, 0, 0, 0, 0, 0, 0, 0, 0, 0, 0, 0, 0, 0, 0, 0, 0, 0, 0, 0, 0, 0, 0, 0, 0, 0, 0, 0, 0, 0, 0, 0, 0, 0, 0)
  }

  /** The default register file is the only one in which every register is zero. */
  lemma AllZeroIsDefault(r: Registers)
    requires AllZero(r)
    ensures r == DefaultRegisters()
  {
  }
}
