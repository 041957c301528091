/**
 * The older language of CPU-V (src/core/types.rs): 6502-style mnemonics,
 * each with the status flags it affects, data types carrying a payload, and
 * the parsing of one instruction line, which caches the flags of its type.
 */
module OldLang {
  import opened RustStd
  import L = Lang

  // ---------------------------------------------------------------------
  // Programs

  /** The (empty) environment record of a program. */
  datatype Env = Env

  /** A parsed program: static data, labelled blocks and an environment. */
  datatype Program = Program(data: seq<Variable>, labels: Option<seq<Label>>, env: Option<Env>)

  /** `Program::new`: no data, no labels, no environment. */
  function NewProgram(): (p: Program)
    ensures p.data == [] && p.labels == None && p.env == None
  {
    Program([], None, None)
  }

  /** A named block of instructions. */
  datatype Label = Label(labelName: string, instructions: Option<seq<Instruction>>)

  /** A static datum; its initial value is kept as the raw text it was written as. */
  datatype Variable = Variable(name: string, ty: DataType, value: string)

  // ---------------------------------------------------------------------
  // Data types

  /** A data type with a value of its size; the floating-point payloads are not modelled. */
  datatype DataType =
    | Byte(byteValue: L.u8) | SByte(sbyteValue: L.i8)
    | Word(wordValue: L.u16) | SWord(swordValue: L.i16)
    | DWord(dwordValue: L.u32) | SDWord(sdwordValue: L.i32)
    | QWord(qwordValue: L.u64)
    | TByte(bytes: seq<L.u8>)
    | Real4 | Real8
    | Str4(chars: seq<char>) | Str8(chars: seq<char>) | Str16(chars: seq<char>)
    | Str32(chars: seq<char>) | Str64(chars: seq<char>) | Str128(chars: seq<char>)

  /** The lower-case name under which each data type is written. */
  function TypeName(t: DataType): string {
    match t
    case Byte(_) => "byte"
    case SByte(_) => "sbyte"
    case Word(_) => "word"
    case SWord(_) => "sword"
    case DWord(_) => "dword"
    case SDWord(_) => "sdword"
    case QWord(_) => "qword"
    case TByte(_) => "tbyte"
    case Real4 => "real4"
    case Real8 => "real8"
    case Str4(_) => "str4"
    case Str8(_) => "str8"
    case Str16(_) => "str16"
    case Str32(_) => "str32"
    case Str64(_) => "str64"
    case Str128(_) => "str128"
  }

  /** `n` zero bytes. */
  function Zeros(n: nat): (r: seq<L.u8>)
    ensures |r| == n && forall k :: 0 <= k < n ==> r[k] == 0
  {
    seq(n, _ => 0)
  }

  /** `n` spaces. */
  function Spaces(n: nat): (r: seq<char>)
    ensures |r| == n && forall k :: 0 <= k < n ==> r[k] == ' '
  {
    seq(n, _ => ' ')
  }

  /** The same type holding its initial value: zero, ten zero bytes, or a string of spaces of its length. */
  function Blank(t: DataType): DataType {
    match t
    case Byte(_) => Byte(0)
    case SByte(_) => SByte(0)
    case Word(_) => Word(0)
    case SWord(_) => SWord(0)
    case DWord(_) => DWord(0)
    case SDWord(_) => SDWord(0)
    case QWord(_) => QWord(0)
    case TByte(_) => TByte(Zeros(10))
    case Real4 => Real4
    case Real8 => Real8
    case Str4(_) => Str4(Spaces(4))
    case Str8(_) => Str8(Spaces(8))
    case Str16(_) => Str16(Spaces(16))
    case Str32(_) => Str32(Spaces(32))
    case Str64(_) => Str64(Spaces(64))
    case Str128(_) => Str128(Spaces(128))
  }

  /** The payload has the length of the Rust array it stands for. */
  predicate WellSized(t: DataType) {
    match t
    case TByte(bytes) => |bytes| == 10
    case Str4(chars) => |chars| == 4
    case Str8(chars) => |chars| == 8
    case Str16(chars) => |chars| == 16
    case Str32(chars) => |chars| == 32
    case Str64(chars) => |chars| == 64
    case Str128(chars) => |chars| == 128
    case _ => true
  }

  /**
   * The arms of `DataType::from_str`, in the order they are written; each arm
   * names a type, and the value it yields is that type's `Blank`.
   */
  const DataTypeArms: seq<(string, DataType)> := [
    ("byte", Byte(0)), ("sbyte", SByte(0)), ("word", Word(0)), ("sword", SWord(0)),
    ("dword", DWord(0)), ("sdword", SDWord(0)), ("qword", QWord(0)), ("tbyte", TByte([])),
    ("real4", Real4), ("real8", Real8), ("str4", Str4([])), ("str8", Str8([])),
    ("str16", Str16([])), ("str32", Str32([])), ("str64", Str64([])), ("str128", Str128([]))
  ]

  /** Each arm reads the name of its own type. */
  lemma DataTypeArmsAgree()
    ensures forall k :: 0 <= k < |DataTypeArms| ==> TypeName(DataTypeArms[k].1) == DataTypeArms[k].0
  {
  }

  /** The initial value keeps the type, holds a payload of the right size, and is its own initial value. */
  lemma BlankIsInitial(t: DataType)
    ensures TypeName(Blank(t)) == TypeName(t) && WellSized(Blank(t)) && Blank(Blank(t)) == Blank(t)
  {
  }

  /** `DataType::from_str`: a case-insensitive lookup of 16 names, each giving an initial value. */
  function DataTypeFromStr(input: string): (r: Result<DataType, string>)
    ensures r.Ok? ==> TypeName(r.value) == ToLower(input) && r.value == Blank(r.value) && WellSized(r.value)
    ensures r.Err? ==> r.error == "Invalid DataType string: " + input
  {
    DataTypeArmsAgree();
    match L.Lookup(DataTypeArms, ToLower(input))
    case Some(t) => BlankIsInitial(t); Ok(Blank(t))
    case None => Err("Invalid DataType string: " + input)
  }

  /** Every type's name is found, at an arm of the same type. */
  lemma TypeNameFound(t: DataType)
    ensures L.Lookup(DataTypeArms, TypeName(t)).Some?
    ensures Blank(L.Lookup(DataTypeArms, TypeName(t)).value) == Blank(t)
  {
    match t
    case Byte(_) | SByte(_) | Word(_) | SWord(_) => TypeNameFoundArms1(t);
    case DWord(_) | SDWord(_) | QWord(_) | TByte(_) => TypeNameFoundArms2(t);
    case Real4 | Real8 | Str4(_) | Str8(_) => TypeNameFoundArms3(t);
    case Str16(_) | Str32(_) | Str64(_) | Str128(_) => TypeNameFoundArms4(t);
  }

  /** Arms 1 to 4 of the type lookup. */
  lemma TypeNameFoundArms1(t: DataType)
    requires t.Byte? || t.SByte? || t.Word? || t.SWord?
    ensures L.Lookup(DataTypeArms, TypeName(t)).Some?
    ensures Blank(L.Lookup(DataTypeArms, TypeName(t)).value) == Blank(t)
  {
    match t
    case Byte(_) =>
      assert TypeName(t) == "byte";
      L.LookupAt(DataTypeArms, "byte", 0);
      assert Blank(t) == Blank(Byte(0));
    case SByte(_) =>
      assert TypeName(t) == "sbyte";
      L.LookupAt(DataTypeArms, "sbyte", 1);
      assert Blank(t) == Blank(SByte(0));
    case Word(_) =>
      assert TypeName(t) == "word";
      L.LookupAt(DataTypeArms, "word", 2);
      assert Blank(t) == Blank(Word(0));
    case SWord(_) =>
      assert TypeName(t) == "sword";
      L.LookupAt(DataTypeArms, "sword", 3);
      assert Blank(t) == Blank(SWord(0));
  }

  /** Arms 5 to 8 of the type lookup. */
  lemma TypeNameFoundArms2(t: DataType)
    requires t.DWord? || t.SDWord? || t.QWord? || t.TByte?
    ensures L.Lookup(DataTypeArms, TypeName(t)).Some?
    ensures Blank(L.Lookup(DataTypeArms, TypeName(t)).value) == Blank(t)
  {
    match t
    case DWord(_) =>
      assert TypeName(t) == "dword";
      L.LookupAt(DataTypeArms, "dword", 4);
      assert Blank(t) == Blank(DWord(0));
    case SDWord(_) =>
      assert TypeName(t) == "sdword";
      L.LookupAt(DataTypeArms, "sdword", 5);
      assert Blank(t) == Blank(SDWord(0));
    case QWord(_) =>
      assert TypeName(t) == "qword";
      L.LookupAt(DataTypeArms, "qword", 6);
      assert Blank(t) == Blank(QWord(0));
    case TByte(_) =>
      assert TypeName(t) == "tbyte";
      L.LookupAt(DataTypeArms, "tbyte", 7);
      assert Blank(t) == Blank(TByte([]));
  }

  /** Arms 9 to 12 of the type lookup. */
  lemma TypeNameFoundArms3(t: DataType)
    requires t.Real4? || t.Real8? || t.Str4? || t.Str8?
    ensures L.Lookup(DataTypeArms, TypeName(t)).Some?
    ensures Blank(L.Lookup(DataTypeArms, TypeName(t)).value) == Blank(t)
  {
    match t
    case Real4 =>
      assert TypeName(t) == "real4";
      L.LookupAt(DataTypeArms, "real4", 8);
      assert Blank(t) == Blank(Real4);
    case Real8 =>
      assert TypeName(t) == "real8";
      L.LookupAt(DataTypeArms, "real8", 9);
      assert Blank(t) == Blank(Real8);
    case Str4(_) =>
      assert TypeName(t) == "str4";
      L.LookupAt(DataTypeArms, "str4", 10);
      assert Blank(t) == Blank(Str4([]));
    case Str8(_) =>
      assert TypeName(t) == "str8";
      L.LookupAt(DataTypeArms, "str8", 11);
      assert Blank(t) == Blank(Str8([]));
  }

  /** Arms 13 to 16 of the type lookup. */
  lemma TypeNameFoundArms4(t: DataType)
    requires t.Str16? || t.Str32? || t.Str64? || t.Str128?
    ensures L.Lookup(DataTypeArms, TypeName(t)).Some?
    ensures Blank(L.Lookup(DataTypeArms, TypeName(t)).value) == Blank(t)
  {
    match t
    case Str16(_) =>
      assert TypeName(t) == "str16";
      L.LookupAt(DataTypeArms, "str16", 12);
      assert Blank(t) == Blank(Str16([]));
    case Str32(_) =>
      assert TypeName(t) == "str32";
      L.LookupAt(DataTypeArms, "str32", 13);
      assert Blank(t) == Blank(Str32([]));
    case Str64(_) =>
      assert TypeName(t) == "str64";
      L.LookupAt(DataTypeArms, "str64", 14);
      assert Blank(t) == Blank(Str64([]));
    case Str128(_) =>
      assert TypeName(t) == "str128";
      L.LookupAt(DataTypeArms, "str128", 15);
      assert Blank(t) == Blank(Str128([]));
  }

  /** Every type name is read back as that type's initial value, in lower or upper case. */
  lemma DataTypeRoundTrip(t: DataType)
    ensures DataTypeFromStr(TypeName(t)) == Ok(Blank(t))
    ensures DataTypeFromStr(ToUpper(TypeName(t))) == Ok(Blank(t))
  {
    LowerIgnoresCase(TypeName(t));
    assert ToLower(TypeName(t)) == TypeName(t);
    TypeNameFound(t);
  }

  /** Exactly the 16 names are accepted, whatever their case. */
  lemma DataTypeFromStrExact(input: string)
    ensures DataTypeFromStr(input).Ok? <==> exists t :: TypeName(t) == ToLower(input)
  {
    var r := DataTypeFromStr(input);
    if r.Ok? {
      assert TypeName(r.value) == ToLower(input);
    }
    if t :| TypeName(t) == ToLower(input) {
      TypeNameFound(t);
      assert L.Lookup(DataTypeArms, ToLower(input)).Some?;
    }
  }

  // ---------------------------------------------------------------------
  // Instruction types and flags

  /** The status flags of the processor. */
  datatype Flag = Zero | Carry | Interrupt | Decimal | Break | Overflow | Negative

  /** All seven flags, in the order they are declared. */
  const AllFlags: seq<Flag> := [Zero, Carry, Interrupt, Decimal, Break, Overflow, Negative]

  datatype InstructionType =
    // Load/Store Operations
    | LDA | LDX | LDY | STA | STX | STY
    // Register Transfers
    | TAX | TAY | TXA | TYA | TSX | TXS
    // Stack Operations
    | PHA | PHP | PLA | PLP
    // Logical Operations
    | AND | EOR | ORA | BIT
    // Arithmetic
    | ADC | SBC | CMP | CPX | CPY
    // Increments and decrements
    | INC | INX | INY | DEC | DEX | DEY
    // Shifts
    | ASL | LSR | ROL | ROR
    // Jumps and calls
    | JMP | JEQ | JNE | JSR | RTS
    // Branches
    | BCC | BCS | BEQ | BMI | BNE | BPL | BVC | BVS
    // Status flag changes
    | CLC | CLD | CLI | CLV | SEC | SED | SEI
    // System functions
    | BRK | NOP | RTI
    // Custom: a call to the operating system, and a move
    | CAL | MOV
  {
    /**
     * `flags`: the status flags an instruction of this type affects, in the
     * order the table lists them.
     */
    function Flags(): seq<Flag> {
      match this
      case LDA | LDX | LDY => [Negative, Zero]
      case STA | STX | STY => []
      case TAX | TAY | TXA | TYA | TSX | TXS => [Negative, Zero]
      case PHA | PLA => [Negative, Zero]
      case PHP => []
      case PLP => [Zero, Carry, Interrupt, Decimal, Break, Overflow, Negative]
      case AND | EOR | ORA => [Negative, Zero]
      case BIT => [Negative, Overflow, Zero]
      case ADC | SBC => [Negative, Overflow, Zero, Carry]
      case CMP | CPX | CPY => [Negative, Zero, Carry]
      case INC | INX | INY | DEC | DEX | DEY => [Negative, Zero]
      case ASL | LSR | ROL | ROR => [Negative, Zero, Carry]
      case JMP | JSR | RTS => []
      case BCC | BCS | BEQ | BMI | BNE | BPL | BVC | BVS | JEQ | JNE => []
      case CLC | SEC => [Carry]
      case CLD | SED => [Decimal]
      case CLI | SEI | CAL | MOV => [Interrupt]
      case CLV => [Overflow]
      case BRK => [Break]
      case NOP => []
      case RTI => [Zero, Carry, Interrupt, Decimal, Break, Overflow, Negative]
    }

    /** Only `JMP` takes a comma-separated pair of operands. */
    predicate HasMultipleValues()
      ensures HasMultipleValues() <==> Name(this) == "jmp"
      ensures HasMultipleValues() ==> HasMnemonic(this) && Flags() == []
    {
      match this
      case JMP => true
      case _ => false
    }

    /** The register transfers and the stack operations are written without an operand. */
    predicate IsValueless()
      ensures IsValueless() <==> Name(this)[0] == 't' || Name(this)[0] == 'p'
      ensures IsValueless() ==> HasMnemonic(this) && !HasMultipleValues()
    {
      match this
      case TAX | TAY | TXA | TYA | TSX | TXS | PHA | PHP | PLA | PLP => true
      case _ => false
    }
  }

  /** The lower-case name of each instruction type. */
  function Name(t: InstructionType): string {
    match t
    case LDA => "lda"
    case LDX => "ldx"
    case LDY => "ldy"
    case STA => "sta"
    case STX => "stx"
    case STY => "sty"
    case TAX => "tax"
    case TAY => "tay"
    case TXA => "txa"
    case TYA => "tya"
    case TSX => "tsx"
    case TXS => "txs"
    case PHA => "pha"
    case PHP => "php"
    case PLA => "pla"
    case PLP => "plp"
    case AND => "and"
    case EOR => "eor"
    case ORA => "ora"
    case BIT => "bit"
    case ADC => "adc"
    case SBC => "sbc"
    case CMP => "cmp"
    case CPX => "cpx"
    case CPY => "cpy"
    case INC => "inc"
    case INX => "inx"
    case INY => "iny"
    case DEC => "dec"
    case DEX => "dex"
    case DEY => "dey"
    case ASL => "asl"
    case LSR => "lsr"
    case ROL => "rol"
    case ROR => "ror"
    case JMP => "jmp"
    case JEQ => "jeq"
    case JNE => "jne"
    case JSR => "jsr"
    case RTS => "rts"
    case BCC => "bcc"
    case BCS => "bcs"
    case BEQ => "beq"
    case BMI => "bmi"
    case BNE => "bne"
    case BPL => "bpl"
    case BVC => "bvc"
    case BVS => "bvs"
    case CLC => "clc"
    case CLD => "cld"
    case CLI => "cli"
    case CLV => "clv"
    case SEC => "sec"
    case SED => "sed"
    case SEI => "sei"
    case BRK => "brk"
    case NOP => "nop"
    case RTI => "rti"
    case CAL => "cal"
    case MOV => "mov"
  }

  /** The four types that `from_str` has no arm for. */
  predicate HasMnemonic(t: InstructionType) {
    !(t == JEQ || t == JNE || t == CAL || t == MOV)
  }

  /**
   * The types `InstructionType::from_str` has an arm for, in the order the
   * arms are written, grouped as the declaration of the type groups them.
   */
  const MnemonicTypes: seq<InstructionType> :=
    LoadStoreTypes + TransferTypes + StackTypes + LogicTypes + ArithmeticTypes + IncDecTypes
    + ShiftTypes + JumpTypes + BranchTypes + FlagChangeTypes + SystemTypes

  const LoadStoreTypes: seq<InstructionType> := [LDA, LDX, LDY, STA, STX, STY]
  const TransferTypes: seq<InstructionType> := [TAX, TAY, TXA, TYA, TSX, TXS]
  const StackTypes: seq<InstructionType> := [PHA, PHP, PLA, PLP]
  const LogicTypes: seq<InstructionType> := [AND, EOR, ORA, BIT]
  const ArithmeticTypes: seq<InstructionType> := [ADC, SBC, CMP, CPX, CPY]
  const IncDecTypes: seq<InstructionType> := [INC, INX, INY, DEC, DEX, DEY]
  const ShiftTypes: seq<InstructionType> := [ASL, LSR, ROL, ROR]
  const JumpTypes: seq<InstructionType> := [JMP, JSR, RTS]
  const BranchTypes: seq<InstructionType> := [BCC, BCS, BEQ, BMI, BNE, BPL, BVC, BVS]
  const FlagChangeTypes: seq<InstructionType> := [CLC, CLD, CLI, CLV, SEC, SED, SEI]
  const SystemTypes: seq<InstructionType> := [BRK, NOP, RTI]

  /** Each type under its lower-case name, in order. */
  function Arms(types: seq<InstructionType>): (arms: seq<(string, InstructionType)>)
    ensures |arms| == |types| && forall k :: 0 <= k < |types| ==> arms[k] == (Name(types[k]), types[k])
  {
    seq(|types|, k requires 0 <= k < |types| => (Name(types[k]), types[k]))
  }

  /** The arms of `InstructionType::from_str`. */
  const Mnemonics: seq<(string, InstructionType)> := Arms(MnemonicTypes)

  /** `JEQ`, `JNE`, `CAL` and `MOV` are the only types without an arm. */
  lemma MnemonicTypesListed()
    ensures forall t :: t in MnemonicTypes <==> HasMnemonic(t)
  {
  }

  /** No arm yields one of the four types without a mnemonic, and every arm reads its own type's name. */
  lemma MnemonicsAgree()
    ensures forall arm :: arm in Mnemonics ==> Name(arm.1) == arm.0 && HasMnemonic(arm.1)
  {
    MnemonicTypesListed();
  }

  /** `InstructionType::from_str`: a case-insensitive lookup of 56 mnemonics. */
  function InstructionTypeFromStr(s: string): (r: Result<InstructionType, string>)
    ensures r.Ok? ==> Name(r.value) == ToLower(s) && HasMnemonic(r.value)
    ensures r.Err? ==> r.error == "Unknown instruction: " + s
  {
    MnemonicsAgree();
    match L.Lookup(Mnemonics, ToLower(s))
    case Some(t) => Ok(t)
    case None => Err("Unknown instruction: " + s)
  }

  /** Distinct types have distinct names. */
  lemma NameInjective(a: InstructionType, b: InstructionType)
    requires Name(a) == Name(b)
    ensures a == b
  {
    NameDecodes(a);
    NameDecodes(b);
  }

  /** Three lower-case ASCII letters. */
  predicate IsLowerWord(w: string) {
    |w| == 3 && forall k :: 0 <= k < 3 ==> 'a' <= w[k] <= 'z'
  }

  /** Three lower-case letters read as a number in base 32. */
  function LetterCode(w: string): int
    requires |w| == 3
  {
    (w[0] as int - 'a' as int) * 1024 + (w[1] as int - 'a' as int) * 32 + (w[2] as int - 'a' as int)
  }

  /** The type whose name has letter code `n`. */
  function TypeOfCode(n: int): Option<InstructionType> {
    match n / 1024
    case 0 => (match n
      case 419 => Some(AND)
      case 98 => Some(ADC)
      case 587 => Some(ASL)
      case _ => None)
    case 1 => (match n
      case 1299 => Some(BIT)
      case 1090 => Some(BCC)
      case 1106 => Some(BCS)
      case 1168 => Some(BEQ)
      case 1416 => Some(BMI)
      case 1444 => Some(BNE)
      case 1515 => Some(BPL)
      case 1698 => Some(BVC)
      case 1714 => Some(BVS)
      case 1578 => Some(BRK)
      case _ => None)
    case 2 => (match n
      case 2447 => Some(CMP)
      case 2551 => Some(CPX)
      case 2552 => Some(CPY)
      case 2402 => Some(CLC)
      case 2403 => Some(CLD)
      case 2408 => Some(CLI)
      case 2421 => Some(CLV)
      case 2059 => Some(CAL)
      case _ => None)
    case 3 => (match n
      case 3202 => Some(DEC)
      case 3223 => Some(DEX)
      case 3224 => Some(DEY)
      case _ => None)
    case 4 => (match n
      case 4561 => Some(EOR)
      case _ => None)
    case 8 => (match n
      case 8610 => Some(INC)
      case 8631 => Some(INX)
      case 8632 => Some(INY)
      case _ => None)
    case 9 => (match n
      case 9615 => Some(JMP)
      case 9360 => Some(JEQ)
      case 9636 => Some(JNE)
      case 9809 => Some(JSR)
      case _ => None)
    case 11 => (match n
      case 11360 => Some(LDA)
      case 11383 => Some(LDX)
      case 11384 => Some(LDY)
      case 11857 => Some(LSR)
      case _ => None)
    case 12 => (match n
      case 12757 => Some(MOV)
      case _ => None)
    case 13 => (match n
      case 13775 => Some(NOP)
      case _ => None)
    case 14 => (match n
      case 14880 => Some(ORA)
      case _ => None)
    case 15 => (match n
      case 15584 => Some(PHA)
      case 15599 => Some(PHP)
      case 15712 => Some(PLA)
      case 15727 => Some(PLP)
      case _ => None)
    case 17 => (match n
      case 17867 => Some(ROL)
      case 17873 => Some(ROR)
      case 18034 => Some(RTS)
      case 18024 => Some(RTI)
      case _ => None)
    case 18 => (match n
      case 19040 => Some(STA)
      case 19063 => Some(STX)
      case 19064 => Some(STY)
      case 18466 => Some(SBC)
      case 18562 => Some(SEC)
      case 18563 => Some(SED)
      case 18568 => Some(SEI)
      case _ => None)
    case 19 => (match n
      case 19479 => Some(TAX)
      case 19480 => Some(TAY)
      case 20192 => Some(TXA)
      case 20224 => Some(TYA)
      case 20055 => Some(TSX)
      case 20210 => Some(TXS)
      case _ => None)
    case _ => None
  }

  /** Every name is three lower-case letters, and its letter code leads back to its type. */
  lemma NameDecodes(t: InstructionType)
    ensures IsLowerWord(Name(t))
    ensures TypeOfCode(LetterCode(Name(t))) == Some(t)
  {
    match t
    case LDA | LDX | LDY | STA => NamesDecode1(t);
    case STX | STY | TAX | TAY => NamesDecode2(t);
    case TXA | TYA | TSX | TXS => NamesDecode3(t);
    case PHA | PHP | PLA | PLP => NamesDecode4(t);
    case AND | EOR | ORA | BIT => NamesDecode5(t);
    case ADC | SBC | CMP | CPX => NamesDecode6(t);
    case CPY | INC | INX | INY => NamesDecode7(t);
    case DEC | DEX | DEY | ASL => NamesDecode8(t);
    case LSR | ROL | ROR | JMP => NamesDecode9(t);
    case JEQ | JNE | JSR | RTS => NamesDecode10(t);
    case BCC | BCS | BEQ | BMI => NamesDecode11(t);
    case BNE | BPL | BVC | BVS => NamesDecode12(t);
    case CLC | CLD | CLI | CLV => NamesDecode13(t);
    case SEC | SED | SEI | BRK => NamesDecode14(t);
    case NOP | RTI | CAL | MOV => NamesDecode15(t);
  }

  /** The names from `LDA` to `STA`, in declaration order, decode to their types. */
  lemma NamesDecode1(t: InstructionType)
    requires t == LDA || t == LDX || t == LDY || t == STA
    ensures IsLowerWord(Name(t))
    ensures TypeOfCode(LetterCode(Name(t))) == Some(t)
  {
  }

  /** The names from `STX` to `TAY`, in declaration order, decode to their types. */
  lemma NamesDecode2(t: InstructionType)
    requires t == STX || t == STY || t == TAX || t == TAY
    ensures IsLowerWord(Name(t))
    ensures TypeOfCode(LetterCode(Name(t))) == Some(t)
  {
  }

  /** The names from `TXA` to `TXS`, in declaration order, decode to their types. */
  lemma NamesDecode3(t: InstructionType)
    requires t == TXA || t == TYA || t == TSX || t == TXS
    ensures IsLowerWord(Name(t))
    ensures TypeOfCode(LetterCode(Name(t))) == Some(t)
  {
  }

  /** The names from `PHA` to `PLP`, in declaration order, decode to their types. */
  lemma NamesDecode4(t: InstructionType)
    requires t == PHA || t == PHP || t == PLA || t == PLP
    ensures IsLowerWord(Name(t))
    ensures TypeOfCode(LetterCode(Name(t))) == Some(t)
  {
  }

  /** The names from `AND` to `BIT`, in declaration order, decode to their types. */
  lemma NamesDecode5(t: InstructionType)
    requires t == AND || t == EOR || t == ORA || t == BIT
    ensures IsLowerWord(Name(t))
    ensures TypeOfCode(LetterCode(Name(t))) == Some(t)
  {
  }

  /** The names from `ADC` to `CPX`, in declaration order, decode to their types. */
  lemma NamesDecode6(t: InstructionType)
    requires t == ADC || t == SBC || t == CMP || t == CPX
    ensures IsLowerWord(Name(t))
    ensures TypeOfCode(LetterCode(Name(t))) == Some(t)
  {
  }

  /** The names from `CPY` to `INY`, in declaration order, decode to their types. */
  lemma NamesDecode7(t: InstructionType)
    requires t == CPY || t == INC || t == INX || t == INY
    ensures IsLowerWord(Name(t))
    ensures TypeOfCode(LetterCode(Name(t))) == Some(t)
  {
  }

  /** The names from `DEC` to `ASL`, in declaration order, decode to their types. */
  lemma NamesDecode8(t: InstructionType)
    requires t == DEC || t == DEX || t == DEY || t == ASL
    ensures IsLowerWord(Name(t))
    ensures TypeOfCode(LetterCode(Name(t))) == Some(t)
  {
  }

  /** The names from `LSR` to `JMP`, in declaration order, decode to their types. */
  lemma NamesDecode9(t: InstructionType)
    requires t == LSR || t == ROL || t == ROR || t == JMP
    ensures IsLowerWord(Name(t))
    ensures TypeOfCode(LetterCode(Name(t))) == Some(t)
  {
  }

  /** The names from `JEQ` to `RTS`, in declaration order, decode to their types. */
  lemma NamesDecode10(t: InstructionType)
    requires t == JEQ || t == JNE || t == JSR || t == RTS
    ensures IsLowerWord(Name(t))
    ensures TypeOfCode(LetterCode(Name(t))) == Some(t)
  {
  }

  /** The names from `BCC` to `BMI`, in declaration order, decode to their types. */
  lemma NamesDecode11(t: InstructionType)
    requires t == BCC || t == BCS || t == BEQ || t == BMI
    ensures IsLowerWord(Name(t))
    ensures TypeOfCode(LetterCode(Name(t))) == Some(t)
  {
  }

  /** The names from `BNE` to `BVS`, in declaration order, decode to their types. */
  lemma NamesDecode12(t: InstructionType)
    requires t == BNE || t == BPL || t == BVC || t == BVS
    ensures IsLowerWord(Name(t))
    ensures TypeOfCode(LetterCode(Name(t))) == Some(t)
  {
  }

  /** The names from `CLC` to `CLV`, in declaration order, decode to their types. */
  lemma NamesDecode13(t: InstructionType)
    requires t == CLC || t == CLD || t == CLI || t == CLV
    ensures IsLowerWord(Name(t))
    ensures TypeOfCode(LetterCode(Name(t))) == Some(t)
  {
  }

  /** The names from `SEC` to `BRK`, in declaration order, decode to their types. */
  lemma NamesDecode14(t: InstructionType)
    requires t == SEC || t == SED || t == SEI || t == BRK
    ensures IsLowerWord(Name(t))
    ensures TypeOfCode(LetterCode(Name(t))) == Some(t)
  {
  }

  /** The names from `NOP` to `MOV`, in declaration order, decode to their types. */
  lemma NamesDecode15(t: InstructionType)
    requires t == NOP || t == RTI || t == CAL || t == MOV
    ensures IsLowerWord(Name(t))
    ensures TypeOfCode(LetterCode(Name(t))) == Some(t)
  {
  }
  /** Every type with a mnemonic is found under its name. */
  lemma MnemonicFound(t: InstructionType)
    requires HasMnemonic(t)
    ensures L.Lookup(Mnemonics, Name(t)) == Some(t)
  {
    MnemonicListed(t);
    MnemonicsAgree();
    var v := L.Lookup(Mnemonics, Name(t)).value;
    NameInjective(v, t);
  }

  /** Every type with a mnemonic has an arm of its own. */
  lemma MnemonicListed(t: InstructionType)
    requires HasMnemonic(t)
    ensures (Name(t), t) in Mnemonics
  {
    MnemonicTypesListed();
    var k :| 0 <= k < |MnemonicTypes| && MnemonicTypes[k] == t;
    assert Mnemonics[k] == (Name(t), t);
  }

  /** Every type with a mnemonic is read back from its name, in lower or upper case. */
  lemma NameRoundTrip(t: InstructionType)
    requires HasMnemonic(t)
    ensures InstructionTypeFromStr(Name(t)) == Ok(t)
    ensures InstructionTypeFromStr(ToUpper(Name(t))) == Ok(t)
  {
    LowerIgnoresCase(Name(t));
    NameShape(t);
    assert ToLower(Name(t)) == Name(t);
    MnemonicFound(t);
  }

  /** Every name is three lower-case letters. */
  lemma NameShape(t: InstructionType)
    ensures IsLowerWord(Name(t))
  {
    NameDecodes(t);
  }

  /**
   * Exactly the 56 mnemonics are accepted, whatever their case; `JEQ`, `JNE`,
   * `CAL` and `MOV` are declared but can never be read.
   */
  lemma InstructionTypeFromStrExact(s: string)
    ensures InstructionTypeFromStr(s).Ok? <==> exists t :: HasMnemonic(t) && Name(t) == ToLower(s)
    ensures InstructionTypeFromStr(s).Ok? ==> InstructionTypeFromStr(s).value !in {JEQ, JNE, CAL, MOV}
  {
    if t :| HasMnemonic(t) && Name(t) == ToLower(s) {
      NameRoundTrip(t);
    }
  }

  /** No type affects the same flag twice. */
  lemma FlagsDistinct(t: InstructionType)
    ensures forall i, j :: 0 <= i < j < |t.Flags()| ==> t.Flags()[i] != t.Flags()[j]
  {
  }

  /** Every type that affects the negative flag affects the zero flag, and the other way round. */
  lemma NegativeWithZero(t: InstructionType)
    ensures Negative in t.Flags() <==> Zero in t.Flags()
  {
  }

  /** Only `PLP` and `RTI` affect every flag, and they list them in declaration order. */
  lemma AllFlagsOnlyRestores(t: InstructionType)
    ensures |t.Flags()| == |AllFlags| <==> t == PLP || t == RTI
    ensures t == PLP || t == RTI ==> t.Flags() == AllFlags
  {
  }

  /** Only `CLC` and `SEC` affect the carry flag alone. */
  lemma CarryOnly(t: InstructionType)
    ensures t.Flags() == [Carry] <==> t == CLC || t == SEC
  {
  }

  /** Only `CLD` and `SED` affect the decimal flag alone. */
  lemma DecimalOnly(t: InstructionType)
    ensures t.Flags() == [Decimal] <==> t == CLD || t == SED
  {
  }

  /** `CLI`, `SEI` and the two custom types affect the interrupt flag alone. */
  lemma InterruptOnly(t: InstructionType)
    ensures t.Flags() == [Interrupt] <==> t == CLI || t == SEI || t == CAL || t == MOV
  {
  }

  /**
   * The types that affect exactly one flag are the flag changes, `BRK` and the
   * two custom types.
   */
  lemma SingleFlag(t: InstructionType)
    ensures |t.Flags()| == 1 <==> t in {CLC, SEC, CLD, SED, CLI, SEI, CAL, MOV, CLV, BRK}
  {
  }

  /** Only `CLV` affects the overflow flag alone, and only `BRK` the break flag. */
  lemma OverflowOrBreakOnly(t: InstructionType)
    ensures t.Flags() == [Overflow] <==> t == CLV
    ensures t.Flags() == [Break] <==> t == BRK
  {
  }

  /** The overflow flag is affected by `BIT`, `ADC`, `SBC`, `CLV` and the two restores only. */
  lemma OverflowSetters(t: InstructionType)
    ensures Overflow in t.Flags() <==> t in {BIT, ADC, SBC, CLV, PLP, RTI}
  {
  }

  /** The carry flag is affected by the additions, comparisons, shifts, carry changes and restores. */
  lemma CarrySetters(t: InstructionType)
    ensures Carry in t.Flags() <==>
              t in {ADC, SBC, CMP, CPX, CPY, ASL, LSR, ROL, ROR, CLC, SEC, PLP, RTI}
  {
  }

  /** Stores, `PHP`, jumps, calls, branches and `NOP` affect no flag. */
  lemma NoFlags(t: InstructionType)
    ensures t.Flags() == [] <==>
              t in {STA, STX, STY, PHP, JMP, JEQ, JNE, JSR, RTS,
                    BCC, BCS, BEQ, BMI, BNE, BPL, BVC, BVS, NOP}
  {
  }

  // ---------------------------------------------------------------------
  // Instructions

  /** The operand text of an instruction: one raw string, or the two halves around a comma. */
  datatype InstructionValue = SingleValue(value: string) | MultipleValue(left: string, right: string)

  /** An instruction with the flags of its type computed once, when it is read. */
  datatype Instruction = Instruction(ty: InstructionType, val: InstructionValue, flags: seq<Flag>)

  /** The operand of an instruction of type `ty` written as `value`. */
  function OperandOf(ty: InstructionType, value: string): (v: InstructionValue)
    ensures !ty.HasMultipleValues() || ',' !in value ==> v == SingleValue(value)
    ensures ty.HasMultipleValues() && ',' in value ==>
              v.MultipleValue? && v.left + [','] + v.right == value && ',' !in v.left
  {
    if ty.HasMultipleValues() then
      match SplitOnce(value, ',')
      case Some((left, right)) => MultipleValue(left, right)
      case None => SingleValue(value)
    else SingleValue(value)
  }

  /**
   * `Instruction::from_str`. A line without a space must name a valueless
   * instruction; a line with one is split at its first space into mnemonic and
   * operand, whatever the mnemonic's arity. The flags are those of the type.
   */
  function InstructionFromStr(s: string): (r: Result<Instruction, string>)
    ensures r.Ok? ==> Name(r.value.ty) == ToLower(L.MnemonicPart(s)) && r.value.flags == r.value.ty.Flags()
    ensures r.Ok? && ' ' !in Trim(s) ==> r.value.ty.IsValueless() && r.value.val == SingleValue("")
    ensures InstructionTypeFromStr(L.MnemonicPart(s)).Err? ==> r == Err(InstructionTypeFromStr(L.MnemonicPart(s)).error)
  {
    var line := Trim(s);
    match SplitOnce(line, ' ')
    case Some((word, value)) =>
      (match InstructionTypeFromStr(word)
       case Err(e) => Err(e)
       case Ok(ty) => Ok(Instruction(ty, OperandOf(ty, value), ty.Flags())))
    case None =>
      match InstructionTypeFromStr(line)
      case Err(e) => Err(e)
      case Ok(ty) =>
        if !ty.IsValueless() then
          Err("Error: Instruction is not valueless: " + line + ", " + ToUpper(Name(ty)))
        else Ok(Instruction(ty, SingleValue(""), ty.Flags()))
  }

  /**
   * A bare mnemonic (no space after trimming) is accepted exactly when it names
   * a valueless type; any other known mnemonic is rejected for missing its operand.
   */
  lemma BareMnemonic(s: string, ty: InstructionType)
    requires ' ' !in Trim(s)
    requires InstructionTypeFromStr(Trim(s)) == Ok(ty)
    ensures ty.IsValueless() ==> InstructionFromStr(s) == Ok(Instruction(ty, SingleValue(""), ty.Flags()))
    ensures !ty.IsValueless() ==>
              InstructionFromStr(s) == Err("Error: Instruction is not valueless: " + Trim(s) + ", " + ToUpper(Name(ty)))
  {
  }

  /**
   * With a space, the mnemonic is the word before it and the operand is made
   * of the whole rest of the line; a valueless mnemonic is not rejected for
   * having one.
   */
  lemma OperandIsRest(s: string, ty: InstructionType)
    requires ' ' in Trim(s)
    requires InstructionTypeFromStr(L.MnemonicPart(s)) == Ok(ty)
    ensures InstructionFromStr(s) == Ok(Instruction(ty, OperandOf(ty, L.OperandPart(s)), ty.Flags()))
  {
    var (word, value) := SplitOnce(Trim(s), ' ').value;
    assert L.MnemonicPart(s) == word && L.OperandPart(s) == value;
  }

  /** A valueless type written on its own, in lower case, reads back as itself. */
  lemma ValuelessRoundTrip(t: InstructionType)
    requires t.IsValueless()
    ensures InstructionFromStr(Name(t)) == Ok(Instruction(t, SingleValue(""), t.Flags()))
  {
    NameShape(t);
    NameRoundTrip(t);
    LowerWord(Name(t));
    BareMnemonic(Name(t), t);
  }

  /**
   * A type with a mnemonic, written in lower case with an operand that ends in
   * a non-blank character, reads back as itself with that operand.
   */
  lemma WrittenRoundTrip(t: InstructionType, value: string)
    requires HasMnemonic(t)
    requires value != [] && !IsWhitespace(value[|value| - 1])
    ensures InstructionFromStr(Name(t) + " " + value) == Ok(Instruction(t, OperandOf(t, value), t.Flags()))
  {
    NameShape(t);
    NameRoundTrip(t);
    LowerWordAndOperand(Name(t), value);
    FromWordAndOperand(Name(t) + " " + value, Name(t), value, t);
  }

  /** Three lower-case letters are already trimmed and hold no space. */
  lemma LowerWord(w: string)
    requires IsLowerWord(w)
    ensures Trim(w) == w && ' ' !in w
  {
    TrimmedAlready(w);
  }

  /** Three lower-case letters, a space and an operand split back into the word and the operand. */
  lemma LowerWordAndOperand(w: string, value: string)
    requires IsLowerWord(w)
    requires value != [] && !IsWhitespace(value[|value| - 1])
    ensures SplitOnce(Trim(w + " " + value), ' ') == Some((w, value))
  {
    LowerWordLineSplits(w, value);
    LowerWordLineTrimmed(w, value);
  }

  /** A line that starts with a letter and ends in a non-blank character is already trimmed. */
  lemma LowerWordLineTrimmed(w: string, value: string)
    requires |w| == 3 && 'a' <= w[0] <= 'z'
    requires value != [] && !IsWhitespace(value[|value| - 1])
    ensures Trim(w + " " + value) == w + " " + value
  {
    var s := w + " " + value;
    assert s[0] == w[0] && s[|s| - 1] == value[|value| - 1];
    TrimmedAlready(s);
  }

  /** A space-free word, a space and the rest split at that space. */
  lemma LowerWordLineSplits(w: string, value: string)
    requires IsLowerWord(w)
    ensures SplitOnce(w + " " + value, ' ') == Some((w, value))
  {
    var s := w + " " + value;
    assert s[..3] == w && s[3] == ' ' && s[4..] == value;
    SplitOnceAt(s, ' ', 3);
  }

  /** A line with a space: the word before it names the type, the rest is the operand. */
  lemma FromWordAndOperand(s: string, word: string, value: string, ty: InstructionType)
    requires SplitOnce(Trim(s), ' ') == Some((word, value))
    requires InstructionTypeFromStr(word) == Ok(ty)
    ensures InstructionFromStr(s) == Ok(Instruction(ty, OperandOf(ty, value), ty.Flags()))
  {
  }
}
