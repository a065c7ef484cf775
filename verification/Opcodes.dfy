/** The SDMA instruction set as the assembler encodes it (tools/mx51_sdma_set.pm),
    and the decoder it must agree with. */
module Opcodes {

  datatype Option<T> = None | Some(value: T)

  datatype Op =
    | Done | Yield | Yieldge | Notify | Softbkpt | Ret | Clrf | Illegal | Jmpr | Jsrr | Ldrpc
    | Revb | Revblo | Rorb | Ror1 | Lsr1 | Asr1 | Lsl1 | Bclri | Bseti | Btsti
    | Mov | Xor | Add | Sub | Or | Andn | And | Tst | Cmpeq | Cmplt | Cmphs | Cpshreg
    | Ldi | Xori | Addi | Subi | Ori | Andni | Andi | Tsti | Cmpeqi | Ld | St | Ldf | Stf
    | Loop | Bf | Bt | Bsf | Bdf | Jmp | Jsr

  /** How the operands of an instruction are laid out. */
  datatype Format = NoArgs | J3 | F2 | R3 | R3N5 | R3S3 | R3I8 | R3D5B3 | F2N8 | P8 | A14

  function Named(name: string): Option<Op> {
    match name
    case "done" => Some(Done)
    case "yield" => Some(Yield)
    case "yieldge" => Some(Yieldge)
    case "notify" => Some(Notify)
    case "softbkpt" => Some(Softbkpt)
    case "ret" => Some(Ret)
    case "clrf" => Some(Clrf)
    case "illegal" => Some(Illegal)
    case "jmpr" => Some(Jmpr)
    case "jsrr" => Some(Jsrr)
    case "ldrpc" => Some(Ldrpc)
    case "revb" => Some(Revb)
    case "revblo" => Some(Revblo)
    case "rorb" => Some(Rorb)
    case "ror1" => Some(Ror1)
    case "lsr1" => Some(Lsr1)
    case "asr1" => Some(Asr1)
    case "lsl1" => Some(Lsl1)
    case "bclri" => Some(Bclri)
    case "bseti" => Some(Bseti)
    case "btsti" => Some(Btsti)
    case "mov" => Some(Mov)
    case "xor" => Some(Xor)
    case "add" => Some(Add)
    case "sub" => Some(Sub)
    case "or" => Some(Or)
    case "andn" => Some(Andn)
    case "and" => Some(And)
    case "tst" => Some(Tst)
    case "cmpeq" => Some(Cmpeq)
    case "cmplt" => Some(Cmplt)
    case "cmphs" => Some(Cmphs)
    case "cpshreg" => Some(Cpshreg)
    case "ldi" => Some(Ldi)
    case "xori" => Some(Xori)
    case "addi" => Some(Addi)
    case "subi" => Some(Subi)
    case "ori" => Some(Ori)
    case "andni" => Some(Andni)
    case "andi" => Some(Andi)
    case "tsti" => Some(Tsti)
    case "cmpeqi" => Some(Cmpeqi)
    case "ld" => Some(Ld)
    case "st" => Some(St)
    case "ldf" => Some(Ldf)
    case "stf" => Some(Stf)
    case "loop" => Some(Loop)
    case "bf" => Some(Bf)
    case "bt" => Some(Bt)
    case "bsf" => Some(Bsf)
    case "bdf" => Some(Bdf)
    case "jmp" => Some(Jmp)
    case "jsr" => Some(Jsr)
    case _ => None
  }

  function Mnemonic(op: Op): string {
    match op
    case Done => "done"
    case Yield => "yield"
    case Yieldge => "yieldge"
    case Notify => "notify"
    case Softbkpt => "softbkpt"
    case Ret => "ret"
    case Clrf => "clrf"
    case Illegal => "illegal"
    case Jmpr => "jmpr"
    case Jsrr => "jsrr"
    case Ldrpc => "ldrpc"
    case Revb => "revb"
    case Revblo => "revblo"
    case Rorb => "rorb"
    case Ror1 => "ror1"
    case Lsr1 => "lsr1"
    case Asr1 => "asr1"
    case Lsl1 => "lsl1"
    case Bclri => "bclri"
    case Bseti => "bseti"
    case Btsti => "btsti"
    case Mov => "mov"
    case Xor => "xor"
    case Add => "add"
    case Sub => "sub"
    case Or => "or"
    case Andn => "andn"
    case And => "and"
    case Tst => "tst"
    case Cmpeq => "cmpeq"
    case Cmplt => "cmplt"
    case Cmphs => "cmphs"
    case Cpshreg => "cpshreg"
    case Ldi => "ldi"
    case Xori => "xori"
    case Addi => "addi"
    case Subi => "subi"
    case Ori => "ori"
    case Andni => "andni"
    case Andi => "andi"
    case Tsti => "tsti"
    case Cmpeqi => "cmpeqi"
    case Ld => "ld"
    case St => "st"
    case Ldf => "ldf"
    case Stf => "stf"
    case Loop => "loop"
    case Bf => "bf"
    case Bt => "bt"
    case Bsf => "bsf"
    case Bdf => "bdf"
    case Jmp => "jmp"
    case Jsr => "jsr"
  }

  lemma ShortNames(op: Op)
    requires FormatOf(op).NoArgs? || FormatOf(op).J3? || FormatOf(op).F2? || FormatOf(op).R3?
    ensures Named(Mnemonic(op)) == Some(op)
  {
    match op
    case Done =>
    case Yield =>
    case Yieldge =>
    case Notify =>
    case Softbkpt =>
    case Ret =>
    case Clrf =>
    case Illegal =>
    case Jmpr =>
    case Jsrr =>
    case Ldrpc =>
    case Revb =>
    case Revblo =>
    case Rorb =>
    case Ror1 =>
    case Lsr1 =>
    case Asr1 =>
    case Lsl1 =>
    case Cpshreg =>
    case _ =>
  }

  lemma BitNames(op: Op)
    requires FormatOf(op).R3N5? || FormatOf(op).R3S3?
    ensures Named(Mnemonic(op)) == Some(op)
  {
    match op
    case Bclri =>
    case Bseti =>
    case Btsti =>
    case Mov =>
    case Xor =>
    case Add =>
    case Sub =>
    case Or =>
    case Andn =>
    case And =>
    case Tst =>
    case Cmpeq =>
    case Cmplt =>
    case Cmphs =>
    case _ =>
  }

  lemma ImmediateNames(op: Op)
    requires FormatOf(op).R3I8?
    ensures Named(Mnemonic(op)) == Some(op)
  {
    match op
    case Ldi =>
    case Xori =>
    case Addi =>
    case Subi =>
    case Ori =>
    case Andni =>
    case Andi =>
    case Tsti =>
    case Cmpeqi =>
    case Ldf =>
    case Stf =>
    case _ =>
  }

  lemma JumpNames(op: Op)
    requires FormatOf(op).R3D5B3? || FormatOf(op).F2N8? || FormatOf(op).P8? || FormatOf(op).A14?
    ensures Named(Mnemonic(op)) == Some(op)
  {
    match op
    case Ld =>
    case St =>
    case Loop =>
    case Bf =>
    case Bt =>
    case Bsf =>
    case Bdf =>
    case Jmp =>
    case Jsr =>
    case _ =>
  }

  /** Opcode names and instructions match one to one. */
  lemma NamesMatch(op: Op)
    ensures Named(Mnemonic(op)) == Some(op)
  {
    match FormatOf(op)
    case NoArgs | J3 | F2 | R3 => ShortNames(op);
    case R3N5 | R3S3 => BitNames(op);
    case R3I8 => ImmediateNames(op);
    case _ => JumpNames(op);
  }

  lemma ShortNamesBack(name: string)
    requires Named(name).Some?
    ensures var op := Named(name).value;
            FormatOf(op).NoArgs? || FormatOf(op).J3? || FormatOf(op).F2? ==> Mnemonic(op) == name
  {
  }

  lemma RegisterNamesBack(name: string)
    requires Named(name).Some?
    ensures var op := Named(name).value; FormatOf(op).R3? ==> Mnemonic(op) == name
  {
  }

  lemma MiddleNamesBack(name: string)
    requires Named(name).Some?
    ensures var op := Named(name).value; FormatOf(op).R3N5? || FormatOf(op).R3S3? ==> Mnemonic(op) == name
  {
  }

  lemma ImmediateNamesBack(name: string)
    requires Named(name).Some?
    ensures var op := Named(name).value; FormatOf(op).R3I8? ==> Mnemonic(op) == name
  {
  }

  lemma JumpNamesBack(name: string)
    requires Named(name).Some?
    ensures var op := Named(name).value;
            FormatOf(op).R3D5B3? || FormatOf(op).F2N8? || FormatOf(op).P8? || FormatOf(op).A14? ==> Mnemonic(op) == name
  {
  }

  /** And back: a name that is known is the mnemonic of what it names. */
  lemma NamesMatchBack(name: string)
    requires Named(name).Some?
    ensures Mnemonic(Named(name).value) == name
  {
    hide Named, Mnemonic;
    ShortNamesBack(name);
    RegisterNamesBack(name);
    MiddleNamesBack(name);
    ImmediateNamesBack(name);
    JumpNamesBack(name);
  }

  function Base(op: Op): nat {
    match op
    case Done => 0x0000
    case Yield => 0x0000
    case Yieldge => 0x0100
    case Notify => 0x0001
    case Softbkpt => 0x0005
    case Ret => 0x0006
    case Clrf => 0x0007
    case Illegal => 0x0707
    case Jmpr => 0x0008
    case Jsrr => 0x0009
    case Ldrpc => 0x000a
    case Revb => 0x0010
    case Revblo => 0x0011
    case Rorb => 0x0012
    case Ror1 => 0x0014
    case Lsr1 => 0x0015
    case Asr1 => 0x0016
    case Lsl1 => 0x0017
    case Bclri => 0x0020
    case Bseti => 0x0040
    case Btsti => 0x0060
    case Mov => 0x0088
    case Xor => 0x0090
    case Add => 0x0098
    case Sub => 0x00a0
    case Or => 0x00a8
    case Andn => 0x00b0
    case And => 0x00b8
    case Tst => 0x00c0
    case Cmpeq => 0x00c8
    case Cmplt => 0x00d0
    case Cmphs => 0x00d8
    case Cpshreg => 0x06e2
    case Ldi => 0x0800
    case Xori => 0x1000
    case Addi => 0x1800
    case Subi => 0x2000
    case Ori => 0x2800
    case Andni => 0x3000
    case Andi => 0x3800
    case Tsti => 0x4000
    case Cmpeqi => 0x4800
    case Ld => 0x5000
    case St => 0x5800
    case Ldf => 0x6000
    case Stf => 0x6800
    case Loop => 0x7800
    case Bf => 0x7c00
    case Bt => 0x7d00
    case Bsf => 0x7e00
    case Bdf => 0x7f00
    case Jmp => 0x8000
    case Jsr => 0xc000
  }

  function FormatOf(op: Op): Format {
    match op
    case Done | Notify => J3
    case Yield | Yieldge | Softbkpt | Ret | Illegal | Cpshreg => NoArgs
    case Clrf => F2
    case Jmpr | Jsrr | Ldrpc | Revb | Revblo | Rorb | Ror1 | Lsr1 | Asr1 | Lsl1 => R3
    case Bclri | Bseti | Btsti => R3N5
    case Mov | Xor | Add | Sub | Or | Andn | And | Tst | Cmpeq | Cmplt | Cmphs => R3S3
    case Ldi | Xori | Addi | Subi | Ori | Andni | Andi | Tsti | Cmpeqi | Ldf | Stf => R3I8
    case Ld | St => R3D5B3
    case Loop => F2N8
    case Bf | Bt | Bsf | Bdf => P8
    case Jmp | Jsr => A14
  }

  /** Operand fields, from the most significant; unused ones are 0. */
  datatype Fields = Fields(a: nat, b: nat, c: nat)

  predicate Fit(f: Format, o: Fields) {
    match f
    case NoArgs => o == Fields(0, 0, 0)
    case J3 | R3 => o.a < 8 && o.b == 0 && o.c == 0
    case F2 => o.a < 4 && o.b == 0 && o.c == 0
    case R3N5 => o.a < 8 && o.b < 32 && o.c == 0
    case R3S3 => o.a < 8 && o.b < 8 && o.c == 0
    case R3I8 => o.a < 8 && o.b < 256 && o.c == 0
    case R3D5B3 => o.a < 8 && o.b < 32 && o.c < 8
    case F2N8 => o.a < 4 && o.b < 256 && o.c == 0
    case P8 => o.a == 0 && o.b < 256 && o.c == 0
    case A14 => o.a < 16384 && o.b == 0 && o.c == 0
  }

  /** The value of the operand fields. */
  function Layout(f: Format, o: Fields): nat {
    match f
    case NoArgs => 0
    case J3 | F2 | R3 => o.a * 256
    case R3N5 | R3S3 | R3I8 | F2N8 => o.a * 256 + o.b
    case R3D5B3 => o.a * 256 + o.b * 8 + o.c
    case P8 => o.b
    case A14 => o.a
  }

  /** Bitwise or. */
  function BitOr(x: nat, y: nat): nat
    decreases x + y
  {
    if x == 0 && y == 0 then 0
    else 2 * BitOr(x / 2, y / 2) + (if x % 2 == 1 || y % 2 == 1 then 1 else 0)
  }

  function Shl(x: nat, k: nat): nat {
    if k == 0 then x else 2 * Shl(x, k - 1)
  }

  /** The operand bits as the encoders put them together. */
  function Bits(f: Format, o: Fields): nat {
    match f
    case NoArgs => 0
    case J3 | F2 | R3 => Shl(o.a, 8)
    case R3N5 | R3S3 | R3I8 | F2N8 => BitOr(Shl(o.a, 8), o.b)
    case R3D5B3 => BitOr(BitOr(Shl(o.a, 8), Shl(o.b, 3)), o.c)
    case P8 => o.b
    case A14 => o.a
  }

  /** The word: the base of the instruction or-ed with its operand bits. */
  function Word(op: Op, o: Fields): nat {
    BitOr(Base(op), Bits(FormatOf(op), o))
  }

  lemma OrHalves(xm: nat, xl: nat, ym: nat, yl: nat)
    ensures BitOr(2 * xm + xl, 2 * ym + yl)
         == 2 * BitOr(xm + xl / 2, ym + yl / 2) + (if xl % 2 == 1 || yl % 2 == 1 then 1 else 0)
  {
    assert (2 * xm + xl) / 2 == xm + xl / 2 && (2 * ym + yl) / 2 == ym + yl / 2;
    assert (2 * xm + xl) % 2 == xl % 2 && (2 * ym + yl) % 2 == yl % 2;
  }

  /** An or of two numbers is the or of their high parts and of their low parts. */
  lemma {:induction false} OrSplit(k: nat, xh: nat, xl: nat, yh: nat, yl: nat)
    requires xl < Shl(1, k) && yl < Shl(1, k)
    ensures BitOr(xl, yl) < Shl(1, k)
    ensures BitOr(Shl(xh, k) + xl, Shl(yh, k) + yl) == Shl(BitOr(xh, yh), k) + BitOr(xl, yl)
    decreases k
  {
    if k > 0 {
      hide BitOr;
      OrSplit(k - 1, xh, xl / 2, yh, yl / 2);
      OrHalves(Shl(xh, k - 1), xl, Shl(yh, k - 1), yl);
      OrHalves(0, xl, 0, yl);
    }
  }

  lemma {:induction false} OrZero(x: nat)
    ensures BitOr(x, 0) == x && BitOr(0, x) == x
    decreases x
  {
    if x > 0 {
      OrZero(x / 2);
    }
  }

  lemma {:induction false} ShlZero(k: nat)
    ensures Shl(0, k) == 0
  {
    if k > 0 {
      ShlZero(k - 1);
    }
  }

  /** Where one number stops the other begins: their or is their sum. */
  lemma OrIsSum(k: nat, high: nat, low: nat)
    requires low < Shl(1, k)
    ensures BitOr(Shl(high, k), low) == Shl(high, k) + low && BitOr(low, Shl(high, k)) == Shl(high, k) + low
  {
    hide BitOr, Shl;
    ShlZero(k);
    OrSplit(k, high, 0, 0, low);
    OrSplit(k, 0, low, high, 0);
    OrZero(high);
    OrZero(low);
  }

  lemma ShlTwice(x: nat, k: nat)
    ensures Shl(x, k + 2) == 4 * Shl(x, k)
  {
  }

  lemma Shifts(x: nat)
    ensures Shl(x, 3) == 8 * x && Shl(x, 5) == 32 * x && Shl(x, 8) == 256 * x
    ensures Shl(x, 10) == 1024 * x && Shl(x, 11) == 2048 * x && Shl(x, 14) == 16384 * x
  {
    ShlTwice(x, 0);
    ShlTwice(x, 2);
    ShlTwice(x, 4);
    ShlTwice(x, 6);
    ShlTwice(x, 8);
    ShlTwice(x, 10);
    ShlTwice(x, 12);
    ShlTwice(x, 1);
    ShlTwice(x, 3);
    ShlTwice(x, 5);
    ShlTwice(x, 7);
    ShlTwice(x, 9);
    assert Shl(x, 1) == 2 * x;
  }

  lemma BitsAreLayout(f: Format, o: Fields)
    requires Fit(f, o)
    ensures Bits(f, o) == Layout(f, o)
  {
    hide BitOr, Shl;
    Shifts(1);
    Shifts(o.a);
    Shifts(o.b);
    match f
    case R3D5B3 =>
      OrIsSum(8, o.a, Shl(o.b, 3));
      Shifts(o.a * 32 + o.b);
      OrIsSum(3, o.a * 32 + o.b, o.c);
    case R3N5 | R3S3 | R3I8 | F2N8 => OrIsSum(8, o.a, o.b);
    case _ =>
  }

  /** Every base is clear where its format puts the operands. */
  lemma BaseLeavesRoom(op: Op)
    ensures match FormatOf(op)
            case NoArgs => true
            case J3 | F2 | R3 => Base(op) < 256
            case R3N5 => Base(op) < 256 && Base(op) == Base(op) / 32 * 32
            case R3S3 => Base(op) < 256 && Base(op) == Base(op) / 8 * 8
            case R3I8 | R3D5B3 => Base(op) == Base(op) / 2048 * 2048
            case F2N8 => Base(op) == Base(op) / 1024 * 1024
            case P8 => Base(op) == Base(op) / 256 * 256
            case A14 => Base(op) == Base(op) / 16384 * 16384
  {
  }

  lemma BaseAbove(k: nat, m: nat, base: nat, bits: nat)
    requires base == Shl(m, k) && bits < Shl(1, k)
    ensures BitOr(base, bits) == base + bits
  {
    OrIsSum(k, m, bits);
  }

  /** A base that lies below the register field and above the last operand. */
  lemma BaseBetween(k: nat, m: nat, base: nat, a: nat, b: nat)
    requires base == Shl(m, k) && b < Shl(1, k) && base < 256 && b < 256
    ensures BitOr(base, a * 256 + b) == base + (a * 256 + b)
  {
    hide BitOr, Shl;
    Shifts(1);
    Shifts(a);
    ShlZero(8);
    OrSplit(8, 0, base, a, b);
    OrZero(a);
    OrIsSum(k, m, b);
  }

  lemma ShortWordIsSum(op: Op, o: Fields)
    requires Fit(FormatOf(op), o) && (FormatOf(op).NoArgs? || FormatOf(op).J3? || FormatOf(op).F2? || FormatOf(op).R3?)
    ensures Word(op, o) == Sum(op, o)
  {
    hide Base, BitOr, Shl, Bits;
    BaseLeavesRoom(op);
    BitsAreLayout(FormatOf(op), o);
    OrZero(Base(op));
    Shifts(1);
    Shifts(o.a);
    if !FormatOf(op).NoArgs? {
      OrIsSum(8, o.a, Base(op));
    }
  }

  lemma MiddleWordIsSum(op: Op, o: Fields)
    requires Fit(FormatOf(op), o) && (FormatOf(op).R3N5? || FormatOf(op).R3S3?)
    ensures Word(op, o) == Sum(op, o)
  {
    hide Base, BitOr, Shl, Bits;
    var base := Base(op);
    BaseLeavesRoom(op);
    BitsAreLayout(FormatOf(op), o);
    Shifts(1);
    if FormatOf(op).R3N5? {
      Shifts(base / 32);
      BaseBetween(5, base / 32, base, o.a, o.b);
    } else {
      Shifts(base / 8);
      BaseBetween(3, base / 8, base, o.a, o.b);
    }
  }

  lemma LongWordIsSum(op: Op, o: Fields)
    requires Fit(FormatOf(op), o)
    requires FormatOf(op).R3I8? || FormatOf(op).R3D5B3? || FormatOf(op).F2N8? || FormatOf(op).P8? || FormatOf(op).A14?
    ensures Word(op, o) == Sum(op, o)
  {
    hide Base, BitOr, Shl, Bits;
    BaseLeavesRoom(op);
    BitsAreLayout(FormatOf(op), o);
    var base, bits := Base(op), Layout(FormatOf(op), o);
    Shifts(1);
    match FormatOf(op)
    case F2N8 =>
      Shifts(base / 1024);
      BaseAbove(10, base / 1024, base, bits);
    case P8 =>
      Shifts(base / 256);
      BaseAbove(8, base / 256, base, bits);
    case A14 =>
      Shifts(base / 16384);
      BaseAbove(14, base / 16384, base, bits);
    case R3I8 | R3D5B3 =>
      Shifts(base / 2048);
      BaseAbove(11, base / 2048, base, bits);
    case _ =>
  }

  /** The fields overlap neither each other nor the base: the word is their sum. */
  lemma WordIsSum(op: Op, o: Fields)
    requires Fit(FormatOf(op), o)
    ensures Word(op, o) == Sum(op, o)
  {
    hide Word, Sum, Fit;
    match FormatOf(op)
    case NoArgs | J3 | F2 | R3 => ShortWordIsSum(op, o);
    case R3N5 | R3S3 => MiddleWordIsSum(op, o);
    case _ => LongWordIsSum(op, o);
  }

  function Sum(op: Op, o: Fields): nat {
    Base(op) + Layout(FormatOf(op), o)
  }

  datatype Instruction = Instruction(op: Op, o: Fields)

  function TwoRegister(n: nat): Op {
    match n
    case 17 => Mov
    case 18 => Xor
    case 19 => Add
    case 20 => Sub
    case 21 => Or
    case 22 => Andn
    case 23 => And
    case 24 => Tst
    case 25 => Cmpeq
    case 26 => Cmplt
    case _ => Cmphs
  }

  function Immediate(top: nat): Op {
    match top
    case 1 => Ldi
    case 2 => Xori
    case 3 => Addi
    case 4 => Subi
    case 5 => Ori
    case 6 => Andni
    case 7 => Andi
    case 8 => Tsti
    case _ => Cmpeqi
  }

  function DecodeShort(r: nat, low: nat): Option<Instruction> {
    if low == 0 then Some(Instruction(Done, Fields(r, 0, 0)))
    else if low == 1 then Some(Instruction(Notify, Fields(r, 0, 0)))
    else if low == 5 && r == 0 then Some(Instruction(Softbkpt, Fields(0, 0, 0)))
    else if low == 6 && r == 0 then Some(Instruction(Ret, Fields(0, 0, 0)))
    else if low == 7 && r < 4 then Some(Instruction(Clrf, Fields(r, 0, 0)))
    else if low == 7 && r == 7 then Some(Instruction(Illegal, Fields(0, 0, 0)))
    else if low == 8 then Some(Instruction(Jmpr, Fields(r, 0, 0)))
    else if low == 9 then Some(Instruction(Jsrr, Fields(r, 0, 0)))
    else if low == 10 then Some(Instruction(Ldrpc, Fields(r, 0, 0)))
    else if low == 0x10 then Some(Instruction(Revb, Fields(r, 0, 0)))
    else if low == 0x11 then Some(Instruction(Revblo, Fields(r, 0, 0)))
    else if low == 0x12 then Some(Instruction(Rorb, Fields(r, 0, 0)))
    else if low == 0x14 then Some(Instruction(Ror1, Fields(r, 0, 0)))
    else if low == 0x15 then Some(Instruction(Lsr1, Fields(r, 0, 0)))
    else if low == 0x16 then Some(Instruction(Asr1, Fields(r, 0, 0)))
    else if low == 0x17 then Some(Instruction(Lsl1, Fields(r, 0, 0)))
    else if 0x20 <= low < 0x40 then Some(Instruction(Bclri, Fields(r, low - 0x20, 0)))
    else if 0x40 <= low < 0x60 then Some(Instruction(Bseti, Fields(r, low - 0x40, 0)))
    else if 0x60 <= low < 0x80 then Some(Instruction(Btsti, Fields(r, low - 0x60, 0)))
    else if 0x88 <= low < 0xe0 then Some(Instruction(TwoRegister(low / 8), Fields(r, low % 8, 0)))
    else if low == 0xe2 && r == 6 then Some(Instruction(Cpshreg, Fields(0, 0, 0)))
    else None
  }

  function DecodeLong(top: nat, r: nat, low: nat): Option<Instruction>
    requires 1 <= top < 16
  {
    if top <= 9 then Some(Instruction(Immediate(top), Fields(r, low, 0)))
    else if top == 10 then Some(Instruction(Ld, Fields(r, low / 8, low % 8)))
    else if top == 11 then Some(Instruction(St, Fields(r, low / 8, low % 8)))
    else if top == 12 then Some(Instruction(Ldf, Fields(r, low, 0)))
    else if top == 13 then Some(Instruction(Stf, Fields(r, low, 0)))
    else if top == 14 then None
    else if r < 4 then Some(Instruction(Loop, Fields(r, low, 0)))
    else if r == 4 then Some(Instruction(Bf, Fields(0, low, 0)))
    else if r == 5 then Some(Instruction(Bt, Fields(0, low, 0)))
    else if r == 6 then Some(Instruction(Bsf, Fields(0, low, 0)))
    else Some(Instruction(Bdf, Fields(0, low, 0)))
  }

  /** The instruction a 16-bit word stands for. */
  function Decode(w: nat): Option<Instruction> {
    if w >= 0xc000 then Some(Instruction(Jsr, Fields(w - 0xc000, 0, 0)))
    else if w >= 0x8000 then Some(Instruction(Jmp, Fields(w - 0x8000, 0, 0)))
    else if w < 2048 then DecodeShort(w / 256, w % 256)
    else DecodeLong(w / 2048, w / 256 % 8, w % 256)
  }

  /** yield and yieldge are other names of done 0 and done 1. */
  function Canonical(op: Op, o: Fields): Instruction {
    match op
    case Yield => Instruction(Done, Fields(0, 0, 0))
    case Yieldge => Instruction(Done, Fields(1, 0, 0))
    case _ => Instruction(op, o)
  }

  lemma ShortWord(r: nat, low: nat)
    requires r < 8 && low < 256
    ensures r * 256 + low < 2048 && Decode(r * 256 + low) == DecodeShort(r, low)
  {
    var w := r * 256 + low;
    assert w / 256 == r && w % 256 == low;
  }

  lemma LongWord(top: nat, r: nat, low: nat)
    requires 1 <= top < 16 && r < 8 && low < 256
    ensures 2048 <= top * 2048 + r * 256 + low < 0x8000
    ensures Decode(top * 2048 + r * 256 + low) == DecodeLong(top, r, low)
  {
    var w := top * 2048 + r * 256 + low;
    assert w / 256 == top * 8 + r && w % 256 == low;
    assert w / 2048 == top && (top * 8 + r) % 8 == r;
  }

  predicate Decodes(op: Op, o: Fields) {
    Sum(op, o) < 0x1_0000 && Decode(Sum(op, o)) == Some(Canonical(op, o))
  }

  lemma PlainRow(op: Op)
    requires FormatOf(op).NoArgs?
    ensures var r, low := Base(op) / 256, Base(op) % 256;
            r < 8 && Base(op) == r * 256 + low && DecodeShort(r, low) == Some(Canonical(op, Fields(0, 0, 0)))
  {
    match op
    case Yield =>
    case Yieldge =>
    case Softbkpt =>
    case Ret =>
    case Illegal =>
    case Cpshreg =>
    case _ =>
  }

  lemma PlainDecodes(op: Op, o: Fields)
    requires Fit(FormatOf(op), o) && FormatOf(op).NoArgs?
    ensures Decodes(op, o)
  {
    hide Base, DecodeShort, Canonical;
    PlainRow(op);
    ShortWord(Base(op) / 256, Base(op) % 256);
  }

  lemma FlagRow(op: Op, r: nat)
    requires FormatOf(op).J3? || (FormatOf(op).F2? && r < 4)
    ensures Base(op) < 256 && DecodeShort(r, Base(op)) == Some(Instruction(op, Fields(r, 0, 0)))
  {
    match op
    case Done =>
    case Notify =>
    case Clrf =>
    case _ =>
  }

  lemma FlagDecodes(op: Op, o: Fields)
    requires Fit(FormatOf(op), o) && (FormatOf(op).J3? || FormatOf(op).F2?)
    ensures Decodes(op, o)
  {
    hide Base, DecodeShort;
    FlagRow(op, o.a);
    ShortWord(o.a, Base(op));
  }

  lemma OneRegisterRow(op: Op, r: nat)
    requires FormatOf(op).R3?
    ensures Base(op) < 256 && DecodeShort(r, Base(op)) == Some(Instruction(op, Fields(r, 0, 0)))
  {
    match op
    case Jmpr =>
    case Jsrr =>
    case Ldrpc =>
    case Revb =>
    case Revblo =>
    case Rorb =>
    case Ror1 =>
    case Lsr1 =>
    case Asr1 =>
    case Lsl1 =>
    case _ =>
  }

  lemma OneRegisterDecodes(op: Op, o: Fields)
    requires Fit(FormatOf(op), o) && FormatOf(op).R3?
    ensures Decodes(op, o)
  {
    hide Base, DecodeShort;
    OneRegisterRow(op, o.a);
    ShortWord(o.a, Base(op));
  }

  lemma BitDecodes(op: Op, o: Fields)
    requires Fit(FormatOf(op), o) && FormatOf(op).R3N5?
    ensures Decodes(op, o)
  {
    ShortWord(o.a, Base(op) + o.b);
  }

  lemma TwoRegisterRow(op: Op)
    requires FormatOf(op).R3S3?
    ensures Base(op) % 8 == 0 && TwoRegister(Base(op) / 8) == op && 0x88 <= Base(op) < 0xe0
  {
    match op
    case Mov =>
    case Xor =>
    case Add =>
    case Sub =>
    case Or =>
    case Andn =>
    case And =>
    case Tst =>
    case Cmpeq =>
    case Cmplt =>
    case Cmphs =>
    case _ =>
  }

  lemma TwoRegisterShort(op: Op, r: nat, b: nat)
    requires FormatOf(op).R3S3? && b < 8
    ensures Base(op) + b < 256 && DecodeShort(r, Base(op) + b) == Some(Instruction(op, Fields(r, b, 0)))
  {
    hide Base, TwoRegister;
    TwoRegisterRow(op);
    var low := Base(op) + b;
    assert low / 8 == Base(op) / 8 && low % 8 == b;
  }

  lemma TwoRegisterDecodes(op: Op, o: Fields)
    requires Fit(FormatOf(op), o) && FormatOf(op).R3S3?
    ensures Decodes(op, o)
  {
    hide Base, DecodeShort;
    TwoRegisterShort(op, o.a, o.b);
    ShortWord(o.a, Base(op) + o.b);
  }

  lemma ImmediateRow(op: Op)
    requires FormatOf(op).R3I8?
    ensures var top := Base(op) / 2048;
            1 <= top < 16 && Base(op) == top * 2048
            && forall r, low :: DecodeLong(top, r, low) == Some(Instruction(op, Fields(r, low, 0)))
  {
    match op
    case Ldi =>
    case Xori =>
    case Addi =>
    case Subi =>
    case Ori =>
    case Andni =>
    case Andi =>
    case Tsti =>
    case Cmpeqi =>
    case Ldf =>
    case Stf =>
    case _ =>
  }

  lemma ImmediateDecodes(op: Op, o: Fields)
    requires Fit(FormatOf(op), o) && FormatOf(op).R3I8?
    ensures Decodes(op, o)
  {
    hide Base, DecodeLong;
    ImmediateRow(op);
    LongWord(Base(op) / 2048, o.a, o.b);
  }

  lemma MemoryDecodes(op: Op, o: Fields)
    requires Fit(FormatOf(op), o) && FormatOf(op).R3D5B3?
    ensures Decodes(op, o)
  {
    var low := o.b * 8 + o.c;
    assert low / 8 == o.b && low % 8 == o.c;
    LongWord(Base(op) / 2048, o.a, low);
  }

  lemma LoopDecodes(op: Op, o: Fields)
    requires Fit(FormatOf(op), o) && FormatOf(op).F2N8?
    ensures Decodes(op, o)
  {
    assert op == Loop;
    LongWord(15, o.a, o.b);
  }

  lemma BranchRow(op: Op)
    requires FormatOf(op).P8?
    ensures var r := Base(op) / 256 - 0x78;
            4 <= r < 8 && Base(op) == 15 * 2048 + r * 256
            && forall low :: DecodeLong(15, r, low) == Some(Instruction(op, Fields(0, low, 0)))
  {
    match op
    case Bf =>
    case Bt =>
    case Bsf =>
    case Bdf =>
    case _ =>
  }

  lemma BranchDecodes(op: Op, o: Fields)
    requires Fit(FormatOf(op), o) && FormatOf(op).P8?
    ensures Decodes(op, o)
  {
    hide Base, DecodeLong;
    BranchRow(op);
    LongWord(15, Base(op) / 256 - 0x78, o.b);
  }

  lemma JumpDecodes(op: Op, o: Fields)
    requires Fit(FormatOf(op), o) && FormatOf(op).A14?
    ensures Decodes(op, o)
  {
    match op
    case Jmp =>
    case Jsr =>
    case _ =>
  }

  /** Every word fits 16 bits and decodes to the instruction it was made from. */
  lemma WordDecodes(op: Op, o: Fields)
    requires Fit(FormatOf(op), o)
    ensures Word(op, o) < 0x1_0000 && Decode(Word(op, o)) == Some(Canonical(op, o))
  {
    WordIsSum(op, o);
    SumDecodes(op, o);
  }

  lemma SumDecodes(op: Op, o: Fields)
    requires Fit(FormatOf(op), o)
    ensures Decodes(op, o)
  {
    match FormatOf(op)
    case NoArgs => PlainDecodes(op, o);
    case J3 | F2 => FlagDecodes(op, o);
    case R3 => OneRegisterDecodes(op, o);
    case R3N5 => BitDecodes(op, o);
    case R3S3 => TwoRegisterDecodes(op, o);
    case R3I8 => ImmediateDecodes(op, o);
    case R3D5B3 => MemoryDecodes(op, o);
    case F2N8 => LoopDecodes(op, o);
    case P8 => BranchDecodes(op, o);
    case A14 => JumpDecodes(op, o);
  }

  predicate Encodes(d: Option<Instruction>, w: nat) {
    d.Some? && Fit(FormatOf(d.value.op), d.value.o) && Sum(d.value.op, d.value.o) == w
  }

  lemma TwoRegisterEncodes(r: nat, low: nat)
    requires r < 8 && 0x88 <= low < 0xe0
    ensures Encodes(DecodeShort(r, low), r * 256 + low)
  {
    var op := TwoRegister(low / 8);
    assert FormatOf(op) == R3S3 && Base(op) == low / 8 * 8;
  }

  lemma BitEncodes(r: nat, low: nat)
    requires r < 8 && 0x20 <= low < 0x80
    ensures Encodes(DecodeShort(r, low), r * 256 + low)
  {
  }

  lemma FlagBase()
    ensures Base(Done) == 0 && Base(Notify) == 1 && Base(Softbkpt) == 5 && Base(Ret) == 6 && Base(Clrf) == 7
            && Base(Illegal) == 0x0707
  {
  }

  lemma FlagEncodes(r: nat, low: nat)
    requires r < 8 && low <= 7 && DecodeShort(r, low).Some?
    ensures Encodes(DecodeShort(r, low), r * 256 + low)
  {
    hide Base;
    FlagBase();
    match low
    case 0 => assert DecodeShort(r, low) == Some(Instruction(Done, Fields(r, 0, 0)));
    case 1 => assert DecodeShort(r, low) == Some(Instruction(Notify, Fields(r, 0, 0)));
    case 5 => assert DecodeShort(r, low) == Some(Instruction(Softbkpt, Fields(0, 0, 0)));
    case 6 => assert DecodeShort(r, low) == Some(Instruction(Ret, Fields(0, 0, 0)));
    case 7 => assert DecodeShort(r, low) == Some(if r < 4 then Instruction(Clrf, Fields(r, 0, 0))
        else Instruction(Illegal, Fields(0, 0, 0)));
    case _ =>
  }

  lemma OneRegisterEncodes(r: nat, low: nat)
    requires r < 8 && 8 <= low < 0x20 && DecodeShort(r, low).Some?
    ensures Encodes(DecodeShort(r, low), r * 256 + low)
  {
    hide Base;
    var op := DecodeShort(r, low).value.op;
    OneRegisterBase();
    assert FormatOf(op).R3?;
  }

  /** The numbers of the one-register instructions. */
  lemma OneRegisterBase()
    ensures Base(Jmpr) == 8 && Base(Jsrr) == 9 && Base(Ldrpc) == 10 && Base(Revb) == 0x10 && Base(Revblo) == 0x11
         && Base(Rorb) == 0x12 && Base(Ror1) == 0x14 && Base(Lsr1) == 0x15 && Base(Asr1) == 0x16 && Base(Lsl1) == 0x17
  {
  }

  lemma ShortEncodes(r: nat, low: nat)
    requires r < 8 && low < 256 && DecodeShort(r, low).Some?
    ensures Encodes(DecodeShort(r, low), r * 256 + low)
  {
    if low < 8 {
      FlagEncodes(r, low);
    } else if low < 0x20 {
      OneRegisterEncodes(r, low);
    } else if low < 0x80 {
      BitEncodes(r, low);
    } else if 0x88 <= low < 0xe0 {
      TwoRegisterEncodes(r, low);
    }
  }

  lemma ImmediateEncodes(top: nat, r: nat, low: nat)
    requires 1 <= top <= 9 && r < 8 && low < 256
    ensures Encodes(DecodeLong(top, r, low), top * 2048 + r * 256 + low)
  {
    assert Base(Immediate(top)) == top * 2048 && FormatOf(Immediate(top)) == R3I8;
  }

  lemma BranchEncodes(r: nat, low: nat)
    requires r < 8 && low < 256
    ensures Encodes(DecodeLong(15, r, low), 15 * 2048 + r * 256 + low)
  {
  }

  lemma LongEncodes(top: nat, r: nat, low: nat)
    requires 1 <= top < 16 && r < 8 && low < 256 && DecodeLong(top, r, low).Some?
    ensures Encodes(DecodeLong(top, r, low), top * 2048 + r * 256 + low)
  {
    if top <= 9 {
      ImmediateEncodes(top, r, low);
    } else if top == 15 {
      BranchEncodes(r, low);
    }
  }

  lemma Halves(w: nat)
    ensures w / 256 * 256 + w % 256 == w
    ensures w / 2048 * 2048 + w / 256 % 8 * 256 + w % 256 == w
  {
  }

  /** And a word that decodes encodes back to itself: no two words share an
      instruction. */
  lemma DecodedEncodes(w: nat)
    requires w < 0x1_0000 && Decode(w).Some?
    ensures var i := Decode(w).value; Fit(FormatOf(i.op), i.o) && Word(i.op, i.o) == w
  {
    DecodedSums(w);
    WordIsSum(Decode(w).value.op, Decode(w).value.o);
  }

  lemma DecodedSums(w: nat)
    requires w < 0x1_0000 && Decode(w).Some?
    ensures Encodes(Decode(w), w)
  {
    Halves(w);
    if w < 2048 {
      ShortEncodes(w / 256, w % 256);
    } else if w < 0x8000 {
      LongEncodes(w / 2048, w / 256 % 8, w % 256);
    }
  }
}
