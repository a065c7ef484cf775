/** The instruction set by number: what each mnemonic of tools/mx51_sdma_set.pm is encoded
    as, with no table of bases in between. */
module Encodings {
  import opened Opcodes

  const IMMEDIATES := ["ldi", "xori", "addi", "subi", "ori", "andni", "andi", "tsti", "cmpeqi"]
  const REGISTER_PAIRS := ["mov", "xor", "add", "sub", "or", "andn", "and", "tst", "cmpeq", "cmplt", "cmphs"]
  const BITS := ["bclri", "bseti", "btsti"]
  const SHIFTS := ["revb", "revblo", "rorb", "ror1", "lsr1", "asr1", "lsl1"]
  const JUMPS := ["jmpr", "jsrr", "ldrpc"]
  const BRANCHES := ["bf", "bt", "bsf", "bdf"]

  /** A mnemonic is assembled in format `f` to word `w` from operand fields `o`. */
  predicate Makes(name: string, f: Format, o: Fields, w: nat) {
    Named(name).Some? && var op := Named(name).value; FormatOf(op) == f && Fit(f, o) && Word(op, o) == w
  }

  lemma MakesSum(op: Op, o: Fields)
    requires Fit(FormatOf(op), o)
    ensures Makes(Mnemonic(op), FormatOf(op), o, Base(op) + Layout(FormatOf(op), o))
  {
    hide Named, Mnemonic, FormatOf, Base, Word, Fit;
    NamesMatch(op);
    WordIsSum(op, o);
  }

  /** Immediate operations: the top five bits count from 1. */
  lemma Immediates(k: nat, r: nat, i: nat)
    requires k < |IMMEDIATES| && r < 8 && i < 256
    ensures Makes(IMMEDIATES[k], R3I8, Fields(r, i, 0), (k + 1) * 2048 + r * 256 + i)
  {
    hide Makes, Word;
    var ops := [Ldi, Xori, Addi, Subi, Ori, Andni, Andi, Tsti, Cmpeqi];
    MakesSum(ops[k], Fields(r, i, 0));
  }

  /** Register pairs: the low byte counts from 0x88 in steps of 8. */
  lemma RegisterPairs(k: nat, r: nat, s: nat)
    requires k < |REGISTER_PAIRS| && r < 8 && s < 8
    ensures Makes(REGISTER_PAIRS[k], R3S3, Fields(r, s, 0), r * 256 + 0x88 + 8 * k + s)
  {
    hide Makes, Word;
    var ops := [Mov, Xor, Add, Sub, Or, Andn, And, Tst, Cmpeq, Cmplt, Cmphs];
    MakesSum(ops[k], Fields(r, s, 0));
  }

  /** Single bits: the low byte counts from 0x20 in steps of 32. */
  lemma SingleBits(k: nat, r: nat, n: nat)
    requires k < |BITS| && r < 8 && n < 32
    ensures Makes(BITS[k], R3N5, Fields(r, n, 0), r * 256 + 32 * (k + 1) + n)
  {
    hide Makes, Word;
    var ops := [Bclri, Bseti, Btsti];
    MakesSum(ops[k], Fields(r, n, 0));
  }

  /** Shifts count from 0x10, with 0x13 left out; jumps through a register from 8. */
  lemma OneRegister(k: nat, r: nat)
    requires k < |SHIFTS| && r < 8
    ensures Makes(SHIFTS[k], R3, Fields(r, 0, 0), r * 256 + 0x10 + k + if k >= 3 then 1 else 0)
    ensures k < |JUMPS| ==> Makes(JUMPS[k], R3, Fields(r, 0, 0), r * 256 + 8 + k)
  {
    hide Makes, Word;
    var shifts, jumps := [Revb, Revblo, Rorb, Ror1, Lsr1, Asr1, Lsl1], [Jmpr, Jsrr, Ldrpc];
    MakesSum(shifts[k], Fields(r, 0, 0));
    if k < |JUMPS| {
      MakesSum(jumps[k], Fields(r, 0, 0));
    }
  }

  /** Branches: the high byte counts from 0x7c; the displacement is the low byte. */
  lemma Branches(k: nat, p: nat)
    requires k < |BRANCHES| && p < 256
    ensures Makes(BRANCHES[k], P8, Fields(0, p, 0), (0x7c + k) * 256 + p)
  {
    hide Makes, Word;
    var ops := [Bf, Bt, Bsf, Bdf];
    MakesSum(ops[k], Fields(0, p, 0));
  }

  /** Loads and stores of memory, */
  lemma LoadsAndStores(r: nat, d: nat, b: nat)
    requires r < 8 && d < 32 && b < 8
    ensures Makes("ld", R3D5B3, Fields(r, d, b), 0x5000 + r * 256 + d * 8 + b)
    ensures Makes("st", R3D5B3, Fields(r, d, b), 0x5800 + r * 256 + d * 8 + b)
  {
    hide Makes, Word;
    MakesSum(Ld, Fields(r, d, b));
    MakesSum(St, Fields(r, d, b));
  }

  /** and of the functional units. */
  lemma UnitTransfers(r: nat, u: nat)
    requires r < 8 && u < 256
    ensures Makes("ldf", R3I8, Fields(r, u, 0), 0x6000 + r * 256 + u)
    ensures Makes("stf", R3I8, Fields(r, u, 0), 0x6800 + r * 256 + u)
  {
    hide Makes, Word;
    MakesSum(Ldf, Fields(r, u, 0));
    MakesSum(Stf, Fields(r, u, 0));
  }

  /** Loops, */
  lemma Loops(f: nat, n: nat)
    requires f < 4 && n < 256
    ensures Makes("loop", F2N8, Fields(f, n, 0), 0x7800 + f * 256 + n)
  {
    hide Makes, Word;
    MakesSum(Loop, Fields(f, n, 0));
  }

  /** and absolute jumps. */
  lemma Jumps(a: nat)
    requires a < 16384
    ensures Makes("jmp", A14, Fields(a, 0, 0), 0x8000 + a) && Makes("jsr", A14, Fields(a, 0, 0), 0xc000 + a)
  {
    hide Makes, Word;
    MakesSum(Jmp, Fields(a, 0, 0));
    MakesSum(Jsr, Fields(a, 0, 0));
  }

  /** Signals to the scheduler and the host, and clearing of flags. */
  lemma Controls(j: nat, f: nat)
    requires j < 8 && f < 4
    ensures Makes("done", J3, Fields(j, 0, 0), j * 256) && Makes("notify", J3, Fields(j, 0, 0), j * 256 + 1)
    ensures Makes("clrf", F2, Fields(f, 0, 0), f * 256 + 7)
  {
    hide Makes, Word;
    MakesSum(Done, Fields(j, 0, 0));
    MakesSum(Notify, Fields(j, 0, 0));
    MakesSum(Clrf, Fields(f, 0, 0));
  }

  /** Instructions without operands. */
  lemma Plain()
    ensures Makes("yield", NoArgs, Fields(0, 0, 0), 0x0000) && Makes("yieldge", NoArgs, Fields(0, 0, 0), 0x0100)
    ensures Makes("softbkpt", NoArgs, Fields(0, 0, 0), 0x0005) && Makes("ret", NoArgs, Fields(0, 0, 0), 0x0006)
    ensures Makes("illegal", NoArgs, Fields(0, 0, 0), 0x0707) && Makes("cpshreg", NoArgs, Fields(0, 0, 0), 0x06e2)
  {
    hide Makes, Word;
    MakesSum(Yield, Fields(0, 0, 0));
    MakesSum(Yieldge, Fields(0, 0, 0));
    MakesSum(Softbkpt, Fields(0, 0, 0));
    MakesSum(Ret, Fields(0, 0, 0));
    MakesSum(Illegal, Fields(0, 0, 0));
    MakesSum(Cpshreg, Fields(0, 0, 0));
  }

  /** These rows cover every mnemonic. */
  lemma NoOtherMnemonics(op: Op)
    ensures var name := Mnemonic(op);
            || name in IMMEDIATES || name in REGISTER_PAIRS || name in BITS || name in SHIFTS || name in JUMPS
            || name in BRANCHES
            || name in ["ld", "st", "ldf", "stf", "loop", "jmp", "jsr", "done", "notify", "clrf", "yield", "yieldge",
                        "softbkpt", "ret", "illegal", "cpshreg"]
  {
  }
}
