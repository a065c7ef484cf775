/** The two-pass assembler (tools/sdma_asm.pl and the operand encoders of
    tools/mx51_sdma_set.pm), over source lines already cut into label, opcode and
    arguments. */
module Assembler {
  import opened Opcodes

  /** The argument text: a comma list, or `ra,(rb,displacement)`. */
  datatype Args = Listed(items: seq<string>) | Indexed(ra: string, rb: string, displacement: string)

  datatype Statement = Statement(name: string, args: Args)

  datatype Line = Line(labeled: Option<string>, code: Option<Statement>)

  type Labels = map<string, nat>

  // ---- operands ----

  predicate Digits(s: string) {
    forall i :: 0 <= i < |s| ==> '0' <= s[i] <= '9'
  }

  function Decimal(s: string): nat
    requires Digits(s)
  {
    if s == "" then 0 else Decimal(s[..|s| - 1]) * 10 + (s[|s| - 1] as int - '0' as int)
  }

  function HexDigit(c: char): Option<nat> {
    if '0' <= c <= '9' then Some(c as int - '0' as int)
    else if 'a' <= c <= 'f' then Some(c as int - 'a' as int + 10)
    else if 'A' <= c <= 'F' then Some(c as int - 'A' as int + 10)
    else None
  }

  function Hex(s: string): Option<nat> {
    if s == "" then Some(0)
    else
      var high, low := Hex(s[..|s| - 1]), HexDigit(s[|s| - 1]);
      if high.Some? && low.Some? then Some(high.value * 16 + low.value) else None
  }

  /** A hexadecimal or a signed decimal literal. */
  function Number(s: string): Option<int> {
    if |s| > 2 && s[..2] == "0x" && Hex(s[2..]).Some? then Some(Hex(s[2..]).value)
    else if |s| > 1 && s[0] == '-' && Digits(s[1..]) then Some(-(Decimal(s[1..]) as int))
    else if |s| > 0 && Digits(s) then Some(Decimal(s))
    else None
  }

  /** The usual decimal text of a number. */
  function Text(n: nat): (s: string)
    ensures |s| > 0 && Digits(s)
  {
    var last := [('0' as int + n % 10) as char];
    if n < 10 then last else Text(n / 10) + last
  }

  /** Decimal literals, of either sign, read back as the number written. */
  lemma {:induction false} DecimalOfText(n: nat)
    ensures Decimal(Text(n)) == n
  {
    if n >= 10 {
      DecimalOfText(n / 10);
      assert Text(n)[..|Text(n)| - 1] == Text(n / 10);
    } else {
      assert Text(n)[..|Text(n)| - 1] == "";
    }
  }

  /** The usual hexadecimal text of a number. */
  function HexText(n: nat): (s: string)
    ensures |s| > 0
  {
    var d := n % 16;
    var last := [if d < 10 then ('0' as int + d) as char else ('a' as int + d - 10) as char];
    if n < 16 then last else HexText(n / 16) + last
  }

  lemma {:induction false} HexOfText(n: nat)
    ensures Hex(HexText(n)) == Some(n)
  {
    var text := HexText(n);
    var d := n % 16;
    assert HexDigit(text[|text| - 1]) == Some(d);
    if n >= 16 {
      HexOfText(n / 16);
      assert text[..|text| - 1] == HexText(n / 16);
    } else {
      assert text[..|text| - 1] == "";
    }
  }

  /** Literals read back as the number written: decimal of either sign, and
      hexadecimal. */
  lemma NumberOfText(n: nat)
    ensures Number(Text(n)) == Some(n) && Number("-" + Text(n)) == Some(0 - n) && Number("0x" + HexText(n)) == Some(n)
  {
    DecimalOfText(n);
    HexOfText(n);
    var minus, hex := "-" + Text(n), "0x" + HexText(n);
    assert minus[1..] == Text(n);
    assert hex[..2] == "0x" && hex[2..] == HexText(n);
    if |Text(n)| > 2 {
      assert Text(n)[1] != 'x';
    }
  }

  function Register(s: string): (r: Option<nat>)
    ensures r.Some? ==> r.value < 8
  {
    if |s| == 2 && s[0] == 'r' && '0' <= s[1] <= '7' then Some(s[1] as int - '0' as int) else None
  }

  /** A literal for a field of `size` values: unsigned, or negative down to the
      sign bit, and cut to the field. */
  function Literal(s: string, size: nat): (r: Option<nat>)
    requires size > 0
    ensures r.Some? ==> r.value < size
  {
    match Number(s)
    case None => None
    case Some(n) => if n >= size || 2 * n < -(size as int) then None else Some(n % size)
  }

  /** A literal, or the distance from the next word to a label. */
  function Distance(s: string, labels: Labels, at: nat): Option<int> {
    if Number(s).Some? then Number(s)
    else if s in labels then Some(labels[s] - (at + 1))
    else None
  }

  function Both(a: Option<nat>, b: Option<nat>): Option<Fields> {
    if a.Some? && b.Some? then Some(Fields(a.value, b.value, 0)) else None
  }

  function Single(a: Option<nat>): Option<Fields> {
    if a.Some? then Some(Fields(a.value, 0, 0)) else None
  }

  function Target(d: Option<int>): Option<nat> {
    if d.Some? && -128 <= d.value <= 127 then Some(d.value % 256) else None
  }

  function Span(d: Option<int>): Option<nat> {
    if d.Some? && 1 <= d.value <= 255 then Some(d.value) else None
  }

  /** The operand fields of a statement assembled at word `at`. */
  function Operands(f: Format, args: Args, labels: Labels, at: nat): (o: Option<Fields>)
    ensures o.Some? ==> Fit(f, o.value)
  {
    match args
    case Indexed(ra, rb, d) =>
      if f.R3D5B3? && Register(ra).Some? && Literal(d, 32).Some? && Register(rb).Some? && Number(d).value >= 0
      then Some(Fields(Register(ra).value, Literal(d, 32).value, Register(rb).value)) else None
    case Listed(items) =>
      match f
      case NoArgs => if |items| == 0 then Some(Fields(0, 0, 0)) else None
      case J3 => if |items| == 1 then Single(Literal(items[0], 8)) else None
      case F2 => if |items| == 1 then Single(Literal(items[0], 4)) else None
      case R3 => if |items| == 1 then Single(Register(items[0])) else None
      case R3N5 => if |items| == 2 then Both(Register(items[0]), Literal(items[1], 32)) else None
      case R3S3 => if |items| == 2 then Both(Register(items[0]), Register(items[1])) else None
      case R3I8 => if |items| == 2 then Both(Register(items[0]), Literal(items[1], 256)) else None
      case R3D5B3 => None
      case F2N8 => if |items| == 2 then Both(Literal(items[1], 4), Span(Distance(items[0], labels, at))) else None
      case P8 => if |items| == 1 then Both(Some(0), Target(Distance(items[0], labels, at))) else None
      case A14 => if |items| == 1 then Single(Literal(items[0], 16384)) else None
  }

  predicate Known(s: Statement) {
    Named(s.name).Some?
  }

  /** The word of a statement, if its arguments are good. */
  function Encoded(s: Statement, labels: Labels, at: nat): Option<nat>
    requires Known(s)
  {
    var op := Named(s.name).value;
    var o := Operands(FormatOf(op), s.args, labels, at);
    if o.Some? then Some(Word(op, o.value)) else None
  }

  // ---- what is to be assembled ----

  /** The statements of a source, in order: statement `i` is word `i`. */
  function Statements(source: seq<Line>): seq<Statement> {
    if source == [] then []
    else
      var rest, last := Statements(source[..|source| - 1]), source[|source| - 1];
      if last.code.Some? then rest + [last.code.value] else rest
  }

  /** Every label, at the number of statements before it. */
  function LabelsOf(source: seq<Line>): Labels {
    if source == [] then map[]
    else
      var earlier, last := source[..|source| - 1], source[|source| - 1];
      if last.labeled.Some? then LabelsOf(earlier)[last.labeled.value := |Statements(earlier)|] else LabelsOf(earlier)
  }

  predicate Distinct(source: seq<Line>) {
    forall i, j :: 0 <= i < j < |source| && source[i].labeled.Some? ==> source[i].labeled != source[j].labeled
  }

  predicate AllKnown(code: seq<Statement>) {
    forall i :: 0 <= i < |code| ==> Known(code[i])
  }

  predicate AllEncoded(code: seq<Statement>, labels: Labels) {
    AllKnown(code) && forall i :: 0 <= i < |code| ==> Encoded(code[i], labels, i).Some?
  }

  predicate Assembles(source: seq<Line>) {
    Distinct(source) && AllEncoded(Statements(source), LabelsOf(source))
  }

  function Code(code: seq<Statement>, labels: Labels): (r: seq<nat>)
    requires AllEncoded(code, labels)
    ensures |r| == |code|
  {
    seq(|code|, i requires 0 <= i < |code| => Encoded(code[i], labels, i).value)
  }

  /** Every line with a statement is assembled, at the number of statements before it, */
  lemma {:induction false} LineIsStatement(source: seq<Line>, k: nat)
    requires k < |source| && source[k].code.Some?
    ensures |Statements(source[..k])| < |Statements(source)|
    ensures Statements(source)[|Statements(source[..k])|] == source[k].code.value
    decreases |source|
  {
    var earlier := source[..|source| - 1];
    if k < |earlier| {
      assert earlier[..k] == source[..k];
      LineIsStatement(earlier, k);
    } else {
      assert source[..k] == earlier;
    }
  }

  /** and nothing else is. */
  lemma {:induction false} StatementIsLine(source: seq<Line>, i: nat)
    requires i < |Statements(source)|
    ensures exists k :: 0 <= k < |source| && source[k].code == Some(Statements(source)[i])
                        && |Statements(source[..k])| == i
    decreases |source|
  {
    var earlier := source[..|source| - 1];
    if i < |Statements(earlier)| {
      StatementIsLine(earlier, i);
      var k :| 0 <= k < |earlier| && earlier[k].code == Some(Statements(earlier)[i]) && |Statements(earlier[..k])| == i;
      assert earlier[..k] == source[..k] && source[k] == earlier[k];
    } else {
      assert source[..|source| - 1] == earlier;
    }
  }

  // ---- the passes ----

  lemma StatementsPush(source: seq<Line>, n: nat)
    requires n < |source|
    ensures var next := source[n];
            && Statements(source[..n + 1])
               == (if next.code.Some? then Statements(source[..n]) + [next.code.value] else Statements(source[..n]))
            && LabelsOf(source[..n + 1])
               == if next.labeled.Some? then LabelsOf(source[..n])[next.labeled.value := |Statements(source[..n])|]
                  else LabelsOf(source[..n])
  {
    assert source[..n + 1][..n] == source[..n];
  }

  lemma EncodedPush(code: seq<Statement>, s: Statement, labels: Labels)
    ensures AllKnown(code + [s]) <==> AllKnown(code) && Known(s)
    ensures AllEncoded(code + [s], labels) <==> AllEncoded(code, labels) && Known(s) && Encoded(s, labels, |code|).Some?
    ensures AllEncoded(code + [s], labels)
            ==> Code(code + [s], labels) == Code(code, labels) + [Encoded(s, labels, |code|).value]
  {
    hide Encoded, Named;
    var all := code + [s];
    assert all[|code|] == s && forall i :: 0 <= i < |code| ==> all[i] == code[i];
    if AllKnown(all) {
      assert forall i :: 0 <= i < |code| ==> Known(all[i]);
    }
    if AllEncoded(all, labels) {
      assert forall i :: 0 <= i < |code| ==> Encoded(all[i], labels, i).Some?;
    }
  }

  /** The labels of a source are those its lines carry. */
  lemma {:induction false} LabelKeys(source: seq<Line>, l: string)
    ensures l in LabelsOf(source) <==> exists i :: 0 <= i < |source| && source[i].labeled == Some(l)
  {
    if source != [] {
      var earlier := source[..|source| - 1];
      LabelKeys(earlier, l);
      if exists i :: 0 <= i < |source| && source[i].labeled == Some(l) {
        var i :| 0 <= i < |source| && source[i].labeled == Some(l);
        assert i < |earlier| ==> earlier[i].labeled == Some(l);
      }
    }
  }

  /** First pass: label addresses, and whether every opcode is known. None for a
      label defined twice, which ends the program. */
  method FirstPass(source: seq<Line>) returns (labels: Option<Labels>, ok: bool)
    ensures labels.Some? <==> Distinct(source)
    ensures ok && labels.Some? ==> AllKnown(Statements(source)) && labels.value == LabelsOf(source)
    ensures !ok ==> !AllKnown(Statements(source)) || !Distinct(source)
  {
    var table: Labels := map[];
    var objectcode := 0;
    ok := true;
    for n := 0 to |source|
      invariant table.Keys == LabelsOf(source[..n]).Keys && Distinct(source[..n])
      invariant ok <==> AllKnown(Statements(source[..n]))
      invariant ok ==> table == LabelsOf(source[..n]) && objectcode == |Statements(source[..n])|
    {
      hide Named, LabelsOf;
      StatementsPush(source, n);
      var line := source[n];
      if line.labeled.Some? {
        var name := line.labeled.value;
        LabelKeys(source[..n], name);
        if name in table {
          return None, false;
        }
        table := table[name := objectcode];
      }
      if line.code.Some? {
        EncodedPush(Statements(source[..n]), line.code.value, table);
        if Named(line.code.value.name).None? {
          ok := false;
        } else {
          objectcode := objectcode + 1;
        }
      }
    }
    assert source[..|source|] == source;
    labels := Some(table);
  }

  /** Second pass: the words, and whether every line was good. */
  method SecondPass(source: seq<Line>, labels: Labels) returns (objectcode: seq<nat>, ok: bool)
    ensures ok <==> AllEncoded(Statements(source), labels)
    ensures ok ==> objectcode == Code(Statements(source), labels)
  {
    objectcode, ok := [], true;
    for n := 0 to |source|
      invariant ok <==> AllEncoded(Statements(source[..n]), labels)
      invariant ok ==> objectcode == Code(Statements(source[..n]), labels)
    {
      StatementsPush(source, n);
      if source[n].code.Some? {
        var s := source[n].code.value;
        EncodedPush(Statements(source[..n]), s, labels);
        var op := Named(s.name);
        if op.None? {
          ok := false;
        } else {
          var o := Operands(FormatOf(op.value), s.args, labels, |objectcode|);
          if o.None? {
            ok := false;
          } else {
            objectcode := objectcode + [Word(op.value, o.value)];
          }
        }
      }
    }
    assert source[..|source|] == source;
  }

  // ---- what is legal ----

  function RegisterName(r: nat): string
    requires r < 8
  {
    ['r', '0' + r as char]
  }

  predicate IsRegister(text: string) {
    exists r :: 0 <= r < 8 && text == RegisterName(r)
  }

  predicate IsHexDigit(c: char) {
    c in "0123456789abcdefABCDEF"
  }

  /** A hexadecimal literal: `0x` and digits of either case. */
  predicate IsHexLiteral(text: string) {
    |text| > 2 && text[..2] == "0x" && forall i :: 2 <= i < |text| ==> IsHexDigit(text[i])
  }

  /** A decimal literal: digits, with or without a minus sign. */
  predicate IsDecimalLiteral(text: string) {
    var first := if |text| > 0 && text[0] == '-' then 1 else 0;
    first < |text| && forall i :: first <= i < |text| ==> text[i] in "0123456789"
  }

  /** The hexadecimal digits are read by their place, in either case. */
  lemma HexDigits(k: nat)
    requires k < 16
    ensures HexDigit("0123456789abcdef"[k]) == HexDigit("0123456789ABCDEF"[k]) == Some(k)
  {
  }

  lemma {:induction false} HexIsRead(s: string)
    ensures Hex(s).Some? <==> forall i :: 0 <= i < |s| ==> IsHexDigit(s[i])
  {
    hide HexDigit, IsHexDigit;
    if s != "" {
      var rest := s[..|s| - 1];
      HexIsRead(rest);
      HexChar(s[|s| - 1]);
      assert forall i :: 0 <= i < |rest| ==> rest[i] == s[i];
    }
  }

  lemma HexChar(c: char)
    ensures HexDigit(c).Some? <==> IsHexDigit(c)
  {
  }

  lemma DigitChar(c: char)
    ensures '0' <= c <= '9' <==> c in "0123456789"
  {
  }

  /** The literals, and nothing else, are numbers. */
  lemma NumberIffLiteral(text: string)
    ensures Number(text).Some? <==> IsHexLiteral(text) || IsDecimalLiteral(text)
  {
    forall c: char
      ensures '0' <= c <= '9' <==> c in "0123456789"
    {
      DigitChar(c);
    }
    if |text| > 2 {
      HexIsRead(text[2..]);
      assert forall i :: 0 <= i < |text| - 2 ==> text[2..][i] == text[i + 2];
      assert forall i :: 2 <= i < |text| ==> text[i] == text[2..][i - 2];
    }
    if |text| > 0 {
      assert forall i :: 0 <= i < |text| - 1 ==> text[1..][i] == text[i + 1];
      assert forall i :: 1 <= i < |text| ==> text[i] == text[1..][i - 1];
    }
  }

  /** A literal in the range of a field of `size` values, of either sign. */
  predicate InRange(text: string, size: nat) {
    (IsHexLiteral(text) || IsDecimalLiteral(text)) && Number(text).Some? && -(size as int) <= 2 * Number(text).value
    && Number(text).value < size
  }

  /** A literal, or a label, that many words from the word after `at`. */
  predicate Near(text: string, labels: Labels, at: nat, least: int, most: int) {
    if Number(text).Some? then least <= Number(text).value <= most
    else text in labels && least <= labels[text] - (at + 1) <= most
  }

  /** Arguments that an operand format takes. */
  predicate Legal(f: Format, args: Args, labels: Labels, at: nat) {
    match args
    case Indexed(ra, rb, d) => f.R3D5B3? && IsRegister(ra) && IsRegister(rb) && InRange(d, 32) && Number(d).value >= 0
    case Listed(items) =>
      match f
      case NoArgs => items == []
      case J3 => |items| == 1 && InRange(items[0], 8)
      case F2 => |items| == 1 && InRange(items[0], 4)
      case R3 => |items| == 1 && IsRegister(items[0])
      case R3N5 => |items| == 2 && IsRegister(items[0]) && InRange(items[1], 32)
      case R3S3 => |items| == 2 && IsRegister(items[0]) && IsRegister(items[1])
      case R3I8 => |items| == 2 && IsRegister(items[0]) && InRange(items[1], 256)
      case R3D5B3 => false
      case F2N8 => |items| == 2 && Near(items[0], labels, at, 1, 255) && InRange(items[1], 4)
      case P8 => |items| == 1 && Near(items[0], labels, at, -128, 127)
      case A14 => |items| == 1 && InRange(items[0], 16384)
  }

  lemma RegisterIff(text: string)
    ensures Register(text).Some? <==> IsRegister(text)
  {
    if Register(text).Some? {
      assert text == RegisterName(Register(text).value);
    }
  }

  lemma LiteralIff(text: string, size: nat)
    requires size > 0
    ensures Literal(text, size).Some? <==> InRange(text, size)
  {
    NumberIffLiteral(text);
  }

  lemma NearIff(text: string, labels: Labels, at: nat)
    ensures Target(Distance(text, labels, at)).Some? <==> Near(text, labels, at, -128, 127)
    ensures Span(Distance(text, labels, at)).Some? <==> Near(text, labels, at, 1, 255)
  {
  }

  /** A statement gets its operand fields exactly when its arguments are legal. */
  lemma OperandsIffLegal(f: Format, args: Args, labels: Labels, at: nat)
    ensures Operands(f, args, labels, at).Some? <==> Legal(f, args, labels, at)
  {
    hide Number, Register, Literal, Target, Span, Distance, IsRegister, InRange, Near;
    match args
    case Indexed(ra, rb, d) =>
      RegisterIff(ra);
      RegisterIff(rb);
      LiteralIff(d, 32);
    case Listed(items) =>
      if |items| > 0 {
        RegisterIff(items[0]);
        LiteralIff(items[0], if f.J3? then 8 else if f.F2? then 4 else 16384);
        NearIff(items[0], labels, at);
      }
      if |items| > 1 {
        RegisterIff(items[1]);
        LiteralIff(items[1], if f.R3N5? then 32 else if f.R3I8? then 256 else 4);
      }
  }

  /** A legal source: no label twice, and every statement a mnemonic with arguments that
      its format takes, its labels within reach. */
  predicate Lawful(source: seq<Line>) {
    && Distinct(source)
    && forall i :: 0 <= i < |Statements(source)| ==> LawfulStatement(Statements(source)[i], LabelsOf(source), i)
  }

  predicate LawfulStatement(s: Statement, labels: Labels, at: nat) {
    exists op :: Mnemonic(op) == s.name && Legal(FormatOf(op), s.args, labels, at)
  }

  lemma EncodedIffLawful(s: Statement, labels: Labels, at: nat)
    ensures Known(s) && Encoded(s, labels, at).Some? <==> LawfulStatement(s, labels, at)
  {
    hide Named, Mnemonic, Operands, Legal, FormatOf, Word;
    if Known(s) {
      var op := Named(s.name).value;
      NamesMatchBack(s.name);
      OperandsIffLegal(FormatOf(op), s.args, labels, at);
    }
    if op :| Mnemonic(op) == s.name && Legal(FormatOf(op), s.args, labels, at) {
      NamesMatch(op);
      OperandsIffLegal(FormatOf(op), s.args, labels, at);
    }
  }

  /** What assembles is what is legal. */
  lemma AssemblesIffLawful(source: seq<Line>)
    ensures Assembles(source) <==> Lawful(source)
  {
    hide Known, Encoded, LawfulStatement;
    var code, labels := Statements(source), LabelsOf(source);
    forall i | 0 <= i < |code|
      ensures Known(code[i]) && Encoded(code[i], labels, i).Some? <==> LawfulStatement(code[i], labels, i)
    {
      EncodedIffLawful(code[i], labels, i);
    }
    if Lawful(source) {
      assert AllKnown(code);
    }
  }

  /** Code comes out exactly for the legal sources, and it is their code. */
  method Assemble(source: seq<Line>) returns (code: Option<seq<nat>>)
    ensures code.Some? <==> Lawful(source)
    ensures code.Some? <==> Assembles(source)
    ensures code.Some? ==> code.value == Code(Statements(source), LabelsOf(source))
  {
    AssemblesIffLawful(source);
    var labels, ok1 := FirstPass(source);
    if labels.None? {
      return None;
    }
    var words, ok2 := SecondPass(source, labels.value);
    if !ok1 || !ok2 {
      return None;
    }
    return Some(words);
  }

  // ---- what the code means ----

  lemma {:induction false} PrefixOfStatements(source: seq<Line>, n: nat)
    requires n <= |source|
    ensures Statements(source[..n]) <= Statements(source)
    ensures Distinct(source) ==>
              forall l :: l in LabelsOf(source[..n])
                  ==> l in LabelsOf(source) && LabelsOf(source)[l] == LabelsOf(source[..n])[l]
    decreases |source| - n
  {
    if n == |source| {
      assert source[..n] == source;
    } else {
      StatementsPush(source, n);
      PrefixOfStatements(source, n + 1);
      if Distinct(source) && source[n].labeled.Some? {
        LabelKeys(source[..n], source[n].labeled.value);
      }
    }
  }

  /** A label stands for the word that the second pass emits next when it comes
      to the label's line: the words before that address are exactly the code of
      the lines before it. */
  lemma LabelsAreWordAddresses(source: seq<Line>, k: nat)
    requires Assembles(source) && k < |source| && source[k].labeled.Some?
    ensures var l := source[k].labeled.value;
            var code := Code(Statements(source), LabelsOf(source));
            && l in LabelsOf(source) && LabelsOf(source)[l] == |Statements(source[..k])| <= |code|
            && AllEncoded(Statements(source[..k]), LabelsOf(source))
            && code[..LabelsOf(source)[l]] == Code(Statements(source[..k]), LabelsOf(source))
  {
    StatementsPush(source, k);
    PrefixOfStatements(source, k + 1);
    PrefixOfStatements(source, k);
    var before, all := Statements(source[..k]), Statements(source);
    assert forall i :: 0 <= i < |before| ==> before[i] == all[i];
  }

  function SignExtended(b: nat): int {
    if b < 128 then b else b - 256
  }

  /** A field that holds a literal: in range, and equal to it modulo the field. */
  predicate Holds(text: string, size: nat, field: nat)
    requires size > 0
  {
    && Number(text).Some? && -(size as int) <= 2 * Number(text).value < 2 * size
    && field < size && field == Number(text).value % size
  }

  /** A displacement from word `at`: a literal, or the distance that makes the word
      after `at` reach the label. */
  predicate Reaches(text: string, labels: Labels, at: nat, displacement: int) {
    if Number(text).Some? then displacement == Number(text).value
    else text in labels && at + 1 + displacement == labels[text]
  }

  /** What it means for an instruction to be a statement: the same operation, the
      registers it names, its literals modulo their fields, and displacements that
      reach its labels. */
  predicate Denotes(i: Instruction, s: Statement, labels: Labels, at: nat) {
    && Known(s)
    && var op := Named(s.name).value;
    && i.op == (if op.Yield? || op.Yieldge? then Done else op)
    && Fit(FormatOf(i.op), i.o)
    && match FormatOf(op)
       case NoArgs => s.args == Listed([]) && (op.Yield? ==> i.o.a == 0) && (op.Yieldge? ==> i.o.a == 1)
       case J3 => s.args.Listed? && |s.args.items| == 1 && Holds(s.args.items[0], 8, i.o.a)
       case F2 => s.args.Listed? && |s.args.items| == 1 && Holds(s.args.items[0], 4, i.o.a)
       case R3 => s.args == Listed([RegisterName(i.o.a)])
       case R3N5 =>
         s.args.Listed? && |s.args.items| == 2 && s.args.items[0] == RegisterName(i.o.a)
             && Holds(s.args.items[1], 32, i.o.b)
       case R3S3 => s.args == Listed([RegisterName(i.o.a), RegisterName(i.o.b)])
       case R3I8 =>
         s.args.Listed? && |s.args.items| == 2 && s.args.items[0] == RegisterName(i.o.a)
             && Holds(s.args.items[1], 256, i.o.b)
       case R3D5B3 =>
         s.args.Indexed? && s.args.ra == RegisterName(i.o.a) && s.args.rb == RegisterName(i.o.c)
         && Holds(s.args.displacement, 32, i.o.b) && Number(s.args.displacement).value == i.o.b
       case F2N8 =>
         s.args.Listed? && |s.args.items| == 2 && Holds(s.args.items[1], 4, i.o.a) && i.o.b > 0
         && Reaches(s.args.items[0], labels, at, i.o.b)
       case P8 => s.args.Listed? && |s.args.items| == 1 && Reaches(s.args.items[0], labels, at, SignExtended(i.o.b))
       case A14 => s.args.Listed? && |s.args.items| == 1 && Holds(s.args.items[0], 16384, i.o.a)
  }

  lemma RegisterNamed(text: string)
    ensures Register(text).Some? ==> text == RegisterName(Register(text).value)
  {
    if Register(text).Some? {
      assert text == ['r', text[1]];
    }
  }

  lemma LiteralHolds(text: string, size: nat)
    requires size > 0
    ensures Literal(text, size).Some? ==> Holds(text, size, Literal(text, size).value)
  {
  }

  lemma TargetReaches(text: string, labels: Labels, at: nat)
    ensures var t := Target(Distance(text, labels, at)); t.Some? ==> Reaches(text, labels, at, SignExtended(t.value))
    ensures var t := Span(Distance(text, labels, at)); t.Some? ==> t.value > 0 && Reaches(text, labels, at, t.value)
  {
  }

  lemma OperandsDenote(s: Statement, labels: Labels, at: nat)
    requires Known(s) && Operands(FormatOf(Named(s.name).value), s.args, labels, at).Some?
    ensures var op := Named(s.name).value;
            Denotes(Canonical(op, Operands(FormatOf(op), s.args, labels, at).value), s, labels, at)
  {
    hide Number, Register, Literal, Holds, Reaches, Target, Span, Distance, Named;
    var f := FormatOf(Named(s.name).value);
    match s.args
    case Indexed(ra, rb, d) =>
      RegisterNamed(ra);
      RegisterNamed(rb);
      LiteralHolds(d, 32);
      SmallLiteral(d);
    case Listed(items) =>
      if |items| > 0 {
        RegisterNamed(items[0]);
        LiteralHolds(items[0], if f.J3? then 8 else if f.F2? then 4 else 16384);
        TargetReaches(items[0], labels, at);
      }
      if |items| > 1 {
        RegisterNamed(items[1]);
        LiteralHolds(items[1], if f.R3N5? then 32 else if f.R3I8? then 256 else 4);
      }
  }

  lemma SmallLiteral(text: string)
    ensures Literal(text, 32).Some? && Number(text).value >= 0 ==> Literal(text, 32).value == Number(text).value
  {
  }

  /** Compile and decode: every word of the code fits 16 bits and decodes to an
      instruction that is its statement. */
  lemma CodeDecodes(source: seq<Line>, i: nat)
    requires Assembles(source) && i < |Statements(source)|
    ensures var w := Code(Statements(source), LabelsOf(source))[i];
            w < 0x1_0000 && Decode(w).Some? && Denotes(Decode(w).value, Statements(source)[i], LabelsOf(source), i)
  {
    hide Denotes, Decode, Operands, Named;
    var s := Statements(source)[i];
    assert Encoded(s, LabelsOf(source), i).Some?;
    var op := Named(s.name).value;
    WordDecodes(op, Operands(FormatOf(op), s.args, LabelsOf(source), i).value);
    OperandsDenote(s, LabelsOf(source), i);
  }

  function OpOf(source: seq<Line>, i: nat): Op
    requires Assembles(source) && i < |Statements(source)|
  {
    Named(Statements(source)[i].name).value
  }

  /** A branch to a label, executed as the word after it plus its signed
      displacement, lands on the label. */
  lemma BranchesLand(source: seq<Line>, i: nat, l: string)
    requires Assembles(source) && i < |Statements(source)|
    requires FormatOf(OpOf(source, i)).P8? && Statements(source)[i].args == Listed([l]) && Number(l).None?
    ensures l in LabelsOf(source)
    ensures i + 1 + SignExtended(Code(Statements(source), LabelsOf(source))[i] % 256) == LabelsOf(source)[l]
  {
    hide Word, Statements, LabelsOf, Number;
    var s := Statements(source)[i];
    assert Encoded(s, LabelsOf(source), i).Some?;
    LowByte(OpOf(source, i), Operands(P8, s.args, LabelsOf(source), i).value);
  }

  /** A loop ends at its label, which lies after its first word. */
  lemma LoopsEnd(source: seq<Line>, i: nat, l: string, flags: string)
    requires Assembles(source) && i < |Statements(source)|
    requires FormatOf(OpOf(source, i)).F2N8? && Statements(source)[i].args == Listed([l, flags]) && Number(l).None?
    ensures l in LabelsOf(source)
    ensures i + 1 < i + 1 + Code(Statements(source), LabelsOf(source))[i] % 256 == LabelsOf(source)[l]
  {
    hide Word, Statements, LabelsOf, Number;
    var s := Statements(source)[i];
    assert Encoded(s, LabelsOf(source), i).Some?;
    LowByte(OpOf(source, i), Operands(F2N8, s.args, LabelsOf(source), i).value);
  }

  lemma BranchBase(op: Op)
    requires FormatOf(op).P8? || FormatOf(op).F2N8?
    ensures Base(op) % 256 == 0
  {
    match op
    case Loop =>
    case Bf =>
    case Bt =>
    case Bsf =>
    case Bdf =>
    case _ =>
  }

  lemma LowByte(op: Op, o: Fields)
    requires Fit(FormatOf(op), o) && (FormatOf(op).P8? || FormatOf(op).F2N8?)
    ensures Word(op, o) % 256 == o.b
  {
    hide Base, Word, FormatOf;
    WordIsSum(op, o);
    BranchBase(op);
    assert Sum(op, o) == Base(op) + o.a * 256 + o.b;
  }

  // ---- packing ----

  /** Halfwords two to a word, the first of a pair on top, an odd last one padded. */
  function Packed(code: seq<nat>): seq<nat> {
    if code == [] then []
    else if |code| == 1 then [code[0] * 0x1_0000]
    else [code[0] * 0x1_0000 + code[1]] + Packed(code[2..])
  }

  function Unpacked(words: seq<nat>): seq<nat> {
    if words == [] then [] else [words[0] / 0x1_0000, words[0] % 0x1_0000] + Unpacked(words[1..])
  }

  /** Unpacking gives the code back, with one zero after an odd one. */
  lemma {:induction false} UnpackedPacked(code: seq<nat>)
    requires forall i :: 0 <= i < |code| ==> code[i] < 0x1_0000
    ensures Unpacked(Packed(code)) == code + (if |code| % 2 == 1 then [0] else [])
    ensures forall i :: 0 <= i < |Packed(code)| ==> Packed(code)[i] < 0x1_0000_0000
    decreases |code|
  {
    if |code| > 1 {
      var rest := code[2..];
      UnpackedPacked(rest);
      var w := code[0] * 0x1_0000 + code[1];
      assert w / 0x1_0000 == code[0] && w % 0x1_0000 == code[1];
      assert Packed(code)[1..] == Packed(rest);
      assert code == [code[0], code[1]] + rest;
    }
  }

  lemma {:induction false} PackedPush(code: seq<nat>, hi: nat, lo: nat)
    requires |code| % 2 == 0
    ensures Packed(code + [hi]) == Packed(code) + [hi * 0x1_0000]
    ensures Packed(code + [hi, lo]) == Packed(code) + [hi * 0x1_0000 + lo]
    decreases |code|
  {
    if code == [] {
      assert [hi, lo][2..] == [];
    } else {
      PackedPush(code[2..], hi, lo);
      assert (code + [hi])[2..] == code[2..] + [hi];
      assert (code + [hi, lo])[2..] == code[2..] + [hi, lo];
    }
  }

  method Pack(objectcode: seq<nat>) returns (words: seq<nat>)
    ensures words == Packed(objectcode)
  {
    var rawcode := objectcode;
    words := [];
    ghost var done: seq<nat> := [];
    while rawcode != []
      invariant objectcode == done + rawcode && words == Packed(done)
      invariant rawcode != [] ==> |done| % 2 == 0
      decreases |rawcode|
    {
      var hi, lo := rawcode[0], 0;
      ghost var taken := if |rawcode| > 1 then [hi, rawcode[1]] else [hi];
      PackedPush(done, hi, if |rawcode| > 1 then rawcode[1] else 0);
      rawcode := rawcode[1..];
      if rawcode != [] {
        lo := rawcode[0];
        rawcode := rawcode[1..];
      }
      words := words + [hi * 0x1_0000 + lo];
      done := done + taken;
    }
    assert done == objectcode;
  }
}
