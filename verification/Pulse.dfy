/** Pulse bytes and the GPIO words they turn into (asm/sdma.asm). */
module Pulse {

  // GPIO bank pins driven by the script.
  const Z_DIR: bv32 := 0x0002_0000
  const Y1_DIR: bv32 := 0x0004_0000
  const X_DIR: bv32 := 0x0008_0000
  const Y1_STEP: bv32 := 0x0010_0000
  const Z_STEP: bv32 := 0x0020_0000
  const X_STEP: bv32 := 0x0040_0000
  const Y2_DIR: bv32 := 0x1000_0000
  const Y2_STEP: bv32 := 0x2000_0000
  const LASER_ENABLE: bv32 := 0x4000_0000
  const LASER_HEAD: bv32 := 0x8000_0000

  const STEPS: bv32 := 0x2070_0000
  const DIRS: bv32 := 0x100e_0000
  const LASER: bv32 := 0xc000_0000

  datatype Motor = MotorX | MotorY1 | MotorY2 | MotorZ

  /** The word with one pin set or cleared. */
  function Put(w: bv32, pin: bv32, on: bool): bv32 {
    if on then w | pin else w & !pin
  }

  predicate IsPower(b: bv8) {
    b & 0x80 != 0
  }

  /** A backward run inverts the direction bits and keeps the laser off. */
  function Reversed(b: bv8): bv8 {
    (b ^ 0x4a) & !0x10
  }

  /** First write of a step byte: the direction pins. */
  function SetupWord(w: bv32, b: bv8): bv32 {
    Put(Put(Put(Put(w, X_DIR, b & 0x02 == 0),
                Y2_DIR, b & 0x08 != 0), Y1_DIR, b & 0x08 == 0), Z_DIR, b & 0x40 != 0)
  }

  function RaiseSteps(w: bv32, b: bv8): bv32 {
    var wx := if b & 0x01 != 0 then w | X_STEP else w;
    var wy := if b & 0x04 != 0 then wx | Y1_STEP | Y2_STEP else wx;
    if b & 0x20 != 0 then wy | Z_STEP else wy
  }

  /** Second write: the step pins and the laser, less the locked motors and
      the inhibited laser pins. */
  function PulseWord(w: bv32, b: bv8, lock: bv32, inhibit: bv32): bv32 {
    Put(Put(RaiseSteps(w, b), LASER_ENABLE, b & 0x10 != 0), LASER_HEAD, b & 0x10 != 0) & !lock & !inhibit
  }

  /** Third write: the step pins low again. */
  function SettleWord(w: bv32): bv32 {
    w & !STEPS
  }

  /** The word written while parked. */
  function ParkWord(w: bv32): bv32 {
    w & !LASER & !STEPS
  }

  /** A word with every step pin low. */
  predicate Low(w: bv32) {
    w & STEPS == 0
  }

  function StepPin(m: Motor): bv32 {
    match m
    case MotorX => X_STEP
    case MotorY1 => Y1_STEP
    case MotorY2 => Y2_STEP
    case MotorZ => Z_STEP
  }

  /** Whether a lock mask holds the motor's step pin low. */
  predicate Locks(lock: bv32, m: Motor) {
    lock & StepPin(m) != 0
  }

  /** Whether a word's direction pins turn the motor toward growing positions;
      the two Y motors face each other. */
  predicate Positive(w: bv32, m: Motor) {
    match m
    case MotorX => w & X_DIR != 0
    case MotorY1 => w & Y1_DIR == 0
    case MotorY2 => w & Y2_DIR != 0
    case MotorZ => w & Z_DIR != 0
  }

  /** What a stepper driver does on seeing two consecutive words: one step per
      rising edge of its step pin. */
  function Edge(before: bv32, w: bv32, m: Motor): int {
    if before & StepPin(m) == 0 && w & StepPin(m) != 0 then (if Positive(w, m) then 1 else -1) else 0
  }

  /** Net steps a driver takes over a sequence of GPIO words. */
  function Decode(before: bv32, words: seq<bv32>, m: Motor): int
    decreases |words|
  {
    if words == [] then 0 else Edge(before, words[0], m) + Decode(words[0], words[1..], m)
  }

  function Last(before: bv32, words: seq<bv32>): bv32 {
    if words == [] then before else words[|words| - 1]
  }

  lemma {:induction false} DecodeAppend(before: bv32, a: seq<bv32>, b: seq<bv32>, m: Motor)
    ensures Decode(before, a + b, m) == Decode(before, a, m) + Decode(Last(before, a), b, m)
    decreases |a|
  {
    if a == [] {
      assert a + b == b;
    } else {
      assert (a + b)[1..] == a[1..] + b;
      DecodeAppend(a[0], a[1..], b, m);
    }
  }

  lemma DecodeThree(before: bv32, w1: bv32, w2: bv32, w3: bv32, m: Motor)
    ensures Decode(before, [w1, w2, w3], m) == Edge(before, w1, m) + Edge(w1, w2, m) + Edge(w2, w3, m)
  {
    hide Edge;
    assert [w1, w2, w3][1..] == [w2, w3];
    assert [w2, w3][1..] == [w3];
    assert Decode(w3, [], m) == 0;
    assert Decode(w2, [w3], m) == Edge(w2, w3, m) + Decode(w3, [], m);
    assert Decode(w1, [w2, w3], m) == Edge(w1, w2, m) + Decode(w2, [w3], m);
  }

  /** Change of the motor's axis position that a byte stands for. */
  function Delta(b: bv8, m: Motor): int {
    if IsPower(b) then 0 else
    match m
    case MotorX => if b & 0x01 == 0 then 0 else if b & 0x02 == 0 then 1 else -1
    case MotorY1 | MotorY2 => if b & 0x04 == 0 then 0 else if b & 0x08 != 0 then 1 else -1
    case MotorZ => if b & 0x20 == 0 then 0 else if b & 0x40 != 0 then 1 else -1
  }

  /** A byte played backward undoes the move it stands for, with the laser off. */
  lemma ReversedUndoes(b: bv8, m: Motor)
    ensures !IsPower(b) ==> !IsPower(Reversed(b))
    ensures !IsPower(b) ==> Delta(Reversed(b), m) == -Delta(b, m)
    ensures Reversed(b) & 0x10 == 0
  {
  }

  /** The mask words the host can load: step pins to lock, laser pins to inhibit. */
  predicate Masks(lock: bv32, inhibit: bv32) {
    lock & !STEPS == 0 && inhibit & !LASER == 0
  }

  /** The three words of a step byte have equal direction pins, with the Y
      motors opposed, and only the second has step pins high. */
  lemma StepWords(w: bv32, b: bv8, lock: bv32, inhibit: bv32, setup: bv32, pulse: bv32, settle: bv32)
    requires Low(w) && Masks(lock, inhibit)
    requires setup == SetupWord(w, b) && pulse == PulseWord(setup, b, lock, inhibit) && settle == SettleWord(pulse)
    ensures Low(setup) && Low(settle)
    ensures setup & DIRS == pulse & DIRS == settle & DIRS
    ensures (setup & Y1_DIR == 0) <==> (setup & Y2_DIR != 0)
  {
  }

  /** What a pulse word does to a motor that a byte moves by `delta`. */
  predicate Pulses(pulse: bv32, m: Motor, delta: int, locked: bool) {
    && (pulse & StepPin(m) != 0 <==> delta != 0 && !locked)
    && (delta != 0 ==> (Positive(pulse, m) <==> delta == 1))
  }

  lemma PulsedX(w: bv32, b: bv8, lock: bv32, inhibit: bv32)
    requires Low(w) && Masks(lock, inhibit) && !IsPower(b)
    ensures Pulses(PulseWord(SetupWord(w, b), b, lock, inhibit), MotorX, Delta(b, MotorX), Locks(lock, MotorX))
  {
  }

  lemma PulsedY1(w: bv32, b: bv8, lock: bv32, inhibit: bv32)
    requires Low(w) && Masks(lock, inhibit) && !IsPower(b)
    ensures Pulses(PulseWord(SetupWord(w, b), b, lock, inhibit), MotorY1, Delta(b, MotorY1), Locks(lock, MotorY1))
  {
  }

  lemma PulsedY2(w: bv32, b: bv8, lock: bv32, inhibit: bv32)
    requires Low(w) && Masks(lock, inhibit) && !IsPower(b)
    ensures Pulses(PulseWord(SetupWord(w, b), b, lock, inhibit), MotorY2, Delta(b, MotorY2), Locks(lock, MotorY2))
  {
  }

  lemma PulsedZ(w: bv32, b: bv8, lock: bv32, inhibit: bv32)
    requires w & STEPS == 0 && Masks(lock, inhibit) && !IsPower(b)
    ensures Pulses(PulseWord(SetupWord(w, b), b, lock, inhibit), MotorZ, Delta(b, MotorZ), Locks(lock, MotorZ))
  {
    var pulse := PulseWord(SetupWord(w, b), b, lock, inhibit);
    assert pulse & Z_STEP != 0 <==> b & 0x20 != 0 && lock & Z_STEP == 0;
    assert pulse & Z_DIR != 0 <==> b & 0x40 != 0;
  }

  /** The second word pulses a motor exactly when the byte moves it and it is
      not locked, in the direction the byte says. */
  lemma PulsedMotor(w: bv32, b: bv8, lock: bv32, inhibit: bv32, m: Motor)
    requires Low(w) && Masks(lock, inhibit) && !IsPower(b)
    ensures Pulses(PulseWord(SetupWord(w, b), b, lock, inhibit), m, Delta(b, m), Locks(lock, m))
  {
    hide Pulses, PulseWord, SetupWord, Masks, Delta, IsPower, Locks;
    match m
    case MotorX => PulsedX(w, b, lock, inhibit);
    case MotorY1 => PulsedY1(w, b, lock, inhibit);
    case MotorY2 => PulsedY2(w, b, lock, inhibit);
    case MotorZ => PulsedZ(w, b, lock, inhibit);
  }

  /** The laser pins over the three words: the first still shows the previous
      byte's, the second and third carry this byte's unless inhibited. */
  lemma LaserWords(w: bv32, b: bv8, lock: bv32, inhibit: bv32, setup: bv32, pulse: bv32, settle: bv32)
    requires Masks(lock, inhibit)
    requires setup == SetupWord(w, b) && pulse == PulseWord(setup, b, lock, inhibit) && settle == SettleWord(pulse)
    ensures setup & LASER == w & LASER
    ensures settle & LASER == pulse & LASER
    ensures pulse & LASER == (if b & 0x10 != 0 then LASER & !inhibit else 0)
  {
  }

  /** What a driver makes of a word between two low ones. */
  function Seen(pulse: bv32, m: Motor): int {
    if pulse & StepPin(m) == 0 then 0 else if Positive(pulse, m) then 1 else -1
  }

  lemma SeenPulse(pulse: bv32, m: Motor, delta: int, locked: bool)
    requires Pulses(pulse, m, delta, locked) && -1 <= delta <= 1
    ensures Seen(pulse, m) == if locked then 0 else delta
  {
  }

  /** Three words that are low, possibly high, low on a motor's step pin make
      at most one step. */
  lemma OnePulse(before: bv32, setup: bv32, pulse: bv32, settle: bv32, m: Motor)
    requires Low(before) && Low(setup) && Low(settle)
    ensures Decode(before, [setup, pulse, settle], m) == Seen(pulse, m)
  {
    hide Low, Positive;
    DecodeThree(before, setup, pulse, settle, m);
    StepPinLow(setup, m);
    StepPinLow(settle, m);
  }

  lemma StepPinLow(w: bv32, m: Motor)
    requires Low(w)
    ensures w & StepPin(m) == 0
  {
  }

  lemma DecodeOne(before: bv32, w: bv32, m: Motor)
    ensures Decode(before, [w], m) == Edge(before, w, m)
  {
    hide Edge;
    assert Decode(w, [], m) == 0;
    assert [w][1..] == [];
  }

  /** A low word is no step. */
  lemma LowDecodes(before: bv32, w: bv32, m: Motor)
    requires Low(w)
    ensures Decode(before, [w], m) == 0
  {
    hide Low, Positive, StepPin, Decode;
    DecodeOne(before, w, m);
    StepPinLow(w, m);
  }

  /** A stepper decodes the three words of a byte as the byte's own move. */
  lemma EntryDecodes(before: bv32, w: bv32, b: bv8, lock: bv32, inhibit: bv32, m: Motor,
                     setup: bv32, pulse: bv32, settle: bv32)
    requires Low(before) && Low(w) && Masks(lock, inhibit) && !IsPower(b)
    requires setup == SetupWord(w, b) && pulse == PulseWord(setup, b, lock, inhibit) && settle == SettleWord(pulse)
    ensures Decode(before, [setup, pulse, settle], m) == (if Locks(lock, m) then 0 else Delta(b, m))
  {
    hide Low, Masks, Decode, SetupWord, PulseWord, SettleWord, StepPin, Seen, Pulses, Locks;
    StepWords(w, b, lock, inhibit, setup, pulse, settle);
    OnePulse(before, setup, pulse, settle, m);
    PulsedMotor(w, b, lock, inhibit, m);
    SeenPulse(pulse, m, Delta(b, m), Locks(lock, m));
  }
}
