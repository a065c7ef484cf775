/** The pin map of the pulse script, by bit number: what each bit of a pulse byte does to
    each pin of the GPIO bank. */
module Pins {
  import opened Pulse

  /** The direction word: X_DIR (bit 19) is bit 1 of the byte inverted, Y2_DIR (28) bit 3,
      Y1_DIR (18) the opposite, Z_DIR (17) bit 6; every other pin is kept. */
  lemma SetupPins(w: bv32, b: bv8)
    ensures var s := SetupWord(w, b);
            && (s & 0x0008_0000 != 0 <==> b & 0x02 == 0)
            && (s & 0x1000_0000 != 0 <==> b & 0x08 != 0)
            && (s & 0x0004_0000 != 0 <==> b & 0x08 == 0)
            && (s & 0x0002_0000 != 0 <==> b & 0x40 != 0)
            && s & 0xeff1_ffff == w & 0xeff1_ffff
  {
  }

  /** The pulse word from low step pins: X_STEP (bit 22) is bit 0 of the byte, Y1_STEP (20)
      and Y2_STEP (29) bit 2, Z_STEP (21) bit 5, each unless its own pin is locked. */
  lemma StepPins(w: bv32, b: bv8, lock: bv32, inhibit: bv32)
    requires w & 0x2070_0000 == 0 && Masks(lock, inhibit)
    ensures var p := PulseWord(w, b, lock, inhibit);
            && (p & 0x0040_0000 != 0 <==> b & 0x01 != 0 && lock & 0x0040_0000 == 0)
            && (p & 0x0010_0000 != 0 <==> b & 0x04 != 0 && lock & 0x0010_0000 == 0)
            && (p & 0x2000_0000 != 0 <==> b & 0x04 != 0 && lock & 0x2000_0000 == 0)
            && (p & 0x0020_0000 != 0 <==> b & 0x20 != 0 && lock & 0x0020_0000 == 0)
  {
  }

  /** Its laser pins LASER_ENABLE (30) and LASER_ON_HEAD (31) are bit 4 unless inhibited,
      and every other pin is kept. */
  lemma LaserPins(w: bv32, b: bv8, lock: bv32, inhibit: bv32)
    requires Masks(lock, inhibit)
    ensures var p := PulseWord(w, b, lock, inhibit);
            && (p & 0x4000_0000 != 0 <==> b & 0x10 != 0 && inhibit & 0x4000_0000 == 0)
            && (p & 0x8000_0000 != 0 <==> b & 0x10 != 0 && inhibit & 0x8000_0000 == 0)
            && p & 0x1f8f_ffff == w & 0x1f8f_ffff
  {
  }

  /** The settle word clears the four step pins, the parked word these and the laser pins;
      both keep the rest. */
  lemma ClearedPins(w: bv32)
    ensures SettleWord(w) == w & 0xdf8f_ffff && ParkWord(w) == w & 0x1f8f_ffff
  {
  }

  lemma LowPins(w: bv32)
    ensures Low(w) <==>
              w & 0x0010_0000 == 0 && w & 0x0020_0000 == 0 && w & 0x0040_0000 == 0 && w & 0x2000_0000 == 0
  {
  }

  /** What the host may load: step pins to lock, */
  lemma LockPins(lock: bv32)
    ensures Masks(lock, 0) <==> lock & 0xdf8f_ffff == 0
  {
  }

  /** laser pins to inhibit, */
  lemma InhibitPins(inhibit: bv32)
    ensures Masks(0, inhibit) <==> inhibit & 0x3fff_ffff == 0
  {
  }

  /** and which pin locks, and steps, which motor. */
  lemma MotorPins(m: Motor)
    ensures StepPin(m) == match m case MotorX => 0x0040_0000 case MotorY1 => 0x0010_0000
                                  case MotorY2 => 0x2000_0000 case MotorZ => 0x0020_0000
  {
  }

  /** What a byte stands for: bit 7 makes it a power byte; a step byte moves X by bit 0,
      down if bit 1 is set; Y by bit 2, up if bit 3 is set; Z by bit 5, up if bit 6 is set. */
  lemma ByteMoves(b: bv8)
    ensures IsPower(b) <==> b & 0x80 != 0
    ensures b & 0x80 == 0 ==>
              && Delta(b, MotorX) == (if b & 0x01 == 0 then 0 else if b & 0x02 != 0 then -1 else 1)
              && Delta(b, MotorY1) == (if b & 0x04 == 0 then 0 else if b & 0x08 != 0 then 1 else -1)
              && Delta(b, MotorY2) == Delta(b, MotorY1)
              && Delta(b, MotorZ) == (if b & 0x20 == 0 then 0 else if b & 0x40 != 0 then 1 else -1)
  {
  }

  /** A byte played backward: the three direction bits inverted, the laser bit cleared, the
      rest kept. */
  lemma ReversedBits(b: bv8)
    ensures var r := Reversed(b);
            && (r & 0x02 != 0 <==> b & 0x02 == 0) && (r & 0x08 != 0 <==> b & 0x08 == 0)
            && (r & 0x40 != 0 <==> b & 0x40 == 0) && r & 0x10 == 0 && r & 0xa5 == b & 0xa5
  {
  }
}
