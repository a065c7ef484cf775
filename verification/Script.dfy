/** The pulse script itself (asm/sdma.asm), statement by statement over the
    channel context, proved against Engine. */
module Script {
  import opened Words
  import opened Pulse
  import opened Engine
  import opened Motion
  import Pins
  import Spec = Engine

  const MINUS_ONE: u32 := 0xFFFF_FFFF

  function DirectionOf(scratch6: u32): Direction {
    if scratch6 == 0 then Parked else if scratch6 >= 0x8000_0000 then Backward else Forward
  }

  /** Adding 0xFFFFFFFF to a register takes one off it. */
  method Add(r: u32, scratch6: u32) returns (sum: u32)
    requires scratch6 == 0 || scratch6 == 1 || scratch6 == MINUS_ONE
    ensures sum == Wrap(r + Increment(DirectionOf(scratch6)))
  {
    sum := Wrap(r + scratch6);
    if scratch6 == MINUS_ONE {
      ModShift(r - 1, 1, U32);
    }
  }

  lemma PutX(w: bv32, b: bv8)
    ensures b & 0x02 != 0 ==> (w | X_DIR) & !X_DIR == Put(w, X_DIR, b & 0x02 == 0)
    ensures b & 0x02 == 0 ==> w | X_DIR == Put(w, X_DIR, b & 0x02 == 0)
  {
  }

  lemma PutZ(w: bv32, b: bv8)
    ensures b & 0x40 != 0 ==> (w & !Z_DIR) | Z_DIR == Put(w, Z_DIR, b & 0x40 != 0)
    ensures b & 0x40 == 0 ==> w & !Z_DIR == Put(w, Z_DIR, b & 0x40 != 0)
  {
  }

  lemma PutYs(w: bv32, b: bv8)
    ensures b & 0x08 != 0 ==>
              (((w & !Y2_DIR) | Y1_DIR) | Y2_DIR) & !Y1_DIR == Put(Put(w, Y2_DIR, b & 0x08 != 0), Y1_DIR, b & 0x08 == 0)
    ensures b & 0x08 == 0 ==> (w & !Y2_DIR) | Y1_DIR == Put(Put(w, Y2_DIR, b & 0x08 != 0), Y1_DIR, b & 0x08 == 0)
  {
  }

  lemma PutLaser(w: bv32, b: bv8)
    ensures b & 0x10 != 0 ==>
              (((w & !LASER_ENABLE) & !LASER_HEAD) | LASER_ENABLE) | LASER_HEAD
              == Put(Put(w, LASER_ENABLE, b & 0x10 != 0), LASER_HEAD, b & 0x10 != 0)
    ensures b & 0x10 == 0 ==>
              (w & !LASER_ENABLE) & !LASER_HEAD == Put(Put(w, LASER_ENABLE, b & 0x10 != 0), LASER_HEAD, b & 0x10 != 0)
  {
  }

  lemma ClearAll(w: bv32)
    ensures w & !X_STEP & !Y1_STEP & !Y2_STEP & !Z_STEP == w & !STEPS
    ensures w & !LASER_ENABLE & !LASER_HEAD & !X_STEP & !Y1_STEP & !Y2_STEP & !Z_STEP == w & !LASER & !STEPS
  {
  }

  method SetX(w: bv32, b: bv8) returns (r3: bv32)
    ensures r3 == Put(w, X_DIR, b & 0x02 == 0)
  {
    hide Put;
    PutX(w, b);
    r3 := w | X_DIR;
    if b & 0x02 != 0 {
      r3 := r3 & !X_DIR;
    }
  }

  method SetY(w: bv32, b: bv8) returns (r3: bv32)
    ensures r3 == Put(Put(w, Y2_DIR, b & 0x08 != 0), Y1_DIR, b & 0x08 == 0)
  {
    hide Put;
    PutYs(w, b);
    r3 := w & !Y2_DIR;
    r3 := r3 | Y1_DIR;
    if b & 0x08 != 0 {
      r3 := r3 | Y2_DIR;
      r3 := r3 & !Y1_DIR;
    }
  }

  method SetZ(w: bv32, b: bv8) returns (r3: bv32)
    ensures r3 == Put(w, Z_DIR, b & 0x40 != 0)
  {
    hide Put;
    PutZ(w, b);
    r3 := w & !Z_DIR;
    if b & 0x40 != 0 {
      r3 := r3 | Z_DIR;
    }
  }

  method SetDirections(w: bv32, b: bv8) returns (r3: bv32)
    ensures r3 == SetupWord(w, b)
    ensures (r3 & 0x0008_0000 != 0 <==> b & 0x02 == 0) && (r3 & 0x1000_0000 != 0 <==> b & 0x08 != 0)
    ensures (r3 & 0x0004_0000 != 0 <==> b & 0x08 == 0) && (r3 & 0x0002_0000 != 0 <==> b & 0x40 != 0)
  {
    Pins.SetupPins(w, b);
    r3 := SetX(w, b);
    r3 := SetY(r3, b);
    r3 := SetZ(r3, b);
  }

  method Raise(w: bv32, pin: bv32, on: bool) returns (r3: bv32)
    ensures r3 == if on then w | pin else w
  {
    r3 := w;
    if on {
      r3 := r3 | pin;
    }
  }

  method SetSteps(w: bv32, b: bv8) returns (r3: bv32)
    ensures r3 == RaiseSteps(w, b)
  {
    r3 := Raise(w, X_STEP, b & 0x01 != 0);
    r3 := Raise(r3, Y1_STEP, b & 0x04 != 0);
    r3 := Raise(r3, Y2_STEP, b & 0x04 != 0);
    r3 := Raise(r3, Z_STEP, b & 0x20 != 0);
  }

  method SetLaser(w: bv32, b: bv8) returns (r3: bv32)
    ensures r3 == Put(Put(w, LASER_ENABLE, b & 0x10 != 0), LASER_HEAD, b & 0x10 != 0)
  {
    hide Put;
    PutLaser(w, b);
    r3 := w & !LASER_ENABLE;
    r3 := r3 & !LASER_HEAD;
    if b & 0x10 != 0 {
      r3 := r3 | LASER_ENABLE;
      r3 := r3 | LASER_HEAD;
    }
  }

  method RaisePins(w: bv32, b: bv8, motorLock: bv32, inhibit: bv32) returns (r3: bv32)
    ensures r3 == PulseWord(w, b, motorLock, inhibit)
  {
    r3 := SetSteps(w, b);
    r3 := SetLaser(r3, b);
    r3 := r3 & !motorLock;
    r3 := r3 & !inhibit;
  }

  /** The step and laser pins of the pulse word, by bit. */
  method SetStepsAndLaser(w: bv32, b: bv8, motorLock: bv32, inhibit: bv32) returns (r3: bv32)
    ensures r3 == PulseWord(w, b, motorLock, inhibit)
    ensures w & 0x2070_0000 == 0 && Masks(motorLock, inhibit) ==>
              && (r3 & 0x0040_0000 != 0 <==> b & 0x01 != 0 && motorLock & 0x0040_0000 == 0)
              && (r3 & 0x0010_0000 != 0 <==> b & 0x04 != 0 && motorLock & 0x0010_0000 == 0)
              && (r3 & 0x2000_0000 != 0 <==> b & 0x04 != 0 && motorLock & 0x2000_0000 == 0)
              && (r3 & 0x0020_0000 != 0 <==> b & 0x20 != 0 && motorLock & 0x0020_0000 == 0)
  {
    hide Masks, PulseWord;
    r3 := RaisePins(w, b, motorLock, inhibit);
    if w & 0x2070_0000 == 0 && Masks(motorLock, inhibit) {
      Pins.StepPins(w, b, motorLock, inhibit);
    }
  }

  method ClearSteps(w: bv32) returns (r3: bv32)
    ensures r3 == SettleWord(w)
  {
    ClearAll(w);
    r3 := w & !X_STEP;
    r3 := r3 & !Y1_STEP;
    r3 := r3 & !Y2_STEP;
    r3 := r3 & !Z_STEP;
  }

  method ClearOutputs(w: bv32) returns (r3: bv32)
    ensures r3 == ParkWord(w)
  {
    ClearAll(w);
    r3 := w & !LASER_ENABLE;
    r3 := r3 & !LASER_HEAD;
    r3 := r3 & !X_STEP;
    r3 := r3 & !Y1_STEP;
    r3 := r3 & !Y2_STEP;
    r3 := r3 & !Z_STEP;
  }

  /** The byte as executed. */
  method Face(b: bv8, scratch6: u32) returns (byte: bv8)
    ensures byte == if DirectionOf(scratch6).Backward? then Reversed(b) else b
  {
    byte := b;
    if scratch6 >= 0x8000_0000 {
      byte := byte ^ 0x4a;
      byte := byte & !0x10;
    }
  }

  /** A position counter: down one is taken as down two and up one. */
  method Count(position: u32, stepped: bool, up: bool) returns (r0: u32)
    ensures r0 == Wrap(position + (if !stepped then 0 else if up then 1 else -1))
  {
    r0 := position;
    if stepped {
      if !up {
        WrapAdd(position - 2, 1);
        r0 := Wrap(r0 - 2);
      }
      r0 := Wrap(r0 + 1);
    } else {
      WrapSmall(position);
    }
  }

  /** The core's registers between bytes: where it continues, r1 bit 1, r2 and r3. */
  datatype Registers = Registers(resume: Resume, afterPower: bool, r2: u32, r3: bv32)

  /** scratch0 to scratch3. */
  datatype Counters = Counters(x: u32, y: u32, z: u32, bytes: u32)

  /** scratch4 to scratch7. */
  datatype Cursor = Cursor(head: u32, tail: u32, increment: u32, way: u32)

  /** Context words 18 and 20, ANDed out of the GPIO value. */
  datatype Bits = Bits(lock: bv32, inhibit: bv32)

  /** What the host and the PWM see. */
  datatype Outputs = Outputs(mailbox: bool, line: bool, duty: bv8)

  /** The channel context that the fields stand for. */
  function Context(regs: Registers, mapped: bool, counters: Counters, cursor: Cursor, bits: Bits, outputs: Outputs,
                   at: int, log: seq<Entry>): Engine {
    Engine(regs.resume, regs.afterPower, regs.r2, regs.r3, mapped, counters.x, counters.y, counters.z, counters.bytes,
           cursor.head, cursor.tail, DirectionOf(cursor.increment), cursor.way,
           bits.lock, bits.inhibit, outputs.mailbox, outputs.line, outputs.duty, at, log)
  }

  lemma StepContext(regs: Registers, mapped: bool, counters: Counters, cursor: Cursor, bits: Bits, outputs: Outputs,
                    at: int, log: seq<Entry>, b: bv8, byte: bv8)
    requires !IsPower(b) && byte == if DirectionOf(cursor.increment).Backward? then Reversed(b) else b
    ensures !IsPower(byte)
    ensures var setup := SetupWord(regs.r3, byte);
            var pulse := PulseWord(setup, byte, bits.lock, bits.inhibit);
            var settle := SettleWord(pulse);
            Spec.StepByte(Context(regs, mapped, counters, cursor, bits, outputs, at, log), b)
              == Context(regs.(r3 := settle, afterPower := false), mapped, Stepped(counters, byte), cursor, bits,
                  outputs,
                         at, log + [Step(at, b, setup, pulse, settle)])
  {
    ReversedUndoes(b, MotorX);
  }

  function Stepped(c: Counters, b: bv8): Counters {
    Counters(Wrap(c.x + Delta(b, MotorX)), Wrap(c.y + Delta(b, MotorY1)), Wrap(c.z + Delta(b, MotorZ)), c.bytes)
  }

  lemma PowerContext(regs: Registers, mapped: bool, counters: Counters, cursor: Cursor, bits: Bits, outputs: Outputs,
                     at: int, log: seq<Entry>, b: bv8)
    requires IsPower(b)
    ensures var sets := !regs.afterPower && cursor.increment < 0x8000_0000;
            Spec.PowerByte(Context(regs, mapped, counters, cursor, bits, outputs, at, log), b)
              == Context(if sets then regs.(afterPower := true) else regs, mapped, counters, cursor, bits,
                         if sets then outputs.(duty := b & 0x7f) else outputs, at, log + [Power(at, b)])
    ensures Spec.Again(Context(regs, mapped, counters, cursor, bits, outputs, at, log), b) == !regs.afterPower
  {
  }

  lemma EndContext(regs: Registers, mapped: bool, counters: Counters, cursor: Cursor, bits: Bits, outputs: Outputs,
                   at: int, log: seq<Entry>)
    ensures var step := Increment(DirectionOf(cursor.increment));
            Spec.EndByte(Context(regs, mapped, counters, cursor, bits, outputs, at, log))
              == Context(regs.(resume := AtLoop), mapped, counters.(bytes := Wrap(counters.bytes + step)),
                         cursor.(head := Wrap(cursor.head + step),
                                 way := if cursor.way == 0 then 0 else cursor.way - 1),
                         if cursor.way == 1 then bits.(inhibit := 0) else bits,
                         if cursor.way == 1 then outputs.(line := true) else outputs, at + step, log)
  {
  }

  lemma ParkContext(regs: Registers, mapped: bool, counters: Counters, cursor: Cursor, bits: Bits, outputs: Outputs,
                    at: int, log: seq<Entry>)
    ensures var first := cursor.increment != 0;
            var again := Wrap(regs.r2 + 1) == 255;
            var word := ParkWord(regs.r3);
            Spec.AllDone(Context(regs, mapped, counters, cursor, bits, outputs, at, log))
              == Context(regs.(r3 := word, resume := AtStart, r2 := if first || again then 0 else Wrap(regs.r2 + 1)),
                  mapped, counters,
                         cursor.(increment := 0, way := if first then 0 else cursor.way), bits,
                         outputs.(mailbox := outputs.mailbox || first, line := outputs.line || first || again),
                         at, log + [Park(word)])
  {
  }

  /** One unfolding of a tick. */
  lemma ConsumeOnce(e: Engine, mem: seq<bv8>)
    requires RingSize(|mem|) && !Idle(e, |mem|)
    ensures var b := mem[Slot(e.head, |mem|)];
            && Consume(e, mem) == (if Again(e, b) then Consume(Pass(e, b), mem) else Pass(e, b))
            && (Again(e, b) ==> Room(Pass(e, b), |mem|) < Room(e, |mem|))
  {
    var b := mem[Slot(e.head, |mem|)];
    if Again(e, b) {
      RoomShrinks(e, b, |mem|);
    }
  }

  class SdmaScript {
    const ring: array<bv8>
    const mapped: bool
    var regs: Registers
    var counters: Counters
    var cursor: Cursor
    var bits: Bits
    var outputs: Outputs
    ghost var at: int
    ghost var log: seq<Entry>
    ghost var port: seq<bv32>   // every word stored to the GPIO register

    ghost predicate Valid()
      reads this
    {
      cursor.increment == 0 || cursor.increment == 1 || cursor.increment == MINUS_ONE
    }

    /** The words stored are those of the entries logged. */
    ghost predicate Ported()
      reads this`log, this`port
    {
      port == Port(log)
    }

    ghost function View(): Engine
      reads this
    {
      Context(regs, mapped, counters, cursor, bits, outputs, at, log)
    }

    /** The registers the host reads back. */
    lemma Indices()
      ensures View().head == cursor.head && View().tail == cursor.tail && View().at == at
      ensures View().mapped == mapped && (View().dir.Parked? <==> cursor.increment == 0)
    {
    }

    constructor (ring: array<bv8>, mapped: bool)
      ensures Valid() && Ported() && this.ring == ring && log == [] && at == 0
      ensures View() == Engine(AtStart, false, 0, 0, mapped, 0, 0, 0, 0, 0, 0, Forward, 0, 0, 0, false, false, 0, 0, [])
    {
      this.ring := ring;
      this.mapped := mapped;
      regs := Registers(AtStart, false, 0, 0);
      counters := Counters(0, 0, 0, 0);
      cursor := Cursor(0, 0, 1, 0);
      bits := Bits(0, 0);
      outputs := Outputs(false, false, 0);
      at, log, port := 0, [], [];
    }

    /** A store to the GPIO register. */
    method Store(word: bv32)
      modifies this`port
      ensures port == old(port) + [word]
    {
      port := port + [word];
    }

    method UpdatePosition(b: bv8)
      requires !IsPower(b)
      modifies this`counters
      ensures counters == Stepped(old(counters), b)
    {
      var x := Count(counters.x, b & 0x01 != 0, b & 0x02 == 0);
      var y := Count(counters.y, b & 0x04 != 0, b & 0x08 != 0);
      var z := Count(counters.z, b & 0x20 != 0, b & 0x40 != 0);
      counters := counters.(x := x, y := y, z := z);
    }

    /** The three stores of a step byte. */
    method PulsePins(byte: bv8) returns (setup: bv32, pulse: bv32, settle: bv32)
      modifies this`port
      ensures setup == SetupWord(regs.r3, byte) && pulse == PulseWord(setup, byte, bits.lock, bits.inhibit)
      ensures settle == SettleWord(pulse) && port == old(port) + [setup, pulse, settle]
    {
      setup := SetDirections(regs.r3, byte);
      Store(setup);
      pulse := SetStepsAndLaser(setup, byte, bits.lock, bits.inhibit);
      Store(pulse);
      settle := ClearSteps(pulse);
      Store(settle);
    }

    /** The per-byte path from the direction bits to the cleared step bits. */
    method StepByte(b: bv8)
      requires Valid() && Ported() && !IsPower(b)
      modifies this`regs, this`port, this`counters, this`log
      ensures Ported() && View() == Spec.StepByte(old(View()), b)
    {
      hide Context, Stepped, Spec.StepByte, SetupWord, PulseWord, SettleWord;
      var byte := Face(b, cursor.increment);
      StepContext(regs, mapped, counters, cursor, bits, outputs, at, log, b, byte);
      var setup, pulse, settle := PulsePins(byte);
      UpdatePosition(byte);
      regs := regs.(r3 := settle, afterPower := false);
      Log(Step(at, b, setup, pulse, settle));
    }

    /** The power-level path; `again` is r1 bit 2. */
    method PowerByte(b: bv8) returns (again: bool)
      requires Ported() && IsPower(b)
      modifies this`outputs, this`regs, this`log
      ensures Ported() && View() == Spec.PowerByte(old(View()), b)
      ensures again == Spec.Again(old(View()), b)
    {
      hide Context, Spec.PowerByte, Spec.Again;
      PowerContext(regs, mapped, counters, cursor, bits, outputs, at, log, b);
      Log(Power(at, b));
      if regs.afterPower {
        return false;
      }
      if cursor.increment < 0x8000_0000 {
        SetDuty(b);
      }
      return true;
    }

    /** The entry whose words have just been stored. */
    ghost method Log(x: Entry)
      requires port == Port(log) + EntryWords(x)
      modifies this`log
      ensures Ported() && log == old(log) + [x]
    {
      PortPush(log, x);
      log := log + [x];
    }

    method SetDuty(b: bv8)
      modifies this`outputs, this`regs
      ensures outputs == old(outputs).(duty := b & 0x7f) && regs == old(regs).(afterPower := true)
    {
      outputs := outputs.(duty := b & 0x7f);
      regs := regs.(afterPower := true);
    }

    method EndByte()
      requires Valid()
      modifies this`regs, this`counters, this`cursor, this`bits, this`outputs, this`at
      ensures Valid() && View() == Spec.EndByte(old(View()))
    {
      hide Context, Spec.EndByte;
      EndContext(regs, mapped, counters, cursor, bits, outputs, at, log);
      var bytes := Add(counters.bytes, cursor.increment);
      counters := counters.(bytes := bytes);
      var head := Add(cursor.head, cursor.increment);
      at := at + Increment(DirectionOf(cursor.increment));
      var way := cursor.way;
      if way != 0 {
        way := way - 1;
        if way == 0 {
          WaypointHit();
        }
      }
      cursor := cursor.(head := head, way := way);
      regs := regs.(resume := AtLoop);
    }

    method WaypointHit()
      modifies this`bits, this`outputs
      ensures bits == old(bits).(inhibit := 0) && outputs == old(outputs).(line := true)
    {
      bits := bits.(inhibit := 0);
      outputs := outputs.(line := true);
    }

    /** The path of one byte through the main loop; `again` is r1 bit 2. */
    method ConsumeByte(b: bv8) returns (again: bool)
      requires Valid() && Ported()
      modifies this`regs, this`port, this`counters, this`cursor, this`bits, this`outputs, this`at, this`log
      ensures Valid() && Ported() && View() == Pass(old(View()), b) && again == Again(old(View()), b)
    {
      if b & 0x80 != 0 {
        again := PowerByte(b);
      } else {
        StepByte(b);
        again := false;
      }
      EndByte();
    }

    method AllDoneFirst()
      modifies this`regs, this`cursor, this`outputs
      ensures regs == old(regs).(r2 := 0) && cursor == old(cursor).(increment := 0, way := 0)
      ensures outputs == old(outputs).(mailbox := true, line := true)
    {
      cursor := cursor.(increment := 0, way := 0);
      outputs := outputs.(mailbox := true);
      regs := regs.(r2 := 0);
      outputs := outputs.(line := true);
    }

    /** Every 255 parked iterations the signal is raised again. */
    method RepeatSignal()
      modifies this`regs, this`outputs
      ensures var again := Wrap(old(regs).r2 + 1) == 255;
              && regs == old(regs).(r2 := if again then 0 else Wrap(old(regs).r2 + 1))
              && outputs == old(outputs).(line := old(outputs).line || again)
    {
      regs := regs.(r2 := Wrap(regs.r2 + 1));
      if regs.r2 == 255 {
        regs := regs.(r2 := 0);
        outputs := outputs.(line := true);
      }
    }

    method AllDone()
      requires Ported()
      modifies this`regs, this`port, this`cursor, this`outputs, this`log
      ensures Valid() && Ported() && View() == Spec.AllDone(old(View()))
    {
      hide Context, Spec.AllDone, ParkWord, Port;
      ParkContext(regs, mapped, counters, cursor, bits, outputs, at, log);
      var word := ClearOutputs(regs.r3);
      Store(word);
      if cursor.increment != 0 {
        AllDoneFirst();
      } else {
        RepeatSignal();
      }
      regs := regs.(r3 := word, resume := AtStart);
      PortPush(log, Park(word));
      log := log + [Park(word)];
    }

    /** The main loop, until it yields. */
    method ConsumeBytes()
      requires Valid() && Ported() && RingSize(ring.Length)
      modifies this
      ensures Valid() && Ported() && View() == Consume(old(View()), ring[..])
    {
      hide Context, Spec.Pass, Spec.Again, Spec.AllDone;
      ghost var e := View();
      var again := true;
      while again
        invariant Valid() && Ported()
        invariant if again then Consume(View(), ring[..]) == Consume(e, ring[..]) else View() == Consume(e, ring[..])
        decreases again, Room(View(), ring.Length)
      {
        Indices();
        again := false;
        if cursor.increment == 0 || !mapped || cursor.head % ring.Length == cursor.tail % ring.Length {
          AllDone();
        } else {
          ConsumeOnce(View(), ring[..]);
          again := ConsumeByte(ring[cursor.head % ring.Length]);
        }
      }
    }

    /** From one yield to the next. */
    method Tick()
      requires Valid() && Ported() && RingSize(ring.Length)
      modifies this
      ensures Valid() && Ported() && View() == Spec.Tick(old(View()), ring[..])
    {
      if regs.resume.AtStart? {
        regs := Registers(AtLoop, false, regs.r2, 0);
      } else {
        ConsumeBytes();
      }
    }

    // ---- host access to the channel context ----

    method SetTail(tail: u32)
      modifies this`cursor
      ensures (old(Valid()) ==> Valid()) && View() == old(View()).(tail := tail)
    {
      cursor := cursor.(tail := tail);
    }

    /** The registers of a run start, the laser inhibit and the mailbox. */
    method SetRun(tail: u32, backward: bool, way: u32, inhibit: bv32)
      modifies this`cursor, this`bits, this`outputs
      ensures Valid()
      ensures View() == old(View()).(tail := tail, dir := if backward then Backward else Forward, way := way,
                                     inhibit := inhibit, mailbox := false)
    {
      cursor := cursor.(tail := tail, increment := if backward then MINUS_ONE else 1, way := way);
      bits := bits.(inhibit := inhibit);
      outputs := outputs.(mailbox := false);
    }

    method ClearData()
      modifies this`counters, this`cursor, this`at
      ensures (old(Valid()) ==> Valid()) && View() == old(View()).(bytes := 0, head := 0, tail := 0, at := 0)
      ensures counters.bytes == 0 && cursor.head == 0 && cursor.tail == 0
    {
      counters := counters.(bytes := 0);
      cursor := cursor.(head := 0, tail := 0);
      at := 0;
    }

    method ClearPosition()
      modifies this`counters
      ensures View() == old(View()).(x := 0, y := 0, z := 0)
      ensures counters.x == 0 && counters.y == 0 && counters.z == 0
    {
      counters := counters.(x := 0, y := 0, z := 0);
    }

    method SetMotorLock(mask: bv32)
      modifies this`bits
      ensures View() == old(View()).(lock := mask & STEPS) && bits.lock == mask & 0x2070_0000
    {
      bits := bits.(lock := mask & STEPS);
    }

    method TakeInterrupt()
      modifies this`outputs
      ensures View() == old(View()).(line := false) && !outputs.line
    {
      outputs := outputs.(line := false);
    }
  }
}
