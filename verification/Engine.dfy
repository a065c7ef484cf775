/** One timer tick of the pulse script (asm/sdma.asm), as a function of the
    channel context and the ring. */
module Engine {
  import opened Words
  import opened Pulse

  /** scratch6: 0, 1 or 0xFFFFFFFF. */
  datatype Direction = Parked | Forward | Backward

  /** Where the script continues at the next tick: at `start` after loading and
      after each parked iteration, at the main loop otherwise. */
  datatype Resume = AtStart | AtLoop

  /** What the script did, for the properties: each byte executed, with its
      unbounded index and the words it wrote, and each parked iteration. */
  datatype Entry =
    | Step(at: int, byte: bv8, setup: bv32, pulse: bv32, settle: bv32)
    | Power(at: int, byte: bv8)
    | Park(word: bv32)

  /** The channel context. `at` and `log` are history variables: the head index
      before it was cut to 32 bits, and what was executed since the last clear. */
  datatype Engine = Engine(
    resume: Resume,
    lastPower: bool,      // r1 bit 1
    idle: u32,            // r2 while parked
    r3: bv32,
    mapped: bool,         // r6 holds a ring address
    x: u32, y: u32, z: u32,       // scratch0-2
    bytes: u32,           // scratch3
    head: u32,            // scratch4
    tail: u32,            // scratch5
    dir: Direction,       // scratch6
    way: u32,             // scratch7
    lock: bv32,           // CA
    inhibit: bv32,        // context word 20
    mailbox: bool,
    line: bool,           // interrupt raised and not yet serviced
    duty: bv8,            // PWM sample register
    at: int,
    log: seq<Entry>)

  function Position(e: Engine, m: Motor): u32 {
    match m
    case MotorX => e.x
    case MotorY1 | MotorY2 => e.y
    case MotorZ => e.z
  }

  function Increment(d: Direction): int {
    match d
    case Parked => 0
    case Forward => 1
    case Backward => -1
  }

  /** End of a byte: count it, move the head, count the waypoint down; the byte
      that reaches the waypoint ends the laser inhibit and raises the line. */
  function EndByte(e: Engine): Engine {
    e.(resume := AtLoop,
       bytes := Wrap(e.bytes + Increment(e.dir)), head := Wrap(e.head + Increment(e.dir)),
       at := e.at + Increment(e.dir),
       way := if e.way == 0 then 0 else e.way - 1,
       inhibit := if e.way == 1 then 0 else e.inhibit,
       line := e.line || e.way == 1)
  }

  /** The byte as executed. */
  function Facing(e: Engine, b: bv8): bv8 {
    if e.dir.Backward? then Reversed(b) else b
  }

  /** A step byte: three GPIO writes and the position counters. */
  function StepByte(e: Engine, b: bv8): Engine {
    var f := Facing(e, b);
    var setup := SetupWord(e.r3, f);
    var pulse := PulseWord(setup, f, e.lock, e.inhibit);
    var settle := SettleWord(pulse);
    e.(r3 := settle, lastPower := false,
       x := Wrap(e.x + Delta(f, MotorX)), y := Wrap(e.y + Delta(f, MotorY1)), z := Wrap(e.z + Delta(f, MotorZ)),
       log := e.log + [Step(e.at, b, setup, pulse, settle)])
  }

  /** A power byte: only the first of a row, and only forward, sets the duty. */
  function PowerByte(e: Engine, b: bv8): Engine {
    var logged := e.(log := e.log + [Power(e.at, b)]);
    if e.lastPower || e.dir.Backward? then logged
    else logged.(duty := b & 0x7f, lastPower := true)
  }

  /** An idle iteration: laser and step pins low. The first one publishes the
      end of data; later ones count, and repeat the interrupt every 255. */
  function AllDone(e: Engine): Engine {
    var first := !e.dir.Parked?;
    var again := Wrap(e.idle + 1) == 255;
    var w := ParkWord(e.r3);
    e.(resume := AtStart, r3 := w, log := e.log + [Park(w)],
       dir := Parked, way := if first then 0 else e.way, mailbox := e.mailbox || first,
       idle := if first || again then 0 else Wrap(e.idle + 1),
       line := e.line || first || again)
  }

  /** The idle test of the main loop; the FIFO test compares masked indices. */
  predicate Idle(e: Engine, size: nat)
    requires size > 0
  {
    e.dir.Parked? || !e.mapped || Slot(e.head, size) == Slot(e.tail, size)
  }

  /** One pass over a byte that is there. */
  function Pass(e: Engine, b: bv8): Engine {
    EndByte(Body(e, b))
  }

  /** Whether the pass goes straight on to another byte. */
  predicate Again(e: Engine, b: bv8) {
    IsPower(b) && !e.lastPower
  }

  /** Bounds the passes of a tick: one power byte forward; backward, the masked
      distance to the dead stop. */
  function Room(e: Engine, size: nat): nat
    requires size > 0
  {
    if e.dir.Backward? then (e.head - e.tail) % size else if e.lastPower then 0 else 1
  }

  lemma StepBack(head: u32, tail: u32, size: nat)
    requires RingSize(size) && Slot(head, size) != Slot(tail, size)
    ensures (head - tail) % size > 0
    ensures (Wrap(head - 1) - tail) % size == (head - tail) % size - 1
  {
    var r := (head - tail) % size;
    var q := (head - tail) / size;
    assert head - tail == q * size + r;
    if r == 0 {
      assert head == tail + q * size;
      ModShift(tail, q, size);
      assert false;
    }
    DivModUnique(head - 1 - tail, q, r - 1, size);
    var carry := if head == 0 then 1 else 0;
    assert Wrap(head - 1) - tail == head - 1 - tail + carry * U32;
    var k := U32 / size;
    assert carry * U32 == (carry * k) * size;
    ModShift(head - 1 - tail, carry * k, size);
  }

  /** A backward tick that chains through power bytes closes in on the dead
      stop; a forward one chains at most once. */
  lemma RoomShrinks(e: Engine, b: bv8, size: nat)
    requires RingSize(size) && !Idle(e, size) && Again(e, b)
    ensures Room(Pass(e, b), size) < Room(e, size)
  {
    StepBack(e.head, e.tail, size);
    PassFrame(e, b);
  }

  /** What executing a byte leaves to its end-of-byte part. */
  predicate SameControl(e: Engine, f: Engine) {
    && f.head == e.head && f.bytes == e.bytes && f.at == e.at && f.dir == e.dir && f.tail == e.tail
    && f.mapped == e.mapped && f.lock == e.lock && f.mailbox == e.mailbox && f.idle == e.idle
    && f.way == e.way && f.inhibit == e.inhibit && f.line == e.line
  }

  function Body(e: Engine, b: bv8): Engine {
    if IsPower(b) then PowerByte(e, b) else StepByte(e, b)
  }

  lemma BodyFrame(e: Engine, b: bv8)
    ensures SameControl(e, Body(e, b))
    ensures Body(e, b).lastPower <==> IsPower(b) && (e.lastPower || !e.dir.Backward?)
  {
  }

  /** The signed move a byte makes when played in a direction. */
  function Moved(d: Direction, b: bv8, m: Motor): int {
    match d
    case Parked => 0
    case Forward => Delta(b, m)
    case Backward => -Delta(b, m)
  }

  lemma FacingMoves(e: Engine, b: bv8, m: Motor)
    requires !e.dir.Parked? && !IsPower(b)
    ensures Delta(Facing(e, b), m) == Moved(e.dir, b, m)
  {
    ReversedUndoes(b, m);
  }

  lemma StepMoves(e: Engine, b: bv8, m: Motor)
    ensures Position(StepByte(e, b), m) == Wrap(Position(e, m) + Delta(Facing(e, b), m))
  {
  }

  /** A byte moves each counter by its own move, undone when played backward. */
  lemma BodyMoves(e: Engine, b: bv8, m: Motor)
    requires !e.dir.Parked?
    ensures Position(Body(e, b), m) == Wrap(Position(e, m) + Moved(e.dir, b, m))
  {
    if IsPower(b) {
      WrapSmall(Position(e, m));
    } else {
      StepMoves(e, b, m);
      FacingMoves(e, b, m);
    }
  }

  lemma PassMoves(e: Engine, b: bv8, m: Motor)
    requires !e.dir.Parked?
    ensures Position(Pass(e, b), m) == Wrap(Position(e, m) + Moved(e.dir, b, m))
    ensures Pass(e, b).at == e.at + Increment(e.dir)
  {
    BodyMoves(e, b, m);
    BodyFrame(e, b);
  }

  lemma PassFrame(e: Engine, b: bv8)
    ensures var f := Body(e, b);
            && SameControl(e, f) && (f.lastPower <==> IsPower(b) && (e.lastPower || !e.dir.Backward?))
            && Pass(e, b) == f.(resume := AtLoop,
                             bytes := Wrap(e.bytes + Increment(e.dir)), head := Wrap(e.head + Increment(e.dir)),
                             at := e.at + Increment(e.dir), way := if e.way == 0 then 0 else e.way - 1,
                             inhibit := if e.way == 1 then 0 else e.inhibit, line := e.line || e.way == 1)
  {
    BodyFrame(e, b);
  }

  function Consume(e: Engine, mem: seq<bv8>): Engine
    requires RingSize(|mem|)
    decreases Room(e, |mem|)
  {
    if Idle(e, |mem|) then AllDone(e)
    else
      var b := mem[Slot(e.head, |mem|)];
      if Again(e, b) then
        RoomShrinks(e, b, |mem|);
        Consume(Pass(e, b), mem)
      else Pass(e, b)
  }

  /** The start sequence: flags and GPIO value cleared, nothing executed. */
  function Restarted(e: Engine): Engine {
    e.(resume := AtLoop, lastPower := false, r3 := 0)
  }

  predicate SameIndices(e: Engine, f: Engine) {
    && f.head == e.head && f.bytes == e.bytes && f.at == e.at && f.tail == e.tail
    && f.x == e.x && f.y == e.y && f.z == e.z
  }

  lemma RestFrame(e: Engine)
    ensures SameIndices(e, AllDone(e)) && AllDone(e).dir.Parked?
    ensures SameIndices(e, Restarted(e)) && Restarted(e).dir == e.dir
  {
  }

  /** One timer tick. */
  function Tick(e: Engine, mem: seq<bv8>): Engine
    requires RingSize(|mem|)
  {
    if e.resume.AtStart? then Restarted(e) else Consume(e, mem)
  }

  /** Induction over the passes of a tick: a predicate kept by the start
      sequence, by each pass and by the idle iteration is kept by a tick. */
  lemma {:induction false} TickKeeps(e: Engine, mem: seq<bv8>, keep: Engine -> bool)
    requires RingSize(|mem|) && keep(e)
    requires forall f: Engine :: keep(f) && f.resume.AtStart? ==> keep(Restarted(f))
    requires forall f: Engine ::
               keep(f) && f.resume.AtLoop? && !Idle(f, |mem|) ==> keep(Pass(f, mem[Slot(f.head, |mem|)]))
    requires forall f: Engine :: keep(f) && Idle(f, |mem|) ==> keep(AllDone(f))
    ensures keep(Tick(e, mem))
  {
    if e.resume.AtLoop? {
      ConsumeKeeps(e, mem, keep);
    }
  }

  lemma {:induction false} ConsumeKeeps(e: Engine, mem: seq<bv8>, keep: Engine -> bool)
    requires RingSize(|mem|) && keep(e) && e.resume.AtLoop?
    requires forall f: Engine ::
               keep(f) && f.resume.AtLoop? && !Idle(f, |mem|) ==> keep(Pass(f, mem[Slot(f.head, |mem|)]))
    requires forall f: Engine :: keep(f) && Idle(f, |mem|) ==> keep(AllDone(f))
    ensures keep(Consume(e, mem))
    decreases Room(e, |mem|)
  {
    if !Idle(e, |mem|) {
      var b := mem[Slot(e.head, |mem|)];
      if Again(e, b) {
        RoomShrinks(e, b, |mem|);
        ConsumeKeeps(Pass(e, b), mem, keep);
      }
    }
  }
}
