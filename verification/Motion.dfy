/** What the stepper drivers see on the GPIO port, against the position
    counters. */
module Motion {
  import opened Words
  import opened Pulse
  import opened Engine
  import opened Playback

  function EntryWords(x: Entry): seq<bv32> {
    match x
    case Step(_, _, setup, pulse, settle) => [setup, pulse, settle]
    case Power(_, _) => []
    case Park(word) => [word]
  }

  /** Every word written to the GPIO register, oldest first. */
  function Port(log: seq<Entry>): seq<bv32> {
    if log == [] then [] else Port(log[..|log| - 1]) + EntryWords(log[|log| - 1])
  }

  lemma PortPush(log: seq<Entry>, x: Entry)
    ensures Port(log + [x]) == Port(log) + EntryWords(x)
  {
    assert (log + [x])[..|log|] == log;
  }

  /** The script's masks and step pins between bytes. */
  predicate Quiescent(e: Engine) {
    Masks(e.lock, e.inhibit) && Low(e.r3) && Low(Last(0, Port(e.log)))
  }

  /** Net steps a driver has taken since the port was last low at the start. */
  function Taken(e: Engine, m: Motor): int {
    Decode(0, Port(e.log), m)
  }

  /** The counter less the steps really taken, for a motor that is free; the
      steps themselves for one that is locked. */
  function Slip(e: Engine, m: Motor, locked: bool): u32 {
    Wrap((if locked then 0 else Position(e, m)) - Taken(e, m))
  }

  /** A counted move that the driver takes, or that a locked driver does not,
      leaves the slip. */
  lemma SlipKept(e: Engine, f: Engine, m: Motor, locked: bool, move: int)
    requires Position(f, m) == Wrap(Position(e, m) + move)
    requires Taken(f, m) == Taken(e, m) + (if locked then 0 else move)
    ensures Slip(f, m, locked) == Slip(e, m, locked)
  {
    WrapAdd(Position(e, m) + move, -(Taken(e, m) + move));
  }

  lemma ParkWordLow(w: bv32)
    ensures Low(ParkWord(w)) && Low(0)
  {
  }

  predicate Locked(e: Engine, m: Motor) {
    Locks(e.lock, m)
  }

  lemma PowerDecodes(e: Engine, b: bv8, m: Motor)
    requires Quiescent(e)
    ensures Quiescent(PowerByte(e, b)) && Taken(PowerByte(e, b), m) == Taken(e, m)
  {
    hide Port, Decode, Low, Masks, Locks;
    PortPush(e.log, Power(e.at, b));
    assert Port(e.log) + [] == Port(e.log);
  }

  lemma PushDecodes(log: seq<Entry>, x: Entry, m: Motor)
    requires x.Step?
    ensures Decode(0, Port(log + [x]), m)
         == Decode(0, Port(log), m) + Decode(Last(0, Port(log)), [x.setup, x.pulse, x.settle], m)
    ensures Last(0, Port(log + [x])) == x.settle
  {
    PortPush(log, x);
    DecodeAppend(0, Port(log), [x.setup, x.pulse, x.settle], m);
  }

  lemma StepDecodes(e: Engine, b: bv8, m: Motor)
    requires Quiescent(e) && !e.dir.Parked? && !IsPower(b)
    ensures Quiescent(StepByte(e, b))
    ensures Taken(StepByte(e, b), m) == Taken(e, m) + (if Locked(e, m) then 0 else Moved(e.dir, b, m))
  {
    hide Port, Decode, Low, Masks, SetupWord, PulseWord, SettleWord, Delta, Reversed, Last, Locks;
    var f := Facing(e, b);
    assert !IsPower(f) && Delta(f, m) == Moved(e.dir, b, m) by {
      ReversedUndoes(b, m);
      FacingMoves(e, b, m);
    }
    var setup := SetupWord(e.r3, f);
    var pulse := PulseWord(setup, f, e.lock, e.inhibit);
    var settle := SettleWord(pulse);
    PushDecodes(e.log, Step(e.at, b, setup, pulse, settle), m);
    assert Low(settle) by {
      StepWords(e.r3, f, e.lock, e.inhibit, setup, pulse, settle);
    }
    EntryDecodes(Last(0, Port(e.log)), e.r3, f, e.lock, e.inhibit, m, setup, pulse, settle);
  }

  /** One byte: an unlocked motor takes exactly the steps its counter counts; a
      locked one takes none. */
  lemma BodyDecodes(e: Engine, b: bv8, m: Motor)
    requires Quiescent(e) && !e.dir.Parked?
    ensures Quiescent(Body(e, b))
    ensures Taken(Body(e, b), m) == Taken(e, m) + (if Locked(e, m) then 0 else Moved(e.dir, b, m))
  {
    hide Quiescent, Taken, Locked, IsPower, StepByte;
    BodyFrame(e, b);
    if IsPower(b) {
      PowerDecodes(e, b, m);
    } else {
      StepDecodes(e, b, m);
    }
  }

  lemma PassDecodes(e: Engine, b: bv8, m: Motor)
    requires Quiescent(e) && !e.dir.Parked?
    ensures Quiescent(Pass(e, b)) && Locked(Pass(e, b), m) == Locked(e, m)
    ensures Taken(Pass(e, b), m) == Taken(e, m) + (if Locked(e, m) then 0 else Moved(e.dir, b, m))
  {
    hide Port, Decode, Low, Masks, Body, Last, Locks;
    BodyDecodes(e, b, m);
    PassFrame(e, b);
    MasksLess(e.lock, e.inhibit);
  }

  lemma MasksLess(lock: bv32, inhibit: bv32)
    requires Masks(lock, inhibit)
    ensures Masks(lock, 0) && Masks(lock, LASER)
  {
  }

  lemma ParkDecodes(log: seq<Entry>, w: bv32, m: Motor)
    requires Low(w)
    ensures Last(0, Port(log + [Park(w)])) == w && Decode(0, Port(log + [Park(w)]), m) == Decode(0, Port(log), m)
  {
    hide Port, Low, Decode;
    PortPush(log, Park(w));
    DecodeAppend(0, Port(log), [w], m);
    LowDecodes(Last(0, Port(log)), w, m);
  }

  /** The script's masks kept, and the port as it was but for low words. */
  lemma SameRest(e: Engine, f: Engine, m: Motor)
    requires Quiescent(e) && f.lock == e.lock && f.inhibit == e.inhibit && Low(f.r3) && Low(Last(0, Port(f.log)))
    requires Decode(0, Port(f.log), m) == Decode(0, Port(e.log), m)
    ensures Quiescent(f) && Locked(f, m) == Locked(e, m) && Taken(f, m) == Taken(e, m)
  {
    hide Port, Low, Masks, Decode, Last, Locks;
  }

  lemma RestDecodes(e: Engine, m: Motor)
    requires Quiescent(e)
    ensures Quiescent(AllDone(e)) && Locked(AllDone(e), m) == Locked(e, m) && Taken(AllDone(e), m) == Taken(e, m)
    ensures Quiescent(Restarted(e)) && Locked(Restarted(e), m) == Locked(e, m) && Taken(Restarted(e), m) == Taken(e, m)
  {
    hide Port, Low, Masks, ParkWord, Decode, Last, Locked, Taken, Locks;
    ParkWordLow(e.r3);
    ParkDecodes(e.log, ParkWord(e.r3), m);
    SameRest(e, AllDone(e), m);
    SameRest(e, Restarted(e), m);
  }

  /** The motor is as locked as it was, and has slipped as far. */
  predicate Follows(e: Engine, m: Motor, locked: bool, slip: u32) {
    Quiescent(e) && Locked(e, m) == locked && Slip(e, m, locked) == slip
  }

  lemma PassFollows(e: Engine, b: bv8, m: Motor, locked: bool, slip: u32)
    requires Follows(e, m, locked, slip) && !e.dir.Parked?
    ensures Follows(Pass(e, b), m, locked, slip)
  {
    hide Quiescent, Taken, Locked, Pass, Position, Slip;
    var p := Pass(e, b);
    PassDecodes(e, b, m);
    assert Slip(p, m, locked) == Slip(e, m, locked) by {
      PassMoves(e, b, m);
      SlipKept(e, p, m, locked, Moved(e.dir, b, m));
    }
  }

  /** Rewriting the port without a step, and leaving the counters. */
  lemma StillFollows(e: Engine, f: Engine, m: Motor, locked: bool, slip: u32)
    requires Follows(e, m, locked, slip) && Quiescent(f) && Locked(f, m) == locked
    requires Taken(f, m) == Taken(e, m) && Position(f, m) == Position(e, m)
    ensures Follows(f, m, locked, slip)
  {
    hide Quiescent, Taken, Locked, Position;
    WrapSmall(Position(e, m));
    SlipKept(e, f, m, locked, 0);
  }

  lemma RestFollows(e: Engine, m: Motor, locked: bool, slip: u32)
    requires Follows(e, m, locked, slip)
    ensures Follows(AllDone(e), m, locked, slip) && Follows(Restarted(e), m, locked, slip)
  {
    hide Quiescent, Taken, Locked, Slip;
    RestDecodes(e, m);
    RestFrame(e);
    StillFollows(e, AllDone(e), m, locked, slip);
    StillFollows(e, Restarted(e), m, locked, slip);
  }

  lemma TickFollows(e: Engine, mem: seq<bv8>, m: Motor, locked: bool, slip: u32)
    requires RingSize(|mem|) && Follows(e, m, locked, slip)
    ensures Follows(Tick(e, mem), m, locked, slip)
  {
    hide Follows, Pass;
    var keep := (f: Engine) => Follows(f, m, locked, slip);
    forall f: Engine | keep(f)
      ensures keep(AllDone(f)) && keep(Restarted(f))
      ensures !Idle(f, |mem|) ==> keep(Pass(f, mem[Slot(f.head, |mem|)]))
    {
      RestFollows(f, m, locked, slip);
      if !Idle(f, |mem|) {
        PassFollows(f, mem[Slot(f.head, |mem|)], m, locked, slip);
      }
    }
    TickKeeps(e, mem, keep);
  }

  /** Host steps that leave the motor's lock as it is. */
  predicate LeavesMotor(ev: Event, m: Motor, locked: bool) {
    ev.SetLock? ==> Locks(ev.mask, m) == locked
  }

  /** Host steps touch neither the port nor the counters. */
  predicate SamePort(e: Engine, f: Engine) {
    f.log == e.log && f.r3 == e.r3 && f.x == e.x && f.y == e.y && f.z == e.z
  }

  lemma SamePortFollows(e: Engine, f: Engine, m: Motor, locked: bool, slip: u32)
    requires Follows(e, m, locked, slip) && SamePort(e, f) && Masks(f.lock, f.inhibit) && Locked(f, m) == locked
    ensures Follows(f, m, locked, slip)
  {
    hide Port, Decode, Low, Masks, Last, Locks;
    StillFollows(e, f, m, locked, slip);
  }

  lemma LoadedMasks(e: Engine, f: Engine, mask: bv32, m: Motor)
    requires Masks(e.lock, e.inhibit) && (f.inhibit == e.inhibit || f.inhibit == 0 || f.inhibit == LASER)
    ensures f.lock == mask & STEPS ==> Masks(f.lock, f.inhibit) && Locked(f, m) == Locks(mask, m)
    ensures f.lock == e.lock ==> Masks(f.lock, f.inhibit) && Locked(f, m) == Locked(e, m)
  {
    MasksLess(e.lock, e.inhibit);
    MaskedPins(mask, e.inhibit, m);
    MasksLess(mask & STEPS, e.inhibit);
  }

  lemma MaskedPins(mask: bv32, inhibit: bv32, m: Motor)
    requires inhibit & !LASER == 0
    ensures Masks(mask & STEPS, inhibit) && Locks(mask & STEPS, m) == Locks(mask, m)
  {
  }

  /** What a host step can do to the context. */
  lemma HostStep(s: Sys, ev: Event)
    requires RingSize(|s.mem|) && !ev.TimerTick? && !ev.Clear?
    ensures var f := Next(s, ev).e;
            && SamePort(s.e, f)
            && f.lock == (if ev.SetLock? then ev.mask & STEPS else s.e.lock)
            && (f.inhibit == s.e.inhibit || (ev.PublishRun? && (f.inhibit == 0 || f.inhibit == LASER)))
  {
    hide EndWrite, PublishStep;
    match ev
    case WriteEnd(data, copy, publishOk) => EndWriteFrame(s, data, copy, publishOk);
    case PublishRun(backward, way, accelerate, decel) => PublishStepFrame(s, backward, way, accelerate, decel);
    case _ => OtherEvents(s, ev);
  }

  /** A clear that resets the position counters. */
  predicate Homes(s: Sys, ev: Event) {
    ev.Clear? && ev.position && s.owner.Free? && s.mode.Stopped?
  }

  lemma ClearFollows(s: Sys, ev: Event, m: Motor, locked: bool, slip: u32)
    requires RingSize(|s.mem|) && Follows(s.e, m, locked, slip) && ev.Clear?
    ensures var f := Next(s, ev).e;
            Taken(f, m) == Taken(s.e, m)
                && Follows(f, m, locked, if Homes(s, ev) then Wrap(0 - Taken(s.e, m)) else slip)
  {
    hide Next, Decode, Port, Masks, Last, Low, Locks;
    ClearFrame(s, ev);
  }

  lemma NextFollows(s: Sys, ev: Event, m: Motor, locked: bool, slip: u32)
    requires RingSize(|s.mem|) && Follows(s.e, m, locked, slip) && LeavesMotor(ev, m, locked)
    ensures Follows(Next(s, ev).e, m, locked, if Homes(s, ev) then Wrap(0 - Taken(s.e, m)) else slip)
  {
    hide Follows;
    if ev.TimerTick? {
      TickFollows(s.e, s.mem, m, locked, slip);
    } else if ev.Clear? {
      ClearFollows(s, ev, m, locked, slip);
    } else {
      HostFollows(s, ev, m, locked, slip);
    }
  }

  lemma QuiescentMasks(e: Engine)
    requires Quiescent(e)
    ensures Masks(e.lock, e.inhibit)
  {
  }

  lemma HostFollows(s: Sys, ev: Event, m: Motor, locked: bool, slip: u32)
    requires RingSize(|s.mem|) && Follows(s.e, m, locked, slip) && LeavesMotor(ev, m, locked) && !ev.TimerTick?
             && !ev.Clear?
    ensures Follows(Next(s, ev).e, m, locked, slip)
  {
    hide Next, Quiescent, Slip, Masks, Locks;
    QuiescentMasks(s.e);
    HostStep(s, ev);
    LoadedMasks(s.e, Next(s, ev).e, if ev.SetLock? then ev.mask else 0, m);
    SamePortFollows(s.e, Next(s, ev).e, m, locked, slip);
  }

  /** The travel at the last reset of the counters. */
  function Home(s: Sys, evs: seq<Event>, m: Motor, home: int): int
    requires RingSize(|s.mem|)
    decreases |evs|
  {
    if evs == [] then home
    else Home(Next(s, evs[0]), evs[1..], m, if Homes(s, evs[0]) then Taken(s.e, m) else home)
  }

  /** Motion refinement. Over any run of ticks, writes, stops, clears and runs
      forward or backward: what a free motor's driver decodes from everything
      written to the port and what its position counter counts differ by the travel
      at the counter's last reset, and a locked motor's driver decodes no motion. */
  lemma {:induction false} PortMovesMatchCounters(s: Sys, evs: seq<Event>, m: Motor, locked: bool, home: int)
    requires RingSize(|s.mem|) && Follows(s.e, m, locked, Wrap(0 - home))
    requires forall i :: 0 <= i < |evs| ==> LeavesMotor(evs[i], m, locked)
    ensures Follows(Run(s, evs).e, m, locked, Wrap(0 - Home(s, evs, m, home)))
    decreases |evs|
  {
    hide Follows, Next, Taken, Homes, Wrap;
    if evs != [] {
      NextFollows(s, evs[0], m, locked, Wrap(0 - home));
      PortMovesMatchCounters(Next(s, evs[0]), evs[1..], m, locked, if Homes(s, evs[0]) then Taken(s.e, m) else home);
    }
  }

  lemma NoSlip(e: Engine, m: Motor, home: int)
    requires Slip(e, m, false) == Wrap(0 - home)
    ensures Position(e, m) == Wrap(Taken(e, m) - home)
  {
    hide Position, Taken;
    WrapAdd(Position(e, m) - Taken(e, m), Taken(e, m));
    WrapAdd(0 - home, Taken(e, m));
    WrapSmall(Position(e, m));
  }

  lemma BootFollows(mem: seq<bv8>, mapped: bool, m: Motor)
    requires RingSize(|mem|)
    ensures Follows(Boot(mem, mapped).e, m, false, 0)
  {
    var e := Boot(mem, mapped).e;
    assert Taken(e, m) == 0 && Position(e, m) == 0;
  }

  /** From loading, while a motor is never locked, its counter equals the steps its
      driver has taken since the counter's last reset, through any number of jobs. */
  lemma CountersAreTravel(mem: seq<bv8>, mapped: bool, evs: seq<Event>, m: Motor)
    requires RingSize(|mem|)
    requires forall i :: 0 <= i < |evs| ==> LeavesMotor(evs[i], m, false)
    ensures var s := Boot(mem, mapped);
            var t := Run(s, evs).e;
            Position(t, m) == Wrap(Taken(t, m) - Home(s, evs, m, 0))
  {
    hide Quiescent, Locked, Taken, Position;
    var s := Boot(mem, mapped);
    BootFollows(mem, mapped, m);
    PortMovesMatchCounters(s, evs, m, false, 0);
    NoSlip(Run(s, evs).e, m, Home(s, evs, m, 0));
  }
}
