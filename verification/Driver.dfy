/** The driver's lifecycle (cnc.c) as atomic steps: one per section under the
    status lock, per softirq callback and per timer tick of the engine. */
module Driver {
  import opened Words
  import opened Backtrack
  import opened Ramp

  datatype State = Idle | Running | Disabled | Faulted | Underrun

  datatype Status = Status(
    state: State, faults: set<nat>, decelerating: bool, accelerating: bool,
    decelOnInterrupt: bool, waypointArmed: bool, runningBackward: bool, streaming: bool)

  /** `epit` is the timer's rate, 0 while it is stopped; `timer` the 10 ms ramp
      timer; `delta` what one of its fires changes. */
  datatype Rate = Rate(stepFreq: nat, rampFreq: nat, delta: nat, epit: nat, timer: bool)

  /** The laser latch, and the direction and level of the FIRE line. */
  datatype Fire = Fire(latched: bool, driven: bool, high: bool)

  /** The engine as the host sees it, with the bytes executed since the run was
      published. */
  datatype Signals = Signals(way: nat, parked: bool, mailbox: bool, line: bool, ran: nat)

  /** Holder of the ring mutex. */
  datatype Owner = Free | Writer | Clearer | Runner

  /** The tail published to the engine and the writer's index. */
  datatype Ring = Ring(tail: u32, inn: u32, owner: Owner)

  datatype Options = Options(numSteps: nat, backward: bool, accelerate: bool, decelerate: bool)

  /** A run request between its locked sections. `seen` is the stop generation
      it read. */
  datatype Request =
    | NoRequest
    | Checked
    | Ready(seen: u32)
    | Published(seen: u32, opts: Options)

  /** History: every driver stop counted, the count behind the generation that the
      request read, the waypoint of the current run, the tail it was committed with,
      and whether an interrupt left over from before its commit is still pending. */
  datatype History = History(stops: nat, stopsSeen: nat, plan: nat, deadStop: u32, stale: bool)

  datatype Driver = Driver(
    status: Status, rate: Rate, fire: Fire, sig: Signals, ring: Ring, run: Request, enabling: nat,
    pending: set<nat>, ignored: set<nat>, underruns: u32, generation: u32, past: History)

  const FAULT_CONDITIONS: set<nat> := {0, 1, 2}

  datatype Event =
    | RunCheck
    | RunRefuse
    | RunSnapshot
    | RunPublish(opts: Options, oldest: u32)
    | RunCommit
    | StopRun
    | Halt(softirq: bool)
    | Disable(softirq: bool)
    | EnableBegin(live: set<nat>)
    | EnableCommit
    | PowerOff
    | SetLatch(locked: bool)
    | FaultIrq(bit: nat, low: bool)
    | FaultTasklet
    | SetIgnored(mask: set<nat>)
    | SetStepFrequency(freq: nat)
    | SetRampRate(rate: nat)
    | SetStreaming(on: bool)
    | Callback
    | RampFire
    | EngineTick(count: nat, ended: bool, again: bool, level: bool)
    | WriteBegin
    | WriteEnd(count: nat, published: bool)
    | ClearBegin
    | ClearEnd(pulses: bool)

  /** What one engine tick does to the signals: it executes `count` bytes,
      counting the waypoint down, and may then run out of data; parked, it may
      repeat its interrupt. */
  function SignalTick(g: Signals, count: nat, ended: bool, again: bool): Signals {
    if g.parked then g.(line := g.line || again)
    else
      var fired := 0 < g.way <= count;
      var left := if g.way <= count then 0 else g.way - count;
      Signals(if ended then 0 else left, ended, g.mailbox || ended, g.line || fired || ended, g.ran + count)
  }

  /** _driver_stop: outside softirq it also cancels the ramp timer. */
  function DriverStop(d: Driver, next: State, softirq: bool): Driver {
    d.(status := Status(next, d.status.faults, false, false, false, false, false, d.status.streaming),
       rate := d.rate.(epit := 0, timer := d.rate.timer && softirq),
       fire := d.fire.(driven := false, latched := d.fire.latched || next.Disabled?),
       generation := Wrap(d.generation + 1), past := d.past.(stops := d.past.stops + 1))
  }

  function DecelStart(d: Driver): Driver {
    if d.status.decelerating then d
    else d.(status := d.status.(accelerating := false, decelerating := true),
            rate := d.rate.(rampFreq := if d.status.accelerating then d.rate.rampFreq else d.rate.stepFreq,
                            timer := true),
            fire := d.fire.(driven := false))
  }

  function AccelStart(d: Driver): Driver {
    if d.status.accelerating then d
    else d.(status := d.status.(accelerating := true, decelerating := false),
            rate := d.rate.(rampFreq := if d.status.decelerating then d.rate.rampFreq else RAMP_MIN, timer := true))
  }

  /** The 10 ms ramp timer. */
  function RampUpdate(d: Driver): Driver {
    var r := d.rate;
    if d.status.decelerating then
      if r.rampFreq <= RAMP_MIN then
        var stopped := DriverStop(d, Idle, true);
        stopped.(rate := stopped.rate.(timer := false))
      else
        var slower := SlowDown(r.rampFreq, r.delta);
        d.(rate := r.(rampFreq := slower, epit := slower))
    else if d.status.accelerating then
      if r.rampFreq + r.delta >= r.stepFreq then
        d.(rate := r.(rampFreq := r.stepFreq, epit := r.stepFreq, timer := false),
           status := d.status.(accelerating := false, decelerating := false))
      else d.(rate := r.(rampFreq := r.rampFreq + r.delta, epit := r.rampFreq + r.delta))
    else d.(rate := r.(timer := false))
  }

  /** The SDMA interrupt callback. */
  function ServiceInterrupt(d: Driver): Driver {
    var s := d.(sig := d.sig.(line := false), past := d.past.(stale := false));
    if s.sig.mailbox then
      if !s.status.state.Running? then s
      else if s.status.streaming then DriverStop(s.(underruns := Wrap(s.underruns + 1)), Underrun, true)
      else DriverStop(s, Idle, true)
    else if s.status.waypointArmed then
      var t := s.(status := s.status.(waypointArmed := false, decelOnInterrupt := false));
      if s.status.decelOnInterrupt then DecelStart(t) else t
    else s
  }

  predicate Startable(s: State) {
    s.Idle? || s.Disabled?
  }

  /** Whether a published run may commit. */
  predicate MayCommit(d: Driver, seen: u32) {
    d.status.faults == {} && d.generation == seen && Startable(d.status.state)
  }

  function CommitRun(d: Driver, opts: Options): Driver {
    var armed := opts.numSteps > 0;
    var c := d.(status := d.status.(state := Running, waypointArmed := armed,
                                    decelOnInterrupt := opts.decelerate && armed, runningBackward := opts.backward),
                rate := d.rate.(epit := if opts.accelerate then RAMP_MIN else d.rate.stepFreq),
                fire := if d.fire.latched then d.fire else d.fire.(driven := true, high := false),
                past := d.past.(plan := opts.numSteps, deadStop := d.ring.tail, stale := d.sig.line));
    if opts.accelerate then AccelStart(c) else c
  }

  function PublishRun(d: Driver, seen: u32, opts: Options, oldest: u32): Driver {
    d.(run := Published(seen, opts),
       ring := d.ring.(owner := Runner, tail := if opts.backward then oldest else d.ring.inn),
       sig := Signals(opts.numSteps, false, false, d.sig.line, 0))
  }

  /** The commit section. */
  function CommitRequest(d: Driver, seen: u32, opts: Options): Driver {
    var f := d.(run := NoRequest, ring := d.ring.(owner := Free));
    if MayCommit(d, seen) then CommitRun(f, opts) else f
  }

  function StopRequest(d: Driver): Driver {
    if d.status.state.Underrun? then d.(status := d.status.(state := Idle))
    else if d.status.state.Running? then DecelStart(d) else d
  }

  function DisableRequest(d: Driver, softirq: bool): Driver {
    if d.status.state.Idle? || d.status.state.Running? || d.status.state.Underrun?
    then DriverStop(d, Disabled, softirq) else d
  }

  /** First half of an enable; `live` are the fault lines that read low. */
  function BeginEnable(d: Driver, live: set<nat>): Driver {
    if d.status.state.Disabled? && d.status.faults == {} then d.(enabling := d.enabling + 1)
    else if d.status.state.Faulted? && live <= d.ignored then
      d.(status := d.status.(faults := {}), enabling := d.enabling + 1)
    else d
  }

  /** Second half, after the power-on. */
  function CommitEnable(d: Driver): Driver {
    var e := d.(enabling := if d.enabling > 0 then d.enabling - 1 else 0);
    if d.enabling > 0 && d.status.faults == {} && (d.status.state.Disabled? || d.status.state.Faulted?)
    then e.(status := d.status.(state := Idle)) else e
  }

  function LatchLaser(d: Driver, locked: bool): Driver {
    d.(fire := if locked then d.fire.(latched := true, driven := false)
               else if !d.status.state.Running? && !d.status.accelerating && !d.status.decelerating
               then Fire(false, true, false) else d.fire.(latched := false))
  }

  function ServiceFaults(d: Driver): Driver {
    if d.pending == {} then d
    else
      var f := d.(status := d.status.(faults := d.status.faults + d.pending), pending := {});
      if d.status.state.Faulted? then f else DriverStop(f, Faulted, true)
  }

  /** One atomic step; an event that is not available changes nothing. */
  function Next(d: Driver, ev: Event): Driver {
    match ev
    case RunCheck => if d.run.NoRequest? && Startable(d.status.state) then d.(run := Checked) else d
    case RunRefuse => if d.run.Checked? || d.run.Ready? then d.(run := NoRequest) else d
    case RunSnapshot =>
      if d.run.Checked? then d.(run := Ready(d.generation), past := d.past.(stopsSeen := d.past.stops)) else d
    case RunPublish(opts, oldest) =>
      if d.run.Ready? && d.ring.owner.Free? then PublishRun(d, d.run.seen, opts, oldest) else d
    case RunCommit => if d.run.Published? then CommitRequest(d, d.run.seen, d.run.opts) else d
    case StopRun => StopRequest(d)
    case Halt(softirq) => if d.status.state.Running? then DriverStop(d, Idle, softirq) else d
    case Disable(softirq) => DisableRequest(d, softirq)
    case EnableBegin(live) => BeginEnable(d, live)
    case EnableCommit => CommitEnable(d)
    case PowerOff => d.(fire := d.fire.(driven := false, latched := true))
    case SetLatch(locked) => LatchLaser(d, locked)
    case FaultIrq(bit, low) =>
      if low && bit in FAULT_CONDITIONS && bit !in d.ignored then d.(pending := d.pending + {bit}) else d
    case FaultTasklet => ServiceFaults(d)
    case SetIgnored(mask) => if mask <= FAULT_CONDITIONS then d.(ignored := mask) else d
    case SetStepFrequency(freq) =>
      if STEP_FREQUENCY_MIN <= freq <= STEP_FREQUENCY_MAX && !d.status.state.Running? then
        d.(rate := d.rate.(stepFreq := freq, rampFreq := freq))
      else d
    case SetRampRate(rate) =>
      if RAMP_RATE_MIN <= rate <= RAMP_RATE_MAX && !d.status.state.Running? then
        d.(rate := d.rate.(delta := rate / RAMP_UPDATES_PER_SEC))
      else d
    case SetStreaming(on) => d.(status := d.status.(streaming := on))
    case Callback => if d.sig.line then ServiceInterrupt(d) else d
    case RampFire => if d.rate.timer then RampUpdate(d) else d
    case EngineTick(count, ended, again, level) =>
      if d.rate.epit == 0 then d
      else d.(sig := SignalTick(d.sig, count, ended, again), fire := d.fire.(high := level))
    case WriteBegin =>
      if d.ring.owner.Free? && !(d.status.state.Running? && d.status.runningBackward)
      then d.(ring := d.ring.(owner := Writer)) else d
    case WriteEnd(count, published) =>
      if d.ring.owner.Writer? then
        d.(ring := Ring(if published then Wrap(d.ring.inn + count) else d.ring.tail, Wrap(d.ring.inn + count), Free))
      else d
    case ClearBegin =>
      if d.ring.owner.Free? && !d.status.state.Running? then d.(ring := d.ring.(owner := Clearer)) else d
    case ClearEnd(pulses) =>
      if !d.ring.owner.Clearer? then d
      else if pulses then d.(ring := Ring(0, 0, Free)) else d.(ring := d.ring.(owner := Free))
  }

  function Run(d: Driver, evs: seq<Event>): Driver
    decreases |evs|
  {
    if evs == [] then d else Run(Next(d, evs[0]), evs[1..])
  }

  /** The driver as probed: disabled unless a fault line already reads low. */
  function Probe(live: set<nat>, ignored: set<nat>): Driver {
    var faults := live - ignored;
    Driver(Status(if faults != {} then Faulted else Disabled, faults, false, false, false, false, false, false),
           Rate(10000, 10000, RAMP_RATE_DEFAULT / RAMP_UPDATES_PER_SEC, 0, false),
           Fire(true, false, false), Signals(0, false, false, false, 0), Ring(0, 0, Free), NoRequest, 0,
           {}, ignored, 0, 0, History(0, 0, 0, 0, false))
  }
}
