/** The driver object (cnc.c): its locked sections and softirq callbacks, proved
    against Driver. */
module Cnc {
  import opened Words
  import opened Backtrack
  import opened Ramp
  import opened Driver
  import opened Lifecycle
  import Diagram
  import Spec = Driver

  datatype Code = Success | NotPermitted | DeviceBusy | OutOfRange

  const NUM_FAULT_CONDITIONS := 3

  /** The fault lines that read low. */
  function Asserted(low: seq<bool>): set<nat> {
    set i: nat | i < |low| && low[i]
  }

  lemma NoneLeft(a: set<nat>, b: set<nat>)
    ensures a - b == {} <==> a <= b
  {
    forall x | a - b == {} && x in a
      ensures x in b
    {
      assert x !in a - b;
    }
  }

  class Cnc {
    var status: Status
    var rate: Rate
    var fire: Fire
    var sig: Signals
    var ring: Ring
    var run: Request
    var enabling: nat
    var pending: set<nat>
    var ignored: set<nat>
    var underruns: u32
    var generation: u32
    ghost var past: History

    /** The lifecycle invariant, and fault sets made of known conditions. */
    ghost predicate Valid()
      reads this
    {
      pending <= FAULT_CONDITIONS && ignored <= FAULT_CONDITIONS && Sound(View())
    }

    ghost function View(): Driver
      reads this
    {
      Driver(status, rate, fire, sig, ring, run, enabling, pending, ignored, underruns, generation, past)
    }

    /** What a caller may rely on between any two calls. */
    lemma Guarantees()
      requires Valid()
      ensures status.faults != {} ==> status.state == Faulted
      ensures status.accelerating || status.decelerating || status.waypointArmed || status.runningBackward
              ==> status.state == Running
      ensures status.decelerating || fire.latched ==> !fire.driven
      ensures status.state != Running ==> rate.epit == 0 && (!fire.driven || !fire.high)
      ensures status.state == Running ==>
                && RAMP_MIN <= rate.epit <= rate.stepFreq
                && rate.epit == if status.accelerating || status.decelerating then rate.rampFreq else rate.stepFreq
      ensures !(status.accelerating && status.decelerating) && (status.decelOnInterrupt ==> status.waypointArmed)
      ensures status.state == Running && status.runningBackward ==> ring.tail == past.deadStop && !ring.owner.Writer?
    {
    }

    constructor (low: seq<bool>, ignored: set<nat>)
      requires |low| == NUM_FAULT_CONDITIONS && ignored <= FAULT_CONDITIONS
      ensures Valid() && View() == Probe(Asserted(low), ignored)
    {
      this.ignored := ignored;
      status := Status(Disabled, {}, false, false, false, false, false, false);
      rate := Rate(10000, 10000, RAMP_RATE_DEFAULT / RAMP_UPDATES_PER_SEC, 0, false);
      fire := Fire(true, false, false);
      sig := Signals(0, false, false, false, 0);
      ring := Ring(0, 0, Free);
      run, enabling, pending, underruns, generation, past := NoRequest, 0, {}, 0, 0, History(0, 0, 0, 0, false);
      new;
      var live := LiveFaults(low);
      status := status.(faults := live - ignored);
      if status.faults != {} {
        status := status.(state := Faulted);
      }
      ProbeSound(Asserted(low), ignored);
    }

    /** The fault lines, active low. */
    method LiveFaults(low: seq<bool>) returns (live: set<nat>)
      requires |low| == NUM_FAULT_CONDITIONS
      ensures live == Asserted(low)
    {
      live := {};
      for i := 0 to NUM_FAULT_CONDITIONS
        invariant live == Asserted(low[..i])
      {
        assert Asserted(low[..i + 1]) == Asserted(low[..i]) + (if low[i] then {i} else {});
        if low[i] {
          live := live + {i};
        }
      }
      assert low[..NUM_FAULT_CONDITIONS] == low;
    }

    method StopDriver(next: State, softirq: bool)
      modifies this`status, this`rate, this`fire, this`generation, this`past
      ensures View() == DriverStop(old(View()), next, softirq)
    {
      rate := rate.(epit := 0);
      StopRamp(softirq);
      status := status.(waypointArmed := false, decelOnInterrupt := false, runningBackward := false);
      DriveSafe(next);
      status := status.(state := next);
      generation := Wrap(generation + 1);
      past := past.(stops := past.stops + 1);
    }

    /** The shutdown pins for a disable, the stop pins otherwise. */
    method DriveSafe(next: State)
      modifies this`fire
      ensures fire == Fire(old(fire).latched || next == Disabled, false, old(fire).high)
    {
      if next == Disabled {
        fire := fire.(driven := false, latched := true);
      } else {
        fire := fire.(driven := false);
      }
    }

    method StopRamp(softirq: bool)
      modifies this`status, this`rate
      ensures status == old(status).(decelerating := false, accelerating := false)
      ensures rate == old(rate).(timer := old(rate).timer && softirq)
    {
      if !softirq {
        rate := rate.(timer := false);
      }
      status := status.(decelerating := false, accelerating := false);
    }

    method StartDecel()
      modifies this`status, this`rate, this`fire
      ensures View() == DecelStart(old(View()))
    {
      if status.decelerating {
        return;
      }
      if !status.accelerating {
        rate := rate.(rampFreq := rate.stepFreq);
      }
      status := status.(accelerating := false, decelerating := true);
      fire := fire.(driven := false);
      rate := rate.(timer := true);
    }

    method StartAccel()
      modifies this`status, this`rate
      ensures View() == AccelStart(old(View()))
    {
      if status.accelerating {
        return;
      }
      if !status.decelerating {
        rate := rate.(rampFreq := RAMP_MIN);
      }
      status := status.(accelerating := true, decelerating := false);
      rate := rate.(timer := true);
    }

    /** The ramp timer; the timer restarts itself or not. */
    method UpdateRamp()
      requires Valid()
      requires rate.timer
      modifies this`status, this`rate, this`fire, this`generation, this`past
      ensures Valid() && View() == Next(old(View()), RampFire)
      ensures old(status).decelerating && old(rate).epit == 900
              ==> status.state == Idle && rate.epit == 0 && !fire.driven
      ensures !(old(status).decelerating && old(rate).epit == 900) ==>
                status.state == old(status).state && fire == old(fire)
                && (status.state == Running ==> rate.epit == Diagram.RampedRate(old(View())))
    {
      hide StatusOk, FireOk, RateOk, RequestOk, RingOk, SignalsOk;
      Guarantees();
      NextSound(View(), RampFire);
      if !status.decelerating && !status.accelerating {
        rate := rate.(timer := false);
        return;
      }
      if status.decelerating {
        if rate.rampFreq <= RAMP_MIN {
          StopDriver(Idle, true);
          rate := rate.(timer := false);
          return;
        }
        if rate.rampFreq > RAMP_MIN + rate.delta {
          rate := rate.(rampFreq := rate.rampFreq - rate.delta);
        } else {
          rate := rate.(rampFreq := RAMP_MIN);
        }
      } else {
        rate := rate.(rampFreq := rate.rampFreq + rate.delta);
        if rate.rampFreq >= rate.stepFreq {
          rate := rate.(epit := rate.stepFreq, rampFreq := rate.stepFreq, timer := false);
          status := status.(accelerating := false, decelerating := false);
          return;
        }
      }
      rate := rate.(epit := rate.rampFreq);
    }

    /** The interrupt callback: end of data or waypoint, told apart by the mailbox. */
    method ServiceSdma()
      requires Valid()
      requires sig.line
      modifies this`status, this`rate, this`fire, this`sig, this`underruns, this`generation, this`past
      ensures Valid() && View() == Next(old(View()), Callback) && !sig.line
      ensures status.state == if !old(sig).mailbox || old(status).state != Running then old(status).state
                              else if old(status).streaming then Underrun else Idle
      ensures old(status).state == Running && status.state != Running ==> rate.epit == 0 && !fire.driven
      ensures !old(sig).mailbox ==>
                !status.waypointArmed
                    && status.decelerating == (old(status).decelerating || old(status).decelOnInterrupt)
    {
      hide StatusOk, FireOk, RateOk, RequestOk, RingOk, SignalsOk;
      Guarantees();
      NextSound(View(), Callback);
      sig := sig.(line := false);
      past := past.(stale := false);
      if sig.mailbox {
        if status.state == Running {
          if status.streaming {
            underruns := Wrap(underruns + 1);
            StopDriver(Underrun, true);
          } else {
            StopDriver(Idle, true);
          }
        }
      } else if status.waypointArmed {
        var decelerate := status.decelOnInterrupt;
        status := status.(waypointArmed := false, decelOnInterrupt := false);
        if decelerate {
          StartDecel();
        }
      }
    }

    /** First section of a run request; at most one requester at a time. */
    method CheckRun() returns (r: Code)
      requires Valid()
      requires run.NoRequest?
      modifies this`run
      ensures Valid() && View() == Next(old(View()), RunCheck)
      ensures r == Success <==> old(status).state == Idle || old(status).state == Disabled
      ensures run == if r == Success then Checked else NoRequest
    {
      hide StatusOk, FireOk, RateOk, RequestOk, RingOk, SignalsOk;
      NextSound(View(), RunCheck);
      match status.state
      case Idle | Disabled =>
        run := Checked;
        r := Success;
      case _ => r := NotPermitted;
    }

    method ReadGeneration() returns (stopGeneration: u32)
      requires Valid()
      requires run.Checked?
      modifies this`run, this`past
      ensures Valid() && View() == Next(old(View()), RunSnapshot) && stopGeneration == generation
      ensures run == Ready(stopGeneration)
    {
      hide StatusOk, FireOk, RateOk, RequestOk, RingOk, SignalsOk;
      NextSound(View(), RunSnapshot);
      stopGeneration := generation;
      run := Ready(generation);
      past := past.(stopsSeen := past.stops);
    }

    /** The registers of the run, under the ring mutex; a backward run's tail is the
        dead stop of a ring of `ringSize` bytes that has been written `total`. */
    method PublishRun(opts: Options, ringSize: u32, total: nat)
      requires Valid() && run.Ready? && ring.owner.Free?
      modifies this`run, this`ring, this`sig
      ensures Valid() && View() == Next(old(View()), RunPublish(opts, DeadStop(ringSize, ring.inn, total)))
      ensures ring.tail == if opts.backward then DeadStop(ringSize, ring.inn, total) else ring.inn
      ensures sig == Signals(opts.numSteps, false, false, old(sig).line, 0) && run == Published(old(run).seen, opts)
    {
      hide StatusOk, FireOk, RateOk, RequestOk, RingOk, SignalsOk, DeadStop;
      NextSound(View(), RunPublish(opts, DeadStop(ringSize, ring.inn, total)));
      ring := ring.(owner := Runner);
      ring := ring.(tail := if !opts.backward then ring.inn else DeadStop(ringSize, ring.inn, total));
      sig := Signals(opts.numSteps, false, false, sig.line, 0);
      run := Published(run.seen, opts);
    }

    /** Last section of a run request. */
    method CommitRun() returns (r: Code)
      requires Valid()
      requires run.Published?
      modifies this`status, this`rate, this`fire, this`ring, this`run, this`past
      ensures Valid() && View() == Next(old(View()), RunCommit) && run == NoRequest && ring.owner.Free?
      ensures r == Success <==>
                old(status).faults == {} && generation == old(run).seen
                && (old(status).state == Idle || old(status).state == Disabled)
      ensures r == Success ==>
                status.state == Running && fire.latched == old(fire).latched && (fire.driven <==> !fire.latched)
                && rate.epit == (if old(run).opts.accelerate then 900 else rate.stepFreq)
                && status.runningBackward == old(run).opts.backward
      ensures r != Success ==> status == old(status) && rate == old(rate) && fire == old(fire)
    {
      hide StatusOk, FireOk, RateOk, RequestOk, RingOk, SignalsOk;
      Guarantees();
      NextSound(View(), RunCommit);
      var opts, seen := run.opts, run.seen;
      run := NoRequest;
      ring := ring.(owner := Free);
      if status.faults != {} {
        r := NotPermitted;
      } else if generation != seen || (status.state != Idle && status.state != Disabled) {
        r := NotPermitted;
      } else {
        StartRunning(opts);
        r := Success;
      }
    }

    method StartRunning(opts: Options)
      modifies this`status, this`rate, this`fire, this`past
      ensures View() == Spec.CommitRun(old(View()), opts)
      ensures status.state == Running && status.runningBackward == opts.backward
      ensures status.waypointArmed == (opts.numSteps > 0)
              && status.decelOnInterrupt == (opts.decelerate && opts.numSteps > 0)
      ensures fire == if old(fire).latched then old(fire) else Fire(false, true, false)
      ensures rate.epit == if opts.accelerate then 900 else rate.stepFreq
    {
      var armed := opts.numSteps > 0;
      status := status.(state := Running, waypointArmed := armed, decelOnInterrupt := opts.decelerate && armed,
                        runningBackward := opts.backward);
      if !fire.latched {
        fire := fire.(driven := true, high := false);
      }
      past := past.(plan := opts.numSteps, deadStop := ring.tail, stale := sig.line);
      if !opts.accelerate {
        rate := rate.(epit := rate.stepFreq);
      } else {
        rate := rate.(epit := RAMP_MIN);
        StartAccel();
      }
    }

    method Stop() returns (r: Code)
      requires Valid()
      modifies this`status, this`rate, this`fire
      ensures Valid() && View() == Next(old(View()), StopRun)
      ensures r == if old(status).state == Faulted then NotPermitted else Success
      ensures status.state == if old(status).state == Underrun then Idle else old(status).state
      ensures status.state == Running ==> status.decelerating && !status.accelerating && !fire.driven
      ensures old(status).state != Running ==> rate == old(rate) && fire == old(fire)
    {
      hide StatusOk, FireOk, RateOk, RequestOk, RingOk, SignalsOk;
      Guarantees();
      NextSound(View(), StopRun);
      r := Success;
      match status.state
      case Idle | Disabled =>
      case Underrun => status := status.(state := Idle);
      case Faulted => r := NotPermitted;
      case Running => StartDecel();
    }

    method HaltRun(softirq: bool) returns (r: Code)
      requires Valid()
      modifies this`status, this`rate, this`fire, this`generation, this`past
      ensures Valid() && View() == Next(old(View()), Halt(softirq))
      ensures r == if old(status).state == Faulted || old(status).state == Underrun then NotPermitted else Success
      ensures old(status).state == Running ==> status.state == Idle && rate.epit == 0 && !fire.driven
      ensures old(status).state != Running ==> View() == old(View())
    {
      hide StatusOk, FireOk, RateOk, RequestOk, RingOk, SignalsOk;
      NextSound(View(), Halt(softirq));
      r := Success;
      match status.state
      case Idle | Disabled =>
      case Running => StopDriver(Idle, softirq);
      case _ => r := NotPermitted;
    }

    /** Whether the supply is to be powered down after the lock is released. */
    method DisableDriver(softirq: bool) returns (powerDown: bool)
      requires Valid()
      modifies this`status, this`rate, this`fire, this`generation, this`past
      ensures Valid() && View() == Next(old(View()), Disable(softirq))
      ensures powerDown <==> old(status).state == Idle || old(status).state == Running || old(status).state == Underrun
      ensures status.state == if old(status).state == Faulted then Faulted else Disabled
      ensures powerDown ==> rate.epit == 0 && fire.latched && !fire.driven && generation == Wrap(old(generation) + 1)
      ensures !powerDown ==> View() == old(View())
    {
      hide StatusOk, FireOk, RateOk, RequestOk, RingOk, SignalsOk;
      NextSound(View(), Disable(softirq));
      match status.state
      case Idle | Running | Underrun =>
        StopDriver(Disabled, softirq);
        powerDown := true;
      case Disabled | Faulted => powerDown := false;
    }

    /** First half of an enable: a fault is cleared only once every line that is
        not ignored reads high. */
    method StartEnable(low: seq<bool>) returns (r: Code, powerOn: bool)
      requires Valid()
      requires |low| == NUM_FAULT_CONDITIONS
      modifies this`status, this`enabling
      ensures Valid() && View() == Next(old(View()), EnableBegin(Asserted(low)))
      ensures powerOn <==>
                || old(status).state == Disabled
                || (old(status).state == Faulted && forall i :: 0 <= i < 3 && low[i] ==> i in ignored)
      ensures r == if powerOn || old(status).state == Idle then Success else NotPermitted
      ensures status == if powerOn then old(status).(faults := {}) else old(status)
      ensures enabling == if powerOn then old(enabling) + 1 else old(enabling)
    {
      hide StatusOk, FireOk, RateOk, RequestOk, RingOk, SignalsOk;
      Guarantees();
      NextSound(View(), EnableBegin(Asserted(low)));
      var live := LiveFaults(low);
      NoneLeft(live, ignored);
      r, powerOn := Success, false;
      match status.state {
        case Disabled =>
          if status.faults != {} {
            r := NotPermitted;
          } else {
            powerOn := true;
          }
        case Faulted =>
          if live - ignored != {} {
            r := NotPermitted;
          } else {
            status := status.(faults := {});
            powerOn := true;
          }
        case Idle =>
        case _ => r := NotPermitted;
      }
      if powerOn {
        enabling := enabling + 1;
      }
    }

    /** Second half, after the power-on. */
    method FinishEnable() returns (r: Code)
      requires Valid()
      requires enabling > 0
      modifies this`status, this`enabling
      ensures Valid() && View() == Next(old(View()), EnableCommit)
      ensures r == if old(status).faults != {} then NotPermitted else Success
      ensures status == if r == Success && (old(status).state == Disabled || old(status).state == Faulted)
                        then old(status).(state := Idle) else old(status)
    {
      hide StatusOk, FireOk, RateOk, RequestOk, RingOk, SignalsOk;
      NextSound(View(), EnableCommit);
      enabling := enabling - 1;
      r := Success;
      if status.faults != {} {
        r := NotPermitted;
      } else if status.state == Disabled || status.state == Faulted {
        status := status.(state := Idle);
      }
    }

    method SetLaserLatch(locked: bool)
      requires Valid()
      modifies this`fire
      ensures Valid() && View() == Next(old(View()), SetLatch(locked)) && fire.latched == locked
      ensures fire.driven == if locked then false else old(fire).driven || status.state != Running
      ensures !locked && status.state != Running ==> !fire.high
    {
      hide StatusOk, FireOk, RateOk, RequestOk, RingOk, SignalsOk;
      Guarantees();
      NextSound(View(), SetLatch(locked));
      fire := fire.(latched := locked);
      if !locked {
        if status.state != Running && !status.accelerating && !status.decelerating {
          fire := fire.(driven := true, high := false);
        }
      } else {
        fire := fire.(driven := false);
      }
    }

    /** A falling edge on a fault line. */
    method HandleFaultEdge(bit: nat, low: bool)
      requires Valid()
      modifies this`pending
      ensures Valid() && View() == Next(old(View()), FaultIrq(bit, low))
      ensures pending == if low && bit < 3 && bit !in ignored then old(pending) + {bit} else old(pending)
    {
      hide StatusOk, FireOk, RateOk, RequestOk, RingOk, SignalsOk;
      NextSound(View(), FaultIrq(bit, low));
      if bit >= NUM_FAULT_CONDITIONS || !low {
        return;
      }
      if bit !in ignored {
        pending := pending + {bit};
      }
    }

    /** Takes every pending fault over into the latched ones. */
    method LatchPending() returns (halt: bool)
      requires pending <= FAULT_CONDITIONS
      modifies this`status, this`pending
      ensures pending == {} && status == old(status).(faults := old(status).faults + old(pending))
      ensures halt <==> old(pending) != {}
    {
      ghost var s, p, taken := status, pending, {};
      halt := false;
      for bit := 0 to NUM_FAULT_CONDITIONS
        invariant p == taken + pending && (forall k :: k in pending ==> k >= bit)
        invariant status == s.(faults := s.faults + taken)
        invariant halt <==> taken != {}
      {
        if bit in pending {
          pending := pending - {bit};
          taken := taken + {bit};
          status := status.(faults := status.faults + {bit});
          halt := true;
        }
      }
      assert pending == {};
      assert taken == p;
    }

    /** The fault tasklet: pending faults stop the driver unless it is in FAULT. */
    method ServicePending()
      requires Valid()
      modifies this`status, this`rate, this`fire, this`pending, this`generation, this`past
      ensures Valid() && View() == Next(old(View()), FaultTasklet)
      ensures pending == {} && status.faults == old(status).faults + old(pending)
      ensures old(pending) != {} ==> status.state == Faulted && rate.epit == 0
      ensures old(pending) != {} && old(status).state != Faulted ==>
                !fire.driven && generation == Wrap(old(generation) + 1)
      ensures old(pending) == {} ==> View() == old(View())
    {
      hide StatusOk, FireOk, RateOk, RequestOk, RingOk, SignalsOk;
      Guarantees();
      NextSound(View(), FaultTasklet);
      var halt := LatchPending();
      if halt && status.state != Faulted {
        StopDriver(Faulted, true);
      }
      assert status.faults == old(status).faults + old(pending);
      assert View() == Next(old(View()), FaultTasklet);
    }

    method SetStepFrequency(freq: nat) returns (r: Code)
      requires Valid()
      modifies this`rate
      ensures Valid() && View() == Next(old(View()), Event.SetStepFrequency(freq))
      ensures r == (if !(1000 <= freq <= 200000) then OutOfRange
                    else if status.state == Running then DeviceBusy else Success)
      ensures rate == if r == Success then old(rate).(stepFreq := freq, rampFreq := freq) else old(rate)
    {
      hide StatusOk, FireOk, RateOk, RequestOk, RingOk, SignalsOk;
      NextSound(View(), Event.SetStepFrequency(freq));
      if freq < STEP_FREQUENCY_MIN || freq > STEP_FREQUENCY_MAX {
        return OutOfRange;
      }
      if status.state == Running {
        return DeviceBusy;
      }
      rate := rate.(stepFreq := freq);
      rate := rate.(rampFreq := freq);
      return Success;
    }

    method SetRampRate(hzPerS: nat) returns (r: Code)
      requires Valid()
      modifies this`rate
      ensures Valid() && View() == Next(old(View()), Event.SetRampRate(hzPerS))
      ensures r == (if !(10000 <= hzPerS <= 500000) then OutOfRange
                    else if status.state == Running then DeviceBusy else Success)
      ensures rate == if r == Success then old(rate).(delta := hzPerS / 100) else old(rate)
    {
      hide StatusOk, FireOk, RateOk, RequestOk, RingOk, SignalsOk;
      NextSound(View(), Event.SetRampRate(hzPerS));
      if hzPerS < RAMP_RATE_MIN || hzPerS > RAMP_RATE_MAX {
        return OutOfRange;
      }
      if status.state == Running {
        return DeviceBusy;
      }
      rate := rate.(delta := hzPerS / RAMP_UPDATES_PER_SEC);
      return Success;
    }
  }
}
