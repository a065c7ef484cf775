/** What holds in every reachable state of the driver. */
module Lifecycle {
  import opened Words
  import opened Backtrack
  import opened Ramp
  import opened Driver

  predicate Ramping(s: Status) {
    s.accelerating || s.decelerating
  }

  /** Faults mean FAULT, run flags mean RUNNING, one ramp at a time. */
  predicate StatusOk(s: Status) {
    && (s.faults != {} ==> s.state.Faulted?)
    && (Ramping(s) || s.waypointArmed || s.decelOnInterrupt || s.runningBackward ==> s.state.Running?)
    && !(s.accelerating && s.decelerating)
    && (s.decelOnInterrupt ==> s.waypointArmed)
  }

  /** FIRE line: high impedance while decelerating and while the latch is locked;
      outside a run high impedance or driven low. */
  predicate FireOk(s: Status, f: Fire) {
    && (s.decelerating ==> !f.driven)
    && (f.latched ==> !f.driven)
    && (!s.state.Running? ==> !f.driven || !f.high)
  }

  /** Step rate: the timer runs exactly while RUNNING, at the ramp's rate during
      a ramp and at the step frequency outside one. */
  predicate RateOk(s: Status, r: Rate) {
    && STEP_FREQUENCY_MIN <= r.stepFreq <= STEP_FREQUENCY_MAX
    && RAMP_RATE_MIN <= RAMP_UPDATES_PER_SEC * r.delta <= RAMP_RATE_MAX
    && (if s.state.Running? then r.epit == (if Ramping(s) then r.rampFreq else r.stepFreq) else r.epit == 0)
    && (Ramping(s) ==> r.timer && RAMP_MIN <= r.rampFreq <= r.stepFreq)
  }

  /** A request knows how many stops it saw and gives way to no running cut. */
  predicate RequestOk(s: Status, run: Request, generation: u32, past: History) {
    && generation == Wrap(past.stops)
    && (run.Ready? || run.Published? ==> run.seen == Wrap(past.stopsSeen) && past.stopsSeen <= past.stops)
    && (!run.NoRequest? ==> !s.state.Running?)
  }

  /** The ring mutex keeps writers and clears off a published run; through a
      backward run the tail is the dead stop it was committed with. */
  predicate RingOk(s: Status, ring: Ring, run: Request, past: History) {
    && (ring.owner.Runner? <==> run.Published?)
    && (ring.owner.Writer? ==> !(s.state.Running? && s.runningBackward))
    && (ring.owner.Clearer? ==> !s.state.Running?)
    && (s.state.Running? && s.runningBackward ==> ring.tail == past.deadStop)
  }

  /** Signals: the mailbox means the published run's data ran out, and an interrupt
      of this run without it means the waypoint byte has been executed. */
  predicate SignalsOk(s: Status, g: Signals, run: Request, past: History) {
    && (g.mailbox <==> g.parked)
    && (run.Published? ==> !g.parked && g.ran == 0 && g.way == run.opts.numSteps)
    && (s.state.Running? ==>
          && (!g.parked ==> g.way == if g.ran < past.plan then past.plan - g.ran else 0)
          && (g.line && !g.mailbox && !past.stale ==> 0 < past.plan <= g.ran)
          && (s.waypointArmed && !g.mailbox ==> g.way > 0 || g.line)
          && (s.waypointArmed ==> past.plan > 0))
  }

  predicate Sound(d: Driver) {
    && StatusOk(d.status) && FireOk(d.status, d.fire) && RateOk(d.status, d.rate)
    && RequestOk(d.status, d.run, d.generation, d.past) && RingOk(d.status, d.ring, d.run, d.past)
    && SignalsOk(d.status, d.sig, d.run, d.past)
  }

  lemma StopSound(d: Driver, next: State, softirq: bool)
    requires Sound(d) && next != Running && (d.status.faults != {} ==> next.Faulted?)
    ensures Sound(DriverStop(d, next, softirq))
  {
    WrapAdd(d.past.stops, 1);
  }

  lemma DecelSound(d: Driver)
    requires Sound(d) && d.status.state.Running?
    ensures Sound(DecelStart(d))
  {
  }

  lemma CommitSound(d: Driver, opts: Options)
    requires Sound(d) && Startable(d.status.state) && d.status.faults == {} && d.run.NoRequest? && d.ring.owner.Free?
    requires !d.sig.parked && d.sig.ran == 0 && d.sig.way == opts.numSteps
    ensures Sound(CommitRun(d, opts))
  {
  }

  lemma RampSound(d: Driver)
    requires Sound(d) && d.rate.timer
    ensures Sound(RampUpdate(d))
  {
    StopSound(d, if d.status.state.Faulted? then Faulted else Idle, true);
  }

  lemma CallbackSound(d: Driver)
    requires Sound(d) && d.sig.line
    ensures Sound(ServiceInterrupt(d))
  {
    var s := d.(sig := d.sig.(line := false), past := d.past.(stale := false));
    if s.sig.mailbox {
      assert Sound(s);
      if s.status.state.Running? {
        StopSound(s.(underruns := Wrap(s.underruns + 1)), Underrun, true);
        StopSound(s, Idle, true);
      }
    } else if s.status.waypointArmed {
      var t := s.(status := s.status.(waypointArmed := false, decelOnInterrupt := false));
      assert Sound(t);
      DecelSound(t);
    }
  }

  lemma EngineTickSound(d: Driver, count: nat, ended: bool, again: bool, level: bool)
    requires Sound(d)
    ensures Sound(Next(d, EngineTick(count, ended, again, level)))
  {
  }

  lemma FaultSound(d: Driver)
    requires Sound(d)
    ensures Sound(ServiceFaults(d))
  {
    WrapAdd(d.past.stops, 1);
  }

  lemma RequestSound(d: Driver, ev: Event)
    requires Sound(d) && (ev.RunCheck? || ev.RunRefuse? || ev.RunSnapshot? || ev.RunPublish? || ev.RunCommit?)
    ensures Sound(Next(d, ev))
  {
    if ev.RunCommit? && d.run.Published? && MayCommit(d, d.run.seen) {
      CommitSound(d.(run := NoRequest, ring := d.ring.(owner := Free)), d.run.opts);
    }
  }

  lemma StopEventSound(d: Driver, ev: Event)
    requires Sound(d) && (ev.StopRun? || ev.Halt? || ev.Disable? || ev.FaultTasklet?)
    ensures Sound(Next(d, ev))
  {
    match ev
    case StopRun => if d.status.state.Running? { DecelSound(d); }
    case Halt(softirq) => if d.status.state.Running? { StopSound(d, Idle, softirq); }
    case Disable(softirq) =>
      if d.status.state.Idle? || d.status.state.Running? || d.status.state.Underrun? {
        StopSound(d, Disabled, softirq);
      }
    case FaultTasklet => FaultSound(d);
  }

  lemma RingEventSound(d: Driver, ev: Event)
    requires Sound(d) && (ev.WriteBegin? || ev.WriteEnd? || ev.ClearBegin? || ev.ClearEnd?)
    ensures Sound(Next(d, ev))
  {
  }

  lemma EnableSound(d: Driver, ev: Event)
    requires Sound(d) && (ev.EnableBegin? || ev.EnableCommit?)
    ensures Sound(Next(d, ev))
  {
  }

  lemma SettingSound(d: Driver, ev: Event)
    requires Sound(d) && (ev.PowerOff? || ev.SetLatch? || ev.FaultIrq? || ev.SetIgnored? || ev.SetStreaming?)
    ensures Sound(Next(d, ev))
  {
  }

  lemma SpeedSound(d: Driver, ev: Event)
    requires Sound(d) && (ev.SetStepFrequency? || ev.SetRampRate?)
    ensures Sound(Next(d, ev))
  {
  }

  lemma NextSound(d: Driver, ev: Event)
    requires Sound(d)
    ensures Sound(Next(d, ev))
  {
    match ev
    case RunCheck => RequestSound(d, ev);
    case RunRefuse => RequestSound(d, ev);
    case RunSnapshot => RequestSound(d, ev);
    case RunPublish(_, _) => RequestSound(d, ev);
    case RunCommit => RequestSound(d, ev);
    case StopRun => StopEventSound(d, ev);
    case Halt(_) => StopEventSound(d, ev);
    case Disable(_) => StopEventSound(d, ev);
    case FaultTasklet => StopEventSound(d, ev);
    case Callback => if d.sig.line { CallbackSound(d); }
    case RampFire => if d.rate.timer { RampSound(d); }
    case EngineTick(count, ended, again, level) => EngineTickSound(d, count, ended, again, level);
    case WriteBegin => RingEventSound(d, ev);
    case WriteEnd(_, _) => RingEventSound(d, ev);
    case ClearBegin => RingEventSound(d, ev);
    case ClearEnd(_) => RingEventSound(d, ev);
    case EnableBegin(_) => EnableSound(d, ev);
    case EnableCommit => EnableSound(d, ev);
    case SetStepFrequency(_) => SpeedSound(d, ev);
    case SetRampRate(_) => SpeedSound(d, ev);
    case _ => SettingSound(d, ev);
  }

  lemma ProbeSound(live: set<nat>, ignored: set<nat>)
    ensures Sound(Probe(live, ignored))
  {
  }

  /** Every state reachable from the probe is sound, whatever the interleaving of
      requests, callbacks, timers, faults and ticks. */
  lemma {:induction false} ReachableIsSound(d: Driver, evs: seq<Event>)
    requires Sound(d)
    ensures Sound(Run(d, evs))
    decreases |evs|
  {
    if evs != [] {
      NextSound(d, evs[0]);
      ReachableIsSound(Next(d, evs[0]), evs[1..]);
    }
  }
}
