/** What the driver's protocols guarantee over whole runs: how a run starts, how
    it ends, and how fast it goes in between. */
module Protocol {
  import opened Words
  import opened Backtrack
  import opened Ramp
  import opened Driver
  import opened Lifecycle

  // ---- ends ----

  /** The callback on a running driver: it ends the run exactly when the run's
      data has run out, as an underrun exactly for a streaming feeder; it starts
      the waypoint deceleration only once the waypoint byte was executed, unless the
      interrupt was left over from before the commit. On a driver that is not running
      it only takes the interrupt. */
  lemma CallbackTellsTheSignalsApart(d: Driver)
    requires Sound(d) && d.sig.line
    ensures var t := Next(d, Callback);
            && (d.status.state.Running? ==>
                  && (t.status.state.Running? <==> !d.sig.parked)
                  && (!t.status.state.Running? ==> t.status.state == if d.status.streaming then Underrun else Idle)
                  && (t.status.decelerating && !d.status.decelerating
                     ==> d.status.decelOnInterrupt && (d.past.stale || 0 < d.past.plan <= d.sig.ran)))
            && (!d.status.state.Running? ==> t == d.(sig := d.sig.(line := false), past := d.past.(stale := false)))
  {
    assert !d.status.state.Running? ==> !d.status.waypointArmed;
  }

  lemma CallbackStep(d: Driver)
    requires Sound(d) && d.sig.line
    ensures var t := Next(d, Callback);
            if d.status.state.Running? && d.sig.parked then
              && t.status.state == (if d.status.streaming then Underrun else Idle) && t.past.stops == d.past.stops + 1
                 && t.rate.epit == 0
              && t.underruns == (if d.status.streaming then Wrap(d.underruns + 1) else d.underruns)
            else
              && t.status.state == d.status.state && t.past.stops == d.past.stops && t.underruns == d.underruns
                 && t.rate.epit == d.rate.epit
              && t.rate.stepFreq == d.rate.stepFreq && t.rate.delta == d.rate.delta && t.ring.tail == d.ring.tail
                 && t.ring.inn == d.ring.inn
              && t.status.runningBackward == d.status.runningBackward && t.past.deadStop == d.past.deadStop
  {
    assert !d.status.state.Running? ==> !d.status.waypointArmed;
  }

  /** What the ramp timer does to the rate and the run. */
  lemma RampStep(d: Driver)
    requires StatusOk(d.status) && RateOk(d.status, d.rate) && d.rate.timer
    ensures var t := RampUpdate(d);
            && (d.status.decelerating ==> d.status.state.Running?)
            && t.underruns == d.underruns && t.rate.stepFreq == d.rate.stepFreq && t.rate.delta == d.rate.delta
               && t.ring.tail == d.ring.tail && t.ring.inn == d.ring.inn
            && (if d.status.decelerating && d.rate.epit == RAMP_MIN then
                  t.status.state.Idle? && t.past.stops == d.past.stops + 1
                else
                  && t.status.state == d.status.state && t.past.stops == d.past.stops
                     && t.status.runningBackward == d.status.runningBackward && t.past.deadStop == d.past.deadStop
                  && t.rate.epit == (if d.status.decelerating then SlowDown(d.rate.epit, d.rate.delta)
                                else if !d.status.accelerating then d.rate.epit
                                else if d.rate.epit + d.rate.delta >= d.rate.stepFreq then d.rate.stepFreq
                                    else d.rate.epit + d.rate.delta)
                  && (d.status.decelerating ==> t.status.decelerating))
  {
  }

  lemma CommitFrame(d: Driver)
    requires d.run.Published?
    ensures var t := Next(d, RunCommit);
            && t.past.stops == d.past.stops && t.underruns == d.underruns
            && (if MayCommit(d, d.run.seen) then t.status.state.Running? else t.status == d.status)
  {
  }

  /** An armed waypoint is never lost: once its byte has been executed and the
      data has not run out, the interrupt is up, and serving it disarms the
      waypoint and starts the deceleration that was asked for. */
  lemma WaypointIsServed(d: Driver)
    requires Sound(d) && d.status.state.Running? && d.status.waypointArmed && !d.sig.parked && d.past.plan <= d.sig.ran
    ensures d.sig.line
    ensures var t := Next(d, Callback);
            t.status.state.Running? && !t.status.waypointArmed
                && (d.status.decelOnInterrupt ==> t.status.decelerating && !t.status.accelerating)
  {
  }

  predicate EntersUnderrun(d: Driver, ev: Event) {
    Next(d, ev).status.state.Underrun? && !d.status.state.Underrun?
  }

  /** An underrun is entered only from RUNNING, only by the callback, with the
      run's data gone and a streaming feeder; that and nothing else counts one. */
  lemma UnderrunStep(d: Driver, ev: Event)
    requires Sound(d)
    ensures EntersUnderrun(d, ev) ==> ev.Callback? && d.status.state.Running? && d.sig.parked && d.status.streaming
    ensures Next(d, ev).underruns == if EntersUnderrun(d, ev) then Wrap(d.underruns + 1) else d.underruns
  {
    hide StatusOk, FireOk, RateOk, RequestOk, RingOk, SignalsOk, SignalTick, CommitRequest, RampUpdate,
         ServiceInterrupt, MayCommit;
    match ev
    case RunCommit => if d.run.Published? { CommitFrame(d); }
    case Callback => if d.sig.line { CallbackStep(d); }
    case RampFire => if d.rate.timer { RampStep(d); }
    case _ =>
  }

  /** RUNNING to UNDERRUN transitions along a run. */
  function UnderrunEntries(d: Driver, evs: seq<Event>): nat
    decreases |evs|
  {
    if evs == [] then 0 else (if EntersUnderrun(d, evs[0]) then 1 else 0) + UnderrunEntries(Next(d, evs[0]), evs[1..])
  }

  /** However many interrupts are repeated or merged, the underrun count moves by
      the number of runs that ended in an underrun. */
  lemma {:induction false} UnderrunsAreCounted(d: Driver, evs: seq<Event>)
    requires Sound(d)
    ensures Run(d, evs).underruns == Wrap(d.underruns + UnderrunEntries(d, evs))
    decreases |evs|
  {
    if evs == [] {
      WrapSmall(d.underruns);
    } else {
      hide Sound, Next, EntersUnderrun;
      NextSound(d, evs[0]);
      UnderrunStep(d, evs[0]);
      UnderrunsAreCounted(Next(d, evs[0]), evs[1..]);
      WrapAdd(d.underruns + 1, UnderrunEntries(Next(d, evs[0]), evs[1..]));
    }
  }

  // ---- starts ----

  /** The events that stop the driver. */
  predicate Stops(d: Driver, ev: Event) {
    var t := Next(d, ev);
    (d.status.state.Running? && !t.status.state.Running?)
        || (t.status.state != d.status.state && !t.status.state.Idle? && !t.status.state.Running?)
  }

  /** The stop count, and with it the generation, moves with every event that
      leaves RUNNING or enters DISABLED, FAULT or UNDERRUN, and with no other. */
  lemma StopStep(d: Driver, ev: Event)
    requires Sound(d)
    ensures Next(d, ev).past.stops == d.past.stops + (if Stops(d, ev) then 1 else 0)
  {
    hide StatusOk, FireOk, RateOk, RequestOk, RingOk, SignalsOk, SignalTick, CommitRequest, RampUpdate,
         ServiceInterrupt, MayCommit;
    match ev
    case RunCommit => if d.run.Published? { CommitFrame(d); }
    case Callback => if d.sig.line { CallbackStep(d); }
    case RampFire => if d.rate.timer { RampStep(d); }
    case _ =>
  }

  /** A published run commits exactly when no fault is latched, the driver is idle
      or disabled, and the stops since the snapshot are none, or a multiple of
      2^32. */
  lemma CommitsIffNotStopped(d: Driver)
    requires Sound(d) && d.run.Published?
    ensures Next(d, RunCommit).status.state.Running? <==>
              d.status.faults == {} && Startable(d.status.state) && (d.past.stops - d.past.stopsSeen) % U32 == 0
    ensures d.past.stops - d.past.stopsSeen < U32 && Next(d, RunCommit).status.state.Running?
            ==> d.past.stops == d.past.stopsSeen
  {
    CommitFrame(d);
    WrapSub(d.past.stops, d.past.stopsSeen);
    var n: int := d.past.stops - d.past.stopsSeen;
    if n % U32 == 0 {
      ModShift(d.past.stopsSeen, n / U32, U32);
    }
    if 0 <= n < U32 {
      WrapSmall(n);
    }
  }

  /** Stops before the snapshot are not seen: a disable that lands between the
      first check and the snapshot is followed by the run it should have kept
      from starting. */
  lemma DisableBeforeSnapshotIsOverrun(d: Driver, opts: Options, oldest: u32)
    requires Sound(d) && d.status.state.Idle? && d.run.NoRequest? && d.ring.owner.Free? && d.status.faults == {}
    ensures var t := Run(d, [RunCheck, Disable(false)]);
            && t.status.state.Disabled?
            && Run(t, [RunSnapshot, RunPublish(opts, oldest), RunCommit]).status.state.Running?
  {
    var a := Next(d, RunCheck);
    var b := Next(a, Disable(false));
    var c := Next(b, RunSnapshot);
    var e := Next(c, RunPublish(opts, oldest));
    RunTwo(d, RunCheck, Disable(false));
    RunThree(b, RunSnapshot, RunPublish(opts, oldest), RunCommit);
    assert MayCommit(e, e.run.seen);
    CommitFrame(e);
  }

  lemma RunTwo(d: Driver, a: Event, b: Event)
    ensures Run(d, [a, b]) == Next(Next(d, a), b)
  {
    assert [a, b][1..] == [b];
    assert [b][1..] == [];
    assert Run(Next(d, a), [b]) == Run(Next(Next(d, a), b), []);
  }

  lemma RunThree(d: Driver, a: Event, b: Event, c: Event)
    ensures Run(d, [a, b, c]) == Next(Next(Next(d, a), b), c)
  {
    assert [a, b, c][1..] == [b, c];
    RunTwo(Next(d, a), b, c);
  }

  /** Nor does the second half of an enable look for stops: it goes to idle from
      every disabled or faulted state without a latched fault. */
  lemma EnableCommitIgnoresStops(d: Driver)
    requires d.enabling > 0
    ensures Next(d, EnableCommit).status.state.Idle? <==>
              d.status.state.Idle? || (d.status.faults == {} && (d.status.state.Disabled? || d.status.state.Faulted?))
  {
    assert Next(d, EnableCommit) == CommitEnable(d);
  }

  /** So an enable begun before a disable undoes it. */
  lemma EnableUndoesDisable(d: Driver, softirq: bool)
    requires d.status.state.Idle? && d.enabling > 0 && d.status.faults == {}
    ensures var t := Next(d, Disable(softirq));
            t.status.state.Disabled? && t.past.stops == d.past.stops + 1 && Next(t, EnableCommit).status.state.Idle?
  {
    var t := Next(d, Disable(softirq));
    assert t == DriverStop(d, Disabled, softirq);
    EnableCommitIgnoresStops(t);
  }

  /** The commit does not look at the interrupt line. Served at once, a run that is
      to decelerate at its waypoint does so before its first byte if and only if an
      earlier interrupt was still pending when it committed. */
  lemma DeceleratesAtOnceIffInterruptPending(d: Driver)
    requires Sound(d) && d.run.Published? && MayCommit(d, d.run.seen) && d.run.opts.decelerate
             && d.run.opts.numSteps > 0
    ensures var c := Next(d, RunCommit);
            && c.status.state.Running? && c.sig.ran == 0 && (c.past.stale <==> d.sig.line)
            && (Next(c, Callback).status.decelerating <==> d.sig.line)
  {
  }

  /** The run lasts through all of these events. */
  predicate Lasts(d: Driver, evs: seq<Event>)
    decreases |evs|
  {
    d.status.state.Running? && (evs != [] ==> Lasts(Next(d, evs[0]), evs[1..]))
  }

  lemma BackwardStep(d: Driver, ev: Event)
    requires Sound(d) && d.status.state.Running? && d.status.runningBackward && Next(d, ev).status.state.Running?
    ensures var t := Next(d, ev);
            t.status.runningBackward && t.ring.tail == d.ring.tail == t.past.deadStop == d.past.deadStop
                && t.ring.inn == d.ring.inn
  {
    hide FireOk, RateOk, SignalsOk;
    match ev
    case Callback => if d.sig.line { CallbackTellsTheSignalsApart(d); }
    case _ =>
  }

  /** While a backward run lasts no write, clear or request moves the published
      dead stop or the write index. */
  lemma {:induction false} BackwardRunOwnsItsDeadStop(d: Driver, evs: seq<Event>)
    requires Sound(d) && d.status.runningBackward && Lasts(d, evs)
    ensures Run(d, evs).ring.tail == d.ring.tail == d.past.deadStop && Run(d, evs).ring.inn == d.ring.inn
    decreases |evs|
  {
    if evs != [] {
      NextSound(d, evs[0]);
      assert Next(d, evs[0]).status.state.Running?;
      BackwardStep(d, evs[0]);
      BackwardRunOwnsItsDeadStop(Next(d, evs[0]), evs[1..]);
    }
  }

  // ---- ramps ----

  /** Smoothness. During a run the step rate stays between the ramp's minimum and
      the step frequency, only the ramp timer changes it, and by at most the
      delta; a ramp that ends the run ends it from the minimum. */
  lemma RateIsSmooth(d: Driver, ev: Event)
    requires Sound(d) && d.status.state.Running?
    ensures var t := Next(d, ev);
            && RAMP_MIN <= d.rate.epit <= d.rate.stepFreq
            && (t.status.state.Running? ==>
                  && (-(d.rate.delta as int) <= t.rate.epit - d.rate.epit <= d.rate.delta)
                  && (t.rate.epit != d.rate.epit ==> ev.RampFire?)
                  && t.rate.stepFreq == d.rate.stepFreq && t.rate.delta == d.rate.delta)
            && (ev.RampFire? && !t.status.state.Running?
               ==> d.status.decelerating && d.rate.epit == RAMP_MIN && t.status.state.Idle?)
  {
    hide Sound, Next;
    if ev.RampFire? {
      FireIsSmooth(d);
    } else {
      RateStays(d, ev);
    }
  }

  lemma FireIsSmooth(d: Driver)
    requires Sound(d) && d.status.state.Running?
    ensures var t := Next(d, RampFire);
            && RAMP_MIN <= d.rate.epit <= d.rate.stepFreq
            && (t.status.state.Running? ==> -(d.rate.delta as int) <= t.rate.epit - d.rate.epit <= d.rate.delta)
            && t.rate.stepFreq == d.rate.stepFreq && t.rate.delta == d.rate.delta
            && (!t.status.state.Running? ==> d.status.decelerating && d.rate.epit == RAMP_MIN && t.status.state.Idle?)
  {
    hide FireOk, RingOk, RequestOk, SignalsOk, RampUpdate;
    if d.rate.timer { RampStep(d); }
  }

  lemma RateStays(d: Driver, ev: Event)
    requires Sound(d) && d.status.state.Running? && !ev.RampFire?
    ensures var t := Next(d, ev);
            && RAMP_MIN <= d.rate.epit <= d.rate.stepFreq
            && (t.status.state.Running?
               ==> t.rate.epit == d.rate.epit && t.rate.stepFreq == d.rate.stepFreq && t.rate.delta == d.rate.delta)
  {
    hide FireOk, RingOk, SignalsOk, SignalTick, PublishRun, ServiceInterrupt, CommitRequest;
    match ev
    case RunCommit => if d.run.Published? { CommitFrame(d); }
    case Callback => if d.sig.line { CallbackStep(d); }
    case _ =>
  }

  /** An event that leaves a ramp to its timer: no stop, and no callback but the one a
      waypoint calls for. */
  predicate LeavesRamp(d: Driver, ev: Event) {
    !ev.Halt? && !ev.Disable? && !ev.FaultTasklet? && (ev.Callback? ==> !d.sig.mailbox)
  }

  predicate LeftToRamp(d: Driver, evs: seq<Event>)
    decreases |evs|
  {
    evs != [] ==> LeavesRamp(d, evs[0]) && LeftToRamp(Next(d, evs[0]), evs[1..])
  }

  /** And no deceleration is asked for either. */
  predicate LeavesClimb(d: Driver, ev: Event) {
    LeavesRamp(d, ev) && !ev.StopRun? && (ev.Callback? ==> !d.status.decelOnInterrupt)
  }

  predicate LeftToClimb(d: Driver, evs: seq<Event>)
    decreases |evs|
  {
    evs != [] ==> LeavesClimb(d, evs[0]) && LeftToClimb(Next(d, evs[0]), evs[1..])
  }

  function RampFires(evs: seq<Event>): nat {
    if evs == [] then 0 else (if evs[0].RampFire? then 1 else 0) + RampFires(evs[1..])
  }

  /** The rates of the 10 ms intervals that the ramp timer closes along a run. */
  function IntervalRates(d: Driver, evs: seq<Event>): nat
    decreases |evs|
  {
    if evs == [] then 0
    else (if evs[0].RampFire? then d.rate.epit else 0) + IntervalRates(Next(d, evs[0]), evs[1..])
  }

  lemma DecelStep(d: Driver, ev: Event)
    requires Sound(d) && d.status.decelerating && LeavesRamp(d, ev)
    ensures var t := Next(d, ev);
            if ev.RampFire? && d.rate.epit == RAMP_MIN then t.status.state.Idle?
            else
              && t.status.decelerating && t.rate.delta == d.rate.delta
              && t.rate.epit == if ev.RampFire? then SlowDown(d.rate.epit, d.rate.delta) else d.rate.epit
  {
    hide FireOk, RingOk, SignalsOk, SignalTick, PublishRun;
  }

  /** A controlled stop left to its timer takes exactly the fires, and plays
      exactly the rates, that the ramp arithmetic says. */
  lemma {:induction false} ControlledStopPlaysItsRamp(d: Driver, evs: seq<Event>)
    requires Sound(d) && d.status.decelerating && LeftToRamp(d, evs)
    requires RampFires(evs) <= Fires(d.rate.epit, d.rate.delta)
    ensures RampFires(evs) < Fires(d.rate.epit, d.rate.delta) ==> Run(d, evs).status.decelerating
    ensures evs != [] && evs[|evs| - 1].RampFire? && RampFires(evs) == Fires(d.rate.epit, d.rate.delta) ==>
              Run(d, evs).status.state.Idle? && IntervalRates(d, evs) == Travel(d.rate.epit, d.rate.delta)
    decreases |evs|
  {
    if evs != [] {
      var t, rest := Next(d, evs[0]), evs[1..];
      NextSound(d, evs[0]);
      DecelStep(d, evs[0]);
      if !evs[0].RampFire? || d.rate.epit != RAMP_MIN {
        ControlledStopPlaysItsRamp(t, rest);
        if rest != [] {
          assert rest[|rest| - 1] == evs[|evs| - 1];
        }
      } else if rest != [] && rest[|rest| - 1].RampFire? {
        LastFireCounts(rest);
      }
    }
  }

  /** A stop from full speed: the ticks it plays (rates of 10 ms intervals, so a
      hundredth of their sum) stay within the tail reserved for them exactly when the
      settings meet ReserveCovers, and exceed it by less than f/200 + d/800 + 10. */
  lemma FullSpeedStopStaysNearItsReserve(d: Driver, evs: seq<Event>)
    requires Sound(d) && d.status.state.Running? && !Ramping(d.status)
    requires evs != [] && evs[|evs| - 1].RampFire? && LeftToRamp(Next(d, StopRun), evs)
    requires RampFires(evs) == Fires(d.rate.stepFreq, d.rate.delta)
    ensures var s := Next(d, StopRun);
            && Run(s, evs).status.state.Idle?
            && 8 * IntervalRates(s, evs) < 800 * DecelSteps(d.rate.stepFreq, RAMP_UPDATES_PER_SEC * d.rate.delta)
                                           + 4 * d.rate.stepFreq + d.rate.delta + 8000
            && (IntervalRates(s, evs) <= 100 * DecelSteps(d.rate.stepFreq, RAMP_UPDATES_PER_SEC * d.rate.delta)
                <==> ReserveCovers(d.rate.stepFreq, d.rate.delta))
  {
    NextSound(d, StopRun);
    ControlledStopPlaysItsRamp(Next(d, StopRun), evs);
    ReserveShortfall(d.rate.stepFreq, d.rate.delta);
    ReserveCoversIff(d.rate.stepFreq, d.rate.delta);
  }

  lemma AccelStep(d: Driver, ev: Event)
    requires Sound(d) && d.status.state.Running? && !d.status.decelerating && LeavesClimb(d, ev)
    ensures var t := Next(d, ev);
            && t.status.state.Running? && !t.status.decelerating
            && t.rate.delta == d.rate.delta && t.rate.stepFreq == d.rate.stepFreq
            && (if !ev.RampFire? || !d.status.accelerating then
                  t.rate.epit == d.rate.epit && t.status.accelerating == d.status.accelerating
                else if d.rate.epit + d.rate.delta >= d.rate.stepFreq then
                  t.rate.epit == d.rate.stepFreq && !t.status.accelerating
                else t.rate.epit == d.rate.epit + d.rate.delta && t.status.accelerating)
  {
    hide FireOk, RingOk, SignalsOk, SignalTick, PublishRun;
  }

  /** Where `n` fires take a rate that climbs to the step frequency. */
  predicate Climbed(d: Driver, t: Driver, n: nat) {
    var climbed := d.rate.epit + n * d.rate.delta;
    && t.status.state.Running?
    && (if d.status.accelerating && (n == 0 || climbed < d.rate.stepFreq)
        then t.status.accelerating && t.rate.epit == climbed
        else !t.status.accelerating && t.rate.epit == d.rate.stepFreq)
  }

  lemma ClimbOn(d: Driver, e: Driver, t: Driver, n: nat)
    requires Climbed(e, t, n) && d.status.accelerating && d.rate.epit <= d.rate.stepFreq
    requires e.rate.delta == d.rate.delta && e.rate.stepFreq == d.rate.stepFreq
    requires if d.rate.epit + d.rate.delta >= d.rate.stepFreq then
               e.rate.epit == d.rate.stepFreq && !e.status.accelerating
             else e.rate.epit == d.rate.epit + d.rate.delta && e.status.accelerating
    ensures Climbed(d, t, n + 1)
  {
    assert (n + 1) * d.rate.delta == n * d.rate.delta + d.rate.delta;
  }

  /** An acceleration left to its timer climbs by exactly the delta at each fire
      until it reaches the step frequency, and stays there. */
  lemma {:induction false} AccelerationReachesFullSpeed(d: Driver, evs: seq<Event>)
    requires Sound(d) && d.status.state.Running? && !d.status.decelerating && LeftToClimb(d, evs)
    ensures Climbed(d, Run(d, evs), RampFires(evs))
    decreases |evs|
  {
    if evs != [] {
      var e, rest := Next(d, evs[0]), evs[1..];
      NextSound(d, evs[0]);
      AccelStep(d, evs[0]);
      AccelerationReachesFullSpeed(e, rest);
      if evs[0].RampFire? && d.status.accelerating {
        ClimbOn(d, e, Run(d, evs), RampFires(rest));
      }
    }
  }

  lemma LastFireCounts(evs: seq<Event>)
    requires evs != [] && evs[|evs| - 1].RampFire?
    ensures RampFires(evs) > 0
  {
    if |evs| > 1 {
      LastFireCounts(evs[1..]);
    }
  }
}
