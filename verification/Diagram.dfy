/** What the driver does, one observable at a time: its lifecycle as a diagram of states,
    and exactly when each of its outputs changes. */
module Diagram {
  import opened Words
  import opened Driver
  import opened Lifecycle

  // ---- causes ----

  /** A published run that commits. */
  predicate Commits(d: Driver, ev: Event) {
    && ev.RunCommit? && d.run.Published? && d.status.faults == {} && d.generation == d.run.seen
    && (d.status.state == Idle || d.status.state == Disabled)
  }

  /** A pending fault is taken up. */
  predicate Strikes(d: Driver, ev: Event) {
    ev.FaultTasklet? && d.pending != {}
  }

  /** A fault line is seen to fall: it is low, known and not ignored. */
  predicate Edge(d: Driver, ev: Event) {
    ev.FaultIrq? && ev.low && ev.bit < 3 && ev.bit !in d.ignored
  }

  /** An interrupt is served that the engine raised at the end of its data, */
  predicate ServesEnd(d: Driver, ev: Event) {
    ev.Callback? && d.sig.line && d.sig.mailbox
  }

  /** or before it. */
  predicate ServesWaypoint(d: Driver, ev: Event) {
    ev.Callback? && d.sig.line && !d.sig.mailbox
  }

  /** The ramp timer fires at the bottom of a deceleration. */
  predicate RampsOut(d: Driver, ev: Event) {
    ev.RampFire? && d.status.decelerating && d.rate.epit == 900
  }

  /** An enable finds FAULT with every fault line high that is not ignored. */
  predicate Clears(d: Driver, ev: Event) {
    ev.EnableBegin? && d.status.state == Faulted && forall bit :: bit in ev.live ==> bit in d.ignored
  }

  // ---- the lifecycle ----

  /** The state after an event, by the state before it. */
  function StateAfter(d: Driver, ev: Event): State {
    if Strikes(d, ev) then Faulted else
    match d.status.state
    case Idle => if Commits(d, ev) then Running else if ev.Disable? then Disabled else Idle
    case Running =>
      if ev.Disable? then Disabled
      else if ServesEnd(d, ev) then (if d.status.streaming then Underrun else Idle)
      else if ev.Halt? || RampsOut(d, ev) then Idle
      else Running
    case Disabled => if Commits(d, ev) then Running else if ev.EnableCommit? && d.enabling > 0 then Idle else Disabled
    case Faulted => if ev.EnableCommit? && d.enabling > 0 && d.status.faults == {} then Idle else Faulted
    case Underrun => if ev.StopRun? then Idle else if ev.Disable? then Disabled else Underrun
  }

  /** The lifecycle, as its table of states has it. */
  lemma StatesFollowDiagram(d: Driver, ev: Event)
    requires Sound(d)
    ensures Next(d, ev).status.state == StateAfter(d, ev)
  {
    hide Sound, Next, StateAfter;
    if ev.RampFire? {
      RampState(d);
    } else {
      OtherState(d, ev);
    }
  }

  lemma RampState(d: Driver)
    requires Sound(d)
    ensures Next(d, RampFire).status.state == StateAfter(d, RampFire)
  {
    hide FireOk, RequestOk, RingOk, SignalsOk, Wrap;
  }

  lemma OtherState(d: Driver, ev: Event)
    requires Sound(d) && !ev.RampFire?
    ensures Next(d, ev).status.state == StateAfter(d, ev)
  {
    hide FireOk, RateOk, RequestOk, RingOk, SignalsOk, Wrap, RampUpdate, SignalTick;
  }

  /** The driver is stopped: it leaves RUNNING, or enters a state that holds it. */
  predicate StopsNow(d: Driver, ev: Event) {
    var next := StateAfter(d, ev);
    next != d.status.state && (d.status.state == Running || next == Disabled || next == Faulted || next == Underrun)
  }

  /** Fault bits: latched by the tasklet and cleared by an enable that finds the lines
      high, and by nothing else; pending from an edge of a known line that is low and
      not ignored until the tasklet. */
  lemma FaultsFollow(d: Driver, ev: Event)
    requires Sound(d)
    ensures var t := Next(d, ev);
            && t.status.faults
               == (if Strikes(d, ev) then d.status.faults + d.pending
                   else if Clears(d, ev) then {} else d.status.faults)
            && t.pending == (if ev.FaultTasklet? then {}
                             else if Edge(d, ev) then d.pending + {ev.bit}
                             else d.pending)
            && t.ignored == if ev.SetIgnored? && (forall bit :: bit in ev.mask ==> bit < 3) then ev.mask else d.ignored
  {
    hide FireOk, RateOk, RequestOk, RingOk, SignalsOk, Wrap;
  }

  // ---- FIRE ----

  /** A deceleration starts. */
  predicate Slows(d: Driver, ev: Event) {
    && d.status.state == Running && !d.status.decelerating
    && (ev.StopRun? || (ServesWaypoint(d, ev) && d.status.decelOnInterrupt))
  }

  /** What takes the FIRE line to high impedance, */
  predicate Parks(d: Driver, ev: Event) {
    StopsNow(d, ev) || Slows(d, ev) || (ev.SetLatch? && ev.locked) || ev.PowerOff?
  }

  /** and what drives it. */
  predicate Drives(d: Driver, ev: Event) {
    (Commits(d, ev) && !d.fire.latched) || (ev.SetLatch? && !ev.locked && d.status.state != Running)
  }

  /** The FIRE line: driven from a commit with the latch open, or from the opening of the
      latch outside a run, until a stop, a deceleration, the latch or a power-off; */
  lemma FireFollows(d: Driver, ev: Event)
    requires Sound(d)
    ensures Next(d, ev).fire.driven <==> !Parks(d, ev) && (d.fire.driven || Drives(d, ev))
  {
    hide RateOk, RequestOk, RingOk, SignalsOk, Wrap, StateAfter, SignalTick;
    StatesFollowDiagram(d, ev);
    if ev.RampFire? {
      hide Next;
      FireOverRamp(d);
    }
  }

  /** low when it is taken over, then what the script says. */
  lemma LevelFollows(d: Driver, ev: Event)
    requires Sound(d)
    ensures Next(d, ev).fire.high
            == (if Drives(d, ev) then false else if ev.EngineTick? && d.rate.epit > 0 then ev.level else d.fire.high)
  {
    hide RateOk, RequestOk, RingOk, SignalsOk, Wrap, SignalTick;
  }

  lemma FireOverRamp(d: Driver)
    requires Sound(d)
    ensures Next(d, RampFire).fire == d.fire.(driven := d.fire.driven && !StopsNow(d, RampFire))
  {
    hide FireOk, RequestOk, RingOk, SignalsOk, Wrap;
  }

  /** The latch: closed by a disable, a power-off or a write, opened by a write only. */
  lemma LatchFollows(d: Driver, ev: Event)
    requires Sound(d)
    ensures Next(d, ev).fire.latched <==>
              || ev.PowerOff? || (StopsNow(d, ev) && StateAfter(d, ev) == Disabled)
              || (if ev.SetLatch? then ev.locked else d.fire.latched)
  {
    hide RateOk, FireOk, RequestOk, RingOk, SignalsOk, Wrap, StateAfter, SignalTick;
    StatesFollowDiagram(d, ev);
  }

  // ---- the run ----

  /** The ramps: a deceleration lasts until the run stops; an acceleration until it reaches
      the step frequency or a deceleration starts. */
  lemma RampsFollow(d: Driver, ev: Event)
    requires Sound(d)
    ensures var t := Next(d, ev); var runs := StateAfter(d, ev) == Running;
            && (t.status.decelerating <==> runs && (d.status.decelerating || Slows(d, ev)))
            && (t.status.accelerating <==>
                  && runs && !Slows(d, ev)
                  && (if Commits(d, ev) then d.run.opts.accelerate
                      else d.status.accelerating && !(ev.RampFire? && d.rate.epit + d.rate.delta >= d.rate.stepFreq)))
  {
    hide FireOk, RingOk, SignalsOk, Wrap, StateAfter;
    StatesFollowDiagram(d, ev);
  }

  /** The waypoint of a run is that of its request until the callback takes it, and goes
      with the run; */
  lemma WaypointFollows(d: Driver, ev: Event)
    requires Sound(d)
    ensures var t := Next(d, ev); var runs := StateAfter(d, ev) == Running;
            && (t.status.waypointArmed <==>
                  && runs
                  && (if Commits(d, ev) then d.run.opts.numSteps > 0
                      else d.status.waypointArmed && !ServesWaypoint(d, ev)))
            && (t.status.decelOnInterrupt <==>
                  && runs
                  && (if Commits(d, ev) then d.run.opts.decelerate && d.run.opts.numSteps > 0
                      else d.status.decelOnInterrupt && !ServesWaypoint(d, ev)))
  {
    hide FireOk, RateOk, RingOk, SignalsOk, Wrap, StateAfter, SignalTick;
    StatesFollowDiagram(d, ev);
  }

  /** so does its direction; streaming is what was last declared. */
  lemma DirectionFollows(d: Driver, ev: Event)
    requires Sound(d)
    ensures var t := Next(d, ev); var runs := StateAfter(d, ev) == Running;
            && (t.status.runningBackward <==>
                  runs && if Commits(d, ev) then d.run.opts.backward else d.status.runningBackward)
            && (t.status.streaming <==> if ev.SetStreaming? then ev.on else d.status.streaming)
  {
    hide FireOk, RateOk, RingOk, SignalsOk, Wrap, StateAfter, SignalTick;
    StatesFollowDiagram(d, ev);
  }

  /** The step rate of one fire of the ramp timer. */
  function RampedRate(d: Driver): nat {
    if d.status.decelerating then (if d.rate.epit > 900 + d.rate.delta then d.rate.epit - d.rate.delta else 900)
    else if d.status.accelerating && d.rate.epit + d.rate.delta < d.rate.stepFreq then d.rate.epit + d.rate.delta
    else d.rate.stepFreq
  }

  /** Speeds: a run starts at 900 Hz to accelerate and at the step frequency not to, and
      from then on only the ramp timer changes its rate; outside RUNNING the timer is off.
      The settings take what is in range, and only outside RUNNING. */
  lemma RatesFollow(d: Driver, ev: Event)
    requires Sound(d)
    ensures var t := Next(d, ev); var open := d.status.state != Running;
            && t.rate.epit == (if StateAfter(d, ev) != Running then 0
                               else if Commits(d, ev) then (if d.run.opts.accelerate then 900 else d.rate.stepFreq)
                               else if ev.RampFire? then RampedRate(d) else d.rate.epit)
            && t.rate.stepFreq
               == (if ev.SetStepFrequency? && open && 1000 <= ev.freq <= 200000 then ev.freq else d.rate.stepFreq)
            && t.rate.delta
               == (if ev.SetRampRate? && open && 10000 <= ev.rate <= 500000 then ev.rate / 100 else d.rate.delta)
  {
    hide FireOk, RingOk, SignalsOk, Wrap;
  }

  /** A run request goes check, snapshot, publish, commit; before it is published it can
      be refused. The snapshot is of the generation, and the commit ends the request. An
      enable is begun from DISABLED, or from FAULT when its lines are high. */
  lemma RequestsFollow(d: Driver, ev: Event)
    requires Sound(d)
    ensures var t := Next(d, ev);
            && t.run == (match d.run
                         case NoRequest =>
                           if ev.RunCheck? && (d.status.state == Idle || d.status.state == Disabled) then Checked
                           else NoRequest
                         case Checked =>
                           if ev.RunSnapshot? then Ready(d.generation) else if ev.RunRefuse? then NoRequest else Checked
                         case Ready(seen) =>
                           if ev.RunPublish? && d.ring.owner.Free? then Published(seen, ev.opts)
                           else if ev.RunRefuse? then NoRequest else d.run
                         case Published(_, _) => if ev.RunCommit? then NoRequest else d.run)
            && t.enabling == (if ev.EnableBegin? && (d.status.state == Disabled || Clears(d, ev)) then d.enabling + 1
                              else if ev.EnableCommit? && d.enabling > 0 then d.enabling - 1 else d.enabling)
  {
    hide FireOk, RateOk, RingOk, SignalsOk, Wrap;
  }

  /** The ring mutex: free, it is taken by a write outside a backward run, by a clear outside
      RUNNING and by the publishing of a run; the end of each gives it back. */
  lemma RingFollows(d: Driver, ev: Event)
    requires Sound(d)
    ensures var t := Next(d, ev);
            t.ring.owner == match d.ring.owner
                            case Free =>
                              if ev.RunPublish? && d.run.Ready? then Runner
                              else if ev.WriteBegin? && (d.status.state != Running || !d.status.runningBackward)
                                then Writer
                              else if ev.ClearBegin? && d.status.state != Running then Clearer
                              else Free
                            case Writer => if ev.WriteEnd? then Free else Writer
                            case Clearer => if ev.ClearEnd? then Free else Clearer
                            case Runner => if ev.RunCommit? then Free else Runner
  {
    hide StatusOk, FireOk, RateOk, RequestOk, SignalsOk, Wrap;
  }

  // ---- faults over runs ----

  /** Whatever the driver is doing, the tasklet takes up every pending fault and stops it. */
  lemma FaultStops(d: Driver)
    requires Sound(d) && d.pending != {}
    ensures var t := Next(d, FaultTasklet);
            && t.status.state == Faulted && t.status.faults == d.status.faults + d.pending && t.pending == {}
            && t.rate.epit == 0 && !t.status.accelerating && !t.status.decelerating
            && (d.status.state != Faulted ==> !t.fire.driven && t.past.stops == d.past.stops + 1)
            && t.fire.latched == d.fire.latched
  {
    hide Next, Sound, StateAfter;
    var ev := FaultTasklet;
    NextSound(d, ev);
    StatesFollowDiagram(d, ev);
    FaultsFollow(d, ev);
    RampsFollow(d, ev);
    RatesFollow(d, ev);
    FireFollows(d, ev);
    LatchFollows(d, ev);
    FaultStopCounts(d);
    assert StateAfter(d, ev) == Faulted by { StruckState(d, ev); }
  }

  lemma StruckState(d: Driver, ev: Event)
    requires Strikes(d, ev)
    ensures StateAfter(d, ev) == Faulted
  {
  }

  lemma FaultStopCounts(d: Driver)
    requires d.pending != {}
    ensures Next(d, FaultTasklet).past.stops == d.past.stops + if d.status.state == Faulted then 0 else 1
  {
  }

  /** No event along the way is an enable that finds the lines high. */
  predicate NeverCleared(d: Driver, evs: seq<Event>)
    decreases |evs|
  {
    evs != [] ==> !Clears(d, evs[0]) && NeverCleared(Next(d, evs[0]), evs[1..])
  }

  /** A latched fault holds the driver in FAULT through anything but such an enable. */
  lemma {:induction false} FaultHolds(d: Driver, evs: seq<Event>)
    requires Sound(d) && d.status.faults != {} && NeverCleared(d, evs)
    ensures Run(d, evs).status.state == Faulted && d.status.faults <= Run(d, evs).status.faults
    decreases |evs|
  {
    hide Next, StateAfter, Clears;
    assert d.status.state == Faulted;
    if evs != [] {
      var t := Next(d, evs[0]);
      NextSound(d, evs[0]);
      FaultsFollow(d, evs[0]);
      FaultHolds(t, evs[1..]);
    }
  }

  lemma {:induction false} PendingStays(d: Driver, bit: nat, evs: seq<Event>)
    requires Sound(d) && bit in d.pending && forall i :: 0 <= i < |evs| ==> !evs[i].FaultTasklet?
    ensures Sound(Run(d, evs)) && bit in Run(d, evs).pending
    decreases |evs|
  {
    hide Next, Sound;
    if evs != [] {
      NextSound(d, evs[0]);
      FaultsFollow(d, evs[0]);
      PendingStays(Next(d, evs[0]), bit, evs[1..]);
    }
  }

  /** A fault, from the edge of its line on: whatever comes before the tasklet, the tasklet
      stops the driver with that bit latched, and there it stays until an enable finds
      every line high that is not ignored. */
  lemma EdgeHoldsInFault(d: Driver, bit: nat, before: seq<Event>, after: seq<Event>)
    requires Sound(d) && bit < 3 && bit !in d.ignored && forall i :: 0 <= i < |before| ==> !before[i].FaultTasklet?
    requires NeverCleared(Next(Run(Next(d, FaultIrq(bit, true)), before), FaultTasklet), after)
    ensures var struck := Next(Run(Next(d, FaultIrq(bit, true)), before), FaultTasklet);
            && struck.status.state == Faulted && struck.rate.epit == 0
            && Run(struck, after).status.state == Faulted && bit in Run(struck, after).status.faults
  {
    hide Next, Sound;
    var edge := Next(d, FaultIrq(bit, true));
    NextSound(d, FaultIrq(bit, true));
    FaultsFollow(d, FaultIrq(bit, true));
    PendingStays(edge, bit, before);
    var e := Run(edge, before);
    FaultStops(e);
    NextSound(e, FaultTasklet);
    FaultHolds(Next(e, FaultTasklet), after);
  }

  lemma {:induction false} ClearedSomewhere(d: Driver, evs: seq<Event>)
    requires !NeverCleared(d, evs)
    ensures exists k :: 0 <= k < |evs| && Clears(Run(d, evs[..k]), evs[k])
    decreases |evs|
  {
    hide Next, Clears;
    if Clears(d, evs[0]) {
      assert evs[..0] == [] && Run(d, evs[..0]) == d;
    } else {
      ClearedSomewhere(Next(d, evs[0]), evs[1..]);
      var k :| 0 <= k < |evs[1..]| && Clears(Run(Next(d, evs[0]), evs[1..][..k]), evs[1..][k]);
      assert evs[..k + 1][1..] == evs[1..][..k] && evs[..k + 1][0] == evs[0];
      assert Run(d, evs[..k + 1]) == Run(Next(d, evs[0]), evs[1..][..k]);
    }
  }

  /** FAULT with a latched bit is left only through an enable that found every fault line
      high that was not ignored. */
  lemma FaultIsLeftByEnable(d: Driver, evs: seq<Event>)
    requires Sound(d) && d.status.faults != {} && Run(d, evs).status.state != Faulted
    ensures exists k :: 0 <= k < |evs| && Clears(Run(d, evs[..k]), evs[k])
  {
    if NeverCleared(d, evs) {
      FaultHolds(d, evs);
    } else {
      ClearedSomewhere(d, evs);
    }
  }

  /** An enable in FAULT with a line still low that is not ignored changes nothing; with the
      lines high it clears the faults, and the driver stays in FAULT until its second half. */
  lemma EnableClearsIffLinesHigh(d: Driver, live: set<nat>)
    requires Sound(d) && d.status.state == Faulted
    ensures var t := Next(d, EnableBegin(live));
            && t.status.state == Faulted
            && (if forall bit :: bit in live ==> bit in d.ignored then
                  t.status.faults == {} && t.enabling == d.enabling + 1 && Next(t, EnableCommit).status.state == Idle
                else t == d)
  {
    assert live <= d.ignored <==> forall bit :: bit in live ==> bit in d.ignored;
  }

  // ---- a disable, a commit ----

  /** A disable ends in DISABLED from every state but FAULT, which it leaves alone; out of
      IDLE, RUNNING and UNDERRUN it stops the timer and the ramp, parks FIRE and closes
      the latch. */
  lemma DisableStops(d: Driver, softirq: bool)
    requires Sound(d)
    ensures var t := Next(d, Disable(softirq));
            && (d.status.state != Faulted ==> t.status.state == Disabled && t.rate.epit == 0)
            && (d.status.state == Idle || d.status.state == Running || d.status.state == Underrun ==>
                  && t.fire.latched && !t.fire.driven && t.past.stops == d.past.stops + 1
                  && !t.status.accelerating && !t.status.decelerating && !t.status.waypointArmed)
            && (d.status.state == Disabled || d.status.state == Faulted ==> t == d)
  {
  }

  /** A run commits with FIRE driven exactly if the latch is open, low, and leaves the latch. */
  lemma CommitDrivesFire(d: Driver)
    requires Sound(d) && Commits(d, RunCommit)
    ensures var t := Next(d, RunCommit);
            && t.status.state == Running && t.fire.latched == d.fire.latched && (t.fire.driven <==> !t.fire.latched)
            && (t.fire.driven ==> !t.fire.high)
  {
    hide Next, Sound;
    StatesFollowDiagram(d, RunCommit);
    FireFollows(d, RunCommit);
    LevelFollows(d, RunCommit);
    LatchFollows(d, RunCommit);
    assert d.fire.latched ==> !d.fire.driven by { LatchedIsParked(d); }
  }

  lemma LatchedIsParked(d: Driver)
    requires Sound(d)
    ensures d.fire.latched ==> !d.fire.driven
  {
  }

  /** The run goes on without a deceleration, a latch write or a power-off. */
  predicate Undisturbed(d: Driver, evs: seq<Event>)
    decreases |evs|
  {
    && d.status.state == Running && !d.status.decelerating
    && (evs != [] ==> !evs[0].SetLatch? && !evs[0].PowerOff? && Undisturbed(Next(d, evs[0]), evs[1..]))
  }

  /** And so it stays while the run goes on: the laser is never lost in mid-run, nor
      driven against the latch. */
  lemma {:induction false} FireLastsTheRun(d: Driver, evs: seq<Event>)
    requires Sound(d) && (d.fire.driven <==> !d.fire.latched) && Undisturbed(d, evs)
    ensures var t := Run(d, evs); t.fire.latched == d.fire.latched && (t.fire.driven <==> !t.fire.latched)
    decreases |evs|
  {
    hide Next, Sound, StateAfter;
    if evs != [] {
      var t := Next(d, evs[0]);
      NextSound(d, evs[0]);
      StatesFollowDiagram(d, evs[0]);
      RampsFollow(d, evs[0]);
      FireFollows(d, evs[0]);
      LatchFollows(d, evs[0]);
      assert t.status.state == Running;
      RunningStays(d, evs[0]);
      FireLastsTheRun(t, evs[1..]);
    }
  }

  /** A running driver does not commit again. */
  lemma RunningStays(d: Driver, ev: Event)
    requires d.status.state == Running
    ensures !Commits(d, ev)
  {
  }

  /** The driver as probed: FAULT exactly for a line that reads low and is not ignored, at
      10 kHz and 125 kHz/s, with the latch closed and FIRE parked. */
  lemma ProbeStarts(live: set<nat>, ignored: set<nat>)
    ensures var d := Probe(live, ignored);
            && (forall bit :: bit in d.status.faults <==> bit in live && bit !in ignored)
            && d.status.state == (if exists bit :: bit in live && bit !in ignored then Faulted else Disabled)
            && d.rate.stepFreq == 10000 && d.rate.delta == 1250 && d.rate.epit == 0 && d.fire.latched && !d.fire.driven
            && d.run == NoRequest && d.pending == {} && d.ignored == ignored && d.underruns == 0
            && !d.status.streaming && !d.sig.parked && !d.sig.line
  {
    if bit :| bit in live && bit !in ignored {
      assert bit in live - ignored;
    }
    if live - ignored != {} {
      var bit :| bit in live - ignored;
      assert bit in live && bit !in ignored;
    }
  }
}
