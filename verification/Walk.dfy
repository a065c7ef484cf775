/** One backward run: what it walks over, where its waypoint comes and where it stops. */
module Walk {
  import opened Words
  import opened Backtrack
  import opened Pulse
  import opened Engine
  import opened Playback
  import opened Fifo
  import opened Parking
  import opened Retrace

  /** `from` down to but not including `to`. */
  function Down(from: int, to: int): seq<int>
    decreases from - to
  {
    if from <= to then [] else [from] + Down(from - 1, to)
  }

  lemma {:induction false} DownSnoc(from: int, to: int)
    requires to <= from
    ensures Down(from, to - 1) == Down(from, to) + [to]
    decreases from - to
  {
    if from > to {
      DownSnoc(from - 1, to);
    }
  }

  /** Since state `s0` the run has executed exactly the indices from its start
      down to the current head, and has parked only at the dead stop. */
  predicate Walked(s0: Sys, t: Sys) {
    && t.mode != PlayingForward && t.job == s0.job && t.goal == s0.goal && |t.mem| == |s0.mem| && t.mem == s0.mem
    && t.e.mapped == s0.e.mapped && !t.e.dir.Forward? && t.owner.Free?
    && s0.goal <= t.e.at <= s0.e.at
    && Indices(t.e.log) == Indices(s0.e.log) + Down(s0.e.at, t.e.at)
    && (t.e.dir.Parked? && s0.e.mapped ==> t.e.at == s0.goal)
  }

  lemma PassWalked(s0: Sys, s: Sys, f: Engine)
    requires Sound(s.(e := f)) && Walked(s0, s.(e := f)) && s.mode.PlayingBackward? && !Idle(f, |s.mem|)
    ensures Walked(s0, s.(e := Pass(f, s.mem[Slot(f.head, |s.mem|)])))
  {
    hide Pass, Body, Indices, Sound, Down;
    SoundIndices(s.(e := f));
    var b := s.mem[Slot(f.head, |s.mem|)];
    HeadInJob(s.(e := f));
    PassFrame(f, b);
    var x := PassLogs(f, b);
    BytesPush(f.log, x);
    DownSnoc(s0.e.at, f.at);
  }

  lemma RestWalked(s0: Sys, s: Sys, f: Engine)
    requires Sound(s.(e := f)) && Walked(s0, s.(e := f)) && s.mode.PlayingBackward?
    ensures Walked(s0, s.(e := Restarted(f)))
    ensures Idle(f, |s.mem|) ==> Walked(s0, s.(e := AllDone(f)))
  {
    hide ParkWord, Indices, Resident;
    RestFrame(f);
    BytesPush(f.log, Park(ParkWord(f.r3)));
    MaskedTest(f.at, s.goal, |s.mem|);
  }

  lemma TickWalked(s0: Sys, s: Sys)
    requires Sound(s) && Walked(s0, s) && s.mode.PlayingBackward?
    ensures Walked(s0, s.(e := Tick(s.e, s.mem)))
  {
    var keep := (f: Engine) => Walked(s0, s.(e := f));
    forall f: Engine | Sound(s.(e := f)) && keep(f)
      ensures keep(Restarted(f)) && (Idle(f, |s.mem|) ==> keep(AllDone(f)))
      ensures !Idle(f, |s.mem|) ==> keep(Pass(f, s.mem[Slot(f.head, |s.mem|)]))
    {
      RestWalked(s0, s, f);
      if !Idle(f, |s.mem|) {
        PassWalked(s0, s, f);
      }
    }
    TickKeepsSound(s, keep);
  }

  lemma NextWalked(s0: Sys, s: Sys, ev: Event)
    requires Sound(s) && Walked(s0, s) && s.mode.PlayingBackward? && !ev.Stop?
    ensures Walked(s0, Next(s, ev)) && Next(s, ev).mode.PlayingBackward?
  {
    if ev.TimerTick? {
      TickWalked(s0, s);
    }
  }

  /** A committed backward run, until it is stopped: it executes out, out-1, ...
      in order and never past the byte after its dead stop; no write, clear or
      run request meanwhile moves the published dead stop; and it parks only
      when it is there. */
  lemma BackwardRunWalksDown(s0: Sys, evs: seq<Event>)
    requires Sound(s0) && s0.mode.PlayingBackward? && s0.e.dir.Backward?
    requires forall ev | ev in evs :: !ev.Stop?
    ensures Walked(s0, Run(s0, evs)) && Run(s0, evs).mode.PlayingBackward?
    ensures Run(s0, evs).e.tail == s0.e.tail
  {
    var keep := (t: Sys) => Walked(s0, t) && t.mode.PlayingBackward?;
    assert Down(s0.e.at, s0.e.at) == [];
    forall t: Sys, ev: Event | Sound(t) && keep(t) && !ev.Stop?
      ensures keep(Next(t, ev))
    {
      NextWalked(s0, t, ev);
    }
    RunKeeps(s0, evs, keep, (ev: Event) => !ev.Stop?);
  }

  /** In a backward run the masked stop test succeeds at the dead stop and
      nowhere before it. */
  lemma StopTestIsExact(s: Sys)
    requires Sound(s) && s.mode.PlayingBackward? && s.e.dir.Backward? && s.e.mapped
    ensures Idle(s.e, |s.mem|) <==> s.e.at == |s.job| - Span(|s.mem|, |s.job|)
  {
    MaskedTest(s.e.at, s.goal, |s.mem|);
  }

  /** A backward tick that finds data takes at least one byte, and goes on next time
      unless it has parked. */
  lemma TickGoesBack(e: Engine, mem: seq<bv8>)
    requires RingSize(|mem|) && e.resume.AtLoop? && e.dir.Backward? && !Idle(e, |mem|)
    ensures var t := Tick(e, mem); t.at < e.at && (t.dir.Parked? || t.resume.AtLoop?)
  {
    var b := mem[Slot(e.head, |mem|)];
    var p := Pass(e, b);
    PassFrame(e, b);
    if Again(e, b) {
      var keep := (f: Engine) => f.at < e.at && !f.dir.Forward? && (f.dir.Parked? || f.resume.AtLoop?);
      forall f: Engine | keep(f)
        ensures Idle(f, |mem|) ==> keep(AllDone(f))
        ensures f.resume.AtLoop? && !Idle(f, |mem|) ==> keep(Pass(f, mem[Slot(f.head, |mem|)]))
      {
        if !Idle(f, |mem|) {
          hide Pass, Body;
          PassFrame(f, mem[Slot(f.head, |mem|)]);
        }
      }
      RoomShrinks(e, b, |mem|);
      assert Tick(e, mem) == Consume(p, mem);
      ConsumeKeeps(p, mem, keep);
    }
  }

  /** Ticks a backward run can still take before it is at its dead stop. */
  function Due(s: Sys): int {
    if s.e.at == s.goal then 0 else s.e.at - s.goal + (if s.e.resume.AtStart? then 1 else 0)
  }

  lemma TickComesCloser(s: Sys)
    requires Sound(s) && Walked(s, s) && s.mode.PlayingBackward? && s.e.mapped
    ensures 0 <= Due(s.(e := Tick(s.e, s.mem))) <= if Due(s) == 0 then 0 else Due(s) - 1
  {
    TickWalked(s, s);
    if s.e.at != s.goal && s.e.resume.AtLoop? {
      StopTestIsExact(s);
      TickGoesBack(s.e, s.mem);
    }
  }

  lemma WalkedSelf(s: Sys, t: Sys)
    requires Walked(s, t) && t.mode.PlayingBackward?
    ensures Walked(t, t) && t.goal == s.goal && t.e.mapped == s.e.mapped && t.goal <= t.e.at
  {
    hide Indices;
    assert Down(t.e.at, t.e.at) == [];
  }

  lemma NextComesCloser(s: Sys, ev: Event)
    requires Sound(s) && Walked(s, s) && s.mode.PlayingBackward? && s.e.mapped && !ev.Stop?
    ensures var t := Next(s, ev);
            && Walked(t, t) && t.mode.PlayingBackward? && t.e.mapped && t.goal == s.goal
            && 0 <= Due(t) <= if ev.TimerTick? && Due(s) > 0 then Due(s) - 1 else Due(s)
  {
    hide Sound, Walked, Indices, EndWrite, PublishStep, Tick;
    SoundIndices(s);
    NextWalked(s, s, ev);
    WalkedSelf(s, Next(s, ev));
    if ev.TimerTick? {
      TickComesCloser(s);
    } else {
      HostDuringRun(s, ev);
    }
  }

  /** A backward run left on reaches its dead stop, within one tick a byte and one to
      start, whatever else happens meanwhile. */
  lemma {:induction false} BackwardRunReachesItsDeadStop(s: Sys, evs: seq<Event>)
    requires Sound(s) && s.mode.PlayingBackward? && s.e.mapped && (s.e.dir.Parked? ==> s.e.at == s.goal)
    requires forall i :: 0 <= i < |evs| ==> !evs[i].Stop?
    requires Ticks(evs) > s.e.at - s.goal
    ensures Run(s, evs).e.at == s.goal
  {
    assert Down(s.e.at, s.e.at) == [];
    RunComesCloser(s, evs);
  }

  lemma {:induction false} RunComesCloser(s: Sys, evs: seq<Event>)
    requires Sound(s) && Walked(s, s) && s.mode.PlayingBackward? && s.e.mapped
    requires forall i :: 0 <= i < |evs| ==> !evs[i].Stop?
    requires Ticks(evs) >= Due(s)
    ensures Run(s, evs).e.at == s.goal
    decreases |evs|
  {
    assert s.goal <= s.e.at;
    hide Placed, Resident, Walked;
    if evs != [] {
      NextSound(s, evs[0]);
      NextComesCloser(s, evs[0]);
      RunComesCloser(Next(s, evs[0]), evs[1..]);
    }
  }

  /** The waypoint of a run of `way` bytes, since state `s0`: counted down by the bytes
      walked. */
  predicate Counted(s0: Sys, t: Sys, way: nat) {
    !t.e.dir.Parked? ==> t.e.way == if s0.e.at - t.e.at < way then way - (s0.e.at - t.e.at) else 0
  }

  /** Its interrupt is up if it has been reached. */
  predicate Raised(s0: Sys, t: Sys, way: nat) {
    0 < way <= s0.e.at - t.e.at ==> t.e.line
  }

  lemma PassCounted(s0: Sys, s: Sys, f: Engine, way: nat, raised: bool)
    requires RingSize(|s.mem|) && Counted(s0, s.(e := f), way) && (raised ==> Raised(s0, s.(e := f), way))
    requires f.at <= s0.e.at && f.dir.Backward?
    ensures var t := s.(e := Pass(f, s.mem[Slot(f.head, |s.mem|)]));
            Counted(s0, t, way) && (raised ==> Raised(s0, t, way))
  {
    hide Pass, Body;
    PassFrame(f, s.mem[Slot(f.head, |s.mem|)]);
  }

  lemma TickCounted(s0: Sys, s: Sys, way: nat, raised: bool)
    requires Sound(s) && Walked(s0, s) && s.mode.PlayingBackward? && Counted(s0, s, way)
             && (raised ==> Raised(s0, s, way))
    ensures var t := s.(e := Tick(s.e, s.mem)); Counted(s0, t, way) && (raised ==> Raised(s0, t, way))
  {
    var keep := (f: Engine) =>
      Walked(s0, s.(e := f)) && Counted(s0, s.(e := f), way) && (raised ==> Raised(s0, s.(e := f), way));
    forall f: Engine | Sound(s.(e := f)) && keep(f)
      ensures keep(Restarted(f)) && (Idle(f, |s.mem|) ==> keep(AllDone(f)))
      ensures !Idle(f, |s.mem|) ==> keep(Pass(f, s.mem[Slot(f.head, |s.mem|)]))
    {
      RestWalked(s0, s, f);
      if !Idle(f, |s.mem|) {
        hide Placed, Resident, Indices;
        PassWalked(s0, s, f);
        PassCounted(s0, s, f, way, raised);
      }
    }
    TickKeepsSound(s, keep);
  }

  lemma NextCounted(s0: Sys, s: Sys, ev: Event, way: nat, raised: bool)
    requires Sound(s) && Walked(s0, s) && s.mode.PlayingBackward? && Counted(s0, s, way)
             && (raised ==> Raised(s0, s, way))
    requires !ev.Stop? && (raised ==> !ev.Service?)
    ensures Counted(s0, Next(s, ev), way) && (raised ==> Raised(s0, Next(s, ev), way))
  {
    hide Placed, Resident, Walked;
    if ev.TimerTick? {
      TickCounted(s0, s, way, raised);
    } else {
      HostDuringRun(s, ev);
    }
  }

  /** The count holds whatever is served; the interrupt stays up until it is. */
  lemma {:induction false} RunCounted(s0: Sys, s: Sys, evs: seq<Event>, way: nat, raised: bool)
    requires Sound(s) && Walked(s0, s) && s.mode.PlayingBackward? && Counted(s0, s, way)
             && (raised ==> Raised(s0, s, way))
    requires forall i :: 0 <= i < |evs| ==> !evs[i].Stop? && (raised ==> !evs[i].Service?)
    ensures Sound(Run(s, evs)) && Walked(s0, Run(s, evs)) && Run(s, evs).mode.PlayingBackward?
    ensures Counted(s0, Run(s, evs), way) && (raised ==> Raised(s0, Run(s, evs), way))
    decreases |evs|
  {
    if evs != [] {
      hide Placed, Resident, Walked, Counted, Raised;
      NextSound(s, evs[0]);
      NextWalked(s0, s, evs[0]);
      NextCounted(s0, s, evs[0], way, raised);
      RunCounted(s0, Next(s, evs[0]), evs[1..], way, raised);
    }
  }

  lemma {:induction false} RunAppend(s: Sys, a: seq<Event>, b: seq<Event>)
    requires RingSize(|s.mem|)
    ensures Run(s, a + b) == Run(Run(s, a), b)
    decreases |a|
  {
    if a == [] {
      assert a + b == b;
    } else {
      assert (a + b)[1..] == a[1..] + b;
      RunAppend(Next(s, a[0]), a[1..], b);
    }
  }

  /** The whole walk of an accepted backtrack has room for its steps and the tail. */
  lemma WalkHasRoom(s: Sys, way: u32, decel: u32)
    requires Sound(s) && 0 < way <= MaxSteps(|s.mem|, Wrap(s.inn - s.e.head), s.total, decel)
    ensures s.e.at - StopOf(s) >= way + decel
  {
    hide Resident, MaxSteps, DeadStop, Wrap;
    IndexDistance(|s.job|, s.e.at, |s.mem|);
    AllowanceReachesDeadStop(|s.mem|, s.inn, s.e.head, s.total, decel);
    WalkToDeadStop(|s.mem|, s.inn, s.e.head, s.total);
  }

  /** Until it is stopped, whatever is served meanwhile, an accepted backtrack executes
      its steps in order, and it cannot park before it has also walked the whole reserved
      tail, at the dead stop. */
  lemma WaypointComesBeforeTheDeadStop(s: Sys, way: u32, accelerate: bool, decel: u32, evs: seq<Event>)
    requires Sound(s) && s.asked && s.owner.Free?
             && 0 < way <= MaxSteps(|s.mem|, Wrap(s.inn - s.e.head), s.total, decel)
    requires forall i :: 0 <= i < |evs| ==> !evs[i].Stop?
    ensures var t := Run(BeginRun(s, true, way, accelerate, decel), evs);
            && t.mode.PlayingBackward? && t.e.at <= s.e.at
               && Indices(t.e.log) == Indices(s.e.log) + Down(s.e.at, t.e.at)
            && (t.e.dir.Parked? && s.e.mapped ==> t.e.at == StopOf(s) && s.e.at - t.e.at >= way + decel)
  {
    hide Resident, Honest, IntactFrom, MaxSteps, Indices;
    BacktrackStarts(s, way, accelerate, decel);
    BackwardRunWalksDown(BeginRun(s, true, way, accelerate, decel), evs);
    WalkHasRoom(s, way, decel);
  }

  /** And its waypoint is always signalled: with the last of its steps still to come
      after `before`, and no interrupt served in `after`, the line is up once they are
      done. */
  lemma WaypointIsSignalled(s: Sys, way: u32, accelerate: bool, decel: u32, before: seq<Event>, after: seq<Event>)
    requires Sound(s) && s.asked && s.owner.Free?
             && 0 < way <= MaxSteps(|s.mem|, Wrap(s.inn - s.e.head), s.total, decel)
    requires forall i :: 0 <= i < |before| ==> !before[i].Stop?
    requires forall i :: 0 <= i < |after| ==> !after[i].Stop? && !after[i].Service?
    requires s.e.at - Run(BeginRun(s, true, way, accelerate, decel), before).e.at < way
    ensures var t := Run(BeginRun(s, true, way, accelerate, decel), before + after); s.e.at - t.e.at >= way ==> t.e.line
  {
    hide Resident, Honest, IntactFrom, MaxSteps, Indices;
    var r := BeginRun(s, true, way, accelerate, decel);
    BacktrackStarts(s, way, accelerate, decel);
    assert Down(s.e.at, s.e.at) == [];
    RunCounted(r, r, before, way, false);
    RunCounted(r, Run(r, before), after, way, true);
    RunAppend(r, before, after);
  }

  /** A forward run idles on its first pass exactly when the ring is empty, or when
      a backward run has gone a whole ring back: a full ring reads as empty and the
      job cannot be resumed. */
  lemma FullRingReadsAsEmpty(s: Sys, way: u32, accelerate: bool, decel: u32)
    requires Sound(s) && s.mode.Stopped? && s.owner.Free? && s.e.mapped
    ensures var t := BeginRun(s, false, way, accelerate, decel);
            && t.mode.PlayingForward?
            && (Idle(t.e, |t.mem|) <==> s.inn == s.e.head || Wrap(s.inn - s.e.head) == |s.mem|)
  {
    MaskedTest(|s.job|, s.e.at, |s.mem|);
    IndexDistance(|s.job|, s.e.at, |s.mem|);
  }

  /** And a backward run over a wrapped ring ends there when it is left to reach
      its dead stop. */
  lemma DeadStopFillsTheRing(s: Sys)
    requires Sound(s) && s.mode.PlayingBackward? && s.e.at == s.goal && |s.job| >= |s.mem|
    ensures Wrap(s.inn - s.e.head) == |s.mem|
  {
    IndexDistance(|s.job|, s.e.at, |s.mem|);
  }
}
