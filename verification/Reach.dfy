/** A forward run comes to its end, and plays what is queued. */
module Reach {
  import opened Words
  import opened Engine
  import opened Playback
  import opened Parking
  import opened TickLaws

  /** A forward tick that finds data takes at least one byte, and goes on next time
      unless it has parked. */
  lemma TickGoesOn(e: Engine, mem: seq<bv8>)
    requires RingSize(|mem|) && e.resume.AtLoop? && e.dir.Forward? && !Idle(e, |mem|)
    ensures var t := Tick(e, mem); t.at > e.at && (t.dir.Parked? || t.resume.AtLoop?)
  {
    var b := mem[Slot(e.head, |mem|)];
    PassFrame(e, b);
    if Again(e, b) {
      var p := Pass(e, b);
      RoomShrinks(e, b, |mem|);
      assert Tick(e, mem) == Consume(p, mem);
      if Idle(p, |mem|) {
        RestFrame(p);
      } else {
        PassFrame(p, mem[Slot(p.head, |mem|)]);
      }
    }
  }

  /** A forward run on its way to index `end`: it has not parked before it, and the ring
      is not full. */
  predicate Heading(t: Sys, end: int) {
    && t.mode.PlayingForward? && t.e.mapped && end <= t.goal && |t.job| - t.e.at < |t.mem|
    && (t.e.dir.Parked? ==> end <= t.e.at)
  }

  /** Ticks it can still take before it is there. */
  function Left(t: Sys, end: int): int {
    if end <= t.e.at then 0 else end - t.e.at + (if t.e.resume.AtStart? then 1 else 0)
  }

  lemma TickHeading(s: Sys, end: int)
    requires Sound(s) && Heading(s, end)
    ensures var t := s.(e := Tick(s.e, s.mem));
            Heading(t, end) && Left(t, end) <= if Left(s, end) == 0 then 0 else Left(s, end) - 1
  {
    TickForward(s);
    TickSound(s);
    if !s.e.dir.Parked? {
      TickDrained(s);
      if s.e.resume.AtLoop? {
        IdleForward(s);
        if !Idle(s.e, |s.mem|) {
          TickGoesOn(s.e, s.mem);
        }
      }
    }
  }

  /** Short of a full ring, a forward run idles at its published end and nowhere else. */
  lemma IdleForward(s: Sys)
    requires Sound(s) && s.mode.PlayingForward? && s.e.mapped && !s.e.dir.Parked? && |s.job| - s.e.at < |s.mem|
    ensures Idle(s.e, |s.mem|) <==> s.e.at == s.goal
  {
    hide Resident;
    MaskedTest(s.goal, s.e.at, |s.mem|);
  }

  lemma TickForward(s: Sys)
    requires RingSize(|s.mem|) && !s.e.dir.Backward?
    ensures var t := Tick(s.e, s.mem); s.e.at <= t.at && !t.dir.Backward? && t.mapped == s.e.mapped
    ensures s.e.dir.Parked? ==> Tick(s.e, s.mem).at == s.e.at && Tick(s.e, s.mem).dir.Parked?
  {
    KeepsForward(s.e, s.mem);
    if s.e.dir.Forward? {
      ForwardTickTakesAtMostTwo(s.e, s.mem);
    } else {
      RestFrame(s.e);
    }
  }

  lemma KeepsForward(e: Engine, mem: seq<bv8>)
    requires RingSize(|mem|) && !e.dir.Backward?
    ensures !Tick(e, mem).dir.Backward? && Tick(e, mem).mapped == e.mapped
  {
    var keep := (f: Engine) => !f.dir.Backward? && f.mapped == e.mapped;
    forall f: Engine | keep(f)
      ensures keep(AllDone(f)) && keep(Restarted(f))
      ensures !Idle(f, |mem|) ==> keep(Pass(f, mem[Slot(f.head, |mem|)]))
    {
      if !Idle(f, |mem|) {
        hide Pass, Body;
        PassFrame(f, mem[Slot(f.head, |mem|)]);
      }
    }
    TickKeeps(e, mem, keep);
  }

  lemma NextHeading(s: Sys, ev: Event, end: int)
    requires Sound(s) && Heading(s, end) && !ev.Stop?
    ensures var t := Next(s, ev);
            && Heading(t, end) && s.job <= t.job
            && Left(t, end) <= if ev.TimerTick? && Left(s, end) > 0 then Left(s, end) - 1 else Left(s, end)
  {
    hide Resident, Tick, Splice;
    if ev.TimerTick? {
      TickHeading(s, end);
    } else if ev.WriteEnd? {
      if s.owner.Writer? {
        WriteHeading(s, ev.data, ev.copy, ev.publishOk, end);
      }
    } else if ev.PublishRun? || ev.Clear? {
      RefusedDuringRun(s, ev);
    } else {
      OtherEvents(s, ev);
    }
  }

  lemma WriteHeading(s: Sys, data: seq<bv8>, copy: Copy, publishOk: bool, end: int)
    requires Sound(s) && Heading(s, end) && s.owner.Writer?
    ensures var t := EndWrite(s, data, copy, publishOk);
            Heading(t, end) && s.job <= t.job && t.e.at == s.e.at && t.e.resume == s.e.resume
  {
    hide Resident, Splice, Wrap;
    if Avail(s) >= |data| + GAP {
      RoomForCopy(s, data);
    }
  }

  /** A forward run left on executes everything published, whatever else happens
      meanwhile: one tick a byte is enough, and one to start. */
  lemma {:induction false} ForwardRunReachesItsEnd(s: Sys, evs: seq<Event>, end: int)
    requires Sound(s) && Heading(s, end) && forall i :: 0 <= i < |evs| ==> !evs[i].Stop?
    requires Ticks(evs) > end - s.e.at
    ensures Run(s, evs).e.at >= end && s.job <= Run(s, evs).job
  {
    RunHeading(s, evs, end);
  }

  lemma {:induction false} RunHeading(s: Sys, evs: seq<Event>, end: int)
    requires Sound(s) && Heading(s, end) && forall i :: 0 <= i < |evs| ==> !evs[i].Stop?
    requires Ticks(evs) >= Left(s, end)
    ensures Run(s, evs).e.at >= end && s.job <= Run(s, evs).job
    decreases |evs|
  {
    if evs != [] {
      hide Sound, Heading;
      NextSound(s, evs[0]);
      NextHeading(s, evs[0], end);
      RunHeading(Next(s, evs[0]), evs[1..], end);
    }
  }

  /** A published write puts the end of the data after every byte queued, by whichever write. */
  lemma NextWritePublishes(s: Sys, data: seq<bv8>)
    requires Sound(s) && s.owner.Writer? && Avail(s) >= |data| + GAP
    ensures var t := EndWrite(s, data, Whole, true); t.goal == |t.job| && s.job <= t.job && t.e.tail == Wrap(|t.job|)
  {
    hide Resident, Splice, Wrap;
    WrapAdd(|s.job|, |data|);
  }

  /** So does a forward run, which then plays all that is queued. */
  lemma NextRunPlaysTheQueue(s: Sys, way: u32, accelerate: bool, decel: u32, evs: seq<Event>)
    requires Sound(s) && s.asked && s.owner.Free? && s.e.mapped && |s.job| - s.e.at < |s.mem|
    requires (forall i :: 0 <= i < |evs| ==> !evs[i].Stop?) && Ticks(evs) > |s.job| - s.e.at
    ensures var r := BeginRun(s, false, way, accelerate, decel);
            r.mode.PlayingForward? && r.goal == |s.job| && r.job == s.job && Run(r, evs).e.at >= |s.job|
                && s.job <= Run(r, evs).job
  {
    hide Resident;
    var p := Next(s, PublishRun(false, way, accelerate, decel));
    NextSound(s, PublishRun(false, way, accelerate, decel));
    NextSound(p, CommitRun(true));
    RunBegins(s, false, way, accelerate, decel);
    ForwardRunReachesItsEnd(BeginRun(s, false, way, accelerate, decel), evs, |s.job|);
  }

  lemma UnpublishedIsAsked(s: Sys, data: seq<bv8>)
    requires Sound(s) && s.owner.Writer? && s.mode.Stopped? && Avail(s) >= |data| + GAP && data != []
    ensures var w := Next(s, WriteEnd(data, Whole, false)); var a := Next(w, Ask(true));
            && w.job == s.job + data && w.goal == s.goal && w.e == s.e
            && Sound(a) && a.asked && a.owner.Free? && a.job == w.job && a.e == s.e && |a.job| - a.e.at < |a.mem|
  {
    hide Resident, Splice, Wrap;
    RoomForCopy(s, data);
    var w := Next(s, WriteEnd(data, Whole, false));
    NextSound(s, WriteEnd(data, Whole, false));
    NextSound(w, Ask(true));
    IndexDistance(|w.job|, w.e.at, |w.mem|);
    DistinctIndices(|w.job|, w.e.at);
  }

  lemma DistinctIndices(a: int, b: int)
    requires Wrap(Wrap(a) - Wrap(b)) == a - b > 0
    ensures Wrap(a) != Wrap(b)
  {
  }

  /** A write that fails only to publish: its bytes are queued behind the old end of the
      data, and the next forward run plays them. */
  lemma UnpublishedPlaysNext(s: Sys, data: seq<bv8>, way: u32, accelerate: bool, decel: u32, evs: seq<Event>)
    requires Sound(s) && s.owner.Writer? && s.mode.Stopped? && s.e.mapped && Avail(s) >= |data| + GAP && data != []
    requires (forall i :: 0 <= i < |evs| ==> !evs[i].Stop?) && Ticks(evs) > |s.job| + |data| - s.e.at
    ensures var w := Next(s, WriteEnd(data, Whole, false));
            var t := Run(BeginRun(Next(w, Ask(true)), false, way, accelerate, decel), evs);
            w.job == s.job + data && w.goal == s.goal && w.e == s.e && w.job <= t.job && t.e.at >= |w.job|
  {
    hide Sound, Next, BeginRun, Avail;
    SoundIndices(s);
    UnpublishedIsAsked(s, data);
    NextRunPlaysTheQueue(Next(Next(s, WriteEnd(data, Whole, false)), Ask(true)), way, accelerate, decel, evs);
  }
}
