/** The parked engine: it stays where it is, it is safe, and its interrupt comes back. */
module Parking {
  import opened Words
  import opened Pulse
  import opened Engine
  import opened Playback

  /** In every reachable state the mailbox is set exactly while the engine is
      parked, and a parked engine is between two repeats of its interrupt. */
  predicate MailboxTrue(e: Engine) {
    && (e.mailbox <==> e.dir.Parked?)
    && (e.dir.Parked? ==> e.way == 0 && e.idle < 255)
  }

  lemma TickMailbox(e: Engine, mem: seq<bv8>)
    requires RingSize(|mem|) && MailboxTrue(e)
    ensures MailboxTrue(Tick(e, mem))
  {
    forall f: Engine | MailboxTrue(f)
      ensures MailboxTrue(AllDone(f)) && MailboxTrue(Restarted(f))
      ensures f.resume.AtLoop? && !Idle(f, |mem|) ==> MailboxTrue(Pass(f, mem[Slot(f.head, |mem|)]))
    {
      if f.resume.AtLoop? && !Idle(f, |mem|) {
        PassFrame(f, mem[Slot(f.head, |mem|)]);
      }
    }
    TickKeeps(e, mem, MailboxTrue);
  }

  lemma NextMailbox(s: Sys, ev: Event)
    requires RingSize(|s.mem|) && MailboxTrue(s.e)
    ensures MailboxTrue(Next(s, ev).e)
  {
    hide Tick, EndWrite, PublishStep;
    match ev
    case TimerTick => TickMailbox(s.e, s.mem);
    case WriteEnd(data, copy, publishOk) => EndWriteFrame(s, data, copy, publishOk);
    case PublishRun(backward, way, accelerate, decel) => PublishStepFrame(s, backward, way, accelerate, decel);
    case _ => CalmMailbox(s, ev);
  }

  lemma CalmMailbox(s: Sys, ev: Event)
    requires RingSize(|s.mem|) && MailboxTrue(s.e) && (Passive(ev) || ev.Clear?)
    ensures MailboxTrue(Next(s, ev).e)
  {
    hide Next;
    if ev.Clear? {
      ClearFrame(s, ev);
    } else {
      OtherEvents(s, ev);
    }
  }

  lemma {:induction false} MailboxMeansParked(s: Sys, evs: seq<Event>)
    requires RingSize(|s.mem|) && MailboxTrue(s.e)
    ensures MailboxTrue(Run(s, evs).e)
    decreases |evs|
  {
    if evs != [] {
      NextMailbox(s, evs[0]);
      MailboxMeansParked(Next(s, evs[0]), evs[1..]);
    }
  }

  /** Parked since `e0`: nothing moves, and every word written is safe. */
  predicate Still(e0: Engine, e: Engine) {
    && e.dir.Parked? && e.mailbox && e.way == 0 && e.idle < 255
    && e.head == e0.head && e.bytes == e0.bytes && e.at == e0.at
    && e.x == e0.x && e.y == e0.y && e.z == e0.z
    && e0.log <= e.log
    && (forall j :: |e0.log| <= j < |e.log| ==>
          e.log[j].Park? && e.log[j].word & LASER == 0 && e.log[j].word & STEPS == 0)
  }

  /** Twice the idle count, and one more between a start sequence and the idle
      iteration it leads to: each parked tick adds one until the interrupt. */
  function Progress(e: Engine): nat {
    2 * e.idle + (if e.resume.AtLoop? then 1 else 0)
  }

  lemma ParkedIteration(e0: Engine, e: Engine)
    requires Still(e0, e)
    ensures Still(e0, AllDone(e))
    ensures AllDone(e).line <==> e.line || e.idle == 254
    ensures e.idle < 254 ==> AllDone(e).idle == e.idle + 1
    ensures AllDone(e).resume.AtStart? && (e.line ==> AllDone(e).line)
  {
    var w := ParkWord(e.r3);
    assert w & LASER == 0 && w & STEPS == 0;
    assert AllDone(e).log == e.log + [Park(w)];
    WrapSmall(e.idle + 1);
  }

  lemma ParkedTick(e0: Engine, e: Engine, mem: seq<bv8>)
    requires RingSize(|mem|) && Still(e0, e)
    ensures Still(e0, Tick(e, mem))
    ensures Tick(e, mem).line <==> e.line || Progress(e) == 509
    ensures Progress(e) < 509 ==> Progress(Tick(e, mem)) == Progress(e) + 1
  {
    if e.resume.AtLoop? {
      ParkedIteration(e0, e);
      assert Tick(e, mem) == AllDone(e);
    }
  }

  function Ticks(evs: seq<Event>): nat {
    if evs == [] then 0 else Ticks(evs[1..]) + (if evs[0].TimerTick? then 1 else 0)
  }

  lemma ParkedHost(e0: Engine, s: Sys, ev: Event)
    requires RingSize(|s.mem|) && Still(e0, s.e) && Quiet(ev) && !ev.TimerTick?
    ensures Still(e0, Next(s, ev).e) && Progress(Next(s, ev).e) == Progress(s.e)
    ensures !ev.Service? ==> Next(s, ev).e.line == s.e.line
    ensures !ev.Stop? && !s.mode.Stopped? ==> Next(s, ev).mode == s.mode
  {
    hide EndWrite;
    if ev.WriteEnd? {
      EndWriteFrame(s, ev.data, ev.copy, ev.publishOk);
    } else {
      OtherEvents(s, ev);
    }
  }

  /** Until the host requests a run or clears, a parked engine stays where it is
      with every word it writes safe, whatever tail the writer publishes. */
  lemma {:induction false} ParkedStaysSafe(e0: Engine, s: Sys, evs: seq<Event>)
    requires RingSize(|s.mem|) && Still(e0, s.e)
    requires forall i :: 0 <= i < |evs| ==> Quiet(evs[i])
    ensures Still(e0, Run(s, evs).e)
    decreases |evs|
  {
    if evs != [] {
      if evs[0].TimerTick? {
        ParkedTick(e0, s.e, s.mem);
      } else {
        ParkedHost(e0, s, evs[0]);
      }
      ParkedStaysSafe(e0, Next(s, evs[0]), evs[1..]);
    }
  }

  /** Nor is the signal ever lost: while the timer runs and the interrupt is not
      serviced, it is raised within 255 parked iterations, each of which takes
      two ticks, and stays raised. */
  lemma {:induction false} ParkedSignalHeals(e0: Engine, s: Sys, evs: seq<Event>)
    requires RingSize(|s.mem|) && Still(e0, s.e) && !s.mode.Stopped?
    requires forall i :: 0 <= i < |evs| ==> Quiet(evs[i]) && !evs[i].Service? && !evs[i].Stop?
    requires s.e.line || Progress(s.e) + Ticks(evs) >= 2 * 255
    ensures Run(s, evs).e.line
    decreases |evs|
  {
    if evs != [] {
      if evs[0].TimerTick? {
        ParkedTick(e0, s.e, s.mem);
      } else {
        ParkedHost(e0, s, evs[0]);
      }
      ParkedSignalHeals(e0, Next(s, evs[0]), evs[1..]);
    }
  }

  /** And it is raised no sooner: exactly on the 255th parked iteration. */
  lemma {:induction false} ParkedSignalComesOnTime(e0: Engine, s: Sys, evs: seq<Event>)
    requires RingSize(|s.mem|) && Still(e0, s.e) && !s.mode.Stopped? && !s.e.line
    requires forall i :: 0 <= i < |evs| ==> Quiet(evs[i]) && !evs[i].Service? && !evs[i].Stop?
    ensures Run(s, evs).e.line <==> Progress(s.e) + Ticks(evs) >= 510
    decreases |evs|
  {
    hide Still, Next, Tick;
    StillProgress(e0, s.e);
    if evs != [] {
      var t := Next(s, evs[0]);
      if evs[0].TimerTick? {
        ParkedTick(e0, s.e, s.mem);
        NextTick(s);
      } else {
        ParkedHost(e0, s, evs[0]);
      }
      if t.e.line {
        ParkedSignalHeals(e0, t, evs[1..]);
      } else {
        ParkedSignalComesOnTime(e0, t, evs[1..]);
      }
    }
  }

  lemma StillProgress(e0: Engine, e: Engine)
    requires Still(e0, e)
    ensures Progress(e) <= 509
  {
  }

  lemma NextTick(s: Sys)
    requires RingSize(|s.mem|) && !s.mode.Stopped?
    ensures Next(s, TimerTick) == s.(e := Tick(s.e, s.mem))
  {
  }

  /** A head at the end of what was published; a ring filled by a backward run
      counts as empty. */
  predicate Drained(s: Sys, at: int) {
    at == s.goal || (s.retraced && (s.goal - at == |s.mem| || at - s.goal == |s.mem|))
  }

  predicate ParkedDrained(s: Sys, f: Engine) {
    f.mapped && (f.dir.Parked? ==> Drained(s, f.at))
  }

  lemma RestDrained(s: Sys, f: Engine)
    requires Sound(s.(e := f)) && !s.mode.Stopped? && ParkedDrained(s, f)
    ensures ParkedDrained(s, Restarted(f)) && (Idle(f, |s.mem|) ==> ParkedDrained(s, AllDone(f)))
  {
    RestFrame(f);
    if s.mode.PlayingForward? {
      MaskedTest(s.goal, f.at, |s.mem|);
    } else {
      MaskedTest(f.at, s.goal, |s.mem|);
    }
  }

  lemma PassDrained(s: Sys, f: Engine)
    requires RingSize(|s.mem|) && ParkedDrained(s, f) && !Idle(f, |s.mem|)
    ensures ParkedDrained(s, Pass(f, s.mem[Slot(f.head, |s.mem|)]))
  {
    hide Pass, Body;
    PassFrame(f, s.mem[Slot(f.head, |s.mem|)]);
  }

  lemma TickDrained(s: Sys)
    requires Sound(s) && !s.mode.Stopped? && ParkedDrained(s, s.e)
    ensures ParkedDrained(s, Tick(s.e, s.mem))
  {
    var keep := (f: Engine) => ParkedDrained(s, f);
    forall f: Engine | Sound(s.(e := f)) && keep(f)
      ensures keep(Restarted(f)) && (Idle(f, |s.mem|) ==> keep(AllDone(f)))
      ensures !Idle(f, |s.mem|) ==> keep(Pass(f, s.mem[Slot(f.head, |s.mem|)]))
    {
      RestDrained(s, f);
      if !Idle(f, |s.mem|) {
        PassDrained(s, f);
      }
    }
    TickKeepsSound(s, keep);
  }

  /** The end of data is published only by a run whose data has run out: the tick
      that parks the engine leaves the head at the published end, whatever power
      bytes it went through first. */
  lemma ParksOnlyWhenDrained(s: Sys)
    requires Sound(s) && !s.mode.Stopped? && !s.e.dir.Parked? && s.e.mapped
    ensures var t := Next(s, TimerTick).e; t.dir.Parked? ==> Drained(s, t.at)
  {
    TickDrained(s);
  }

  /** And it signals at once: the mailbox is set, the interrupt is up and the waypoint is
      disarmed from the tick that parks on. */
  lemma ParkingSignals(e: Engine, mem: seq<bv8>)
    requires RingSize(|mem|) && !e.dir.Parked?
    ensures var t := Tick(e, mem);
            t.dir.Parked? ==> t.line && t.mailbox && t.way == 0 && t.idle == 0 && t.resume.AtStart?
  {
    if e.resume.AtLoop? {
      ConsumeSignals(e, mem);
    }
  }

  lemma {:induction false} ConsumeSignals(e: Engine, mem: seq<bv8>)
    requires RingSize(|mem|) && !e.dir.Parked?
    ensures var t := Consume(e, mem);
            t.dir.Parked? ==> t.line && t.mailbox && t.way == 0 && t.idle == 0 && t.resume.AtStart?
    decreases Room(e, |mem|)
  {
    if !Idle(e, |mem|) {
      var b := mem[Slot(e.head, |mem|)];
      hide Pass, Body;
      PassFrame(e, b);
      if Again(e, b) {
        RoomShrinks(e, b, |mem|);
        ConsumeSignals(Pass(e, b), mem);
      }
    }
  }
}
