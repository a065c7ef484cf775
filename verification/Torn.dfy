/** What a copy that falls short does to the history, and to what is executed over it. */
module Torn {
  import opened Words
  import opened Backtrack
  import opened Pulse
  import opened Engine
  import opened Playback
  import opened Fifo
  import opened Retrace
  import opened Parking
  import opened Walk

  /** The byte a run since `s0` finds at index `i`: what the ring held of it when the run
      started, or what was accepted since. */
  function Found(s0: Sys, job: seq<bv8>, i: int): bv8
    requires |s0.mem| > 0
  {
    if i < |s0.job| then s0.mem[Slot(i, |s0.mem|)] else if i < |job| then job[i] else 0
  }

  predicate Shown(log: seq<Entry>, i: int) {
    exists x :: x in log && Executed(x) && x.at == i
  }

  /** Executed are exactly the indices from `lo` up to but not including `hi`, each as
      it was found. */
  predicate Replays(s0: Sys, log: seq<Entry>, job: seq<bv8>, lo: int, hi: int)
    requires |s0.mem| > 0
  {
    && (forall x | x in log && Executed(x) :: lo <= x.at < hi && x.byte == Found(s0, job, x.at))
    && (forall i | lo <= i < hi :: Shown(log, i))
  }

  lemma ReplaysPush(s0: Sys, log: seq<Entry>, job: seq<bv8>, lo: int, hi: int, x: Entry)
    requires |s0.mem| > 0 && Replays(s0, log, job, lo, hi) && lo <= hi
    ensures !Executed(x) ==> Replays(s0, log + [x], job, lo, hi)
    ensures Executed(x) && x.byte == Found(s0, job, x.at) ==>
              && (x.at == hi ==> Replays(s0, log + [x], job, lo, hi + 1))
              && (x.at == lo - 1 ==> Replays(s0, log + [x], job, lo - 1, hi))
  {
    hide Found;
    assert forall y :: y in log + [x] <==> y in log || y == x;
    forall i | lo <= i < hi
      ensures Shown(log + [x], i)
    {
      assert Shown(log, i);
    }
    assert Executed(x) ==> Shown(log + [x], x.at);
  }

  lemma ReplaysFor(s0: Sys, log: seq<Entry>, job: seq<bv8>, longer: seq<bv8>, lo: int, hi: int)
    requires |s0.mem| > 0 && Replays(s0, log, job, lo, hi) && hi <= |job| && job <= longer
    ensures Replays(s0, log, longer, lo, hi)
  {
    hide Shown;
  }

  /** The ring's slots of these indices hold the job. */
  predicate Faithful(mem: seq<bv8>, job: seq<bv8>, lo: int, hi: int)
    requires |mem| > 0
  {
    forall i {:trigger Slot(i, |mem|)} :: 0 <= i < |job| && lo <= i < hi ==> mem[Slot(i, |mem|)] == job[i]
  }

  lemma ReplaysGenuine(s0: Sys, log: seq<Entry>, job: seq<bv8>, lo: int, hi: int)
    requires |s0.mem| > 0 && Replays(s0, log, job, lo, hi) && 0 <= lo && hi <= |job| && s0.job <= job
    ensures Genuine(log, job) <==> Faithful(s0.mem, s0.job, lo, hi)
  {
    if Genuine(log, job) {
      forall i {:trigger Slot(i, |s0.mem|)} | 0 <= i < |s0.job| && lo <= i < hi
        ensures s0.mem[Slot(i, |s0.mem|)] == s0.job[i]
      {
        assert Shown(log, i);
      }
    }
    if Faithful(s0.mem, s0.job, lo, hi) {
      forall x | x in log && Executed(x)
        ensures 0 <= x.at < |job| && x.byte == job[x.at]
      {
        assert x.at < |s0.job| ==> s0.mem[Slot(x.at, |s0.mem|)] == s0.job[x.at];
      }
    }
  }

  /** The indices a run from `s0` to `t` has executed. */
  function First(s0: Sys, t: Sys): int {
    if s0.mode.PlayingBackward? then t.e.at + 1 else s0.e.at
  }

  function End(s0: Sys, t: Sys): int {
    if s0.mode.PlayingBackward? then s0.e.at + 1 else t.e.at
  }

  /** What lies ahead of a run is as it was when it started, or as accepted since; a
      backward run meets nothing new. */
  predicate Ahead(s0: Sys, mem: seq<bv8>, job: seq<bv8>, at: int)
    requires |s0.mem| > 0 && |mem| == |s0.mem|
  {
    if s0.mode.PlayingBackward? then mem == s0.mem && job == s0.job
    else forall i {:trigger Slot(i, |mem|)} :: at <= i < |job| && 0 <= i ==> mem[Slot(i, |mem|)] == Found(s0, job, i)
  }

  /** One run since `s0`. */
  predicate Playing(s0: Sys, t: Sys) {
    && !s0.mode.Stopped? && t.mode == s0.mode && 0 < |s0.mem| == |t.mem| && s0.job <= t.job
    && |s0.e.log| <= |t.e.log| && First(s0, t) <= End(s0, t)
    && Ahead(s0, t.mem, t.job, t.e.at) && Replays(s0, t.e.log[|s0.e.log|..], t.job, First(s0, t), End(s0, t))
  }

  lemma PassPlaying(s0: Sys, s: Sys, f: Engine)
    requires Sound(s.(e := f)) && Playing(s0, s.(e := f)) && !Idle(f, |s.mem|)
    ensures Playing(s0, s.(e := Pass(f, s.mem[Slot(f.head, |s.mem|)])))
  {
    hide Pass, Body, Replays, Found, Resident;
    HeadInJob(s.(e := f));
    var b := s.mem[Slot(f.head, |s.mem|)];
    PassFrame(f, b);
    var x := PassLogs(f, b);
    RecentPush(f.log, |s0.e.log|, x);
    assert b == Found(s0, s.job, f.at) by { FoundBehind(s0, s.mem, s.job, f.at); }
    ReplaysPush(s0, f.log[|s0.e.log|..], s.job, First(s0, s.(e := f)), End(s0, s.(e := f)), x);
  }

  lemma FoundBehind(s0: Sys, mem: seq<bv8>, job: seq<bv8>, at: int)
    requires |s0.mem| > 0 && |mem| == |s0.mem| && Ahead(s0, mem, job, at) && 0 <= at < |job| && s0.job <= job
    ensures mem[Slot(at, |mem|)] == Found(s0, job, at)
  {
  }

  lemma RestPlaying(s0: Sys, s: Sys, f: Engine)
    requires Playing(s0, s.(e := f))
    ensures Playing(s0, s.(e := AllDone(f))) && Playing(s0, s.(e := Restarted(f)))
  {
    hide ParkWord, Replays, Found, Ahead;
    RestFrame(f);
    var x := Park(ParkWord(f.r3));
    RecentPush(f.log, |s0.e.log|, x);
    ReplaysPush(s0, f.log[|s0.e.log|..], s.job, First(s0, s.(e := f)), End(s0, s.(e := f)), x);
  }

  lemma TickPlaying(s0: Sys, s: Sys)
    requires Sound(s) && Playing(s0, s)
    ensures Playing(s0, s.(e := Tick(s.e, s.mem)))
  {
    var keep := (f: Engine) => Playing(s0, s.(e := f));
    forall f: Engine | Sound(s.(e := f)) && keep(f)
      ensures keep(AllDone(f)) && keep(Restarted(f))
      ensures !Idle(f, |s.mem|) ==> keep(Pass(f, s.mem[Slot(f.head, |s.mem|)]))
    {
      hide Playing, Placed, Linked, Resident;
      RestPlaying(s0, s, f);
      if !Idle(f, |s.mem|) {
        PassPlaying(s0, s, f);
      }
    }
    TickKeepsSound(s, keep);
  }

  /** A copy that keeps the gap leaves what lies ahead, and adds what it queues. */
  lemma CopyAhead(s0: Sys, s: Sys, landed: seq<bv8>)
    requires Sound(s) && s.owner.Writer? && Avail(s) >= |landed| + GAP && s0.mode.PlayingForward?
    requires |s0.mem| > 0 && |s.mem| == |s0.mem| && s0.job <= s.job && Ahead(s0, s.mem, s.job, s.e.at)
    ensures Ahead(s0, Splice(s.mem, s.inn, landed), s.job, s.e.at)
    ensures Ahead(s0, Splice(s.mem, s.inn, landed), s.job + landed, s.e.at)
  {
    IndexDistance(|s.job|, s.seen, |s.mem|);
    var after, all := Splice(s.mem, s.inn, landed), s.job + landed;
    forall i {:trigger Slot(i, |s.mem|)} | s.e.at <= i < |all| && 0 <= i
      ensures after[Slot(i, |s.mem|)] == Found(s0, all, i)
              && (i < |s.job| ==> after[Slot(i, |s.mem|)] == Found(s0, s.job, i))
    {
      SpliceAt(s.mem, |s.job|, landed, i);
      assert i < |s.job| ==> s.mem[Slot(i, |s.mem|)] == Found(s0, s.job, i);
    }
  }

  lemma WritePlaying(s0: Sys, s: Sys, data: seq<bv8>, copy: Copy, publishOk: bool)
    requires Sound(s) && s.owner.Writer? && Playing(s0, s)
    ensures Playing(s0, EndWrite(s, data, copy, publishOk))
  {
    hide Resident, Replays, Found, Splice, Ahead;
    if Avail(s) >= |data| + GAP {
      CopyAhead(s0, s, Landed(data, copy));
      ReplaysFor(s0, s.e.log[|s0.e.log|..], s.job, s.job + data, First(s0, s), End(s0, s));
    }
  }

  lemma NextPlaying(s0: Sys, s: Sys, ev: Event)
    requires Sound(s) && Playing(s0, s) && !ev.Stop?
    ensures Playing(s0, Next(s, ev))
  {
    hide Placed, Resident, Replays, Ahead, EndWrite;
    if ev.TimerTick? {
      TickPlaying(s0, s);
    } else if ev.WriteEnd? {
      if s.owner.Writer? {
        WritePlaying(s0, s, ev.data, ev.copy, ev.publishOk);
      }
    } else if ev.PublishRun? || ev.Clear? {
      RefusedDuringRun(s, ev);
    } else {
      OtherEvents(s, ev);
    }
  }

  /** Whatever a run starts over, until it is stopped: it executes only bytes of the job
      at their indices if and only if the ring held them, when it started, for every
      index it has come to. That goes for both directions, with writes in between. */
  lemma RunIsGenuineIff(s0: Sys, evs: seq<Event>)
    requires Sound(s0) && !s0.mode.Stopped?
    requires forall i :: 0 <= i < |evs| ==> !evs[i].Stop?
    ensures var t := Run(s0, evs);
            && |s0.e.log| <= |t.e.log| && t.mode == s0.mode
            && (Genuine(t.e.log[|s0.e.log|..], t.job) <==> Faithful(s0.mem, s0.job, First(s0, t), End(s0, t)))
  {
    var keep := (t: Sys) => Playing(s0, t);
    forall t: Sys, ev: Event | Sound(t) && keep(t) && !ev.Stop?
      ensures keep(Next(t, ev))
    {
      NextPlaying(s0, t, ev);
    }
    RunKeeps(s0, evs, keep, (ev: Event) => !ev.Stop?);
    var t := Run(s0, evs);
    ReplaysGenuine(s0, t.e.log[|s0.e.log|..], t.job, First(s0, t), End(s0, t));
  }

  /** So a backtrack executes only bytes of the job if and only if the ring holds them
      from where it has come to up to its start. */
  lemma BacktrackIsGenuineIff(s: Sys, way: u32, accelerate: bool, decel: u32, evs: seq<Event>)
    requires Sound(s) && s.asked && s.owner.Free?
             && 0 < way <= MaxSteps(|s.mem|, Wrap(s.inn - s.e.head), s.total, decel)
    requires forall i :: 0 <= i < |evs| ==> !evs[i].Stop?
    ensures var t := Run(BeginRun(s, true, way, accelerate, decel), evs);
            && |s.e.log| <= |t.e.log| && t.job == s.job && StopOf(s) <= t.e.at <= s.e.at
            && (Genuine(t.e.log[|s.e.log|..], s.job) <==> Faithful(s.mem, s.job, t.e.at + 1, s.e.at + 1))
  {
    hide Sound, Faithful, Genuine, Honest, IntactFrom, MaxSteps, Indices, BeginRun;
    SoundIndices(s);
    BacktrackStarts(s, way, accelerate, decel);
    BackwardRunWalksDown(BeginRun(s, true, way, accelerate, decel), evs);
    RunIsGenuineIff(BeginRun(s, true, way, accelerate, decel), evs);
  }

  /** What a short copy leaves in the slots of the oldest ringful. */
  lemma ShortCopySlot(s: Sys, landed: seq<bv8>, lo: int, i: int)
    requires Sound(s) && IntactFrom(s.mem, s.job, lo) && |landed| < |s.mem|
    requires 0 <= i < |s.job| && lo <= i && |s.job| - |s.mem| <= i
    ensures Splice(s.mem, s.inn, landed)[Slot(i, |s.mem|)]
         == if i < |s.job| - |s.mem| + |landed| then landed[i - (|s.job| - |s.mem|)] else s.job[i]
  {
    hide Resident;
    if i < |s.job| - |s.mem| + |landed| {
      SpliceAt(s.mem, |s.job|, landed, i + |s.mem|);
      SlotsOneRingApart(i, |s.mem|);
    } else {
      SpliceAt(s.mem, |s.job|, landed, i);
    }
  }

  /** At the indices from `lo` up to but not including `hi`, the rolled-back bytes repeat
      the history they replaced. */
  predicate Repeats(s: Sys, landed: seq<bv8>, lo: int, hi: int)
    requires |landed| <= |s.mem|
  {
    forall j :: 0 <= j < |landed| && 0 <= |s.job| - |s.mem| + j < |s.job| && lo <= |s.job| - |s.mem| + j < hi
                ==> landed[j] == s.job[|s.job| - |s.mem| + j]
  }

  /** After any short copy any stretch of the history is intact exactly when the bytes
      rolled back repeat what they replaced there, whether or not the ring has wrapped.
      From the byte above the dead stop on, that is a backward run's walk; from Oldest on,
      the walk and the run after it. */
  lemma ShortCopyTearsHistory(s: Sys, data: seq<bv8>, copy: Copy, publishOk: bool, lo: int, hi: int)
    requires Sound(s) && s.owner.Writer? && copy.Short? && Avail(s) >= |data| + GAP
    requires StopOf(s) <= lo && IntactFrom(s.mem, s.job, lo)
    ensures var t := EndWrite(s, data, copy, publishOk);
            && t.job == s.job && |t.mem| == |s.mem| && |Landed(data, copy)| <= |s.mem|
            && (Faithful(t.mem, t.job, lo, hi) <==> Repeats(s, Landed(data, copy), lo, hi))
            && (IntactFrom(t.mem, t.job, lo) <==> Repeats(s, Landed(data, copy), lo, |s.job|))
  {
    hide Resident, Splice, Repeats;
    IndexDistance(|s.job|, s.seen, |s.mem|);
    FaithfulRepeats(s, Landed(data, copy), lo, hi);
    FaithfulRepeats(s, Landed(data, copy), lo, |s.job|);
  }

  lemma FaithfulRepeats(s: Sys, landed: seq<bv8>, lo: int, hi: int)
    requires Sound(s) && IntactFrom(s.mem, s.job, lo) && |landed| < |s.mem| && StopOf(s) <= lo
    ensures Faithful(Splice(s.mem, s.inn, landed), s.job, lo, hi) <==> Repeats(s, landed, lo, hi)
  {
    hide Sound, Splice;
    var first, after := |s.job| - |s.mem|, Splice(s.mem, s.inn, landed);
    if Faithful(after, s.job, lo, hi) {
      forall j | 0 <= j < |landed| && 0 <= first + j < |s.job| && lo <= first + j < hi
        ensures landed[j] == s.job[first + j]
      {
        ShortCopySlot(s, landed, lo, first + j);
        assert after[Slot(first + j, |s.mem|)] == s.job[first + j];
      }
    }
    if Repeats(s, landed, lo, hi) {
      forall i {:trigger Slot(i, |s.mem|)} | 0 <= i < |s.job| && lo <= i < hi
        ensures after[Slot(i, |s.mem|)] == s.job[i]
      {
        ShortCopySlot(s, landed, lo, i);
        assert i < first + |landed| ==> landed[i - first] == s.job[first + (i - first)];
      }
    }
  }

  /** A backtrack over what a short copy has left, with anything but a copy in between:
      it executes only bytes of the job if and only if the bytes rolled back repeat what
      they replaced at every index it has come to. */
  lemma WalkAfterShortCopy(w: Sys, data: seq<bv8>, copy: Copy, publishOk: bool, s: Sys, way: u32, accelerate: bool,
                           decel: u32, evs: seq<Event>)
    requires Sound(w) && w.owner.Writer? && copy.Short? && Avail(w) >= |data| + GAP
             && IntactFrom(w.mem, w.job, StopOf(w) + 1)
    requires Sound(s) && s.asked && s.owner.Free? && s.mem == EndWrite(w, data, copy, publishOk).mem && s.job == w.job
    requires 0 < way <= MaxSteps(|s.mem|, Wrap(s.inn - s.e.head), s.total, decel)
    requires forall i :: 0 <= i < |evs| ==> !evs[i].Stop?
    ensures var t := Run(BeginRun(s, true, way, accelerate, decel), evs);
            && |s.e.log| <= |t.e.log| && t.job == s.job && |Landed(data, copy)| <= |w.mem|
            && (Genuine(t.e.log[|s.e.log|..], s.job) <==> Repeats(w, Landed(data, copy), t.e.at + 1, s.e.at + 1))
  {
    hide Sound, Repeats, Faithful, IntactFrom, Genuine, MaxSteps, EndWrite, BeginRun, Avail, Landed;
    SoundIndices(s);
    SoundIndices(w);
    var t := Run(BeginRun(s, true, way, accelerate, decel), evs);
    ShortCopyTearsHistory(w, data, copy, publishOk, StopOf(w) + 1, s.e.at + 1);
    BacktrackIsGenuineIff(s, way, accelerate, decel, evs);
    IntactAbove(w.mem, w.job, StopOf(w) + 1, t.e.at + 1);
    ShortCopyTearsHistory(w, data, copy, publishOk, t.e.at + 1, s.e.at + 1);
  }

  /** And left on for long enough it comes to every one of them: it executes a wrong byte
      whenever a byte rolled back differs from one it replaced above the dead stop and up
      to the head. */
  lemma WholeWalkAfterShortCopy(w: Sys, data: seq<bv8>, copy: Copy, publishOk: bool, s: Sys, way: u32, accelerate: bool,
                                decel: u32, evs: seq<Event>)
    requires Sound(w) && w.owner.Writer? && copy.Short? && Avail(w) >= |data| + GAP
             && IntactFrom(w.mem, w.job, StopOf(w) + 1)
    requires Sound(s) && s.asked && s.owner.Free? && s.mem == EndWrite(w, data, copy, publishOk).mem && s.job == w.job
    requires 0 < way <= MaxSteps(|s.mem|, Wrap(s.inn - s.e.head), s.total, decel) && s.e.mapped
    requires (forall i :: 0 <= i < |evs| ==> !evs[i].Stop?) && Ticks(evs) > s.e.at - StopOf(s)
    ensures var t := Run(BeginRun(s, true, way, accelerate, decel), evs);
            && |s.e.log| <= |t.e.log| && t.e.at == StopOf(s) && |Landed(data, copy)| <= |w.mem|
            && (Genuine(t.e.log[|s.e.log|..], s.job) <==> Repeats(w, Landed(data, copy), StopOf(s) + 1, s.e.at + 1))
  {
    hide Resident, Repeats, IntactFrom, Genuine, Honest, MaxSteps, EndWrite;
    BacktrackStarts(s, way, accelerate, decel);
    BackwardRunReachesItsDeadStop(BeginRun(s, true, way, accelerate, decel), evs);
    WalkAfterShortCopy(w, data, copy, publishOk, s, way, accelerate, decel, evs);
  }
}
