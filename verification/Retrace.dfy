/** Backward runs: what they execute, where they stop, and what they do to the
    position counters. */
module Retrace {
  import opened Words
  import opened Backtrack
  import opened Pulse
  import opened Engine
  import opened Playback
  import opened Fifo

  /** Every byte executed was the job byte of its index. */
  predicate Genuine(log: seq<Entry>, job: seq<bv8>) {
    forall x | x in log && Executed(x) :: 0 <= x.at < |job| && x.byte == job[x.at]
  }

  /** From index `lo` on, every job byte is still in its slot. */
  predicate IntactFrom(mem: seq<bv8>, job: seq<bv8>, lo: int)
    requires |mem| > 0
  {
    forall i {:trigger Slot(i, |mem|)} :: 0 <= i < |job| && lo <= i ==> mem[Slot(i, |mem|)] == job[i]
  }

  /** Where a backward run stops. */
  function StopOf(s: Sys): int {
    if |s.job| < |s.mem| then 0 else |s.job| - |s.mem|
  }

  /** The oldest byte that a backward run, or the forward run after it, can
      execute: a ring walked back over in full is not resumed. */
  function Oldest(s: Sys): int {
    if |s.job| < |s.mem| then 0 else |s.job| - |s.mem| + 1
  }

  /** The oldest byte that can be executed before another backward run. */
  function Low(s: Sys): int {
    if Engaged(s).PlayingBackward? then Oldest(s)
    else if |s.job| - s.e.at == |s.mem| then s.e.at + 1 else s.e.at
  }

  /** What was executed is the job, and what can be executed is intact; a full ring
      is played forward only with its tail published. */
  predicate Honest(s: Sys) {
    && |s.mem| > 0 && s.cleared <= |s.e.log| && Genuine(Recent(s), s.job) && IntactFrom(s.mem, s.job, Low(s))
    && (Engaged(s).PlayingForward? && |s.job| - s.e.at == |s.mem| ==> s.goal == |s.job|)
  }

  /** A running engine is about to execute the slot of a byte of the job. */
  lemma HeadInJob(s: Sys)
    requires Sound(s) && !s.mode.Stopped? && !Idle(s.e, |s.mem|)
    ensures 0 <= s.e.at < |s.job| && Slot(s.e.head, |s.mem|) == Slot(s.e.at, |s.mem|)
    ensures s.e.dir == if s.mode.PlayingBackward? then Backward else Forward
    ensures if s.mode.PlayingBackward? then s.goal < s.e.at else s.e.at < s.goal
  {
    hide Resident;
    MaskedTest(if s.mode.PlayingForward? then s.goal else s.e.at,
               if s.mode.PlayingForward? then s.e.at else s.goal, |s.mem|);
    SlotOfWrap(s.e.at, |s.mem|);
  }

  /** In an honest state it is that byte. */
  lemma UnderHead(s: Sys)
    requires Sound(s) && Honest(s) && !s.mode.Stopped? && !Idle(s.e, |s.mem|)
    ensures 0 <= s.e.at < |s.job| && s.mem[Slot(s.e.head, |s.mem|)] == s.job[s.e.at]
    ensures s.e.dir == if s.mode.PlayingBackward? then Backward else Forward
    ensures if s.mode.PlayingBackward? then s.goal < s.e.at else s.e.at < s.goal
    ensures s.mode.PlayingForward? ==> |s.job| - s.e.at < |s.mem|
  {
    hide Resident, Genuine;
    HeadInJob(s);
    MaskedTest(if s.mode.PlayingForward? then s.goal else s.e.at,
               if s.mode.PlayingForward? then s.e.at else s.goal, |s.mem|);
  }

  lemma GenuinePush(log: seq<Entry>, cleared: nat, x: Entry, job: seq<bv8>)
    requires cleared <= |log| && Genuine(log[cleared..], job)
             && (Executed(x) ==> 0 <= x.at < |job| && x.byte == job[x.at])
    ensures Genuine((log + [x])[cleared..], job)
  {
    RecentPush(log, cleared, x);
  }

  lemma PassHonest(s: Sys, f: Engine)
    requires Sound(s.(e := f)) && Honest(s.(e := f)) && !s.mode.Stopped? && !Idle(f, |s.mem|)
    ensures Honest(s.(e := Pass(f, s.mem[Slot(f.head, |s.mem|)])))
  {
    hide Resident, Genuine, IntactFrom;
    UnderHead(s.(e := f));
    var b := s.mem[Slot(f.head, |s.mem|)];
    PassFrame(f, b);
    var x := PassLogs(f, b);
    GenuinePush(f.log, s.cleared, x, s.job);
    IntactAbove(s.mem, s.job, f.at, f.at + 1);
  }

  lemma IntactAbove(mem: seq<bv8>, job: seq<bv8>, lo: int, hi: int)
    requires |mem| > 0
    ensures lo <= hi && IntactFrom(mem, job, lo) ==> IntactFrom(mem, job, hi)
  {
  }

  lemma RestHonest(s: Sys, f: Engine)
    requires Honest(s.(e := f))
    ensures Honest(s.(e := AllDone(f))) && Honest(s.(e := Restarted(f)))
  {
    hide Genuine, IntactFrom;
    RestFrame(f);
    GenuinePush(f.log, s.cleared, Park(ParkWord(f.r3)), s.job);
  }

  /** Induction over the passes of a tick, from a sound and honest state. */
  lemma TickKeepsHonest(s: Sys, keep: Engine -> bool)
    requires Sound(s) && Honest(s) && !s.mode.Stopped? && keep(s.e)
    requires forall f: Engine :: keep(f) ==> keep(Restarted(f)) && keep(AllDone(f))
    requires forall f: Engine :: Sound(s.(e := f)) && Honest(s.(e := f)) && keep(f) && !Idle(f, |s.mem|)
                                 ==> keep(Pass(f, s.mem[Slot(f.head, |s.mem|)]))
    ensures keep(Tick(s.e, s.mem)) && Honest(s.(e := Tick(s.e, s.mem)))
  {
    var both := (f: Engine) => Honest(s.(e := f)) && keep(f);
    forall f: Engine | Sound(s.(e := f)) && both(f)
      ensures both(AllDone(f)) && both(Restarted(f))
      ensures !Idle(f, |s.mem|) ==> both(Pass(f, s.mem[Slot(f.head, |s.mem|)]))
    {
      hide Placed, Resident, Honest;
      RestHonest(s, f);
      if !Idle(f, |s.mem|) {
        PassHonest(s, f);
      }
    }
    TickKeepsSound(s, both);
  }

  lemma TickHonest(s: Sys)
    requires Sound(s) && Honest(s) && !s.mode.Stopped?
    ensures Honest(s.(e := Tick(s.e, s.mem)))
  {
    TickKeepsHonest(s, _ => true);
  }

  /** A copy that keeps the gap reaches no byte from the head on. */
  lemma CopyKeeps(s: Sys, landed: seq<bv8>)
    requires Sound(s) && s.owner.Writer? && Avail(s) >= |landed| + GAP && IntactFrom(s.mem, s.job, s.e.at)
    ensures |s.job| + |landed| + GAP <= s.e.at + |s.mem|
    ensures IntactFrom(Splice(s.mem, s.inn, landed), s.job + landed, s.e.at)
    ensures IntactFrom(Splice(s.mem, s.inn, landed), s.job, s.e.at)
  {
    IndexDistance(|s.job|, s.seen, |s.mem|);
    var after, all := Splice(s.mem, s.inn, landed), s.job + landed;
    forall i {:trigger Slot(i, |s.mem|)} | 0 <= i < |all| && s.e.at <= i
      ensures after[Slot(i, |s.mem|)] == all[i]
    {
      SpliceAt(s.mem, |s.job|, landed, i);
    }
    assert forall i :: 0 <= i < |s.job| ==> all[i] == s.job[i];
  }

  lemma GenuineFor(log: seq<Entry>, job: seq<bv8>, longer: seq<bv8>)
    requires Genuine(log, job) && job <= longer
    ensures Genuine(log, longer)
  {
  }

  lemma EndWriteHonest(s: Sys, data: seq<bv8>, copy: Copy, publishOk: bool)
    requires Sound(s) && Honest(s) && s.owner.Writer?
    ensures Honest(EndWrite(s, data, copy, publishOk))
  {
    hide Resident, Genuine, IntactFrom, Splice, Slot;
    if Avail(s) >= |data| + GAP {
      IndexDistance(|s.job|, s.seen, |s.mem|);
      CopyKeeps(s, Landed(data, copy));
      GenuineFor(Recent(s), s.job, s.job + data);
    }
  }

  lemma PublishHonest(s: Sys, ev: Event)
    requires Sound(s) && Honest(s) && ev.PublishRun?
    requires ev.backward && s.asked && s.owner.Free? && s.mode.Stopped? ==> IntactFrom(s.mem, s.job, Oldest(s))
    ensures Honest(Next(s, ev))
  {
    hide Resident, Genuine, IntactFrom, MaxSteps;
  }

  /** Nothing passive starts a run. */
  lemma EngagedStep(s: Sys, ev: Event)
    requires RingSize(|s.mem|) && Passive(ev) && (s.owner.Runner? ==> s.mode.Stopped?)
    ensures Engaged(Next(s, ev)) == Engaged(s) || Engaged(Next(s, ev)).Stopped?
  {
  }

  lemma CalmHonest(s: Sys, t: Sys)
    requires Sound(s) && Honest(s) && (Engaged(t) == Engaged(s) || Engaged(t).Stopped?)
    requires t.mem == s.mem && t.job == s.job && t.goal == s.goal && t.cleared == s.cleared
    requires t.e.at == s.e.at && t.e.log == s.e.log
    ensures Honest(t)
  {
    hide Resident, Genuine, IntactFrom, Linked;
    assert RingSize(|s.mem|) by { SoundIndices(s); }
    IntactAbove(s.mem, s.job, Oldest(s), s.e.at);
    IntactAbove(s.mem, s.job, Oldest(s), s.e.at + 1);
  }

  lemma OtherHonest(s: Sys, ev: Event)
    requires Sound(s) && Honest(s) && Passive(ev)
    ensures Honest(Next(s, ev))
  {
    hide Sound, Honest, Engaged, Next;
    SoundIndices(s);
    OtherEvents(s, ev);
    EngagedStep(s, ev);
    CalmHonest(s, Next(s, ev));
  }

  lemma ClearHonest(s: Sys, ev: Event)
    requires Sound(s) && Honest(s) && ev.Clear?
    ensures Honest(Next(s, ev))
  {
    hide Sound, Honest, ClearData, ClearPosition;
    if s.owner.Free? && s.mode.Stopped? {
      ClearedHonest(s);
      HomedHonest(if ev.pulses then ClearData(s) else s);
    }
  }

  lemma ClearedHonest(s: Sys)
    requires Sound(s) && s.owner.Free? && s.mode.Stopped?
    ensures Honest(ClearData(s))
  {
    hide Resident, Genuine, IntactFrom;
    NothingIsGenuine(s.e.log, s.mem);
  }

  lemma HomedHonest(s: Sys)
    requires Honest(s)
    ensures Honest(ClearPosition(s))
  {
    hide Genuine, IntactFrom;
  }

  lemma NothingIsGenuine(log: seq<Entry>, mem: seq<bv8>)
    requires |mem| > 0
    ensures Genuine(log[|log|..], []) && IntactFrom(mem, [], 0)
  {
  }

  lemma NextHonest(s: Sys, ev: Event)
    requires Sound(s) && Honest(s)
    requires ev.PublishRun? && ev.backward && s.asked && s.owner.Free? && s.mode.Stopped?
             ==> IntactFrom(s.mem, s.job, Oldest(s))
    ensures Honest(Next(s, ev))
  {
    hide Placed, Resident, Honest, IntactFrom;
    match ev
    case TimerTick => if !s.mode.Stopped? { TickHonest(s); }
    case WriteEnd(data, copy, publishOk) => if s.owner.Writer? { EndWriteHonest(s, data, copy, publishOk); }
    case PublishRun(_, _, _, _) => PublishHonest(s, ev);
    case Clear(_, _) => ClearHonest(s, ev);
    case _ => OtherHonest(s, ev);
  }

  /** No backward run is published over a torn history. */
  predicate Careful(s: Sys, evs: seq<Event>)
    requires RingSize(|s.mem|)
    decreases |evs|
  {
    evs != [] ==>
      && (evs[0].PublishRun? && evs[0].backward && s.asked && s.owner.Free? && s.mode.Stopped?
         ==> IntactFrom(s.mem, s.job, Oldest(s)))
      && Careful(Next(s, evs[0]), evs[1..])
  }

  /** Whatever the interleaving of forward and backward runs, writes and clears:
      every byte executed since the last clear is the job byte of its index, as
      long as no backward run is published over a history torn by a short copy. */
  lemma {:induction false} ExecutesOnlyGenuineBytes(s: Sys, evs: seq<Event>)
    requires Sound(s) && Honest(s) && Careful(s, evs)
    ensures Honest(Run(s, evs))
    decreases |evs|
  {
    if evs != [] {
      hide Placed, Resident, Honest, IntactFrom;
      NextSound(s, evs[0]);
      NextHonest(s, evs[0]);
      ExecutesOnlyGenuineBytes(Next(s, evs[0]), evs[1..]);
    }
  }

  lemma BacktrackFrame(s: Sys, way: u32, accelerate: bool, decel: u32)
    requires RingSize(|s.mem|) && s.total == |s.job| && s.asked && s.owner.Free? && s.mode.Stopped?
    ensures var t := BeginRun(s, true, way, accelerate, decel);
            && (t.mode.PlayingBackward? <==> 0 < way <= MaxSteps(|s.mem|, Wrap(s.inn - s.e.head), s.total, decel))
            && t.job == s.job && t.mem == s.mem && t.e.at == s.e.at && t.e.log == s.e.log
            && t.e.mapped == s.e.mapped && t.e.line == s.e.line
            && (t.mode.PlayingBackward? ==> t.e.dir.Backward? && t.e.way == way && t.goal == StopOf(s) && t.owner.Free?)
  {
    hide MaxSteps, DeadStop;
  }

  /** A backtrack is accepted exactly for a nonzero number of steps within the
      allowance, and then runs from the head; over an intact history the run will walk
      genuine data only. */
  lemma BacktrackStarts(s: Sys, way: u32, accelerate: bool, decel: u32)
    requires Sound(s) && s.asked && s.owner.Free?
    ensures var t := BeginRun(s, true, way, accelerate, decel);
            && Sound(t) && (t.mode.PlayingBackward?
               <==> 0 < way <= MaxSteps(|s.mem|, Wrap(s.inn - s.e.head), s.total, decel))
            && t.job == s.job && t.mem == s.mem && t.e.at == s.e.at && t.e.log == s.e.log
            && t.e.mapped == s.e.mapped && t.e.line == s.e.line
            && (t.mode.PlayingBackward? ==> t.e.dir.Backward? && t.e.way == way && t.goal == StopOf(s) && t.owner.Free?)
            && (Honest(s) && IntactFrom(s.mem, s.job, Oldest(s)) ==> Honest(t))
  {
    hide Next, BeginRun, MaxSteps, Resident, Honest, IntactFrom, StopOf;
    var ev := PublishRun(true, way, accelerate, decel);
    var p := Next(s, ev);
    RunBegins(s, true, way, accelerate, decel);
    NextSound(s, ev);
    NextSound(p, CommitRun(true));
    BacktrackFrame(s, way, accelerate, decel);
    if Honest(s) && IntactFrom(s.mem, s.job, Oldest(s)) {
      NextHonest(s, ev);
      NextHonest(p, CommitRun(true));
    }
  }

  lemma BootHonest(mem: seq<bv8>, mapped: bool)
    requires RingSize(|mem|)
    ensures Honest(Boot(mem, mapped))
  {
  }

  /** A history is torn only by a copy that ran past what the writer kept. */
  lemma WholeCopiesKeepHistory(s: Sys)
    requires Sound(s) && s.mark <= StopOf(s) + |s.mem|
    ensures IntactFrom(s.mem, s.job, Oldest(s))
  {
  }

  lemma WholeCopyStep(s: Sys, ev: Event)
    requires RingSize(|s.mem|) && s.mark == |s.job| && (ev.WriteEnd? ==> ev.copy.Whole?)
    ensures Next(s, ev).mark == |Next(s, ev).job|
  {
  }

  lemma {:induction false} WholeCopiesAreCareful(s: Sys, evs: seq<Event>)
    requires Sound(s) && s.mark == |s.job| && forall i :: 0 <= i < |evs| && evs[i].WriteEnd? ==> evs[i].copy.Whole?
    ensures Careful(s, evs)
    decreases |evs|
  {
    if evs != [] {
      hide Resident, IntactFrom;
      WholeCopiesKeepHistory(s);
      NextSound(s, evs[0]);
      WholeCopyStep(s, evs[0]);
      WholeCopiesAreCareful(Next(s, evs[0]), evs[1..]);
    }
  }

  /** From loading, with no copy short: in every reachable state, every byte
      executed since the last clear, in either direction, is the job byte of its
      index. */
  lemma WholeCopiesPlayGenuinely(mem: seq<bv8>, mapped: bool, evs: seq<Event>)
    requires RingSize(|mem|) && forall i :: 0 <= i < |evs| && evs[i].WriteEnd? ==> evs[i].copy.Whole?
    ensures var t := Run(Boot(mem, mapped), evs); t.cleared <= |t.e.log| && Genuine(Recent(t), t.job)
  {
    var s := Boot(mem, mapped);
    BootSound(mem, mapped);
    BootHonest(mem, mapped);
    WholeCopiesAreCareful(s, evs);
    ExecutesOnlyGenuineBytes(s, evs);
  }
}
