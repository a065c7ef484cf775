/** What the engine executes, against what the writer was told it accepted. */
module Fifo {
  import opened Words
  import opened Pulse
  import opened Engine
  import opened Playback

  predicate Executed(x: Entry) {
    !x.Park?
  }

  /** The bytes executed, oldest first. */
  function Bytes(log: seq<Entry>): seq<bv8> {
    if log == [] then []
    else
      var rest := Bytes(log[..|log| - 1]);
      var x := log[|log| - 1];
      if Executed(x) then rest + [x.byte] else rest
  }

  /** The indices of the bytes executed, oldest first. */
  function Indices(log: seq<Entry>): seq<int> {
    if log == [] then []
    else
      var rest := Indices(log[..|log| - 1]);
      var x := log[|log| - 1];
      if Executed(x) then rest + [x.at] else rest
  }

  lemma BytesPush(log: seq<Entry>, x: Entry)
    ensures Bytes(log + [x]) == if Executed(x) then Bytes(log) + [x.byte] else Bytes(log)
    ensures Indices(log + [x]) == if Executed(x) then Indices(log) + [x.at] else Indices(log)
  {
    assert (log + [x])[..|log|] == log;
  }

  lemma {:induction false} IndicesGrow(log: seq<Entry>, longer: seq<Entry>)
    requires log <= longer
    ensures |Indices(log)| <= |Indices(longer)|
    ensures (exists j :: |log| <= j < |longer| && Executed(longer[j])) ==> |Indices(log)| < |Indices(longer)|
    decreases |longer|
  {
    if |log| < |longer| {
      IndicesGrow(log, longer[..|longer| - 1]);
    } else {
      assert log == longer;
    }
  }

  lemma BodyLogs(e: Engine, b: bv8)
    ensures var log := Body(e, b).log; |log| == |e.log| + 1 && log == e.log + [log[|e.log|]]
    ensures var x := Body(e, b).log[|e.log|]; Executed(x) && x.at == e.at && x.byte == b
  {
  }

  /** The entry a pass appends. */
  lemma PassLogs(e: Engine, b: bv8) returns (x: Entry)
    ensures Pass(e, b).log == e.log + [x] && Executed(x) && x.at == e.at && x.byte == b
  {
    hide Body;
    BodyLogs(e, b);
    x := Body(e, b).log[|e.log|];
  }

  /** What was executed since the last clear. */
  function Recent(s: Sys): seq<Entry>
    requires s.cleared <= |s.e.log|
  {
    s.e.log[s.cleared..]
  }

  lemma RecentPush(log: seq<Entry>, cleared: nat, x: Entry)
    requires cleared <= |log|
    ensures (log + [x])[cleared..] == log[cleared..] + [x]
  {
  }

  /** Forward history: without a backward run since the last clear, exactly the
      bytes below the head have been executed, once each and in order. */
  predicate InOrder(s: Sys) {
    !s.retraced ==> 0 <= s.e.at <= |s.job| && s.cleared <= |s.e.log| && Bytes(Recent(s)) == s.job[..s.e.at]
  }

  lemma PassInOrder(s: Sys, f: Engine)
    requires Sound(s.(e := f)) && InOrder(s.(e := f)) && !s.mode.Stopped? && !Idle(f, |s.mem|)
    ensures InOrder(s.(e := Pass(f, s.mem[Slot(f.head, |s.mem|)])))
  {
    hide Pass, Body, Bytes;
    var b := s.mem[Slot(f.head, |s.mem|)];
    PassFrame(f, b);
    if !s.retraced {
      assert s.mode.PlayingForward?;
      var x := PassLogs(f, b);
      RecentPush(f.log, s.cleared, x);
      BytesPush(f.log[s.cleared..], x);
      MaskedTest(s.goal, f.at, |s.mem|);
      SlotOfWrap(f.at, |s.mem|);
      assert b == s.job[f.at];
      assert s.job[..f.at + 1] == s.job[..f.at] + [b];
    }
  }

  lemma RestInOrder(s: Sys, f: Engine)
    requires Sound(s.(e := f)) && InOrder(s.(e := f))
    ensures InOrder(s.(e := AllDone(f))) && InOrder(s.(e := Restarted(f)))
  {
    RestFrame(f);
    RecentPush(f.log, s.cleared, Park(ParkWord(f.r3)));
    BytesPush(f.log[s.cleared..], Park(ParkWord(f.r3)));
  }

  lemma TickInOrder(s: Sys)
    requires Sound(s) && InOrder(s) && !s.mode.Stopped?
    ensures InOrder(s.(e := Tick(s.e, s.mem)))
  {
    var keep := (f: Engine) => InOrder(s.(e := f));
    forall f: Engine | Sound(s.(e := f)) && keep(f)
      ensures keep(AllDone(f)) && keep(Restarted(f))
      ensures !Idle(f, |s.mem|) ==> keep(Pass(f, s.mem[Slot(f.head, |s.mem|)]))
    {
      RestInOrder(s, f);
      if !Idle(f, |s.mem|) {
        PassInOrder(s, f);
      }
    }
    TickKeepsSound(s, keep);
  }

  lemma InOrderFrame(s: Sys, t: Sys)
    requires InOrder(s) && t.e.at == s.e.at && t.e.log == s.e.log && t.cleared == s.cleared && s.job <= t.job
    requires t.retraced || !s.retraced
    ensures InOrder(t)
  {
    if !t.retraced {
      assert t.job[..t.e.at] == s.job[..s.e.at];
    }
  }

  lemma NextInOrder(s: Sys, ev: Event)
    requires Sound(s) && InOrder(s)
    ensures InOrder(Next(s, ev))
  {
    hide Placed, Resident, Bytes, Recent;
    match ev
    case TimerTick => if !s.mode.Stopped? { TickInOrder(s); }
    case WriteEnd(_, _, _) => WriteInOrder(s, ev);
    case PublishRun(_, _, _, _) => PublishInOrder(s, ev);
    case Clear(_, _) => ClearInOrder(s, ev);
    case _ => OtherInOrder(s, ev);
  }

  lemma WriteInOrder(s: Sys, ev: Event)
    requires RingSize(|s.mem|) && InOrder(s) && ev.WriteEnd?
    ensures InOrder(Next(s, ev))
  {
    hide Bytes, Recent;
    EndWriteFrame(s, ev.data, ev.copy, ev.publishOk);
    InOrderFrame(s, Next(s, ev));
  }

  lemma PublishInOrder(s: Sys, ev: Event)
    requires RingSize(|s.mem|) && InOrder(s) && ev.PublishRun?
    ensures InOrder(Next(s, ev))
  {
    hide Bytes, Recent, PublishStep;
    PublishStepFrame(s, ev.backward, ev.way, ev.accelerate, ev.decel);
    InOrderFrame(s, Next(s, ev));
  }

  lemma OtherInOrder(s: Sys, ev: Event)
    requires RingSize(|s.mem|) && InOrder(s)
    requires Passive(ev)
    ensures InOrder(Next(s, ev))
  {
    hide Bytes, Recent;
    OtherEvents(s, ev);
    InOrderFrame(s, Next(s, ev));
  }

  lemma ClearInOrder(s: Sys, ev: Event)
    requires Sound(s) && InOrder(s) && ev.Clear?
    ensures InOrder(Next(s, ev))
  {
    if !ev.pulses || !s.owner.Free? || !s.mode.Stopped? {
      InOrderFrame(s, Next(s, ev));
    } else {
      assert Recent(Next(s, ev)) == [];
    }
  }

  /** FIFO refinement. Over every interleaving of writes, refused, short or
      unpublished writes, ticks, stops and forward runs, through any number of
      index wraps and with the writer on a stale head: the bytes executed since
      the last clear are a prefix of the bytes accepted, in order, each once. */
  lemma ExecutesAcceptedBytesInOrder(mem: seq<bv8>, mapped: bool, evs: seq<Event>)
    requires RingSize(|mem|)
    ensures var t := Run(Boot(mem, mapped), evs);
            !t.retraced ==> 0 <= t.e.at <= |t.job| && t.cleared <= |t.e.log| && Bytes(Recent(t)) == t.job[..t.e.at]
  {
    BootSound(mem, mapped);
    forall t: Sys, ev: Event | Sound(t) && InOrder(t)
      ensures InOrder(Next(t, ev))
    {
      NextInOrder(t, ev);
    }
    RunKeeps(Boot(mem, mapped), evs, InOrder, _ => true);
  }

  /** The retained gap. Without a backward run since the last clear the unplayed
      stretch stays a gap short of the ring, so at least 32 KiB of played bytes are
      intact, and the engine's masked test for an empty ring agrees with the
      raw indices. */
  lemma GapIsKept(mem: seq<bv8>, mapped: bool, evs: seq<Event>)
    requires RingSize(|mem|)
    ensures var t := Run(Boot(mem, mapped), evs); var size := |t.mem|;
            !t.retraced ==>
              && size == |mem| && Wrap(t.inn - t.e.head) == |t.job| - t.e.at <= size - 0x8000
              && (forall i :: t.e.at - 0x8000 <= i < |t.job| && i >= 0 ==> t.mem[Slot(i, size)] == t.job[i])
              && (t.mode.PlayingForward? ==>
                    (Slot(t.e.head, size) == Slot(t.e.tail, size) <==> t.e.head == t.e.tail))
  {
    hide Sound;
    BootSound(mem, mapped);
    RunSound(Boot(mem, mapped), evs);
    if !Run(Boot(mem, mapped), evs).retraced {
      GapInSound(Run(Boot(mem, mapped), evs));
    }
  }

  lemma GapInSound(t: Sys)
    requires Sound(t) && !t.retraced
    ensures Wrap(t.inn - t.e.head) == |t.job| - t.e.at <= |t.mem| - GAP
    ensures forall i :: t.e.at - GAP <= i < |t.job| && i >= 0 ==> t.mem[Slot(i, |t.mem|)] == t.job[i]
    ensures t.mode.PlayingForward? ==> (Slot(t.e.head, |t.mem|) == Slot(t.e.tail, |t.mem|) <==> t.e.head == t.e.tail)
  {
    hide Wrap, Slot;
    IndexDistance(|t.job|, t.e.at, |t.mem|);
    if t.mode.PlayingForward? {
      MaskedTest(t.goal, t.e.at, |t.mem|);
    }
  }

  /** The byte count is the head index cut to 32 bits: they move together through
      runs in both directions and through clears. */
  lemma ByteCountIsTheHead(mem: seq<bv8>, mapped: bool, evs: seq<Event>)
    requires RingSize(|mem|)
    ensures var t := Run(Boot(mem, mapped), evs); t.e.bytes == t.e.head == Wrap(t.e.at)
  {
    BootSound(mem, mapped);
    RunSound(Boot(mem, mapped), evs);
  }
}
