/** The ring, its writer and the engine together: every interleaving of host
    calls (cnc_buffer.c, run start in cnc.c) and timer ticks (asm/sdma.asm). */
module Playback {
  import opened Words
  import opened Backtrack
  import opened Pulse
  import opened Engine

  datatype Mode = Stopped | PlayingForward | PlayingBackward

  /** Holder of the ring mutex: nobody, a writer that has read the head, or a run
      request that has published its registers and not yet committed. */
  datatype Owner = Free | Writer | Runner(backward: bool)

  /** How a copy from the writer's memory goes: whole, or short after `copied`
      bytes, with `left` in the stretch it has written to by then. */
  datatype Copy = Whole | Short(copied: nat, left: seq<bv8>)

  /** `inn` and `out` are the kfifo indices, `total` the byte count since the
      last clear, `asked` a run request that has found the ring nonempty. The rest
      is history: every byte accepted since the last clear, one past the newest
      index ever copied, the unbounded values behind the tail and behind `out`,
      whether a backward run was committed since the last clear, and the length
      the log had then. */
  datatype Sys = Sys(
    e: Engine, mem: seq<bv8>, inn: u32, out: u32, total: nat, mode: Mode, owner: Owner, asked: bool,
    job: seq<bv8>, mark: nat, goal: int, seen: int, retraced: bool, cleared: nat)

  datatype Event =
    | WriteBegin(headOk: bool)
    | WriteEnd(data: seq<bv8>, copy: Copy, publishOk: bool)
    | Ask(headOk: bool)
    | Sync(headOk: bool)
    | PublishRun(backward: bool, way: u32, accelerate: bool, decel: u32)
    | CommitRun(ok: bool)
    | Drop
    | Stop
    | TimerTick
    | Clear(pulses: bool, position: bool)
    | SetLock(mask: bv32)
    | Service

  function Boot(mem: seq<bv8>, mapped: bool): Sys {
    Sys(Engine(AtStart, false, 0, 0, mapped, 0, 0, 0, 0, 0, 0, Forward, 0, 0, 0, false, false, 0, 0, []),
        mem, 0, 0, 0, Stopped, Free, false, [], 0, 0, 0, false, 0)
  }

  function Max(a: nat, b: nat): nat {
    if a < b then b else a
  }

  /** The ring after copying `data` in at index `start`. */
  function Splice(mem: seq<bv8>, start: u32, data: seq<bv8>): (r: seq<bv8>)
    requires 0 < |mem|
    ensures |r| == |mem|
  {
    seq(|mem|, k requires 0 <= k < |mem| =>
      var j := (k - start) % |mem|; if j < |data| then data[j] else mem[k])
  }

  /** Room left for the writer, from the head it last read; never negative. */
  function Avail(s: Sys): int {
    |s.mem| - Wrap(s.inn - s.out)
  }

  /** What a copy leaves in the ring: never more than was to be written. */
  function Landed(data: seq<bv8>, copy: Copy): (r: seq<bv8>)
    ensures |r| <= |data|
  {
    match copy
    case Whole => data
    case Short(_, left) => if |left| <= |data| then left else left[..|data|]
  }

  /** The write path after the head is read: refused when it would eat into the
      gap, rolled back when the copy is short, else committed and, if the
      context load works, published to the engine. */
  function EndWrite(s: Sys, data: seq<bv8>, copy: Copy, publishOk: bool): Sys
    requires RingSize(|s.mem|)
  {
    if Avail(s) < |data| + GAP then s.(owner := Free)
    else if copy.Short? then
      s.(owner := Free, mem := Splice(s.mem, s.inn, Landed(data, copy)),
          mark := Max(s.mark, |s.job| + |Landed(data, copy)|))
    else
      var inn := Wrap(s.inn + |data|);
      var kept := s.(owner := Free, mem := Splice(s.mem, s.inn, data), inn := inn, total := s.total + |data|,
                     job := s.job + data, mark := Max(s.mark, |s.job| + |data|));
      if publishOk then kept.(e := s.e.(tail := inn), goal := |kept.job|) else kept
  }

  /** The registers of a run, published under the ring mutex. */
  function Publish(s: Sys, backward: bool, way: u32, accelerate: bool): Sys
    requires RingSize(|s.mem|)
  {
    s.(owner := Runner(backward), asked := false,
       goal := if backward then |s.job| - Span(|s.mem|, s.total) else |s.job|,
       e := s.e.(tail := if backward then DeadStop(|s.mem|, s.inn, s.total) else s.inn,
                 dir := if backward then Backward else Forward,
                 way := way, inhibit := if accelerate && !backward then LASER else 0,
                 mailbox := false))
  }

  /** The second part of a run request, its ring found nonempty before: a backtrack
      of no steps or beyond the allowance is refused, any other run published. */
  function PublishStep(s: Sys, backward: bool, way: u32, accelerate: bool, decel: u32): Sys
    requires RingSize(|s.mem|)
  {
    if !backward then Publish(s, false, way, accelerate)
    else if way == 0 then s.(asked := false)
    else
      var synced := s.(out := s.e.head, seen := s.e.at);
      if way > MaxSteps(|s.mem|, Wrap(s.inn - s.e.head), s.total, decel) then synced.(asked := false)
      else Publish(synced, true, way, accelerate)
  }

  /** Its last part: the run commits unless a stop or a fault got in between. */
  function CommitStep(s: Sys, ok: bool): Sys
    requires s.owner.Runner?
  {
    s.(owner := Free, retraced := s.retraced || (ok && s.owner.backward),
       mode := if !ok then Stopped else if s.owner.backward then PlayingBackward else PlayingForward)
  }

  /** Both parts with nothing in between. */
  function BeginRun(s: Sys, backward: bool, way: u32, accelerate: bool, decel: u32): (t: Sys)
    requires RingSize(|s.mem|)
    ensures |t.mem| == |s.mem|
  {
    var p := PublishStep(s, backward, way, accelerate, decel);
    if p.owner.Runner? then CommitStep(p, true) else p
  }

  /** The run in progress, from the publishing of its registers on. */
  function Engaged(s: Sys): Mode {
    if !s.owner.Runner? then s.mode else if s.owner.backward then PlayingBackward else PlayingForward
  }

  function ClearData(s: Sys): Sys {
    s.(inn := 0, out := 0, total := 0, job := [], mark := 0, goal := 0, seen := 0, retraced := false,
        cleared := |s.e.log|,
       e := s.e.(bytes := 0, head := 0, tail := 0, at := 0))
  }

  function ClearPosition(s: Sys): Sys {
    s.(e := s.e.(x := 0, y := 0, z := 0))
  }

  /** One atomic step. An event whose lock or state is not available is a
      refused or waiting call and changes nothing. */
  function Next(s: Sys, ev: Event): (t: Sys)
    requires RingSize(|s.mem|)
    ensures |t.mem| == |s.mem|
  {
    match ev
    case WriteBegin(headOk) =>
      if !s.owner.Free? || s.mode.PlayingBackward? || !headOk then s
      else s.(owner := Writer, out := s.e.head, seen := s.e.at)
    case WriteEnd(data, copy, publishOk) =>
      if s.owner.Writer? then EndWrite(s, data, copy, publishOk) else s
    case Ask(headOk) =>
      if s.owner.Runner? || !s.mode.Stopped? then s
      else if !headOk then s.(asked := false)
      else s.(out := s.e.head, seen := s.e.at, asked := s.inn != s.e.head)
    case Sync(headOk) => if headOk then s.(out := s.e.head, seen := s.e.at) else s
    case PublishRun(backward, way, accelerate, decel) =>
      if s.asked && s.owner.Free? && s.mode.Stopped? then PublishStep(s, backward, way, accelerate, decel) else s
    case CommitRun(ok) => if s.owner.Runner? && s.mode.Stopped? then CommitStep(s, ok) else s
    case Drop => s.(asked := false)
    case Stop => s.(mode := Stopped)
    case TimerTick => if s.mode.Stopped? then s else s.(e := Tick(s.e, s.mem))
    case Clear(pulses, position) =>
      if !s.owner.Free? || !s.mode.Stopped? then s
      else var t := if pulses then ClearData(s) else s; if position then ClearPosition(t) else t
    case SetLock(mask) => s.(e := s.e.(lock := mask & STEPS))
    case Service => s.(e := s.e.(line := false))
  }

  function Run(s: Sys, evs: seq<Event>): (t: Sys)
    requires RingSize(|s.mem|)
    ensures |t.mem| == |s.mem|
    decreases |evs|
  {
    if evs == [] then s else Run(Next(s, evs[0]), evs[1..])
  }

  /** A run begun is a run published and committed with nothing in between. */
  lemma RunBegins(s: Sys, backward: bool, way: u32, accelerate: bool, decel: u32)
    requires RingSize(|s.mem|) && s.asked && s.owner.Free? && s.mode.Stopped?
    ensures BeginRun(s, backward, way, accelerate, decel)
         == Next(Next(s, PublishRun(backward, way, accelerate, decel)), CommitRun(true))
  {
    hide MaxSteps, DeadStop;
  }

  /** The registers stand for the unbounded indices. */
  predicate Linked(s: Sys) {
    && RingSize(|s.mem|) && s.total == |s.job|
    && s.inn == Wrap(|s.job|) && s.e.head == Wrap(s.e.at) && s.e.bytes == s.e.head
    && s.e.tail == Wrap(s.goal) && s.out == Wrap(s.seen)
  }

  /** Where the indices can be. Without a backward run since the last clear, the
      writer stays a gap short of a full ring. */
  predicate Placed(s: Sys)
    requires RingSize(|s.mem|)
  {
    && 0 <= s.e.at <= |s.job| <= s.mark && |s.job| <= s.e.at + |s.mem| && s.cleared <= |s.e.log|
    && (!s.retraced ==> s.mark + GAP <= s.e.at + |s.mem|)
    && 0 <= s.seen <= |s.job| <= s.seen + |s.mem|
    && (s.owner.Writer? ==> !s.mode.PlayingBackward? && s.seen <= s.e.at)
    && (s.owner.Runner? ==> s.mode.Stopped?) && (s.mode.PlayingBackward? ==> s.retraced)
    && (s.asked ==> s.mode.Stopped? && !s.owner.Runner? && (s.e.at < |s.job| || s.job == []))
    && (Engaged(s).PlayingForward? ==> !s.e.dir.Backward? && s.e.at <= s.goal <= |s.job|)
    && (Engaged(s).PlayingBackward? ==>
          && !s.e.dir.Forward? && s.goal == |s.job| - Span(|s.mem|, |s.job|)
          && s.goal <= s.e.at < |s.job|)
  }

  /** Every accepted byte that no later copy has reached is still in its slot. */
  predicate Resident(mem: seq<bv8>, job: seq<bv8>, mark: nat)
    requires |mem| > 0
  {
    forall i {:trigger Slot(i, |mem|)} :: 0 <= i < |job| && mark - |mem| <= i ==> mem[Slot(i, |mem|)] == job[i]
  }

  predicate Sound(s: Sys) {
    Linked(s) && Placed(s) && Resident(s.mem, s.job, s.mark)
  }

  /** What a sound state says of its indices. */
  lemma SoundIndices(s: Sys)
    requires Sound(s)
    ensures RingSize(|s.mem|) && s.total == |s.job| && s.inn == Wrap(|s.job|) && s.e.head == Wrap(s.e.at)
    ensures 0 <= s.e.at <= |s.job| <= s.e.at + |s.mem| && (s.owner.Runner? || s.asked ==> s.mode.Stopped?)
  {
    hide Resident;
  }

  /** A slot outside the copied stretch is untouched; inside it holds the data. */
  lemma SpliceAt(mem: seq<bv8>, n: nat, data: seq<bv8>, i: int)
    requires RingSize(|mem|) && |data| <= |mem| && n + |data| - |mem| <= i < n + |data|
    ensures Splice(mem, Wrap(n), data)[Slot(i, |mem|)] == (if i >= n then data[i - n] else mem[Slot(i, |mem|)])
  {
    var size := |mem|;
    SlotOfWrap(n, size);
    var j := (Slot(i, size) - Wrap(n)) % size;
    assert j == (i - n) % size by {
      SlotDifference(i, Wrap(n), n, size);
    }
    if i >= n {
      DivModUnique(i - n, 0, i - n, size);
    } else {
      DivModUnique(i - n, -1, i - n + size, size);
    }
  }

  /** Slots differ by what their indices differ by. */
  lemma SlotDifference(i: int, w: int, n: int, size: nat)
    requires size > 0 && Slot(w, size) == Slot(n, size)
    ensures (Slot(i, size) - w) % size == (i - n) % size
  {
    var k := n / size - i / size - w / size;
    assert i % size - w == (i - n) + k * size by {
      assert i == size * (i / size) + i % size && w == size * (w / size) + w % size
             && n == size * (n / size) + n % size;
      assert k * size == size * (n / size) - size * (i / size) - size * (w / size);
    }
    ModShift(i - n, k, size);
  }

  lemma WriteResident(mem: seq<bv8>, job: seq<bv8>, mark: nat, data: seq<bv8>)
    requires RingSize(|mem|) && |data| <= |mem| && |job| <= mark && Resident(mem, job, mark)
    ensures Resident(Splice(mem, Wrap(|job|), data), job, Max(mark, |job| + |data|))
    ensures Resident(Splice(mem, Wrap(|job|), data), job + data, Max(mark, |job| + |data|))
  {
    var after := Splice(mem, Wrap(|job|), data);
    forall i | 0 <= i < |job + data| && Max(mark, |job| + |data|) - |mem| <= i
      ensures after[Slot(i, |mem|)] == (job + data)[i]
    {
      SpliceAt(mem, |job|, data, i);
    }
    forall i | 0 <= i < |job| && Max(mark, |job| + |data|) - |mem| <= i
      ensures after[Slot(i, |mem|)] == job[i]
    {
      assert (job + data)[i] == job[i];
    }
  }

  /** The 32-bit difference of two indices at most a ring apart is the distance. */
  lemma IndexDistance(a: int, b: int, size: nat)
    requires RingSize(size) && b <= a <= b + size
    ensures Wrap(Wrap(a) - Wrap(b)) == a - b
  {
    WrapSub(a, b);
  }

  /** The engine's masked emptiness test, on indices less than a ring apart. */
  lemma MaskedTest(a: int, b: int, size: nat)
    requires RingSize(size) && b <= a <= b + size
    ensures Slot(Wrap(a), size) == Slot(Wrap(b), size) <==> a == b || a == b + size
  {
    SlotOfWrap(a, size);
    SlotOfWrap(b, size);
    if Slot(a, size) == Slot(b, size) && a != b + size {
      SlotsApart(a, b, size);
    }
    SlotsOneRingApart(b, size);
  }

  /** Events that touch neither the job nor the ring nor what was executed. */
  predicate Passive(ev: Event) {
    ev.WriteBegin? || ev.Ask? || ev.Sync? || ev.CommitRun? || ev.Drop? || ev.Stop? || ev.SetLock? || ev.Service?
  }

  lemma EndWriteFrame(s: Sys, data: seq<bv8>, copy: Copy, publishOk: bool)
    requires RingSize(|s.mem|)
    ensures var t := EndWrite(s, data, copy, publishOk);
            && t.e == s.e.(tail := t.e.tail) && t.mode == s.mode && t.retraced == s.retraced && t.cleared == s.cleared
            && s.job <= t.job && t.owner.Free?
  {
    hide Splice, Wrap, Landed;
  }

  lemma PublishFrame(s: Sys, backward: bool, way: u32, accelerate: bool)
    requires RingSize(|s.mem|)
    ensures var t := Publish(s, backward, way, accelerate);
            && t.job == s.job && t.mem == s.mem && t.mark == s.mark && t.mode == s.mode && t.cleared == s.cleared
            && t.retraced == s.retraced
            && t.e == s.e.(tail := t.e.tail, dir := t.e.dir, way := t.e.way, inhibit := t.e.inhibit, mailbox := false)
            && (t.e.inhibit == 0 || t.e.inhibit == LASER) && !t.e.dir.Parked?
  {
  }

  lemma PublishStepFrame(s: Sys, backward: bool, way: u32, accelerate: bool, decel: u32)
    requires RingSize(|s.mem|)
    ensures var t := PublishStep(s, backward, way, accelerate, decel);
            && t.job == s.job && t.mem == s.mem && t.mark == s.mark && t.mode == s.mode && t.cleared == s.cleared
            && t.retraced == s.retraced
            && t.e == s.e.(tail := t.e.tail, dir := t.e.dir, way := t.e.way, inhibit := t.e.inhibit,
               mailbox := t.e.mailbox)
            && (t.e.inhibit == s.e.inhibit || t.e.inhibit == 0 || t.e.inhibit == LASER)
            && (t.e == s.e || (!t.e.dir.Parked? && !t.e.mailbox))
  {
    hide Publish, MaxSteps;
    PublishFrame(s, false, way, accelerate);
    PublishFrame(s.(out := s.e.head, seen := s.e.at), true, way, accelerate);
  }

  /** Ticks, ends of writes, publishing and clears apart, nothing touches the job,
      the ring, the head, the counters or what was executed. */
  lemma OtherEvents(s: Sys, ev: Event)
    requires RingSize(|s.mem|)
    requires Passive(ev)
    ensures var t := Next(s, ev);
            && (!ev.Stop? && (!ev.CommitRun? || !s.mode.Stopped?) ==> t.mode == s.mode)
               && (ev.Stop? ==> t.mode == Stopped)
            && t.job == s.job && t.mem == s.mem && t.mark == s.mark && t.cleared == s.cleared && t.goal == s.goal
            && (s.retraced ==> t.retraced) && (t.retraced ==> s.retraced || ev.CommitRun?)
            && t.e == s.e.(lock := if ev.SetLock? then ev.mask & STEPS else s.e.lock, line := s.e.line && !ev.Service?)
  {
  }

  /** While a run lasts, run requests and clears are refused. */
  lemma RefusedDuringRun(s: Sys, ev: Event)
    requires RingSize(|s.mem|) && !s.mode.Stopped? && (ev.Ask? || ev.PublishRun? || ev.CommitRun? || ev.Clear?)
    ensures Next(s, ev) == s
  {
  }

  /** A clear of the position zeroes the counters; no clear touches the log. */
  lemma ClearFrame(s: Sys, ev: Event)
    requires RingSize(|s.mem|) && ev.Clear?
    ensures var f := Next(s, ev).e;
            && f == s.e.(bytes := f.bytes, head := f.head, tail := f.tail, at := f.at, x := f.x, y := f.y, z := f.z)
            && (if ev.position && s.owner.Free? && s.mode.Stopped? then f.x == 0 && f.y == 0 && f.z == 0
                else f.x == s.e.x && f.y == s.e.y && f.z == s.e.z)
  {
    var cleared := if ev.pulses then ClearData(s) else s;
    assert Next(s, ev) == s || Next(s, ev) == if ev.position then ClearPosition(cleared) else cleared;
  }

  /** While a run lasts the host changes the tail, the motor lock and the pending
      interrupt of the context, and nothing else in it. */
  lemma HostDuringRun(s: Sys, ev: Event)
    requires RingSize(|s.mem|) && !s.mode.Stopped? && !ev.Stop? && !ev.TimerTick?
    ensures var t := Next(s, ev);
            && t.mode == s.mode && t.e == s.e.(tail := t.e.tail, lock := t.e.lock, line := s.e.line && !ev.Service?)
            && t.e.lock == (if ev.SetLock? then ev.mask & STEPS else s.e.lock)
  {
    if ev.WriteEnd? {
      EndWriteFrame(s, ev.data, ev.copy, ev.publishOk);
    } else if ev.PublishRun? || ev.Clear? {
      RefusedDuringRun(s, ev);
    } else {
      OtherEvents(s, ev);
    }
  }

  lemma EndWriteSound(s: Sys, data: seq<bv8>, copy: Copy, publishOk: bool)
    requires Sound(s) && s.owner.Writer?
    ensures Sound(EndWrite(s, data, copy, publishOk))
  {
    hide Linked, Placed, Resident, Splice, Landed;
    WriterIndex(s);
    if Avail(s) >= |data| + GAP {
      RoomForCopy(s, data);
      if copy.Whole? {
        WriteResident(s.mem, s.job, s.mark, data);
      } else {
        WriteResident(s.mem, s.job, s.mark, Landed(data, copy));
      }
    }
    EndWriteLinked(s, data, copy, publishOk);
    EndWritePlaced(s, data, copy, publishOk);
  }

  lemma WriterIndex(s: Sys)
    requires Sound(s)
    ensures RingSize(|s.mem|) && s.inn == Wrap(|s.job|) && |s.job| <= s.mark
  {
    hide Resident;
  }

  lemma EndWriteLinked(s: Sys, data: seq<bv8>, copy: Copy, publishOk: bool)
    requires Linked(s)
    ensures Linked(EndWrite(s, data, copy, publishOk))
  {
    hide Splice, Landed, Wrap;
    WrapAdd(|s.job|, |data|);
  }

  lemma EndWritePlaced(s: Sys, data: seq<bv8>, copy: Copy, publishOk: bool)
    requires Linked(s) && Placed(s) && s.owner.Writer?
    requires Avail(s) >= |data| + GAP ==> |s.job| + |data| + GAP <= s.seen + |s.mem|
    ensures Placed(EndWrite(s, data, copy, publishOk))
  {
    hide Splice, Wrap;
  }

  /** A copy that the writer finds room for keeps the gap. */
  lemma RoomForCopy(s: Sys, data: seq<bv8>)
    requires Sound(s) && s.owner.Writer? && Avail(s) >= |data| + GAP
    ensures |s.job| + |data| + GAP <= s.seen + |s.mem| && s.seen <= s.e.at
  {
    hide Resident;
    IndexDistance(|s.job|, s.seen, |s.mem|);
  }

  lemma PublishSound(s: Sys, backward: bool, way: u32, accelerate: bool)
    requires Sound(s) && s.owner.Free? && s.mode.Stopped? && (backward ==> s.e.at < |s.job|)
    ensures Sound(Publish(s, backward, way, accelerate))
  {
    var span: int := Span(|s.mem|, s.total);
    WrapAdd(|s.job|, -span);
  }

  lemma PublishStepSound(s: Sys, backward: bool, way: u32, accelerate: bool, decel: u32)
    requires Sound(s) && s.asked && s.owner.Free? && s.mode.Stopped?
    ensures Sound(PublishStep(s, backward, way, accelerate, decel))
  {
    if !backward {
      PublishSound(s, false, way, accelerate);
    } else if way != 0 {
      var synced := s.(out := s.e.head, seen := s.e.at);
      assert Sound(synced);
      if way <= MaxSteps(|s.mem|, Wrap(s.inn - s.e.head), s.total, decel) {
        PublishSound(synced, true, way, accelerate);
      }
    }
  }

  lemma PassSound(s: Sys, f: Engine)
    requires Sound(s.(e := f)) && !s.mode.Stopped? && !Idle(f, |s.mem|)
    ensures Sound(s.(e := Pass(f, s.mem[Slot(f.head, |s.mem|)])))
  {
    var b := s.mem[Slot(f.head, |s.mem|)];
    PassFrame(f, b);
    WrapAdd(f.at, Increment(f.dir));
    if s.mode.PlayingForward? {
      MaskedTest(s.goal, f.at, |s.mem|);
    } else {
      MaskedTest(f.at, s.goal, |s.mem|);
    }
  }

  lemma RestSound(s: Sys, f: Engine, g: Engine)
    requires Sound(s.(e := f)) && SameIndices(f, g) && (g.dir == f.dir || g.dir.Parked?) && |f.log| <= |g.log|
    ensures Sound(s.(e := g))
  {
  }

  /** Induction over the passes of a tick, from a sound state: every engine met
      on the way leaves the system sound. */
  lemma TickKeepsSound(s: Sys, keep: Engine -> bool)
    requires Sound(s) && !s.mode.Stopped? && keep(s.e)
    requires forall f: Engine :: Sound(s.(e := f)) && keep(f) ==> keep(Restarted(f))
    requires forall f: Engine ::
               Sound(s.(e := f)) && keep(f) && !Idle(f, |s.mem|) ==> keep(Pass(f, s.mem[Slot(f.head, |s.mem|)]))
    requires forall f: Engine :: Sound(s.(e := f)) && keep(f) && Idle(f, |s.mem|) ==> keep(AllDone(f))
    ensures keep(Tick(s.e, s.mem)) && Sound(s.(e := Tick(s.e, s.mem)))
  {
    var both := (f: Engine) => Sound(s.(e := f)) && keep(f);
    forall f: Engine | both(f)
      ensures both(Restarted(f)) && (Idle(f, |s.mem|) ==> both(AllDone(f)))
      ensures !Idle(f, |s.mem|) ==> both(Pass(f, s.mem[Slot(f.head, |s.mem|)]))
    {
      RestFrame(f);
      RestSound(s, f, AllDone(f));
      RestSound(s, f, Restarted(f));
      if !Idle(f, |s.mem|) {
        PassSound(s, f);
      }
    }
    TickKeeps(s.e, s.mem, both);
  }

  lemma TickSound(s: Sys)
    requires Sound(s) && !s.mode.Stopped?
    ensures Sound(s.(e := Tick(s.e, s.mem)))
  {
    TickKeepsSound(s, _ => true);
  }

  lemma SyncSound(s: Sys)
    requires Sound(s)
    ensures Sound(s.(out := s.e.head, seen := s.e.at))
  {
    hide Resident;
  }

  lemma ClearSound(s: Sys)
    requires Sound(s) && s.owner.Free? && s.mode.Stopped?
    ensures Sound(ClearData(s)) && Sound(ClearPosition(s))
  {
  }

  lemma ClearEventSound(s: Sys, ev: Event)
    requires Sound(s) && ev.Clear?
    ensures Sound(Next(s, ev))
  {
    hide Sound, ClearPosition;
    if s.owner.Free? && s.mode.Stopped? {
      ClearSound(s);
      ClearSound(if ev.pulses then ClearData(s) else s);
    }
  }

  lemma RequestSound(s: Sys, ev: Event)
    requires Sound(s) && (ev.Ask? || ev.CommitRun?)
    ensures Sound(Next(s, ev))
  {
    hide Resident;
    if s.inn != s.e.head {
      assert s.e.at < |s.job|;
    }
  }

  lemma PlainSound(s: Sys, ev: Event)
    requires Sound(s) && (ev.WriteBegin? || ev.Sync? || ev.Drop? || ev.Stop? || ev.SetLock? || ev.Service?)
    ensures Sound(Next(s, ev))
  {
    hide Resident;
  }

  lemma NextSound(s: Sys, ev: Event)
    requires Sound(s)
    ensures Sound(Next(s, ev))
  {
    match ev
    case WriteEnd(data, copy, publishOk) => if s.owner.Writer? { EndWriteSound(s, data, copy, publishOk); }
    case PublishRun(backward, way, accelerate, decel) =>
      if s.asked && s.owner.Free? && s.mode.Stopped? { PublishStepSound(s, backward, way, accelerate, decel); }
    case TimerTick => if !s.mode.Stopped? { TickSound(s); }
    case Clear(_, _) => ClearEventSound(s, ev);
    case Ask(_) => RequestSound(s, ev);
    case CommitRun(_) => RequestSound(s, ev);
    case _ => PlainSound(s, ev);
  }

  lemma BootSound(mem: seq<bv8>, mapped: bool)
    requires RingSize(|mem|)
    ensures Sound(Boot(mem, mapped))
  {
  }

  /** Every reachable state is sound. */
  lemma {:induction false} RunSound(s: Sys, evs: seq<Event>)
    requires Sound(s)
    ensures Sound(Run(s, evs))
    decreases |evs|
  {
    if evs != [] {
      NextSound(s, evs[0]);
      RunSound(Next(s, evs[0]), evs[1..]);
    }
  }

  /** Induction over the events of a run: a predicate kept by each allowed event
      from sound states is kept by any sequence of them. */
  lemma {:induction false} RunKeeps(s: Sys, evs: seq<Event>, keep: Sys -> bool, allowed: Event -> bool)
    requires Sound(s) && keep(s)
    requires forall i :: 0 <= i < |evs| ==> allowed(evs[i])
    requires forall t: Sys, ev: Event :: Sound(t) && keep(t) && allowed(ev) ==> keep(Next(t, ev))
    ensures keep(Run(s, evs)) && Sound(Run(s, evs))
    decreases |evs|
  {
    if evs != [] {
      assert allowed(evs[0]);
      NextSound(s, evs[0]);
      RunKeeps(Next(s, evs[0]), evs[1..], keep, allowed);
    }
  }

  /** Events within one run: no new run is requested and nothing is cleared. */
  predicate Quiet(ev: Event) {
    !ev.PublishRun? && !ev.Clear?
  }

  /** And between runs, until one is published: what it does during one. */
  lemma HostAtRest(s: Sys, ev: Event)
    requires RingSize(|s.mem|) && s.mode.Stopped? && !s.owner.Runner? && Quiet(ev)
    ensures var t := Next(s, ev);
            && t.mode.Stopped? && !t.owner.Runner? && s.job <= t.job
            && t.e == s.e.(tail := t.e.tail, lock := t.e.lock, line := t.e.line)
            && t.e.lock == if ev.SetLock? then ev.mask & STEPS else s.e.lock
  {
    hide EndWrite;
    if ev.WriteEnd? {
      EndWriteFrame(s, ev.data, ev.copy, ev.publishOk);
    } else if !ev.TimerTick? {
      OtherEvents(s, ev);
    }
  }
}
