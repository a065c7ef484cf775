/** The ring with its engine (Playback) and the driver's lifecycle (Driver) as one
    machine: each act is one section of cnc.c under its locks, taken by both. */
module Joint {
  import opened Words
  import opened Backtrack
  import opened Engine
  import opened Playback
  import opened Fifo
  import opened Parking
  import opened Signalling
  import Ramp
  import D = Driver
  import L = Lifecycle
  import Protocol

  /** History of the current run: the index it was published at, its direction,
      the length the log had then, and the end of data once the engine ran into it. */
  datatype Course = Course(start: int, backward: bool, from: nat, end: int)

  datatype Joint = Joint(s: Sys, d: D.Driver, course: Course)

  datatype Act =
    | Host(ev: D.Event)
    | GiveUp
    | TestRing(headOk: bool)
    | PublishRegs(opts: D.Options)
    | Commit
    | Epit(level: bool)
    | Interrupt
    | OpenWrite(headOk: bool)
    | CloseWrite(data: seq<bv8>, copy: Copy, publishOk: bool)
    | FinishClear(pulses: bool, position: bool)
    | LockMotors(mask: bv32)
    | FetchHead(headOk: bool)

  /** The driver's events that are no part of another act. */
  predicate HostOnly(ev: D.Event) {
    && !ev.RunRefuse? && !ev.RunPublish? && !ev.RunCommit? && !ev.Callback? && !ev.EngineTick?
    && !ev.WriteBegin? && !ev.WriteEnd? && !ev.ClearEnd?
  }

  /** Loading the script and probing the driver. */
  function Load(mem: seq<bv8>, mapped: bool, live: set<nat>, ignored: set<nat>): Joint {
    Joint(Boot(mem, mapped), D.Probe(live, ignored), Course(0, false, 0, 0))
  }

  /** A driver that has left RUNNING no longer clocks the engine. */
  function Follow(s: Sys, d: D.Driver): (t: Sys)
    requires RingSize(|s.mem|)
    ensures |t.mem| == |s.mem|
  {
    if d.status.state.Running? then s else Next(s, Stop)
  }

  /** The tail reserved at the driver's current settings. */
  function Reserve(d: D.Driver): u32 {
    DecelSteps(Wrap(d.rate.stepFreq), Wrap(Ramp.RAMP_UPDATES_PER_SEC * d.rate.delta))
  }

  predicate Accepts(s: Sys, data: seq<bv8>, copy: Copy) {
    Avail(s) >= |data| + GAP && copy.Whole?
  }

  function Publishing(j: Joint, opts: D.Options, way: u32): (t: Joint)
    requires RingSize(|j.s.mem|)
    ensures |t.s.mem| == |j.s.mem|
  {
    var s := Next(j.s, PublishRun(opts.backward, way, opts.accelerate, Reserve(j.d)));
    if s.owner.Runner? then
      Joint(s, D.Next(j.d, D.RunPublish(opts.(numSteps := way), DeadStop(|j.s.mem|, j.s.inn, j.s.total))),
            Course(j.s.e.at, opts.backward, |j.s.e.log|, j.course.end))
    else Joint(s, D.Next(j.d, D.RunRefuse), j.course)
  }

  /** One timer tick, of a running timer: the engine's, as the driver sees it. */
  function Ticking(j: Joint, level: bool): (t: Joint)
    requires RingSize(|j.s.mem|)
    ensures |t.s.mem| == |j.s.mem|
  {
    var s := Next(j.s, TimerTick);
    var parks := !j.s.e.dir.Parked? && s.e.dir.Parked?;
    Joint(s, D.Next(j.d, D.EngineTick(Distance(j.s.e.at, s.e.at), parks, s.e.line, level)),
          if parks then j.course.(end := j.s.goal) else j.course)
  }

  function OpeningWrite(j: Joint, headOk: bool): (t: Joint)
    requires RingSize(|j.s.mem|)
    ensures |t.s.mem| == |j.s.mem|
  {
    var s := Next(j.s, WriteBegin(headOk));
    Joint(s, if s.owner.Writer? then D.Next(j.d, D.WriteBegin) else j.d, j.course)
  }

  /** One act; an act whose lock or state is not there changes nothing. */
  function Take(j: Joint, act: Act): (t: Joint)
    requires RingSize(|j.s.mem|)
    ensures |t.s.mem| == |j.s.mem|
  {
    match act
    case Host(ev) =>
      if !HostOnly(ev) then j else var d := D.Next(j.d, ev); Joint(Follow(j.s, d), d, j.course)
    case GiveUp => Joint(Next(j.s, Drop), D.Next(j.d, D.RunRefuse), j.course)
    case TestRing(headOk) =>
      if !j.d.run.Ready? then j
      else var s := Next(j.s, Ask(headOk)); Joint(s, if s.asked then j.d else D.Next(j.d, D.RunRefuse), j.course)
    case PublishRegs(opts) =>
      if j.s.asked && j.d.ring.owner.Free? && opts.numSteps < U32 then Publishing(j, opts, opts.numSteps) else j
    case Commit =>
      if !j.d.run.Published? then j
      else Joint(Next(j.s, CommitRun(D.MayCommit(j.d, j.d.run.seen))), D.Next(j.d, D.RunCommit), j.course)
    case Epit(level) => if j.d.rate.epit == 0 then j else Ticking(j, level)
    case Interrupt =>
      if !j.s.e.line then j
      else var d := D.Next(j.d, D.Callback); Joint(Follow(Next(j.s, Service), d), d, j.course)
    case OpenWrite(headOk) => if j.d.ring.owner.Free? then OpeningWrite(j, headOk) else j
    case CloseWrite(data, copy, publishOk) =>
      if !j.d.ring.owner.Writer? then j
      else
        var accepted := Accepts(j.s, data, copy);
        Joint(Next(j.s, WriteEnd(data, copy, publishOk)),
              D.Next(j.d, D.WriteEnd(if accepted then |data| else 0, accepted && publishOk)), j.course)
    case FinishClear(pulses, position) =>
      if !j.d.ring.owner.Clearer? then j
      else Joint(Next(j.s, Clear(pulses, position)), D.Next(j.d, D.ClearEnd(pulses)), j.course)
    case LockMotors(mask) => j.(s := Next(j.s, SetLock(mask)))
    case FetchHead(headOk) => j.(s := Next(j.s, Sync(headOk)))
  }

  function RunActs(j: Joint, acts: seq<Act>): (t: Joint)
    requires RingSize(|j.s.mem|)
    ensures |t.s.mem| == |j.s.mem|
    decreases |acts|
  {
    if acts == [] then j else RunActs(Take(j, acts[0]), acts[1..])
  }

  // ---- the two sides agree ----

  /** Each side's own invariants. */
  predicate Kept(s: Sys) {
    Sound(s) && MailboxTrue(s.e) && InOrder(s)
  }

  /** The driver runs exactly while the engine is clocked; both sides agree on the
      ring mutex, the request, the direction, the tail and the write index. */
  predicate InStep(s: Sys, d: D.Driver) {
    && (d.status.state.Running? <==> !s.mode.Stopped?)
    && (d.status.state.Running? ==> (d.status.runningBackward <==> s.mode.PlayingBackward?))
    && (d.ring.owner.Writer? <==> s.owner.Writer?) && (d.ring.owner.Runner? <==> s.owner.Runner?)
    && (s.owner.Runner? && d.run.Published? ==> (s.owner.backward <==> d.run.opts.backward))
    && (s.asked ==> d.run.Ready?)
    && d.ring.tail == s.e.tail && d.ring.inn == s.inn
  }

  /** What the driver reads of the engine. */
  predicate SameSignals(e: Engine, g: D.Signals) {
    g.way == e.way && g.parked == e.dir.Parked? && g.mailbox == e.mailbox && g.line == e.line
  }

  /** The index of byte `k` of the run. */
  function IndexOf(c: Course, k: int): int {
    if c.backward then c.start - k else c.start + k
  }

  /** The run has executed its first `n` bytes, in order and nothing else. */
  predicate Executing(e: Engine, c: Course, n: nat) {
    && e.at == IndexOf(c, n) && c.from <= |e.log|
    && Indices(e.log[c.from..]) == seq(n, k => IndexOf(c, k))
    && (!e.dir.Parked? ==> Increment(e.dir) == if c.backward then -1 else 1)
  }

  /** The end of data that was met lies under the head, or a ring away from it
      after a backward run. */
  predicate MetEnd(s: Sys, end: int) {
    Drained(s.(goal := end), s.e.at)
  }

  predicate OnCourseOf(s: Sys, ran: nat, c: Course) {
    !Engaged(s).Stopped? ==>
      && Executing(s.e, c, ran) && (c.backward <==> Engaged(s).PlayingBackward?)
      && (s.e.dir.Parked? && s.e.mapped ==> MetEnd(s, c.end))
  }

  predicate Agree(j: Joint) {
    && Kept(j.s) && L.Sound(j.d) && InStep(j.s, j.d) && SameSignals(j.s.e, j.d.sig)
    && OnCourseOf(j.s, j.d.sig.ran, j.course)
  }

  lemma KeptNext(s: Sys, ev: Event)
    requires Kept(s)
    ensures Kept(Next(s, ev))
  {
    hide Sound, InOrder, MailboxTrue, Next;
    assert RingSize(|s.mem|) by { KeptRing(s); }
    NextSound(s, ev);
    NextMailbox(s, ev);
    NextInOrder(s, ev);
  }

  lemma KeptRing(s: Sys)
    requires Kept(s)
    ensures RingSize(|s.mem|) && Placed(s) && Linked(s)
  {
  }

  /** What a driver event outside the other acts leaves alone. */
  lemma HostFrame(d: D.Driver, ev: D.Event)
    requires L.Sound(d) && HostOnly(ev)
    ensures var t := D.Next(d, ev);
            && t.sig == d.sig && t.ring == d.ring.(owner := t.ring.owner)
            && (t.ring.owner != d.ring.owner ==> d.ring.owner.Free? && t.ring.owner.Clearer?)
            && (t.status.state.Running?
               ==> d.status.state.Running? && t.status.runningBackward == d.status.runningBackward)
            && (d.run.Ready? ==> t.run == d.run) && (d.run.Published? ==> t.run == d.run)
  {
  }

  /** Following a driver that may have stopped. */
  lemma FollowKeeps(s: Sys, d: D.Driver, t: D.Driver, c: Course, ran: nat)
    requires Kept(s) && InStep(s, d) && OnCourseOf(s, ran, c)
    requires t.status.state.Running? ==> d.status.state.Running? && t.status.runningBackward == d.status.runningBackward
    requires t.ring == d.ring.(owner := t.ring.owner)
    requires t.ring.owner != d.ring.owner ==> d.ring.owner.Free? && t.ring.owner.Clearer?
    requires (d.run.Ready? ==> t.run == d.run) && (d.run.Published? ==> t.run == d.run)
             && (s.owner.Runner? ==> d.run.Published?)
    ensures Kept(Follow(s, t)) && InStep(Follow(s, t), t) && OnCourseOf(Follow(s, t), ran, c) && Follow(s, t).e == s.e
  {
    hide Kept, Executing;
    KeptRing(s);
    KeptNext(s, Stop);
  }

  lemma HostAgrees(j: Joint, ev: D.Event)
    requires Agree(j) && HostOnly(ev)
    ensures RingSize(|j.s.mem|) && Agree(Take(j, Host(ev)))
  {
    hide Kept, Executing, HostOnly, D.Next;
    KeptRing(j.s);
    HostFrame(j.d, ev);
    L.NextSound(j.d, ev);
    FollowKeeps(j.s, j.d, D.Next(j.d, ev), j.course, j.d.sig.ran);
  }

  /** A ring event that leaves the engine, the mode and the run alone. */
  lemma SameCourse(s: Sys, t: Sys, ran: nat, c: Course)
    requires OnCourseOf(s, ran, c) && Engaged(t) == Engaged(s) && t.retraced == s.retraced && |t.mem| == |s.mem|
    requires t.e.at == s.e.at && t.e.log == s.e.log && t.e.dir == s.e.dir && t.e.mapped == s.e.mapped
    ensures OnCourseOf(t, ran, c)
  {
  }

  lemma GiveUpAgrees(j: Joint)
    requires Agree(j)
    ensures RingSize(|j.s.mem|) && Agree(Take(j, GiveUp))
  {
    hide Kept, Executing;
    KeptRing(j.s);
    KeptNext(j.s, Drop);
    L.NextSound(j.d, D.RunRefuse);
    SameCourse(j.s, Next(j.s, Drop), j.d.sig.ran, j.course);
  }

  /** In a sound driver, who may be in which part of a run request. */
  lemma RequestPlaces(j: Joint)
    requires Agree(j)
    ensures j.d.run.Ready? || j.d.run.Published? ==> j.s.mode.Stopped? && !j.d.status.state.Running?
    ensures j.s.owner.Runner? <==> j.d.run.Published?
    ensures j.d.ring.owner.Free? || j.d.ring.owner.Clearer? ==> j.s.owner.Free?
    ensures j.d.ring.owner.Clearer? ==> j.s.mode.Stopped?
  {
    hide Kept, Executing;
  }

  lemma TestRingAgrees(j: Joint, headOk: bool)
    requires Agree(j)
    ensures RingSize(|j.s.mem|) && Agree(Take(j, TestRing(headOk)))
  {
    hide Kept, Executing;
    KeptRing(j.s);
    RequestPlaces(j);
    KeptNext(j.s, Ask(headOk));
    L.NextSound(j.d, D.RunRefuse);
    SameCourse(j.s, Next(j.s, Ask(headOk)), j.d.sig.ran, j.course);
  }

  lemma Published(s: Sys, backward: bool, way: u32, accelerate: bool, decel: u32)
    requires RingSize(|s.mem|) && s.asked && s.owner.Free? && s.mode.Stopped?
    ensures var t := Next(s, PublishRun(backward, way, accelerate, decel));
            && t.mode.Stopped? && t.inn == s.inn && |t.mem| == |s.mem| && !t.asked
            && (if t.owner.Runner? then
                  && t.owner.backward == backward && t.e.at == s.e.at && t.e.log == s.e.log && t.e.mapped == s.e.mapped
                  && t.e.dir == (if backward then Backward else Forward) && t.e.way == way && !t.e.mailbox
                     && t.e.line == s.e.line
                  && t.e.tail == (if backward then DeadStop(|s.mem|, s.inn, s.total) else s.inn)
                else t.owner.Free? && t.e == s.e && t.retraced == s.retraced)
  {
    hide MaxSteps, DeadStop;
  }

  lemma PublishAgrees(j: Joint, opts: D.Options)
    requires Agree(j)
    ensures RingSize(|j.s.mem|) && Agree(Take(j, PublishRegs(opts)))
  {
    hide Kept, D.PublishRun, Reserve, DeadStop, Next;
    KeptRing(j.s);
    RequestPlaces(j);
    if j.s.asked && j.d.ring.owner.Free? && opts.numSteps < U32 {
      var ev := PublishRun(opts.backward, opts.numSteps, opts.accelerate, Reserve(j.d));
      KeptNext(j.s, ev);
      Published(j.s, opts.backward, opts.numSteps, opts.accelerate, Reserve(j.d));
      L.NextSound(j.d, D.RunRefuse);
      L.NextSound(j.d, D.RunPublish(opts, DeadStop(|j.s.mem|, j.s.inn, j.s.total)));
      PublishSides(j, opts);
    }
  }

  lemma PublishSides(j: Joint, opts: D.Options)
    requires RingSize(|j.s.mem|) && InStep(j.s, j.d) && SameSignals(j.s.e, j.d.sig)
             && OnCourseOf(j.s, j.d.sig.ran, j.course)
    requires j.s.asked && j.d.ring.owner.Free? && opts.numSteps < U32 && j.s.owner.Free? && j.s.mode.Stopped?
             && j.d.run.Ready?
    ensures var t := Publishing(j, opts, opts.numSteps);
            InStep(t.s, t.d) && SameSignals(t.s.e, t.d.sig) && OnCourseOf(t.s, t.d.sig.ran, t.course)
  {
    hide Next, Reserve, DeadStop;
    Published(j.s, opts.backward, opts.numSteps, opts.accelerate, Reserve(j.d));
    assert j.s.e.log[|j.s.e.log|..] == [];
  }

  lemma CommitAgrees(j: Joint)
    requires Agree(j)
    ensures RingSize(|j.s.mem|) && Agree(Take(j, Commit))
  {
    hide Kept, Executing;
    KeptRing(j.s);
    RequestPlaces(j);
    if j.d.run.Published? {
      var ev := CommitRun(D.MayCommit(j.d, j.d.run.seen));
      KeptNext(j.s, ev);
      L.NextSound(j.d, D.RunCommit);
      CommitSides(j);
    }
  }

  lemma CommitSides(j: Joint)
    requires RingSize(|j.s.mem|) && InStep(j.s, j.d) && SameSignals(j.s.e, j.d.sig)
             && OnCourseOf(j.s, j.d.sig.ran, j.course)
    requires j.d.run.Published? && j.s.owner.Runner? && j.s.mode.Stopped? && !j.s.asked && !j.d.status.state.Running?
    ensures var t := Take(j, Commit);
            InStep(t.s, t.d) && SameSignals(t.s.e, t.d.sig) && OnCourseOf(t.s, t.d.sig.ran, t.course)
  {
    hide Executing;
  }

  lemma InterruptAgrees(j: Joint)
    requires Agree(j)
    ensures RingSize(|j.s.mem|) && Agree(Take(j, Interrupt))
  {
    hide Kept, Executing, D.Next;
    KeptRing(j.s);
    RequestPlaces(j);
    if j.s.e.line {
      var s, d := Next(j.s, Service), D.Next(j.d, D.Callback);
      KeptNext(j.s, Service);
      L.NextSound(j.d, D.Callback);
      CallbackFrame(j.d);
      SameCourse(j.s, s, j.d.sig.ran, j.course);
      FollowKeeps(s, j.d, d, j.course, j.d.sig.ran);
    }
  }

  lemma CallbackFrame(d: D.Driver)
    requires L.Sound(d) && d.sig.line
    ensures var t := D.Next(d, D.Callback);
            && t.sig == d.sig.(line := false) && t.ring == d.ring && t.run == d.run
            && (t.status.state.Running?
               ==> d.status.state.Running? && t.status.runningBackward == d.status.runningBackward)
  {
  }

  lemma OpenWriteAgrees(j: Joint, headOk: bool)
    requires Agree(j)
    ensures RingSize(|j.s.mem|) && Agree(Take(j, OpenWrite(headOk)))
  {
    hide Kept, Executing;
    KeptRing(j.s);
    RequestPlaces(j);
    if j.d.ring.owner.Free? {
      KeptNext(j.s, WriteBegin(headOk));
      L.NextSound(j.d, D.WriteBegin);
      SameCourse(j.s, Next(j.s, WriteBegin(headOk)), j.d.sig.ran, j.course);
    }
  }

  lemma WriteEnded(s: Sys, data: seq<bv8>, copy: Copy, publishOk: bool)
    requires RingSize(|s.mem|) && s.owner.Writer?
    ensures var t := Next(s, WriteEnd(data, copy, publishOk)); var accepted := Accepts(s, data, copy);
            && t.owner.Free? && t.mode == s.mode && t.asked == s.asked && t.retraced == s.retraced && |t.mem| == |s.mem|
            && t.inn == (if accepted then Wrap(s.inn + |data|) else s.inn)
            && t.e == s.e.(tail := if accepted && publishOk then t.inn else s.e.tail) && Engaged(t) == Engaged(s)
  {
  }

  lemma WriteEndedThere(d: D.Driver, count: nat, published: bool)
    requires d.ring.owner.Writer?
    ensures D.Next(d, D.WriteEnd(count, published)) == d.(ring := D.Next(d, D.WriteEnd(count, published)).ring)
    ensures D.Next(d, D.WriteEnd(count, published)).ring
         == D.Ring(if published then Wrap(d.ring.inn + count) else d.ring.tail, Wrap(d.ring.inn + count), D.Free)
    ensures count == 0 ==> Wrap(d.ring.inn + count) == d.ring.inn
  {
    WrapSmall(d.ring.inn);
  }

  lemma CloseWriteAgrees(j: Joint, data: seq<bv8>, copy: Copy, publishOk: bool)
    requires Agree(j)
    ensures RingSize(|j.s.mem|) && Agree(Take(j, CloseWrite(data, copy, publishOk)))
  {
    hide Kept, Executing, InStep, OnCourseOf, SameSignals, Next, Accepts;
    KeptRing(j.s);
    if j.d.ring.owner.Writer? {
      var accepted := Accepts(j.s, data, copy);
      KeptNext(j.s, WriteEnd(data, copy, publishOk));
      L.NextSound(j.d, D.WriteEnd(if accepted then |data| else 0, accepted && publishOk));
      CloseWriteSides(j, data, copy, publishOk);
    }
  }

  lemma CloseWriteSides(j: Joint, data: seq<bv8>, copy: Copy, publishOk: bool)
    requires RingSize(|j.s.mem|) && InStep(j.s, j.d) && SameSignals(j.s.e, j.d.sig)
             && OnCourseOf(j.s, j.d.sig.ran, j.course)
    requires j.d.ring.owner.Writer?
    ensures var t := Take(j, CloseWrite(data, copy, publishOk));
            InStep(t.s, t.d) && SameSignals(t.s.e, t.d.sig) && OnCourseOf(t.s, t.d.sig.ran, t.course)
  {
    hide Executing, Next, D.Next, Accepts, OnCourseOf, InStep;
    var accepted := Accepts(j.s, data, copy);
    var count := if accepted then |data| else 0;
    WriterHolds(j.s, j.d);
    WriteEnded(j.s, data, copy, publishOk);
    WriteEndedThere(j.d, count, accepted && publishOk);
    RingsMove(j.s, Next(j.s, WriteEnd(data, copy, publishOk)),
              j.d, D.Next(j.d, D.WriteEnd(count, accepted && publishOk)),
              if accepted then Wrap(j.s.inn + |data|) else j.s.inn, accepted && publishOk);
    SameCourse(j.s, Next(j.s, WriteEnd(data, copy, publishOk)), j.d.sig.ran, j.course);
  }

  lemma WriterHolds(s: Sys, d: D.Driver)
    requires InStep(s, d) && d.ring.owner.Writer?
    ensures s.owner.Writer? && d.ring.inn == s.inn && d.ring.tail == s.e.tail
  {
  }

  lemma RingsMove(s: Sys, t: Sys, d: D.Driver, u: D.Driver, inn: u32, published: bool)
    requires InStep(s, d) && s.owner.Writer? && t.owner.Free? && t.mode == s.mode && t.asked == s.asked
    requires t.inn == inn && t.e.tail == if published then inn else s.e.tail
    requires u == d.(ring := D.Ring(if published then inn else d.ring.tail, inn, D.Free))
    ensures InStep(t, u)
  {
  }

  lemma FinishClearAgrees(j: Joint, pulses: bool, position: bool)
    requires Agree(j)
    ensures RingSize(|j.s.mem|) && Agree(Take(j, FinishClear(pulses, position)))
  {
    hide Kept, InStep, OnCourseOf, SameSignals, Next;
    KeptRing(j.s);
    RequestPlaces(j);
    if j.d.ring.owner.Clearer? {
      KeptNext(j.s, Clear(pulses, position));
      L.NextSound(j.d, D.ClearEnd(pulses));
      FinishClearSides(j, pulses, position);
    }
  }

  lemma FinishClearSides(j: Joint, pulses: bool, position: bool)
    requires RingSize(|j.s.mem|) && InStep(j.s, j.d) && SameSignals(j.s.e, j.d.sig)
    requires j.d.ring.owner.Clearer? && j.s.owner.Free? && j.s.mode.Stopped?
    ensures var t := Take(j, FinishClear(pulses, position));
            InStep(t.s, t.d) && SameSignals(t.s.e, t.d.sig) && OnCourseOf(t.s, t.d.sig.ran, t.course)
  {
    hide Next, D.Next;
    Cleared(j.s, pulses, position);
    ClearedThere(j.d, pulses);
  }

  lemma Cleared(s: Sys, pulses: bool, position: bool)
    requires RingSize(|s.mem|) && s.owner.Free? && s.mode.Stopped?
    ensures var t := Next(s, Clear(pulses, position));
            && t.owner == s.owner && t.mode == s.mode && t.asked == s.asked
            && t.inn == (if pulses then 0 else s.inn) && t.e.tail == (if pulses then 0 else s.e.tail)
            && t.e.way == s.e.way && t.e.dir == s.e.dir && t.e.mailbox == s.e.mailbox && t.e.line == s.e.line
  {
  }

  lemma ClearedThere(d: D.Driver, pulses: bool)
    requires d.ring.owner.Clearer?
    ensures D.Next(d, D.ClearEnd(pulses))
         == d.(ring := if pulses then D.Ring(0, 0, D.Free) else d.ring.(owner := D.Free))
  {
  }

  lemma LockAgrees(j: Joint, mask: bv32)
    requires Agree(j)
    ensures RingSize(|j.s.mem|) && Agree(Take(j, LockMotors(mask)))
  {
    hide Kept, Executing;
    KeptRing(j.s);
    KeptNext(j.s, SetLock(mask));
    SameCourse(j.s, Next(j.s, SetLock(mask)), j.d.sig.ran, j.course);
  }

  lemma FetchAgrees(j: Joint, headOk: bool)
    requires Agree(j)
    ensures RingSize(|j.s.mem|) && Agree(Take(j, FetchHead(headOk)))
  {
    hide Kept, Executing;
    KeptRing(j.s);
    KeptNext(j.s, Sync(headOk));
    SameCourse(j.s, Next(j.s, Sync(headOk)), j.d.sig.ran, j.course);
  }

  /** How many bytes of the run lie behind an index. */
  function Gone(c: Course, at: int): int {
    if c.backward then c.start - at else at - c.start
  }

  predicate Going(e: Engine, c: Course, least: nat) {
    least <= Gone(c, e.at) && Executing(e, c, Gone(c, e.at))
  }

  lemma PassGoing(e: Engine, b: bv8, c: Course, least: nat)
    requires Going(e, c, least) && !e.dir.Parked?
    ensures Going(Pass(e, b), c, least)
  {
    hide Pass, Body, Indices;
    PassFrame(e, b);
    var x := PassLogs(e, b);
    RecentPush(e.log, c.from, x);
    BytesPush(e.log[c.from..], x);
    var n := Gone(c, e.at);
    assert seq(n + 1, k => IndexOf(c, k)) == seq(n, k => IndexOf(c, k)) + [e.at];
  }

  lemma RestGoing(e: Engine, c: Course, least: nat)
    requires Going(e, c, least)
    ensures Going(AllDone(e), c, least) && Going(Restarted(e), c, least)
  {
    hide Indices, Pulse.ParkWord;
    RestFrame(e);
    RecentPush(e.log, c.from, Park(Pulse.ParkWord(e.r3)));
    BytesPush(e.log[c.from..], Park(Pulse.ParkWord(e.r3)));
  }

  lemma TickGoing(e: Engine, mem: seq<bv8>, c: Course, least: nat)
    requires RingSize(|mem|) && Going(e, c, least)
    ensures Going(Tick(e, mem), c, least) && Tick(e, mem).mapped == e.mapped && Tick(e, mem).tail == e.tail
  {
    var keep := (f: Engine) => Going(f, c, least) && f.mapped == e.mapped && f.tail == e.tail;
    forall f: Engine | keep(f)
      ensures keep(AllDone(f)) && keep(Restarted(f))
      ensures !Idle(f, |mem|) ==> keep(Pass(f, mem[Slot(f.head, |mem|)]))
    {
      RestGoing(f, c, least);
      if !Idle(f, |mem|) {
        PassFrame(f, mem[Slot(f.head, |mem|)]);
        PassGoing(f, mem[Slot(f.head, |mem|)], c, least);
      }
    }
    TickKeeps(e, mem, keep);
  }

  lemma TickSignals(e: Engine, mem: seq<bv8>, g: D.Signals)
    requires RingSize(|mem|) && MailboxTrue(e) && SameSignals(e, g)
    ensures var f := Tick(e, mem); var count := Distance(e.at, f.at);
            && SameSignals(f, D.SignalTick(g, count, !e.dir.Parked? && f.dir.Parked?, f.line))
            && (e.dir.Parked? ==> f.at == e.at && f.dir.Parked?)
            && D.SignalTick(g, count, !e.dir.Parked? && f.dir.Parked?, f.line).ran == g.ran + count
  {
    hide Tick;
    var count, ended, again := TickIsASignalTick(e, mem, e.at);
  }

  lemma EpitAgrees(j: Joint, level: bool)
    requires Agree(j)
    ensures RingSize(|j.s.mem|) && Agree(Take(j, Epit(level)))
  {
    hide Kept, Executing;
    KeptRing(j.s);
    if j.d.rate.epit != 0 {
      KeptNext(j.s, TimerTick);
      EpitSides(j, level);
    }
  }

  /** A tick of a clocked engine, by the counters the driver keeps of it. */
  lemma TickOnCourse(s: Sys, ran: nat, c: Course)
    requires Kept(s) && OnCourseOf(s, ran, c) && !s.mode.Stopped?
    ensures RingSize(|s.mem|)
    ensures var e := Tick(s.e, s.mem); var parks := !s.e.dir.Parked? && e.dir.Parked?;
            && e.tail == s.e.tail
            && OnCourseOf(s.(e := e), ran + Distance(s.e.at, e.at), if parks then c.(end := s.goal) else c)
  {
    hide Tick, Executing, Linked, Resident, InOrder;
    assert RingSize(|s.mem|) by { KeptRing(s); }
    var e := Tick(s.e, s.mem);
    TickSignals(s.e, s.mem, D.Signals(s.e.way, s.e.dir.Parked?, s.e.mailbox, s.e.line, ran));
    StartsGoing(s.e, c, ran);
    TickGoing(s.e, s.mem, c, ran);
    EndsGoing(e, c, c.(end := s.goal));
    if !s.e.dir.Parked? && s.e.mapped {
      TickDrained(s);
    }
  }

  lemma EndsGoing(e: Engine, c: Course, d: Course)
    requires Going(e, c, 0) && d == c.(end := d.end)
    ensures Executing(e, c, Gone(c, e.at)) && Executing(e, d, Gone(c, e.at))
  {
    var n := Gone(c, e.at);
    assert seq(n, k => IndexOf(c, k)) == seq(n, k => IndexOf(d, k));
  }

  lemma EpitSides(j: Joint, level: bool)
    requires Agree(j) && RingSize(|j.s.mem|) && !j.s.mode.Stopped? && j.d.rate.epit != 0
    ensures var t := Ticking(j, level);
            L.Sound(t.d) && InStep(t.s, t.d) && SameSignals(t.s.e, t.d.sig) && OnCourseOf(t.s, t.d.sig.ran, t.course)
  {
    hide OnCourseOf, Tick, Sound, InOrder, MailboxTrue, L.Sound;
    var s, e := j.s, Tick(j.s.e, j.s.mem);
    var parks := !s.e.dir.Parked? && e.dir.Parked?;
    L.NextSound(j.d, D.EngineTick(Distance(s.e.at, e.at), parks, e.line, level));
    assert MailboxTrue(s.e) by { assert Kept(s); }
    TickSignals(s.e, s.mem, j.d.sig);
    TickOnCourse(s, j.d.sig.ran, j.course);
  }

  lemma StartsGoing(e: Engine, c: Course, ran: nat)
    requires Executing(e, c, ran)
    ensures Gone(c, e.at) == ran && Going(e, c, ran)
  {
  }

  lemma StepAgrees(j: Joint, act: Act)
    requires Agree(j)
    ensures RingSize(|j.s.mem|) && Agree(Take(j, act))
  {
    hide Agree;
    match act
    case Host(ev) =>
      if HostOnly(ev) { HostAgrees(j, ev); } else { assert RingSize(|j.s.mem|) by { AgreeRing(j); } }
    case GiveUp => GiveUpAgrees(j);
    case TestRing(headOk) => TestRingAgrees(j, headOk);
    case PublishRegs(opts) => PublishAgrees(j, opts);
    case Commit => CommitAgrees(j);
    case Epit(level) => EpitAgrees(j, level);
    case Interrupt => InterruptAgrees(j);
    case OpenWrite(headOk) => OpenWriteAgrees(j, headOk);
    case CloseWrite(data, copy, publishOk) => CloseWriteAgrees(j, data, copy, publishOk);
    case FinishClear(pulses, position) => FinishClearAgrees(j, pulses, position);
    case LockMotors(mask) => LockAgrees(j, mask);
    case FetchHead(headOk) => FetchAgrees(j, headOk);
  }

  lemma AgreeRing(j: Joint)
    requires Agree(j)
    ensures RingSize(|j.s.mem|)
  {
    KeptRing(j.s);
  }

  lemma LoadAgrees(mem: seq<bv8>, mapped: bool, live: set<nat>, ignored: set<nat>)
    requires RingSize(|mem|)
    ensures Agree(Load(mem, mapped, live, ignored))
  {
    BootSound(mem, mapped);
    L.ProbeSound(live, ignored);
    assert InOrder(Boot(mem, mapped));
  }

  /** The simulation: from loading and probing on, whatever the interleaving of
      requests, writes, clears, settings, faults, callbacks, ramp fires and ticks,
      driver and engine agree. */
  lemma {:induction false} RunAgrees(j: Joint, acts: seq<Act>)
    requires Agree(j)
    ensures RingSize(|j.s.mem|) && Agree(RunActs(j, acts))
    decreases |acts|
  {
    hide Agree;
    AgreeRing(j);
    if acts != [] {
      StepAgrees(j, acts[0]);
      RunAgrees(Take(j, acts[0]), acts[1..]);
    }
  }

  // ---- what follows ----

  /** The indices of the bytes the current run has executed. */
  function Ran(j: Joint): seq<int>
    requires j.course.from <= |j.s.e.log|
  {
    Indices(j.s.e.log[j.course.from..])
  }

  lemma RanCounts(j: Joint)
    requires Agree(j) && j.d.status.state.Running?
    ensures j.course.from <= |j.s.e.log|
    ensures Ran(j) == seq(j.d.sig.ran, k => IndexOf(j.course, k)) && j.s.e.at == IndexOf(j.course, |Ran(j)|)
    ensures |Ran(j)| == j.d.sig.ran
    ensures j.s.e.dir.Parked? && j.s.e.mapped ==> MetEnd(j.s, j.course.end)
    ensures !j.s.retraced
            ==> 0 <= j.s.e.at <= |j.s.job| && j.s.cleared <= |j.s.e.log| && Bytes(Recent(j.s)) == j.s.job[..j.s.e.at]
  {
  }

  /** The callback ends a run exactly when the engine has parked, and the engine has
      parked only at the published end of the data: the run has executed the indices
      from its start to there, one after the other; without a backward run since the
      last clear that is every byte of the job up to the end, once and in order. */
  lemma RunsEndAtTheirEnd(mem: seq<bv8>, mapped: bool, live: set<nat>, ignored: set<nat>, acts: seq<Act>)
    requires RingSize(|mem|)
    ensures var j := RunActs(Load(mem, mapped, live, ignored), acts); var t := Take(j, Interrupt);
            j.d.status.state.Running? && j.s.e.line ==>
              && (t.d.status.state.Running? <==> !j.s.e.dir.Parked?)
              && j.course.from <= |j.s.e.log| && j.s.e.at == IndexOf(j.course, |Ran(j)|)
              && Ran(j) == seq(|Ran(j)|, k => IndexOf(j.course, k))
              && (!t.d.status.state.Running? && j.s.e.mapped ==>
                    && MetEnd(j.s, j.course.end)
                    && (!j.s.retraced ==> 0 <= j.course.end <= |j.s.job| && j.s.cleared <= |j.s.e.log|
                                          && Bytes(Recent(j.s)) == j.s.job[..j.course.end]))
  {
    var j := RunActs(Load(mem, mapped, live, ignored), acts);
    LoadAgrees(mem, mapped, live, ignored);
    RunAgrees(Load(mem, mapped, live, ignored), acts);
    if j.d.status.state.Running? && j.s.e.line {
      hide Agree, InStep, Kept, OnCourseOf, RunActs, L.Sound, D.Next;
      RanCounts(j);
      AgreeParts(j);
      Protocol.CallbackTellsTheSignalsApart(j.d);
    }
  }

  lemma AgreeParts(j: Joint)
    requires Agree(j)
    ensures L.Sound(j.d) && SameSignals(j.s.e, j.d.sig)
  {
  }

  /** On a run not committed over an older interrupt, an interrupt starts the
      waypoint deceleration exactly when one was asked for, the data has not run out
      and the log holds the waypoint byte, the run's byte number `plan`. */
  lemma DeceleratesIffWaypointExecuted(mem: seq<bv8>, mapped: bool, live: set<nat>, ignored: set<nat>, acts: seq<Act>)
    requires RingSize(|mem|)
    ensures var j := RunActs(Load(mem, mapped, live, ignored), acts); var t := Take(j, Interrupt);
            var plan := j.d.past.plan;
            j.d.status.state.Running? && !j.d.status.decelerating && !j.d.past.stale ==>
              && j.course.from <= |j.s.e.log|
              && (t.d.status.decelerating <==>
                    j.d.status.decelOnInterrupt && !j.s.e.dir.Parked? && IndexOf(j.course, plan - 1) in Ran(j))
              && (t.d.status.decelerating ==> 0 < plan <= |Ran(j)| && Ran(j)[plan - 1] == IndexOf(j.course, plan - 1))
  {
    var j := RunActs(Load(mem, mapped, live, ignored), acts);
    LoadAgrees(mem, mapped, live, ignored);
    RunAgrees(Load(mem, mapped, live, ignored), acts);
    if j.d.status.state.Running? && !j.d.status.decelerating && !j.d.past.stale {
      hide Agree, InStep, Kept, OnCourseOf, RunActs;
      RanCounts(j);
      AgreeParts(j);
      WaypointInRan(j);
      InterruptDecelerates(j.d);
    }
  }

  lemma WaypointInRan(j: Joint)
    requires Agree(j) && j.d.status.state.Running?
    ensures j.course.from <= |j.s.e.log|
    ensures j.d.past.plan > 0 ==> (IndexOf(j.course, j.d.past.plan - 1) in Ran(j) <==> j.d.past.plan <= j.d.sig.ran)
  {
    hide Agree;
    RanCounts(j);
    var plan := j.d.past.plan;
    if 0 < plan <= j.d.sig.ran {
      assert Ran(j)[plan - 1] == IndexOf(j.course, plan - 1);
    }
  }

  lemma InterruptDecelerates(d: D.Driver)
    requires L.Sound(d) && d.status.state.Running? && !d.status.decelerating && !d.past.stale
    ensures d.status.decelOnInterrupt ==> d.past.plan > 0
    ensures var t := if d.sig.line then D.Next(d, D.Callback) else d;
            && (t.status.decelerating <==> d.status.decelOnInterrupt && !d.sig.parked && d.past.plan <= d.sig.ran)
  {
  }
}
