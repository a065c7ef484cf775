/** An interrupt left over from one run at the commit of the next, through ring, engine
    and driver together. */
module Pending {
  import opened Words
  import opened Backtrack
  import opened Engine
  import opened Playback
  import opened Joint
  import D = Driver
  import L = Lifecycle

  lemma {:induction false} ActsAppend(j: Joint, a: seq<Act>, b: seq<Act>)
    requires RingSize(|j.s.mem|)
    ensures RunActs(j, a + b) == RunActs(RunActs(j, a), b)
    decreases |a|
  {
    if a == [] {
      assert a + b == b;
    } else {
      assert (a + b)[1..] == a[1..] + b;
      ActsAppend(Take(j, a[0]), a[1..], b);
    }
  }

  lemma OneAct(j: Joint, act: Act)
    requires RingSize(|j.s.mem|)
    ensures RunActs(j, [act]) == Take(j, act)
  {
    hide Take;
    assert [act][1..] == [];
    assert RunActs(Take(j, act), []) == Take(j, act);
  }

  /** A first act, and the rest. */
  lemma ActFirst(j: Joint, act: Act, rest: seq<Act>)
    requires RingSize(|j.s.mem|)
    ensures RunActs(j, [act] + rest) == RunActs(Take(j, act), rest)
  {
    hide Take;
    assert ([act] + rest)[1..] == rest;
  }

  /** A run request with nothing in between. */
  function Request(opts: D.Options): seq<Act> {
    [Host(D.RunCheck)] + ([Host(D.RunSnapshot)] + ([TestRing(true)] + ([PublishRegs(opts)] + [Commit])))
  }

  lemma RequestActs(j: Joint, opts: D.Options)
    requires RingSize(|j.s.mem|)
    ensures RunActs(j, Request(opts))
         == Take(Take(Take(Take(Take(j, Host(D.RunCheck)), Host(D.RunSnapshot)), TestRing(true)), PublishRegs(opts)),
             Commit)
  {
    hide Take;
    var a, b := Take(j, Host(D.RunCheck)), Take(Take(j, Host(D.RunCheck)), Host(D.RunSnapshot));
    var c := Take(b, TestRing(true));
    ActFirst(j, Host(D.RunCheck), [Host(D.RunSnapshot)] + ([TestRing(true)] + ([PublishRegs(opts)] + [Commit])));
    ActFirst(a, Host(D.RunSnapshot), [TestRing(true)] + ([PublishRegs(opts)] + [Commit]));
    ActFirst(b, TestRing(true), [PublishRegs(opts)] + [Commit]);
    ActFirst(c, PublishRegs(opts), [Commit]);
    OneAct(Take(c, PublishRegs(opts)), Commit);
  }

  /** A driver that takes run requests, over a ring with data in it. */
  predicate Requestable(j: Joint) {
    && Agree(j) && j.d.status.state.Idle? && j.d.run.NoRequest? && j.d.ring.owner.Free? && j.s.inn != j.s.e.head
  }

  predicate Allowed(j: Joint, opts: D.Options) {
    && RingSize(|j.s.mem|) && opts.numSteps < U32
    && (opts.backward ==> 0 < opts.numSteps <= MaxSteps(|j.s.mem|, Wrap(j.s.inn - j.s.e.head), j.s.total, Reserve(j.d)))
  }

  /** What a request leaves as it was. */
  predicate SameGround(j: Joint, t: Joint) {
    && t.s.mem == j.s.mem && t.s.inn == j.s.inn && t.s.total == j.s.total && t.s.job == j.s.job
       && t.s.cleared == j.s.cleared
    && t.s.e.head == j.s.e.head && t.s.e.at == j.s.e.at && t.s.e.log == j.s.e.log && t.s.e.mapped == j.s.e.mapped
    && t.s.e.line == j.s.e.line && t.s.e.resume == j.s.e.resume
    && t.d.rate.stepFreq == j.d.rate.stepFreq && t.d.rate.delta == j.d.rate.delta && t.d.sig.line == j.d.sig.line
  }

  lemma AskedAndSeen(j: Joint)
    requires Requestable(j)
    ensures RingSize(|j.s.mem|)
    ensures var t := Take(Take(Take(j, Host(D.RunCheck)), Host(D.RunSnapshot)), TestRing(true));
            && SameGround(j, t) && t.s.asked && t.s.owner.Free? && t.s.mode.Stopped? && t.s.retraced == j.s.retraced
            && t.d == j.d.(run := D.Ready(j.d.generation), past := t.d.past)
  {
    hide Kept, OnCourseOf, L.Sound;
    AgreeRing(j);
    RequestPlaces(j);
  }

  /** A request within the allowance on a ring with data is committed. */
  lemma RequestCommits(j: Joint, opts: D.Options)
    requires Requestable(j) && Allowed(j, opts)
    ensures RingSize(|j.s.mem|)
    ensures var t := RunActs(j, Request(opts));
            && Agree(t) && SameGround(j, t) && t.d.status.state.Running? && t.d.run.NoRequest? && t.d.ring.owner.Free?
            && t.s.owner.Free? && !t.s.e.dir.Parked? && !t.s.e.mailbox && t.s.e.way == opts.numSteps
            && t.s.mode == (if opts.backward then PlayingBackward else PlayingForward)
            && t.d.sig.ran == 0 && t.d.past.plan == opts.numSteps
            && (t.d.status.decelOnInterrupt <==> opts.decelerate && opts.numSteps > 0)
            && (t.d.status.waypointArmed <==> opts.numSteps > 0) && !t.d.status.decelerating
            && (t.s.retraced <==> j.s.retraced || opts.backward) && (!opts.backward ==> t.s.goal == |j.s.job|)
  {
    hide Agree, Take;
    AgreeRing(j);
    RunAgrees(j, Request(opts));
    RequestActs(j, opts);
    AskedAndSeen(j);
    var a := Take(Take(Take(j, Host(D.RunCheck)), Host(D.RunSnapshot)), TestRing(true));
    PublishesFrom(j, a, opts);
    CommitsFrom(j, Take(a, PublishRegs(opts)), opts);
  }

  /** The request with its registers published. */
  predicate PublishedOver(j: Joint, p: Joint, opts: D.Options) {
    && SameGround(j, p) && p.s.owner == Runner(opts.backward) && p.s.mode.Stopped? && p.s.retraced == j.s.retraced
    && (!opts.backward ==> p.s.goal == |j.s.job|)
    && !p.s.e.dir.Parked? && !p.s.e.mailbox && p.s.e.way == opts.numSteps
    && p.d == j.d.(run := D.Published(j.d.generation, opts), ring := p.d.ring, sig := p.d.sig, past := p.d.past)
    && p.d.sig == D.Signals(opts.numSteps, false, false, j.d.sig.line, 0)
  }

  lemma PublishesFrom(j: Joint, a: Joint, opts: D.Options)
    requires Requestable(j) && Allowed(j, opts) && RingSize(|j.s.mem|) && SameGround(j, a)
    requires a.s.asked && a.s.owner.Free? && a.s.mode.Stopped? && a.s.retraced == j.s.retraced
    requires a.d == j.d.(run := D.Ready(j.d.generation), past := a.d.past)
    ensures PublishedOver(j, Take(a, PublishRegs(opts)), opts)
  {
    hide Agree, MaxSteps, DeadStop, Reserve;
    SameReserve(a.d, j.d);
  }

  lemma CommitsFrom(j: Joint, p: Joint, opts: D.Options)
    requires Requestable(j) && RingSize(|p.s.mem|) && PublishedOver(j, p, opts)
    ensures var t := Take(p, Commit);
            && SameGround(j, t) && t.d.status.state.Running? && t.d.run.NoRequest? && t.d.ring.owner.Free?
            && t.s.owner.Free? && !t.s.e.dir.Parked? && !t.s.e.mailbox && t.s.e.way == opts.numSteps
            && t.s.mode == (if opts.backward then PlayingBackward else PlayingForward)
            && t.d.sig.ran == 0 && t.d.past.plan == opts.numSteps
            && (t.d.status.decelOnInterrupt <==> opts.decelerate && opts.numSteps > 0)
            && (t.d.status.waypointArmed <==> opts.numSteps > 0) && !t.d.status.decelerating
            && (t.s.retraced <==> j.s.retraced || opts.backward) && (!opts.backward ==> t.s.goal == |j.s.job|)
  {
    hide Kept, OnCourseOf, InStep, SameSignals;
    IdleIsClean(j.d);
  }

  lemma IdleIsClean(d: D.Driver)
    requires L.Sound(d) && d.status.state.Idle?
    ensures d.status.faults == {} && !d.status.decelerating && !d.status.accelerating
  {
  }

  lemma SameReserve(a: D.Driver, b: D.Driver)
    requires a.rate.stepFreq == b.rate.stepFreq && a.rate.delta == b.rate.delta
    ensures Reserve(a) == Reserve(b)
  {
  }

  /** A halt before the waypoint's interrupt is served leaves it pending. */
  lemma HaltLeavesInterrupt(j: Joint)
    requires Agree(j) && j.d.status.state.Running? && j.d.ring.owner.Free? && j.s.inn != j.s.e.head
    ensures RingSize(|j.s.mem|)
    ensures var t := Take(j, Host(D.Halt(false))); Requestable(t) && SameGround(j, t)
  {
    hide Kept, OnCourseOf, InStep, L.Sound;
    AgreeRing(j);
    HostAgrees(j, D.Halt(false));
    NoRequestRunning(j.d);
  }

  lemma NoRequestRunning(d: D.Driver)
    requires L.Sound(d) && d.status.state.Running?
    ensures d.run.NoRequest?
  {
  }

  /** Served at once, a left-over interrupt is taken for the new run's waypoint. */
  lemma ServedAtOnce(j: Joint)
    requires Agree(j) && j.d.status.state.Running? && j.s.e.line && !j.s.e.mailbox && j.d.status.waypointArmed
    requires j.d.status.decelOnInterrupt && !j.d.status.decelerating
    ensures RingSize(|j.s.mem|)
    ensures var t := Take(j, Interrupt);
            t.d.status.decelerating && t.d.status.state.Running? && t.d.sig.ran == j.d.sig.ran && t.s.e.log == j.s.e.log
            && t.d.past.plan == j.d.past.plan
  {
    hide Kept, OnCourseOf, InStep, L.Sound;
    AgreeRing(j);
  }

  /** A waypoint halted before its interrupt is served, and a backtrack. */
  function HaltAndBacktrack(way: nat): seq<Act> {
    [Host(D.Halt(false))] + (Request(D.Options(way, true, true, true)) + [Interrupt])
  }

  /** From any state with a run halted at its unserved waypoint, whatever led there: the
      next backtrack that the allowance admits decelerates with no byte executed. */
  lemma PendingInterruptDeceleratesNext(j: Joint, way: nat)
    requires Agree(j) && j.d.status.state.Running? && j.d.ring.owner.Free? && j.s.inn != j.s.e.head && j.s.e.line
    requires 0 < way <= MaxSteps(|j.s.mem|, Wrap(j.s.inn - j.s.e.head), j.s.total, Reserve(j.d))
    ensures RingSize(|j.s.mem|)
    ensures var t := RunActs(j, HaltAndBacktrack(way));
            && t.d.status.decelerating && t.d.status.state.Running? && t.d.sig.ran == 0 && t.s.e.log == j.s.e.log
            && t.d.past.plan == way
  {
    hide Agree, Take, MaxSteps, Reserve;
    AgreeRing(j);
    var opts := D.Options(way, true, true, true);
    var h := Take(j, Host(D.Halt(false)));
    HaltLeavesInterrupt(j);
    SameReserve(h.d, j.d);
    RequestCommits(h, opts);
    var r := RunActs(h, Request(opts));
    ServedAtOnce(r);
    ActFirst(j, Host(D.Halt(false)), Request(opts) + [Interrupt]);
    ActsAppend(h, Request(opts), [Interrupt]);
    OneAct(r, Interrupt);
  }

  // ---- and such a state is reachable ----

  /** Enable, the slowest speed and the steepest ramp, and a job of three bytes. */
  function SetUp(): seq<Act> {
    [Host(D.EnableBegin({}))] + ([Host(D.EnableCommit)] + ([Host(D.SetStepFrequency(1000))]
      + ([Host(D.SetRampRate(500000))] + ([OpenWrite(true)] + [CloseWrite([0, 0, 0], Whole, true)]))))
  }

  /** An act of the host alone, on a driver that does not run before or after it. */
  lemma HostAlone(j: Joint, ev: D.Event)
    requires RingSize(|j.s.mem|) && HostOnly(ev) && j.s.mode.Stopped? && !D.Next(j.d, ev).status.state.Running?
    ensures Take(j, Host(ev)) == j.(d := D.Next(j.d, ev))
  {
    hide D.Next;
  }

  function Enabled(): D.Driver {
    D.Next(D.Next(D.Next(D.Next(D.Probe({}, {}), D.EnableBegin({})), D.EnableCommit), D.SetStepFrequency(1000)),
        D.SetRampRate(500000))
  }

  lemma EnabledIsIdle()
    ensures var d := Enabled();
            && d.status.state.Idle? && d.run.NoRequest? && d.ring == D.Ring(0, 0, D.Free) && d.rate.stepFreq == 1000
            && d.rate.delta == 5000 && !d.status.runningBackward
    ensures var e := D.Next(D.Probe({}, {}), D.EnableBegin({}));
            && !e.status.state.Running? && !D.Next(e, D.EnableCommit).status.state.Running?
            && !D.Next(D.Next(e, D.EnableCommit), D.SetStepFrequency(1000)).status.state.Running?
  {
  }

  lemma HostSetsUp(j: Joint, rest: seq<Act>)
    requires RingSize(|j.s.mem|) && j.s.mode.Stopped? && j.d == D.Probe({}, {})
    ensures RunActs(j, [Host(D.EnableBegin({}))] + ([Host(D.EnableCommit)] + ([Host(D.SetStepFrequency(1000))]
                         + ([Host(D.SetRampRate(500000))] + rest)))) == RunActs(j.(d := Enabled()), rest)
  {
    hide Take, D.Next, D.Probe;
    var a := D.EnableBegin({});
    var e := D.Next(j.d, a);
    var i := D.Next(e, D.EnableCommit);
    var f := D.Next(i, D.SetStepFrequency(1000));
    EnabledIsIdle();
    HostAlone(j, a);
    HostAlone(j.(d := e), D.EnableCommit);
    HostAlone(j.(d := i), D.SetStepFrequency(1000));
    HostAlone(j.(d := f), D.SetRampRate(500000));
    ActFirst(j, Host(a),
        [Host(D.EnableCommit)] + ([Host(D.SetStepFrequency(1000))] + ([Host(D.SetRampRate(500000))] + rest)));
    ActFirst(j.(d := e), Host(D.EnableCommit),
        [Host(D.SetStepFrequency(1000))] + ([Host(D.SetRampRate(500000))] + rest));
    ActFirst(j.(d := i), Host(D.SetStepFrequency(1000)), [Host(D.SetRampRate(500000))] + rest);
    ActFirst(j.(d := f), Host(D.SetRampRate(500000)), rest);
  }

  /** Three zero bytes accepted, and `n` of them played. */
  predicate Holds(j: Joint, n: int) {
    && RingSize(|j.s.mem|) && j.s.job == [0, 0, 0] && j.s.inn == 3 && j.s.total == 3 && !j.s.retraced && j.s.e.mapped
    && j.s.e.at == n && 0 <= n <= 3 && j.s.e.head == n
    && j.d.rate.stepFreq == 1000 && j.d.rate.delta == 5000 && j.d.ring.owner.Free? && j.s.owner.Free?
  }

  lemma OpensWrite(mem: seq<bv8>, c: Course)
    requires RingSize(|mem|)
    ensures Take(Joint(Boot(mem, true), Enabled(), c), OpenWrite(true))
         == Joint(Boot(mem, true).(owner := Writer), Enabled().(ring := D.Ring(0, 0, D.Writer)), c)
  {
    hide Enabled;
    EnabledIsIdle();
  }

  lemma QueuesThree(s: Sys)
    requires RingSize(|s.mem|) && s.inn == 0 && s.out == 0
    ensures EndWrite(s, [0, 0, 0], Whole, true)
         == s.(owner := Free, mem := Splice(s.mem, 0, [0, 0, 0]), inn := 3, total := s.total + 3,
             job := s.job + [0, 0, 0],
               mark := Max(s.mark, |s.job| + 3), e := s.e.(tail := 3), goal := |s.job| + 3)
  {
    hide Splice, Max;
  }

  /** A ring with nothing in it, and a writer that has read the head. */
  predicate Blank(s: Sys) {
    && RingSize(|s.mem|) && s.owner.Writer? && s.inn == 0 && s.out == 0 && s.total == 0 && s.job == [] && !s.retraced
    && s.e.mapped && s.e.at == 0 && s.e.head == 0 && !s.e.line && s.e.resume.AtStart?
  }

  lemma WriteThree(w: Joint)
    requires Blank(w.s) && w.d == Enabled().(ring := D.Ring(0, 0, D.Writer))
    ensures var t := Take(w, CloseWrite([0, 0, 0], Whole, true));
            Holds(t, 0) && t.d.status.state.Idle? && t.d.run.NoRequest? && !t.s.e.line && t.s.e.resume.AtStart?
  {
    hide Splice, Enabled, EndWrite, Accepts, D.Next, Wrap;
    EnabledIsIdle();
    QueuesThree(w.s);
    var accepted := Accepts(w.s, [0, 0, 0], Whole);
    WriteEndedThere(w.d, if accepted then 3 else 0, accepted && true);
    assert [] + [0 as bv8, 0, 0] == [0, 0, 0];
  }

  lemma SetsUp(mem: seq<bv8>)
    requires RingSize(|mem|)
    ensures var t := RunActs(Load(mem, true, {}, {}), SetUp());
            Requestable(t) && Holds(t, 0) && !t.s.e.line && t.s.e.resume.AtStart?
  {
    hide Take, Agree, Enabled, Boot;
    var j := Load(mem, true, {}, {});
    LoadAgrees(mem, true, {}, {});
    RunAgrees(j, SetUp());
    BootBlank(mem);
    HostSetsUp(j, [OpenWrite(true)] + [CloseWrite([0, 0, 0], Whole, true)]);
    var k := j.(d := Enabled());
    ActFirst(k, OpenWrite(true), [CloseWrite([0, 0, 0], Whole, true)]);
    OneAct(Take(k, OpenWrite(true)), CloseWrite([0, 0, 0], Whole, true));
    OpensWrite(mem, j.course);
    WriteThree(Take(k, OpenWrite(true)));
  }

  lemma BootBlank(mem: seq<bv8>)
    requires RingSize(|mem|)
    ensures Boot(mem, true).mode.Stopped? && Blank(Boot(mem, true).(owner := Writer))
  {
  }

  /** A resume over the three bytes, `n` of them played and its waypoint the second. */
  predicate Resumed(j: Joint, n: int) {
    && Agree(j) && Holds(j, n) && j.d.status.state.Running? && j.s.mode.PlayingForward? && j.s.goal == 3
    && !j.s.e.dir.Parked? && j.s.e.resume.AtLoop? && j.s.e.way == (if n < 2 then 2 - n else 0)
       && (n >= 2 ==> j.s.e.line)
  }

  lemma PlaysOne(e: Engine, mem: seq<bv8>)
    requires RingSize(|mem|) && e.resume.AtLoop? && !Idle(e, |mem|) && mem[Slot(e.head, |mem|)] == 0
    ensures Tick(e, mem) == Pass(e, 0)
  {
    hide Pass;
  }

  lemma TickDrives(j: Joint)
    requires Agree(j) && j.d.status.state.Running?
    ensures RingSize(|j.s.mem|) && j.d.rate.epit > 0
    ensures var t := Take(j, Epit(false));
            && Agree(t) && t.s == j.s.(e := Tick(j.s.e, j.s.mem))
            && t.d.status == j.d.status && t.d.rate == j.d.rate && t.d.ring == j.d.ring && t.d.run == j.d.run
  {
    hide Kept, OnCourseOf, Tick, SameSignals;
    AgreeRing(j);
    EpitAgrees(j, false);
    assert !j.s.mode.Stopped?;
  }

  lemma ThirdUnderHead(s: Sys, n: int)
    requires Sound(s) && s.mode.PlayingForward? && s.job == [0, 0, 0] && s.e.at == n && 0 <= n < 3 && s.goal == 3
             && !s.retraced
    requires s.e.mapped && !s.e.dir.Parked?
    ensures !Idle(s.e, |s.mem|) && s.mem[Slot(s.e.head, |s.mem|)] == 0 && s.e.dir.Forward?
  {
    MaskedTest(3, n, |s.mem|);
    SlotOfWrap(n, |s.mem|);
  }

  lemma PlaysNext(j: Joint, n: int)
    requires Resumed(j, n) && n < 2
    ensures Resumed(Take(j, Epit(false)), n + 1)
  {
    hide Agree, Take, Sound, Pass, Body, Tick;
    AgreeRing(j);
    TickDrives(j);
    assert Sound(j.s) by { AgreeSound(j); }
    ThirdUnderHead(j.s, n);
    PlaysOne(j.s.e, j.s.mem);
    PassFrame(j.s.e, 0);
    WrapSmall(n + 1);
  }

  lemma AgreeSound(j: Joint)
    requires Agree(j)
    ensures Sound(j.s)
  {
  }

  /** The resume of the witness, up to its waypoint. */
  function ResumeToWaypoint(): seq<Act> {
    Request(D.Options(2, false, true, false)) + ([Epit(false)] + ([Epit(false)] + [Epit(false)]))
  }

  lemma ComesToWaypoint(j: Joint)
    requires Requestable(j) && Holds(j, 0) && j.s.e.resume.AtStart? && !j.s.e.line
    ensures Resumed(RunActs(j, ResumeToWaypoint()), 2)
  {
    hide Agree, Take, MaxSteps, Reserve;
    var opts := D.Options(2, false, true, false);
    AgreeRing(j);
    RequestCommits(j, opts);
    var r := RunActs(j, Request(opts));
    TickDrives(r);
    var a := Take(r, Epit(false));
    PlaysNext(a, 0);
    PlaysNext(Take(a, Epit(false)), 1);
    ActsAppend(j, Request(opts), [Epit(false)] + ([Epit(false)] + [Epit(false)]));
    ActFirst(r, Epit(false), [Epit(false)] + [Epit(false)]);
    ActFirst(a, Epit(false), [Epit(false)]);
    OneAct(Take(a, Epit(false)), Epit(false));
  }

  lemma OneStepAllowed(d: D.Driver, size: u32)
    requires RingSize(size) && d.rate.stepFreq == 1000 && d.rate.delta == 5000
    ensures MaxSteps(size, Wrap(3 - 2), 3, Reserve(d)) == 1
  {
    WrapSmall(1000);
    WrapSmall(500000);
    WrapSmall(1999);
    assert Reserve(d) == 1;
    WrapSmall(size - 1);
  }

  /** A job of three bytes is resumed with its waypoint on the second, halted there before
      the interrupt is served, and backtracked by one step: with no byte of the backtrack
      executed, it decelerates. */
  lemma PendingInterruptIsReachable(mem: seq<bv8>)
    requires RingSize(|mem|)
    ensures var t := RunActs(Load(mem, true, {}, {}), SetUp() + (ResumeToWaypoint() + HaltAndBacktrack(1)));
            t.d.status.decelerating && t.d.status.state.Running? && t.d.sig.ran == 0 && t.d.past.plan == 1
  {
    hide Take, Agree, MaxSteps, Reserve;
    var j := Load(mem, true, {}, {});
    SetsUp(mem);
    var s := RunActs(j, SetUp());
    ComesToWaypoint(s);
    var w := RunActs(s, ResumeToWaypoint());
    OneStepAllowed(w.d, |w.s.mem|);
    PendingInterruptDeceleratesNext(w, 1);
    ActsAppend(j, SetUp(), ResumeToWaypoint() + HaltAndBacktrack(1));
    ActsAppend(s, ResumeToWaypoint(), HaltAndBacktrack(1));
  }
}
