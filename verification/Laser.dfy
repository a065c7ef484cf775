/** The laser pins over a run: the resume's laser-off lead, the exact laser
    after it, and the laser-off backward run. */
module Laser {
  import opened Words
  import opened Backtrack
  import opened Pulse
  import opened Engine
  import opened Playback
  import opened Fifo
  import opened Retrace
  import opened Walk

  /** The GPIO value the script starts the next tick from has no laser bit: it
      was cleared, or the start sequence is about to clear it. */
  predicate Dark(e: Engine) {
    e.resume.AtStart? || e.r3 & LASER == 0
  }

  /** A forward run's lead covers `lead` bytes from index `from`; a resume
      without a waypoint is all lead. */
  predicate InLead(from: int, lead: nat, endless: bool, at: int) {
    endless || at < from + lead
  }

  predicate AllDark(x: Entry) {
    match x
    case Step(_, _, setup, pulse, settle) => setup & LASER == 0 && pulse & LASER == 0 && settle & LASER == 0
    case Power(_, _) => true
    case Park(word) => word & LASER == 0
  }

  /** In the lead every word is dark; after it a step byte's pulse and settle
      words carry exactly its laser bit. */
  predicate LaserAsDue(x: Entry, from: int, lead: nat, endless: bool) {
    match x
    case Step(at, b, setup, pulse, settle) =>
      if InLead(from, lead, endless, at) then AllDark(x)
      else pulse & LASER == settle & LASER == (if b & 0x10 != 0 then LASER else 0)
    case Power(_, _) => true
    case Park(word) => word & LASER == 0
  }

  /** A forward run since `e0`: what it has logged, and what is left of the lead. */
  predicate Leading(e0: Engine, e: Engine, from: int, lead: nat, endless: bool) {
    && e0.log <= e.log && from <= e.at && e.lock & !STEPS == 0
    && !e.dir.Backward?
    && (forall j :: |e0.log| <= j < |e.log| ==> LaserAsDue(e.log[j], from, lead, endless))
    && (InLead(from, lead, endless, e.at) ==> Dark(e))
    && (e.dir.Forward? ==>
          && e.inhibit == (if InLead(from, lead, endless, e.at) then LASER else 0)
          && (!endless ==> e.way == if e.at < from + lead then from + lead - e.at else 0)
          && (endless ==> e.way == 0))
  }

  lemma PassLeading(e0: Engine, e: Engine, b: bv8, from: int, lead: nat, endless: bool)
    requires Leading(e0, e, from, lead, endless) && e.dir.Forward? && e.resume.AtLoop?
    ensures Leading(e0, Pass(e, b), from, lead, endless)
  {
    PassFrame(e, b);
    if IsPower(b) {
      assert Pass(e, b).log == e.log + [Power(e.at, b)];
    } else {
      var setup := SetupWord(e.r3, b);
      var pulse := PulseWord(setup, b, e.lock, e.inhibit);
      var settle := SettleWord(pulse);
      LaserWords(e.r3, b, e.lock, e.inhibit, setup, pulse, settle);
      assert Pass(e, b).log == e.log + [Step(e.at, b, setup, pulse, settle)];
      assert LASER & !LASER == 0 && LASER & !(0 as bv32) == LASER;
    }
  }

  lemma RestLeading(e0: Engine, e: Engine, from: int, lead: nat, endless: bool)
    requires Leading(e0, e, from, lead, endless)
    ensures Leading(e0, AllDone(e), from, lead, endless)
    ensures Leading(e0, Restarted(e), from, lead, endless)
  {
    var w := ParkWord(e.r3);
    assert AllDone(e).log == e.log + [Park(w)];
    assert w & LASER == 0;
  }

  lemma TickLeading(e0: Engine, e: Engine, mem: seq<bv8>, from: int, lead: nat, endless: bool)
    requires RingSize(|mem|) && Leading(e0, e, from, lead, endless)
    ensures Leading(e0, Tick(e, mem), from, lead, endless)
  {
    var keep := (f: Engine) => Leading(e0, f, from, lead, endless);
    forall f: Engine | keep(f)
      ensures keep(AllDone(f)) && keep(Restarted(f))
      ensures f.resume.AtLoop? && !Idle(f, |mem|) ==> keep(Pass(f, mem[Slot(f.head, |mem|)]))
    {
      RestLeading(e0, f, from, lead, endless);
      if f.resume.AtLoop? && !Idle(f, |mem|) {
        PassLeading(e0, f, mem[Slot(f.head, |mem|)], from, lead, endless);
      }
    }
    TickKeeps(e, mem, keep);
  }

  lemma LockMask(mask: bv32)
    ensures mask & STEPS & !STEPS == 0
  {
  }

  lemma HostLeading(e0: Engine, e: Engine, f: Engine, from: int, lead: nat, endless: bool)
    requires Leading(e0, e, from, lead, endless)
    requires f == e.(tail := f.tail, lock := f.lock, line := f.line) && f.lock & !STEPS == 0
    ensures Leading(e0, f, from, lead, endless)
  {
  }

  lemma NextLeading(e0: Engine, s: Sys, ev: Event, from: int, lead: nat, endless: bool)
    requires RingSize(|s.mem|) && s.mode.PlayingForward? && Leading(e0, s.e, from, lead, endless) && !ev.Stop?
    ensures Leading(e0, Next(s, ev).e, from, lead, endless) && Next(s, ev).mode.PlayingForward?
  {
    if ev.TimerTick? {
      TickLeading(e0, s.e, s.mem, from, lead, endless);
    } else {
      HostDuringRun(s, ev);
      LockMask(if ev.SetLock? then ev.mask else 0);
      HostLeading(e0, s.e, Next(s, ev).e, from, lead, endless);
    }
  }

  lemma {:induction false} RunLeading(e0: Engine, s: Sys, evs: seq<Event>, from: int, lead: nat, endless: bool)
    requires RingSize(|s.mem|) && s.mode.PlayingForward? && Leading(e0, s.e, from, lead, endless)
    requires forall i :: 0 <= i < |evs| ==> !evs[i].Stop?
    ensures Leading(e0, Run(s, evs).e, from, lead, endless)
    decreases |evs|
  {
    if evs != [] {
      NextLeading(e0, s, evs[0], from, lead, endless);
      RunLeading(e0, Next(s, evs[0]), evs[1..], from, lead, endless);
    }
  }

  /** The exact lead. A forward run that starts dark keeps every laser bit low
      through the last byte of its lead, carries exactly the data's laser bit
      from the next byte on, and is dark again once its data has run out: a
      resume's lead is its waypoint, or the whole run when it has none; a plain
      run has no lead and need not start dark. */
  lemma LeadIsExact(s: Sys, way: u32, resume: bool, decel: u32, evs: seq<Event>)
    requires RingSize(|s.mem|) && s.e.lock & !STEPS == 0
    requires if resume then Dark(s.e) else way == 0
    requires forall i :: 0 <= i < |evs| ==> !evs[i].Stop?
    ensures var t := Run(BeginRun(s, false, way, resume, decel), evs);
            forall j :: |s.e.log| <= j < |t.e.log| ==> LaserAsDue(t.e.log[j], s.e.at, way, resume && way == 0)
  {
    var r := BeginRun(s, false, way, resume, decel);
    RunLeading(s.e, r, evs, s.e.at, way, resume && way == 0);
  }

  predicate LeadStep(x: Entry, from: int, lead: nat, endless: bool) {
    x.Step? && InLead(from, lead, endless, x.at)
  }

  predicate LitStep(x: Entry, from: int, lead: nat, endless: bool) {
    LeadStep(x, from, lead, endless) && x.setup & LASER != 0
  }

  /** A forward run since `e0`, started with a laser bit left over: it has shown it
      on a step byte of the lead, or has executed none there, and still holds it
      unless the lead or the data is over. */
  predicate Betraying(e0: Engine, e: Engine, from: int, lead: nat, endless: bool) {
    && |e0.log| <= |e.log| && !e.dir.Backward?
    && ((exists j :: |e0.log| <= j < |e.log| && LitStep(e.log[j], from, lead, endless))
        || ((forall j :: |e0.log| <= j < |e.log| ==> !LeadStep(e.log[j], from, lead, endless))
            && (!InLead(from, lead, endless, e.at) || e.dir.Parked? || (e.resume.AtLoop? && e.r3 & LASER != 0))))
  }

  lemma EntryBetrays(e0: Engine, e: Engine, f: Engine, x: Entry, from: int, lead: nat, endless: bool)
    requires Betraying(e0, e, from, lead, endless) && f.log == e.log + [x] && !f.dir.Backward?
    requires (x.Step? ==> x.at == e.at) && (x.Step? && e.resume.AtLoop? && e.r3 & LASER != 0 ==> x.setup & LASER != 0)
    requires x.Step? ==> !e.dir.Parked?
    requires f.dir.Parked?
             || (f.at == e.at + 1 && f.resume.AtLoop?
                && (!x.Step? ==> f.r3 == e.r3 && e.resume.AtLoop? && !e.dir.Parked?))
    ensures Betraying(e0, f, from, lead, endless)
  {
    assert forall j :: 0 <= j < |e.log| ==> f.log[j] == e.log[j];
    if exists j :: |e0.log| <= j < |e.log| && LitStep(e.log[j], from, lead, endless) {
      var j :| |e0.log| <= j < |e.log| && LitStep(e.log[j], from, lead, endless);
      assert LitStep(f.log[j], from, lead, endless);
    } else if LitStep(x, from, lead, endless) {
      assert LitStep(f.log[|e.log|], from, lead, endless);
    }
  }

  lemma PassBetrays(e0: Engine, e: Engine, b: bv8, from: int, lead: nat, endless: bool)
    requires Betraying(e0, e, from, lead, endless) && e.dir.Forward? && e.resume.AtLoop?
    ensures Betraying(e0, Pass(e, b), from, lead, endless)
  {
    hide Betraying, SetupWord, PulseWord, SettleWord, IsPower;
    PassFrame(e, b);
    if IsPower(b) {
      EntryBetrays(e0, e, Pass(e, b), Power(e.at, b), from, lead, endless);
    } else {
      var setup := SetupWord(e.r3, b);
      SetupKeepsLaser(e.r3, b);
      var pulse := PulseWord(setup, b, e.lock, e.inhibit);
      EntryBetrays(e0, e, Pass(e, b), Step(e.at, b, setup, pulse, SettleWord(pulse)), from, lead, endless);
    }
  }

  lemma SetupKeepsLaser(w: bv32, b: bv8)
    ensures SetupWord(w, b) & LASER == w & LASER
  {
  }

  lemma RestBetrays(e0: Engine, e: Engine, from: int, lead: nat, endless: bool)
    requires Betraying(e0, e, from, lead, endless)
    ensures Betraying(e0, AllDone(e), from, lead, endless)
    ensures e.resume.AtStart? ==> Betraying(e0, Restarted(e), from, lead, endless)
  {
    hide ParkWord;
    EntryBetrays(e0, e, AllDone(e), Park(ParkWord(e.r3)), from, lead, endless);
  }

  lemma TickBetrays(e0: Engine, e: Engine, mem: seq<bv8>, from: int, lead: nat, endless: bool)
    requires RingSize(|mem|) && Betraying(e0, e, from, lead, endless)
    ensures Betraying(e0, Tick(e, mem), from, lead, endless)
  {
    var keep := (f: Engine) => Betraying(e0, f, from, lead, endless);
    forall f: Engine | keep(f)
      ensures keep(AllDone(f)) && (f.resume.AtStart? ==> keep(Restarted(f)))
      ensures f.resume.AtLoop? && !Idle(f, |mem|) ==> keep(Pass(f, mem[Slot(f.head, |mem|)]))
    {
      RestBetrays(e0, f, from, lead, endless);
      if f.resume.AtLoop? && !Idle(f, |mem|) {
        PassBetrays(e0, f, mem[Slot(f.head, |mem|)], from, lead, endless);
      }
    }
    TickKeeps(e, mem, keep);
  }

  lemma {:induction false} RunBetrays(e0: Engine, s: Sys, evs: seq<Event>, from: int, lead: nat, endless: bool)
    requires RingSize(|s.mem|) && s.mode.PlayingForward? && Betraying(e0, s.e, from, lead, endless)
    requires forall i :: 0 <= i < |evs| ==> !evs[i].Stop?
    ensures Betraying(e0, Run(s, evs).e, from, lead, endless)
    decreases |evs|
  {
    if evs != [] {
      if evs[0].TimerTick? {
        TickBetrays(e0, s.e, s.mem, from, lead, endless);
      } else {
        HostDuringRun(s, evs[0]);
      }
      RunBetrays(e0, Next(s, evs[0]), evs[1..], from, lead, endless);
    }
  }

  /** The lead of a resume is dark if and only if the resume starts dark, or plays no
      step byte in its lead: the direction pins are written before the inhibit is
      applied, and the first step byte shows whatever laser bit was left. */
  lemma LeadIsDarkIffStartDark(s: Sys, way: u32, decel: u32, evs: seq<Event>)
    requires RingSize(|s.mem|) && s.e.lock & !STEPS == 0
    requires forall i :: 0 <= i < |evs| ==> !evs[i].Stop?
    ensures var t := Run(BeginRun(s, false, way, true, decel), evs).e;
            var first := |s.e.log|;
            (forall j :: first <= j < |t.log| && LeadStep(t.log[j], s.e.at, way, way == 0) ==> AllDark(t.log[j]))
            <==> Dark(s.e) || (forall j :: first <= j < |t.log| ==> !LeadStep(t.log[j], s.e.at, way, way == 0))
  {
    var r := BeginRun(s, false, way, true, decel);
    var t := Run(r, evs).e;
    if Dark(s.e) {
      LeadIsExact(s, way, true, decel, evs);
    } else {
      RunBetrays(s.e, r, evs, s.e.at, way, way == 0);
      if j :| |s.e.log| <= j < |t.log| && LitStep(t.log[j], s.e.at, way, way == 0) {
        assert !AllDark(t.log[j]);
      }
    }
  }

  /** A run stopped right after a laser byte leaves the next start lit: such a
      resume begins with the laser pins high. */
  lemma HaltAfterLaserByteIsLit(e: Engine, b: bv8)
    requires !IsPower(b) && b & 0x10 != 0 && e.dir.Forward? && e.inhibit == 0 && e.lock & !STEPS == 0
    ensures !Dark(Pass(e, b))
  {
    var setup := SetupWord(e.r3, b);
    var pulse := PulseWord(setup, b, e.lock, 0);
    LaserWords(e.r3, b, e.lock, 0, setup, pulse, SettleWord(pulse));
    assert LASER & !(0 as bv32) == LASER && LASER != 0;
    PassFrame(e, b);
  }

  // ---- backward ----

  /** A backward run since `e0`. */
  predicate Retreating(e0: Engine, e: Engine) {
    && e0.log <= e.log && e.lock & !STEPS == 0 && e.inhibit == 0 && !e.dir.Forward?
    && (forall j :: |e0.log| <= j < |e.log| ==> (Dark(e0) ==> AllDark(e.log[j])))
    && ((Dark(e0) || (exists j :: |e0.log| <= j < |e.log| && e.log[j].Step?)) ==> Dark(e))
  }

  lemma PassRetreating(e0: Engine, e: Engine, b: bv8)
    requires Retreating(e0, e) && e.dir.Backward? && e.resume.AtLoop?
    ensures Retreating(e0, Pass(e, b))
  {
    PassFrame(e, b);
    var p := Pass(e, b);
    if IsPower(b) {
      assert p.log == e.log + [Power(e.at, b)];
      if exists j :: |e0.log| <= j < |p.log| && p.log[j].Step? {
        var j :| |e0.log| <= j < |p.log| && p.log[j].Step?;
        assert e.log[j].Step?;
      }
    } else {
      var f := Reversed(b);
      ReversedUndoes(b, MotorX);
      var setup := SetupWord(e.r3, f);
      var pulse := PulseWord(setup, f, e.lock, 0);
      var settle := SettleWord(pulse);
      LaserWords(e.r3, f, e.lock, 0, setup, pulse, settle);
      assert p.log == e.log + [Step(e.at, b, setup, pulse, settle)];
    }
  }

  lemma RestRetreating(e0: Engine, e: Engine)
    requires Retreating(e0, e)
    ensures Retreating(e0, AllDone(e)) && Retreating(e0, Restarted(e))
  {
    var w := ParkWord(e.r3);
    assert AllDone(e).log == e.log + [Park(w)];
    assert w & LASER == 0 && (0 as bv32) & LASER == 0;
  }

  lemma TickRetreating(e0: Engine, e: Engine, mem: seq<bv8>)
    requires RingSize(|mem|) && Retreating(e0, e)
    ensures Retreating(e0, Tick(e, mem))
  {
    var keep := (f: Engine) => Retreating(e0, f);
    forall f: Engine | keep(f)
      ensures keep(AllDone(f)) && keep(Restarted(f))
      ensures f.resume.AtLoop? && !Idle(f, |mem|) ==> keep(Pass(f, mem[Slot(f.head, |mem|)]))
    {
      RestRetreating(e0, f);
      if f.resume.AtLoop? && !Idle(f, |mem|) {
        PassRetreating(e0, f, mem[Slot(f.head, |mem|)]);
      }
    }
    TickKeeps(e, mem, keep);
  }

  lemma HostRetreating(e0: Engine, e: Engine, f: Engine)
    requires Retreating(e0, e) && f == e.(tail := f.tail, lock := f.lock, line := f.line) && f.lock & !STEPS == 0
    ensures Retreating(e0, f)
  {
  }

  lemma NextRetreating(e0: Engine, s: Sys, ev: Event)
    requires RingSize(|s.mem|) && s.mode.PlayingBackward? && Retreating(e0, s.e) && !ev.Stop?
    ensures Retreating(e0, Next(s, ev).e) && Next(s, ev).mode.PlayingBackward?
  {
    if ev.TimerTick? {
      TickRetreating(e0, s.e, s.mem);
    } else {
      HostDuringRun(s, ev);
      LockMask(if ev.SetLock? then ev.mask else 0);
      HostRetreating(e0, s.e, Next(s, ev).e);
    }
  }

  lemma {:induction false} RunRetreating(e0: Engine, s: Sys, evs: seq<Event>)
    requires RingSize(|s.mem|) && s.mode.PlayingBackward? && Retreating(e0, s.e)
    requires forall i :: 0 <= i < |evs| ==> !evs[i].Stop?
    ensures Retreating(e0, Run(s, evs).e) && Run(s, evs).mode.PlayingBackward?
    decreases |evs|
  {
    if evs != [] {
      NextRetreating(e0, s, evs[0]);
      RunRetreating(e0, Next(s, evs[0]), evs[1..]);
    }
  }

  predicate Stepped(log: seq<Entry>, from: nat) {
    exists j :: from <= j < |log| && log[j].Step?
  }

  /** A backtrack that starts dark never writes a laser bit; and one that has executed a
      step byte leaves the next start dark, however it started. */
  lemma BackwardIsDark(s: Sys, way: u32, accelerate: bool, decel: u32, evs: seq<Event>)
    requires RingSize(|s.mem|) && s.e.lock & !STEPS == 0
    requires BeginRun(s, true, way, accelerate, decel).mode.PlayingBackward? && s.mode.Stopped? && s.owner.Free?
    requires forall i :: 0 <= i < |evs| ==> !evs[i].Stop?
    ensures var t := Run(BeginRun(s, true, way, accelerate, decel), evs).e;
            && s.e.log <= t.log && t.lock & !STEPS == 0
            && (Dark(s.e) ==> forall j :: |s.e.log| <= j < |t.log| ==> AllDark(t.log[j]))
            && (Dark(s.e) || Stepped(t.log, |s.e.log|) ==> Dark(t))
  {
    BackwardStarts(s, way, accelerate, decel);
    RunRetreating(s.e, BeginRun(s, true, way, accelerate, decel), evs);
  }

  lemma BackwardStarts(s: Sys, way: u32, accelerate: bool, decel: u32)
    requires RingSize(|s.mem|) && s.e.lock & !STEPS == 0
    requires BeginRun(s, true, way, accelerate, decel).mode.PlayingBackward? && s.mode.Stopped? && s.owner.Free?
    ensures Retreating(s.e, BeginRun(s, true, way, accelerate, decel).e)
  {
    hide MaxSteps, DeadStop;
    var r := BeginRun(s, true, way, accelerate, decel);
    assert r.e == s.e.(tail := r.e.tail, dir := Backward, way := way, inhibit := 0, mailbox := false);
  }

  /** A held engine stays dark. */
  lemma {:induction false} HoldIsDark(s: Sys, hold: seq<Event>)
    requires RingSize(|s.mem|) && s.mode.Stopped? && !s.owner.Runner? && Dark(s.e) && s.e.lock & !STEPS == 0
    requires forall i :: 0 <= i < |hold| ==> Quiet(hold[i])
    ensures var t := Run(s, hold);
            && t.mode.Stopped? && Dark(t.e) && t.e.lock & !STEPS == 0 && t.e.at == s.e.at && t.e.log == s.e.log
    decreases |hold|
  {
    if hold != [] {
      HeldStep(s, hold[0]);
      HoldIsDark(Next(s, hold[0]), hold[1..]);
    }
  }

  lemma HeldStep(s: Sys, ev: Event)
    requires RingSize(|s.mem|) && s.mode.Stopped? && !s.owner.Runner? && Dark(s.e) && s.e.lock & !STEPS == 0
    requires Quiet(ev)
    ensures var t := Next(s, ev);
            && t.mode.Stopped? && !t.owner.Runner? && t.e.at == s.e.at && t.e.log == s.e.log
            && Dark(t.e) && t.e.lock & !STEPS == 0
  {
    hide Dark;
    HostAtRest(s, ev);
    LockMask(if ev.SetLock? then ev.mask else 0);
    SameDark(s.e, Next(s, ev).e);
  }

  lemma SameDark(e: Engine, f: Engine)
    requires Dark(e) && f.resume == e.resume && f.r3 == e.r3
    ensures Dark(f)
  {
  }

  lemma StopKeeps(s: Sys)
    requires RingSize(|s.mem|)
    ensures Next(s, Stop) == s.(mode := Stopped)
  {
  }

  lemma StepsWalk(s: Sys, t: Sys)
    requires s.e.log <= t.e.log && Indices(t.e.log) == Indices(s.e.log) + Down(s.e.at, t.e.at)
             && Stepped(t.e.log, |s.e.log|)
    ensures t.e.at < s.e.at
  {
    IndicesGrow(s.e.log, t.e.log);
  }

  lemma BacktrackWalks(s: Sys, way: u32, accelerate: bool, decel: u32, back: seq<Event>)
    requires Sound(s) && s.asked && s.owner.Free?
    requires 0 < way <= MaxSteps(|s.mem|, Wrap(s.inn - s.e.head), s.total, decel)
    requires forall i :: 0 <= i < |back| ==> !back[i].Stop?
    ensures var mid := Run(BeginRun(s, true, way, accelerate, decel), back);
            && mid.owner.Free? && 0 <= mid.e.at <= s.e.at < U32 + mid.e.at
            && (s.e.log <= mid.e.log && Stepped(mid.e.log, |s.e.log|) ==> mid.e.at < s.e.at)
  {
    hide Sound, MaxSteps, BeginRun, Stepped, Honest, IntactFrom, Indices, Down;
    SoundIndices(s);
    BacktrackStarts(s, way, accelerate, decel);
    BackwardRunWalksDown(BeginRun(s, true, way, accelerate, decel), back);
    var mid := Run(BeginRun(s, true, way, accelerate, decel), back);
    if s.e.log <= mid.e.log && Stepped(mid.e.log, |s.e.log|) {
      StepsWalk(s, mid);
    }
  }

  /** The first leg of a pause: the backtrack, and its stop. */
  lemma BacktrackEndsDark(s: Sys, way: u32, accelerate: bool, decel: u32, back: seq<Event>)
    requires Sound(s) && s.asked && s.owner.Free? && s.e.lock & !STEPS == 0
    requires 0 < way <= MaxSteps(|s.mem|, Wrap(s.inn - s.e.head), s.total, decel)
    requires forall i :: 0 <= i < |back| ==> !back[i].Stop?
    requires Stepped(Run(BeginRun(s, true, way, accelerate, decel), back).e.log, |s.e.log|)
    ensures var mid := Run(BeginRun(s, true, way, accelerate, decel), back);
            && mid.owner.Free? && 0 <= mid.e.at < s.e.at < U32 + mid.e.at && Dark(mid.e) && mid.e.lock & !STEPS == 0
  {
    hide Sound, MaxSteps, Dark, BeginRun, Stepped, AllDark;
    SoundIndices(s);
    BeginsBackward(s, way, accelerate, decel);
    BackwardIsDark(s, way, accelerate, decel, back);
    BacktrackWalks(s, way, accelerate, decel, back);
  }

  lemma BeginsBackward(s: Sys, way: u32, accelerate: bool, decel: u32)
    requires Sound(s) && s.asked && s.owner.Free?
             && 0 < way <= MaxSteps(|s.mem|, Wrap(s.inn - s.e.head), s.total, decel)
    ensures RingSize(|s.mem|) && s.mode.Stopped? && BeginRun(s, true, way, accelerate, decel).mode.PlayingBackward?
  {
    hide MaxSteps, BeginRun, Resident, Honest, IntactFrom;
    BacktrackStarts(s, way, accelerate, decel);
  }

  /** The second: the hold, and the resume. */
  lemma ResumeAfterHold(mid: Sys, hold: seq<Event>, lead: u32, decel: u32, forth: seq<Event>)
    requires RingSize(|mid.mem|) && mid.owner.Free? && Dark(mid.e) && mid.e.lock & !STEPS == 0 && lead > 0
    requires (forall i :: 0 <= i < |hold| ==> Quiet(hold[i])) && (forall i :: 0 <= i < |forth| ==> !forth[i].Stop?)
    ensures var held := Run(Next(mid, Stop), hold); var t := Run(BeginRun(held, false, lead, true, decel), forth);
            && held.e.log == mid.e.log && held.e.at == mid.e.at
            && forall j :: |held.e.log| <= j < |t.e.log| ==> LaserAsDue(t.e.log[j], mid.e.at, lead, false)
  {
    hide Dark, BeginRun, LaserAsDue, Next;
    StopKeeps(mid);
    HoldIsDark(Next(mid, Stop), hold);
    LeadIsExact(Run(Next(mid, Stop), hold), lead, true, decel, forth);
  }

  /** The laser over a pause. After a backtrack from index h0 to h1 that executed a step
      byte, a hold, and a resume whose lead is the distance walked: no laser bit below h0,
      however the backtrack started, and exactly the data's from h0 on. */
  lemma LaserComesBackAtThePause(s: Sys, way: u32, accelerate: bool, decel: u32, back: seq<Event>,
                                 hold: seq<Event>, lead: u32, forth: seq<Event>)
    requires Sound(s) && s.asked && s.owner.Free? && s.e.lock & !STEPS == 0
    requires 0 < way <= MaxSteps(|s.mem|, Wrap(s.inn - s.e.head), s.total, decel)
    requires forall i :: 0 <= i < |back| ==> !back[i].Stop?
    requires Stepped(Run(BeginRun(s, true, way, accelerate, decel), back).e.log, |s.e.log|)
    requires lead == s.e.at - Run(BeginRun(s, true, way, accelerate, decel), back).e.at
    requires (forall i :: 0 <= i < |hold| ==> Quiet(hold[i])) && (forall i :: 0 <= i < |forth| ==> !forth[i].Stop?)
    ensures var mid := Run(BeginRun(s, true, way, accelerate, decel), back);
            var held := Run(Next(mid, Stop), hold);
            var t := Run(BeginRun(held, false, lead, true, decel), forth);
            && held.e.log == mid.e.log && 0 <= mid.e.at == held.e.at < s.e.at
            && forall j :: |held.e.log| <= j < |t.e.log| ==> LaserAsDue(t.e.log[j], mid.e.at, lead, false)
  {
    hide Sound, MaxSteps, Dark, BeginRun, Stepped, LaserAsDue, Next;
    SoundIndices(s);
    BacktrackEndsDark(s, way, accelerate, decel, back);
    ResumeAfterHold(Run(BeginRun(s, true, way, accelerate, decel), back), hold, lead, decel, forth);
  }
}
