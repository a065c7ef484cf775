/** What runs in both directions, and pauses between them, do to the position counters. */
module Pause {
  import opened Words
  import opened Backtrack
  import opened Pulse
  import opened Engine
  import opened Playback
  import opened Retrace
  import opened Walk

  /** The move of each byte of the job. */
  function Moves(job: seq<bv8>, m: Motor): (r: seq<int>)
    ensures |r| == |job| && forall i :: 0 <= i < |r| ==> -1 <= r[i] <= 1
  {
    seq(|job|, i requires 0 <= i < |job| => Delta(job[i], m))
  }

  /** Net move of the first `n` bytes. */
  function Sum(moves: seq<int>, n: nat): int
    requires n <= |moves|
  {
    if n == 0 then 0 else Sum(moves, n - 1) + moves[n - 1]
  }

  lemma {:induction false} SumOfPrefix(moves: seq<int>, longer: seq<int>, n: nat)
    requires n <= |moves| && moves <= longer
    ensures Sum(longer, n) == Sum(moves, n)
  {
    if n > 0 {
      SumOfPrefix(moves, longer, n - 1);
    }
  }

  lemma MovesOfPrefix(job: seq<bv8>, longer: seq<bv8>, m: Motor)
    requires job <= longer
    ensures Moves(job, m) <= Moves(longer, m)
  {
  }

  /** A position counter less the moves of the first `n` bytes. */
  function Offset(position: u32, moves: seq<int>, n: int): u32
    requires 0 <= n <= |moves|
  {
    Wrap(position - Sum(moves, n))
  }

  /** The bytes a run counts as played: backward, also the one under the head. */
  function Played(s: Sys): int {
    if s.mode.PlayingBackward? then s.e.at + 1 else s.e.at
  }

  predicate Countable(s: Sys) {
    0 <= Played(s) <= |s.job|
  }

  /** The counter of motor `m` less the moves of the bytes the run has played. */
  function OffsetOf(s: Sys, m: Motor): u32
    requires Countable(s)
  {
    Offset(Position(s.e, m), Moves(s.job, m), Played(s))
  }

  /** A counter and the moves behind it change together. */
  lemma OffsetStep(position: u32, moves: seq<int>, n: nat)
    requires n < |moves|
    ensures Offset(Wrap(position + moves[n]), moves, n + 1) == Offset(position, moves, n)
    ensures Offset(Wrap(position - moves[n]), moves, n) == Offset(position, moves, n + 1)
  {
    WrapAdd(position + moves[n], -Sum(moves, n + 1));
    WrapAdd(position - moves[n], -Sum(moves, n));
  }

  lemma MovedOffset(f: Engine, p: Engine, b: bv8, moves: seq<int>, m: Motor)
    requires 0 <= f.at < |moves| && moves[f.at] == Delta(b, m) && !f.dir.Parked?
    requires Position(p, m) == Wrap(Position(f, m) + Moved(f.dir, b, m))
    ensures f.dir.Forward? ==> Offset(Position(p, m), moves, f.at + 1) == Offset(Position(f, m), moves, f.at)
    ensures f.dir.Backward? ==> Offset(Position(p, m), moves, f.at) == Offset(Position(f, m), moves, f.at + 1)
  {
    OffsetStep(Position(f, m), moves, f.at);
  }

  lemma PassOffset(s: Sys, f: Engine, m: Motor)
    requires Sound(s.(e := f)) && Honest(s.(e := f)) && !s.mode.Stopped? && !Idle(f, |s.mem|)
    ensures var t := s.(e := Pass(f, s.mem[Slot(f.head, |s.mem|)]));
            Countable(s.(e := f)) && Countable(t) && OffsetOf(t, m) == OffsetOf(s.(e := f), m)
  {
    hide Placed, Resident, Honest, Genuine, Idle, Delta, Sum;
    UnderHead(s.(e := f));
    PassMoves(f, s.job[f.at], m);
    MovedOffset(f, Pass(f, s.job[f.at]), s.job[f.at], Moves(s.job, m), m);
  }

  lemma RestOffset(s: Sys, f: Engine, m: Motor)
    requires Countable(s.(e := f))
    ensures Countable(s.(e := AllDone(f))) && OffsetOf(s.(e := AllDone(f)), m) == OffsetOf(s.(e := f), m)
    ensures Countable(s.(e := Restarted(f))) && OffsetOf(s.(e := Restarted(f)), m) == OffsetOf(s.(e := f), m)
  {
    RestFrame(f);
  }

  lemma TickOffset(s: Sys, m: Motor)
    requires Sound(s) && Honest(s) && !s.mode.Stopped?
    ensures var t := s.(e := Tick(s.e, s.mem)); Countable(s) && Countable(t) && OffsetOf(t, m) == OffsetOf(s, m)
  {
    var w := OffsetOf(s, m);
    var keep := (f: Engine) => Countable(s.(e := f)) && OffsetOf(s.(e := f), m) == w;
    forall f: Engine | keep(f)
      ensures keep(AllDone(f)) && keep(Restarted(f))
      ensures Sound(s.(e := f)) && Honest(s.(e := f)) && !Idle(f, |s.mem|)
              ==> keep(Pass(f, s.mem[Slot(f.head, |s.mem|)]))
    {
      RestOffset(s, f, m);
      if Sound(s.(e := f)) && Honest(s.(e := f)) && !Idle(f, |s.mem|) {
        PassOffset(s, f, m);
      }
    }
    TickKeepsHonest(s, keep);
  }

  lemma SameOffset(s: Sys, t: Sys, m: Motor)
    requires Countable(s) && s.job <= t.job && t.mode == s.mode
    requires t.e.at == s.e.at && t.e.x == s.e.x && t.e.y == s.e.y && t.e.z == s.e.z
    ensures Countable(t) && OffsetOf(t, m) == OffsetOf(s, m)
  {
    hide Moves;
    MovesOfPrefix(s.job, t.job, m);
    SumOfPrefix(Moves(s.job, m), Moves(t.job, m), Played(s));
  }

  lemma CountableSound(s: Sys)
    requires Sound(s)
    ensures RingSize(|s.mem|) && Countable(s) && (s.mode.PlayingBackward? ==> s.e.at < |s.job| && s.owner.Free?)
  {
    hide Resident;
  }

  /** Apart from stops, commits and clears, nothing moves an offset. */
  lemma OtherDrifts(s: Sys, ev: Event, m: Motor)
    requires Sound(s) && Honest(s) && !ev.Clear? && !ev.Stop? && !ev.CommitRun?
    ensures Countable(s) && Countable(Next(s, ev)) && Next(s, ev).mode == s.mode && s.job <= Next(s, ev).job
    ensures OffsetOf(Next(s, ev), m) == OffsetOf(s, m)
  {
    hide Sound, Honest, OffsetOf, EndWrite, PublishStep, Countable, Tick;
    CountableSound(s);
    if ev.TimerTick? {
      if !s.mode.Stopped? {
        TickOffset(s, m);
      }
    } else if ev.WriteEnd? {
      EndWriteFrame(s, ev.data, ev.copy, ev.publishOk);
      SameOffset(s, Next(s, ev), m);
    } else if ev.PublishRun? {
      PublishStepFrame(s, ev.backward, ev.way, ev.accelerate, ev.decel);
      SameOffset(s, Next(s, ev), m);
    } else {
      OtherEvents(s, ev);
      SameOffset(s, Next(s, ev), m);
    }
  }

  lemma NextOffset(s: Sys, ev: Event, m: Motor)
    requires Sound(s) && Honest(s) && !s.mode.Stopped? && !ev.Stop?
    ensures var t := Next(s, ev);
            && Countable(s) && Countable(t) && OffsetOf(t, m) == OffsetOf(s, m)
            && t.mode == s.mode && s.job <= t.job
  {
    hide Sound, Honest, OffsetOf, Next, Countable;
    CountableSound(s);
    if ev.PublishRun? || ev.Clear? || ev.CommitRun? {
      RefusedDuringRun(s, ev);
    } else {
      OtherDrifts(s, ev, m);
    }
  }

  /** The position law. While a run lasts, whatever else happens, playing forward
      keeps each counter equal to a constant plus the moves of the bytes behind
      the head, and playing backward keeps it equal to a constant plus the moves
      up to and including the byte under the head. */
  lemma {:induction false} RunKeepsOffset(s: Sys, evs: seq<Event>, m: Motor)
    requires Sound(s) && Honest(s) && !s.mode.Stopped?
    requires forall i :: 0 <= i < |evs| ==> !evs[i].Stop?
    ensures var t := Run(s, evs);
            && Countable(s) && Countable(t) && OffsetOf(t, m) == OffsetOf(s, m)
            && Honest(t) && Sound(t) && t.mode == s.mode && s.job <= t.job
    decreases |evs|
  {
    if evs != [] {
      NextSound(s, evs[0]);
      NextHonest(s, evs[0]);
      NextOffset(s, evs[0], m);
      RunKeepsOffset(Next(s, evs[0]), evs[1..], m);
    }
  }

  lemma ShiftOfOffset(p0: u32, p1: u32, sum0: int, move0: int, sum1: int, move1: int)
    requires Wrap(p1 - (sum1 + move1)) == Wrap(p0 - (sum0 + move0))
    ensures Wrap(p1 - sum1) == Wrap(Wrap(p0 - sum0) + (move1 - move0))
  {
    WrapAdd(p1 - (sum1 + move1), move1);
    WrapAdd(p0 - (sum0 + move0), move1);
    WrapAdd(p0 - sum0, move1 - move0);
  }

  /** From index h0 back to h1 a counter's offset, against the bytes below the
      head, has shifted by the move of byte h1 less that of byte h0. */
  predicate Shifted(s0: Sys, t: Sys, m: Motor) {
    var moves := Moves(s0.job, m);
    && 0 <= t.e.at <= s0.e.at < |s0.job|
    && Offset(Position(t.e, m), moves, t.e.at)
       == Wrap(Offset(Position(s0.e, m), moves, s0.e.at) + (moves[t.e.at] - moves[s0.e.at]))
  }

  lemma ShiftAlong(s0: Sys, t: Sys, m: Motor)
    requires 0 <= t.e.at <= s0.e.at < |s0.job| && t.job == s0.job && s0.mode == t.mode == PlayingBackward
    requires OffsetOf(t, m) == OffsetOf(s0, m)
    ensures Shifted(s0, t, m)
  {
    hide Moves, Wrap;
    var moves := Moves(s0.job, m);
    ShiftOfOffset(Position(s0.e, m), Position(t.e, m),
                  Sum(moves, s0.e.at), moves[s0.e.at], Sum(moves, t.e.at), moves[t.e.at]);
  }

  /** What a backward run does to the offsets that forward runs keep. */
  lemma BackwardRunShiftsOffset(s0: Sys, evs: seq<Event>, m: Motor)
    requires Sound(s0) && Honest(s0) && s0.mode.PlayingBackward? && s0.e.dir.Backward?
    requires forall i :: 0 <= i < |evs| ==> !evs[i].Stop?
    ensures Shifted(s0, Run(s0, evs), m)
  {
    hide Shifted, OffsetOf;
    BackwardEnds(s0, evs);
    RunKeepsOffset(s0, evs, m);
    ShiftAlong(s0, Run(s0, evs), m);
  }

  lemma BackwardEnds(s0: Sys, back: seq<Event>)
    requires Sound(s0) && s0.mode.PlayingBackward? && s0.e.dir.Backward?
    requires forall i :: 0 <= i < |back| ==> !back[i].Stop?
    ensures Run(s0, back).job == s0.job && 0 <= Run(s0, back).e.at <= s0.e.at < |s0.job|
  {
    BackwardRunWalksDown(s0, back);
    RunSound(s0, back);
  }

  /** The arithmetic of the two legs, on 32-bit counters. */
  lemma OffsetsMeet(p0: u32, p1: u32, p2: u32, sum0: int, move0: int, sum1: int, move1: int)
    requires Wrap(p1 - (sum1 + move1)) == Wrap(p0 - (sum0 + move0))
    requires Wrap(p2 - sum0) == Wrap(p1 - sum1)
    ensures p2 == Wrap(p0 + (move1 - move0))
  {
    WrapAdd(p2 - sum0, sum0);
    WrapAdd(p1 - sum1, sum0);
    WrapAdd(p1 - (sum1 + move1), move1 + sum0);
    WrapAdd(p0 - (sum0 + move0), move1 + sum0);
    WrapSmall(p2);
  }

  /** The error left by a retrace from `s0` back to `mid` and forward to `t`. */
  function RetraceError(s0: Sys, mid: Sys, m: Motor): (error: int)
    requires 0 <= mid.e.at < |s0.job| && 0 <= s0.e.at < |s0.job|
    ensures -2 <= error <= 2
  {
    Moves(s0.job, m)[mid.e.at] - Moves(s0.job, m)[s0.e.at]
  }

  // ---- whole histories ----

  /** What an event adds to a counter's offset: committing a backward run gives up the
      byte under the head, stopping one takes the byte under the head back. */
  function DriftOf(s: Sys, ev: Event, m: Motor): (drift: int)
    requires RingSize(|s.mem|)
    ensures -1 <= drift <= 1
  {
    var t := Next(s, ev);
    if t.mode.PlayingBackward? == s.mode.PlayingBackward? || !(0 <= s.e.at < |s.job|) then 0
    else if t.mode.PlayingBackward? then -Moves(s.job, m)[s.e.at]
    else Moves(s.job, m)[s.e.at]
  }

  function Drift(s: Sys, evs: seq<Event>, m: Motor): int
    requires RingSize(|s.mem|)
    decreases |evs|
  {
    if evs == [] then 0 else DriftOf(s, evs[0], m) + Drift(Next(s, evs[0]), evs[1..], m)
  }

  lemma SamePosition(e: Engine, f: Engine, m: Motor)
    requires f.x == e.x && f.y == e.y && f.z == e.z
    ensures Position(f, m) == Position(e, m)
  {
  }

  /** A run starts or ends, in either direction. */
  lemma ModeDrifts(s: Sys, ev: Event, m: Motor)
    requires Sound(s) && (ev.Stop? || ev.CommitRun?)
    ensures Countable(s) && Countable(Next(s, ev))
    ensures OffsetOf(Next(s, ev), m) == Wrap(OffsetOf(s, m) + DriftOf(s, ev, m))
  {
    hide Moves, Wrap, Next, Sound, Position;
    CountableSound(s);
    var t, moves, p := Next(s, ev), Moves(s.job, m), Position(s.e, m);
    NextSound(s, ev);
    CountableSound(t);
    OtherEvents(s, ev);
    SamePosition(s.e, t.e, m);
    if t.mode.PlayingBackward? == s.mode.PlayingBackward? {
      WrapSmall(OffsetOf(s, m));
    } else if t.mode.PlayingBackward? {
      WrapAdd(p - Sum(moves, s.e.at), -moves[s.e.at]);
    } else {
      WrapAdd(p - Sum(moves, s.e.at + 1), moves[s.e.at]);
    }
  }

  lemma NextDrifts(s: Sys, ev: Event, m: Motor)
    requires Sound(s) && Honest(s) && !ev.Clear?
    ensures Countable(s) && Countable(Next(s, ev))
    ensures OffsetOf(Next(s, ev), m) == Wrap(OffsetOf(s, m) + DriftOf(s, ev, m))
  {
    hide Sound, Honest, OffsetOf, Next, Countable, Wrap;
    CountableSound(s);
    if ev.Stop? || ev.CommitRun? {
      ModeDrifts(s, ev, m);
    } else {
      OtherDrifts(s, ev, m);
      WrapSmall(OffsetOf(s, m));
    }
  }

  /** The position law of a whole history, up to the next clear: through runs in both
      directions, stops, pauses, writes and refused requests, each counter's offset moves
      by the bytes that backward runs give up and take back, and by nothing else. */
  lemma {:induction false} HistoryKeepsOffset(s: Sys, evs: seq<Event>, m: Motor)
    requires Sound(s) && Honest(s) && Careful(s, evs) && forall i :: 0 <= i < |evs| ==> !evs[i].Clear?
    ensures Countable(s) && Countable(Run(s, evs))
    ensures OffsetOf(Run(s, evs), m) == Wrap(OffsetOf(s, m) + Drift(s, evs, m))
    decreases |evs|
  {
    hide Sound, Honest, IntactFrom, OffsetOf, Next, Countable, DriftOf, Wrap;
    CountableSound(s);
    if evs == [] {
      WrapSmall(OffsetOf(s, m));
    } else {
      NextDrifts(s, evs[0], m);
      NextSound(s, evs[0]);
      NextHonest(s, evs[0]);
      HistoryKeepsOffset(Next(s, evs[0]), evs[1..], m);
      WrapAdd(OffsetOf(s, m) + DriftOf(s, evs[0], m), Drift(Next(s, evs[0]), evs[1..], m));
    }
  }

  // ---- pauses ----

  /** Events of a pause and of what follows it: anything but a clear or another backtrack. */
  predicate Onward(ev: Event) {
    !ev.Clear? && !(ev.PublishRun? && ev.backward)
  }

  predicate GoingOn(s: Sys) {
    !s.mode.PlayingBackward? && !(s.owner.Runner? && s.owner.backward)
  }

  lemma OnwardStep(s: Sys, ev: Event)
    requires RingSize(|s.mem|) && GoingOn(s) && Onward(ev)
    ensures GoingOn(Next(s, ev)) && s.job <= Next(s, ev).job
  {
    hide Splice, MaxSteps;
  }

  /** Without a backtrack nothing drifts, however often the run is stopped, held, refused
      and resumed, and whatever is written meanwhile. */
  lemma {:induction false} OnwardKeepsOffset(s: Sys, evs: seq<Event>, m: Motor)
    requires Sound(s) && Honest(s) && GoingOn(s) && forall i :: 0 <= i < |evs| ==> Onward(evs[i])
    ensures var t := Run(s, evs);
            && Countable(s) && Countable(t) && OffsetOf(t, m) == OffsetOf(s, m)
            && Sound(t) && Honest(t) && GoingOn(t) && s.job <= t.job
    decreases |evs|
  {
    hide Sound, Honest, IntactFrom, OffsetOf, Next, Countable, Wrap;
    CountableSound(s);
    if evs != [] {
      NextDrifts(s, evs[0], m);
      WrapSmall(OffsetOf(s, m));
      NextSound(s, evs[0]);
      NextHonest(s, evs[0]);
      OnwardStep(s, evs[0]);
      OnwardKeepsOffset(Next(s, evs[0]), evs[1..], m);
    }
  }

  lemma LegsMeet(s0: Sys, mid: Sys, held: Sys, t: Sys, m: Motor)
    requires 0 <= mid.e.at <= s0.e.at < |s0.job| && mid.job == s0.job == held.job <= t.job && t.e.at == s0.e.at
    requires s0.mode == mid.mode == PlayingBackward && GoingOn(held) && GoingOn(t)
    requires held.e.at == mid.e.at && Position(held.e, m) == Position(mid.e, m)
    requires OffsetOf(mid, m) == OffsetOf(s0, m) && OffsetOf(t, m) == OffsetOf(held, m)
    ensures Position(t.e, m) == Wrap(Position(s0.e, m) + RetraceError(s0, mid, m))
  {
    hide Moves, Wrap;
    var moves := Moves(s0.job, m);
    assert Sum(Moves(t.job, m), s0.e.at) == Sum(moves, s0.e.at) by {
      MovesOfPrefix(s0.job, t.job, m);
      SumOfPrefix(moves, Moves(t.job, m), s0.e.at);
    }
    OffsetsMeet(Position(s0.e, m), Position(mid.e, m), Position(t.e, m),
                Sum(moves, s0.e.at), moves[s0.e.at], Sum(moves, mid.e.at), moves[mid.e.at]);
  }

  lemma StoppedBackward(mid: Sys)
    requires Sound(mid) && Honest(mid) && mid.mode.PlayingBackward?
    ensures var h := Next(mid, Stop);
            && Sound(h) && Honest(h) && h == mid.(mode := Stopped) && GoingOn(h) && h.owner.Free? && h.e.at < |h.job|
  {
    hide Resident, Honest;
    NextSound(mid, Stop);
    NextHonest(mid, Stop);
  }

  lemma BackwardLeg(s0: Sys, back: seq<Event>, m: Motor)
    requires Sound(s0) && Honest(s0) && s0.mode.PlayingBackward? && s0.e.dir.Backward?
    requires forall i :: 0 <= i < |back| ==> !back[i].Stop?
    ensures var mid := Run(s0, back);
            && 0 <= mid.e.at <= s0.e.at < |s0.job| && mid.job == s0.job && mid.mode.PlayingBackward? && Sound(mid)
               && Honest(mid)
            && Countable(s0) && Countable(mid) && OffsetOf(mid, m) == OffsetOf(s0, m)
  {
    hide Sound, Honest, OffsetOf;
    BackwardEnds(s0, back);
    RunKeepsOffset(s0, back, m);
  }

  /** Pause and resume. Backtracking from index h0 to h1, stopping there, and playing on
      to h0 again leaves each counter off by the move of byte h1 less that of byte h0: at
      most two steps, and none when those bytes move alike. In between, the job may be
      held, written to, and stopped and resumed any number of times. */
  lemma RetraceLandsWithinTwoSteps(s0: Sys, back: seq<Event>, mid: Sys, onward: seq<Event>, t: Sys, m: Motor)
    requires Sound(s0) && Honest(s0) && s0.mode.PlayingBackward? && s0.e.dir.Backward?
    requires forall i :: 0 <= i < |back| ==> !back[i].Stop?
    requires forall i :: 0 <= i < |onward| ==> Onward(onward[i])
    requires mid == Run(s0, back) && t == Run(Next(mid, Stop), onward) && t.e.at == s0.e.at
    ensures 0 <= mid.e.at <= s0.e.at < |s0.job|
    ensures Position(t.e, m) == Wrap(Position(s0.e, m) + RetraceError(s0, mid, m))
  {
    hide Sound, Honest, OffsetOf, Countable, Next, GoingOn, Position;
    CountableSound(s0);
    BackwardLeg(s0, back, m);
    StoppedBackward(mid);
    OnwardKeepsOffset(Next(mid, Stop), onward, m);
    assert Position(Next(mid, Stop).e, m) == Position(mid.e, m);
    LegsMeet(s0, mid, Next(mid, Stop), t, m);
  }

  /** A resume, asked for, published and committed with nothing in between. */
  function Resume(s: Sys, way: u32, decel: u32): (t: Sys)
    requires RingSize(|s.mem|)
    ensures |t.mem| == |s.mem|
  {
    Next(Next(Next(s, Ask(true)), PublishRun(false, way, true, decel)), CommitRun(true))
  }

  /** Events of a pause: no run is published and nothing is cleared. */
  lemma {:induction false} HoldKeeps(s: Sys, hold: seq<Event>)
    requires Sound(s) && Honest(s) && s.mode.Stopped? && !s.owner.Runner? && s.e.at < |s.job|
    requires forall i :: 0 <= i < |hold| ==> Quiet(hold[i])
    ensures var t := Run(s, hold);
            && Sound(t) && Honest(t) && t.mode.Stopped? && !t.owner.Runner? && t.e.at == s.e.at < |t.job|
               && s.job <= t.job
            && t.e.x == s.e.x && t.e.y == s.e.y && t.e.z == s.e.z && t.e.log == s.e.log
    decreases |hold|
  {
    hide Sound, Honest, IntactFrom, Next;
    if hold != [] {
      CountableSound(s);
      NextSound(s, hold[0]);
      NextHonest(s, hold[0]);
      HostAtRest(s, hold[0]);
      HoldKeeps(Next(s, hold[0]), hold[1..]);
    } else {
      CountableSound(s);
    }
  }

  lemma ResumeFrame(s: Sys, way: u32, decel: u32)
    requires RingSize(|s.mem|) && s.inn != s.e.head && s.owner.Free? && s.mode.Stopped?
    ensures var r := Resume(s, way, decel);
            && r.mode.PlayingForward? && r.job == s.job && r.e.at == s.e.at
            && r.e.x == s.e.x && r.e.y == s.e.y && r.e.z == s.e.z && r.e.log == s.e.log
  {
    hide MaxSteps;
  }

  lemma Unplayed(s: Sys)
    requires Sound(s) && s.e.at < |s.job|
    ensures s.inn != s.e.head
  {
    hide Resident;
    IndexDistance(|s.job|, s.e.at, |s.mem|);
  }

  /** A resume after a backward run is accepted, after a pause in which the job is written
      to and anything but another run or a clear happens, once no writer holds the ring;
      and it starts where that run ended. */
  lemma ResumeStarts(mid: Sys, hold: seq<Event>, way: u32, decel: u32)
    requires Sound(mid) && Honest(mid) && mid.mode.PlayingBackward?
    requires (forall i :: 0 <= i < |hold| ==> Quiet(hold[i])) && Run(Next(mid, Stop), hold).owner.Free?
    ensures var r := Resume(Run(Next(mid, Stop), hold), way, decel);
            && Sound(r) && Honest(r) && r.mode.PlayingForward? && mid.job <= r.job && r.e.at == mid.e.at
            && r.e.x == mid.e.x && r.e.y == mid.e.y && r.e.z == mid.e.z && r.e.log == mid.e.log
  {
    hide Sound, Honest, IntactFrom, Next;
    CountableSound(mid);
    StoppedBackward(mid);
    HoldKeeps(Next(mid, Stop), hold);
    var held := Run(Next(mid, Stop), hold);
    var asked := Next(held, Ask(true));
    var published := Next(asked, PublishRun(false, way, true, decel));
    NextTwo(held, Ask(true));
    NextTwo(asked, PublishRun(false, way, true, decel));
    NextTwo(published, CommitRun(true));
    Unplayed(held);
    ResumeFrame(held, way, decel);
  }

  lemma NextTwo(s: Sys, ev: Event)
    requires Sound(s) && Honest(s) && (ev.Ask? || ev.CommitRun? || (ev.PublishRun? && !ev.backward))
    ensures Sound(Next(s, ev)) && Honest(Next(s, ev))
  {
    hide Sound, Honest, Next, IntactFrom;
    NextSound(s, ev);
    NextHonest(s, ev);
  }
}
