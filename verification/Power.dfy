/** Which power bytes reach the laser's PWM. */
module Power {
  import opened Words
  import opened Pulse
  import opened Engine
  import opened Playback
  import opened Fifo

  /** Whether the byte before the next one was a power byte. */
  predicate AfterPower(first: bool, bytes: seq<bv8>) {
    if bytes == [] then first else IsPower(bytes[|bytes| - 1])
  }

  /** The duty left by playing `bytes` forward: a power byte counts only when the
      byte before it was a step byte. */
  function DutyAfter(duty: bv8, first: bool, bytes: seq<bv8>): bv8
    decreases |bytes|
  {
    if bytes == [] then duty
    else
      var earlier, b := bytes[..|bytes| - 1], bytes[|bytes| - 1];
      if IsPower(b) && !AfterPower(first, earlier) then b & 0x7f else DutyAfter(duty, first, earlier)
  }

  lemma DutyPush(duty: bv8, first: bool, bytes: seq<bv8>, b: bv8)
    ensures DutyAfter(duty, first, bytes + [b])
         == if IsPower(b) && !AfterPower(first, bytes) then b & 0x7f else DutyAfter(duty, first, bytes)
    ensures AfterPower(first, bytes + [b]) == IsPower(b)
  {
    assert (bytes + [b])[..|bytes|] == bytes;
  }

  /** Of a row of power bytes the first sets the duty; the rest are consumed
      without effect, they do not wait for a later tick. */
  lemma {:induction false} OnlyFirstOfRowCounts(duty: bv8, row: seq<bv8>)
    requires row != [] && forall i :: 0 <= i < |row| ==> IsPower(row[i])
    ensures DutyAfter(duty, false, row) == row[0] & 0x7f
    decreases |row|
  {
    if |row| > 1 {
      OnlyFirstOfRowCounts(duty, row[..|row| - 1]);
    }
  }

  /** Since `e0` the run has executed the bytes `run`. */
  predicate Powered(e0: Engine, e: Engine, run: seq<bv8>) {
    var first := e0.resume.AtLoop? && e0.lastPower;
    && Bytes(e.log) == Bytes(e0.log) + run && !e.dir.Backward?
    && e.duty == DutyAfter(e0.duty, first, run)
    && (e.dir.Forward? ==> (e.resume.AtLoop? && e.lastPower) == AfterPower(first, run))
    && (e.dir.Forward? && e.resume.AtStart? ==> run == [])
  }

  ghost predicate SomePowered(e0: Engine, e: Engine) {
    exists run :: Powered(e0, e, run)
  }

  lemma PassPowered(e0: Engine, e: Engine, b: bv8, run: seq<bv8>)
    requires Powered(e0, e, run) && e.dir.Forward? && e.resume.AtLoop?
    ensures Powered(e0, Pass(e, b), run + [b])
  {
    var first := e0.resume.AtLoop? && e0.lastPower;
    var x := PassLogs(e, b);
    BytesPush(e.log, x);
    DutyPush(e0.duty, first, run, b);
    PassFrame(e, b);
    assert Bytes(e0.log) + run + [b] == Bytes(e0.log) + (run + [b]);
  }

  lemma RestPowered(e0: Engine, e: Engine, run: seq<bv8>)
    requires Powered(e0, e, run)
    ensures Powered(e0, AllDone(e), run)
    ensures e.resume.AtStart? ==> Powered(e0, Restarted(e), run)
  {
    BytesPush(e.log, Park(ParkWord(e.r3)));
  }

  lemma TickPowered(e0: Engine, e: Engine, mem: seq<bv8>)
    requires RingSize(|mem|) && SomePowered(e0, e)
    ensures SomePowered(e0, Tick(e, mem))
  {
    forall f: Engine | SomePowered(e0, f)
      ensures SomePowered(e0, AllDone(f)) && (f.resume.AtStart? ==> SomePowered(e0, Restarted(f)))
      ensures f.resume.AtLoop? && !Idle(f, |mem|) ==> SomePowered(e0, Pass(f, mem[Slot(f.head, |mem|)]))
    {
      var run :| Powered(e0, f, run);
      RestPowered(e0, f, run);
      if f.resume.AtLoop? && !Idle(f, |mem|) {
        PassPowered(e0, f, mem[Slot(f.head, |mem|)], run);
      }
    }
    TickKeeps(e, mem, (f: Engine) => SomePowered(e0, f));
  }

  lemma NextPowered(e0: Engine, s: Sys, ev: Event)
    requires RingSize(|s.mem|) && s.mode.PlayingForward? && SomePowered(e0, s.e) && !ev.Stop?
    ensures SomePowered(e0, Next(s, ev).e) && Next(s, ev).mode.PlayingForward?
  {
    if ev.TimerTick? {
      TickPowered(e0, s.e, s.mem);
    } else {
      HostDuringRun(s, ev);
      var run :| Powered(e0, s.e, run);
      assert Powered(e0, Next(s, ev).e, run);
    }
  }

  /** Throughout a forward run, whatever else happens, the PWM holds the duty
      left by the bytes executed so far. */
  lemma {:induction false} DutyFollowsRun(e0: Engine, s: Sys, evs: seq<Event>)
    requires RingSize(|s.mem|) && s.mode.PlayingForward? && SomePowered(e0, s.e)
    requires forall i :: 0 <= i < |evs| ==> !evs[i].Stop?
    ensures SomePowered(e0, Run(s, evs).e)
    decreases |evs|
  {
    if evs != [] {
      NextPowered(e0, s, evs[0]);
      DutyFollowsRun(e0, Next(s, evs[0]), evs[1..]);
    }
  }

  /** A forward run from its start: the duty is that of exactly the bytes logged
      since. */
  lemma DutyOfRun(s: Sys, evs: seq<Event>)
    requires RingSize(|s.mem|) && s.mode.PlayingForward? && s.e.dir.Forward?
    requires forall i :: 0 <= i < |evs| ==> !evs[i].Stop?
    ensures var t := Run(s, evs);
            && Bytes(s.e.log) <= Bytes(t.e.log)
            && t.e.duty == DutyAfter(s.e.duty, s.e.resume.AtLoop? && s.e.lastPower, Bytes(t.e.log)[|Bytes(s.e.log)|..])
  {
    assert Powered(s.e, s.e, []);
    DutyFollowsRun(s.e, s, evs);
    var t := Run(s, evs).e;
    var run :| Powered(s.e, t, run);
    assert Bytes(t.log)[|Bytes(s.e.log)|..] == run;
  }

  /** A backward run never changes the duty. */
  lemma BackwardKeepsDuty(s: Sys, evs: seq<Event>)
    requires RingSize(|s.mem|) && s.mode.PlayingBackward? && !s.e.dir.Forward?
    requires forall i :: 0 <= i < |evs| ==> !evs[i].Stop?
    ensures Run(s, evs).e.duty == s.e.duty
  {
    KeepsDuty(s, evs, s.e.duty);
  }

  predicate Muted(e: Engine, duty: bv8) {
    !e.dir.Forward? && e.duty == duty
  }

  lemma {:induction false} KeepsDuty(s: Sys, evs: seq<Event>, duty: bv8)
    requires RingSize(|s.mem|) && s.mode.PlayingBackward? && Muted(s.e, duty)
    requires forall i :: 0 <= i < |evs| ==> !evs[i].Stop?
    ensures Muted(Run(s, evs).e, duty)
    decreases |evs|
  {
    if evs != [] {
      NextMuted(s, evs[0], duty);
      KeepsDuty(Next(s, evs[0]), evs[1..], duty);
    }
  }

  lemma NextMuted(s: Sys, ev: Event, duty: bv8)
    requires RingSize(|s.mem|) && s.mode.PlayingBackward? && Muted(s.e, duty) && !ev.Stop?
    ensures Muted(Next(s, ev).e, duty) && Next(s, ev).mode.PlayingBackward?
  {
    if ev.TimerTick? {
      forall f: Engine | Muted(f, duty)
        ensures Muted(AllDone(f), duty) && Muted(Restarted(f), duty)
        ensures f.resume.AtLoop? && !Idle(f, |s.mem|) ==> Muted(Pass(f, s.mem[Slot(f.head, |s.mem|)]), duty)
      {
        if !Idle(f, |s.mem|) {
          PassMuted(f, s.mem[Slot(f.head, |s.mem|)], duty);
        }
      }
      TickKeeps(s.e, s.mem, (f: Engine) => Muted(f, duty));
    } else {
      HostDuringRun(s, ev);
    }
  }

  lemma PassMuted(e: Engine, b: bv8, duty: bv8)
    requires Muted(e, duty) && e.dir.Backward?
    ensures Muted(Pass(e, b), duty)
  {
  }
}
