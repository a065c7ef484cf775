/** The engine's ticks as the driver's lifecycle sees them. */
module Signalling {
  import opened Words
  import opened Engine
  import opened Parking
  import D = Driver

  /** Bytes between two head positions, in either direction. */
  function Distance(a: int, b: int): nat {
    if a < b then b - a else a - b
  }

  /** The signals of an engine whose run was published at index `start`. */
  function SignalsOf(e: Engine, start: int): D.Signals {
    D.Signals(e.way, e.dir.Parked?, e.mailbox, e.line, Distance(start, e.at))
  }

  /** Passes since `e0` in one direction. */
  predicate Passed(e0: Engine, e: Engine, count: nat) {
    && e.dir == e0.dir && !e.dir.Parked? && e.mailbox == e0.mailbox && e.at == e0.at + count * Increment(e.dir)
    && e.way == (if e0.way <= count then 0 else e0.way - count)
    && e.line == (e0.line || 0 < e0.way <= count)
  }

  lemma PassCounts(e0: Engine, e: Engine, b: bv8, count: nat)
    requires Passed(e0, e, count)
    ensures Passed(e0, Pass(e, b), count + 1)
  {
    hide Pass, Body;
    PassFrame(e, b);
  }

  lemma {:induction false} ConsumeCounts(e0: Engine, e: Engine, mem: seq<bv8>, count: nat)
      returns (total: nat, ended: bool)
    requires RingSize(|mem|) && Passed(e0, e, count)
    ensures count <= total && (ended || count < total)
    ensures var t := Consume(e, mem);
            if ended then exists f :: Passed(e0, f, total) && Idle(f, |mem|) && t == AllDone(f)
            else Passed(e0, t, total)
    decreases Room(e, |mem|)
  {
    hide Pass, AllDone, Again, Room;
    if Idle(e, |mem|) {
      total, ended := count, true;
    } else {
      var b := mem[Slot(e.head, |mem|)];
      PassCounts(e0, e, b, count);
      if Again(e, b) {
        RoomShrinks(e, b, |mem|);
        total, ended := ConsumeCounts(e0, Pass(e, b), mem, count + 1);
      } else {
        total, ended := count + 1, false;
      }
    }
  }

  /** Whether the head is on the run's side of where it was published. */
  predicate OnCourse(e: Engine, start: int) {
    (e.dir.Forward? ==> start <= e.at) && (e.dir.Backward? ==> e.at <= start)
  }

  lemma PassedSignals(e0: Engine, f: Engine, count: nat, start: int)
    requires Passed(e0, f, count) && OnCourse(e0, start)
    ensures OnCourse(f, start) && SignalsOf(f, start) == D.SignalTick(SignalsOf(e0, start), count, false, false)
  {
  }

  lemma EndSignals(e0: Engine, f: Engine, count: nat, start: int)
    requires Passed(e0, f, count) && OnCourse(e0, start)
    ensures OnCourse(AllDone(f), start)
    ensures SignalsOf(AllDone(f), start) == D.SignalTick(SignalsOf(e0, start), count, true, false)
  {
    PassedSignals(e0, f, count, start);
  }

  /** Every tick of the script is a tick of the lifecycle model: some number of
      bytes executed, the waypoint counted down by it, its interrupt raised when
      it is reached, and the end of data published when the data runs out. */
  lemma TickIsASignalTick(e: Engine, mem: seq<bv8>, start: int) returns (count: nat, ended: bool, again: bool)
    requires RingSize(|mem|) && MailboxTrue(e) && OnCourse(e, start)
    ensures SignalsOf(Tick(e, mem), start) == D.SignalTick(SignalsOf(e, start), count, ended, again)
    ensures OnCourse(Tick(e, mem), start)
  {
    count, ended, again := 0, false, false;
    if e.resume.AtStart? {
    } else if e.dir.Parked? {
      assert Tick(e, mem) == AllDone(e);
      again := AllDone(e).line;
    } else {
      assert e.at == e.at + 0 * Increment(e.dir);
      count, ended := ConsumeCounts(e, e, mem, 0);
      if ended {
        var f :| Passed(e, f, count) && Idle(f, |mem|) && Tick(e, mem) == AllDone(f);
        EndSignals(e, f, count, start);
      } else {
        PassedSignals(e, Tick(e, mem), count, start);
      }
    }
  }
}
