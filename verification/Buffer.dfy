/** The pulse buffer (cnc_buffer.c) and the run start that publishes to the
    engine (cnc.c), over one ring, proved against Playback. */
module Buffer {
  import opened Words
  import opened Backtrack
  import opened Pulse
  import opened Playback
  import opened Script

  datatype Reply = Done | Wrote(count: nat) | Busy | NoMemory | Fault | ContextError | NoData | Refused | Invalid

  /** Whether a copy of `n` bytes at offset `off` of the ring needs a second part. */
  lemma SpliceParts(mem: seq<bv8>, start: u32, data: seq<bv8>, k: nat)
    requires |data| <= |mem| && k < |mem|
    ensures var off := start % |mem|;
            var first := if |data| <= |mem| - off then |data| else |mem| - off;
            Splice(mem, start, data)[k]
              == if off <= k < off + first then data[k - off]
                 else if k < |data| - first then data[first + k] else mem[k]
  {
    var size := |mem|;
    var off := start % size;
    assert k - start == (k - off) + (-(start / size)) * size;
    ModShift(k - off, -(start / size), size);
    if k >= off {
      DivModUnique(k - off, 0, k - off, size);
    } else {
      DivModUnique(k - off, -1, k - off + size, size);
    }
  }

  class PulseBuffer {
    const script: SdmaScript
    var inn: u32
    var out: u32
    var total: nat
    var mode: Mode      // the driver's state, as the status lock shows it
    var owner: Owner    // the ring mutex
    var asked: bool     // a run request past its test for data
    ghost var job: seq<bv8>
    ghost var mark: nat
    ghost var goal: int
    ghost var seen: int
    ghost var retraced: bool
    ghost var cleared: nat

    /** The script is well formed and the whole system is in a sound state. */
    ghost predicate Valid()
      reads this, script, script.ring
    {
      script.Valid() && script.Ported() && Sound(View())
    }

    ghost function View(): Sys
      reads this, script, script.ring
    {
      Sys(script.View(), script.ring[..], inn, out, total, mode, owner, asked, job, mark, goal, seen, retraced, cleared)
    }

    constructor (ring: array<bv8>, mapped: bool)
      requires RingSize(ring.Length)
      ensures Valid() && fresh(script) && script.ring == ring && View() == Boot(ring[..], mapped)
    {
      script := new SdmaScript(ring, mapped);
      inn, out, total, mode, owner, asked := 0, 0, 0, Stopped, Free, false;
      job, mark, goal, seen, retraced, cleared := [], 0, 0, 0, false, 0;
      new;
      BootSound(ring[..], mapped);
    }

    /** What a sound state says of the registers the host reads. */
    lemma Registers()
      requires Valid()
      ensures RingSize(script.ring.Length) && total == |job| && inn == Wrap(|job|)
              && script.cursor.head == Wrap(script.at)
      ensures 0 <= script.at <= |job| <= script.at + script.ring.Length
              && Wrap(inn - script.cursor.head) == |job| - script.at
      ensures out == Wrap(seen) && Avail(View()) == Available() == script.ring.Length - (|job| - seen) >= 0
      ensures inn == script.cursor.head <==> |job| == script.at
      ensures !mode.Stopped? ==> !asked && !owner.Runner?
    {
      hide Resident;
      WrapSmall(0);
      IndexDistance(|job|, script.at, script.ring.Length);
      IndexDistance(|job|, seen, script.ring.Length);
    }

    /** Reads the play head from the channel context. */
    method SyncHead(headOk: bool) returns (ok: bool)
      requires Valid()
      modifies this`out, this`seen
      ensures ok == headOk && Valid()
      ensures View() == Next(old(View()), Sync(headOk))
      ensures ok ==> seen == script.at && out == script.cursor.head
    {
      hide Context, Linked, Placed, Resident;
      script.Indices();
      SyncSound(View());
      if headOk {
        out := script.cursor.head;
        seen := script.at;
      }
      return headOk;
    }

    /** Room for the writer, from the head it last read. */
    function Available(): int
      reads this`inn, this`out
    {
      script.ring.Length - Wrap(inn - out)
    }

    /** The copy into the ring: up to its end, then on from its start. */
    method CopyIn(data: seq<bv8>)
      requires 0 < script.ring.Length && |data| <= script.ring.Length
      modifies script.ring
      ensures script.ring[..] == Splice(old(script.ring[..]), inn, data)
    {
      var ring := script.ring;
      ghost var was := ring[..];
      var off := inn % ring.Length;
      var first := if |data| <= ring.Length - off then |data| else ring.Length - off;
      forall k | off <= k < off + first {
        ring[k] := data[k - off];
      }
      forall k | 0 <= k < |data| - first {
        ring[k] := data[first + k];
      }
      forall k | 0 <= k < ring.Length
        ensures ring[..][k] == Splice(was, inn, data)[k]
      {
        SpliceParts(was, inn, data, k);
      }
    }

    /** First half of a write: take the ring, refuse during a backward run, read
        the play head. */
    method BeginWrite(headOk: bool) returns (r: Reply)
      requires Valid() && owner.Free?
      modifies this`owner, this`out, this`seen
      ensures Valid() && View() == Next(old(View()), WriteBegin(headOk))
      ensures r == if mode.PlayingBackward? then Busy else if !headOk then ContextError else Done
      ensures if r == Done then owner == Writer && seen == script.at else owner == Free
    {
      hide Context, Linked, Placed, Resident;
      NextSound(View(), WriteBegin(headOk));
      script.Indices();
      if mode.PlayingBackward? {
        return Busy;
      }
      if !headOk {
        return ContextError;
      }
      owner := Writer;
      out := script.cursor.head;
      seen := script.at;
      return Done;
    }

    /** The copy from the writer's memory; a short one is rolled back, and leaves what
        it wrote in the ring. */
    method CopyFromUser(data: seq<bv8>, copy: Copy) returns (ok: bool)
      requires 0 < script.ring.Length && |data| <= script.ring.Length
      modifies this`inn, this`mark, script.ring
      ensures ok <==> copy.Whole?
      ensures script.ring[..] == Splice(old(script.ring[..]), old(inn), Landed(data, copy))
      ensures inn == (if ok then Wrap(old(inn) + |data|) else old(inn))
              && mark == Max(old(mark), |job| + |Landed(data, copy)|)
    {
      CopyIn(Landed(data, copy));
      mark := Max(mark, |job| + |Landed(data, copy)|);
      var copied := if copy.Whole? then |data| else copy.copied;
      ghost var taken: int := copied;
      WrapAdd(inn + copied, -taken);
      WrapSmall(inn);
      inn := Wrap(inn + copied);
      if copy.Short? {
        inn := Wrap(inn - copied);
        return false;
      }
      return true;
    }

    /** Second half: refuse what does not fit, copy, roll a short copy back, else
        publish the new tail. */
    method FinishWrite(data: seq<bv8>, copy: Copy, publishOk: bool) returns (r: Reply)
      requires Valid() && owner.Writer?
      modifies this, script`cursor, script.ring
      ensures Valid() && owner.Free? && View() == Next(old(View()), WriteEnd(data, copy, publishOk))
      ensures r == if old(Available()) < |data| + GAP then NoMemory else if copy.Short? then Fault
                   else if publishOk then Wrote(|data|) else ContextError
    {
      hide EndWrite, Linked, Placed, Resident, Avail, Context, SdmaScript.Ported;
      Registers();
      NextSound(View(), WriteEnd(data, copy, publishOk));
      if Available() < |data| + GAP {
        owner := Free;
        RefusedWrite(old(View()), data, copy, publishOk);
        return NoMemory;
      }
      r := TakeData(data, copy, publishOk);
    }

    /** What there is room for: copied, a short copy rolled back, a whole one counted
        and its tail published; the ring is released. */
    method TakeData(data: seq<bv8>, copy: Copy, publishOk: bool) returns (r: Reply)
      requires Valid() && Available() >= |data| + GAP
      modifies this, script`cursor, script.ring
      ensures script.Valid() && script.Ported() && owner.Free? && View() == EndWrite(old(View()), data, copy, publishOk)
      ensures r == if copy.Short? then Fault else if publishOk then Wrote(|data|) else ContextError
    {
      hide Context, Splice, Landed, SdmaScript.Ported, Linked, Placed, Resident, Wrap, Max, Avail;
      Registers();
      owner := Free;
      var ok := CopyFromUser(data, copy);
      if !ok {
        return Fault;
      }
      WholeLands(data);
      total := total + |data|;
      job := job + data;
      if !publishOk {
        return ContextError;
      }
      script.SetTail(inn);
      goal := |job|;
      return Wrote(|data|);
    }

    /** A whole write. What is reported as written is queued and published; a write that
        reports an error is queued all the same exactly when the head was read, there was
        room, the copy was whole and only the publishing failed; any other leaves the job
        alone. Room is what lies between the bytes not yet played and the gap. */
    method AddUserData(data: seq<bv8>, copy: Copy, headOk: bool, publishOk: bool) returns (r: Reply)
      requires Valid() && owner.Free?
      modifies this, script`cursor, script.ring
      ensures Valid() && owner.Free?
      ensures View() == Next(Next(old(View()), WriteBegin(headOk)), WriteEnd(data, copy, publishOk))
      ensures var room := |old(job)| - old(script.at) + |data| + 0x8000 <= script.ring.Length;
              var kept := !old(mode).PlayingBackward? && headOk && room && copy.Whole?;
              && r == (if old(mode).PlayingBackward? then Busy
                       else if !headOk then ContextError
                       else if !room then NoMemory
                       else if copy.Short? then Fault
                       else if publishOk then Wrote(|data|) else ContextError)
              && job == (if kept then old(job) + data else old(job))
              && goal == (if kept && publishOk then |job| else old(goal))
              && (r == ContextError && job != old(job) <==> kept && !publishOk && data != [])
    {
      hide Context, Splice, Landed, Linked, Placed, Resident;
      r := BeginWrite(headOk);
      if r == Done {
        Registers();
        r := FinishWrite(data, copy, publishOk);
      }
    }

    method ResetData()
      modifies this`inn, this`out, this`total, this`job, this`mark, this`goal, this`seen, this`retraced, this`cleared
      modifies script`counters, script`cursor, script`at
      ensures (old(script.Valid()) ==> script.Valid()) && View() == ClearData(old(View()))
      ensures inn == 0 && out == 0 && total == 0 && script.counters.bytes == 0
      ensures script.cursor.head == 0 && script.cursor.tail == 0
    {
      hide Context;
      Forget();
      script.ClearData();
      inn, out, total := 0, 0, 0;
    }

    ghost method Forget()
      modifies this`job, this`mark, this`goal, this`seen, this`retraced, this`cleared
      ensures job == [] && mark == 0 && goal == 0 && seen == 0 && !retraced && cleared == |script.View().log|
    {
      job, mark, goal, seen, retraced := [], 0, 0, 0, false;
      cleared := |script.log|;
    }

    method ResetPosition()
      modifies script`counters
      ensures View() == ClearPosition(old(View()))
      ensures script.counters.x == 0 && script.counters.y == 0 && script.counters.z == 0
    {
      hide Context;
      script.ClearPosition();
    }

    /** A reset of the data, the position or both; refused during a run. */
    method Clear(pulses: bool, position: bool) returns (r: Reply)
      requires Valid() && owner.Free?
      modifies this, script
      ensures Valid() && View() == Next(old(View()), Event.Clear(pulses, position))
      ensures r == if !old(mode).Stopped? then Refused else if pulses || position then Done else Invalid
      ensures r == Done && pulses ==> job == [] && script.at == 0 && inn == 0 && script.cursor.head == 0
      ensures r == Done && position ==> script.counters.x == 0 && script.counters.y == 0 && script.counters.z == 0
      ensures !(r == Done && pulses) ==> job == old(job) && script.at == old(script.at)
    {
      hide ClearData, ClearPosition, Context, Linked, Placed, Resident;
      NextSound(View(), Event.Clear(pulses, position));
      DataGone(View());
      script.Indices();
      if !mode.Stopped? {
        return Refused;
      }
      if !pulses && !position {
        return Invalid;
      }
      if pulses {
        ResetData();
      }
      if position {
        ResetPosition();
      }
      script.Indices();
      return Done;
    }

    /** Whether there is nothing to play; a failed fetch of the head reads as empty. */
    method IsEmpty(headOk: bool) returns (empty: bool)
      requires Valid()
      modifies this`out, this`seen
      ensures Valid() && View() == Next(old(View()), Sync(headOk))
      ensures empty <==> !headOk || |job| == script.at
    {
      hide Linked, Placed, Resident, Wrap;
      var ok := SyncHead(headOk);
      Registers();
      empty := !ok || inn == out;
    }

    /** How long a backward run may be asked for: the walk back to the dead stop less
        the tail, or nothing when the head cannot be fetched. */
    method MaxBacktrackLength(stepFreq: u32, rampRate: u32, headOk: bool) returns (steps: u32)
      requires Valid()
      modifies this`out, this`seen
      ensures Valid() && View() == Next(old(View()), Sync(headOk))
      ensures var tail := DecelSteps(stepFreq, rampRate);
              steps == if headOk then MaxSteps(script.ring.Length, Wrap(inn - script.cursor.head), total, tail) else 0
      ensures steps > 0 ==>
                steps + DecelSteps(stepFreq, rampRate) == script.at - (|job| - Span(script.ring.Length, |job|))
    {
      hide Linked, Placed, Resident, DecelSteps, MaxSteps;
      var ok := SyncHead(headOk);
      if !ok {
        return 0;
      }
      Registers();
      var decel := DecelSteps(stepFreq, rampRate);
      AllowanceReachesDeadStop(script.ring.Length, inn, out, total, decel);
      WalkToDeadStop(script.ring.Length, inn, out, total);
      steps := MaxSteps(script.ring.Length, Wrap(inn - out), total, decel);
    }

    /** Room a writer is told of, from the head last read: what is free, less the gap.
        A failed fetch of the head answers from the head read before. */
    method FreeSpace(headOk: bool) returns (free: nat)
      requires Valid()
      modifies this`out, this`seen
      ensures Valid() && View() == Next(old(View()), Sync(headOk)) && seen == if headOk then script.at else old(seen)
      ensures var room := script.ring.Length - (|job| - seen) - 0x8000; free == if room > 0 then room else 0
    {
      hide Linked, Placed, Resident;
      var ok := SyncHead(headOk);
      Registers();
      var avail := Available();
      free := if avail > GAP then avail - GAP else 0;
    }

    /** First part of a run request: refused during a run, and on an empty ring. */
    method AskRun(headOk: bool) returns (r: Reply)
      requires Valid() && !owner.Runner?
      modifies this`out, this`seen, this`asked
      ensures Valid() && View() == Next(old(View()), Ask(headOk))
      ensures r == if !mode.Stopped? then Refused else if headOk && |job| != script.at then Done else NoData
      ensures asked <==> r == Done
    {
      hide Context, Linked, Placed, Resident, Wrap;
      NextSound(View(), Ask(headOk));
      Registers();
      script.Indices();
      if !mode.Stopped? {
        return Refused;
      }
      var empty := IsEmpty(headOk);
      asked := !empty;
      return if empty then NoData else Done;
    }

    /** The registers of a run. */
    method SetRunRegisters(backward: bool, way: u32, accelerate: bool)
      requires RingSize(script.ring.Length)
      modifies this`goal, this`owner, this`asked, script`cursor, script`bits, script`outputs
      ensures script.Valid() && View() == Publish(old(View()), backward, way, accelerate)
    {
      hide Context, DeadStop, Span;
      owner, asked := Runner(backward), false;
      var tail := if backward then DeadStop(script.ring.Length, inn, total) else inn;
      goal := if backward then |job| - Span(script.ring.Length, total) else |job|;
      script.SetRun(tail, backward, way, if accelerate && !backward then LASER else 0);
    }

    /** Second part, under the ring mutex, which it keeps: a backtrack beyond the
        allowance is refused, any other run has its registers published. */
    method PublishRun(backward: bool, way: u32, accelerate: bool, stepFreq: u32, rampRate: u32, headOk: bool)
        returns (r: Reply)
      requires Valid() && asked && owner.Free? && (backward ==> way > 0)
      modifies this, script`cursor, script`bits, script`outputs
      ensures Valid() && !asked
      ensures View() == Next(old(View()), if backward && !headOk then Drop
                                          else Event.PublishRun(backward, way, accelerate,
                                                                DecelSteps(stepFreq, rampRate)))
      ensures r == Done <==> owner == Runner(backward)
      ensures r == Done || owner.Free?
    {
      hide Context, MaxSteps, DecelSteps, Publish, Linked, Resident;
      ghost var ev := if backward && !headOk then Drop
                      else Event.PublishRun(backward, way, accelerate, DecelSteps(stepFreq, rampRate));
      NextSound(View(), ev);
      Registers();
      script.Indices();
      if backward {
        var max := MaxBacktrackLength(stepFreq, rampRate, headOk);
        if way > max {
          asked := false;
          return Refused;
        }
      }
      PublishTakes(View(), backward, way, accelerate);
      SetRunRegisters(backward, way, accelerate);
      return Done;
    }

    /** Last part: the run commits unless a stop or a fault got in between. */
    method CommitRun(ok: bool) returns (r: Reply)
      requires Valid() && owner.Runner?
      modifies this`owner, this`mode, this`retraced
      ensures Valid() && View() == Next(old(View()), Event.CommitRun(ok))
      ensures r == (if ok then Done else Refused) && owner.Free?
      ensures mode == if !ok then Stopped else if old(owner).backward then PlayingBackward else PlayingForward
    {
      hide Linked, Resident;
      NextSound(View(), Event.CommitRun(ok));
      if !ok {
        owner := Free;
        return Refused;
      }
      mode := if owner.backward then PlayingBackward else PlayingForward;
      retraced := retraced || owner.backward;
      owner := Free;
      return Done;
    }

    method Stop()
      requires Valid()
      modifies this`mode
      ensures Valid() && View() == Next(old(View()), Event.Stop) && mode == Stopped
    {
      hide Linked, Placed, Resident;
      NextSound(View(), Event.Stop);
      mode := Stopped;
    }

    method SetLock(mask: bv32)
      requires Valid()
      modifies script`bits
      ensures Valid() && View() == Next(old(View()), Event.SetLock(mask)) && script.bits.lock == mask & 0x2070_0000
    {
      hide Context, Linked, Placed, Resident;
      NextSound(View(), Event.SetLock(mask));
      script.SetMotorLock(mask);
    }

    method Service()
      requires Valid()
      modifies script`outputs
      ensures Valid() && View() == Next(old(View()), Event.Service) && !script.outputs.line
    {
      hide Context, Linked, Placed, Resident;
      NextSound(View(), Event.Service);
      script.TakeInterrupt();
    }

    /** A timer event reaches the script only while a run lasts. */
    method TimerTick()
      requires Valid()
      modifies script
      ensures Valid() && View() == Next(old(View()), Event.TimerTick)
    {
      hide Context, Placed, Resident;
      NextSound(View(), Event.TimerTick);
      if !mode.Stopped? {
        script.Tick();
      }
    }
  }

  lemma RefusedWrite(s: Sys, data: seq<bv8>, copy: Copy, publishOk: bool)
    requires RingSize(|s.mem|) && Avail(s) < |data| + GAP
    ensures EndWrite(s, data, copy, publishOk) == s.(owner := Free)
  {
  }

  lemma WholeLands(data: seq<bv8>)
    ensures Landed(data, Whole) == data
  {
  }

  lemma DataGone(s: Sys)
    ensures ClearData(s).job == [] && ClearData(s).e.at == 0 && ClearPosition(s).job == s.job
            && ClearPosition(s).e.at == s.e.at
    ensures ClearPosition(ClearData(s)).job == [] && ClearPosition(ClearData(s)).e.at == 0
  {
  }

  lemma PublishTakes(s: Sys, backward: bool, way: u32, accelerate: bool)
    requires RingSize(|s.mem|)
    ensures Publish(s, backward, way, accelerate).owner == Runner(backward)
            && !Publish(s, backward, way, accelerate).asked
  {
  }
}
