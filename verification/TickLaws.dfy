/** What one timer tick takes, forward and backward. */
module TickLaws {
  import opened Words
  import opened Pulse
  import opened Engine

  /** What a forward tick takes: a step byte, or a power byte in a row, by itself; the first
      power byte of a row together with the byte after it, whatever that is, and it parks if
      there is none. */
  lemma ForwardTickTakes(e: Engine, mem: seq<bv8>)
    requires RingSize(|mem|) && e.resume.AtLoop? && e.dir.Forward? && !Idle(e, |mem|)
    ensures var t := Tick(e, mem); var b := mem[Slot(e.head, |mem|)];
            if b & 0x80 == 0 || e.lastPower then t.at == e.at + 1 && t.dir.Forward?
            else if Slot(e.head + 1, |mem|) == Slot(e.tail, |mem|) then t.at == e.at + 1 && t.dir.Parked?
            else t.at == e.at + 2 && t.dir.Forward?
  {
    hide Pass, Body;
    var b := mem[Slot(e.head, |mem|)];
    PassFrame(e, b);
    if Again(e, b) {
      var p := Pass(e, b);
      RoomShrinks(e, b, |mem|);
      SlotOfWrap(e.head + 1, |mem|);
      assert Tick(e, mem) == Consume(p, mem);
      if Idle(p, |mem|) {
        RestFrame(p);
      } else {
        PassFrame(p, mem[Slot(p.head, |mem|)]);
      }
    }
  }

  /** Whether the byte `k` indices behind the head is a power byte. */
  predicate PowerBehind(head: u32, mem: seq<bv8>, k: int)
    requires |mem| > 0
  {
    mem[Slot(head - k, |mem|)] & 0x80 != 0
  }

  /** What a backward tick takes: the power bytes under and behind the head, up to and with
      the first step byte, or to the dead stop, where it parks. */
  lemma {:induction false} BackwardTickTakes(e: Engine, mem: seq<bv8>)
    requires RingSize(|mem|) && e.resume.AtLoop? && e.dir.Backward? && !e.lastPower && !Idle(e, |mem|)
    ensures var t := Tick(e, mem); var n := e.at - t.at;
            && n >= 1 && (forall k :: 0 <= k < n - 1 ==> PowerBehind(e.head, mem, k))
            && (if PowerBehind(e.head, mem, n - 1) then t.dir.Parked? else t.dir.Backward?)
    decreases Room(e, |mem|)
  {
    hide Pass, Body, PowerBehind;
    var b := mem[Slot(e.head, |mem|)];
    var p := Pass(e, b);
    PassFrame(e, b);
    PowerUnder(e.head, mem);
    if Again(e, b) {
      RoomShrinks(e, b, |mem|);
      assert Tick(e, mem) == Consume(p, mem) == Tick(p, mem);
      if Idle(p, |mem|) {
        RestFrame(p);
      } else {
        BackwardTickTakes(p, mem);
        OneBehind(e.head, p.head, mem, e.at - Tick(e, mem).at);
      }
    }
  }

  lemma PowerUnder(head: u32, mem: seq<bv8>)
    requires |mem| > 0
    ensures PowerBehind(head, mem, 0) <==> IsPower(mem[Slot(head, |mem|)])
  {
  }

  /** From one index further back everything is one nearer. */
  lemma OneBehind(head: u32, back: u32, mem: seq<bv8>, n: int)
    requires RingSize(|mem|) && back == Wrap(head - 1) && PowerBehind(head, mem, 0)
    requires forall k :: 0 <= k < n - 2 ==> PowerBehind(back, mem, k)
    ensures forall k :: 0 <= k < n - 1 ==> PowerBehind(head, mem, k)
    ensures PowerBehind(back, mem, n - 2) <==> PowerBehind(head, mem, n - 1)
  {
    hide PowerBehind;
    forall k: int
      ensures PowerBehind(back, mem, k - 1) <==> PowerBehind(head, mem, k)
    {
      BehindShift(head, mem, k);
    }
    forall k | 0 <= k < n - 1
      ensures PowerBehind(head, mem, k)
    {
      if k > 0 {
        assert PowerBehind(back, mem, k - 1);
      }
    }
  }

  lemma BehindShift(head: u32, mem: seq<bv8>, k: int)
    requires RingSize(|mem|)
    ensures PowerBehind(Wrap(head - 1), mem, k - 1) <==> PowerBehind(head, mem, k)
  {
    SlotOfWrap(head - 1, |mem|);
    ShiftSlots(Wrap(head - 1), head - 1, k - 1, |mem|);
  }

  lemma ShiftSlots(a: int, b: int, k: int, size: nat)
    requires size > 0 && Slot(a, size) == Slot(b, size)
    ensures Slot(a - k, size) == Slot(b - k, size)
  {
    assert a - k == (b - k) + (a / size - b / size) * size by {
      assert a == size * (a / size) + a % size && b == size * (b / size) + b % size;
    }
    ModShift(b - k, a / size - b / size, size);
  }

  /** A forward tick executes at most two bytes. */
  lemma ForwardTickTakesAtMostTwo(e: Engine, mem: seq<bv8>)
    requires RingSize(|mem|) && e.dir.Forward?
    ensures e.at <= Tick(e, mem).at <= e.at + 2
  {
    if e.resume.AtLoop? && !Idle(e, |mem|) {
      var b := mem[Slot(e.head, |mem|)];
      PassFrame(e, b);
      if Again(e, b) {
        var p := Pass(e, b);
        assert Consume(e, mem) == Consume(p, mem);
        if Idle(p, |mem|) {
          RestFrame(p);
        } else {
          PassFrame(p, mem[Slot(p.head, |mem|)]);
        }
      } else {
        assert Consume(e, mem) == Pass(e, b);
      }
    } else {
      RestFrame(e);
    }
  }
}
