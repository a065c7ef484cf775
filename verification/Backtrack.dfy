/** Bounds of a backward run over the pulse ring (cnc_backtrack.h). */
module Backtrack {
  import opened Words

  const STEP_FREQUENCY_MIN: nat := 1000
  const STEP_FREQUENCY_MAX: nat := 200000
  const RAMP_RATE_MIN: nat := 10000
  const RAMP_RATE_MAX: nat := 500000

  /** The v^2/2a tail, scaled through kHz, in 32-bit arithmetic. */
  function DecelSteps(stepFreq: u32, rampRate: u32): u32 {
    var fKhz := Wrap(stepFreq + 999) / 1000;
    var rKhz := if rampRate / 1000 == 0 then 1 else rampRate / 1000;
    Wrap(stepFreq * fKhz) / Wrap(2 * rKhz)
  }

  /** The longest backward run that may be asked for. */
  function MaxSteps(ringSize: u32, unplayed: u32, totalBytes: nat, decelSteps: u32): u32 {
    var played := if totalBytes > unplayed then totalBytes - unplayed else 0;
    var resident := Wrap(ringSize - unplayed);
    var genuine := if played < resident then played else resident;
    if genuine > decelSteps then genuine - decelSteps else 0
  }

  /** Bytes behind the write index that are genuine job data. */
  function Span(ringSize: u32, totalBytes: nat): u32 {
    if totalBytes < ringSize then totalBytes else ringSize
  }

  /** The index a backward run must stop at. */
  function DeadStop(ringSize: u32, inIndex: u32, totalBytes: nat): u32 {
    Wrap(inIndex - Span(ringSize, totalBytes))
  }

  /** Back from the play head to the dead stop, through any 32-bit wrap. */
  lemma WalkToDeadStop(ringSize: u32, inIndex: u32, outIndex: u32, totalBytes: nat)
    requires Wrap(inIndex - outIndex) <= Span(ringSize, totalBytes)
    ensures Wrap(outIndex - DeadStop(ringSize, inIndex, totalBytes))
         == Span(ringSize, totalBytes) - Wrap(inIndex - outIndex)
  {
    var span: int := Span(ringSize, totalBytes);
    var unplayed: int := Wrap(inIndex - outIndex);
    WrapSub(outIndex, inIndex - span);
    WrapSub(span, inIndex - outIndex);
    assert outIndex - (inIndex - span) == span - (inIndex - outIndex);
    WrapSmall(span - unplayed);
  }

  /** The allowance plus the reserved tail is exactly the walk from the play
      head back to the dead stop; a zero allowance means the tail alone uses
      that walk up. */
  lemma AllowanceReachesDeadStop(ringSize: u32, inIndex: u32, outIndex: u32, totalBytes: nat, decel: u32)
    requires Wrap(inIndex - outIndex) <= Span(ringSize, totalBytes)
    ensures var walk := Wrap(outIndex - DeadStop(ringSize, inIndex, totalBytes));
            var allowed := MaxSteps(ringSize, Wrap(inIndex - outIndex), totalBytes, decel);
            && (allowed > 0 ==> allowed + decel == walk)
            && (allowed == 0 <==> walk <= decel)
  {
    WalkToDeadStop(ringSize, inIndex, outIndex, totalBytes);
    WrapSmall(ringSize - Wrap(inIndex - outIndex));
  }

  /** With the ring refilled to the writer's gap after a full wrap, a pause is
      always allowed at least the gap less the tail. */
  lemma GapIsTheFloor(ringSize: u32, unplayed: u32, totalBytes: nat, decel: u32)
    requires RingSize(ringSize) && unplayed <= ringSize - 0x8000 && totalBytes >= ringSize
    ensures MaxSteps(ringSize, unplayed, totalBytes, decel) >= 0x8000 - decel
    ensures MaxSteps(ringSize, unplayed, totalBytes, decel) <= ringSize - unplayed
  {
    assert totalBytes - unplayed >= ringSize - unplayed == Wrap(ringSize - unplayed);
  }

  lemma MulMono(a: nat, b: nat, c: nat)
    requires a <= b
    ensures a * c <= b * c
  {
  }

  /** Quotient bounds from a product, and back. */
  lemma QuotientBound(x: nat, m: nat, q: nat)
    requires m > 0
    ensures x < (q + 1) * m ==> x / m <= q
    ensures x < (x / m + 1) * m
  {
    assert x == m * (x / m) + x % m;
    assert x / m > q ==> (x / m) * m >= (q + 1) * m by {
      if x / m > q {
        MulMono(q + 1, x / m, m);
      }
    }
  }

  /** Rounding the frequency up and the rate down to kHz only enlarges v^2/2a. */
  lemma ScalingOverstates(f: nat, fKhz: nat, r: nat, rKhz: nat, q: nat)
    requires f <= 1000 * fKhz && 1000 * rKhz <= r
    requires f * fKhz < (q + 1) * (2 * rKhz)
    ensures f * f < (q + 1) * (2 * r)
  {
    MulMono(f, 1000 * fKhz, f);
    MulMono(1000 * rKhz, r, q + 1);
  }

  /** For every frequency and rate the driver accepts, the scaled product
      stays inside 32 bits. */
  lemma TailFitsInWord(stepFreq: u32, rampRate: u32)
    requires STEP_FREQUENCY_MIN <= stepFreq <= STEP_FREQUENCY_MAX
    requires RAMP_RATE_MIN <= rampRate <= RAMP_RATE_MAX
    ensures stepFreq * ((stepFreq + 999) / 1000) < U32
    ensures DecelSteps(stepFreq, rampRate) == (stepFreq * ((stepFreq + 999) / 1000)) / (2 * (rampRate / 1000))
  {
    WrapSmall(stepFreq + 999);
    WrapSmall(2 * (rampRate / 1000));
    WrapSmall(KhzProduct(stepFreq, (stepFreq + 999) / 1000));
  }

  function KhzProduct(stepFreq: nat, fKhz: nat): (n: nat)
    requires stepFreq <= STEP_FREQUENCY_MAX && fKhz <= 200
    ensures n < U32
  {
    MulMono(fKhz, 200, stepFreq);
    assert fKhz * stepFreq <= 200 * stepFreq;
    stepFreq * fKhz
  }

  /** The reserved tail is never below the exact v^2/2a. */
  lemma TailOverstatesContinuousRamp(stepFreq: u32, rampRate: u32)
    requires STEP_FREQUENCY_MIN <= stepFreq <= STEP_FREQUENCY_MAX
    requires RAMP_RATE_MIN <= rampRate <= RAMP_RATE_MAX
    ensures stepFreq * stepFreq < (DecelSteps(stepFreq, rampRate) + 1) * (2 * rampRate)
    ensures DecelSteps(stepFreq, rampRate) >= (stepFreq * stepFreq) / (2 * rampRate)
  {
    var fKhz: nat := (stepFreq + 999) / 1000;
    var rKhz: nat := rampRate / 1000;
    var num: nat := stepFreq * fKhz;
    var q := DecelSteps(stepFreq, rampRate);
    assert num < (q + 1) * (2 * rKhz) by {
      TailFitsInWord(stepFreq, rampRate);
      QuotientBound(num, 2 * rKhz, q);
    }
    ScalingOverstates(stepFreq, fKhz, rampRate, rKhz, q);
    QuotientBound(stepFreq * stepFreq, 2 * rampRate, q);
  }
}
