/** The discrete speed ramp the driver's 10 ms timer plays (cnc.c), measured
    against the tail that cnc_backtrack.h reserves for it. */
module Ramp {
  import opened Words
  import opened Backtrack

  const RAMP_MIN: nat := 900
  const RAMP_RATE_DEFAULT: nat := 125000
  const RAMP_UPDATES_PER_SEC: nat := 100

  /** One deceleration update of a rate that is still above the minimum. */
  function SlowDown(freq: nat, delta: nat): nat {
    if freq > RAMP_MIN + delta then freq - delta else RAMP_MIN
  }

  /** Timer fires from the start of a deceleration at `freq` to its stop. */
  function Fires(freq: nat, delta: nat): nat
    requires delta > 0
    decreases freq
  {
    if freq <= RAMP_MIN then 1 else 1 + Fires(SlowDown(freq, delta), delta)
  }

  /** The sum of the rates of those 10 ms intervals: 100 times the ticks played. */
  function Travel(freq: nat, delta: nat): nat
    requires delta > 0
    decreases freq
  {
    if freq <= RAMP_MIN then freq else freq + Travel(SlowDown(freq, delta), delta)
  }

  /** A deceleration ends, after exactly this many timer fires. */
  lemma {:induction false} FiresClosedForm(freq: nat, delta: nat)
    requires delta > 0 && freq > RAMP_MIN
    ensures Fires(freq, delta) == Updates(freq, delta) + 1
    decreases freq
  {
    UpdatesStep(freq, delta);
    if freq > RAMP_MIN + delta {
      FiresClosedForm(freq - delta, delta);
    }
  }

  /** Updates that a deceleration from above the minimum makes. */
  function Updates(freq: nat, delta: nat): nat
    requires delta > 0 && freq > RAMP_MIN
  {
    (freq - RAMP_MIN + delta - 1) / delta
  }

  /** Twice what a deceleration of `n` updates plays, before dividing by 100. */
  function TwiceTravel(freq: int, delta: int, n: int): int {
    2 * (n * freq) - delta * (n * (n - 1)) + 2 * RAMP_MIN
  }

  lemma UpdatesStep(freq: nat, delta: nat)
    requires delta > 0 && freq > RAMP_MIN
    ensures freq > RAMP_MIN + delta ==> Updates(freq, delta) == Updates(freq - delta, delta) + 1
    ensures freq <= RAMP_MIN + delta ==> Updates(freq, delta) == 1
  {
    var n := freq - RAMP_MIN + delta - 1;
    if freq > RAMP_MIN + delta {
      var m := n - delta;
      assert n == (m / delta + 1) * delta + m % delta by {
        assert m == delta * (m / delta) + m % delta;
      }
      DivModUnique(n, m / delta + 1, m % delta, delta);
    } else {
      DivModUnique(n, 1, n - delta, delta);
    }
  }

  lemma TwiceTravelStep(freq: int, delta: int, n: int)
    ensures TwiceTravel(freq, delta, n + 1) == 2 * freq + TwiceTravel(freq - delta, delta, n)
  {
    assert (n + 1) * freq == n * freq + freq;
    assert n * (freq - delta) == n * freq - n * delta;
    assert delta * ((n + 1) * n) == delta * (n * (n - 1)) + 2 * (n * delta);
  }

  /** What a deceleration plays, exactly. */
  lemma {:induction false} TravelClosedForm(freq: nat, delta: nat)
    requires delta > 0 && freq > RAMP_MIN
    ensures 2 * Travel(freq, delta) == TwiceTravel(freq, delta, Updates(freq, delta))
    decreases freq
  {
    UpdatesStep(freq, delta);
    if freq > RAMP_MIN + delta {
      TravelClosedForm(freq - delta, delta);
      TwiceTravelStep(freq, delta, Updates(freq - delta, delta));
    } else {
      TwiceTravelStep(freq, delta, 0);
    }
  }

  /** Whether the tail reserved for a stop from `freq` covers its ramp. */
  predicate ReserveCovers(freq: u32, delta: nat)
    requires 0 < delta && RAMP_UPDATES_PER_SEC * delta < U32 && freq > RAMP_MIN
  {
    TwiceTravel(freq, delta, Updates(freq, delta)) <= 200 * DecelSteps(freq, RAMP_UPDATES_PER_SEC * delta)
  }

  /** The ticks of the ramp are within the reserved tail exactly for the settings
      that meet this inequality between them. */
  lemma ReserveCoversIff(freq: u32, delta: nat)
    requires 0 < delta && RAMP_UPDATES_PER_SEC * delta < U32 && freq > RAMP_MIN
    ensures Travel(freq, delta) <= 100 * DecelSteps(freq, RAMP_UPDATES_PER_SEC * delta) <==> ReserveCovers(freq, delta)
  {
    TravelClosedForm(freq, delta);
  }

  /** The quadratic bound on what a deceleration plays. */
  lemma {:induction false} TravelBound(freq: nat, delta: nat)
    requires delta > 0
    ensures 8 * (delta * Travel(freq, delta)) <= 4 * (freq * freq) + 4 * (freq * delta) + 7200 * delta + delta * delta
    decreases freq
  {
    if freq <= RAMP_MIN {
      MulMono(freq, RAMP_MIN, delta);
    } else if freq > RAMP_MIN + delta {
      TravelBound(freq - delta, delta);
      BoundStep(freq, delta, Travel(freq - delta, delta));
    } else {
      LastStep(freq, delta);
    }
  }

  lemma BoundStep(freq: nat, delta: nat, travel: nat)
    requires delta <= freq
    requires 8 * (delta * travel)
             <= 4 * ((freq - delta) * (freq - delta)) + 4 * ((freq - delta) * delta) + 7200 * delta + delta * delta
    ensures 8 * (delta * (freq + travel)) <= 4 * (freq * freq) + 4 * (freq * delta) + 7200 * delta + delta * delta
  {
    assert delta * (freq + travel) == freq * delta + delta * travel;
    assert (freq - delta) * (freq - delta) == freq * freq - 2 * (freq * delta) + delta * delta;
    assert (freq - delta) * delta == freq * delta - delta * delta;
  }

  lemma LastStep(freq: nat, delta: nat)
    ensures 8 * (delta * (freq + RAMP_MIN)) <= 4 * (freq * freq) + 4 * (freq * delta) + 7200 * delta + delta * delta
  {
    var gap: int := 2 * freq - delta;
    assert gap * gap == 4 * (freq * freq) - 4 * (freq * delta) + delta * delta;
    assert gap * gap >= 0;
  }

  /** The ticks a controlled stop really plays exceed the reserved tail by less
      than f/200 + d/800 + 10, for every setting the driver accepts. */
  lemma ReserveShortfall(freq: nat, delta: nat)
    requires STEP_FREQUENCY_MIN <= freq <= STEP_FREQUENCY_MAX
    requires RAMP_RATE_MIN <= RAMP_UPDATES_PER_SEC * delta <= RAMP_RATE_MAX
    ensures 8 * Travel(freq, delta) < 800 * DecelSteps(freq, RAMP_UPDATES_PER_SEC * delta) + 4 * freq + delta + 8000
  {
    var rate := RAMP_UPDATES_PER_SEC * delta;
    var reserve := DecelSteps(freq, rate);
    var square := freq * freq;
    TravelBound(freq, delta);
    assert square < (reserve + 1) * (200 * delta) by {
      TailOverstatesContinuousRamp(freq, rate);
    }
    CancelDelta(Travel(freq, delta), square, freq, delta, reserve);
  }

  lemma CancelDelta(travel: nat, square: nat, freq: nat, delta: nat, reserve: nat)
    requires delta > 0
    requires 8 * (delta * travel) <= 4 * square + 4 * (freq * delta) + 7200 * delta + delta * delta
    requires square < (reserve + 1) * (200 * delta)
    ensures 8 * travel < 800 * (reserve + 1) + 4 * freq + 7200 + delta
  {
    var bound := 800 * (reserve + 1) + 4 * freq + 7200 + delta;
    assert (reserve + 1) * (200 * delta) == 200 * (reserve * delta) + 200 * delta;
    assert bound * delta == 800 * (reserve * delta) + 8000 * delta + 4 * (freq * delta) + delta * delta;
    var d: int := 8 * travel - bound;
    assert d * delta == 8 * (delta * travel) - bound * delta;
    MultipleGap(d, delta);
  }

  lemma TravelStep(freq: nat, delta: nat)
    requires freq > RAMP_MIN && delta > 0
    ensures Travel(freq, delta) == freq + Travel(SlowDown(freq, delta), delta)
  {
  }

  lemma SlowestPart()
    ensures Travel(5000, 1250) == 13400
  {
    TravelStep(1250, 1250);
    TravelStep(2500, 1250);
    TravelStep(3750, 1250);
    TravelStep(5000, 1250);
  }

  lemma FastestPart()
    ensures Travel(10000, 1250) == 32500 + Travel(5000, 1250)
  {
    TravelStep(6250, 1250);
    TravelStep(7500, 1250);
    TravelStep(8750, 1250);
    TravelStep(10000, 1250);
  }

  lemma DefaultReserve()
    ensures DecelSteps(10000, 125000) == 400
  {
    WrapSmall(10000 * 10);
    WrapSmall(2 * 125);
  }

  /** At the default 10 kHz and 125 kHz/s the reserved tail is 400 ticks and the
      ramp plays 459: an allowed run can meet its dead stop while still moving. */
  lemma DefaultRampOverrunsItsReserve()
    ensures DecelSteps(10000, 125000) == 400
    ensures Travel(10000, RAMP_RATE_DEFAULT / RAMP_UPDATES_PER_SEC) == 100 * 459
  {
    DefaultReserve();
    SlowestPart();
    FastestPart();
  }

  /** At the slowest setting, 1001 Hz and 10 kHz/s, the reserve of 100 ticks covers
      the ramp's 28: neither answer is the only one. */
  lemma SlowRampFitsItsReserve()
    ensures ReserveCovers(1001, 100) && !ReserveCovers(10000, RAMP_RATE_DEFAULT / RAMP_UPDATES_PER_SEC)
  {
    WrapSmall(1001 * 2);
    WrapSmall(2 * 10);
    WrapSmall(10000 * 10);
    WrapSmall(2 * 125);
    assert Updates(1001, 100) == 2 && Updates(10000, 1250) == 8;
  }
}
