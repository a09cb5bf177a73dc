/**
 * What the camera-shake transitions promise: the invariant every transition keeps, how time
 * accumulates into completion, the pause/play/stop round trips, the shape of the envelope,
 * how the loop setter moves the phase, and how the registry's sum behaves.
 */
module ShakeProperties {
  import opened Vectors
  import opened ShakeModel

  // ---------------------------------------------------------------- invariant

  /** Play, pause, stop and a non-negative tick keep the source invariant. */
  lemma TransitionsKeepInv(st: SourceState, deltaTime: real)
    requires Inv(st) && deltaTime >= 0.0
    ensures Inv(Played(st)) && Inv(Paused(st)) && Inv(Stopped(st)) && Inv(Advanced(st, deltaTime))
    ensures !Advanced(st, deltaTime).loop ==> Advanced(st, deltaTime).phase <= st.lifetime
  {}

  /** The loop setter, as written, keeps the invariant wherever it is defined. */
  lemma LoopSetterKeepsInv(st: SourceState, value: bool)
    requires Inv(st) && LoopRemapDefined(st, value)
    ensures Inv(WithLoop(st, value))
  {
    if value && !st.loop && st.fadeOutTime - st.lifetime < st.phase < st.fadeOutTime {
      // Both the numerator and the denominator of the remap are negative.
      var f := (st.phase - st.lifetime) / (st.fadeOutTime - st.lifetime);
      assert f >= 0.0 by { FlipSigns(st.phase - st.lifetime, st.fadeOutTime - st.lifetime); }
      assert f * st.fadeInTime >= 0.0;
    }
  }

  lemma FlipSigns(a: real, b: real)
    requires b != 0.0
    ensures a / b == (-a) / (-b)
  {}

  // ---------------------------------------------------------------- time

  /** The ticks applied one after the other, first element first. */
  function AdvancedBy(st: SourceState, deltas: seq<real>): SourceState
    decreases |deltas|
  {
    if deltas == [] then st else AdvancedBy(Advanced(st, deltas[0]), deltas[1..])
  }

  function Total(deltas: seq<real>): real {
    if deltas == [] then 0.0 else deltas[0] + Total(deltas[1..])
  }

  predicate NonNegative(deltas: seq<real>) {
    forall i :: 0 <= i < |deltas| ==> deltas[i] >= 0.0
  }

  lemma {:induction false} TotalNonNegative(deltas: seq<real>)
    requires NonNegative(deltas)
    ensures Total(deltas) >= 0.0
  {
    if deltas != [] {
      TotalNonNegative(deltas[1..]);
    }
  }

  /** A source that is not playing ignores ticks. */
  lemma {:induction false} IdleIgnoresTicks(st: SourceState, deltas: seq<real>)
    requires !st.playing
    ensures AdvancedBy(st, deltas) == st
  {
    if deltas != [] {
      IdleIgnoresTicks(st, deltas[1..]);
    }
  }

  /**
   * A playing, non-looping shake that receives non-negative ticks: its phase is the elapsed time
   * capped at the lifetime, it keeps playing while the elapsed time has not passed the lifetime,
   * and it is complete exactly when the elapsed time has reached the lifetime.
   */
  lemma {:induction false} AccumulatedTime(st: SourceState, deltas: seq<real>)
    requires Inv(st) && st.playing && !st.loop
    requires NonNegative(deltas)
    ensures var end := AdvancedBy(st, deltas);
      && end.phase == Min(st.phase + Total(deltas), st.lifetime)
      && (end.playing <==> st.phase + Total(deltas) <= st.lifetime)
      && (IsComplete(end) <==> st.phase + Total(deltas) >= st.lifetime)
      && Inv(end)
    decreases |deltas|
  {
    if deltas != [] {
      var next := Advanced(st, deltas[0]);
      assert NonNegative(deltas[1..]);
      TotalNonNegative(deltas[1..]);
      if st.phase + deltas[0] > st.lifetime {
        IdleIgnoresTicks(next, deltas[1..]);
      } else {
        AccumulatedTime(next, deltas[1..]);
      }
    }
  }

  function Min(a: real, b: real): real { if a < b then a else b }

  // ---------------------------------------------------------------- play, pause, stop

  /** Each of play, pause and stop reaches its target state in one call; repeating it changes nothing. */
  lemma TransitionsIdempotent(st: SourceState)
    ensures Played(Played(st)) == Played(st)
    ensures Paused(Paused(st)) == Paused(st)
    ensures Stopped(Stopped(st)) == Stopped(st)
    ensures Played(st).playing && !Paused(st).playing && !Stopped(st).playing
  {}

  /** Pausing and playing again resumes from the same phase unless the shake was complete. */
  lemma PauseThenPlayResumes(st: SourceState)
    requires st.playing && !IsComplete(st)
    ensures Played(Paused(st)) == st
  {}

  /** A stopped non-looping shake is complete, and playing it again starts from the beginning. */
  lemma StopThenPlayRestarts(st: SourceState)
    requires Inv(st) && !st.loop
    ensures IsComplete(Stopped(st))
    ensures Played(Stopped(st)).phase == 0.0 && Played(Stopped(st)).playing
  {}

  // ---------------------------------------------------------------- envelope

  /** The envelope starts at zero, holds the magnitude between the fades and ends at zero. */
  lemma EnvelopeEdges(st: SourceState)
    requires Inv(st)
    ensures st.phase == 0.0 && st.fadeInTime > 0.0 ==> Envelope(st) == 0.0
    ensures st.fadeInTime <= st.phase <= st.fadeOutTime ==> Envelope(st) == st.magnitude
    ensures st.loop && st.fadeInTime <= st.phase ==> Envelope(st) == st.magnitude
    ensures !st.loop && st.phase == st.lifetime && st.fadeOutTime < st.lifetime ==> Envelope(st) == 0.0
  {}

  /** Over the fade-in the envelope never decreases. */
  lemma EnvelopeRises(st: SourceState, later: real)
    requires Inv(st) && st.phase <= later <= st.fadeInTime
    ensures Envelope(st) <= Envelope(st.(phase := later))
  {
    var m, fi := st.magnitude, st.fadeInTime;
    var after := st.(phase := later);
    assert Inv(after);
    if later == fi {
      assert Envelope(after) == m;
    } else {
      var x, y := m * (st.phase / fi), m * (later / fi);
      assert x <= y by { RisingFraction(m, st.phase, later, fi); }
      assert Envelope(st) == x;
      assert Envelope(after) == y;
    }
  }

  /** Over the fade-out of a non-looping shake the envelope never increases. */
  lemma EnvelopeFalls(st: SourceState, later: real)
    requires Inv(st) && !st.loop && st.fadeOutTime <= st.phase <= later <= st.lifetime
    ensures Envelope(st.(phase := later)) <= Envelope(st)
  {
    var m, l, fo := st.magnitude, st.lifetime, st.fadeOutTime;
    var after := st.(phase := later);
    assert Inv(after);
    if st.phase > fo {
      var x, y := m * ((st.phase - l) / (fo - l)), m * ((later - l) / (fo - l));
      assert y <= x by { FallingFraction(m, st.phase, later, l, fo); }
      assert Envelope(st) == x;
      assert Envelope(after) == y;
    } else {
      assert Envelope(st) == m;
    }
  }

  /** The fade-in ramp m * (p / fi) grows with p. */
  lemma RisingFraction(m: real, p: real, q: real, fi: real)
    requires m >= 0.0 && p <= q && fi > 0.0
    ensures m * (p / fi) <= m * (q / fi)
  {
    DivMonotone(p, q, fi);
    MulMonotone(m, p / fi, q / fi);
  }

  /** The fade-out ramp m * ((p - l) / (fo - l)) shrinks as p grows towards l. */
  lemma FallingFraction(m: real, p: real, q: real, l: real, fo: real)
    requires m >= 0.0 && fo < p <= q <= l
    ensures m * ((q - l) / (fo - l)) <= m * ((p - l) / (fo - l))
  {
    FlipSigns(p - l, fo - l);
    FlipSigns(q - l, fo - l);
    DivMonotone(l - q, l - p, l - fo);
    MulMonotone(m, (q - l) / (fo - l), (p - l) / (fo - l));
  }

  lemma MulMonotone(m: real, a: real, b: real)
    requires m >= 0.0 && a <= b
    ensures m * a <= m * b
  {}

  lemma DivMonotone(a: real, b: real, d: real)
    requires a <= b && d > 0.0
    ensures a / d <= b / d
  {
    assert (b - a) / d >= 0.0;
    assert b / d - a / d == (b - a) / d;
  }

  /** The one-second default shake: 0.4 of its magnitude at 0.1 s and at 0.9 s, over once past 1 s. */
  lemma DefaultShakeScenario(position: Vec3, seed: real)
    ensures var s0 := Initial(DefaultArgs(position, seed, true));
      var s1 := Advanced(s0, 0.1);
      var s2 := Advanced(s1, 0.8);
      var s3 := Advanced(s2, 0.2);
      && Envelope(s1) == 0.4 && Envelope(s2) == 0.4
      && s2.playing && !IsComplete(s2) && !s3.playing && IsComplete(s3)
  {}

  // ---------------------------------------------------------------- loop setter

  /**
   * Disabling the loop is seamless: the noise argument and the envelope are what they were,
   * and a phase past the fade-out start is clamped to it.
   */
  lemma LoopDisableSeamless(st: SourceState)
    requires Inv(st) && st.loop
    ensures var t := WithLoop(st, false);
      && Inv(t) && !t.loop
      && t.phase + t.loopOffset == st.phase + st.loopOffset
      && NoiseArgument(t) == NoiseArgument(st)
      && Envelope(t) == Envelope(st)
      && t.phase == Min(st.phase, st.fadeOutTime)
  {}

  /**
   * Enabling the loop as written: from the fade-out window or later the phase restarts at zero
   * and the offset is kept; from the remap window the phase moves and the noise argument moves
   * by twice the phase's jump.
   */
  lemma LoopEnableAsWritten(st: SourceState)
    requires Inv(st) && !st.loop && LoopRemapDefined(st, true)
    ensures var t := WithLoop(st, true);
      && Inv(t) && t.loop
      && (st.phase >= st.fadeOutTime ==> t.phase == 0.0 && t.loopOffset == st.loopOffset)
      && (t.phase + t.loopOffset) - (st.phase + st.loopOffset)
         == (if st.phase >= st.fadeOutTime then -st.phase else 2.0 * (t.phase - st.phase))
  {
    LoopSetterKeepsInv(st, true);
  }

  /** The written remap moves the noise argument and the envelope: 0.1 s into the default shake. */
  lemma WrittenRemapJumps()
    ensures var st := Initial(DefaultArgs(Zero, 0.0, true)).(phase := 0.1);
      var t := WithLoop(st, true);
      && t.phase == 0.9 && t.loopOffset == 0.8
      && st.phase + st.loopOffset == 0.1 && t.phase + t.loopOffset == 1.7
      && Envelope(st) == 0.4 && Envelope(t) == 1.0
  {}

  /**
   * The written guards restart a shake that is only fading out, and break the off-then-on round
   * trip of a looping shake: 0.9 s into the default shake.
   */
  lemma WrittenGuardsRestart()
    ensures var st := Initial(DefaultArgs(Zero, 0.0, true)).(phase := 0.9);
      var t := WithLoop(st, true);
      && t.phase == 0.0 && Envelope(st) == 0.4 && Envelope(t) == 0.0
    ensures var looping := Initial(DefaultArgs(Zero, 0.0, true)).(phase := 0.9, loop := true);
      var back := WithLoop(WithLoop(looping, false), true);
      && looping.phase + looping.loopOffset == 0.9 && back.phase + back.loopOffset == 0.15
  {}

  /** The intended setter keeps the invariant. */
  lemma IntendedLoopKeepsInv(st: SourceState, value: bool)
    requires Inv(st)
    ensures Inv(WithLoopIntended(st, value))
  {
    if value && !st.loop && st.fadeOutTime < st.phase < st.lifetime {
      ScaledFraction(st.fadeInTime, st.phase - st.lifetime, st.fadeOutTime - st.lifetime);
    }
  }

  /**
   * The intended enable is seamless short of a finished shake: the noise argument is kept, and
   * with a fade-in to land on, so is the envelope.
   */
  lemma IntendedLoopEnableSeamless(st: SourceState)
    requires Inv(st) && !st.loop && st.phase < st.lifetime
    ensures var t := WithLoopIntended(st, true);
      && Inv(t) && t.loop
      && t.phase + t.loopOffset == st.phase + st.loopOffset
      && NoiseArgument(t) == NoiseArgument(st)
      && (st.fadeInTime > 0.0 ==> Envelope(t) == Envelope(st))
  {
    IntendedLoopKeepsInv(st, true);
    if st.phase > st.fadeOutTime && st.fadeInTime > 0.0 {
      RemapKeepsEnvelope(st);
    }
  }

  /** The intended remap lands on the point of the fade-in with the same envelope. */
  lemma RemapKeepsEnvelope(st: SourceState)
    requires Inv(st) && !st.loop && st.fadeOutTime < st.phase < st.lifetime && st.fadeInTime > 0.0
    ensures Inv(WithLoopIntended(st, true))
    ensures Envelope(WithLoopIntended(st, true)) == Envelope(st)
  {
    var l, fo, fi, m := st.lifetime, st.fadeOutTime, st.fadeInTime, st.magnitude;
    var f := (st.phase - l) / (fo - l);
    assert f * fi < fi && m * (f * fi / fi) == m * f by {
      RemapArithmetic(st.phase, l, fo, fi, m);
    }
    IntendedLoopKeepsInv(st, true);
    var t := WithLoopIntended(st, true);
    assert t.phase == f * fi;
    assert Envelope(t) == m * (f * fi / fi);
    assert Envelope(st) == m * f;
  }

  /** The fade-out fraction f is below one, so f * fadeInTime lies inside the fade-in, where it scales back to f. */
  lemma RemapArithmetic(p: real, l: real, fo: real, fi: real, m: real)
    requires fo < p < l && fi > 0.0
    ensures (p - l) / (fo - l) * fi < fi
    ensures m * ((p - l) / (fo - l) * fi / fi) == m * ((p - l) / (fo - l))
  {
    var f := (p - l) / (fo - l);
    FlipSigns(p - l, fo - l);
    DivBelowOne(l - p, l - fo);
    MulBelow(f, fi);
    assert f * fi / fi == f;
  }

  lemma DivBelowOne(a: real, b: real)
    requires a < b && b > 0.0
    ensures a / b < 1.0
  {}

  lemma MulBelow(f: real, b: real)
    requires f < 1.0 && b > 0.0
    ensures f * b < b
  {}

  /**
   * With the intended setter, turning a loop off and on again keeps its noise argument and
   * envelope, unless the fade-out is empty and the phase has reached the lifetime: then the
   * clamp lands on the lifetime and the shake restarts (IntendedRoundTripRestarts).
   */
  lemma IntendedLoopRoundTrip(st: SourceState)
    requires Inv(st) && st.loop && (st.fadeOutTime < st.lifetime || st.phase < st.lifetime)
    ensures var back := WithLoopIntended(WithLoopIntended(st, false), true);
      && back.loop
      && back.phase + back.loopOffset == st.phase + st.loopOffset
      && Envelope(back) == Envelope(st)
  {}

  /** The excluded case: an empty fade-out, a looping phase past the lifetime, switched off and on. */
  lemma IntendedRoundTripRestarts()
    ensures var st := Initial(FadeSpanArgs(Zero, 1.0, 1.0, true, 1.0, 0.25, 0.0, One, 0.0, true)).(phase := 1.5);
      var back := WithLoopIntended(WithLoopIntended(st, false), true);
      && Inv(st) && st.loop && back.loop
      && st.phase + st.loopOffset == 1.5 && back.phase + back.loopOffset == 0.5
      && Envelope(st) == 1.0 && Envelope(back) == 0.0
  {}

  // ---------------------------------------------------------------- sampling

  /** With noise in [0, 1], each axis of the raw shake is at most half the magnitude times the axis scale. */
  lemma RawShakeBounded(st: SourceState, noise: Noise)
    requires Inv(st)
    requires forall a, b :: 0.0 <= noise(a, b) <= 1.0
    ensures var v := RawShake(st, noise);
      && Abs(v.x) <= st.magnitude * Abs(st.scale.x) / 2.0
      && Abs(v.y) <= st.magnitude * Abs(st.scale.y) / 2.0
      && Abs(v.z) <= st.magnitude * Abs(st.scale.z) / 2.0
  {
    var s := Envelope(st);
    var p := NoiseArgument(st);
    var v := RawShake(st, noise);
    assert Abs(v.x) <= st.magnitude * Abs(st.scale.x) / 2.0 by {
      AxisBounded(s, st.magnitude, st.scale.x, noise(p, st.seed));
    }
    assert Abs(v.y) <= st.magnitude * Abs(st.scale.y) / 2.0 by {
      AxisBounded(s, st.magnitude, st.scale.y, noise(st.seed, p));
    }
    assert Abs(v.z) <= st.magnitude * Abs(st.scale.z) / 2.0 by {
      AxisBounded(s, st.magnitude, st.scale.z, noise(p - st.seed, st.seed - p));
    }
  }

  lemma AxisBounded(s: real, m: real, c: real, n: real)
    requires 0.0 <= s <= m && 0.0 <= n <= 1.0
    ensures Abs(AxisShake(s, c, n)) <= m * Abs(c) / 2.0
  {
    AbsMul(s * c, n - 0.5);
    AbsMul(s, c);
    ProductsBounded(s, m, Abs(c), Abs(n - 0.5));
  }

  lemma ProductsBounded(s: real, m: real, a: real, d: real)
    requires 0.0 <= s <= m && a >= 0.0 && 0.0 <= d <= 0.5
    ensures s * a * d <= m * a / 2.0
  {
    MulLe(s, m, a, a);
    MulLe(s * a, m * a, d, 0.5);
  }

  lemma MulLe(a: real, b: real, x: real, y: real)
    requires 0.0 <= a <= b && 0.0 <= x <= y
    ensures 0.0 <= a * x <= b * y
  {
    MulMonotone(a, x, y);
    MulMonotone(y, a, b);
  }

  lemma AbsMul(a: real, b: real)
    ensures Abs(a * b) == Abs(a) * Abs(b)
  {
    if a < 0.0 && b < 0.0 { assert a * b == (-a) * (-b); }
    else if a < 0.0 { assert -(a * b) == (-a) * b; }
    else if b < 0.0 { assert -(a * b) == a * (-b); }
  }

  /** The registry's sum over two groups of sources is the sum of the two groups' sums: no cross-talk. */
  lemma TotalShakeSplit(a: seq<SourceState>, b: seq<SourceState>, point: Vec3, noise: Noise)
    requires AllInv(a) && AllInv(b)
    ensures AllInv(a + b)
    ensures TotalShake(a + b, point, noise) == Add(TotalShake(a, point, noise), TotalShake(b, point, noise))
  {
    assert AllInv(a + b) by {
      forall i | 0 <= i < |a + b| ensures Inv((a + b)[i]) {
        if i >= |a| { assert (a + b)[i] == b[i - |a|]; }
      }
    }
    assert Contributions(a + b, point, noise) == Contributions(a, point, noise) + Contributions(b, point, noise);
    VecSumAppend(Contributions(a, point, noise), Contributions(b, point, noise));
  }

  /** The registry's sum does not depend on the order in which the buffer holds the sources. */
  lemma {:induction false} TotalShakeOrderFree(a: seq<SourceState>, b: seq<SourceState>, point: Vec3, noise: Noise)
    requires AllInv(a) && multiset(a) == multiset(b)
    ensures AllInv(b)
    ensures TotalShake(a, point, noise) == TotalShake(b, point, noise)
  {
    assert AllInv(b) by {
      forall i | 0 <= i < |b| ensures Inv(b[i]) {
        assert b[i] in multiset(a);
      }
    }
    if a == [] {
      assert |b| == |multiset(b)| == 0;
    } else {
      assert a[0] in multiset(b);
      var k :| 0 <= k < |b| && b[k] == a[0];
      var rest := RemovedAt(b, k);
      assert multiset(a[1..]) == multiset(rest) by {
        assert a == [a[0]] + a[1..];
      }
      TotalShakeOrderFree(a[1..], rest, point, noise);
      TotalShakeRemoveAt(b, k, point, noise);
      assert Contributions(a, point, noise) == [Contribution(a[0], point, noise)] + Contributions(a[1..], point, noise);
    }
  }

  function RemovedAt(b: seq<SourceState>, k: nat): (rest: seq<SourceState>)
    requires k < |b|
    ensures multiset(rest) == multiset(b) - multiset{b[k]}
    ensures AllInv(b) ==> AllInv(rest)
  {
    assert b == b[..k] + [b[k]] + b[k + 1..];
    b[..k] + b[k + 1..]
  }

  /** Taking one source out of the sum: the sum is that source's contribution plus the rest's sum. */
  lemma TotalShakeRemoveAt(b: seq<SourceState>, k: nat, point: Vec3, noise: Noise)
    requires AllInv(b) && k < |b|
    ensures AllInv(RemovedAt(b, k))
    ensures TotalShake(b, point, noise) == Add(Contribution(b[k], point, noise), TotalShake(RemovedAt(b, k), point, noise))
  {
    var cb := Contributions(b, point, noise);
    VecSumRemoveAt(cb, k);
    assert cb[..k] + cb[k + 1..] == Contributions(RemovedAt(b, k), point, noise);
  }

  /** Summing from the back: adding the contribution at `i` to the sum after it gives the sum from `i`. */
  lemma TotalShakeSuffix(sts: seq<SourceState>, i: nat, sum: Vec3, c: Vec3, point: Vec3, noise: Noise)
    requires AllInv(sts) && i < |sts|
    requires sum == TotalShake(sts[i + 1..], point, noise) && c == Contribution(sts[i], point, noise)
    ensures Add(sum, c) == TotalShake(sts[i..], point, noise)
  {
    assert sts[i..][1..] == sts[i + 1..];
  }
}
