/**
 * The state of one camera-shake source as a value, and every transition the
 * source's methods make, as functions. The class in camera_system.dfy is proved
 * against these functions; the lemmas here state what the transitions promise.
 */
module ShakeModel {
  import opened Vectors
  import opened Results

  /** Coherent noise sampled at a point of the plane (the engine's Perlin noise), left uninterpreted. */
  type Noise = (real, real) -> real

  /** The parameters an exception can name. */
  datatype Param = Magnitude | Roughness | Lifetime | FadeInTime | FadeOutTime

  datatype ShakeError =
    | ArgumentOutOfRange(param: Param)  // thrown by the factory
    | InvalidArgument(param: Param)     // thrown by a property setter

  /** The arguments of the private factory every public overload forwards to. */
  datatype CreateArgs = CreateArgs(
    magnitude: real, roughness: real, loop: bool, position: Vec3, scale: Vec3,
    lifetime: real, fadeInTime: real, fadeOutTime: real, seed: real, playing: bool)

  /** Every check of the factory passes. */
  predicate ArgsInRange(a: CreateArgs) {
    && a.magnitude >= 0.0 && a.roughness >= 0.0 && a.lifetime >= 0.0
    && a.fadeInTime >= 0.0 && a.fadeOutTime >= 0.0
    && a.fadeInTime <= a.fadeOutTime && a.fadeOutTime <= a.lifetime
  }

  /** The parameter named by the first failing check of the factory, if any. */
  function CheckArgs(a: CreateArgs): (r: Option<Param>)
    ensures r == None <==> ArgsInRange(a)
    ensures r == Some(Magnitude) <==> a.magnitude < 0.0
    ensures r == Some(Roughness) <==> a.magnitude >= 0.0 && a.roughness < 0.0
    ensures r == Some(Lifetime) <==> a.magnitude >= 0.0 && a.roughness >= 0.0 && a.lifetime < 0.0
    ensures r == Some(FadeInTime) <==>
      && a.magnitude >= 0.0 && a.roughness >= 0.0 && a.lifetime >= 0.0
      && (a.fadeInTime < 0.0 || (a.fadeOutTime >= 0.0 && a.fadeInTime > a.fadeOutTime))
    ensures r == Some(FadeOutTime) <==>
      && a.magnitude >= 0.0 && a.roughness >= 0.0 && a.lifetime >= 0.0 && a.fadeInTime >= 0.0
      && (a.fadeOutTime < 0.0 || (a.fadeInTime <= a.fadeOutTime && a.fadeOutTime > a.lifetime))
  {
    if a.magnitude < 0.0 then Some(Magnitude)
    else if a.roughness < 0.0 then Some(Roughness)
    else if a.lifetime < 0.0 then Some(Lifetime)
    else if a.fadeInTime < 0.0 then Some(FadeInTime)
    else if a.fadeOutTime < 0.0 then Some(FadeOutTime)
    else if a.fadeInTime > a.fadeOutTime then Some(FadeInTime)
    else if a.fadeOutTime > a.lifetime then Some(FadeOutTime)
    else None
  }

  // The public overloads: each maps its arguments onto the private factory's.

  /** CreateAt(position, playing): one second, fading in for a quarter and out for the last quarter. */
  function DefaultArgs(position: Vec3, seed: real, playing: bool): (a: CreateArgs)
    ensures ArgsInRange(a)
  {
    CreateArgs(1.0, 1.0, false, position, One, 1.0, 0.25, 0.75, seed, playing)
  }

  /** CreateAt(position, magnitude, roughness, loop, playing). */
  function ShapedArgs(position: Vec3, magnitude: real, roughness: real, loop: bool, seed: real, playing: bool): (a: CreateArgs)
    ensures ArgsInRange(a) <==> magnitude >= 0.0 && roughness >= 0.0
  {
    CreateArgs(magnitude, roughness, loop, position, One, 1.0, 0.25, 0.75, seed, playing)
  }

  /** CreateAt(position, magnitude, roughness, loop, lifetime, playing): fades scale with the lifetime. */
  function LifetimeArgs(position: Vec3, magnitude: real, roughness: real, loop: bool, lifetime: real,
                        seed: real, playing: bool): (a: CreateArgs)
    ensures ArgsInRange(a) <==> magnitude >= 0.0 && roughness >= 0.0 && lifetime >= 0.0
  {
    CreateArgs(magnitude, roughness, loop, position, One, lifetime, lifetime * 0.25, lifetime * 0.75, seed, playing)
  }

  /**
   * CreateAt(position, magnitude, roughness, loop, lifetime, fadeTime, playing): the fade-out
   * starts fadeTime before the end, so the fades must not overlap.
   */
  function FadeTimeArgs(position: Vec3, magnitude: real, roughness: real, loop: bool, lifetime: real,
                        fadeTime: real, seed: real, playing: bool): (a: CreateArgs)
    ensures ArgsInRange(a) <==>
      magnitude >= 0.0 && roughness >= 0.0 && 0.0 <= fadeTime && 2.0 * fadeTime <= lifetime
  {
    CreateArgs(magnitude, roughness, loop, position, One, lifetime, fadeTime, lifetime - fadeTime, seed, playing)
  }

  /**
   * CreateAt(position, magnitude, roughness, loop, lifetime, fadeInTime, fadeOutTime[, scale], playing):
   * fadeOutTime is the length of the fade-out, which starts that long before the end.
   */
  function FadeSpanArgs(position: Vec3, magnitude: real, roughness: real, loop: bool, lifetime: real,
                        fadeInTime: real, fadeOutTime: real, scale: Vec3, seed: real, playing: bool): (a: CreateArgs)
    ensures ArgsInRange(a) <==>
      && magnitude >= 0.0 && roughness >= 0.0 && fadeInTime >= 0.0 && fadeOutTime >= 0.0
      && fadeInTime + fadeOutTime <= lifetime
  {
    CreateArgs(magnitude, roughness, loop, position, scale, lifetime, fadeInTime, lifetime - fadeOutTime, seed, playing)
  }

  /** Every field of a source: its configuration, its playback state and its cached sample. */
  datatype SourceState = SourceState(
    magnitude: real, roughness: real, position: Vec3, scale: Vec3,
    lifetime: real, fadeInTime: real, fadeOutTime: real, seed: real,
    phase: real, loop: bool, loopOffset: real, playing: bool, changed: bool, shake: Vec3)

  /** The fade boundaries are ordered inside the lifetime. */
  predicate TimesOrdered(st: SourceState) {
    0.0 <= st.fadeInTime <= st.fadeOutTime <= st.lifetime
  }

  /**
   * What every source keeps: validated configuration, and a phase that is never negative and
   * never beyond the lifetime unless the source loops.
   */
  predicate Inv(st: SourceState) {
    && TimesOrdered(st) && st.magnitude >= 0.0 && st.roughness >= 0.0
    && st.phase >= 0.0 && (!st.loop ==> st.phase <= st.lifetime)
  }

  /** A freshly constructed source. */
  function Initial(a: CreateArgs): (st: SourceState)
    requires ArgsInRange(a)
    ensures Inv(st)
    ensures IsComplete(st) <==> !a.loop && a.lifetime == 0.0
    ensures st.phase == 0.0 && st.loopOffset == 0.0 && st.shake == Zero && st.changed
    ensures st.playing == a.playing && st.loop == a.loop && st.magnitude == a.magnitude && st.roughness == a.roughness
    ensures st.position == a.position && st.scale == a.scale && st.seed == a.seed
    ensures st.lifetime == a.lifetime && st.fadeInTime == a.fadeInTime && st.fadeOutTime == a.fadeOutTime
  {
    SourceState(a.magnitude, a.roughness, a.position, a.scale, a.lifetime, a.fadeInTime, a.fadeOutTime, a.seed,
                0.0, a.loop, 0.0, a.playing, true, Zero)
  }

  /** The shake has run its course: not looping and at or past its lifetime. */
  predicate IsComplete(st: SourceState)
    ensures IsComplete(st) ==> !st.loop
    ensures Inv(st) ==> (IsComplete(st) <==> !st.loop && st.phase == st.lifetime)
  {
    !st.loop && st.phase >= st.lifetime
  }

  /** Play: nothing if already playing; otherwise restart a complete shake and start playing. */
  function Played(st: SourceState): SourceState {
    if st.playing then st
    else st.(phase := if IsComplete(st) then 0.0 else st.phase, playing := true)
  }

  /** Pause: stop playing, keeping the phase. */
  function Paused(st: SourceState): SourceState {
    if !st.playing then st else st.(playing := false)
  }

  /** Stop: the phase jumps to the lifetime; a playing source also stops and drops its cached shake. */
  function Stopped(st: SourceState): SourceState {
    if !st.playing then st.(phase := st.lifetime)
    else st.(phase := st.lifetime, playing := false, shake := Zero, changed := false)
  }

  /** One tick: a playing source advances its phase and stops once a non-looping shake overruns. */
  function Advanced(st: SourceState, deltaTime: real): SourceState {
    if !st.playing then st
    else
      var moved := st.(phase := st.phase + deltaTime, changed := true);
      if !moved.loop && moved.phase > moved.lifetime then Stopped(moved) else moved
  }

  /**
   * Enabling the loop from a phase strictly between fadeOutTime - lifetime and fadeOutTime
   * divides by fadeOutTime - lifetime, so it is defined only when the two differ.
   */
  predicate LoopRemapDefined(st: SourceState, value: bool) {
    (value && !st.loop && st.fadeOutTime - st.lifetime < st.phase < st.fadeOutTime)
      ==> st.fadeOutTime != st.lifetime
  }

  /** The loop setter as the code has it. */
  function WithLoop(st: SourceState, value: bool): SourceState
    requires LoopRemapDefined(st, value)
  {
    if value == st.loop then st
    else if value then
      if st.phase >= st.fadeOutTime then st.(loop := true, phase := 0.0)
      else if st.phase > st.fadeOutTime - st.lifetime then
        var p := (st.phase - st.lifetime) / (st.fadeOutTime - st.lifetime) * st.fadeInTime;
        st.(loop := true, phase := p, loopOffset := st.loopOffset + (p - st.phase))
      else st.(loop := true)
    else if st.phase > st.fadeOutTime then
      st.(loop := false, loopOffset := st.loopOffset + (st.phase - st.fadeOutTime), phase := st.fadeOutTime)
    else st.(loop := false)
  }

  /**
   * The loop setter as its comments describe it: a finished shake restarts, a shake inside its
   * fade-out is moved to the matching point of the fade-in, and the jump in phase is folded into
   * the loop offset so that the noise argument does not move.
   */
  function WithLoopIntended(st: SourceState, value: bool): SourceState {
    if value == st.loop then st
    else if value then
      if st.phase >= st.lifetime then st.(loop := true, phase := 0.0)
      else if st.phase > st.fadeOutTime then
        var p := (st.phase - st.lifetime) / (st.fadeOutTime - st.lifetime) * st.fadeInTime;
        st.(loop := true, phase := p, loopOffset := st.loopOffset + (st.phase - p))
      else st.(loop := true)
    else if st.phase > st.fadeOutTime then
      st.(loop := false, loopOffset := st.loopOffset + (st.phase - st.fadeOutTime), phase := st.fadeOutTime)
    else st.(loop := false)
  }

  /** The envelope: a ramp up over the fade-in, full magnitude while sustained, a ramp down over the fade-out. */
  function Envelope(st: SourceState): (s: real)
    requires Inv(st)
    ensures 0.0 <= s <= st.magnitude
  {
    if st.phase < st.fadeInTime then
      ScaledFraction(st.magnitude, st.phase, st.fadeInTime);
      st.magnitude * (st.phase / st.fadeInTime)
    else if !st.loop && st.phase > st.fadeOutTime then
      ScaledFraction(st.magnitude, st.phase - st.lifetime, st.fadeOutTime - st.lifetime);
      st.magnitude * ((st.phase - st.lifetime) / (st.fadeOutTime - st.lifetime))
    else st.magnitude
  }

  /** A fraction between zero and one (numerator and denominator of one sign) scales m into [0, m]. */
  lemma ScaledFraction(m: real, a: real, b: real)
    requires m >= 0.0 && b != 0.0
    requires (0.0 <= a <= b) || (b <= a <= 0.0)
    ensures 0.0 <= m * (a / b) <= m
  {
    var f := a / b;
    assert f * b == a;
    assert 0.0 <= f <= 1.0;
    assert m * f <= m * 1.0;
  }

  /** The argument fed to the noise: roughness times the phase corrected by the loop offset. */
  function NoiseArgument(st: SourceState): real {
    st.roughness * (st.phase + st.loopOffset)
  }

  /** The unattenuated shake: the envelope times the scale times noise re-centred on zero. */
  function RawShake(st: SourceState, noise: Noise): Vec3
    requires Inv(st)
  {
    var s := Envelope(st);
    var p := NoiseArgument(st);
    Vec3(AxisShake(s, st.scale.x, noise(p, st.seed)),
         AxisShake(s, st.scale.y, noise(st.seed, p)),
         AxisShake(s, st.scale.z, noise(p - st.seed, st.seed - p)))
  }

  /** One axis of the shake: envelope times axis scale times the noise sample re-centred on zero. */
  function AxisShake(envelope: real, scale: real, sample: real): real {
    envelope * scale * (sample - 0.5)
  }

  /** Sampling refreshes the cached shake whenever the phase changed; it never clears the flag. */
  function Sampled(st: SourceState, noise: Noise): SourceState
    requires Inv(st)
  {
    if st.changed then st.(shake := RawShake(st, noise)) else st
  }

  /** Inverse-square falloff: the shake divided by the squared distance, floored at one. */
  function Attenuate(v: Vec3, point: Vec3, origin: Vec3): Vec3 {
    Div(v, Max(1.0, SqrMagnitude(Sub(point, origin))))
  }

  /**
   * The falloff never enlarges a component nor flips its sign, and within distance one of the
   * origin it leaves the shake as it is.
   */
  lemma AttenuateShrinks(v: Vec3, point: Vec3, origin: Vec3)
    ensures var r := Attenuate(v, point, origin);
      && Abs(r.x) <= Abs(v.x) && Abs(r.y) <= Abs(v.y) && Abs(r.z) <= Abs(v.z)
      && r.x * v.x >= 0.0 && r.y * v.y >= 0.0 && r.z * v.z >= 0.0
    ensures SqrMagnitude(Sub(point, origin)) <= 1.0 ==> Attenuate(v, point, origin) == v
  {
    var d := Max(1.0, SqrMagnitude(Sub(point, origin)));
    ShrinkBy(v.x, d);
    ShrinkBy(v.y, d);
    ShrinkBy(v.z, d);
  }

  lemma ShrinkBy(a: real, d: real)
    requires d >= 1.0
    ensures Abs(a / d) <= Abs(a) && (a / d) * a >= 0.0
  {
    if a >= 0.0 {
      assert a / d <= a by { assert a <= a * d; }
    } else {
      assert a / d >= a by { assert a * d <= a; }
    }
  }

  /** One source's contribution at a point: its cached (refreshed) shake attenuated by distance. */
  function Contribution(st: SourceState, point: Vec3, noise: Noise): Vec3
    requires Inv(st)
  {
    Attenuate(Sampled(st, noise).shake, point, st.position)
  }

  predicate AllInv(sts: seq<SourceState>) {
    forall i :: 0 <= i < |sts| ==> Inv(sts[i])
  }

  function Contributions(sts: seq<SourceState>, point: Vec3, noise: Noise): (cs: seq<Vec3>)
    requires AllInv(sts)
    ensures |cs| == |sts|
    ensures forall i :: 0 <= i < |sts| ==> cs[i] == Contribution(sts[i], point, noise)
  {
    if sts == [] then [] else [Contribution(sts[0], point, noise)] + Contributions(sts[1..], point, noise)
  }

  /** Every buffered state after one tick. */
  function AdvancedAll(sts: seq<SourceState>, deltaTime: real): (r: seq<SourceState>)
    ensures |r| == |sts|
  {
    if sts == [] then [] else [Advanced(sts[0], deltaTime)] + AdvancedAll(sts[1..], deltaTime)
  }

  lemma {:induction false} AdvancedAllAt(sts: seq<SourceState>, deltaTime: real, i: nat)
    requires i < |sts|
    ensures AdvancedAll(sts, deltaTime)[i] == Advanced(sts[i], deltaTime)
  {
    if i > 0 {
      AdvancedAllAt(sts[1..], deltaTime, i - 1);
    }
  }

  /** Every buffered state after one sampling pass. */
  function SampledAll(sts: seq<SourceState>, noise: Noise): (r: seq<SourceState>)
    requires AllInv(sts)
    ensures |r| == |sts| && AllInv(r)
    ensures forall i :: 0 <= i < |sts| ==> r[i] == Sampled(sts[i], noise)
  {
    if sts == [] then [] else [Sampled(sts[0], noise)] + SampledAll(sts[1..], noise)
  }

  /** The shake the registry reports at a point: the sum of every buffered source's contribution. */
  function TotalShake(sts: seq<SourceState>, point: Vec3, noise: Noise): Vec3
    requires AllInv(sts)
  {
    VecSum(Contributions(sts, point, noise))
  }
}
