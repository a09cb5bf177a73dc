/**
 * Camera-shake sources and the buffer of playing sources they share. Each method updates the
 * fields in place and is proved against the transition of the same name in ShakeModel; the
 * buffer's invariant keeps a source in the buffer exactly while it plays, never twice.
 */
module CameraSystem {
  import opened Vectors
  import opened Results
  import opened Sequences
  import opened ShakeModel
  import ShakeProperties

  class CameraShakeSource {
    var magnitude: real
    var roughness: real
    var position: Vec3
    var scale: Vec3
    const lifetime: real
    const fadeInTime: real
    const fadeOutTime: real
    const seed: real
    var phase: real
    var loop: bool
    var loopOffset: real
    var playing: bool
    var changed: bool
    var shake: Vec3

    /** The source's fields as a value. */
    function State(): SourceState
      reads this
    {
      SourceState(magnitude, roughness, position, scale, lifetime, fadeInTime, fadeOutTime, seed,
                  phase, loop, loopOffset, playing, changed, shake)
    }

    ghost predicate Valid()
      reads this
    {
      Inv(State())
    }

    /** The configuration alone is valid; the phase may be anywhere. */
    ghost predicate Configured()
      reads this
    {
      TimesOrdered(State()) && magnitude >= 0.0 && roughness >= 0.0
    }

    /** The private constructor: stores the arguments, phase and loop offset zero, no cached shake. */
    constructor (a: CreateArgs)
      requires ArgsInRange(a)
      ensures Valid() && State() == Initial(a)
    {
      magnitude, roughness, loop := a.magnitude, a.roughness, a.loop;
      position, scale := a.position, a.scale;
      lifetime, fadeInTime, fadeOutTime, seed := a.lifetime, a.fadeInTime, a.fadeOutTime, a.seed;
      phase, loopOffset := 0.0, 0.0;
      playing := a.playing;
      changed := true;
      shake := Zero;
    }

    predicate IsPlaying()
      reads this
    {
      playing
    }

    /** Under the invariant, complete means a non-looping shake sitting exactly at its lifetime. */
    predicate IsComplete()
      reads this
      ensures Valid() ==> (IsComplete() <==> !loop && phase == lifetime)
    {
      ShakeModel.IsComplete(State())
    }

    /** The magnitude setter: a negative value is refused and nothing changes. */
    method SetMagnitude(value: real) returns (r: Outcome<ShakeError>)
      requires Valid()
      modifies this
      ensures Valid()
      ensures r == if value < 0.0 then Fail(InvalidArgument(Magnitude)) else Pass
      ensures State() == if value < 0.0 then old(State()) else old(State()).(magnitude := value)
    {
      if value < 0.0 {
        return Fail(InvalidArgument(Magnitude));
      }
      magnitude := value;
      r := Pass;
    }

    /** The roughness setter: a negative value is refused and nothing changes. */
    method SetRoughness(value: real) returns (r: Outcome<ShakeError>)
      requires Valid()
      modifies this
      ensures Valid()
      ensures r == if value < 0.0 then Fail(InvalidArgument(Roughness)) else Pass
      ensures State() == if value < 0.0 then old(State()) else old(State()).(roughness := value)
    {
      if value < 0.0 {
        return Fail(InvalidArgument(Roughness));
      }
      roughness := value;
      r := Pass;
    }

    /** The loop setter, moving the phase and the loop offset as the code does. */
    method SetLoop(value: bool)
      requires Valid() && LoopRemapDefined(State(), value)
      modifies this
      ensures Valid()
      ensures State() == WithLoop(old(State()), value)
    {
      ghost var before := State();
      if value == loop {
        return;
      }
      loop := value;
      if value {
        if phase >= fadeOutTime {
          phase := 0.0;
        } else if phase > fadeOutTime - lifetime {
          var lastPhase := phase;
          phase := (phase - lifetime) / (fadeOutTime - lifetime) * fadeInTime;
          loopOffset := loopOffset + (phase - lastPhase);
        }
      } else {
        if phase > fadeOutTime {
          loopOffset := loopOffset + (phase - fadeOutTime);
          phase := fadeOutTime;
        }
      }
      ShakeProperties.LoopSetterKeepsInv(before, value);
    }

    /** Resume playing: joins the buffer, restarting a complete shake. */
    method Play(buf: SourceBuffer)
      requires buf.Valid() && this in buf.sources
      modifies this, buf
      ensures buf.Valid() && buf.sources == old(buf.sources)
      ensures State() == Played(old(State()))
      ensures buf.items == if old(playing) then old(buf.items) else old(buf.items) + [this]
    {
      if playing {
        return;
      }
      assert this !in buf.items;
      buf.AddLast(this);
      if !loop && phase >= lifetime {
        phase := 0.0;
      }
      playing := true;
      buf.AppendKeepsDistinct(this);
    }

    /** Pause: leaves the buffer, keeping the phase. */
    method Pause(buf: SourceBuffer)
      requires buf.Valid() && this in buf.sources
      modifies this, buf
      ensures buf.Valid() && buf.sources == old(buf.sources)
      ensures State() == Paused(old(State()))
      ensures buf.items == if old(playing) then Without(old(buf.items), this) else old(buf.items)
    {
      if !playing {
        return;
      }
      var _ := buf.Remove(this);
      playing := false;
    }

    /**
     * Stop: completes the shake; a playing source also leaves the buffer and drops its cached
     * shake. Only the configuration need be valid on entry: a tick calls it with the phase
     * already past the lifetime.
     */
    method Stop(buf: SourceBuffer)
      requires buf.ValidBut(this) && this in buf.sources && Configured()
      modifies this, buf
      ensures buf.Valid() && buf.sources == old(buf.sources)
      ensures State() == Stopped(old(State()))
      ensures buf.items == if old(playing) then Without(old(buf.items), this) else old(buf.items)
    {
      phase := lifetime;
      if !playing {
        return;
      }
      var removed := buf.Remove(this);
      playing := false;
      shake := Zero;
      changed := false;
    }

    /** One tick: a playing source advances and stops once a non-looping shake overruns its lifetime. */
    method InternalUpdate(buf: SourceBuffer, deltaTime: real)
      requires buf.Valid() && this in buf.sources && deltaTime >= 0.0
      modifies this, buf
      ensures buf.Valid() && buf.sources == old(buf.sources)
      ensures State() == Advanced(old(State()), deltaTime)
      ensures buf.items == if old(playing) && !playing then Without(old(buf.items), this) else old(buf.items)
    {
      if !playing {
        return;
      }
      phase := phase + deltaTime;
      changed := true;
      if !loop && phase > lifetime {
        Stop(buf);
      }
    }

    /**
     * This source's contribution at a point: refreshes the cached shake when the phase changed,
     * then attenuates it by the squared distance from the source, floored at one.
     */
    method InternalSample(ghost buf: SourceBuffer, point: Vec3, noise: Noise) returns (v: Vec3)
      requires buf.Valid() && this in buf.sources
      modifies this`shake
      ensures buf.Valid()
      ensures State() == Sampled(old(State()), noise)
      ensures v == Contribution(old(State()), point, noise)
    {
      if changed {
        var shakeScale := magnitude;
        if phase < fadeInTime {
          shakeScale := shakeScale * (phase / fadeInTime);
        } else if !loop && phase > fadeOutTime {
          shakeScale := shakeScale * ((phase - lifetime) / (fadeOutTime - lifetime));
        }
        ghost var st := State();
        assert shakeScale == Envelope(st);
        var shakePhase := roughness * (phase + loopOffset);
        assert shakePhase == NoiseArgument(st);
        shake := Vec3(
          AxisShake(shakeScale, scale.x, noise(shakePhase, seed)),
          AxisShake(shakeScale, scale.y, noise(seed, shakePhase)),
          AxisShake(shakeScale, scale.z, noise(shakePhase - seed, seed - shakePhase)));
        assert shake == RawShake(st, noise);
      }
      v := Div(shake, Max(1.0, SqrMagnitude(Sub(point, position))));
    }

    /** The finaliser, made explicit: the source leaves the buffer and is forgotten by it. */
    method Dispose(buf: SourceBuffer)
      requires buf.Valid() && this in buf.sources
      modifies buf
      ensures buf.Valid() && buf.sources == old(buf.sources) - {this}
      ensures buf.items == Without(old(buf.items), this)
    {
      var removed := buf.Remove(this);
      buf.sources := buf.sources - {this};
    }
  }

  /** The shared buffer of playing sources, with every source created against it. */
  class SourceBuffer {
    var items: seq<CameraShakeSource>
    ghost var sources: set<CameraShakeSource>

    /** Every buffered source is known, none is buffered twice, and exactly the playing ones are buffered. */
    ghost predicate Membership()
      reads this, sources
    {
      && (forall s :: s in items ==> s in sources)
      && Distinct(items)
      && (forall s :: s in sources ==> (s.playing <==> s in items))
    }

    ghost predicate Valid()
      reads this, sources
    {
      Membership() && forall s :: s in sources ==> s.Valid()
    }

    /** Valid, except that `x` need only have a valid configuration. */
    ghost predicate ValidBut(x: CameraShakeSource)
      reads this, sources
    {
      && Membership() && x in sources && x.Configured()
      && forall s :: s in sources && s != x ==> s.Valid()
    }

    constructor ()
      ensures Valid() && items == [] && sources == {}
    {
      items := [];
      sources := {};
    }

    method AddLast(s: CameraShakeSource)
      modifies this`items
      ensures items == old(items) + [s]
    {
      items := items + [s];
    }

    /** Removes `s`, returning how many entries went. */
    method Remove(s: CameraShakeSource) returns (removed: nat)
      modifies this`items
      ensures items == Without(old(items), s)
      ensures removed == |old(items)| - |items|
      ensures Distinct(old(items)) ==> Distinct(items) && removed == (if s in old(items) then 1 else 0)
    {
      var rest := Without(items, s);
      if Distinct(items) {
        WithoutDistinct(items, s);
      }
      removed := |items| - |rest|;
      items := rest;
    }

    lemma AppendKeepsDistinct(s: CameraShakeSource)
      requires |items| > 0 && items[|items| - 1] == s && s !in items[..|items| - 1]
      requires Distinct(items[..|items| - 1])
      ensures Distinct(items)
    {
      assert items == items[..|items| - 1] + [s];
      AppendDistinct(items[..|items| - 1], s);
    }

    /** A known source reports playing exactly while the buffer holds it. */
    lemma PlayingIffBuffered(s: CameraShakeSource)
      requires Valid() && s in sources
      ensures s.IsPlaying() <==> s in items
    {}

    predicate IsEmpty()
      reads this
    {
      |items| == 0
    }

    /** A sample is worth taking exactly when some source is playing. */
    predicate HasSample()
      requires Valid()
      reads this, sources
      ensures HasSample() <==> exists s :: s in sources && s.playing
    {
      if !IsEmpty() then assert items[0] in sources; true else false
    }

    method Update(deltaTime: real)
      requires Valid() && deltaTime >= 0.0
      modifies this, items
      ensures Valid() && sources == old(sources)
      ensures StatesOf(old(items)) == AdvancedAll(old(StatesOf(items)), deltaTime)
    {
      ghost var orig := items;
      ghost var before := StatesOf(items);
      var i := |items|;
      while i > 0
        invariant 0 <= i <= |orig| && i <= |items| && Distinct(orig)
        invariant Valid() && sources == old(sources)
        invariant forall k :: 0 <= k < i ==> items[k] == orig[k]
        invariant forall k :: 0 <= k < i ==> unchanged(orig[k])
        invariant forall k :: i <= k < |orig| ==> orig[k].State() == Advanced(before[k], deltaTime)
      {
        i := i - 1;
        var s := items[i];
        assert s == orig[i] && s.State() == before[i];
        DistinctOnly(orig, i);
        WithoutPrefix(items, i);
        s.InternalUpdate(this, deltaTime);
      }
      TickedStates(orig, before, deltaTime);
    }

    /** The registry's sample at a point: the sum of every buffered source's contribution. */
    method Sample(point: Vec3, noise: Noise) returns (r: Vec3)
      requires Valid()
      modifies items
      ensures Valid()
      ensures r == TotalShake(old(StatesOf(items)), point, noise)
      ensures StatesOf(items) == SampledAll(old(StatesOf(items)), noise)
    {
      ghost var before := StatesOf(items);
      StatesValid();
      r := Zero;
      var i := |items|;
      while i > 0
        invariant 0 <= i <= |items|
        invariant Valid()
        invariant forall k :: 0 <= k < |items| ==>
          items[k].State() == if k < i then before[k] else Sampled(before[k], noise)
        invariant r == TotalShake(before[i..], point, noise)
      {
        i := i - 1;
        assert items[i].State() == before[i];
        DistinctOnly(items, i);
        var c := items[i].InternalSample(this, point, noise);
        ShakeProperties.TotalShakeSuffix(before, i, r, c, point, noise);
        r := Add(r, c);
      }
    }

    lemma StatesValid()
      requires Valid()
      ensures AllInv(StatesOf(items))
    {
      var sts := StatesOf(items);
      forall k | 0 <= k < |sts| ensures Inv(sts[k]) {
        assert items[k] in sources;
      }
    }

    /** Sources each one tick past the matching state: their states are that tick of the states. */
    lemma TickedStates(ss: seq<CameraShakeSource>, sts: seq<SourceState>, deltaTime: real)
      requires |ss| == |sts| && forall k :: 0 <= k < |ss| ==> ss[k].State() == Advanced(sts[k], deltaTime)
      ensures StatesOf(ss) == AdvancedAll(sts, deltaTime)
    {
      var after := AdvancedAll(sts, deltaTime);
      forall k | 0 <= k < |ss| ensures StatesOf(ss)[k] == after[k] {
        AdvancedAllAt(sts, deltaTime, k);
      }
    }

    /** The states of a sequence of sources, in order. */
    ghost function StatesOf(ss: seq<CameraShakeSource>): (sts: seq<SourceState>)
      reads ss
      ensures |sts| == |ss| && forall i :: 0 <= i < |ss| ==> sts[i] == ss[i].State()
    {
      if ss == [] then [] else [ss[0].State()] + StatesOf(ss[1..])
    }
  }

  /**
   * The private factory: validates the arguments in order, builds the source and, when it is
   * to play at once, adds it to the buffer.
   */
  method CreateAt(buf: SourceBuffer, a: CreateArgs) returns (r: Result<CameraShakeSource, ShakeError>)
    requires buf.Valid()
    modifies buf
    ensures buf.Valid()
    ensures r.Failure? <==> !ArgsInRange(a)
    ensures r.Failure? ==> CheckArgs(a).Some? && r.error == ArgumentOutOfRange(CheckArgs(a).value) && unchanged(buf)
    ensures r.Success? ==>
      && fresh(r.value) && r.value.State() == Initial(a)
      && buf.sources == old(buf.sources) + {r.value}
      && buf.items == if a.playing then old(buf.items) + [r.value] else old(buf.items)
  {
    var check := CheckArgs(a);
    if check.Some? {
      return Failure(ArgumentOutOfRange(check.value));
    }
    var instance := new CameraShakeSource(a);
    if a.playing {
      buf.AddLast(instance);
      buf.AppendKeepsDistinct(instance);
    }
    buf.sources := buf.sources + {instance};
    r := Success(instance);
  }
}
