/**
 * A projectile's trail and its hand-off between object pools. The trail is the line renderer's
 * fixed-length run of positions: each rendered frame after a physics step drops the oldest point
 * and appends the projectile's position.
 */
module Ballistics {
  import opened Vectors
  import opened Results

  // ---------------------------------------------------------------- trail, as values

  /** The trail's points and whether a physics step has happened since the last shift. */
  datatype Trail = Trail(points: seq<Vec3>, pending: bool)

  /** The exceptions the trail and the pool callbacks throw. */
  datatype TrailError = IndexOutOfRange
  datatype PoolError = ArgumentNull

  /** One slot to the left, with the newest position written into the last slot. */
  function Shifted(points: seq<Vec3>, newest: Vec3): (r: seq<Vec3>)
    requires |points| > 0
    ensures |r| == |points|
  {
    points[1..] + [newest]
  }

  /** A physics step: it only raises the flag. */
  function Stepped(t: Trail): Trail {
    t.(pending := true)
  }

  /** `n` physics steps in a row. */
  function Steps(t: Trail, n: nat): Trail {
    if n == 0 then t else Stepped(Steps(t, n - 1))
  }

  /**
   * A rendered frame: nothing happens without a pending step; with one, an empty trail throws
   * (the write to the last slot is out of range) and leaves everything as it was, and any other
   * trail is shifted and the flag is cleared.
   */
  function Framed(t: Trail, newest: Vec3): (Outcome<TrailError>, Trail) {
    if !t.pending then (Pass, t)
    else if |t.points| == 0 then (Fail(IndexOutOfRange), t)
    else (Pass, Trail(Shifted(t.points, newest), false))
  }

  /** The trail after a frame for each of `history`'s positions, oldest first, each after a physics step. */
  function ShiftedAll(points: seq<Vec3>, history: seq<Vec3>): (r: seq<Vec3>)
    requires |points| > 0
    ensures |r| == |points|
    decreases history
  {
    if history == [] then points else ShiftedAll(Shifted(points, history[0]), history[1..])
  }

  /**
   * A frame with a pending step moves every point one slot towards the front, puts the newest
   * position last, keeps the point count and clears the flag.
   */
  lemma FrameShifts(t: Trail, newest: Vec3)
    requires t.pending && |t.points| > 0
    ensures var (r, u) := Framed(t, newest);
      && r == Pass && !u.pending && |u.points| == |t.points|
      && (forall i :: 0 <= i < |t.points| - 1 ==> u.points[i] == t.points[i + 1])
      && u.points[|u.points| - 1] == newest
  {
    var u := Framed(t, newest).1;
    assert u.points == t.points[1..] + [newest];
    forall i | 0 <= i < |t.points| - 1 ensures u.points[i] == t.points[i + 1] {
      assert u.points[i] == t.points[1..][i];
    }
  }

  /** Any positive number of physics steps between two frames amounts to a single one. */
  lemma {:induction false} StepsCollapse(t: Trail, n: nat)
    requires n >= 1
    ensures Steps(t, n) == Stepped(t)
  {
    if n > 1 {
      StepsCollapse(t, n - 1);
    }
  }

  /** Hence any positive number of physics steps is followed by exactly one shift. */
  lemma {:induction false} StepsThenOneShift(t: Trail, n: nat, newest: Vec3)
    requires n >= 1 && |t.points| > 0
    ensures Framed(Steps(t, n), newest) == (Pass, Trail(Shifted(t.points, newest), false))
  {
    StepsCollapse(t, n);
  }

  /**
   * The trail is a sliding window over everything it has seen: after the frames for `history`
   * it holds the last `|points|` entries of the old points followed by the history.
   */
  lemma {:induction false} TrailIsRecentHistory(points: seq<Vec3>, history: seq<Vec3>)
    requires |points| > 0
    ensures ShiftedAll(points, history) == (points + history)[|history|..]
    decreases history
  {
    if history != [] {
      var next := Shifted(points, history[0]);
      TrailIsRecentHistory(next, history[1..]);
      calc {
        (next + history[1..])[|history| - 1..];
        { assert next + history[1..] == (points + history)[1..]; }
        (points + history)[1..][|history| - 1..];
        (points + history)[|history|..];
      }
    }
  }

  /** Once at least as many frames as points have passed, the trail holds only the projectile's own positions. */
  lemma TrailForgetsStart(points: seq<Vec3>, history: seq<Vec3>)
    requires 0 < |points| <= |history|
    ensures ShiftedAll(points, history) == history[|history| - |points|..]
  {
    TrailIsRecentHistory(points, history);
    assert (points + history)[|history|..] == history[|history| - |points|..];
  }

  // ---------------------------------------------------------------- objects

  /** The simulated projectile, as far as the instance reads it. */
  class Projectile {
    var position: Vec3
    /** Remaining lifetime; negative once the projectile is spent. */
    var lifetime: real

    constructor (position: Vec3, lifetime: real)
      ensures this.position == position && this.lifetime == lifetime
    {
      this.position := position;
      this.lifetime := lifetime;
    }
  }

  /** A pool, modelled by the instances handed back to it, in order. */
  class ObjectPool {
    var returned: seq<ProjectileInstance>

    constructor ()
      ensures returned == []
    {
      returned := [];
    }

    /** Taking an instance back: recorded, nothing more. */
    method ReturnToPool(instance: ProjectileInstance)
      modifies this
      ensures returned == old(returned) + [instance]
    {
      returned := returned + [instance];
    }
  }

  /** A projectile in flight: its trail and which pool, if any, owns it. */
  class ProjectileInstance {
    var projectile: Projectile?
    var parentPool: ObjectPool?
    var enabled: bool
    var updateLineRenderer: bool
    /** The line renderer's positions; their number is fixed. */
    const positions: array<Vec3>

    /** The engine decides whether a new component starts enabled, so that is a parameter. */
    constructor (projectile: Projectile?, positions: array<Vec3>, enabled: bool)
      ensures this.projectile == projectile && this.positions == positions && this.enabled == enabled
      ensures parentPool == null && !updateLineRenderer
    {
      this.projectile := projectile;
      this.positions := positions;
      this.enabled := enabled;
      parentPool := null;
      updateLineRenderer := false;
    }

    ghost function TrailState(): Trail
      reads this, positions
    {
      Trail(positions[..], updateLineRenderer)
    }

    /**
     * The per-frame trail update: after a physics step the points move one slot towards the
     * front and the projectile's position fills the last slot.
     */
    method Update() returns (r: Outcome<TrailError>)
      requires projectile != null
      modifies this`updateLineRenderer, positions
      ensures (r, TrailState()) == Framed(old(TrailState()), projectile.position)
    {
      if updateLineRenderer {
        var finalIndex := positions.Length - 1;
        if finalIndex < 0 {
          return Fail(IndexOutOfRange);
        }
        var i := 0;
        while i < finalIndex
          invariant 0 <= i <= finalIndex
          invariant forall k :: 0 <= k < i ==> positions[k] == old(positions[k + 1])
          invariant forall k :: i <= k < positions.Length ==> positions[k] == old(positions[k])
        {
          positions[i] := positions[i + 1];
          i := i + 1;
        }
        positions[finalIndex] := projectile.position;
        updateLineRenderer := false;
        assert positions[..] == Shifted(old(positions[..]), projectile.position);
      }
      r := Pass;
    }

    /**
     * A physics step: the projectile takes the state its simulation reached (`position`,
     * `lifetime`), and the trail is due for one shift at the next frame.
     */
    method FixedUpdate(position: Vec3, lifetime: real)
      requires projectile != null
      modifies projectile, this`updateLineRenderer
      ensures projectile.position == position && projectile.lifetime == lifetime
      ensures TrailState() == Stepped(old(TrailState()))
    {
      projectile.position := position;
      projectile.lifetime := lifetime;
      updateLineRenderer := true;
    }

    /** Collapses the whole trail onto the projectile's position and clears the flag. */
    method ResetLineRenderer()
      requires projectile != null
      modifies this`updateLineRenderer, positions
      ensures forall k :: 0 <= k < positions.Length ==> positions[k] == projectile.position
      ensures !updateLineRenderer
    {
      var i := 0;
      while i < positions.Length
        invariant 0 <= i <= positions.Length
        invariant forall k :: 0 <= k < i ==> positions[k] == projectile.position
      {
        positions[i] := projectile.position;
        i := i + 1;
      }
      updateLineRenderer := false;
    }

    /** Free for a pool to hand out: owned by no pool and holding a spent projectile. */
    function IsAvailable(pool: ObjectPool?): (r: Result<bool, PoolError>)
      reads this, projectile
      ensures r.Failure? <==> pool == null
      ensures r.Success? ==> (r.value <==> parentPool == null && projectile != null && projectile.lifetime < 0.0)
    {
      if pool == null then Failure(ArgumentNull)
      else Success(parentPool == null && projectile != null && projectile.lifetime < 0.0)
    }

    /**
     * Taken from `pool`: an instance owned by a different pool is first returned to that pool;
     * then `pool` owns it and it is enabled.
     */
    method OnPoolUse(pool: ObjectPool?) returns (r: Outcome<PoolError>)
      modifies this`parentPool, this`enabled, parentPool
      ensures pool == null ==> r == Fail(ArgumentNull) && unchanged(this)
      ensures pool == null && old(parentPool) != null ==> unchanged(old(parentPool))
      ensures pool != null ==> r == Pass && parentPool == pool && enabled
      ensures pool != null ==> IsAvailable(pool) == Success(false)
      ensures pool != null && old(parentPool) != null && old(parentPool) != pool ==>
        old(parentPool).returned == old(parentPool.returned) + [this]
      ensures old(parentPool) != null && (pool == null || old(parentPool) == pool) ==>
        unchanged(old(parentPool))
    {
      if pool == null {
        return Fail(ArgumentNull);
      }
      if parentPool != null && parentPool != pool {
        parentPool.ReturnToPool(this);
      }
      parentPool := pool;
      enabled := true;
      r := Pass;
    }

    /** Given back to `pool`: only the owning pool's release frees and disables the instance. */
    method OnPoolRelease(pool: ObjectPool?) returns (r: Outcome<PoolError>)
      modifies this`parentPool, this`enabled
      ensures pool == null ==> r == Fail(ArgumentNull) && unchanged(this)
      ensures pool != null && old(parentPool) == pool ==> r == Pass && parentPool == null && !enabled
      ensures pool != null && old(parentPool) != pool ==> r == Pass && unchanged(this)
      ensures pool != null && old(parentPool) == pool ==>
        (IsAvailable(pool) == Success(true) <==> projectile != null && projectile.lifetime < 0.0)
    {
      if pool == null {
        return Fail(ArgumentNull);
      }
      if parentPool == pool {
        parentPool := null;
        enabled := false;
      }
      r := Pass;
    }

    /** Disposed of by `pool`: disabled and owned by no pool, whoever owned it before. */
    method OnPoolDispose(pool: ObjectPool?) returns (r: Outcome<PoolError>)
      modifies this`parentPool, this`enabled
      ensures pool == null ==> r == Fail(ArgumentNull) && unchanged(this)
      ensures pool != null ==> r == Pass && parentPool == null && !enabled
    {
      if pool == null {
        return Fail(ArgumentNull);
      }
      enabled := false;
      parentPool := null;
      r := Pass;
    }
  }
}
