// The heart-particle pool as the program keeps it: three flat buffers
// updated in place (position x3, velocity x3 and alpha per slot). Each
// method is proved against the value model in particles.dfy.

module Pool {
  import opened Particles

  /** Slot k of three flat buffers. */
  function At(pos: seq<real>, vel: seq<real>, alpha: seq<real>, k: int): Particle
    requires |pos| == 3 * Count && |vel| == 3 * Count && |alpha| == Count
    requires 0 <= k < Count
  {
    Particle(pos[3 * k], pos[3 * k + 1], pos[3 * k + 2],
             vel[3 * k], vel[3 * k + 1], vel[3 * k + 2],
             alpha[k])
  }

  /** The slots the three flat buffers hold. */
  function View(pos: seq<real>, vel: seq<real>, alpha: seq<real>): (ps: seq<Particle>)
    requires |pos| == 3 * Count && |vel| == 3 * Count && |alpha| == Count
    ensures |ps| == Count
    ensures forall k :: 0 <= k < Count ==> ps[k] == At(pos, vel, alpha, k)
  {
    seq(Count, k requires 0 <= k < Count => At(pos, vel, alpha, k))
  }

  /** Writing one particle into slot k of the flat buffers changes slot k
      of the view and no other. */
  lemma ViewWrite(pos: seq<real>, vel: seq<real>, alpha: seq<real>, k: int, q: Particle)
    requires |pos| == 3 * Count && |vel| == 3 * Count && |alpha| == Count
    requires 0 <= k < Count
    ensures View(pos[3 * k := q.x][3 * k + 1 := q.y][3 * k + 2 := q.z],
                 vel[3 * k := q.vx][3 * k + 1 := q.vy][3 * k + 2 := q.vz],
                 alpha[k := q.alpha])
            == View(pos, vel, alpha)[k := q]
  {
    var pos' := pos[3 * k := q.x][3 * k + 1 := q.y][3 * k + 2 := q.z];
    var vel' := vel[3 * k := q.vx][3 * k + 1 := q.vy][3 * k + 2 := q.vz];
    var alpha' := alpha[k := q.alpha];
    forall j | 0 <= j < Count
      ensures At(pos', vel', alpha', j) == View(pos, vel, alpha)[k := q][j]
    {
      if j != k {
        assert 3 * j != 3 * k && 3 * j != 3 * k + 1 && 3 * j != 3 * k + 2;
        assert 3 * j + 1 != 3 * k && 3 * j + 1 != 3 * k + 1 && 3 * j + 1 != 3 * k + 2;
        assert 3 * j + 2 != 3 * k && 3 * j + 2 != 3 * k + 1 && 3 * j + 2 != 3 * k + 2;
      }
    }
  }

  class HeartPool {
    /** Position buffer: x, y, z of slot k at 3k, 3k+1, 3k+2. */
    const pos: array<real>
    /** Velocity buffer, laid out like the position buffer. */
    const vel: array<real>
    /** Alpha (life) buffer, one entry per slot. */
    const alpha: array<real>

    ghost predicate Valid() {
      pos.Length == 3 * Count && vel.Length == 3 * Count && alpha.Length == Count &&
      pos != vel && pos != alpha && vel != alpha
    }

    ghost function Particles(): (ps: seq<Particle>)
      requires Valid()
      reads pos, vel, alpha
      ensures |ps| == Count
    {
      View(pos[..], vel[..], alpha[..])
    }

    /** Zeroed buffers, then every slot parked below the screen with
        alpha 0. */
    constructor ()
      ensures Valid() && fresh(pos) && fresh(vel) && fresh(alpha)
      ensures Particles() == Parked()
    {
      pos := new real[3 * Count](_ => 0.0);
      vel := new real[3 * Count](_ => 0.0);
      alpha := new real[Count](_ => 0.0);
      new;
      var i := 0;
      while i < Count
        invariant 0 <= i <= Count && Valid()
        invariant forall k :: 0 <= k < i ==> At(pos[..], vel[..], alpha[..], k) == ParkedParticle
        invariant forall k :: i <= k < Count ==>
                    At(pos[..], vel[..], alpha[..], k) == Particle(0.0, 0.0, 0.0, 0.0, 0.0, 0.0, 0.0)
      {
        ghost var p0, v0, a0 := pos[..], vel[..], alpha[..];
        assert At(p0, v0, a0, i) == Particle(0.0, 0.0, 0.0, 0.0, 0.0, 0.0, 0.0);
        pos[3 * i + 1] := ParkedY;
        alpha[i] := 0.0;
        assert pos[..] == p0[3 * i + 1 := ParkedY];
        assert vel[..] == v0;
        assert alpha[..] == a0[i := 0.0];
        assert At(pos[..], vel[..], alpha[..], i) == ParkedParticle;
        forall k | 0 <= k < Count && k != i
          ensures At(pos[..], vel[..], alpha[..], k) == At(p0, v0, a0, k)
        {
          assert 3 * k + 1 != 3 * i + 1;
          assert 3 * k != 3 * i + 1;
          assert 3 * k + 2 != 3 * i + 1;
        }
        i := i + 1;
      }
      assert Particles() == Parked();
    }

    /** One burst: for each draw in turn, the slot it picks is launched,
        whatever it held. */
    method Burst(draws: seq<Draw>)
      requires Valid() && |draws| == BurstSize && ValidDraws(draws)
      modifies pos, vel, alpha
      ensures Particles() == BurstAll(old(Particles()), draws)
    {
      var i := 0;
      while i < BurstSize
        invariant 0 <= i <= BurstSize
        invariant Particles() == BurstAll(old(Particles()), draws[..i])
      {
        var d := draws[i];
        var k := SlotOf(d);
        ghost var p0, v0, a0 := pos[..], vel[..], alpha[..];
        pos[3 * k] := (d.rx - 0.5) * 10.0;
        pos[3 * k + 1] := LaunchY;
        pos[3 * k + 2] := (d.rz - 0.5) * 10.0;
        vel[3 * k] := (d.rvx - 0.5) * 1.5;
        vel[3 * k + 1] := 0.5 + d.rvy * 1.0;
        vel[3 * k + 2] := (d.rvz - 0.5) * 1.5;
        alpha[k] := 1.0;
        assert pos[..] == p0[3 * k := Launched(d).x][3 * k + 1 := LaunchY][3 * k + 2 := Launched(d).z];
        assert vel[..] == v0[3 * k := Launched(d).vx][3 * k + 1 := Launched(d).vy][3 * k + 2 := Launched(d).vz];
        assert alpha[..] == a0[k := 1.0];
        ViewWrite(p0, v0, a0, k, Launched(d));
        assert draws[..i + 1][..i] == draws[..i];
        i := i + 1;
      }
      assert draws[..BurstSize] == draws;
    }

    /** One physics step over every slot. */
    method Step()
      requires Valid()
      modifies pos, vel, alpha
      ensures Particles() == StepAll(old(Particles()))
    {
      var i := 0;
      while i < Count
        invariant 0 <= i <= Count
        invariant forall k :: 0 <= k < i ==>
                    At(pos[..], vel[..], alpha[..], k) == Advance(old(At(pos[..], vel[..], alpha[..], k)))
        invariant forall k :: i <= k < Count ==>
                    At(pos[..], vel[..], alpha[..], k) == old(At(pos[..], vel[..], alpha[..], k))
      {
        if alpha[i] > 0.0 {
          var i3 := 3 * i;
          pos[i3] := pos[i3] + vel[i3];
          pos[i3 + 1] := pos[i3 + 1] + vel[i3 + 1];
          pos[i3 + 2] := pos[i3 + 2] + vel[i3 + 2];
          vel[i3 + 1] := vel[i3 + 1] - Gravity;
          alpha[i] := alpha[i] - Fade;
        }
        i := i + 1;
      }
      assert Particles() == StepAll(old(Particles()));
    }
  }
}
