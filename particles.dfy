// The heart-particle pool as values: one Particle per slot, and the two
// operations that change slots (a burst and a physics step) as functions
// on the sequence of slots. The class in pool.dfy is proved against these.

module Particles {

  /** Number of heart slots. */
  const Count: nat := 2000

  /** Slots written by one burst. */
  const BurstSize: nat := 50

  /** Height at which every slot is parked when the pool is created. */
  const ParkedY: real := -500.0

  /** Height from which a burst launches a slot. */
  const LaunchY: real := -20.0

  /** Amount subtracted from the vertical velocity on each step. */
  const Gravity: real := 0.02

  /** Amount subtracted from alpha on each step. */
  const Fade: real := 0.01

  /** One slot: position, velocity and the alpha (life) scalar. */
  datatype Particle = Particle(x: real, y: real, z: real,
                               vx: real, vy: real, vz: real,
                               alpha: real)

  predicate IsLive(p: Particle) {
    p.alpha > 0.0
  }

  /** A slot as the pool's initialisation leaves it: zero buffers, then y
      moved below the screen and alpha set to 0. */
  const ParkedParticle: Particle := Particle(0.0, ParkedY, 0.0, 0.0, 0.0, 0.0, 0.0)

  function Parked(): (ps: seq<Particle>)
    ensures |ps| == Count
    ensures forall k :: 0 <= k < Count ==> ps[k].alpha == 0.0 && ps[k].y == ParkedY
    ensures forall k :: 0 <= k < Count ==> !IsLive(ps[k])
  {
    seq(Count, _ => ParkedParticle)
  }

  // ---------------------------------------------------------------------
  // Bursts

  /** The six random numbers one burst iteration draws, in the order it
      draws them: the slot, then x, z, vx, vy and vz. */
  datatype Draw = Draw(pick: real, rx: real, rz: real,
                       rvx: real, rvy: real, rvz: real)

  predicate Unit(u: real) {
    0.0 <= u < 1.0
  }

  /** Every number lies in [0, 1), as a uniform random source gives. */
  predicate ValidDraw(d: Draw) {
    Unit(d.pick) && Unit(d.rx) && Unit(d.rz) &&
    Unit(d.rvx) && Unit(d.rvy) && Unit(d.rvz)
  }

  predicate ValidDraws(ds: seq<Draw>) {
    forall j :: 0 <= j < |ds| ==> ValidDraw(ds[j])
  }

  /** The slot a draw picks: floor(pick * Count). */
  function SlotOf(d: Draw): (k: int)
    ensures Unit(d.pick) ==> 0 <= k < Count
  {
    (d.pick * Count as real).Floor
  }

  /** The particle a burst writes for a draw. */
  function Launched(d: Draw): (p: Particle)
    ensures p.alpha == 1.0 && p.y == LaunchY && IsLive(p)
    ensures ValidDraw(d) ==> -5.0 <= p.x < 5.0 && -5.0 <= p.z < 5.0
    ensures ValidDraw(d) ==> -0.75 <= p.vx < 0.75 && -0.75 <= p.vz < 0.75
    ensures ValidDraw(d) ==> 0.5 <= p.vy < 1.5
  {
    Particle((d.rx - 0.5) * 10.0, LaunchY, (d.rz - 0.5) * 10.0,
             (d.rvx - 0.5) * 1.5, 0.5 + d.rvy * 1.0, (d.rvz - 0.5) * 1.5,
             1.0)
  }

  /** One burst iteration: the picked slot is overwritten whether or not
      it is still live. */
  function Spawn(ps: seq<Particle>, d: Draw): (qs: seq<Particle>)
    requires |ps| == Count && ValidDraw(d)
    ensures |qs| == Count && qs[SlotOf(d)] == Launched(d)
    ensures forall k :: 0 <= k < Count && k != SlotOf(d) ==> qs[k] == ps[k]
  {
    ps[SlotOf(d) := Launched(d)]
  }

  /** The draws applied in order, the last one applied last. */
  function BurstAll(ps: seq<Particle>, ds: seq<Draw>): (qs: seq<Particle>)
    requires |ps| == Count && ValidDraws(ds)
    ensures |qs| == Count
  {
    if ds == [] then ps
    else Spawn(BurstAll(ps, ds[..|ds| - 1]), ds[|ds| - 1])
  }

  /** Index of the last draw that picks slot k, or -1 if none does. */
  function LastPick(ds: seq<Draw>, k: int): (j: int)
    ensures -1 <= j < |ds|
    ensures 0 <= j ==> SlotOf(ds[j]) == k
    ensures forall i :: j < i < |ds| ==> SlotOf(ds[i]) != k
  {
    if ds == [] then -1
    else if SlotOf(ds[|ds| - 1]) == k then |ds| - 1
    else LastPick(ds[..|ds| - 1], k)
  }

  /** Slots some draw picks. */
  function Picked(ds: seq<Draw>): set<int> {
    set j | 0 <= j < |ds| :: SlotOf(ds[j])
  }

  /** What a burst leaves in slot k: the particle of the last draw that
      picks k, or the old particle if no draw does. */
  lemma {:induction false} BurstAt(ps: seq<Particle>, ds: seq<Draw>, k: int)
    requires |ps| == Count && ValidDraws(ds) && 0 <= k < Count
    ensures BurstAll(ps, ds)[k] ==
            if LastPick(ds, k) < 0 then ps[k] else Launched(ds[LastPick(ds, k)])
  {
    if ds != [] {
      var init := ds[..|ds| - 1];
      assert forall i :: 0 <= i < |init| ==> init[i] == ds[i];
      BurstAt(ps, init, k);
    }
  }

  /** A slot no draw picks keeps its position, velocity and alpha. */
  lemma BurstLeavesOthers(ps: seq<Particle>, ds: seq<Draw>, k: int)
    requires |ps| == Count && ValidDraws(ds) && 0 <= k < Count
    requires forall j :: 0 <= j < |ds| ==> SlotOf(ds[j]) != k
    ensures BurstAll(ps, ds)[k] == ps[k]
  {
    BurstAt(ps, ds, k);
  }

  /** A picked slot is launched afresh: alpha 1, y = -20, x and z in
      [-5, 5), vx and vz in [-0.75, 0.75), vy in [0.5, 1.5); and what was
      in it before, live or dead, makes no difference. */
  lemma BurstLaunchesPicked(ps: seq<Particle>, qs: seq<Particle>, ds: seq<Draw>, j: int)
    requires |ps| == Count && |qs| == Count && ValidDraws(ds) && 0 <= j < |ds|
    ensures BurstAll(ps, ds)[SlotOf(ds[j])] == BurstAll(qs, ds)[SlotOf(ds[j])]
    ensures var p := BurstAll(ps, ds)[SlotOf(ds[j])];
            p.alpha == 1.0 && p.y == LaunchY &&
            -5.0 <= p.x < 5.0 && -5.0 <= p.z < 5.0 &&
            -0.75 <= p.vx < 0.75 && -0.75 <= p.vz < 0.75 &&
            0.5 <= p.vy < 1.5
  {
    var k := SlotOf(ds[j]);
    BurstAt(ps, ds, k);
    BurstAt(qs, ds, k);
    assert LastPick(ds, k) >= j;
  }

  /** Indices of the live slots. */
  function LiveSet(ps: seq<Particle>): set<int> {
    set k | 0 <= k < |ps| && IsLive(ps[k])
  }

  /** Only picked slots can become live, so a burst of n draws adds at most
      n live slots. */
  lemma BurstLiveBound(ps: seq<Particle>, ds: seq<Draw>)
    requires |ps| == Count && ValidDraws(ds)
    ensures LiveSet(BurstAll(ps, ds)) <= LiveSet(ps) + Picked(ds)
    ensures |LiveSet(BurstAll(ps, ds))| <= |LiveSet(ps)| + |ds|
  {
    var qs := BurstAll(ps, ds);
    forall k | k in LiveSet(qs) ensures k in LiveSet(ps) + Picked(ds) {
      BurstAt(ps, ds, k);
      if LastPick(ds, k) >= 0 {
        assert SlotOf(ds[LastPick(ds, k)]) in Picked(ds);
      }
    }
    PickedSize(ds);
    SubsetSize(LiveSet(qs), LiveSet(ps) + Picked(ds));
  }

  lemma {:induction false} PickedSize(ds: seq<Draw>)
    ensures |Picked(ds)| <= |ds|
  {
    if ds != [] {
      var init := ds[..|ds| - 1];
      PickedSize(init);
      assert Picked(ds) == Picked(init) + {SlotOf(ds[|ds| - 1])} by {
        forall j | 0 <= j < |ds| - 1 ensures init[j] == ds[j] { }
      }
    }
  }

  lemma SubsetSize<T>(a: set<T>, b: set<T>)
    requires a <= b
    ensures |a| <= |b|
  {
    assert b == a + (b - a);
  }

  // ---------------------------------------------------------------------
  // Physics

  /** One physics step of one slot: a live slot moves by its velocity,
      then gravity lowers vy and alpha fades; a dead slot is untouched. */
  function Advance(p: Particle): (q: Particle)
    ensures q.alpha <= p.alpha
    ensures !IsLive(p) ==> q == p
  {
    if IsLive(p) then
      Particle(p.x + p.vx, p.y + p.vy, p.z + p.vz,
               p.vx, p.vy - Gravity, p.vz,
               p.alpha - Fade)
    else p
  }

  /** One physics step of the whole pool. */
  function StepAll(ps: seq<Particle>): (qs: seq<Particle>)
    ensures |qs| == |ps|
    ensures forall k :: 0 <= k < |ps| ==> qs[k].alpha <= ps[k].alpha
  {
    seq(|ps|, k requires 0 <= k < |ps| => Advance(ps[k]))
  }

  /** n physics steps of one slot. */
  function AdvanceN(p: Particle, n: nat): Particle {
    if n == 0 then p else Advance(AdvanceN(p, n - 1))
  }

  /** n physics steps of the pool. */
  function StepN(ps: seq<Particle>, n: nat): (qs: seq<Particle>)
    ensures |qs| == |ps|
  {
    if n == 0 then ps else StepAll(StepN(ps, n - 1))
  }

  /** One step: a dead slot is unchanged; a live slot adds its pre-gravity
      velocity to its position, lowers only vy by 0.02 and alpha by exactly
      0.01; alpha never increases. */
  lemma StepSlot(ps: seq<Particle>, k: int)
    requires 0 <= k < |ps|
    ensures var p, q := ps[k], StepAll(ps)[k];
            (!IsLive(p) ==> q == p) &&
            (IsLive(p) ==> q.x == p.x + p.vx && q.y == p.y + p.vy && q.z == p.z + p.vz &&
                           q.vx == p.vx && q.vy == p.vy - Gravity && q.vz == p.vz &&
                           q.alpha == p.alpha - Fade) &&
            q.alpha <= p.alpha
  {
  }

  /** No step revives a slot. */
  lemma StepLiveShrinks(ps: seq<Particle>)
    ensures LiveSet(StepAll(ps)) <= LiveSet(ps)
  {
  }

  /** Stepping the pool n times steps every slot n times. */
  lemma {:induction false} StepNAt(ps: seq<Particle>, n: nat, k: int)
    requires 0 <= k < |ps|
    ensures StepN(ps, n)[k] == AdvanceN(ps[k], n)
  {
    if n > 0 {
      StepNAt(ps, n - 1, k);
    }
  }

  /** Zero steps change nothing. */
  lemma StepZero(ps: seq<Particle>)
    ensures StepN(ps, 0) == ps
  {
  }

  /** A dead slot stays frozen under any number of steps. */
  lemma {:induction false} DeadStaysFrozen(p: Particle, n: nat)
    requires !IsLive(p)
    ensures AdvanceN(p, n) == p
  {
    if n > 0 {
      DeadStaysFrozen(p, n - 1);
    }
  }

  /** Alpha never increases over any number of steps. */
  lemma {:induction false} AlphaNonIncreasing(p: Particle, n: nat)
    ensures AdvanceN(p, n).alpha <= p.alpha
  {
    if n > 0 {
      AlphaNonIncreasing(p, n - 1);
    }
  }

  /** While a slot has been live before each of the first n steps, its
      state after n steps is the closed form of the integration. */
  lemma {:induction false} AdvanceClosedForm(p: Particle, n: nat)
    requires p.alpha - Fade * (n as real - 1.0) > 0.0
    ensures var m := n as real;
            AdvanceN(p, n) ==
            Particle(p.x + m * p.vx,
                     p.y + m * p.vy - Gravity * m * (m - 1.0) / 2.0,
                     p.z + m * p.vz,
                     p.vx, p.vy - Gravity * m, p.vz,
                     p.alpha - Fade * m)
  {
    if n > 0 {
      var m := (n - 1) as real;
      AdvanceClosedForm(p, n - 1);
      var q := AdvanceN(p, n - 1);
      assert q.alpha == p.alpha - Fade * m;
      assert IsLive(q);
      assert q.y + q.vy == p.y + (m + 1.0) * p.vy - Gravity * (m + 1.0) * m / 2.0;
    }
  }

  /** A slot launched with alpha 1 is still live after 99 steps and dead
      after 100. */
  lemma LaunchedLifetime(d: Draw)
    ensures IsLive(AdvanceN(Launched(d), 99))
    ensures !IsLive(AdvanceN(Launched(d), 100))
  {
    AdvanceClosedForm(Launched(d), 99);
    AdvanceClosedForm(Launched(d), 100);
  }

  /** With no further bursts, every slot whose alpha is at most 1 is dead
      after 100 steps and frozen from then on. */
  lemma PoolDeadAfter100(ps: seq<Particle>, k: int, n: nat)
    requires 0 <= k < |ps| && ps[k].alpha <= 1.0 && n >= 100
    ensures !IsLive(StepN(ps, 100)[k])
    ensures StepN(ps, n)[k] == StepN(ps, 100)[k]
  {
    StepNAt(ps, 100, k);
    StepNAt(ps, n, k);
    DeadWithin(ps[k], 100);
    AdvanceSplit(ps[k], 100, n - 100);
    DeadStaysFrozen(AdvanceN(ps[k], 100), n - 100);
  }

  /** A slot with alpha at most 0.01 * n is dead after n steps. */
  lemma {:induction false} DeadWithin(p: Particle, n: nat)
    requires p.alpha <= Fade * n as real
    ensures !IsLive(AdvanceN(p, n))
    decreases n
  {
    if !IsLive(p) {
      DeadStaysFrozen(p, n);
    } else if n > 0 {
      DeadWithin(Advance(p), n - 1);
      AdvanceShift(p, n - 1);
    }
  }

  /** Steps compose. */
  lemma {:induction false} AdvanceSplit(p: Particle, a: nat, b: nat)
    ensures AdvanceN(p, a + b) == AdvanceN(AdvanceN(p, a), b)
  {
    if b > 0 {
      AdvanceSplit(p, a, b - 1);
    }
  }

  lemma AdvanceShift(p: Particle, n: nat)
    ensures AdvanceN(p, n + 1) == AdvanceN(Advance(p), n)
  {
    AdvanceSplit(p, 1, n);
  }

  /** A slot is not re-parked when it dies: a launched slot's height at
      the step that kills it is 100 * vy0 - 119, between -69 and 31, and
      never the parked height -500. */
  lemma DeathHeight(d: Draw)
    requires ValidDraw(d)
    ensures AdvanceN(Launched(d), 100).y == 100.0 * Launched(d).vy - 119.0
    ensures -69.0 <= AdvanceN(Launched(d), 100).y < 31.0
    ensures AdvanceN(Launched(d), 100).y != ParkedY
  {
    AdvanceClosedForm(Launched(d), 100);
  }
}
