// The wiring of the two parts: the animation frame steps the pool, and
// each tick of a running firework interval launches one burst.

module Scene {
  import opened Particles
  import opened Pool
  import opened Session

  class Scene {
    const hearts: HeartPool
    const stage: Session

    ghost predicate Valid() {
      hearts.Valid()
    }

    constructor ()
      ensures Valid() && fresh(hearts) && fresh(stage)
      ensures fresh(hearts.pos) && fresh(hearts.vel) && fresh(hearts.alpha)
      ensures hearts.Particles() == Parked()
      ensures stage.State() == Stages.Initial
    {
      hearts := new HeartPool();
      stage := new Session();
    }

    /** One animation frame: the physics step; the stage is untouched. */
    method Animate()
      requires Valid()
      modifies hearts.pos, hearts.vel, hearts.alpha
      ensures hearts.Particles() == StepAll(old(hearts.Particles()))
      ensures unchanged(stage)
    {
      hearts.Step();
    }

    /** One tick of the 100 ms show interval or the endless 50 ms one:
        there is a tick only while one of them runs. */
    method FireworkTick(draws: seq<Draw>)
      requires Valid() && (stage.showRunning || stage.endless)
      requires |draws| == BurstSize && ValidDraws(draws)
      modifies hearts.pos, hearts.vel, hearts.alpha
      ensures hearts.Particles() == BurstAll(old(hearts.Particles()), draws)
      ensures unchanged(stage)
    {
      hearts.Burst(draws);
    }
  }
}
