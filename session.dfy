// The stage logic as the program keeps it: module-level variables that the
// tracking callback and the timer callbacks update in place. Each method is
// proved against the event functions of stages.dfy.

module Session {
  import opened Gesture
  import opened Stages

  class Session {
    var currentStage: StageId
    var transitionLocked: bool
    var loaderVisible: bool
    var panel1: bool
    var panel2: bool
    var panel3: bool
    var showRunning: bool
    var unlockPending: bool
    var endless: bool

    /** The stage state these variables hold. */
    function State(): State
      reads this
    {
      Stages.State(currentStage, transitionLocked, loaderVisible, panel1, panel2, panel3,
                   showRunning, unlockPending, endless)
    }

    constructor ()
      ensures State() == Initial
    {
      currentStage, transitionLocked := 1, false;
      loaderVisible := true;
      panel1, panel2, panel3 := true, false, false;
      showRunning, unlockPending, endless := false, false, false;
    }

    /** The tracking callback. */
    method OnResults(results: Results)
      modifies this
      ensures State() == Stages.OnResults(old(State()), results)
    {
      loaderVisible := false;
      if results.multiHandLandmarks.Some? && |results.multiHandLandmarks.value| > 0 {
        var landmarks := results.multiHandLandmarks.value[0];
        if currentStage == 1 && !transitionLocked {
          if IsPinch(landmarks) {
            transitionLocked := true;
            panel1 := false;
            showRunning := true;
            unlockPending := true;
          }
        }
        if currentStage == 2 && !transitionLocked {
          if IsRaised(landmarks) {
            transitionLocked := true;
            panel2 := false;
            panel3 := true;
            currentStage := 3;
            endless := true;
          }
        }
      }
    }

    /** The 3 s timer that clears the firework show. */
    method OnShowEnd()
      requires showRunning
      modifies this
      ensures State() == Stages.OnShowEnd(old(State()))
    {
      showRunning := false;
    }

    /** The 15 s timer that opens stage 2. */
    method OnUnlock()
      requires unlockPending && !showRunning
      modifies this
      ensures State() == Stages.OnUnlock(old(State()))
    {
      currentStage := 2;
      transitionLocked := false;
      panel2 := true;
      unlockPending := false;
    }
  }
}
