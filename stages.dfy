// The stage logic as values: the state the tracking callback and its two
// timers update, one function per event, and the properties of runs.

module Stages {
  import opened Gesture

  datatype Option<T> = None | Some(value: T)

  /** What the hand tracker delivers per frame: possibly no list at all,
      possibly an empty one; only the first hand is used. */
  datatype Results = Results(multiHandLandmarks: Option<seq<Hand>>)

  /** The stage number: 1, 2 or 3 (3 is final). */
  type StageId = s: int | 1 <= s <= 3 witness 1

  /** Everything the stage logic updates. The panels are the stage
      panels' "active" class; showRunning is the 100 ms firework interval
      started at the pinch, whose 3 s clearing timer is pending exactly
      while it runs; unlockPending is the 15 s timer that opens stage 2;
      endless is the 50 ms firework interval started at stage 3. */
  datatype State = State(stage: StageId, locked: bool, loaderVisible: bool,
                         panel1: bool, panel2: bool, panel3: bool,
                         showRunning: bool, unlockPending: bool, endless: bool)

  /** The page as it loads: stage 1 shown, loading screen up, no timers. */
  const Initial: State := State(1, false, true, true, false, false, false, false, false)

  predicate HasHand(r: Results) {
    r.multiHandLandmarks.Some? && |r.multiHandLandmarks.value| > 0
  }

  function FirstHand(r: Results): Hand
    requires HasHand(r)
  {
    r.multiHandLandmarks.value[0]
  }

  /** The pinch transition, only when at stage 1 and unlocked: lock, hide
      panel 1, start the firework show and the unlock timer. */
  function PinchCheck(s: State, h: Hand): (t: State)
    ensures t.stage == s.stage
    ensures t != s ==> s.stage == 1 && t.locked && !t.panel1 && t.showRunning && t.unlockPending
  {
    if s.stage == 1 && !s.locked && IsPinch(h) then
      s.(locked := true, panel1 := false, showRunning := true, unlockPending := true)
    else s
  }

  /** The raise transition, only when at stage 2 and unlocked: lock, swap
      panel 2 for panel 3, move to stage 3, start the endless fireworks. */
  function RaiseCheck(s: State, h: Hand): (t: State)
    ensures t.stage >= s.stage
    ensures t != s ==> s.stage == 2 && t.stage == 3 && t.locked && !t.panel2 && t.panel3 && t.endless
  {
    if s.stage == 2 && !s.locked && IsRaised(h) then
      s.(locked := true, panel2 := false, panel3 := true, stage := 3, endless := true)
    else s
  }

  /** One tracking frame: the loading screen goes, then with a hand the
      two checks run in order on the state the first one leaves. */
  function OnResults(s: State, r: Results): (t: State)
    ensures t.stage >= s.stage
    ensures !t.loaderVisible
    ensures !HasHand(r) || s.locked || s.stage == 3 ==> t == s.(loaderVisible := false)
  {
    var s1 := s.(loaderVisible := false);
    if HasHand(r) then RaiseCheck(PinchCheck(s1, FirstHand(r)), FirstHand(r)) else s1
  }

  /** The 3 s timer clears the firework show. */
  function OnShowEnd(s: State): (t: State)
    requires s.showRunning
    ensures !t.showRunning && t.stage == s.stage && t.locked == s.locked
  {
    s.(showRunning := false)
  }

  /** The 15 s timer: stage 2, unlocked, panel 2 shown. It is set together
      with the 3 s one, so the show has ended by then. */
  function OnUnlock(s: State): (t: State)
    requires s.unlockPending && !s.showRunning
    ensures t.stage == 2 && !t.locked && t.panel2 && !t.unlockPending
  {
    s.(stage := 2, locked := false, panel2 := true, unlockPending := false)
  }

  /** The states the program can reach. */
  ghost predicate Inv(s: State) {
    (s.stage == 1 ==>
       s.panel1 == !s.locked && !s.panel2 && !s.panel3 && !s.endless &&
       s.unlockPending == s.locked && (s.showRunning ==> s.locked)) &&
    (s.stage == 2 ==>
       !s.locked && !s.panel1 && s.panel2 && !s.panel3 && !s.endless &&
       !s.unlockPending && !s.showRunning) &&
    (s.stage == 3 ==>
       s.locked && !s.panel1 && !s.panel2 && s.panel3 && s.endless &&
       !s.unlockPending && !s.showRunning)
  }

  datatype Event = Frame(results: Results) | ShowEnd | Unlock

  /** A timer event happens only while its timer is pending. */
  predicate Enabled(s: State, e: Event) {
    match e
    case Frame(_) => true
    case ShowEnd => s.showRunning
    case Unlock => s.unlockPending && !s.showRunning
  }

  function Apply(s: State, e: Event): State
    requires Enabled(s, e)
  {
    match e
    case Frame(r) => OnResults(s, r)
    case ShowEnd => OnShowEnd(s)
    case Unlock => OnUnlock(s)
  }

  predicate Admissible(s: State, es: seq<Event>)
    decreases |es|
  {
    es == [] || (Enabled(s, es[0]) && Admissible(Apply(s, es[0]), es[1..]))
  }

  function Run(s: State, es: seq<Event>): State
    requires Admissible(s, es)
    decreases |es|
  {
    if es == [] then s else Run(Apply(s, es[0]), es[1..])
  }

  lemma InitialInv()
    ensures Inv(Initial)
  {
  }

  /** Every event keeps the reachable-state invariant. */
  lemma ApplyKeepsInv(s: State, e: Event)
    requires Inv(s) && Enabled(s, e)
    ensures Inv(Apply(s, e))
  {
  }

  /** In every reachable state at most one stage panel is visible. */
  lemma AtMostOnePanel(s: State)
    requires Inv(s)
    ensures !(s.panel1 && s.panel2) && !(s.panel1 && s.panel3) && !(s.panel2 && s.panel3)
  {
  }

  /** At stage 1 and unlocked, a frame locks exactly when it holds a hand
      that pinches; the stage stays 1 and panel 1 hides. */
  lemma PinchTransition(s: State, r: Results)
    requires Inv(s) && s.stage == 1 && !s.locked
    ensures var t := OnResults(s, r);
            (t.locked <==> HasHand(r) && IsPinch(FirstHand(r))) &&
            t.stage == 1 &&
            (t.locked ==> !t.panel1 && !t.panel2 && t.showRunning && t.unlockPending)
  {
  }

  /** At stage 2 and unlocked, a frame moves to stage 3 exactly when it
      holds a hand whose middle tip is raised; then it locks, swaps the
      panels and starts the endless fireworks. */
  lemma RaiseTransition(s: State, r: Results)
    requires Inv(s) && s.stage == 2 && !s.locked
    ensures var t := OnResults(s, r);
            (t.stage == 3 <==> HasHand(r) && IsRaised(FirstHand(r))) &&
            (t.stage == 3 ==> t.locked && !t.panel2 && t.panel3 && t.endless) &&
            (t.stage != 3 ==> t == s.(loaderVisible := false))
  {
  }

  /** Over any run the stage never decreases and the invariant holds. */
  lemma {:induction false} RunMonotone(s: State, es: seq<Event>)
    requires Inv(s) && Admissible(s, es)
    ensures Inv(Run(s, es)) && Run(s, es).stage >= s.stage
    decreases |es|
  {
    if es != [] {
      ApplyKeepsInv(s, es[0]);
      assert Apply(s, es[0]).stage >= s.stage;
      RunMonotone(Apply(s, es[0]), es[1..]);
    }
  }

  /** The event starts a transition: it takes an unlocked state to a
      locked one. */
  predicate Fires(s: State, e: Event)
    requires Enabled(s, e)
  {
    !s.locked && Apply(s, e).locked
  }

  /** Once the state has passed stage k's transition, no event starts that
      transition again. */
  ghost predicate PastStage(s: State, k: StageId) {
    s.stage > k || (s.stage == k && s.locked)
  }

  lemma PastStageKept(s: State, e: Event, k: StageId)
    requires Inv(s) && Enabled(s, e) && PastStage(s, k)
    ensures PastStage(Apply(s, e), k)
  {
  }

  /** Fires only at stage 1 or 2; the stage 1 firing locks stage 1 and
      the stage 2 firing moves to stage 3. */
  lemma FiresAt(s: State, e: Event)
    requires Inv(s) && Enabled(s, e) && Fires(s, e)
    ensures (s.stage == 1 && PastStage(Apply(s, e), 1)) ||
            (s.stage == 2 && Apply(s, e).stage == 3)
  {
  }

  /** A run from a state past stage k's transition never starts a
      transition at stage k. */
  lemma {:induction false} NoRefire(s: State, es: seq<Event>, k: StageId)
    requires Inv(s) && Admissible(s, es) && PastStage(s, k)
    ensures FiringsAt(s, es, k) == 0
    decreases |es|
  {
    if es != [] {
      PastStageKept(s, es[0], k);
      ApplyKeepsInv(s, es[0]);
      NoRefire(Apply(s, es[0]), es[1..], k);
    }
  }

  /** How many events in the run start a transition out of stage k. */
  function FiringsAt(s: State, es: seq<Event>, k: StageId): nat
    requires Admissible(s, es)
    decreases |es|
  {
    if es == [] then 0
    else (if s.stage == k && Fires(s, es[0]) then 1 else 0) + FiringsAt(Apply(s, es[0]), es[1..], k)
  }

  /** Each transition fires at most once in any run of reachable states. */
  lemma {:induction false} FiresAtMostOnce(s: State, es: seq<Event>, k: StageId)
    requires Inv(s) && Admissible(s, es)
    ensures FiringsAt(s, es, k) <= 1
    decreases |es|
  {
    if es != [] {
      var t := Apply(s, es[0]);
      ApplyKeepsInv(s, es[0]);
      if s.stage == k && Fires(s, es[0]) {
        FiresAt(s, es[0]);
        assert PastStage(t, k);
        NoRefire(t, es[1..], k);
      } else {
        FiresAtMostOnce(t, es[1..], k);
      }
    }
  }

  /** A complete session: a frame with no hand, a pinch, the show ending,
      the unlock, a raised hand. It ends at stage 3 with the endless
      fireworks running and only panel 3 visible. */
  lemma FullSession(pinch: Hand, raise: Hand)
    requires IsPinch(pinch) && IsRaised(raise)
    ensures var es := [Frame(Results(None)), Frame(Results(Some([pinch]))), ShowEnd, Unlock,
                       Frame(Results(Some([raise])))];
            Admissible(Initial, es) &&
            var t := Run(Initial, es);
            t.stage == 3 && t.endless && t.locked && !t.panel1 && !t.panel2 && t.panel3
  {
    var es := [Frame(Results(None)), Frame(Results(Some([pinch]))), ShowEnd, Unlock,
               Frame(Results(Some([raise])))];
    var s1 := OnResults(Initial, Results(None));
    var s2 := OnResults(s1, Results(Some([pinch])));
    var s3 := OnShowEnd(s2);
    var s4 := OnUnlock(s3);
    var s5 := OnResults(s4, Results(Some([raise])));
    assert s5.stage == 3;
    assert Run(s4, es[4..]) == s5 by {
      assert es[4..][1..] == [];
    }
    assert Run(s3, es[3..]) == s5 by { assert es[3..][1..] == es[4..]; }
    assert Run(s2, es[2..]) == s5 by { assert es[2..][1..] == es[3..]; }
    assert Run(s1, es[1..]) == s5 by { assert es[1..][1..] == es[2..]; }
  }
}
