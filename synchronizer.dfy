/**
 * The older swing-then-confirm synchronizer (synchronizer.py). It counts two
 * swings of the wrist, each a wrist y more than `swingThreshold` above the
 * smallest y seen (normalised image coordinates, in which y grows downward),
 * then returns a move once the same non-empty reading has
 * been held for `gestureConfirmTime` seconds. The source's string states
 * "WAITING", "SWING_1" and "STABILIZING" are a datatype.
 */
module SwingSync {
  import opened Wrappers
  import opened Domain
  import opened Landmarks

  datatype SwingPhase = Waiting | Swing1 | Stabilizing

  datatype SwingState = SwingState(
    phase: SwingPhase,
    swingsDetected: nat,
    minY: real,
    currentGesture: Option<Move>,
    gestureStart: Option<real>)

  /** Swings needed before the pose is read. */
  const SwingsNeeded: nat := 2

  /** The constructor's and `reset`'s values. */
  function InitialSwing(): SwingState
  {
    SwingState(Waiting, 0, 1.0, None, None)
  }

  /** The facts every reachable state satisfies. */
  ghost predicate SwingInv(s: SwingState)
  {
    && s.phase != Swing1
    && s.minY <= 1.0
    && s.swingsDetected <= SwingsNeeded
    && (s.phase == Waiting <==> s.swingsDetected < SwingsNeeded)
    && (s.phase == Waiting ==> s.currentGesture.None? && s.gestureStart.None?)
    && (s.currentGesture.Some? ==> s.gestureStart.Some?)
  }

  /** The WAITING branch: track the smallest wrist y and count a y above it by more than the threshold. */
  function TrackSwing(s: SwingState, y: real, threshold: real): SwingState
  {
    var low := if y < s.minY then y else s.minY;
    if y - low > threshold then
      var swings := s.swingsDetected + 1;
      if swings >= SwingsNeeded then
        s.(swingsDetected := swings, minY := 1.0, phase := Stabilizing, currentGesture := None, gestureStart := None)
      else s.(swingsDetected := swings, minY := 1.0)
    else s.(minY := low)
  }

  /** `update(side, landmarks)` at time `now`: the returned move and the new state. */
  function SwingStep(threshold: real, confirmTime: real, s: SwingState, cls: Classifier,
                     side: Side, lms: Landmarks, now: real): (r: (Option<Move>, SwingState))
    requires SwingInv(s)
    ensures |lms| == 0 ==> r == (None, InitialSwing())
    ensures r.0.Some? ==>
              && s.phase == Stabilizing && r.1 == InitialSwing()
              && r.0 == s.currentGesture && r.0 == cls.handMove(side, lms)
              && s.gestureStart.Some? && now - s.gestureStart.value >= confirmTime
  {
    if |lms| == 0 then (None, InitialSwing())
    else
      var y := lms[Wrist].y;
      var detected := cls.handMove(side, lms);
      if s.phase == Waiting || s.phase == Swing1 then (None, TrackSwing(s, y, threshold))
      else if detected.Some? && detected == s.currentGesture then
        if now - s.gestureStart.value >= confirmTime then (s.currentGesture, InitialSwing())
        else (None, s)
      else (None, s.(currentGesture := detected, gestureStart := Some(now)))
  }

  class GameSyncController {
    const classifier: Classifier
    const swingThreshold: real
    const gestureConfirmTime: real

    var state: SwingPhase
    var swingsDetected: nat
    var minY: real
    var currentGesture: Option<Move>
    var gestureStartTime: Option<real>

    function State(): SwingState
      reads this
    {
      SwingState(state, swingsDetected, minY, currentGesture, gestureStartTime)
    }

    ghost predicate Valid()
      reads this
    {
      SwingInv(State())
    }

    constructor(classifier: Classifier, swingThreshold: real := 0.1, gestureConfirmTime: real := 0.8)
      ensures Valid() && State() == InitialSwing()
      ensures this.classifier == classifier
      ensures this.swingThreshold == swingThreshold && this.gestureConfirmTime == gestureConfirmTime
    {
      this.classifier := classifier;
      this.swingThreshold := swingThreshold;
      this.gestureConfirmTime := gestureConfirmTime;
      state := Waiting;
      swingsDetected := 0;
      minY := 1.0;
      currentGesture := None;
      gestureStartTime := None;
    }

    method Reset()
      modifies this
      ensures Valid() && State() == InitialSwing()
    {
      state := Waiting;
      swingsDetected := 0;
      minY := 1.0;
      currentGesture := None;
      gestureStartTime := None;
    }

    /** `update(side, landmarks)`; `now` is the clock reading taken inside it. */
    method Update(side: Side, lms: Landmarks, now: real) returns (move: Option<Move>)
      requires Valid()
      modifies this
      ensures Valid()
      ensures (move, State()) == SwingStep(swingThreshold, gestureConfirmTime, old(State()), classifier, side, lms, now)
    {
      SwingStepPreservesInvariant(swingThreshold, gestureConfirmTime, State(), classifier, side, lms, now);
      if |lms| == 0 {
        Reset();
        return None;
      }
      var currY := lms[Wrist].y;
      var detectedMove := classifier.handMove(side, lms);

      if state == Waiting || state == Swing1 {
        if currY < minY {
          minY := currY;
        }
        if currY - minY > swingThreshold {
          swingsDetected := swingsDetected + 1;
          minY := 1.0;
          if swingsDetected >= SwingsNeeded {
            state := Stabilizing;
            currentGesture := None;
            gestureStartTime := None;
          }
        }
      } else if state == Stabilizing {
        if detectedMove.Some? && detectedMove == currentGesture {
          var duration := now - gestureStartTime.value;
          if duration >= gestureConfirmTime {
            var finalMove := currentGesture;
            Reset();
            return finalMove;
          }
        } else {
          currentGesture := detectedMove;
          gestureStartTime := Some(now);
        }
      }
      return None;
    }
  }

  /** Every call keeps the invariant: at most two swings, `minY <= 1`, SWING_1 never reached. */
  lemma SwingStepPreservesInvariant(threshold: real, confirmTime: real, s: SwingState, cls: Classifier,
                                    side: Side, lms: Landmarks, now: real)
    requires SwingInv(s)
    ensures SwingInv(SwingStep(threshold, confirmTime, s, cls, side, lms, now).1)
  {
  }

  /** Missing landmarks reset the controller. */
  lemma MissingLandmarksReset(threshold: real, confirmTime: real, s: SwingState, cls: Classifier,
                              side: Side, now: real)
    requires SwingInv(s)
    ensures SwingStep(threshold, confirmTime, s, cls, side, [], now) == (None, InitialSwing())
  {
  }

  /** While waiting, a wrist y more than the threshold above the smallest y seen counts one swing. */
  lemma SwingCounting(threshold: real, confirmTime: real, s: SwingState, cls: Classifier,
                      side: Side, lms: Landmarks, now: real)
    requires SwingInv(s) && s.phase == Waiting && |lms| > 0
    ensures var y := lms[Wrist].y;
            var low := if y < s.minY then y else s.minY;
            var r := SwingStep(threshold, confirmTime, s, cls, side, lms, now);
            r.0 == None &&
            (y - low > threshold ==> r.1.swingsDetected == s.swingsDetected + 1 && r.1.minY == 1.0 &&
                                     (r.1.phase == Stabilizing <==> r.1.swingsDetected == SwingsNeeded)) &&
            (y - low <= threshold ==> r.1 == s.(minY := low))
  {
  }

  /**
   * A move is returned only from STABILIZING, when this frame's reading is
   * the held gesture and it has been held for at least the confirm time; the
   * controller is then reset.
   */
  lemma ConfirmedMoveOnly(threshold: real, confirmTime: real, s: SwingState, cls: Classifier,
                          side: Side, lms: Landmarks, now: real)
    requires SwingInv(s)
    requires SwingStep(threshold, confirmTime, s, cls, side, lms, now).0.Some?
    ensures var m := SwingStep(threshold, confirmTime, s, cls, side, lms, now).0;
            s.phase == Stabilizing && s.swingsDetected == SwingsNeeded && |lms| > 0 &&
            s.currentGesture == m && cls.handMove(side, lms) == m &&
            s.gestureStart.Some? && now - s.gestureStart.value >= confirmTime
    ensures SwingStep(threshold, confirmTime, s, cls, side, lms, now).1 == InitialSwing()
  {
  }

  /** In STABILIZING a different or missing reading becomes the held gesture and restarts its timer. */
  lemma ChangedReadingRestartsTimer(threshold: real, confirmTime: real, s: SwingState, cls: Classifier,
                                    side: Side, lms: Landmarks, now: real)
    requires SwingInv(s) && s.phase == Stabilizing && |lms| > 0
    requires cls.handMove(side, lms).None? || cls.handMove(side, lms) != s.currentGesture
    ensures SwingStep(threshold, confirmTime, s, cls, side, lms, now) ==
            (None, s.(currentGesture := cls.handMove(side, lms), gestureStart := Some(now)))
  {
  }

  /** Holding the gesture, the timer keeps its start, so the hold is measured from the first matching frame. */
  lemma HeldReadingKeepsTimer(threshold: real, confirmTime: real, s: SwingState, cls: Classifier,
                              side: Side, lms: Landmarks, now: real)
    requires SwingInv(s) && s.phase == Stabilizing && |lms| > 0
    requires cls.handMove(side, lms).Some? && cls.handMove(side, lms) == s.currentGesture
    requires now - s.gestureStart.value < confirmTime
    ensures SwingStep(threshold, confirmTime, s, cls, side, lms, now) == (None, s)
  {
  }

  /** Holding the gesture for the confirm time returns it and resets the controller. */
  lemma HeldReadingConfirms(threshold: real, confirmTime: real, s: SwingState, cls: Classifier,
                            side: Side, lms: Landmarks, now: real)
    requires SwingInv(s) && s.phase == Stabilizing && |lms| > 0
    requires cls.handMove(side, lms).Some? && cls.handMove(side, lms) == s.currentGesture
    requires now - s.gestureStart.value >= confirmTime
    ensures SwingStep(threshold, confirmTime, s, cls, side, lms, now) == (s.currentGesture, InitialSwing())
  {
  }

  /** A move is returned exactly when a frame in STABILIZING holds the gesture for the confirm time. */
  lemma ConfirmedMoveIff(threshold: real, confirmTime: real, s: SwingState, cls: Classifier,
                         side: Side, lms: Landmarks, now: real)
    requires SwingInv(s)
    ensures SwingStep(threshold, confirmTime, s, cls, side, lms, now).0.Some? <==>
            && s.phase == Stabilizing && |lms| > 0
            && cls.handMove(side, lms).Some? && cls.handMove(side, lms) == s.currentGesture
            && now - s.gestureStart.value >= confirmTime
  {
    if s.phase == Stabilizing && |lms| > 0 && cls.handMove(side, lms).Some? &&
       cls.handMove(side, lms) == s.currentGesture && now - s.gestureStart.value >= confirmTime {
      HeldReadingConfirms(threshold, confirmTime, s, cls, side, lms, now);
    }
    if SwingStep(threshold, confirmTime, s, cls, side, lms, now).0.Some? {
      ConfirmedMoveOnly(threshold, confirmTime, s, cls, side, lms, now);
    }
  }
}
