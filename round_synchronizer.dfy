/**
 * The shake-then-lock synchronizer (src/core/round_synchronizer.py).
 *
 * While a round is active it is fed one sample per frame. It counts
 * half-cycles of the wrist's vertical motion (SHAKING), waits for the wrist
 * to be still for `stillTime`, then collects the classifier's pose readings in
 * a bounded window (LOCKING) and locks the move that reaches the consensus
 * count. The state is a class; `SyncStep` is its specification.
 */
module RoundSync {
  import opened Wrappers
  import opened Domain
  import opened Landmarks

  datatype SyncPhase = Waiting | Shaking | Locking

  /** What `status()` reports: phase, half-cycles so far, and shake progress. */
  datatype SyncStatus = SyncStatus(phase: SyncPhase, cycles: nat, progress: real)

  /** The constructor's tuning parameters. */
  datatype SyncConfig = SyncConfig(
    minHalfCycles: int,
    minAmplitude: real,
    velStillThreshold: real,
    stillTime: real,
    moveWindow: nat,
    moveConsensus: int,
    maxShakeTime: real)

  /** Every field `update` reads or writes. */
  datatype SyncState = SyncState(
    phase: SyncPhase,
    halfCycles: nat,
    shakeStart: Option<real>,
    stillStart: Option<real>,
    lastT: Option<real>,
    lastWristY: Option<real>,
    lastDir: int,
    pivotY: Option<real>,
    extremaY: Option<real>,
    moves: seq<Move>)

  /** Floor on the time step, so the velocity is always defined. */
  const MinDt: real := 0.000001
  /** Factor of the stillness threshold beyond which LOCKING is abandoned. */
  const LockExitFactor: real := 1.8

  /** The state after construction or `_reset_internal`. */
  function InitialSync(): SyncState
  {
    SyncState(Waiting, 0, None, None, None, None, 0, None, None, [])
  }

  /** The facts every reachable state satisfies. */
  ghost predicate SyncInv(cfg: SyncConfig, s: SyncState)
  {
    && |s.moves| <= cfg.moveWindow
    && (s.lastT.Some? <==> s.lastWristY.Some?)
    && -1 <= s.lastDir <= 1
    && (s.phase != Locking ==> s.moves == [])
    && (s.phase == Waiting ==>
          s.halfCycles == 0 && s.shakeStart.None? && s.stillStart.None? &&
          s.pivotY.None? && s.extremaY.None? && s.lastDir == 0)
    && (s.phase != Waiting ==> s.lastT.Some? && s.shakeStart.Some?)
    && (s.phase == Locking ==> s.halfCycles >= cfg.minHalfCycles && s.stillStart.Some?)
  }

  // ---------------------------------------------------------------------
  // Numeric helpers

  function Abs(x: real): (r: real)
    ensures r >= 0.0 && (r == x || r == -x)
  {
    if x < 0.0 then -x else x
  }

  function Max(a: real, b: real): (r: real)
    ensures r >= a && r >= b && (r == a || r == b)
  {
    if a >= b then a else b
  }

  function Min(a: real, b: real): (r: real)
    ensures r <= a && r <= b && (r == a || r == b)
  {
    if a <= b then a else b
  }

  /** The direction sign of a velocity. */
  function Sign(v: real): (d: int)
    ensures -1 <= d <= 1
    ensures d == 0 <==> v == 0.0
    ensures d > 0 <==> v > 0.0
  {
    if v > 0.0 then 1 else if v < 0.0 then -1 else 0
  }

  // ---------------------------------------------------------------------
  // The consensus window

  /** Number of times `m` occurs in `w`. */
  function Count(w: seq<Move>, m: Move): nat
  {
    if |w| == 0 then 0
    else Count(w[..|w| - 1], m) + (if w[|w| - 1] == m then 1 else 0)
  }

  /** The distinct moves of `w` in order of first appearance (a dictionary's key order). */
  function Distinct(w: seq<Move>): seq<Move>
  {
    if |w| == 0 then []
    else
      var d := Distinct(w[..|w| - 1]);
      if w[|w| - 1] in d then d else d + [w[|w| - 1]]
  }

  /** `max(freq.items(), key=count)`: the first key with the largest count. */
  function ArgMaxFirst(keys: seq<Move>, w: seq<Move>): Move
    requires |keys| > 0
  {
    if |keys| == 1 then keys[0]
    else
      var b := ArgMaxFirst(keys[..|keys| - 1], w);
      var k := keys[|keys| - 1];
      if Count(w, k) > Count(w, b) then k else b
  }

  /** The plurality move of a non-empty window. */
  function Plurality(w: seq<Move>): Move
    requires |w| > 0
  {
    DistinctNonEmpty(w);
    ArgMaxFirst(Distinct(w), w)
  }

  /** `_try_lock`: a move once the window is full and its plurality reaches the consensus. */
  function LockDecision(w: seq<Move>, window: nat, consensus: int): (r: Option<Move>)
    requires window >= 1
    ensures |w| < window ==> r.None?
    ensures r.Some? ==> |w| >= window && Count(w, r.value) >= consensus
  {
    if |w| < window then None
    else
      var best := Plurality(w);
      if Count(w, best) >= consensus then Some(best) else None
  }

  /** `deque(maxlen=cap).append(m)`: evicts the oldest entry when full. */
  function PushBounded(w: seq<Move>, m: Move, cap: nat): (r: seq<Move>)
    requires 1 <= cap && |w| <= cap
    ensures |r| <= cap
    ensures |r| == if |w| == cap then cap else |w| + 1
    ensures r == (w + [m])[|w| + 1 - |r|..]
  {
    if |w| == cap then
      assert w[1..] + [m] == (w + [m])[1..];
      w[1..] + [m]
    else
      w + [m]
  }

  lemma PrefixExtend(w: seq<Move>, i: nat)
    requires i < |w|
    ensures Distinct(w[..i + 1]) ==
            if w[i] in Distinct(w[..i]) then Distinct(w[..i]) else Distinct(w[..i]) + [w[i]]
    ensures forall m :: Count(w[..i + 1], m) == Count(w[..i], m) + (if w[i] == m then 1 else 0)
  {
    assert w[..i + 1][..i] == w[..i];
  }

  lemma ArgMaxExtend(keys: seq<Move>, j: nat, w: seq<Move>)
    requires 1 <= j < |keys|
    ensures ArgMaxFirst(keys[..j + 1], w) ==
            if Count(w, keys[j]) > Count(w, ArgMaxFirst(keys[..j], w)) then keys[j]
            else ArgMaxFirst(keys[..j], w)
  {
    assert keys[..j + 1][..j] == keys[..j];
  }

  lemma CountPositive(w: seq<Move>, m: Move)
    ensures Count(w, m) > 0 <==> m in w
  {
    if |w| > 0 {
      CountPositive(w[..|w| - 1], m);
      assert w == w[..|w| - 1] + [w[|w| - 1]];
    }
  }

  lemma {:induction false} DistinctMembers(w: seq<Move>)
    ensures forall m :: m in Distinct(w) <==> m in w
  {
    if |w| > 0 {
      DistinctMembers(w[..|w| - 1]);
      assert w == w[..|w| - 1] + [w[|w| - 1]];
    }
  }

  lemma {:induction false} DistinctHasNoDuplicates(w: seq<Move>)
    ensures forall i, j :: 0 <= i < j < |Distinct(w)| ==> Distinct(w)[i] != Distinct(w)[j]
  {
    if |w| > 0 {
      DistinctHasNoDuplicates(w[..|w| - 1]);
    }
  }

  lemma DistinctNonEmpty(w: seq<Move>)
    requires |w| > 0
    ensures |Distinct(w)| > 0
  {
    DistinctMembers(w);
    assert w[0] in Distinct(w);
  }

  /** The chosen key is a key, no key has a larger count, and every earlier key has a smaller one. */
  lemma ArgMaxFirstIsFirstMaximum(keys: seq<Move>, w: seq<Move>)
    requires |keys| > 0
    ensures ArgMaxFirst(keys, w) in keys
    ensures forall k :: k in keys ==> Count(w, k) <= Count(w, ArgMaxFirst(keys, w))
    ensures exists i :: 0 <= i < |keys| && keys[i] == ArgMaxFirst(keys, w) &&
                        forall j :: 0 <= j < i ==> Count(w, keys[j]) < Count(w, keys[i])
  {
    ArgMaxFirstIsMaximum(keys, w);
    ArgMaxFirstIsFirst(keys, w);
  }

  lemma {:induction false} ArgMaxFirstIsMaximum(keys: seq<Move>, w: seq<Move>)
    requires |keys| > 0
    ensures ArgMaxFirst(keys, w) in keys
    ensures forall k :: k in keys ==> Count(w, k) <= Count(w, ArgMaxFirst(keys, w))
  {
    if |keys| > 1 {
      var init := keys[..|keys| - 1];
      ArgMaxFirstIsMaximum(init, w);
      var k := keys[|keys| - 1];
      assert keys == init + [k];
      forall x | x in keys ensures x in init || x == k {
      }
    }
  }

  lemma {:induction false} ArgMaxFirstIsFirst(keys: seq<Move>, w: seq<Move>)
    requires |keys| > 0
    ensures exists i :: 0 <= i < |keys| && keys[i] == ArgMaxFirst(keys, w) &&
                        forall j :: 0 <= j < i ==> Count(w, keys[j]) < Count(w, keys[i])
  {
    if |keys| == 1 {
      assert keys[0] == ArgMaxFirst(keys, w);
    } else {
      var init := keys[..|keys| - 1];
      ArgMaxFirstIsFirst(init, w);
      ArgMaxFirstIsMaximum(init, w);
      var b := ArgMaxFirst(init, w);
      var k := keys[|keys| - 1];
      var i :| 0 <= i < |init| && init[i] == b &&
               forall j :: 0 <= j < i ==> Count(w, init[j]) < Count(w, init[i]);
      if Count(w, k) > Count(w, b) {
        var n := |keys| - 1;
        assert keys[n] == ArgMaxFirst(keys, w);
        forall j | 0 <= j < n ensures Count(w, keys[j]) < Count(w, keys[n]) {
          assert keys[j] == init[j] && init[j] in init;
        }
      } else {
        assert keys[i] == b == ArgMaxFirst(keys, w);
        forall j | 0 <= j < i ensures Count(w, keys[j]) < Count(w, keys[i]) {
          assert keys[j] == init[j];
        }
      }
    }
  }

  /** The plurality move occurs in the window and no move occurs more often. */
  lemma PluralityIsMaximal(w: seq<Move>)
    requires |w| > 0
    ensures Plurality(w) in w
    ensures forall m :: Count(w, m) <= Count(w, Plurality(w))
  {
    DistinctNonEmpty(w);
    ArgMaxFirstIsFirstMaximum(Distinct(w), w);
    DistinctMembers(w);
    forall m ensures Count(w, m) <= Count(w, Plurality(w)) {
      CountPositive(w, m);
    }
  }

  /**
   * A move is locked exactly when the window is full and some move reaches
   * the consensus count; the locked move is then a most frequent one.
   */
  lemma LockDecisionCorrect(w: seq<Move>, window: nat, consensus: int)
    requires window >= 1
    ensures LockDecision(w, window, consensus).Some? <==>
            |w| >= window && exists m :: Count(w, m) >= consensus
    ensures LockDecision(w, window, consensus).Some? ==>
            var m := LockDecision(w, window, consensus).value;
            m in w && Count(w, m) >= consensus &&
            forall x :: Count(w, x) <= Count(w, m)
  {
    if |w| >= window {
      PluralityIsMaximal(w);
      var best := Plurality(w);
      if Count(w, best) < consensus {
        forall m ensures Count(w, m) < consensus {
          assert Count(w, m) <= Count(w, best);
        }
      }
    }
  }

  /** A consensus above half the window can be reached by one move only. */
  lemma MajorityLockIsUnique(w: seq<Move>, window: nat, consensus: int, m: Move)
    requires window >= 1 && 2 * consensus > |w|
    requires |w| >= window && Count(w, m) >= consensus
    ensures LockDecision(w, window, consensus) == Some(m)
  {
    LockDecisionCorrect(w, window, consensus);
    var r := LockDecision(w, window, consensus).value;
    if r != m {
      CountTwo(w, r, m);
    }
  }

  lemma {:induction false} CountTwo(w: seq<Move>, a: Move, b: Move)
    requires a != b
    ensures Count(w, a) + Count(w, b) <= |w|
  {
    if |w| > 0 {
      CountTwo(w[..|w| - 1], a, b);
    }
  }

  // ---------------------------------------------------------------------
  // One call of `update` as a function of the state

  /** The vertical velocity since the last sample, with the time step floored at MinDt. */
  function Velocity(s: SyncState, y: real, t: real): real
    requires s.lastT.Some? && s.lastWristY.Some?
  {
    var dt := Max(t - s.lastT.value, MinDt);
    (y - s.lastWristY.value) / dt
  }

  /** The pivot the amplitude is measured from: the stored one, else the previous wrist y. */
  function Pivot0(s: SyncState): real
    requires s.pivotY.Some? || s.lastWristY.Some?
  {
    if s.pivotY.Some? then s.pivotY.value else s.lastWristY.value
  }

  /** A non-zero direction that differs from a non-zero previous direction. */
  predicate Reversal(lastDir: int, dir: int)
  {
    lastDir != 0 && dir != 0 && dir != lastDir
  }

  /** WAITING becomes SHAKING on the first sample that has a predecessor. */
  function BeginShake(s: SyncState, y: real, t: real): SyncState
  {
    if s.phase == Waiting then
      s.(shakeStart := Some(t), phase := Shaking, extremaY := Some(y), lastDir := 0)
    else s
  }

  /** The running extremum of the wrist y: raised while y grows or stays, lowered while y falls or stays. */
  function Extremum(e: Option<real>, y: real, dir: int): real
  {
    if e.None? then y
    else
      var e1 := if dir >= 0 then Max(e.value, y) else e.value;
      if dir <= 0 then Min(e1, y) else e1
  }

  /** A reversal whose distance from the pivot reaches the amplitude counts a half-cycle. */
  function CountHalfCycle(cfg: SyncConfig, s: SyncState, y: real, dir: int): SyncState
    requires s.lastWristY.Some?
  {
    if Reversal(s.lastDir, dir) then
      var pivot := Pivot0(s);
      if Abs(y - pivot) >= cfg.minAmplitude then s.(halfCycles := s.halfCycles + 1, pivotY := Some(y))
      else s.(pivotY := Some(pivot))
    else s
  }

  /** With enough half-cycles, slow motion starts the stillness timer and, once it has run, LOCKING. */
  function StillTimer(cfg: SyncConfig, s: SyncState, v: real, t: real): SyncState
  {
    if s.halfCycles >= cfg.minHalfCycles && Abs(v) < cfg.velStillThreshold then
      if s.stillStart.None? then s.(stillStart := Some(t))
      else if t - s.stillStart.value >= cfg.stillTime then s.(phase := Locking)
      else s
    else s
  }

  /** The SHAKING branch: extremum, half-cycle counting, and the stillness timer. */
  function TrackShake(cfg: SyncConfig, s: SyncState, y: real, v: real, t: real): SyncState
    requires s.lastWristY.Some?
  {
    var dir := Sign(v);
    var s1 := CountHalfCycle(cfg, s.(extremaY := Some(Extremum(s.extremaY, y, dir))), y, dir);
    StillTimer(cfg, s1.(lastDir := if dir != 0 then dir else s1.lastDir), v, t)
  }

  /** The LOCKING branch: vote, try to lock, or fall back to SHAKING on fast motion. */
  function LockStep(cfg: SyncConfig, s: SyncState, read: Option<Move>, v: real): (Option<Move>, SyncState)
    requires 1 <= cfg.moveWindow && |s.moves| <= cfg.moveWindow
  {
    var w := if read.Some? then PushBounded(s.moves, read.value, cfg.moveWindow) else s.moves;
    var locked := LockDecision(w, cfg.moveWindow, cfg.moveConsensus);
    if locked.Some? then (locked, InitialSync())
    else if Abs(v) >= cfg.velStillThreshold * LockExitFactor then
      (None, s.(phase := Shaking, stillStart := None, moves := []))
    else (None, s.(moves := w))
  }

  /** Records the sample as the previous one. */
  function Stamp(s: SyncState, y: real, t: real): SyncState
  {
    s.(lastT := Some(t), lastWristY := Some(y))
  }

  /** `update(side, landmarks, t)`: the returned move and the new state. */
  function SyncStep(cfg: SyncConfig, s: SyncState, cls: Classifier, side: Side, lms: Landmarks, t: real)
    : (r: (Option<Move>, SyncState))
    requires cfg.moveWindow >= 1 && SyncInv(cfg, s)
    ensures |lms| == 0 ==> r == (None, s)
    ensures r.0.Some? ==> r.1 == InitialSync()
    ensures |lms| > 0 ==> r.1 == InitialSync() || r.1.lastT == Some(t)
  {
    if |lms| == 0 then (None, s)
    else
      var y := lms[Wrist].y;
      if s.lastT.None? then (None, Stamp(s, y, t))
      else MovingStep(cfg, s, cls.handMove(side, lms), y, Velocity(s, y, t), t)
  }

  /**
   * A sample with a predecessor, at wrist y `y` and velocity `v`, with
   * this frame's classifier reading `read`.
   */
  function MovingStep(cfg: SyncConfig, s: SyncState, read: Option<Move>, y: real, v: real, t: real)
    : (r: (Option<Move>, SyncState))
    requires cfg.moveWindow >= 1 && SyncInv(cfg, s) && s.lastT.Some?
    ensures r.0.Some? ==> r.1 == InitialSync()
    ensures r.1 == InitialSync() || r.1.lastT == Some(t)
  {
    var s1 := BeginShake(s, y, t);
    if s1.phase == Shaking && s1.shakeStart.Some? && t - s1.shakeStart.value > cfg.maxShakeTime then
      (None, InitialSync())
    else
      Settle(cfg, Shake(cfg, s1, y, v, t), read, y, v, t)
  }

  /** The SHAKING block, run only in SHAKING; it never touches the window. */
  function Shake(cfg: SyncConfig, s: SyncState, y: real, v: real, t: real): (r: SyncState)
    requires s.lastWristY.Some?
    ensures r.moves == s.moves
  {
    if s.phase == Shaking then TrackShake(cfg, s, y, v, t) else s
  }

  /** The LOCKING block, run only in LOCKING, then the sample is recorded unless a move was locked. */
  function Settle(cfg: SyncConfig, s: SyncState, read: Option<Move>, y: real, v: real, t: real)
    : (r: (Option<Move>, SyncState))
    requires 1 <= cfg.moveWindow && |s.moves| <= cfg.moveWindow
    ensures r.0.Some? ==> s.phase == Locking && r.1 == InitialSync()
    ensures r.0.None? ==> r.1.lastT == Some(t) && r.1.lastWristY == Some(y)
  {
    if s.phase != Locking then (None, Stamp(s, y, t))
    else
      var r := LockStep(cfg, s, read, v);
      if r.0.Some? then r else (None, Stamp(r.1, y, t))
  }

  /** `status()`: shake progress is the half-cycle count over the target, capped at 1. */
  function StatusOf(cfg: SyncConfig, s: SyncState): (st: SyncStatus)
    ensures st.phase == s.phase && st.cycles == s.halfCycles
    ensures 0.0 <= st.progress <= 1.0
    ensures st.progress == 1.0 <==> s.halfCycles >= cfg.minHalfCycles && s.halfCycles >= 1
    ensures var target := if cfg.minHalfCycles > 1 then cfg.minHalfCycles else 1;
            st.progress == if s.halfCycles >= target then 1.0 else (s.halfCycles as real) / (target as real)
  {
    var target := if cfg.minHalfCycles > 1 then cfg.minHalfCycles else 1;
    var ratio := (s.halfCycles as real) / (target as real);
    SyncStatus(s.phase, s.halfCycles, if ratio <= 1.0 then ratio else 1.0)
  }

  // ---------------------------------------------------------------------
  // The synchronizer object

  /**
   * The frequency table of `_try_lock`: every move of `w` with its count,
   * `order` being the table's key order (first appearance).
   */
  method Tally(w: seq<Move>) returns (freq: map<Move, nat>, order: seq<Move>)
    ensures order == Distinct(w)
    ensures forall m :: m in freq <==> m in order
    ensures forall m :: m in freq ==> freq[m] == Count(w, m)
  {
    freq := map[];
    order := [];
    var i := 0;
    while i < |w|
      invariant 0 <= i <= |w|
      invariant order == Distinct(w[..i])
      invariant forall m :: m in freq <==> m in order
      invariant forall m :: m in freq ==> freq[m] == Count(w[..i], m)
      invariant forall m :: m !in freq ==> Count(w[..i], m) == 0
    {
      var m := w[i];
      PrefixExtend(w, i);
      var c := if m in freq then freq[m] else 0;
      freq := freq[m := c + 1];
      if m !in order {
        order := order + [m];
      }
      i := i + 1;
    }
    assert w[..i] == w;
  }

  /** `max(freq.items(), key=...)`: scans the keys in order, keeping the first largest count. */
  method FirstMaximum(order: seq<Move>, freq: map<Move, nat>, w: seq<Move>) returns (best: Move)
    requires |order| > 0
    requires forall m :: m in order ==> m in freq && freq[m] == Count(w, m)
    ensures best == ArgMaxFirst(order, w)
    ensures best in freq
  {
    best := order[0];
    var bestCount := freq[best];
    var j := 1;
    while j < |order|
      invariant 1 <= j <= |order|
      invariant best == ArgMaxFirst(order[..j], w)
      invariant best in order && bestCount == freq[best]
    {
      ArgMaxExtend(order, j, w);
      var k := order[j];
      if freq[k] > bestCount {
        best := k;
        bestCount := freq[k];
      }
      j := j + 1;
    }
    assert order[..j] == order;
  }

  class RoundSynchronizer {
    const classifier: Classifier
    const minHalfCycles: int
    const minAmplitude: real
    const velStillThreshold: real
    const stillTime: real
    const moveWindow: nat
    const moveConsensus: int
    const maxShakeTime: real

    var phase: SyncPhase
    var halfCycles: nat
    var shakeStartT: Option<real>
    var stillStartT: Option<real>
    var lastT: Option<real>
    var lastWristY: Option<real>
    var lastDir: int
    var pivotY: Option<real>
    var extremaY: Option<real>
    /** The `_moves` deque, oldest reading first. */
    var moves: seq<Move>

    function Config(): SyncConfig
    {
      SyncConfig(minHalfCycles, minAmplitude, velStillThreshold, stillTime,
                 moveWindow, moveConsensus, maxShakeTime)
    }

    function State(): SyncState
      reads this
    {
      SyncState(phase, halfCycles, shakeStartT, stillStartT, lastT, lastWristY,
                lastDir, pivotY, extremaY, moves)
    }

    ghost predicate Valid()
      reads this
    {
      moveWindow >= 1 && SyncInv(Config(), State())
    }

    constructor(
      classifier: Classifier,
      minHalfCycles: int := 4,
      minAmplitude: real := 0.035,
      velStillThreshold: real := 0.30,
      stillTime: real := 0.18,
      moveWindow: nat := 7,
      moveConsensus: int := 5,
      maxShakeTime: real := 2.4)
      requires moveWindow >= 1
      ensures Valid()
      ensures this.classifier == classifier
      ensures Config() == SyncConfig(minHalfCycles, minAmplitude, velStillThreshold, stillTime,
                                     moveWindow, moveConsensus, maxShakeTime)
      ensures State() == InitialSync()
    {
      this.classifier := classifier;
      this.minHalfCycles := minHalfCycles;
      this.minAmplitude := minAmplitude;
      this.velStillThreshold := velStillThreshold;
      this.stillTime := stillTime;
      this.moveWindow := moveWindow;
      this.moveConsensus := moveConsensus;
      this.maxShakeTime := maxShakeTime;
      new;
      ResetInternal();
    }

    /** `_reset_internal`: back to WAITING with every working value cleared. */
    method ResetInternal()
      modifies this
      ensures State() == InitialSync()
    {
      phase := Waiting;
      halfCycles := 0;
      shakeStartT := None;
      stillStartT := None;
      lastT := None;
      lastWristY := None;
      lastDir := 0;
      pivotY := None;
      extremaY := None;
      moves := [];
    }

    method Reset()
      requires moveWindow >= 1
      modifies this
      ensures Valid() && State() == InitialSync()
    {
      ResetInternal();
    }

    function Status(): (st: SyncStatus)
      reads this
      ensures st == StatusOf(Config(), State())
    {
      StatusOf(Config(), State())
    }

    /** `_try_lock`: counts the window into a frequency table, then takes its first maximum. */
    method TryLock() returns (locked: Option<Move>)
      requires moveWindow >= 1
      ensures locked == LockDecision(moves, moveWindow, moveConsensus)
    {
      if |moves| < moveWindow {
        return None;
      }
      var freq, order := Tally(moves);
      DistinctNonEmpty(moves);
      var best := FirstMaximum(order, freq, moves);
      if freq[best] >= moveConsensus {
        return Some(best);
      }
      return None;
    }

    /** `update(side, landmarks, t)`: one frame while the round is active. */
    method Update(side: Side, lms: Landmarks, t: real) returns (move: Option<Move>, status: SyncStatus)
      requires Valid()
      modifies this
      ensures Valid()
      ensures (move, State()) == SyncStep(Config(), old(State()), classifier, side, lms, t)
      ensures status == StatusOf(Config(), State())
    {
      StepPreservesInvariant(Config(), State(), classifier, side, lms, t);
      move := Sample(side, lms, t);
      status := Status();
    }

    /** The body of `update` up to the status it reports. */
    method Sample(side: Side, lms: Landmarks, t: real) returns (move: Option<Move>)
      requires Valid()
      modifies this
      ensures (move, State()) == SyncStep(Config(), old(State()), classifier, side, lms, t)
    {
      if |lms| == 0 {
        return None;
      }
      var wristY := lms[Wrist].y;
      if lastT.None? {
        lastT := Some(t);
        lastWristY := Some(wristY);
        return None;
      }
      ghost var s0 := State();
      var dt := Max(t - lastT.value, MinDt);
      var dy := wristY - lastWristY.value;
      var velocity := dy / dt;
      assert velocity == Velocity(s0, wristY, t);
      var read := classifier.handMove(side, lms);
      assert SyncStep(Config(), s0, classifier, side, lms, t) == MovingStep(Config(), s0, read, wristY, velocity, t);
      move := Advance(read, wristY, velocity, t);
    }

    /** The part of `update` after the velocity is known. */
    method Advance(read: Option<Move>, wristY: real, velocity: real, t: real) returns (move: Option<Move>)
      requires Valid() && lastT.Some?
      modifies this
      ensures (move, State()) == MovingStep(Config(), old(State()), read, wristY, velocity, t)
    {
      ghost var s0 := State();
      StartShaking(wristY, t);
      ghost var s1 := State();
      BeginShakeKeepsInvariant(Config(), s0, wristY, t);
      if phase == Shaking && shakeStartT.Some? {
        if t - shakeStartT.value > maxShakeTime {
          ResetInternal();
          return None;
        }
      }
      ShakeFrame(wristY, velocity, t);
      ShakeKeepsInvariant(Config(), s1, wristY, velocity, t);
      move := SettleFrame(read, wristY, velocity, t);
    }

    /** Runs the SHAKING block when shaking. */
    method ShakeFrame(wristY: real, velocity: real, t: real)
      requires lastWristY.Some?
      modifies this
      ensures State() == Shake(Config(), old(State()), wristY, velocity, t)
    {
      if phase == Shaking {
        TrackMotion(wristY, velocity, t);
      }
    }

    /** Runs the LOCKING block when locking; without a lock the sample is recorded. */
    method SettleFrame(read: Option<Move>, wristY: real, velocity: real, t: real) returns (move: Option<Move>)
      requires moveWindow >= 1 && |moves| <= moveWindow
      modifies this
      ensures (move, State()) == Settle(Config(), old(State()), read, wristY, velocity, t)
    {
      if phase == Locking {
        var locked := Vote(read, velocity);
        if locked.Some? {
          return locked;
        }
      }
      lastT := Some(t);
      lastWristY := Some(wristY);
      return None;
    }

    /** WAITING turns into SHAKING on the first sample with a predecessor. */
    method StartShaking(wristY: real, t: real)
      modifies this
      ensures State() == BeginShake(old(State()), wristY, t)
    {
      if phase == Waiting {
        shakeStartT := Some(t);
        phase := Shaking;
        extremaY := Some(wristY);
        lastDir := 0;
      }
    }

    /** The SHAKING block of `update`: extremum, half-cycles and the stillness timer. */
    method TrackMotion(wristY: real, velocity: real, t: real)
      requires phase == Shaking && lastWristY.Some?
      modifies this
      ensures State() == TrackShake(Config(), old(State()), wristY, velocity, t)
    {
      var curDir := Sign(velocity);
      TrackExtremum(wristY, curDir);
      CountReversal(wristY, curDir);
      if curDir != 0 {
        lastDir := curDir;
      }
      CheckStillness(velocity, t);
    }

    method TrackExtremum(wristY: real, curDir: int)
      modifies this
      ensures State() == old(State()).(extremaY := Some(Extremum(old(extremaY), wristY, curDir)))
    {
      if extremaY.None? {
        extremaY := Some(wristY);
      } else {
        if curDir >= 0 {
          extremaY := Some(Max(extremaY.value, wristY));
        }
        if curDir <= 0 {
          extremaY := Some(Min(extremaY.value, wristY));
        }
      }
    }

    method CountReversal(wristY: real, curDir: int)
      requires lastWristY.Some?
      modifies this
      ensures State() == CountHalfCycle(Config(), old(State()), wristY, curDir)
    {
      if lastDir != 0 && curDir != 0 && curDir != lastDir {
        if pivotY.None? {
          pivotY := lastWristY;
        }
        var amp := Abs(wristY - pivotY.value);
        if amp >= minAmplitude {
          halfCycles := halfCycles + 1;
          pivotY := Some(wristY);
        }
      }
    }

    method CheckStillness(velocity: real, t: real)
      modifies this
      ensures State() == StillTimer(Config(), old(State()), velocity, t)
    {
      if halfCycles >= minHalfCycles {
        if Abs(velocity) < velStillThreshold {
          if stillStartT.None? {
            stillStartT := Some(t);
          } else if t - stillStartT.value >= stillTime {
            phase := Locking;
          }
        }
      }
    }

    /** The LOCKING block of `update`: vote, try to lock, or drop back to SHAKING. */
    method Vote(read: Option<Move>, velocity: real) returns (locked: Option<Move>)
      requires moveWindow >= 1 && |moves| <= moveWindow
      modifies this
      ensures (locked, State()) == LockStep(Config(), old(State()), read, velocity)
    {
      if read.Some? {
        moves := PushBounded(moves, read.value, moveWindow);
      }
      locked := TryLock();
      if locked.Some? {
        ResetInternal();
        return;
      }
      if Abs(velocity) >= velStillThreshold * LockExitFactor {
        phase := Shaking;
        stillStartT := None;
        moves := [];
      }
    }
  }

  // ---------------------------------------------------------------------
  // Properties of `update`

  lemma BeginShakeKeepsInvariant(cfg: SyncConfig, s: SyncState, y: real, t: real)
    requires SyncInv(cfg, s) && s.lastT.Some?
    ensures SyncInv(cfg, BeginShake(s, y, t)) && BeginShake(s, y, t).phase != Waiting
  {
  }

  lemma TrackShakeKeepsInvariant(cfg: SyncConfig, s: SyncState, y: real, v: real, t: real)
    requires SyncInv(cfg, s) && s.phase == Shaking
    ensures SyncInv(cfg, TrackShake(cfg, s, y, v, t))
    ensures TrackShake(cfg, s, y, v, t).phase != Waiting
  {
  }

  lemma LockStepKeepsInvariant(cfg: SyncConfig, s: SyncState, read: Option<Move>, v: real)
    requires cfg.moveWindow >= 1 && SyncInv(cfg, s) && s.phase == Locking
    ensures SyncInv(cfg, LockStep(cfg, s, read, v).1)
    ensures LockStep(cfg, s, read, v).0.None? ==> LockStep(cfg, s, read, v).1.phase != Waiting
  {
  }

  lemma ShakeKeepsInvariant(cfg: SyncConfig, s: SyncState, y: real, v: real, t: real)
    requires SyncInv(cfg, s) && s.lastWristY.Some? && s.phase != Waiting
    ensures SyncInv(cfg, Shake(cfg, s, y, v, t)) && Shake(cfg, s, y, v, t).phase != Waiting
  {
    if s.phase == Shaking {
      TrackShakeKeepsInvariant(cfg, s, y, v, t);
    }
  }

  lemma SettleKeepsInvariant(cfg: SyncConfig, s: SyncState, read: Option<Move>, y: real, v: real, t: real)
    requires cfg.moveWindow >= 1 && SyncInv(cfg, s) && s.phase != Waiting
    ensures SyncInv(cfg, Settle(cfg, s, read, y, v, t).1)
  {
    if s.phase == Locking {
      LockStepKeepsInvariant(cfg, s, read, v);
    }
  }

  /** Every call keeps the state invariant. */
  lemma StepPreservesInvariant(cfg: SyncConfig, s: SyncState, cls: Classifier, side: Side, lms: Landmarks, t: real)
    requires cfg.moveWindow >= 1 && SyncInv(cfg, s)
    ensures SyncInv(cfg, SyncStep(cfg, s, cls, side, lms, t).1)
  {
    if |lms| > 0 && s.lastT.Some? {
      var y := lms[Wrist].y;
      var v := Velocity(s, y, t);
      var s1 := BeginShake(s, y, t);
      BeginShakeKeepsInvariant(cfg, s, y, t);
      if !(s1.phase == Shaking && s1.shakeStart.Some? && t - s1.shakeStart.value > cfg.maxShakeTime) {
        ShakeKeepsInvariant(cfg, s1, y, v, t);
        SettleKeepsInvariant(cfg, Shake(cfg, s1, y, v, t), cls.handMove(side, lms), y, v, t);
      }
    }
  }
}

module RoundSyncProperties {
  import opened Wrappers
  import opened Domain
  import opened Landmarks
  import opened RoundSync

  /** What one pass through the SHAKING branch can change. */
  lemma TrackShakeFacts(cfg: SyncConfig, s: SyncState, y: real, v: real, t: real)
    requires s.phase == Shaking && s.lastWristY.Some?
    ensures var r := TrackShake(cfg, s, y, v, t);
            && r.moves == s.moves && r.lastT == s.lastT && r.lastWristY == s.lastWristY
            && r.shakeStart == s.shakeStart
            && (r.phase == Shaking || r.phase == Locking)
            && (r.halfCycles == s.halfCycles ||
                (r.halfCycles == s.halfCycles + 1 &&
                 Reversal(s.lastDir, Sign(v)) && Abs(y - Pivot0(s)) >= cfg.minAmplitude))
            && (r.phase == Locking ==>
                  r.halfCycles >= cfg.minHalfCycles && s.stillStart.Some? &&
                  t - s.stillStart.value >= cfg.stillTime && Abs(v) < cfg.velStillThreshold)
            && (s.stillStart.Some? ==> r.stillStart == s.stillStart)
  {
  }

  /** What one pass through the LOCKING branch can change. */
  lemma LockStepFacts(cfg: SyncConfig, s: SyncState, read: Option<Move>, v: real)
    requires 1 <= cfg.moveWindow && |s.moves| <= cfg.moveWindow && s.phase == Locking
    ensures var w := if read.Some? then PushBounded(s.moves, read.value, cfg.moveWindow) else s.moves;
            var r := LockStep(cfg, s, read, v);
            && r.0 == LockDecision(w, cfg.moveWindow, cfg.moveConsensus)
            && (r.0.Some? ==> r.1 == InitialSync())
            && (r.0.None? ==>
                  r.1.halfCycles == s.halfCycles &&
                  ((r.1 == s.(moves := w)) ||
                   (Abs(v) >= cfg.velStillThreshold * LockExitFactor &&
                    r.1 == s.(phase := Shaking, stillStart := None, moves := []))))
  {
  }

  /** The reset state is a valid WAITING state with nothing recorded. */
  lemma ResetStateIsWaiting(cfg: SyncConfig)
    ensures SyncInv(cfg, InitialSync())
    ensures InitialSync().phase == Waiting && InitialSync().halfCycles == 0
    ensures InitialSync().lastT.None? && InitialSync().moves == []
  {
  }

  /** A frame without landmarks returns nothing and changes nothing. */
  lemma NoLandmarksChangesNothing(cfg: SyncConfig, s: SyncState, cls: Classifier, side: Side, t: real)
    requires cfg.moveWindow >= 1 && SyncInv(cfg, s)
    ensures SyncStep(cfg, s, cls, side, [], t) == (None, s)
  {
  }

  /** The first sample after a reset only records its time and wrist y. */
  lemma FirstSampleOnlyRecords(cfg: SyncConfig, s: SyncState, cls: Classifier, side: Side, lms: Landmarks, t: real)
    requires cfg.moveWindow >= 1 && SyncInv(cfg, s)
    requires s.lastT.None? && |lms| > 0
    ensures SyncStep(cfg, s, cls, side, lms, t) ==
            (None, s.(lastT := Some(t), lastWristY := Some(lms[Wrist].y)))
    ensures SyncStep(cfg, s, cls, side, lms, t).1.phase == Waiting
  {
  }

  /** After a lock the synchronizer is reset, so the very next call returns nothing. */
  lemma NothingRightAfterLock(cfg: SyncConfig, s: SyncState, cls: Classifier, side: Side, lms: Landmarks, t: real,
                              lms2: Landmarks, t2: real)
    requires cfg.moveWindow >= 1 && SyncInv(cfg, s)
    requires SyncStep(cfg, s, cls, side, lms, t).0.Some?
    ensures SyncStep(cfg, SyncStep(cfg, s, cls, side, lms, t).1, cls, side, lms2, t2).0 == None
  {
    LockedOnlyByConsensus(cfg, s, cls, side, lms, t);
  }

  /**
   * A move is returned only from LOCKING (entered earlier or on this very
   * frame), only when the window after this frame's vote is full and the move
   * reaches the consensus as a most frequent entry; the synchronizer is then
   * fully reset.
   */
  lemma LockedOnlyByConsensus(cfg: SyncConfig, s: SyncState, cls: Classifier, side: Side, lms: Landmarks, t: real)
    requires cfg.moveWindow >= 1 && SyncInv(cfg, s)
    requires SyncStep(cfg, s, cls, side, lms, t).0.Some?
    ensures |lms| > 0 && s.lastT.Some?
    ensures s.phase == Locking || (s.phase == Shaking && s.stillStart.Some? && t - s.stillStart.value >= cfg.stillTime)
    ensures var m := SyncStep(cfg, s, cls, side, lms, t).0.value;
            var read := cls.handMove(side, lms);
            var w := if read.Some? then PushBounded(s.moves, read.value, cfg.moveWindow) else s.moves;
            |w| == cfg.moveWindow && Count(w, m) >= cfg.moveConsensus &&
            forall x :: Count(w, x) <= Count(w, m)
    ensures SyncStep(cfg, s, cls, side, lms, t).1 == InitialSync()
  {
    var y := lms[Wrist].y;
    var read := cls.handMove(side, lms);
    assert SyncStep(cfg, s, cls, side, lms, t) == MovingStep(cfg, s, read, y, Velocity(s, y, t), t);
    MovingLock(cfg, s, read, y, Velocity(s, y, t), t);
  }


  /** The window changes only by this frame's reading being pushed, or by being emptied. */
  lemma WindowChangesOnlyByReading(cfg: SyncConfig, s: SyncState, cls: Classifier, side: Side, lms: Landmarks, t: real)
    requires cfg.moveWindow >= 1 && SyncInv(cfg, s)
    ensures var w := SyncStep(cfg, s, cls, side, lms, t).1.moves;
            |w| <= cfg.moveWindow &&
            (w == [] || w == s.moves ||
             (|lms| > 0 && cls.handMove(side, lms).Some? &&
              w == PushBounded(s.moves, cls.handMove(side, lms).value, cfg.moveWindow)))
  {
    if |lms| > 0 && s.lastT.Some? {
      var y := lms[Wrist].y;
      MovingWindow(cfg, s, cls.handMove(side, lms), y, Velocity(s, y, t), t);
    }
  }

  lemma MovingWindow(cfg: SyncConfig, s: SyncState, read: Option<Move>, y: real, v: real, t: real)
    requires cfg.moveWindow >= 1 && SyncInv(cfg, s) && s.lastT.Some?
    ensures var w := MovingStep(cfg, s, read, y, v, t).1.moves;
            |w| <= cfg.moveWindow &&
            (w == [] || w == s.moves || (read.Some? && w == PushBounded(s.moves, read.value, cfg.moveWindow)))
  {
    var s1 := BeginShake(s, y, t);
    if !(s1.phase == Shaking && s1.shakeStart.Some? && t - s1.shakeStart.value > cfg.maxShakeTime) {
      SettleWindow(cfg, Shake(cfg, s1, y, v, t), read, y, v, t);
    }
  }

  /** The LOCKING block leaves the window empty, unchanged, or with the reading pushed. */
  lemma SettleWindow(cfg: SyncConfig, s: SyncState, read: Option<Move>, y: real, v: real, t: real)
    requires 1 <= cfg.moveWindow && |s.moves| <= cfg.moveWindow
    ensures var w := Settle(cfg, s, read, y, v, t).1.moves;
            w == [] || w == s.moves || (read.Some? && w == PushBounded(s.moves, read.value, cfg.moveWindow))
  {
  }

  /** A frame the classifier cannot read adds no vote. */
  lemma UnreadableFrameAddsNoVote(cfg: SyncConfig, s: SyncState, cls: Classifier, side: Side, lms: Landmarks, t: real)
    requires cfg.moveWindow >= 1 && SyncInv(cfg, s)
    requires |lms| > 0 && cls.handMove(side, lms).None?
    ensures SyncStep(cfg, s, cls, side, lms, t).1.moves in {[], s.moves}
  {
    WindowChangesOnlyByReading(cfg, s, cls, side, lms, t);
  }

  /** The LOCKING block locks only in LOCKING, a move that reaches the consensus as a plurality of the full window. */
  lemma SettleLock(cfg: SyncConfig, s: SyncState, read: Option<Move>, y: real, v: real, t: real)
    requires 1 <= cfg.moveWindow && |s.moves| <= cfg.moveWindow
    requires Settle(cfg, s, read, y, v, t).0.Some?
    ensures s.phase == Locking
    ensures var m := Settle(cfg, s, read, y, v, t).0.value;
            var w := if read.Some? then PushBounded(s.moves, read.value, cfg.moveWindow) else s.moves;
            |w| == cfg.moveWindow && Count(w, m) >= cfg.moveConsensus &&
            forall x :: Count(w, x) <= Count(w, m)
  {
    LockStepFacts(cfg, s, read, v);
    var w := if read.Some? then PushBounded(s.moves, read.value, cfg.moveWindow) else s.moves;
    LockDecisionCorrect(w, cfg.moveWindow, cfg.moveConsensus);
  }

  /** A frame after the first sample locks only from LOCKING, reached earlier or on this frame. */
  lemma MovingLock(cfg: SyncConfig, s: SyncState, read: Option<Move>, y: real, v: real, t: real)
    requires cfg.moveWindow >= 1 && SyncInv(cfg, s) && s.lastT.Some?
    requires MovingStep(cfg, s, read, y, v, t).0.Some?
    ensures s.phase == Locking || (s.phase == Shaking && s.stillStart.Some? && t - s.stillStart.value >= cfg.stillTime)
    ensures var m := MovingStep(cfg, s, read, y, v, t).0.value;
            var w := if read.Some? then PushBounded(s.moves, read.value, cfg.moveWindow) else s.moves;
            |w| == cfg.moveWindow && Count(w, m) >= cfg.moveConsensus &&
            forall x :: Count(w, x) <= Count(w, m)
  {
    var s1 := BeginShake(s, y, t);
    var s2 := Shake(cfg, s1, y, v, t);
    assert MovingStep(cfg, s, read, y, v, t) == Settle(cfg, s2, read, y, v, t);
    SettleLock(cfg, s2, read, y, v, t);
    if s1.phase == Shaking {
      TrackShakeFacts(cfg, s1, y, v, t);
    }
    assert s2.moves == s.moves;
  }

  /** The LOCKING block and the stamp keep the half-cycle count, unless a lock resets the state. */
  lemma SettleHalfCycles(cfg: SyncConfig, s: SyncState, read: Option<Move>, y: real, v: real, t: real)
    requires 1 <= cfg.moveWindow && |s.moves| <= cfg.moveWindow
    ensures var r := Settle(cfg, s, read, y, v, t);
            r.1 == InitialSync() || r.1.halfCycles == s.halfCycles
  {
    if s.phase == Locking {
      LockStepFacts(cfg, s, read, v);
    }
  }

  /** A frame after the first sample adds at most one half-cycle, and only on a large reversal in SHAKING. */
  lemma MovingHalfCycles(cfg: SyncConfig, s: SyncState, read: Option<Move>, y: real, v: real, t: real)
    requires cfg.moveWindow >= 1 && SyncInv(cfg, s) && s.lastT.Some?
    ensures MovingStep(cfg, s, read, y, v, t).1.halfCycles <= s.halfCycles + 1
    ensures MovingStep(cfg, s, read, y, v, t).1.halfCycles == s.halfCycles + 1 ==>
            s.phase == Shaking && Reversal(s.lastDir, Sign(v)) && Abs(y - Pivot0(s)) >= cfg.minAmplitude
  {
    var s1 := BeginShake(s, y, t);
    if s1.phase == Shaking && s1.shakeStart.Some? && t - s1.shakeStart.value > cfg.maxShakeTime {
      assert MovingStep(cfg, s, read, y, v, t).1 == InitialSync();
    } else {
      var s2 := Shake(cfg, s1, y, v, t);
      assert MovingStep(cfg, s, read, y, v, t) == Settle(cfg, s2, read, y, v, t);
      if s1.phase == Shaking {
        TrackShakeFacts(cfg, s1, y, v, t);
      }
      SettleHalfCycles(cfg, s2, read, y, v, t);
    }
  }

  /**
   * Half-cycles grow by at most one per call, and only in SHAKING, on a
   * direction reversal whose distance from the pivot reaches the amplitude.
   */
  lemma HalfCycleGrowth(cfg: SyncConfig, s: SyncState, cls: Classifier, side: Side, lms: Landmarks, t: real)
    requires cfg.moveWindow >= 1 && SyncInv(cfg, s)
    ensures SyncStep(cfg, s, cls, side, lms, t).1.halfCycles <= s.halfCycles + 1
    ensures SyncStep(cfg, s, cls, side, lms, t).1.halfCycles == s.halfCycles + 1 ==>
            |lms| > 0 && s.phase == Shaking && s.lastT.Some? &&
            var y := lms[Wrist].y;
            Reversal(s.lastDir, Sign(Velocity(s, y, t))) && Abs(y - Pivot0(s)) >= cfg.minAmplitude
  {
    if |lms| > 0 && s.lastT.Some? {
      var y := lms[Wrist].y;
      var read := cls.handMove(side, lms);
      assert SyncStep(cfg, s, cls, side, lms, t) == MovingStep(cfg, s, read, y, Velocity(s, y, t), t);
      MovingHalfCycles(cfg, s, read, y, Velocity(s, y, t), t);
    }
  }


  /** The LOCKING block and the stamp leave LOCKING's half-cycle count alone and never enter LOCKING. */
  lemma SettleStaysLocking(cfg: SyncConfig, s: SyncState, read: Option<Move>, y: real, v: real, t: real)
    requires 1 <= cfg.moveWindow && |s.moves| <= cfg.moveWindow
    ensures var r := Settle(cfg, s, read, y, v, t);
            r.1.phase == Locking ==> s.phase == Locking && r.1.halfCycles == s.halfCycles
  {
    if s.phase == Locking {
      LockStepFacts(cfg, s, read, v);
    }
  }

  /** After the first sample, LOCKING is entered only from SHAKING, with enough half-cycles and the still time. */
  lemma MovingLockingEntry(cfg: SyncConfig, s: SyncState, read: Option<Move>, y: real, v: real, t: real)
    requires cfg.moveWindow >= 1 && SyncInv(cfg, s) && s.lastT.Some?
    requires s.phase != Locking && MovingStep(cfg, s, read, y, v, t).1.phase == Locking
    ensures s.phase == Shaking
    ensures MovingStep(cfg, s, read, y, v, t).1.halfCycles >= cfg.minHalfCycles
    ensures s.stillStart.Some? && t - s.stillStart.value >= cfg.stillTime
  {
    var s1 := BeginShake(s, y, t);
    assert !(s1.phase == Shaking && s1.shakeStart.Some? && t - s1.shakeStart.value > cfg.maxShakeTime);
    var s2 := Shake(cfg, s1, y, v, t);
    assert MovingStep(cfg, s, read, y, v, t) == Settle(cfg, s2, read, y, v, t);
    SettleStaysLocking(cfg, s2, read, y, v, t);
    TrackShakeFacts(cfg, s1, y, v, t);
  }

  /** LOCKING is entered from SHAKING only, with enough half-cycles and a still timer that has run. */
  lemma LockingEntry(cfg: SyncConfig, s: SyncState, cls: Classifier, side: Side, lms: Landmarks, t: real)
    requires cfg.moveWindow >= 1 && SyncInv(cfg, s)
    requires s.phase != Locking && SyncStep(cfg, s, cls, side, lms, t).1.phase == Locking
    ensures s.phase == Shaking
    ensures SyncStep(cfg, s, cls, side, lms, t).1.halfCycles >= cfg.minHalfCycles
    ensures s.stillStart.Some? && t - s.stillStart.value >= cfg.stillTime
  {
    var y := lms[Wrist].y;
    var read := cls.handMove(side, lms);
    assert SyncStep(cfg, s, cls, side, lms, t) == MovingStep(cfg, s, read, y, Velocity(s, y, t), t);
    MovingLockingEntry(cfg, s, read, y, Velocity(s, y, t), t);
  }

  /** Motion while SHAKING does not clear a running still timer. */
  lemma StillTimerSurvivesMotion(cfg: SyncConfig, s: SyncState, cls: Classifier, side: Side, lms: Landmarks, t: real)
    requires cfg.moveWindow >= 1 && SyncInv(cfg, s)
    requires s.phase == Shaking && s.stillStart.Some?
    requires SyncStep(cfg, s, cls, side, lms, t).1.phase != Waiting
    ensures SyncStep(cfg, s, cls, side, lms, t).1.stillStart == s.stillStart
  {
    if |lms| > 0 {
      var y := lms[Wrist].y;
      var v := Velocity(s, y, t);
      var r := MovingStep(cfg, s, cls.handMove(side, lms), y, v, t);
      if r.1.phase != Waiting {
        TrackShakeFacts(cfg, s, y, v, t);
        var s2 := TrackShake(cfg, s, y, v, t);
        if s2.phase == Locking {
          LockStepFacts(cfg, s2, cls.handMove(side, lms), v);
        }
      }
    }
  }

  /** Shaking for longer than the maximum abandons the gesture. */
  lemma ShakeTimeout(cfg: SyncConfig, s: SyncState, cls: Classifier, side: Side, lms: Landmarks, t: real)
    requires cfg.moveWindow >= 1 && SyncInv(cfg, s)
    requires s.phase == Shaking && |lms| > 0 && t - s.shakeStart.value > cfg.maxShakeTime
    ensures SyncStep(cfg, s, cls, side, lms, t) == (None, InitialSync())
  {
  }

  /** Fast motion in LOCKING without a lock returns to SHAKING, dropping the votes and the still timer. */
  lemma MotionAbortsLocking(cfg: SyncConfig, s: SyncState, cls: Classifier, side: Side, lms: Landmarks, t: real)
    requires cfg.moveWindow >= 1 && SyncInv(cfg, s)
    requires s.phase == Locking && |lms| > 0
    requires SyncStep(cfg, s, cls, side, lms, t).0.None?
    requires Abs(Velocity(s, lms[Wrist].y, t)) >= cfg.velStillThreshold * LockExitFactor
    ensures var s' := SyncStep(cfg, s, cls, side, lms, t).1;
            s'.phase == Shaking && s'.moves == [] && s'.stillStart.None? &&
            s'.halfCycles == s.halfCycles && s'.lastT == Some(t)
  {
  }
}
