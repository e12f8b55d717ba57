/**
 * The simulated progress hook: while a task is active an interval eases the
 * progress towards a hold percentage; when the task ends, animation frames
 * ease it to 100 and a timeout sets it back to 0. Timers and frames are
 * events: each method below is the state update one of them triggers.
 */
module SimulatedProgress {
  import opened Wrappers
  import opened JsMath

  const DefaultHoldPercent: real := 90.0
  const DefaultTickMs: nat := 120

  /** The length of the finishing animation, in milliseconds. */
  const FinishDuration: real := 350.0

  /** The delay before the finished progress is set back to 0, in milliseconds. */
  const ResetDelay: nat := 600

  /**
   * One interval tick: nothing happens at or above the hold percentage;
   * below it the progress grows by at least half a percent (or up to the
   * hold) and never passes the hold.
   */
  function Tick(p: real, hold: real): (q: real)
    ensures p >= hold ==> q == p
    ensures p < hold ==> p < q <= hold && q >= p + Min(0.5, hold - p)
  {
    if p >= hold then p
    else
      var remaining := hold - p;
      var delta := Max(0.5, remaining * 0.08);
      Min(hold, p + delta)
  }

  /** `n` interval ticks in a row. */
  function Ticks(p: real, hold: real, n: nat): real
    decreases n
  {
    if n == 0 then p else Ticks(Tick(p, hold), hold, n - 1)
  }

  /** Ticks starting at or below the hold never decrease the progress and never pass the hold. */
  lemma {:induction false} TicksStayBelowHold(p: real, hold: real, n: nat)
    requires p <= hold
    ensures p <= Ticks(p, hold, n) <= hold
    decreases n
  {
    if n > 0 {
      TicksStayBelowHold(Tick(p, hold), hold, n - 1);
    }
  }

  /** From `p` the hold is reached after at most 2 * (hold - p) ticks, and kept from then on. */
  lemma {:induction false} TicksReachHold(p: real, hold: real, n: nat)
    requires p <= hold && n as real >= 2.0 * (hold - p)
    ensures Ticks(p, hold, n) == hold
    decreases n
  {
    if n > 0 {
      TicksReachHold(Tick(p, hold), hold, n - 1);
    }
  }

  /**
   * The reset on activation: a progress strictly between 0 and the hold is
   * resumed, any other restarts at 0.
   */
  function Resume(p: real, hold: real): (q: real)
    ensures 0.0 < p < hold ==> q == p
    ensures !(0.0 < p < hold) ==> q == 0.0
    ensures 0.0 <= q <= Max(hold, 0.0)
  {
    if p > 0.0 && p < hold then p else 0.0
  }

  /** Resuming twice is resuming once. */
  lemma ResumeIdempotent(p: real, hold: real)
    ensures Resume(Resume(p, hold), hold) == Resume(p, hold)
  {
  }

  /** The cubic ease-out `1 - (1 - t)^3`. */
  function Eased(t: real): (e: real)
    ensures 0.0 <= t <= 1.0 ==> 0.0 <= e <= 1.0
    ensures t == 1.0 ==> e == 1.0
  {
    var u := 1.0 - t;
    CubeInUnit(u);
    1.0 - u * u * u
  }

  lemma CubeInUnit(u: real)
    ensures 0.0 <= u <= 1.0 ==> 0.0 <= u * u * u <= 1.0
  {
    if 0.0 <= u <= 1.0 {
      MulMonotonic(0.0, u, u);
      assert 0.0 <= u * u;
      MulMonotonic(u, 1.0, u);
      MulMonotonic(0.0, u * u, u);
      MulMonotonic(u * u, 1.0, u);
      assert u * u * u <= u * u <= u;
    }
  }

  /** The ease-out grows with `t` on [0, 1]. */
  lemma EasedMonotonic(t1: real, t2: real)
    requires 0.0 <= t1 <= t2 <= 1.0
    ensures Eased(t1) <= Eased(t2)
  {
    var u1, u2 := 1.0 - t1, 1.0 - t2;
    MulMonotonic(u2, u1, u2);
    MulMonotonic(u2, u1, u1);
    assert u2 * u2 <= u1 * u1;
    MulMonotonic(0.0, u2, u2);
    MulMonotonic(u2 * u2, u1 * u1, u2);
    MulMonotonic(u2, u1, u1 * u1);
    assert u2 * (u1 * u1) == u1 * u1 * u2;
    assert u2 * u2 * u2 <= u1 * u1 * u1;
  }

  /** The fraction of the animation elapsed, capped at 1. */
  function Fraction(elapsed: real): (t: real)
    ensures elapsed >= 0.0 ==> 0.0 <= t <= 1.0
    ensures t == 1.0 <==> elapsed >= FinishDuration
  {
    Min(1.0, elapsed / FinishDuration)
  }

  /**
   * The value a finishing frame shows `elapsed` milliseconds after the task
   * ended at progress `from`: from the rounded start to 100, reaching 100
   * when the animation's time is up.
   */
  function FinishValue(from: real, elapsed: real): (v: int)
    ensures elapsed >= FinishDuration ==> v == 100
    ensures elapsed >= 0.0 && from <= 100.0 ==> Round(from) <= v <= 100
  {
    var t := Fraction(elapsed);
    var eased := Eased(t);
    EasedValueBounds(from, eased);
    Round(from + (100.0 - from) * eased)
  }

  lemma EasedValueBounds(from: real, eased: real)
    ensures 0.0 <= eased <= 1.0 && from <= 100.0 ==> Round(from) <= Round(from + (100.0 - from) * eased) <= 100
  {
    if 0.0 <= eased <= 1.0 && from <= 100.0 {
      MulMonotonic(0.0, eased, 100.0 - from);
      MulMonotonic(eased, 1.0, 100.0 - from);
      assert (100.0 - from) * eased <= 100.0 - from;
      RoundMonotonic(from, from + (100.0 - from) * eased);
      RoundMonotonic(from + (100.0 - from) * eased, 100.0);
      RoundOfInteger(100);
    }
  }

  /** Later frames of one animation never show less. */
  lemma FinishMonotonic(from: real, e1: real, e2: real)
    requires from <= 100.0 && 0.0 <= e1 <= e2
    ensures FinishValue(from, e1) <= FinishValue(from, e2)
  {
    var t1, t2 := Fraction(e1), Fraction(e2);
    assert e1 / FinishDuration <= e2 / FinishDuration;
    EasedMonotonic(t1, t2);
    MulMonotonic(Eased(t1), Eased(t2), 100.0 - from);
    RoundMonotonic(from + (100.0 - from) * Eased(t1), from + (100.0 - from) * Eased(t2));
  }

  /** A running finishing animation: when it started and the progress it started from. */
  datatype Animation = Animation(start: real, from: real)

  /**
   * The hook's state: the progress, whether the last effect ran for an
   * active task (and so keeps an interval), the animation loops still
   * requesting frames, and whether the reset timeout is pending.
   */
  datatype Hook = Hook(progress: real, active: bool, animations: seq<Animation>, resetPending: bool)

  const Mounted: Hook := Hook(0.0, false, [], false)

  /**
   * The effect as written, run when `isActive` changes: the previous effect's
   * cleanup clears its interval or its timeout, but never stops its
   * animation loop; activation resumes the progress, deactivation starts a
   * finishing animation below 100 and the reset timeout.
   */
  function ActiveChanged(h: Hook, hold: real, isActive: bool, now: real): (g: Hook)
    ensures g.active == isActive && g.resetPending == !isActive
    ensures isActive ==> g.progress == Resume(h.progress, hold) && g.animations == h.animations
    ensures !isActive ==> g.progress == h.progress
                          && g.animations == h.animations + (if h.progress < 100.0 then [Animation(now, h.progress)] else [])
  {
    if isActive then Hook(Resume(h.progress, hold), true, h.animations, false)
    else Hook(h.progress, false, h.animations + (if h.progress < 100.0 then [Animation(now, h.progress)] else []), true)
  }

  /**
   * The effect with a cleanup that also cancels the animation frames, as the
   * hook's own description ("animates to 100% then resets") intends: an
   * activation stops every finishing animation.
   */
  function ActiveChangedCancelling(h: Hook, hold: real, isActive: bool, now: real): Hook
  {
    var g := ActiveChanged(h, hold, isActive, now);
    if isActive then g.(animations := []) else g
  }

  /** An interval tick; there is an interval only while active. */
  function Ticked(h: Hook, hold: real): Hook
    requires h.active
  {
    h.(progress := Tick(h.progress, hold))
  }

  /** A frame of animation `k` at time `now`; the loop stops once the animation's time is up. */
  function Framed(h: Hook, k: nat, now: real): (g: Hook)
    requires k < |h.animations|
    ensures g.progress == FinishValue(h.animations[k].from, now - h.animations[k].start) as real
    ensures now - h.animations[k].start < FinishDuration ==> g.animations == h.animations
    ensures now - h.animations[k].start >= FinishDuration ==> g.animations == h.animations[..k] + h.animations[k + 1..]
    ensures g.active == h.active && g.resetPending == h.resetPending
  {
    var a := h.animations[k];
    var t := Fraction(now - a.start);
    var next := FinishValue(a.from, now - a.start);
    h.(progress := next as real,
       animations := if t < 1.0 then h.animations else h.animations[..k] + h.animations[k + 1..])
  }

  /** The reset timeout firing. */
  function ResetFired(h: Hook): Hook
    requires h.resetPending
  {
    h.(progress := 0.0, resetPending := false)
  }

  /**
   * What the hook intends while a task is active: no finishing animation is
   * running and the progress lies between 0 and the hold; a pending reset
   * belongs to an inactive hook.
   */
  predicate Intended(h: Hook, hold: real)
  {
    && (h.active ==> h.animations == [] && 0.0 <= h.progress <= Max(hold, 0.0))
    && (h.resetPending ==> !h.active)
  }

  /** With frames cancelled on activation, every event keeps the intended state. */
  lemma {:induction false} CancellingKeepsIntended(h: Hook, hold: real, isActive: bool, now: real, k: nat)
    requires Intended(h, hold)
    ensures Intended(ActiveChangedCancelling(h, hold, isActive, now), hold)
    ensures h.active ==> Intended(Ticked(h, hold), hold)
    ensures k < |h.animations| ==> Intended(Framed(h, k, now), hold)
    ensures h.resetPending ==> Intended(ResetFired(h), hold)
  {
    if h.active {
      var p := h.progress;
      if p < hold {
        assert p < Tick(p, hold) <= hold;
      }
    }
  }

  /**
   * As written, a task that ends at 50% and restarts 100 ms later shows
   * 100% while active: the first animation's last frame overwrites the
   * resumed progress, and the ticks keep it above the hold.
   */
  lemma StaleFramePassesHold()
    ensures var h0 := Hook(50.0, true, [], false);
            var h1 := ActiveChanged(h0, DefaultHoldPercent, false, 0.0);
            var h2 := ActiveChanged(h1, DefaultHoldPercent, true, 100.0);
            var h3 := Framed(h2, 0, FinishDuration);
            && Intended(h0, DefaultHoldPercent)
            && h3.active && h3.progress == 100.0
            && Ticked(h3, DefaultHoldPercent).progress == 100.0
            && !Intended(h3, DefaultHoldPercent)
  {
    var h1 := ActiveChanged(Hook(50.0, true, [], false), DefaultHoldPercent, false, 0.0);
    assert h1.animations == [Animation(0.0, 50.0)];
  }

  /** The hook, kept in the fields its state, refs and pending timers amount to. */
  class ProgressSimulator {
    const holdPercent: real
    const tickMs: nat
    var progress: real
    var active: bool
    var animations: seq<Animation>
    var resetPending: bool

    function State(): Hook
      reads this
    {
      Hook(progress, active, animations, resetPending)
    }

    predicate Valid()
      reads this
    {
      Intended(State(), holdPercent)
    }

    /** `options?.holdPercent ?? 90` and `options?.tickMs ?? 120`; the progress starts at 0. */
    constructor (holdOption: Option<real>, tickOption: Option<nat>)
      ensures holdPercent == (if holdOption.Some? then holdOption.value else DefaultHoldPercent)
      ensures tickMs == (if tickOption.Some? then tickOption.value else DefaultTickMs)
      ensures State() == Mounted && Valid()
    {
      holdPercent := if holdOption.Some? then holdOption.value else DefaultHoldPercent;
      tickMs := if tickOption.Some? then tickOption.value else DefaultTickMs;
      progress := 0.0;
      active := false;
      animations := [];
      resetPending := false;
    }

    /** The effect for a new `isActive`, at time `now`, with the previous effect's cleanup run first. */
    method SetActive(isActive: bool, now: real)
      requires Valid()
      modifies this
      ensures State() == ActiveChangedCancelling(old(State()), holdPercent, isActive, now)
      ensures Valid()
    {
      CancellingKeepsIntended(State(), holdPercent, isActive, now, 0);
      if active {
        active := false;
      } else {
        resetPending := false;
      }
      if isActive {
        animations := [];
        progress := if progress > 0.0 && progress < holdPercent then progress else 0.0;
        active := true;
        return;
      }
      if progress < 100.0 {
        animations := animations + [Animation(now, progress)];
      }
      resetPending := true;
    }

    method IntervalTick()
      requires Valid() && active
      modifies this
      ensures State() == Ticked(old(State()), holdPercent)
      ensures Valid()
    {
      CancellingKeepsIntended(State(), holdPercent, true, 0.0, 0);
      if progress >= holdPercent {
        return;
      }
      var remaining := holdPercent - progress;
      var delta := Max(0.5, remaining * 0.08);
      progress := Min(holdPercent, progress + delta);
    }

    /** A frame of animation `k`, whose timestamp is `now`. */
    method AnimationFrame(k: nat, now: real)
      requires Valid() && k < |animations|
      modifies this
      ensures State() == Framed(old(State()), k, now)
      ensures Valid()
    {
      CancellingKeepsIntended(State(), holdPercent, true, now, k);
      var a := animations[k];
      var t := Min(1.0, (now - a.start) / FinishDuration);
      var eased := Eased(t);
      var next := Round(a.from + (100.0 - a.from) * eased);
      assert t == Fraction(now - a.start) && next == FinishValue(a.from, now - a.start);
      progress := next as real;
      if t >= 1.0 {
        animations := animations[..k] + animations[k + 1..];
      }
    }

    method ResetTimeout()
      requires Valid() && resetPending
      modifies this
      ensures State() == ResetFired(old(State()))
      ensures Valid()
    {
      progress := 0.0;
      resetPending := false;
    }
  }
}
