/**
 * Ambient suppression: the counter and the sequence-numbered deadline of sidecar/observers.go,
 * and the playback hook of sidecar/client.go that pairs play-state edges with holds. Times and
 * durations are milliseconds of one monotone clock.
 */
module Ambient {
  const UNSCOPED: nat := 0
  const VOICE_TURN_HOLD: nat := 20000
  const VOICE_TURN_TAIL: nat := 1500

  /** ambientDepth, ambientHoldUntil and ambientHoldSeq. */
  datatype Guard = Guard(depth: nat, until: nat, holdSeq: nat)

  predicate Suppressed(g: Guard, now: nat) {
    g.depth > 0 || now < g.until
  }

  /** The newest hold is the only one an end may name, unless it names none. */
  predicate MayEnd(g: Guard, number: nat) {
    number == UNSCOPED || number == g.holdSeq
  }

  function Held(g: Guard, now: nat, d: nat): Guard {
    Guard(g.depth, if now + d > g.until then now + d else g.until, g.holdSeq + 1)
  }

  function Ended(g: Guard, now: nat, number: nat, d: nat): Guard {
    if MayEnd(g, number) && now + d < g.until then g.(until := now + d) else g
  }

  class AmbientGuard {
    var depth: nat
    var holdUntil: nat
    var holdSeq: nat

    function View(): Guard
      reads this
    {
      Guard(depth, holdUntil, holdSeq)
    }

    constructor ()
      ensures View() == Guard(0, 0, 0)
    {
      depth, holdUntil, holdSeq := 0, 0, 0;
    }

    method SuppressedNow(now: nat) returns (r: bool)
      ensures r <==> Suppressed(View(), now)
    {
      r := depth > 0 || now < holdUntil;
    }

    method Hold()
      modifies this
      ensures View() == old(View()).(depth := old(depth) + 1)
    {
      depth := depth + 1;
    }

    method Release()
      modifies this
      ensures View() == old(View()).(depth := if old(depth) > 0 then old(depth) - 1 else 0)
    {
      if depth <= 0 {
        return;
      }
      depth := depth - 1;
    }

    method HoldFor(now: nat, d: nat) returns (number: nat)
      modifies this
      ensures View() == Held(old(View()), now, d) && number == holdSeq
    {
      holdSeq := holdSeq + 1;
      var until := now + d;
      if until > holdUntil {
        holdUntil := until;
      }
      number := holdSeq;
    }

    method EndHoldAfter(now: nat, number: nat, d: nat)
      modifies this
      ensures View() == Ended(old(View()), now, number, d)
    {
      if number != UNSCOPED && number != holdSeq {
        return;
      }
      var until := now + d;
      if until < holdUntil {
        holdUntil := until;
      }
    }
  }

  /** The closure installPlayStateHook makes: it remembers the hold its last start edge took. */
  class PlayHook {
    var holdNumber: nat
    const guard: AmbientGuard

    constructor (guard: AmbientGuard)
      ensures this.guard == guard && holdNumber == UNSCOPED
    {
      this.guard, holdNumber := guard, UNSCOPED;
    }

    method OnPlayState(now: nat, playing: bool)
      modifies this, guard
      ensures playing ==>
                guard.View() == Held(old(guard.View()), now, VOICE_TURN_HOLD) && holdNumber == guard.holdSeq
      ensures !playing ==>
                && guard.View() == Ended(old(guard.View()), now, old(holdNumber), VOICE_TURN_TAIL)
                && holdNumber == old(holdNumber)
    {
      if playing {
        holdNumber := guard.HoldFor(now, VOICE_TURN_HOLD);
        return;
      }
      guard.EndHoldAfter(now, holdNumber, VOICE_TURN_TAIL);
    }
  }

  // ---- Runs ----

  /** hooks[h] is the number hook h remembers; a hook that was replaced may still be called. */
  datatype State = State(now: nat, guard: Guard, hooks: seq<nat>)

  const INIT := State(0, Guard(0, 0, 0), [])

  datatype Step =
    | Tick(dt: nat)
    | Hold
    | Release
    | HoldFor(d: nat)
    | EndAfter(number: nat, d: nat)
    | InstallHook
    | PlayStarts(hook: nat)
    | PlayStops(hook: nat)

  predicate Enabled(s: State, step: Step) {
    match step
    case PlayStarts(h) => h < |s.hooks|
    case PlayStops(h) => h < |s.hooks|
    case _ => true
  }

  function Apply(s: State, step: Step): State
    requires Enabled(s, step)
  {
    match step
    case Tick(dt) => s.(now := s.now + dt)
    case Hold => s.(guard := s.guard.(depth := s.guard.depth + 1))
    case Release => s.(guard := s.guard.(depth := if s.guard.depth > 0 then s.guard.depth - 1 else 0))
    case HoldFor(d) => s.(guard := Held(s.guard, s.now, d))
    case EndAfter(n, d) => s.(guard := Ended(s.guard, s.now, n, d))
    case InstallHook => s.(hooks := s.hooks + [UNSCOPED])
    case PlayStarts(h) =>
      var g := Held(s.guard, s.now, VOICE_TURN_HOLD);
      s.(guard := g, hooks := s.hooks[h := g.holdSeq])
    case PlayStops(h) => s.(guard := Ended(s.guard, s.now, s.hooks[h], VOICE_TURN_TAIL))
  }

  ghost predicate Run(states: seq<State>, steps: seq<Step>) {
    && |states| == |steps| + 1
    && states[0] == INIT
    && forall k :: 0 <= k < |steps| ==> Enabled(states[k], steps[k]) && states[k + 1] == Apply(states[k], steps[k])
  }

  predicate TakesHold(step: Step) {
    step.HoldFor? || step.PlayStarts?
  }

  function Duration(step: Step): nat
    requires TakesHold(step)
  {
    if step.HoldFor? then step.d else VOICE_TURN_HOLD
  }

  /** The step reports the end of hold number n, or of whichever hold is current. */
  predicate EndsHold(s: State, step: Step, n: nat)
    requires Enabled(s, step)
  {
    || (step.EndAfter? && step.number in {UNSCOPED, n})
    || (step.PlayStops? && s.hooks[step.hook] in {UNSCOPED, n})
  }

  // ---- Sequence numbers ----

  /** How many holds the first k steps took. */
  function Holds(steps: seq<Step>, k: nat): nat
    requires k <= |steps|
  {
    if k == 0 then 0 else Holds(steps, k - 1) + if TakesHold(steps[k - 1]) then 1 else 0
  }

  /** The number of the hold that hook h took last within the first k steps; 0 if it took none. */
  function LastOf(steps: seq<Step>, k: nat, h: nat): nat
    requires k <= |steps|
  {
    if k == 0 then 0 else if steps[k - 1] == PlayStarts(h) then Holds(steps, k) else LastOf(steps, k - 1, h)
  }

  /** Holds are numbered 1, 2, 3, ..., and each hook remembers the last one it took. */
  lemma {:induction false} NumbersCountHolds(states: seq<State>, steps: seq<Step>, k: nat)
    requires Run(states, steps) && k < |states|
    ensures states[k].guard.holdSeq == Holds(steps, k)
    ensures forall h :: 0 <= h < |states[k].hooks| ==> states[k].hooks[h] == LastOf(steps, k, h)
    ensures forall h: nat :: h >= |states[k].hooks| ==> LastOf(steps, k, h) == 0
  {
    if k > 0 {
      NumbersCountHolds(states, steps, k - 1);
    }
  }

  lemma {:induction false} HoldsGrow(steps: seq<Step>, k: nat, j: nat)
    requires k <= j <= |steps|
    ensures Holds(steps, k) <= Holds(steps, j)
  {
    if k < j {
      HoldsGrow(steps, k, j - 1);
    }
  }

  lemma {:induction false} LastOfBounded(steps: seq<Step>, k: nat, h: nat)
    requires k <= |steps|
    ensures LastOf(steps, k, h) <= Holds(steps, k)
  {
    if k > 0 {
      LastOfBounded(steps, k - 1, h);
    }
  }

  // ---- How long a hold lasts ----

  /**
   * While hold n is the newest and no end that names it, or names none, has come, suppression lasts
   * at least until the hold's start plus its duration.
   */
  lemma {:induction false} NewestHoldLasts(states: seq<State>, steps: seq<Step>, k: nat, j: nat)
    requires Run(states, steps) && k < j < |states| && TakesHold(steps[k])
    requires states[j].guard.holdSeq == states[k + 1].guard.holdSeq
    requires forall i :: k < i < j ==> !EndsHold(states[i], steps[i], states[k + 1].guard.holdSeq)
    ensures states[j].guard.until >= states[k].now + Duration(steps[k])
    ensures states[j].now < states[k].now + Duration(steps[k]) ==> Suppressed(states[j].guard, states[j].now)
  {
    if k + 1 < j {
      NumbersCountHolds(states, steps, j);
      NumbersCountHolds(states, steps, j - 1);
      NumbersCountHolds(states, steps, k + 1);
      HoldsGrow(steps, k + 1, j - 1);
      HoldsGrow(steps, j - 1, j);
      NewestHoldLasts(states, steps, k, j - 1);
    }
  }

  /** A stop edge that comes after a newer hold was taken leaves everything as it is. */
  lemma LateStopChangesNothing(states: seq<State>, steps: seq<Step>, k: nat, m: nat, j: nat, h: nat)
    requires Run(states, steps) && k < m < j < |steps|
    requires steps[k] == PlayStarts(h) && TakesHold(steps[m]) && steps[j] == PlayStops(h)
    requires forall i :: k < i < j ==> steps[i] != PlayStarts(h)
    ensures states[j + 1] == states[j]
  {
    NumbersCountHolds(states, steps, j);
    LastOfIs(steps, k, j, h);
    HoldsGrow(steps, k + 1, m);
    HoldsGrow(steps, m + 1, j);
  }

  lemma {:induction false} LastOfIs(steps: seq<Step>, k: nat, j: nat, h: nat)
    requires k < j <= |steps| && steps[k] == PlayStarts(h)
    requires forall i :: k < i < j ==> steps[i] != PlayStarts(h)
    ensures LastOf(steps, j, h) == Holds(steps, k + 1) > 0
  {
    if k + 1 < j {
      LastOfIs(steps, k, j - 1, h);
    }
  }

  // ---- How long it can last ----

  function Longest(steps: seq<Step>, k: nat): nat
    requires k <= |steps|
  {
    if k == 0 then 0
    else
      var before := Longest(steps, k - 1);
      if TakesHold(steps[k - 1]) && Duration(steps[k - 1]) > before then Duration(steps[k - 1]) else before
  }

  /** When the latest of the first k steps that took a hold did so; 0 if none did. */
  function LatestStart(states: seq<State>, steps: seq<Step>, k: nat): nat
    requires k <= |steps| && |states| == |steps| + 1
  {
    if k == 0 then 0
    else if TakesHold(steps[k - 1]) then states[k - 1].now else LatestStart(states, steps, k - 1)
  }

  /** Self-healing: with the counter at zero, suppression is over by the latest hold's start plus the longest duration. */
  lemma {:induction false} SuppressionIsBounded(states: seq<State>, steps: seq<Step>, k: nat)
    requires Run(states, steps) && k < |states|
    ensures states[k].guard.until <= LatestStart(states, steps, k) + Longest(steps, k)
    ensures LatestStart(states, steps, k) <= states[k].now
    ensures states[k].guard.depth == 0 && states[k].now >= LatestStart(states, steps, k) + Longest(steps, k) ==>
              !Suppressed(states[k].guard, states[k].now)
  {
    if k > 0 {
      SuppressionIsBounded(states, steps, k - 1);
    }
  }

  // ---- The counter ----

  /** Holds minus releases over the first k steps, unclamped. */
  function Walk(steps: seq<Step>, k: nat): int
    requires k <= |steps|
  {
    if k == 0 then 0
    else Walk(steps, k - 1) + if steps[k - 1].Hold? then 1 else if steps[k - 1].Release? then -1 else 0
  }

  function Lowest(steps: seq<Step>, k: nat): (r: int)
    requires k <= |steps|
    ensures r <= Walk(steps, k) && r <= 0
  {
    if k == 0 then 0
    else if Walk(steps, k) < Lowest(steps, k - 1) then Walk(steps, k) else Lowest(steps, k - 1)
  }

  /** The counter is the walk reflected at its lowest point: releases too many are forgotten, none is owed. */
  lemma {:induction false} DepthIsReflectedWalk(states: seq<State>, steps: seq<Step>, k: nat)
    requires Run(states, steps) && k < |states|
    ensures states[k].guard.depth == Walk(steps, k) - Lowest(steps, k)
  {
    if k > 0 {
      DepthIsReflectedWalk(states, steps, k - 1);
    }
  }

  // ---- The playback hook ----

  /** The newest hold was taken by hook h's latest start edge. */
  predicate OwnsNewest(steps: seq<Step>, k: nat, h: nat)
    requires k <= |steps|
  {
    exists i :: 0 <= i < k && steps[i] == PlayStarts(h) && forall m :: i < m < k ==> !TakesHold(steps[m])
  }

  predicate NeverStarted(steps: seq<Step>, k: nat, h: nat)
    requires k <= |steps|
  {
    forall i :: 0 <= i < k ==> steps[i] != PlayStarts(h)
  }

  lemma {:induction false} LastOfZero(steps: seq<Step>, k: nat, h: nat)
    requires k <= |steps|
    ensures LastOf(steps, k, h) == 0 <==> NeverStarted(steps, k, h)
  {
    if k > 0 {
      LastOfZero(steps, k - 1, h);
    }
  }

  lemma {:induction false} LastOfNewest(steps: seq<Step>, k: nat, h: nat)
    requires k <= |steps| && !NeverStarted(steps, k, h)
    ensures LastOf(steps, k, h) == Holds(steps, k) <==> OwnsNewest(steps, k, h)
  {
    if steps[k - 1] == PlayStarts(h) {
      assert OwnsNewest(steps, k, h);
    } else if TakesHold(steps[k - 1]) {
      LastOfBounded(steps, k - 1, h);
    } else {
      LastOfNewest(steps, k - 1, h);
      assert OwnsNewest(steps, k, h) ==> OwnsNewest(steps, k - 1, h) by {
        if OwnsNewest(steps, k, h) {
          var i :| 0 <= i < k && steps[i] == PlayStarts(h) && forall m :: i < m < k ==> !TakesHold(steps[m]);
          assert i < k - 1;
        }
      }
      assert OwnsNewest(steps, k - 1, h) ==> OwnsNewest(steps, k, h) by {
        if OwnsNewest(steps, k - 1, h) {
          var i :| 0 <= i < k - 1 && steps[i] == PlayStarts(h) && forall m :: i < m < k - 1 ==> !TakesHold(steps[m]);
          assert forall m :: i < m < k ==> !TakesHold(steps[m]);
        }
      }
    }
  }

  /**
   * Exactly when a stop edge pulls the deadline in: the hold was to outlast the tail, and the hook
   * either took the newest hold itself or never saw a start.
   */
  lemma StopCutsExactly(states: seq<State>, steps: seq<Step>, k: nat, h: nat)
    requires Run(states, steps) && k < |steps| && steps[k] == PlayStops(h)
    ensures states[k + 1].guard.until < states[k].guard.until <==>
            && states[k].now + VOICE_TURN_TAIL < states[k].guard.until
            && (OwnsNewest(steps, k, h) || NeverStarted(steps, k, h))
  {
    NumbersCountHolds(states, steps, k);
    LastOfZero(steps, k, h);
    if !NeverStarted(steps, k, h) {
      LastOfNewest(steps, k, h);
    } else {
      assert !OwnsNewest(steps, k, h);
    }
  }

  /**
   * A matching end is meant never to shorten a newer hold. It does when the hook was installed
   * again between the start and the stop: the new hook remembers no hold, so its stop ends whichever
   * is current, here a turn that began a moment before.
   */
  lemma ReinstalledHookCutsNewerHold()
    ensures exists states: seq<State>, steps: seq<Step> ::
              && Run(states, steps) && |steps| == 5
              && steps[1] == PlayStarts(0) && steps[3] == HoldFor(VOICE_TURN_HOLD) && steps[4] == PlayStops(1)
              && states[5].guard.until < states[4].guard.until == states[3].now + VOICE_TURN_HOLD
  {
    var steps := [InstallHook, PlayStarts(0), InstallHook, HoldFor(VOICE_TURN_HOLD), PlayStops(1)];
    var s1 := Apply(INIT, steps[0]);
    var s2 := Apply(s1, steps[1]);
    var s3 := Apply(s2, steps[2]);
    var s4 := Apply(s3, steps[3]);
    var s5 := Apply(s4, steps[4]);
    var states := [INIT, s1, s2, s3, s4, s5];
    assert Run(states, steps);
  }
}
