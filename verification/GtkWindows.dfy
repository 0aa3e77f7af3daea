/**
 * The window table of sidecar/gtk_main_linux.go and sidecar/gtk_bridge_linux.go: callbacks that
 * run when GTK destroys a window. Callbacks are numbered by their registration, and may
 * themselves register callbacks or destroy windows while a destruction is being handled.
 */
module GtkWindows {
  type Window = nat
  type Callback = nat

  const NO_WINDOW: Window := 0

  /**
   * windows is gtkWindows; stack holds, innermost first, the callbacks that the destructions now
   * being handled have still to run; ran lists the callbacks run so far; owners[cb] is the window
   * callback cb was registered for.
   */
  datatype State = State(
    windows: map<Window, seq<Callback>>, stack: seq<seq<Callback>>, ran: seq<Callback>, owners: seq<Window>)

  const INIT := State(map[], [], [], [])

  datatype Step =
    | Track(window: Window)
    | Register(window: Window)
    | Destroy(window: Window)
    | RunNext

  function Waiting(s: State, w: Window): seq<Callback> {
    if w in s.windows then s.windows[w] else []
  }

  predicate Enabled(s: State, step: Step) {
    step.RunNext? ==> s.stack != []
  }

  function Apply(s: State, step: Step): State
    requires Enabled(s, step)
  {
    match step
    case Track(w) =>
      if w == NO_WINDOW || w in s.windows then s else s.(windows := s.windows[w := []])
    case Register(w) =>
      var t := s.(owners := s.owners + [w]);
      if w in s.windows then t.(windows := s.windows[w := s.windows[w] + [|s.owners|]])
      else t.(ran := s.ran + [|s.owners|])
    case Destroy(w) =>
      s.(windows := s.windows - {w}, stack := [Waiting(s, w)] + s.stack)
    case RunNext =>
      if s.stack[0] == [] then s.(stack := s.stack[1..])
      else s.(stack := [s.stack[0][1..]] + s.stack[1..], ran := s.ran + [s.stack[0][0]])
  }

  ghost predicate Run(states: seq<State>, steps: seq<Step>) {
    && |states| == |steps| + 1
    && states[0] == INIT
    && forall k :: 0 <= k < |steps| ==> Enabled(states[k], steps[k]) && states[k + 1] == Apply(states[k], steps[k])
  }

  // ---- Each callback is in exactly one place ----

  function Flat(stack: seq<seq<Callback>>): seq<Callback> {
    if stack == [] then [] else stack[0] + Flat(stack[1..])
  }

  function Count(xs: seq<Callback>, cb: Callback): nat {
    if xs == [] then 0 else (if xs[0] == cb then 1 else 0) + Count(xs[1..], cb)
  }

  lemma {:induction false} CountConcat(xs: seq<Callback>, ys: seq<Callback>, cb: Callback)
    ensures Count(xs + ys, cb) == Count(xs, cb) + Count(ys, cb)
  {
    if xs == [] {
      assert xs + ys == ys;
    } else {
      assert (xs + ys)[1..] == xs[1..] + ys;
      CountConcat(xs[1..], ys, cb);
    }
  }

  lemma {:induction false} CountPositive(xs: seq<Callback>, cb: Callback)
    ensures Count(xs, cb) > 0 <==> cb in xs
  {
    if xs != [] {
      assert xs == [xs[0]] + xs[1..];
      CountPositive(xs[1..], cb);
    }
  }

  /** How often the callback occurs: still waiting, taken but not yet run, or run. */
  function Places(s: State, cb: Callback, w: Window): nat {
    Count(Waiting(s, w), cb) + Count(Flat(s.stack), cb) + Count(s.ran, cb)
  }

  /** A registered callback is in one place, if waiting then on its own window; any other is nowhere. */
  ghost predicate PlaceOk(s: State, cb: Callback) {
    && (forall w: Window :: cb >= |s.owners| || s.owners[cb] != w ==> Count(Waiting(s, w), cb) == 0)
    && (if cb < |s.owners| then Places(s, cb, s.owners[cb]) == 1
        else Count(Flat(s.stack), cb) == 0 && Count(s.ran, cb) == 0)
  }

  ghost predicate InOnePlace(s: State) {
    forall cb: Callback :: PlaceOk(s, cb)
  }

  lemma RegisterKeeps(s: State, w: Window, cb: Callback)
    requires PlaceOk(s, cb)
    ensures PlaceOk(Apply(s, Register(w)), cb)
  {
    var t := Apply(s, Register(w));
    CountConcat(Waiting(s, w), [|s.owners|], cb);
    CountConcat(s.ran, [|s.owners|], cb);
    forall v: Window | v != w ensures Waiting(t, v) == Waiting(s, v) {
    }
  }

  lemma DestroyKeeps(s: State, w: Window, cb: Callback)
    requires PlaceOk(s, cb)
    ensures PlaceOk(Apply(s, Destroy(w)), cb)
  {
    var t := Apply(s, Destroy(w));
    assert t.stack[1..] == s.stack;
    CountConcat(Waiting(s, w), Flat(s.stack), cb);
    forall v: Window | v != w ensures Waiting(t, v) == Waiting(s, v) {
    }
  }

  /** Running one callback moves it from the taken ones to the run ones. */
  lemma RunNextMoves(s: State)
    requires s.stack != []
    ensures var t := Apply(s, RunNext);
            if s.stack[0] == [] then Flat(s.stack) == Flat(t.stack) && t.ran == s.ran
            else Flat(s.stack) == [s.stack[0][0]] + Flat(t.stack) && t.ran == s.ran + [s.stack[0][0]]
  {
    var t := Apply(s, RunNext);
    if s.stack[0] != [] {
      assert t.stack[1..] == s.stack[1..];
    }
  }

  lemma RunNextKeeps(s: State, cb: Callback)
    requires PlaceOk(s, cb) && s.stack != []
    ensures PlaceOk(Apply(s, RunNext), cb)
  {
    var t := Apply(s, RunNext);
    RunNextMoves(s);
    if s.stack[0] != [] {
      CountConcat([s.stack[0][0]], Flat(t.stack), cb);
      CountConcat(s.ran, [s.stack[0][0]], cb);
    }
    forall v: Window ensures Waiting(t, v) == Waiting(s, v) {
    }
  }

  lemma TrackKeeps(s: State, w: Window, cb: Callback)
    requires PlaceOk(s, cb)
    ensures PlaceOk(Apply(s, Track(w)), cb)
  {
    forall v: Window ensures Waiting(Apply(s, Track(w)), v) == Waiting(s, v) {
    }
  }

  /** Conservation: after any run every registered callback is waiting, taken or run, exactly once in all. */
  lemma {:induction false} EachCallbackInOnePlace(states: seq<State>, steps: seq<Step>, k: nat)
    requires Run(states, steps) && k < |states|
    ensures InOnePlace(states[k])
  {
    if k > 0 {
      EachCallbackInOnePlace(states, steps, k - 1);
      forall cb: Callback ensures PlaceOk(states[k], cb) {
        match steps[k - 1]
        case Track(w) => TrackKeeps(states[k - 1], w, cb);
        case Register(w) => RegisterKeeps(states[k - 1], w, cb);
        case Destroy(w) => DestroyKeeps(states[k - 1], w, cb);
        case RunNext => RunNextKeeps(states[k - 1], cb);
      }
    }
  }

  /** In particular no callback ever runs twice. */
  lemma RunsAtMostOnce(states: seq<State>, steps: seq<Step>, k: nat, i: nat, j: nat)
    requires Run(states, steps) && k < |states| && i < j < |states[k].ran|
    ensures states[k].ran[i] != states[k].ran[j]
  {
    EachCallbackInOnePlace(states, steps, k);
    var ran := states[k].ran;
    var cb := ran[j];
    assert ran == ran[..j] + ran[j..];
    CountConcat(ran[..j], ran[j..], cb);
    CountPositive(ran[..j], cb);
    CountPositive(ran[j..], cb);
    assert ran[i] == ran[..j][i] && ran[j] == ran[j..][0];
    assert PlaceOk(states[k], cb);
  }

  // ---- When it runs ----

  lemma {:induction false} OwnersGrow(states: seq<State>, steps: seq<Step>, k: nat, j: nat)
    requires Run(states, steps) && k <= j < |states|
    ensures states[k].owners <= states[j].owners && states[k].ran <= states[j].ran
  {
    if k < j {
      OwnersGrow(states, steps, k, j - 1);
    }
  }

  /** Registered for a window that is gone: it runs in that very step. */
  lemma RunsAtOnceWhenGone(states: seq<State>, steps: seq<Step>, k: nat)
    requires Run(states, steps) && k < |steps| && steps[k].Register?
    ensures steps[k].window !in states[k].windows ==> states[k + 1].ran == states[k].ran + [|states[k].owners|]
    ensures steps[k].window in states[k].windows ==> states[k + 1].ran == states[k].ran
  {
  }

  /** Registered for a live window, it stays waiting, and unrun, for as long as the window is not destroyed. */
  lemma {:induction false} WaitsWhileAlive(states: seq<State>, steps: seq<Step>, k: nat, j: nat, cb: Callback)
    requires Run(states, steps) && k <= j < |states|
    requires cb < |states[k].owners| && cb in Waiting(states[k], states[k].owners[cb])
    requires forall i :: k <= i < j ==> steps[i] != Destroy(states[k].owners[cb])
    ensures cb in Waiting(states[j], states[k].owners[cb]) && cb !in states[j].ran
  {
    if k < j {
      WaitsWhileAlive(states, steps, k, j - 1, cb);
      OwnersGrow(states, steps, k, j - 1);
    }
    EachCallbackInOnePlace(states, steps, j);
    OwnersGrow(states, steps, k, j);
    CountPositive(Waiting(states[j], states[k].owners[cb]), cb);
    CountPositive(states[j].ran, cb);
    assert PlaceOk(states[j], cb);
  }

  /** Once taken it never waits again. */
  lemma TakenStep(s: State, step: Step, cb: Callback)
    requires PlaceOk(s, cb) && Enabled(s, step) && cb < |s.owners| && cb !in Waiting(s, s.owners[cb])
    ensures cb !in Waiting(Apply(s, step), s.owners[cb])
  {
  }

  lemma TakenRunStep(states: seq<State>, steps: seq<Step>, k: nat, cb: Callback, w: Window)
    requires Run(states, steps) && k < |steps|
    requires cb < |states[k].owners| && states[k].owners[cb] == w && cb !in Waiting(states[k], w)
    ensures cb !in Waiting(states[k + 1], w)
  {
    EachCallbackInOnePlace(states, steps, k);
    TakenStep(states[k], steps[k], cb);
  }

  lemma {:induction false} TakenStaysTaken(states: seq<State>, steps: seq<Step>, k: nat, j: nat, cb: Callback)
    requires Run(states, steps) && k <= j < |states|
    requires cb < |states[k].owners| && cb !in Waiting(states[k], states[k].owners[cb])
    ensures states[k].owners <= states[j].owners && cb !in Waiting(states[j], states[k].owners[cb])
  {
    OwnersGrow(states, steps, k, j);
    if k < j {
      TakenStaysTaken(states, steps, k, j - 1, cb);
      TakenRunStep(states, steps, j - 1, cb, states[k].owners[cb]);
    }
  }

  /**
   * Exactly when a callback has run: with no destruction still being handled, a callback registered
   * for a live window has run if and only if that window was destroyed since.
   */
  lemma RunsExactlyAtDestruction(states: seq<State>, steps: seq<Step>, k: nat, j: nat)
    requires Run(states, steps) && k < j < |states| && steps[k].Register?
    requires steps[k].window in states[k].windows && states[j].stack == []
    ensures |states[k].owners| in states[j].ran <==> exists i :: k < i < j && steps[i] == Destroy(steps[k].window)
  {
    var cb := |states[k].owners|;
    var w := steps[k].window;
    if i :| k < i < j && steps[i] == Destroy(w) {
      OwnersGrow(states, steps, k + 1, i + 1);
      TakenStaysTaken(states, steps, i + 1, j, cb);
      OwnersGrow(states, steps, i + 1, j);
      EachCallbackInOnePlace(states, steps, j);
      CountPositive(Waiting(states[j], w), cb);
      CountPositive(states[j].ran, cb);
      assert PlaceOk(states[j], cb);
    } else {
      WaitsWhileAlive(states, steps, k + 1, j, cb);
    }
  }

  // ---- The table itself ----

  function Total(stack: seq<seq<Callback>>): nat {
    if stack == [] then 0 else 1 + |stack[0]| + Total(stack[1..])
  }

  /** Runs everything that has been taken. */
  function Drain(s: State): State
    decreases Total(s.stack)
  {
    if s.stack == [] then s
    else
      var t := Apply(s, RunNext);
      assert s.stack[0] != [] ==> t.stack[1..] == s.stack[1..];
      Drain(t)
  }

  /** Draining empties the stack and runs what was on it, in order, innermost destruction first. */
  lemma {:induction false} DrainRunsAll(s: State)
    ensures Drain(s) == s.(stack := [], ran := s.ran + Flat(s.stack))
    decreases Total(s.stack)
  {
    if s.stack != [] {
      var t := Apply(s, RunNext);
      assert s.stack[0] != [] ==> t.stack[1..] == s.stack[1..];
      DrainRunsAll(t);
      RunNextMoves(s);
      assert s.ran + Flat(s.stack) == t.ran + Flat(t.stack);
    } else {
      assert s.ran + [] == s.ran;
    }
  }

  class WindowTable {
    var windows: map<Window, seq<Callback>>
    var ran: seq<Callback>
    ghost var owners: seq<Window>

    ghost function View(): State
      reads this
    {
      State(windows, [], ran, owners)
    }

    constructor ()
      ensures View() == INIT
    {
      windows, ran, owners := map[], [], [];
    }

    method TrackWindow(window: Window)
      modifies this
      ensures View() == Apply(old(View()), Track(window))
    {
      if window == NO_WINDOW {
        return;
      }
      if window !in windows {
        windows := windows[window := []];
      }
    }

    method Alive(window: Window) returns (alive: bool)
      ensures alive <==> window in View().windows
    {
      alive := window in windows;
    }

    method OnDestroyed(window: Window, fn: Callback)
      requires fn == |owners|
      modifies this
      ensures View() == Apply(old(View()), Register(window))
    {
      var alive := window in windows;
      if alive {
        windows := windows[window := windows[window] + [fn]];
      }
      if !alive {
        ran := ran + [fn];
      }
      owners := owners + [window];
    }

    method Destroyed(window: Window)
      modifies this
      ensures View() == Drain(Apply(old(View()), Destroy(window)))
    {
      var fns := if window in windows then windows[window] else [];
      windows := windows - {window};
      ghost var was := ran;
      for i := 0 to |fns|
        invariant windows == old(windows) - {window} && owners == old(owners)
        invariant ran == was + fns[..i]
      {
        ran := ran + [fns[i]];
      }
      DrainRunsAll(Apply(old(View()), Destroy(window)));
      assert Flat([fns]) == fns;
    }
  }
}
