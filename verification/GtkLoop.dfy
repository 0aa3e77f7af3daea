/**
 * The shared GTK loop of sidecar/gtk_main_linux.go and sidecar/gtk_bridge_linux.go as a step
 * system: callers of gtkInvokeSync on any thread, and the loop's own thread, which may find no
 * display, run queued functions, and stop.
 */
module GtkLoop {
  type Token = nat

  datatype LoopAt =
    | NotBegun
    | Initialising
    | NoDisplay
    | Idle
    | Calling(token: Token, caller: nat)
    | MainReturned
    | MarkedUnusable
    | Over

  datatype CallAt =
    | Asking
    | AwaitingStart
    | LoadingUsable
    | CheckingThread
    | Storing
    | Queueing(token: Token)
    | Selecting(token: Token)
    | Deleting(token: Token)
    | Rechecking
    | Answered(ran: bool)

  /**
   * One gtkInvokeSync call. begun and ended count how often its function was started and ran to
   * completion; done is that its channel is closed.
   */
  datatype Caller = Caller(onLoop: bool, at: CallAt, begun: nat, ended: nat, done: bool)

  /** sharedGTKLoopAllowed, gtkStarted closed, gtkUsable, gtkStopped closed. */
  datatype Flags = Flags(allowed: bool, started: bool, usable: bool, stopped: bool)

  /** gtkInvokeFuncs maps a token to the call that stored it; queue holds the idle sources. */
  datatype State = State(
    loop: LoopAt, flags: Flags, lastToken: Token, funcs: map<Token, nat>, queue: multiset<Token>, callers: seq<Caller>)

  const INIT := State(NotBegun, Flags(false, false, false, false), 0, map[], multiset{}, [])

  datatype Step =
    | Allow
    | CallerArrives(onLoop: bool)
    | CallerMoves(caller: nat, sawDone: bool)
    | InitReturns(display: bool)
    | LoopTakes(token: Token)
    | LoopFinishes
    | LoopMoves

  /** The loop's thread is inside gtk_main. */
  predicate InMain(at: LoopAt) {
    at.Idle? || at.Calling?
  }

  predicate CallerReady(s: State, c: nat, sawDone: bool) {
    c < |s.callers| &&
    var me := s.callers[c];
    && (me.onLoop ==> InMain(s.loop))
    && match me.at
       case AwaitingStart => s.flags.started
       case Selecting(_) => if sawDone then me.done else s.flags.stopped
       case Answered(_) => false
       case _ => true
  }

  function CallerNextAt(s: State, me: Caller, sawDone: bool): CallAt {
    match me.at
    case Asking => if s.flags.allowed then AwaitingStart else Answered(false)
    case AwaitingStart => LoadingUsable
    case LoadingUsable => if s.flags.usable then CheckingThread else Answered(false)
    case CheckingThread => if me.onLoop then Answered(true) else Storing
    case Storing => Queueing(s.lastToken + 1)
    case Queueing(t) => Selecting(t)
    case Selecting(t) => if sawDone then Answered(true) else Deleting(t)
    case Deleting(_) => Rechecking
    case Rechecking => Answered(me.done)
    case Answered(r) => Answered(r)
  }

  /** On the loop's own thread the function runs inline, to completion, before the call returns. */
  function CallerNext(s: State, me: Caller, sawDone: bool): Caller {
    var inline := if me.at.CheckingThread? && me.onLoop then 1 else 0;
    Caller(me.onLoop, CallerNextAt(s, me, sawDone), me.begun + inline, me.ended + inline, me.done)
  }

  function CallerStep(s: State, c: nat, sawDone: bool): State
    requires c < |s.callers|
  {
    var me := s.callers[c];
    State(if me.at.Asking? && s.flags.allowed && s.loop.NotBegun? then Initialising else s.loop,
          s.flags,
          if me.at.Storing? then s.lastToken + 1 else s.lastToken,
          if me.at.Storing? then s.funcs[s.lastToken + 1 := c]
          else if me.at.Deleting? then s.funcs - {me.at.token} else s.funcs,
          if me.at.Queueing? then s.queue + multiset{me.at.token} else s.queue,
          s.callers[c := CallerNext(s, me, sawDone)])
  }

  /** goGTKInvoke: load and delete the function, then run it if it was still there. */
  function TakeStep(s: State, t: Token): State {
    var rest := s.queue - multiset{t};
    if t in s.funcs && s.funcs[t] < |s.callers| then
      var c := s.funcs[t];
      s.(loop := Calling(t, c), funcs := s.funcs - {t}, queue := rest,
         callers := s.callers[c := s.callers[c].(begun := s.callers[c].begun + 1)])
    else s.(queue := rest)
  }

  function FinishStep(s: State): State
    requires s.loop.Calling?
  {
    var c := s.loop.caller;
    if c < |s.callers| then
      s.(loop := Idle, callers := s.callers[c := s.callers[c].(ended := s.callers[c].ended + 1, done := true)])
    else s.(loop := Idle)
  }

  /** gtk_main returns between callbacks; then gtkUsable is cleared, then gtkStopped is closed. */
  function LoopStep(s: State): State {
    match s.loop
    case Idle => s.(loop := MainReturned)
    case MainReturned => s.(loop := MarkedUnusable, flags := s.flags.(usable := false))
    case MarkedUnusable => s.(loop := Over, flags := s.flags.(stopped := true))
    case _ => s
  }

  predicate Enabled(s: State, step: Step) {
    match step
    case Allow => true
    case CallerArrives(onLoop) => onLoop ==> InMain(s.loop)
    case CallerMoves(c, sawDone) => CallerReady(s, c, sawDone)
    case InitReturns(_) => s.loop.Initialising?
    case LoopTakes(t) => s.loop.Idle? && t in s.queue
    case LoopFinishes => s.loop.Calling?
    case LoopMoves => s.loop.Idle? || s.loop.MainReturned? || s.loop.MarkedUnusable?
  }

  function Apply(s: State, step: Step): State
    requires Enabled(s, step)
  {
    match step
    case Allow => s.(flags := s.flags.(allowed := true))
    case CallerArrives(onLoop) => s.(callers := s.callers + [Caller(onLoop, Asking, 0, 0, false)])
    case CallerMoves(c, sawDone) => CallerStep(s, c, sawDone)
    case InitReturns(display) =>
      s.(loop := if display then Idle else NoDisplay, flags := s.flags.(started := true, usable := display))
    case LoopTakes(t) => TakeStep(s, t)
    case LoopFinishes => FinishStep(s)
    case LoopMoves => LoopStep(s)
  }

  ghost predicate Run(states: seq<State>, steps: seq<Step>) {
    && |states| == |steps| + 1
    && states[0] == INIT
    && forall k :: 0 <= k < |steps| ==> Enabled(states[k], steps[k]) && states[k + 1] == Apply(states[k], steps[k])
  }

  // ---- Invariants ----

  predicate HasToken(at: CallAt) {
    at.Queueing? || at.Selecting? || at.Deleting?
  }

  predicate Stored(s: State, c: nat)
    requires c < |s.callers|
  {
    && HasToken(s.callers[c].at)
    && s.callers[c].at.token in s.funcs && s.funcs[s.callers[c].at.token] == c
  }

  predicate BeingCalled(s: State, c: nat) {
    s.loop.Calling? && s.loop.caller == c
  }

  /** A stored function is in exactly one place: in the table, running on the loop, or finished. */
  predicate CallerOk(s: State, c: nat)
    requires c < |s.callers|
  {
    var me := s.callers[c];
    && (me.done <==> me.ended == 1 && !me.onLoop)
    && (match me.at
        case Queueing(t) => Stored(s, c) && me.begun == 0 && me.ended == 0 && !BeingCalled(s, c) && t !in s.queue
        case Selecting(_) =>
          (if Stored(s, c) then me.begun == 0 && me.ended == 0 && !BeingCalled(s, c)
           else if BeingCalled(s, c) then me.begun == 1 && me.ended == 0
           else me.begun == 1 && me.ended == 1)
        case Deleting(_) =>
          && s.loop.Over? && me.begun == me.ended <= 1 && (Stored(s, c) <==> me.begun == 0)
        case Rechecking => s.loop.Over? && me.begun == me.ended <= 1
        case Answered(ran) => !BeingCalled(s, c) && me.begun == me.ended == (if ran then 1 else 0)
        case _ => me.begun == 0 && me.ended == 0 && !BeingCalled(s, c))
    && (HasToken(me.at) ==> me.at.token <= s.lastToken && !me.onLoop)
    && (me.at.Storing? ==> !me.onLoop)
  }

  predicate TokensDistinct(s: State) {
    forall c, d | 0 <= c < |s.callers| && 0 <= d < |s.callers| ::
      HasToken(s.callers[c].at) && HasToken(s.callers[d].at) && s.callers[c].at.token == s.callers[d].at.token ==> c == d
  }

  predicate TableOk(s: State) {
    forall t :: t in s.funcs ==>
      s.funcs[t] < |s.callers| && Stored(s, s.funcs[t]) && s.callers[s.funcs[t]].at.token == t
  }

  predicate Inv(s: State) {
    && (s.flags.stopped <==> s.loop.Over?)
    && (s.flags.started <==> !s.loop.NotBegun? && !s.loop.Initialising?)
    && (s.loop.MarkedUnusable? || s.loop.Over? ==> !s.flags.usable)
    && (forall c :: 0 <= c < |s.callers| ==> CallerOk(s, c))
    && TokensDistinct(s)
    && TableOk(s)
    && (forall t :: t in s.queue ==> t <= s.lastToken)
    && (s.loop.Calling? ==> s.loop.caller < |s.callers| && s.callers[s.loop.caller].at.Selecting?)
  }

  lemma MoverKeeps(s: State, c: nat, sawDone: bool)
    requires Inv(s) && CallerReady(s, c, sawDone)
    ensures CallerOk(CallerStep(s, c, sawDone), c)
  {
    assert CallerOk(s, c);
  }

  lemma OthersKeep(s: State, c: nat, sawDone: bool, d: nat)
    requires Inv(s) && CallerReady(s, c, sawDone) && d < |s.callers| && d != c
    ensures CallerOk(CallerStep(s, c, sawDone), d)
  {
    assert CallerOk(s, c) && CallerOk(s, d);
    assert HasToken(s.callers[c].at) && HasToken(s.callers[d].at) ==> s.callers[c].at.token != s.callers[d].at.token;
  }

  lemma TokensKeep(s: State, c: nat, sawDone: bool)
    requires Inv(s) && CallerReady(s, c, sawDone)
    ensures TokensDistinct(CallerStep(s, c, sawDone))
  {
    forall d | 0 <= d < |s.callers| ensures HasToken(s.callers[d].at) ==> s.callers[d].at.token <= s.lastToken {
      assert CallerOk(s, d);
    }
  }

  lemma TableKeeps(s: State, c: nat, sawDone: bool)
    requires Inv(s) && CallerReady(s, c, sawDone)
    ensures TableOk(CallerStep(s, c, sawDone))
  {
    assert CallerOk(s, c);
    forall t | t in s.funcs ensures t <= s.lastToken {
      assert CallerOk(s, s.funcs[t]);
    }
  }

  lemma CallerKeeps(s: State, c: nat, sawDone: bool)
    requires Inv(s) && CallerReady(s, c, sawDone)
    ensures Inv(CallerStep(s, c, sawDone))
  {
    var t := CallerStep(s, c, sawDone);
    assert CallerOk(s, c);
    TokensKeep(s, c, sawDone);
    TableKeeps(s, c, sawDone);
    forall d | 0 <= d < |t.callers| ensures CallerOk(t, d) {
      if d == c {
        MoverKeeps(s, c, sawDone);
      } else {
        OthersKeep(s, c, sawDone, d);
      }
    }
  }

  lemma TakeKeeps(s: State, t: Token)
    requires Inv(s) && s.loop.Idle? && t in s.queue
    ensures Inv(TakeStep(s, t))
  {
    var u := TakeStep(s, t);
    if t in s.funcs {
      assert CallerOk(s, s.funcs[t]);
    }
    forall d | 0 <= d < |u.callers| ensures CallerOk(u, d) {
      assert CallerOk(s, d);
    }
  }

  lemma FinishKeeps(s: State)
    requires Inv(s) && s.loop.Calling?
    ensures Inv(FinishStep(s))
  {
    var t := FinishStep(s);
    forall d | 0 <= d < |t.callers| ensures CallerOk(t, d) {
      assert CallerOk(s, d);
    }
  }

  lemma LoopKeeps(s: State)
    requires Inv(s) && (s.loop.Idle? || s.loop.MainReturned? || s.loop.MarkedUnusable?)
    ensures Inv(LoopStep(s))
  {
    var t := LoopStep(s);
    forall d | 0 <= d < |t.callers| ensures CallerOk(t, d) {
      assert CallerOk(s, d);
    }
  }

  lemma OutsideKeeps(s: State, step: Step)
    requires Inv(s) && Enabled(s, step) && (step.Allow? || step.CallerArrives? || step.InitReturns?)
    ensures Inv(Apply(s, step))
  {
    var t := Apply(s, step);
    forall d | 0 <= d < |t.callers| ensures CallerOk(t, d) {
      assert d < |s.callers| ==> CallerOk(s, d);
    }
  }

  lemma StepKeeps(s: State, step: Step)
    requires Inv(s) && Enabled(s, step)
    ensures Inv(Apply(s, step))
  {
    match step
    case CallerMoves(c, sawDone) => CallerKeeps(s, c, sawDone);
    case LoopTakes(t) => TakeKeeps(s, t);
    case LoopFinishes => FinishKeeps(s);
    case LoopMoves => LoopKeeps(s);
    case _ => OutsideKeeps(s, step);
  }

  lemma {:induction false} RunKeeps(states: seq<State>, steps: seq<Step>, k: nat)
    requires Run(states, steps) && k < |states|
    ensures Inv(states[k])
  {
    if k > 0 {
      RunKeeps(states, steps, k - 1);
      StepKeeps(states[k - 1], steps[k - 1]);
    }
  }

  // ---- Main results ----

  lemma {:induction false} AnswerStays(states: seq<State>, steps: seq<Step>, k: nat, j: nat, c: nat)
    requires Run(states, steps) && k <= j < |states|
    requires c < |states[k].callers| && states[k].callers[c].at.Answered?
    ensures c < |states[j].callers| && states[j].callers[c].at == states[k].callers[c].at
  {
    if k < j {
      AnswerStays(states, steps, k, j - 1, c);
    }
  }

  /**
   * gtkInvokeSync answers true only after its function has run to completion, exactly once, and
   * false only when it never ran; both stay so for ever, whenever the loop stops.
   */
  lemma AnswerIsExact(states: seq<State>, steps: seq<Step>, k: nat, j: nat, c: nat)
    requires Run(states, steps) && k <= j < |states|
    requires c < |states[k].callers| && states[k].callers[c].at.Answered?
    ensures c < |states[j].callers|
    ensures var runs := if states[k].callers[c].at.ran then 1 else 0;
            && states[k].callers[c].begun == states[k].callers[c].ended == runs
            && states[j].callers[c].begun == states[j].callers[c].ended == runs
  {
    AnswerStays(states, steps, k, j, c);
    RunKeeps(states, steps, k);
    RunKeeps(states, steps, j);
    assert CallerOk(states[k], c) && CallerOk(states[j], c);
  }

  /** Nothing is left behind: the function table holds only functions whose callers are still waiting. */
  lemma NoAbandonedFunctions(states: seq<State>, steps: seq<Step>, k: nat, t: Token)
    requires Run(states, steps) && k < |states| && t in states[k].funcs
    ensures states[k].funcs[t] < |states[k].callers|
    ensures !states[k].callers[states[k].funcs[t]].at.Answered?
  {
    RunKeeps(states, steps, k);
  }

  /** How many more steps a call can take once the loop is over, at most. */
  function CallLeft(at: CallAt): nat {
    match at
    case CheckingThread => 6
    case Storing => 5
    case Queueing(_) => 4
    case Selecting(_) => 3
    case Deleting(_) => 2
    case Rechecking => 1
    case Answered(_) => 0
    case Asking => 3
    case AwaitingStart => 2
    case LoadingUsable => 1
  }

  /** The steps from k up to j that caller c takes. */
  function CallSteps(steps: seq<Step>, k: nat, j: nat, c: nat): nat
    requires k <= j <= |steps|
  {
    if k == j then 0
    else CallSteps(steps, k, j - 1, c) + if steps[j - 1].CallerMoves? && steps[j - 1].caller == c then 1 else 0
  }

  /** Call c is on another thread than the loop's, which is over. */
  predicate OnItsOwn(s: State, c: nat) {
    s.loop.Over? && c < |s.callers| && !s.callers[c].onLoop
  }

  /** Once the loop is over, nothing runs any more and a call on another thread only runs down, step by step. */
  predicate Falls(s: State, step: Step, t: State, c: nat) {
    OnItsOwn(s, c) ==>
      && OnItsOwn(t, c) && t.callers[c].ended == s.callers[c].ended
      && CallLeft(t.callers[c].at) + (if step.CallerMoves? && step.caller == c then 1 else 0)
         <= CallLeft(s.callers[c].at)
  }

  lemma CallRunsDown(s: State, step: Step, c: nat)
    requires Inv(s) && Enabled(s, step)
    ensures Falls(s, step, Apply(s, step), c)
  {
  }

  lemma RunFalls(states: seq<State>, steps: seq<Step>, k: nat, c: nat)
    requires Run(states, steps) && k < |steps|
    ensures Falls(states[k], steps[k], states[k + 1], c)
  {
    RunKeeps(states, steps, k);
    CallRunsDown(states[k], steps[k], c);
  }

  lemma {:induction false} CallFalls(states: seq<State>, steps: seq<Step>, k: nat, j: nat, c: nat)
    requires |states| == |steps| + 1 && k <= j < |states| && OnItsOwn(states[k], c)
    requires forall i :: k <= i < j ==> Falls(states[i], steps[i], states[i + 1], c)
    ensures OnItsOwn(states[j], c) && states[j].callers[c].ended == states[k].callers[c].ended
    ensures CallLeft(states[j].callers[c].at) + CallSteps(steps, k, j, c) <= CallLeft(states[k].callers[c].at)
  {
    if k < j {
      CallFalls(states, steps, k, j - 1, c);
      assert Falls(states[j - 1], steps[j - 1], states[j], c);
    }
  }

  lemma CallCanMove(s: State, c: nat)
    requires Inv(s) && OnItsOwn(s, c)
    ensures CallLeft(s.callers[c].at) > 0 ==> CallerReady(s, c, false)
    ensures s.callers[c].at.Answered? ==> (s.callers[c].at.ran <==> s.callers[c].ended == 1)
  {
    assert CallerOk(s, c);
  }

  lemma {:induction false} RunCallFalls(states: seq<State>, steps: seq<Step>, k: nat, j: nat, c: nat)
    requires Run(states, steps) && k <= j < |states| && OnItsOwn(states[k], c)
    ensures OnItsOwn(states[j], c) && states[j].callers[c].ended == states[k].callers[c].ended
    ensures CallLeft(states[j].callers[c].at) + CallSteps(steps, k, j, c) <= CallLeft(states[k].callers[c].at)
  {
    forall i | k <= i < j ensures Falls(states[i], steps[i], states[i + 1], c) {
      RunFalls(states, steps, i, c);
    }
    CallFalls(states, steps, k, j, c);
  }

  lemma RunCallCanMove(states: seq<State>, steps: seq<Step>, k: nat, c: nat)
    requires Run(states, steps) && k < |states| && OnItsOwn(states[k], c)
    ensures var me := states[k].callers[c];
            && (me.at.Answered? ==> (me.at.ran <==> me.ended == 1))
            && (!me.at.Answered? ==> CallerReady(states[k], c, false))
  {
    RunKeeps(states, steps, k);
    CallCanMove(states[k], c);
  }

  /**
   * A loop that has stopped hangs nobody: wherever a call stands by then, however the run goes on, it
   * takes at most six more steps (three, once it waits for its function), it can take the next one
   * whenever it has not answered, and it answers true exactly if its function had run by then.
   */
  lemma {:induction false} StoppedLoopHangsNobody(states: seq<State>, steps: seq<Step>, k: nat, j: nat, c: nat)
    requires Run(states, steps) && k <= j < |states| && OnItsOwn(states[k], c)
    ensures OnItsOwn(states[j], c)
    ensures var me, was := states[j].callers[c], states[k].callers[c];
            && me.ended == was.ended
            && CallLeft(me.at) + CallSteps(steps, k, j, c) <= CallLeft(was.at) <= 6
            && (!me.at.Answered? ==> CallerReady(states[j], c, false))
            && (me.at.Answered? ==> (me.at.ran <==> was.ended == 1))
  {
    RunCallFalls(states, steps, k, j, c);
    RunCallCanMove(states, steps, j, c);
  }
}
