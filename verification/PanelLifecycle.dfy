/**
 * The panel lifecycle of sidecar/panels_runtime.go as a step system: Spawn callers, one runner
 * goroutine per panel with its close watcher and reveal timer, Close callers, and windows that
 * the user closes. One step is one atomic action: one registry call under the registry lock,
 * one channel operation, or one closure on the window's thread. The service lock `s.mu` is a
 * field of the state and is a different lock from the registry's.
 */
module PanelLifecycle {
  import opened Options
  import opened PanelRegistry

  /** sharedLoop is panelSharedLoop; single holds ids that are never spawned multi-instance. */
  datatype Config = Config(sharedLoop: bool, single: set<Id>)

  /** Where the runner goroutine is; from StopHotkey on it is unwinding its defer chain. */
  datatype RunnerAt =
    | NotStarted
    | Creating
    | FailDelete | FailSignal
    | Setup
    | GoneDelete | GoneSignal | GoneReport
    | StartHotkey | StartWatch | SignalUp
    | Blocked | Report
    | StopHotkey | StopFollow | CloseDone | DeferDelete
    | JoinWatch | JoinReveal | DestroyEngine | Exited

  datatype Watcher = WatchOff | WatchTicking | WatchDeciding | WatchPosting | WatchOver

  datatype Timer = TimerOff | TimerArmed | TimerPosting | TimerOver

  /** How often each of the panel's channels was closed, and the sync.Once that guards uiClosed. */
  datatype Channels = Channels(ready: nat, done: nat, uiClosed: nat, uiOnce: bool)

  /** The webview and its window; hadWindow says that setup found a window. */
  datatype Native = Native(createFailed: bool, engine: bool, window: bool, hadWindow: bool, watchingClose: bool)

  /**
   * What still holds the engine during the teardown. touchedFreed records that the close watcher or
   * the reveal timer dispatched into an engine already destroyed, lateClose that a Close used one.
   */
  datatype Holders = Holders(
    hotkey: bool, followStopped: bool, watcher: Watcher, watchStop: bool, timer: Timer, revealStop: bool,
    destroyed: bool, touchedFreed: bool, lateClose: bool)

  /** One *panelImpl with its goroutines; deleted records that the runner has reached its first deleteIf. */
  datatype Panel = Panel(id: Id, at: RunnerAt, deleted: bool, chans: Channels, native: Native, held: Holders)

  function NewPanel(id: Id): Panel {
    Panel(id, NotStarted, false,
          Channels(0, 0, 0, false),
          Native(false, false, false, false, false),
          Holders(false, false, WatchOff, false, TimerOff, false, false, false, false))
  }

  /** What Spawn tells its caller. AlreadyOpen carries the panel whose entry the caller read. */
  datatype Answer = MissingUrl | AlreadyOpen(seen: Handle, becauseReady: bool) | CreateFailed | Opened

  datatype SpawnAt =
    | Start
    | WantLock
    | Lookup
    | Inspect(seen: Handle)
    | Await(seen: Handle)
    | Insert
    | Launch(own: Handle)
    | AwaitOwn(own: Handle)
    | Answered(answer: Answer)

  datatype Caller = Caller(id: Id, multi: bool, hasUrl: bool, at: SpawnAt)

  datatype CloseAt =
    | Find
    | LoadEngine(target: Handle)
    | CloseWindow(target: Handle)
    | SignalClosed(target: Handle)
    | CloseReturned(known: bool)

  datatype Closer = Closer(id: Id, at: CloseAt)

  datatype State = State(
    registry: Entries, lock: Option<nat>,
    panels: seq<Panel>, callers: seq<Caller>, closers: seq<Closer>)

  const INIT := State(map[], None, [], [], [])

  /** One atomic action; `choice` resolves what the outside world decides at that point. */
  datatype Step =
    | SpawnArrives(id: Id, multi: bool, hasUrl: bool)
    | SpawnMoves(caller: nat, choice: bool)
    | RunnerMoves(panel: Handle, choice: bool)
    | WatcherMoves(panel: Handle, choice: bool)
    | TimerMoves(panel: Handle, choice: bool)
    | UserClosesWindow(panel: Handle)
    | CloseArrives(id: Id)
    | CloseMoves(closer: nat)

  // ---- One panel ----

  /** The deferred calls after close(done). */
  predicate AfterDone(at: RunnerAt) {
    at.DeferDelete? || at.JoinWatch? || at.JoinReveal? || at.DestroyEngine? || at.Exited?
  }

  predicate Unwinding(at: RunnerAt) {
    at.StopHotkey? || at.StopFollow? || at.CloseDone? || AfterDone(at)
  }

  predicate Deletes(at: RunnerAt) {
    at.FailDelete? || at.GoneDelete? || at.DeferDelete?
  }

  /** uiCloseOnce.Do(close(uiClosed)). */
  function SignalUiClosed(c: Channels): Channels {
    if c.uiOnce then c else c.(uiOnce := true, uiClosed := c.uiClosed + 1)
  }

  /** The window is gone; once the close watch is registered its signal fires with it. */
  function LoseWindow(p: Panel): Panel {
    p.(native := p.native.(window := false),
       chans := if p.native.watchingClose then SignalUiClosed(p.chans) else p.chans)
  }

  /** A Close asks the engine for its window or dispatches into it. */
  function UseEngine(p: Panel): Panel {
    p.(held := p.held.(lateClose := p.held.lateClose || p.held.destroyed))
  }

  /** Whether the runner can move: it waits for its start, s.mu, uiClosed and the goroutines it joins. */
  predicate RunnerReady(sharedLoop: bool, lockFree: bool, p: Panel) {
    match p.at
    case NotStarted => false
    case GoneReport => lockFree
    case Blocked => sharedLoop ==> p.chans.uiClosed > 0
    case Report => lockFree
    case JoinWatch => p.held.watchStop ==> p.held.watcher.WatchOff? || p.held.watcher.WatchOver?
    case JoinReveal => p.held.revealStop ==> p.held.timer.TimerOff? || p.held.timer.TimerOver?
    case Exited => false
    case _ => true
  }

  /** Setup on the shared loop found the window already gone. */
  predicate WindowLost(sharedLoop: bool, p: Panel) {
    p.at.Setup? && sharedLoop && !p.native.window
  }

  /** Where the runner goes next, in the order of the source's statements and then of its defers. */
  function RunnerNextAt(sharedLoop: bool, p: Panel, choice: bool): RunnerAt {
    match p.at
    case NotStarted => NotStarted
    case Creating => if choice then Setup else FailDelete
    case FailDelete => FailSignal
    case FailSignal => StopHotkey
    case Setup => if WindowLost(sharedLoop, p) then GoneDelete else StartHotkey
    case GoneDelete => GoneSignal
    case GoneSignal => GoneReport
    case GoneReport => StopHotkey
    case StartHotkey => StartWatch
    case StartWatch => SignalUp
    case SignalUp => Blocked
    case Blocked => Report
    case Report => StopHotkey
    case StopHotkey => StopFollow
    case StopFollow => CloseDone
    case CloseDone => DeferDelete
    case DeferDelete => JoinWatch
    case JoinWatch => if p.held.watchStop then JoinReveal else JoinWatch
    case JoinReveal => if p.held.revealStop then DestroyEngine else JoinReveal
    case DestroyEngine => Exited
    case Exited => Exited
  }

  function RunnerNextChannels(sharedLoop: bool, p: Panel): Channels {
    if p.at.FailSignal? || p.at.GoneSignal? || p.at.SignalUp? then p.chans.(ready := p.chans.ready + 1)
    else if WindowLost(sharedLoop, p) then SignalUiClosed(p.chans)
    else if p.at.CloseDone? then p.chans.(done := p.chans.done + 1)
    else p.chans
  }

  function RunnerNextNative(sharedLoop: bool, p: Panel, choice: bool): Native {
    if p.at.Creating? then
      if choice then p.native.(engine := true, window := true) else p.native.(createFailed := true)
    else if p.at.Setup? && !WindowLost(sharedLoop, p) then
      p.native.(hadWindow := p.native.window, watchingClose := sharedLoop)
    else p.native
  }

  function RunnerNextHolders(sharedLoop: bool, p: Panel, choice: bool): Holders {
    match p.at
    case Setup => if choice && p.native.window then p.held.(timer := TimerArmed) else p.held
    case StartHotkey => p.held.(hotkey := choice)
    case StartWatch => p.held.(watcher := WatchTicking)
    case StopHotkey => p.held.(hotkey := false)
    case StopFollow => p.held.(followStopped := true)
    case JoinWatch => p.held.(watchStop := true)
    case JoinReveal => p.held.(revealStop := true)
    case DestroyEngine => p.held.(destroyed := p.native.engine && !sharedLoop)
    case _ => p.held
  }

  /**
   * The runner's next action on its own panel. `choice` is whether the webview could be created,
   * whether the panel starts hidden (and so gets a reveal timer), or whether the hotkey registered.
   */
  function RunnerNext(sharedLoop: bool, p: Panel, choice: bool): Panel {
    Panel(p.id, RunnerNextAt(sharedLoop, p, choice), p.deleted || Deletes(p.at),
          RunnerNextChannels(sharedLoop, p), RunnerNextNative(sharedLoop, p, choice),
          RunnerNextHolders(sharedLoop, p, choice))
  }

  /** The close watcher goroutine; `choice` lets it notice a stop it has been sent. */
  predicate WatcherReady(p: Panel, choice: bool) {
    match p.held.watcher
    case WatchTicking => if choice then p.held.watchStop || p.chans.done > 0 else !p.native.window
    case WatchDeciding => true
    case WatchPosting => true
    case _ => false
  }

  function WatcherNext(sharedLoop: bool, p: Panel, choice: bool): Panel {
    match p.held.watcher
    case WatchTicking => p.(held := p.held.(watcher := if choice then WatchOver else WatchDeciding))
    case WatchDeciding =>
      if p.held.watchStop || p.chans.done > 0 then p.(held := p.held.(watcher := WatchOver))
      else if sharedLoop then p.(chans := SignalUiClosed(p.chans), held := p.held.(watcher := WatchOver))
      else p.(held := p.held.(watcher := WatchPosting))
    case WatchPosting =>
      p.(held := p.held.(touchedFreed := p.held.touchedFreed || p.held.destroyed, watcher := WatchOver))
    case _ => p
  }

  /** The reveal timer goroutine; `choice` lets it notice that it was cancelled. */
  predicate TimerReady(p: Panel, choice: bool) {
    match p.held.timer
    case TimerArmed => choice ==> p.held.revealStop
    case TimerPosting => true
    case _ => false
  }

  function TimerNext(p: Panel, choice: bool): Panel {
    match p.held.timer
    case TimerArmed => p.(held := p.held.(timer := if choice then TimerOver else TimerPosting))
    case TimerPosting =>
      p.(held := p.held.(touchedFreed := p.held.touchedFreed || p.held.destroyed, timer := TimerOver))
    case _ => p
  }

  // ---- The whole system ----

  predicate SpawnReady(s: State, c: nat, choice: bool) {
    c < |s.callers| &&
    match s.callers[c].at
    case WantLock => s.lock.None?
    case Inspect(p) => p < |s.panels|
    case Await(p) => p < |s.panels| && (choice || s.panels[p].chans.ready > 0)
    case Launch(h) => h < |s.panels|
    case AwaitOwn(h) => h < |s.panels| && (choice || s.panels[h].chans.ready > 0)
    case Answered(_) => false
    case _ => true
  }

  /**
   * Spawn: the wait loop under s.mu, the insertion, and the wait for the new panel. `choice` is
   * that the deadline or the timeout of the current wait has passed.
   */
  function SpawnNextAt(s: State, c: nat, choice: bool): SpawnAt
    requires SpawnReady(s, c, choice)
  {
    var caller := s.callers[c];
    match caller.at
    case Start => if caller.hasUrl then WantLock else Answered(MissingUrl)
    case WantLock => if caller.multi then Insert else Lookup
    case Lookup => if caller.id in s.registry then Inspect(s.registry[caller.id]) else Insert
    case Inspect(p) =>
      if s.panels[p].chans.ready > 0 then Answered(AlreadyOpen(p, true))
      else if choice then Answered(AlreadyOpen(p, false))
      else Await(p)
    case Await(_) => WantLock
    case Insert => Launch(|s.panels|)
    case Launch(h) => AwaitOwn(h)
    case AwaitOwn(h) =>
      if !choice && s.panels[h].native.createFailed then Answered(CreateFailed) else Answered(Opened)
    case Answered(a) => Answered(a)
  }

  /** s.mu is taken at WantLock and given up when the wait starts, the answer is known, or the runner is launched. */
  function SpawnNextLock(s: State, c: nat): Option<nat>
    requires c < |s.callers|
  {
    var at := s.callers[c].at;
    if at.WantLock? then Some(c) else if at.Inspect? || at.Launch? then None else s.lock
  }

  function SpawnNextPanels(s: State, c: nat): seq<Panel>
    requires c < |s.callers| && (s.callers[c].at.Launch? ==> s.callers[c].at.own < |s.panels|)
  {
    var caller := s.callers[c];
    if caller.at.Insert? then s.panels + [NewPanel(caller.id)]
    else if caller.at.Launch? then s.panels[caller.at.own := s.panels[caller.at.own].(at := Creating)]
    else s.panels
  }

  function SpawnNext(s: State, c: nat, choice: bool): State
    requires SpawnReady(s, c, choice)
  {
    var caller := s.callers[c];
    State(if caller.at.Insert? then s.registry[caller.id := |s.panels|] else s.registry,
          SpawnNextLock(s, c),
          SpawnNextPanels(s, c),
          s.callers[c := caller.(at := SpawnNextAt(s, c, choice))],
          s.closers)
  }

  predicate CloseReady(s: State, k: nat) {
    k < |s.closers| &&
    match s.closers[k].at
    case Find => true
    case CloseReturned(_) => false
    case LoadEngine(p) => p < |s.panels|
    case CloseWindow(p) => p < |s.panels|
    case SignalClosed(p) => p < |s.panels|
  }

  /**
   * Close, with the engine it has loaded: it destroys the window and then, on the shared loop,
   * signals, off it dispatches a quit to a loop that may return at any time anyway.
   */
  function CloseNext(cfg: Config, s: State, k: nat): State
    requires CloseReady(s, k)
  {
    var closer := s.closers[k];
    match closer.at
    case Find =>
      s.(closers := s.closers[k := closer.(at :=
        if closer.id in s.registry then LoadEngine(s.registry[closer.id]) else CloseReturned(false))])
    case LoadEngine(p) =>
      s.(closers := s.closers[k := closer.(at :=
        if s.panels[p].native.engine then CloseWindow(p) else CloseReturned(true))])
    case CloseWindow(p) =>
      s.(panels := s.panels[p := UseEngine(LoseWindow(s.panels[p]))],
         closers := s.closers[k := closer.(at := SignalClosed(p))])
    case SignalClosed(p) =>
      var q := if cfg.sharedLoop then s.panels[p].(chans := SignalUiClosed(s.panels[p].chans)) else UseEngine(s.panels[p]);
      s.(panels := s.panels[p := q], closers := s.closers[k := closer.(at := CloseReturned(true))])
    case CloseReturned(_) => s
  }

  predicate Enabled(cfg: Config, s: State, step: Step) {
    match step
    case SpawnArrives(id, multi, hasUrl) => multi ==> id !in cfg.single
    case SpawnMoves(c, choice) => SpawnReady(s, c, choice)
    case RunnerMoves(h, choice) => h < |s.panels| && RunnerReady(cfg.sharedLoop, s.lock.None?, s.panels[h])
    case WatcherMoves(h, choice) => h < |s.panels| && WatcherReady(s.panels[h], choice)
    case TimerMoves(h, choice) => h < |s.panels| && TimerReady(s.panels[h], choice)
    case UserClosesWindow(h) => h < |s.panels| && s.panels[h].native.window
    case CloseArrives(id) => true
    case CloseMoves(k) => CloseReady(s, k)
  }

  function Apply(cfg: Config, s: State, step: Step): State
    requires Enabled(cfg, s, step)
  {
    match step
    case SpawnArrives(id, multi, hasUrl) => s.(callers := s.callers + [Caller(id, multi, hasUrl, Start)])
    case SpawnMoves(c, choice) => SpawnNext(s, c, choice)
    case RunnerMoves(h, choice) =>
      var p := s.panels[h];
      s.(panels := s.panels[h := RunnerNext(cfg.sharedLoop, p, choice)],
         registry := if Deletes(p.at) then DeleteIf(s.registry, p.id, h) else s.registry)
    case WatcherMoves(h, choice) =>
      s.(panels := s.panels[h := WatcherNext(cfg.sharedLoop, s.panels[h], choice)])
    case TimerMoves(h, choice) => s.(panels := s.panels[h := TimerNext(s.panels[h], choice)])
    case UserClosesWindow(h) => s.(panels := s.panels[h := LoseWindow(s.panels[h])])
    case CloseArrives(id) => s.(closers := s.closers + [Closer(id, Find)])
    case CloseMoves(k) => CloseNext(cfg, s, k)
  }

  /** states[k] is the state before steps[k]. */
  ghost predicate Run(cfg: Config, states: seq<State>, steps: seq<Step>) {
    && |states| == |steps| + 1
    && states[0] == INIT
    && forall k :: 0 <= k < |steps| ==>
         Enabled(cfg, states[k], steps[k]) && states[k + 1] == Apply(cfg, states[k], steps[k])
  }

  // ---- Invariants ----

  predicate Signalled(at: RunnerAt) {
    at.GoneReport? || at.Blocked? || at.Report? || Unwinding(at)
  }

  /** Each channel has been closed exactly as often as the runner's position says. */
  predicate ChannelsOk(at: RunnerAt, c: Channels) {
    && c.ready == (if Signalled(at) then 1 else 0)
    && c.done == (if AfterDone(at) then 1 else 0)
    && c.uiClosed == (if c.uiOnce then 1 else 0)
  }

  predicate Serving(at: RunnerAt) {
    at.StartHotkey? || at.StartWatch? || at.SignalUp? || at.Blocked? || at.Report?
  }

  /** The creation did not fail and, on the shared loop, setup found the window. */
  predicate CameUp(sharedLoop: bool, n: Native) {
    !n.createFailed && (sharedLoop ==> n.hadWindow)
  }

  /** Past the deferred deleteIf. */
  predicate GaveUpEntry(at: RunnerAt) {
    AfterDone(at) && !at.DeferDelete?
  }

  /** What a panel whose entry may still be registered stands for. */
  predicate CreationOk(sharedLoop: bool, at: RunnerAt, deleted: bool, n: Native) {
    && (at.NotStarted? || at.Creating? ==> !deleted && !n.createFailed && !n.engine)
    && (at.FailDelete? || at.FailSignal? ==> n.createFailed && !n.engine)
    && (at.Setup? || at.GoneDelete? || at.GoneSignal? || at.GoneReport? || Serving(at) ==> !n.createFailed && n.engine)
    && (at.FailDelete? || at.Setup? || at.GoneDelete? || Serving(at) ==> !deleted)
    && (at.FailSignal? || at.GoneSignal? || at.GoneReport? ==> deleted)
    && (GaveUpEntry(at) ==> deleted)
    && (at.Setup? ==> !n.hadWindow)
    && (at.NotStarted? || at.Creating? ==> !n.hadWindow)
    && (at.GoneDelete? || at.GoneSignal? || at.GoneReport? ==> sharedLoop && !n.hadWindow)
    && (Serving(at) ==> sharedLoop ==> n.hadWindow)
    && (Unwinding(at) && deleted && !GaveUpEntry(at) ==> !CameUp(sharedLoop, n))
    && (Unwinding(at) && !deleted ==> n.engine && CameUp(sharedLoop, n))
  }

  /** The goroutines and the hotkey that still hold the engine at each point of the teardown. */
  predicate HoldersOk(sharedLoop: bool, at: RunnerAt, h: Holders) {
    && (!h.watcher.WatchOff? ==> at.SignalUp? || at.Blocked? || at.Report? || Unwinding(at))
    && (!h.timer.TimerOff? ==> Serving(at) || Unwinding(at))
    && (at.JoinReveal? || at.DestroyEngine? || at.Exited? ==> h.watcher.WatchOff? || h.watcher.WatchOver?)
    && (at.DestroyEngine? || at.Exited? ==> h.timer.TimerOff? || h.timer.TimerOver?)
    && (h.hotkey ==> Serving(at) || at.StopHotkey?)
    && (at.CloseDone? || AfterDone(at) ==> h.followStopped)
    && (h.destroyed ==> at.Exited? && !sharedLoop)
    && (h.watchStop ==> at.JoinWatch? || at.JoinReveal? || at.DestroyEngine? || at.Exited?)
    && (h.revealStop ==> at.JoinReveal? || at.DestroyEngine? || at.Exited?)
    && (h.lateClose ==> h.destroyed)
    && !h.touchedFreed
  }

  /** On the shared loop a window gone after setup has signalled uiClosed, and only that ends a panel. */
  predicate WindowOk(sharedLoop: bool, at: RunnerAt, deleted: bool, c: Channels, n: Native) {
    sharedLoop ==>
      && (Serving(at) ==> n.watchingClose)
      && (n.watchingClose && !n.window ==> c.uiClosed > 0)
      && (at.GoneDelete? || at.Report? || (Unwinding(at) && !deleted) ==> c.uiClosed > 0)
  }

  /** What holds of one panel, whatever the other actors do. */
  ghost predicate PanelOk(sharedLoop: bool, p: Panel) {
    && ChannelsOk(p.at, p.chans)
    && WindowOk(sharedLoop, p.at, p.deleted, p.chans, p.native)
    && CreationOk(sharedLoop, p.at, p.deleted, p.native)
    && HoldersOk(sharedLoop, p.at, p.held)
    && (p.at.Exited? && !sharedLoop ==> p.held.destroyed == p.native.engine)
  }

  predicate HoldsLock(at: SpawnAt) {
    at.Lookup? || at.Inspect? || at.Insert? || at.Launch?
  }

  ghost predicate CallerOk(cfg: Config, s: State, c: nat)
    requires c < |s.callers|
  {
    var caller := s.callers[c];
    && (HoldsLock(caller.at) <==> s.lock == Some(c))
    && (caller.multi ==> caller.id !in cfg.single)
    && (caller.at.Insert? && caller.id in cfg.single ==> caller.id !in s.registry)
    && (caller.at.Inspect? ==> caller.at.seen < |s.panels| && s.panels[caller.at.seen].id == caller.id)
    && (caller.at.Await? ==> caller.at.seen < |s.panels|)
    && (caller.at.Launch? ==> caller.at.own < |s.panels| && s.panels[caller.at.own].at.NotStarted?)
    && (caller.at.AwaitOwn? ==> caller.at.own < |s.panels|)
  }

  /** An entry belongs to a panel of that id that has not reached its first deleteIf. */
  ghost predicate EntryOk(s: State, id: Id)
    requires id in s.registry
  {
    var h := s.registry[id];
    h < |s.panels| && s.panels[h].id == id && !s.panels[h].deleted
  }

  predicate Registered(s: State, h: Handle)
    requires h < |s.panels|
  {
    s.panels[h].id in s.registry && s.registry[s.panels[h].id] == h
  }

  ghost predicate Inv(cfg: Config, s: State) {
    && (forall h :: 0 <= h < |s.panels| ==> PanelOk(cfg.sharedLoop, s.panels[h]))
    && (forall id :: id in s.registry ==> EntryOk(s, id))
    && (forall h :: 0 <= h < |s.panels| && s.panels[h].id in cfg.single && !s.panels[h].deleted ==> Registered(s, h))
    && (forall c :: 0 <= c < |s.callers| ==> CallerOk(cfg, s, c))
    && (s.lock.Some? ==> s.lock.value < |s.callers|)
  }

  lemma RunnerKeepsChannels(sharedLoop: bool, p: Panel, choice: bool)
    requires ChannelsOk(p.at, p.chans) && !p.at.NotStarted?
    ensures ChannelsOk(RunnerNextAt(sharedLoop, p, choice), RunnerNextChannels(sharedLoop, p))
  {
  }

  lemma RunnerKeepsCreation(sharedLoop: bool, p: Panel, choice: bool)
    requires CreationOk(sharedLoop, p.at, p.deleted, p.native) && !p.at.NotStarted?
    ensures CreationOk(sharedLoop, RunnerNextAt(sharedLoop, p, choice), p.deleted || Deletes(p.at),
                       RunnerNextNative(sharedLoop, p, choice))
  {
  }

  lemma RunnerKeepsHolders(sharedLoop: bool, lockFree: bool, p: Panel, choice: bool)
    requires HoldersOk(sharedLoop, p.at, p.held) && RunnerReady(sharedLoop, lockFree, p)
    ensures HoldersOk(sharedLoop, RunnerNextAt(sharedLoop, p, choice), RunnerNextHolders(sharedLoop, p, choice))
  {
  }

  lemma RunnerKeepsWindow(sharedLoop: bool, lockFree: bool, p: Panel, choice: bool)
    requires PanelOk(sharedLoop, p) && RunnerReady(sharedLoop, lockFree, p)
    ensures WindowOk(sharedLoop, RunnerNextAt(sharedLoop, p, choice), p.deleted || Deletes(p.at),
                     RunnerNextChannels(sharedLoop, p), RunnerNextNative(sharedLoop, p, choice))
  {
  }

  lemma RunnerKeepsPanel(sharedLoop: bool, lockFree: bool, p: Panel, choice: bool)
    requires PanelOk(sharedLoop, p) && RunnerReady(sharedLoop, lockFree, p)
    ensures PanelOk(sharedLoop, RunnerNext(sharedLoop, p, choice))
  {
    RunnerKeepsChannels(sharedLoop, p, choice);
    RunnerKeepsCreation(sharedLoop, p, choice);
    RunnerKeepsHolders(sharedLoop, lockFree, p, choice);
    RunnerKeepsWindow(sharedLoop, lockFree, p, choice);
  }

  lemma WatcherKeepsPanel(sharedLoop: bool, p: Panel, choice: bool)
    requires PanelOk(sharedLoop, p) && WatcherReady(p, choice)
    ensures PanelOk(sharedLoop, WatcherNext(sharedLoop, p, choice))
    ensures SameEntry(p, WatcherNext(sharedLoop, p, choice))
  {
  }

  lemma TimerKeepsPanel(sharedLoop: bool, p: Panel, choice: bool)
    requires PanelOk(sharedLoop, p) && TimerReady(p, choice)
    ensures PanelOk(sharedLoop, TimerNext(p, choice)) && SameEntry(p, TimerNext(p, choice))
  {
  }

  lemma ClosingKeepsPanel(sharedLoop: bool, p: Panel)
    requires PanelOk(sharedLoop, p)
    ensures PanelOk(sharedLoop, LoseWindow(p)) && SameEntry(p, LoseWindow(p))
    ensures PanelOk(sharedLoop, p.(chans := SignalUiClosed(p.chans)))
    ensures PanelOk(sharedLoop, UseEngine(p)) && PanelOk(sharedLoop, UseEngine(LoseWindow(p)))
  {
  }

  /** The parts of a panel that the registry and the callers look at. */
  predicate SameEntry(p: Panel, q: Panel) {
    q.id == p.id && q.deleted == p.deleted && q.at == p.at
  }

  /** A step on one panel that its entry does not show, together with any step of a Close caller. */
  lemma PanelStepKeeps(cfg: Config, s: State, t: State, h: Handle)
    requires Inv(cfg, s) && h < |s.panels| == |t.panels|
    requires t == s.(panels := s.panels[h := t.panels[h]], closers := t.closers)
    requires PanelOk(cfg.sharedLoop, t.panels[h]) && SameEntry(s.panels[h], t.panels[h])
    ensures Inv(cfg, t)
  {
    forall id | id in t.registry ensures EntryOk(t, id) {
      assert EntryOk(s, id);
    }
    forall c | 0 <= c < |t.callers| ensures CallerOk(cfg, t, c) {
      assert CallerOk(cfg, s, c);
    }
    forall k | 0 <= k < |t.panels| && t.panels[k].id in cfg.single && !t.panels[k].deleted ensures Registered(t, k) {
      assert Registered(s, k);
    }
  }

  lemma RunnerKeepsEntries(cfg: Config, s: State, h: Handle, choice: bool)
    requires Inv(cfg, s) && Enabled(cfg, s, RunnerMoves(h, choice))
    ensures var t := Apply(cfg, s, RunnerMoves(h, choice));
            && (forall id :: id in t.registry ==> EntryOk(t, id))
            && (forall k :: 0 <= k < |t.panels| && t.panels[k].id in cfg.single && !t.panels[k].deleted ==> Registered(t, k))
  {
    var t := Apply(cfg, s, RunnerMoves(h, choice));
    forall id | id in t.registry ensures EntryOk(t, id) {
      assert EntryOk(s, id);
    }
    forall k | 0 <= k < |t.panels| && t.panels[k].id in cfg.single && !t.panels[k].deleted ensures Registered(t, k) {
      assert Registered(s, k);
    }
  }

  lemma RunnerStepKeeps(cfg: Config, s: State, h: Handle, choice: bool)
    requires Inv(cfg, s) && Enabled(cfg, s, RunnerMoves(h, choice))
    ensures Inv(cfg, Apply(cfg, s, RunnerMoves(h, choice)))
  {
    RunnerKeepsPanel(cfg.sharedLoop, s.lock.None?, s.panels[h], choice);
    RunnerKeepsEntries(cfg, s, h, choice);
    var t := Apply(cfg, s, RunnerMoves(h, choice));
    forall c | 0 <= c < |t.callers| ensures CallerOk(cfg, t, c) {
      assert CallerOk(cfg, s, c);
    }
  }

  lemma SpawnMoveKeepsCallers(cfg: Config, s: State, c: nat, choice: bool)
    requires Inv(cfg, s) && SpawnReady(s, c, choice)
    requires !s.callers[c].at.Insert? && !s.callers[c].at.Launch?
    ensures var t := SpawnNext(s, c, choice);
            && (forall d :: 0 <= d < |t.callers| ==> CallerOk(cfg, t, d))
            && (t.lock.Some? ==> t.lock.value < |t.callers|)
  {
    var t := SpawnNext(s, c, choice);
    assert CallerOk(cfg, s, c);
    assert s.callers[c].id in s.registry ==> EntryOk(s, s.callers[c].id);
    forall d | 0 <= d < |t.callers| ensures CallerOk(cfg, t, d) {
      assert CallerOk(cfg, s, d);
    }
  }

  /** The steps of Spawn that touch neither the registry nor a panel. */
  lemma SpawnMoveKeeps(cfg: Config, s: State, c: nat, choice: bool)
    requires Inv(cfg, s) && SpawnReady(s, c, choice)
    requires !s.callers[c].at.Insert? && !s.callers[c].at.Launch?
    ensures Inv(cfg, SpawnNext(s, c, choice))
  {
    var t := SpawnNext(s, c, choice);
    SpawnMoveKeepsCallers(cfg, s, c, choice);
    assert t.registry == s.registry && t.panels == s.panels;
    forall id | id in t.registry ensures EntryOk(t, id) {
      assert EntryOk(s, id);
    }
    forall k | 0 <= k < |t.panels| && t.panels[k].id in cfg.single && !t.panels[k].deleted ensures Registered(t, k) {
      assert Registered(s, k);
    }
  }

  lemma SpawnInsertKeeps(cfg: Config, s: State, c: nat, choice: bool)
    requires Inv(cfg, s) && SpawnReady(s, c, choice)
    requires s.callers[c].at.Insert?
    ensures Inv(cfg, SpawnNext(s, c, choice))
  {
    var t := SpawnNext(s, c, choice);
    assert CallerOk(cfg, s, c);
    forall id | id in t.registry ensures EntryOk(t, id) {
      assert id in s.registry ==> EntryOk(s, id);
    }
    forall d | 0 <= d < |t.callers| ensures CallerOk(cfg, t, d) {
      assert CallerOk(cfg, s, d);
    }
    forall k | 0 <= k < |t.panels| && t.panels[k].id in cfg.single && !t.panels[k].deleted ensures Registered(t, k) {
      assert k < |s.panels| ==> Registered(s, k);
    }
  }

  lemma SpawnLaunchKeeps(cfg: Config, s: State, c: nat, choice: bool)
    requires Inv(cfg, s) && SpawnReady(s, c, choice)
    requires s.callers[c].at.Launch?
    ensures Inv(cfg, SpawnNext(s, c, choice))
  {
    var t := SpawnNext(s, c, choice);
    assert CallerOk(cfg, s, c);
    forall id | id in t.registry ensures EntryOk(t, id) {
      assert EntryOk(s, id);
    }
    forall d | 0 <= d < |t.callers| ensures CallerOk(cfg, t, d) {
      assert CallerOk(cfg, s, d);
    }
    forall k | 0 <= k < |t.panels| && t.panels[k].id in cfg.single && !t.panels[k].deleted ensures Registered(t, k) {
      assert Registered(s, k);
    }
  }

  lemma ArrivalKeeps(cfg: Config, s: State, caller: Caller)
    requires Inv(cfg, s) && caller.at == Start && (caller.multi ==> caller.id !in cfg.single)
    ensures Inv(cfg, s.(callers := s.callers + [caller]))
  {
    var t := s.(callers := s.callers + [caller]);
    forall id | id in t.registry ensures EntryOk(t, id) {
      assert EntryOk(s, id);
    }
    forall c | 0 <= c < |t.callers| ensures CallerOk(cfg, t, c) {
      assert c < |s.callers| ==> CallerOk(cfg, s, c);
    }
    forall h | 0 <= h < |t.panels| && t.panels[h].id in cfg.single && !t.panels[h].deleted ensures Registered(t, h) {
      assert Registered(s, h);
    }
  }

  lemma ClosersOnly(cfg: Config, s: State, closers: seq<Closer>)
    requires Inv(cfg, s)
    ensures Inv(cfg, s.(closers := closers))
  {
    var t := s.(closers := closers);
    forall id | id in t.registry ensures EntryOk(t, id) {
      assert EntryOk(s, id);
    }
    forall c | 0 <= c < |t.callers| ensures CallerOk(cfg, t, c) {
      assert CallerOk(cfg, s, c);
    }
    forall h | 0 <= h < |t.panels| && t.panels[h].id in cfg.single && !t.panels[h].deleted ensures Registered(t, h) {
      assert Registered(s, h);
    }
  }

  lemma CloseKeeps(cfg: Config, s: State, k: nat)
    requires Inv(cfg, s) && CloseReady(s, k)
    ensures Inv(cfg, CloseNext(cfg, s, k))
  {
    var t := CloseNext(cfg, s, k);
    var at := s.closers[k].at;
    if at.CloseWindow? || at.SignalClosed? {
      ClosingKeepsPanel(cfg.sharedLoop, s.panels[at.target]);
      PanelStepKeeps(cfg, s, t, at.target);
    } else {
      ClosersOnly(cfg, s, t.closers);
    }
  }

  /** Every step of every actor keeps the invariant. */
  lemma StepKeeps(cfg: Config, s: State, step: Step)
    requires Inv(cfg, s) && Enabled(cfg, s, step)
    ensures Inv(cfg, Apply(cfg, s, step))
  {
    match step
    case SpawnArrives(id, multi, hasUrl) => ArrivalKeeps(cfg, s, Caller(id, multi, hasUrl, Start));
    case SpawnMoves(c, choice) =>
      if s.callers[c].at.Insert? {
        SpawnInsertKeeps(cfg, s, c, choice);
      } else if s.callers[c].at.Launch? {
        SpawnLaunchKeeps(cfg, s, c, choice);
      } else {
        SpawnMoveKeeps(cfg, s, c, choice);
      }
    case RunnerMoves(h, choice) => RunnerStepKeeps(cfg, s, h, choice);
    case WatcherMoves(h, choice) =>
      WatcherKeepsPanel(cfg.sharedLoop, s.panels[h], choice);
      PanelStepKeeps(cfg, s, Apply(cfg, s, step), h);
    case TimerMoves(h, choice) =>
      TimerKeepsPanel(cfg.sharedLoop, s.panels[h], choice);
      PanelStepKeeps(cfg, s, Apply(cfg, s, step), h);
    case UserClosesWindow(h) =>
      ClosingKeepsPanel(cfg.sharedLoop, s.panels[h]);
      PanelStepKeeps(cfg, s, Apply(cfg, s, step), h);
    case CloseArrives(id) => ClosersOnly(cfg, s, s.closers + [Closer(id, Find)]);
    case CloseMoves(k) => CloseKeeps(cfg, s, k);
  }

  lemma {:induction false} RunKeeps(cfg: Config, states: seq<State>, steps: seq<Step>, k: nat)
    requires Run(cfg, states, steps) && k < |states|
    ensures Inv(cfg, states[k])
  {
    if k > 0 {
      RunKeeps(cfg, states, steps, k - 1);
      StepKeeps(cfg, states[k - 1], steps[k - 1]);
    }
  }

  // ---- Main results ----

  /** Between its put and its own first deleteIf, a panel is the registry's entry for its id. */
  lemma LivePanelOwnsItsEntry(cfg: Config, states: seq<State>, steps: seq<Step>, k: nat, h: Handle)
    requires Run(cfg, states, steps) && k < |states|
    requires h < |states[k].panels|
    requires states[k].panels[h].id in cfg.single && !states[k].panels[h].deleted
    ensures Registered(states[k], h)
  {
    RunKeeps(cfg, states, steps, k);
  }

  lemma AtMostOneLivePanelPerId(cfg: Config, states: seq<State>, steps: seq<Step>, k: nat, g: Handle, h: Handle)
    requires Run(cfg, states, steps) && k < |states|
    requires g < |states[k].panels| && h < |states[k].panels|
    requires states[k].panels[g].id == states[k].panels[h].id && states[k].panels[g].id in cfg.single
    requires !states[k].panels[g].deleted && !states[k].panels[h].deleted
    ensures g == h
  {
    LivePanelOwnsItsEntry(cfg, states, steps, k, g);
    LivePanelOwnsItsEntry(cfg, states, steps, k, h);
  }

  lemma EntryAfterStep(cfg: Config, s: State, step: Step, id: Id)
    requires Inv(cfg, s) && Enabled(cfg, s, step) && id in s.registry
    ensures id !in Apply(cfg, s, step).registry ==>
              step.RunnerMoves? && step.panel == s.registry[id] && Deletes(s.panels[step.panel].at)
    ensures id in cfg.single && id in Apply(cfg, s, step).registry ==>
              Apply(cfg, s, step).registry[id] == s.registry[id]
  {
    assert EntryOk(s, id);
    if step.SpawnMoves? {
      assert CallerOk(cfg, s, step.caller);
    }
  }

  /**
   * An entry disappears only in a deleteIf of the panel it belongs to, and the entry of an id that
   * is never spawned multi-instance is never overwritten: a late teardown cannot touch a newer panel.
   */
  lemma EntryLeavesOnlyWithItsPanel(cfg: Config, states: seq<State>, steps: seq<Step>, k: nat, id: Id)
    requires Run(cfg, states, steps) && k < |steps|
    requires id in states[k].registry
    ensures id !in states[k + 1].registry ==>
              && steps[k].RunnerMoves? && steps[k].panel == states[k].registry[id]
              && steps[k].panel < |states[k].panels| && Deletes(states[k].panels[steps[k].panel].at)
    ensures id in cfg.single && id in states[k + 1].registry ==>
              states[k + 1].registry[id] == states[k].registry[id]
  {
    RunKeeps(cfg, states, steps, k);
    EntryAfterStep(cfg, states[k], steps[k], id);
  }

  /** A registered panel that has signalled ready is one whose creation and setup succeeded. */
  lemma ReadyEntryCameUp(cfg: Config, states: seq<State>, steps: seq<Step>, k: nat, id: Id)
    requires Run(cfg, states, steps) && k < |states|
    requires id in states[k].registry
    ensures var h := states[k].registry[id];
            && h < |states[k].panels|
            && (states[k].panels[h].chans.ready > 0 ==>
                  states[k].panels[h].native.engine && CameUp(cfg.sharedLoop, states[k].panels[h].native))
  {
    RunKeeps(cfg, states, steps, k);
    assert EntryOk(states[k], id);
    assert PanelOk(cfg.sharedLoop, states[k].panels[states[k].registry[id]]);
  }

  /** A second close of a channel would panic; none of the three is ever closed twice. */
  lemma ChannelsCloseAtMostOnce(cfg: Config, states: seq<State>, steps: seq<Step>, k: nat, h: Handle)
    requires Run(cfg, states, steps) && k < |states| && h < |states[k].panels|
    ensures var c := states[k].panels[h].chans; c.ready <= 1 && c.done <= 1 && c.uiClosed <= 1
  {
    RunKeeps(cfg, states, steps, k);
    assert PanelOk(cfg.sharedLoop, states[k].panels[h]);
  }

  /**
   * The engine is freed last: hotkey gone, follower stopped, done closed, entry given up, reveal
   * timer and close watcher over, and never on the shared loop. Neither goroutine dispatches into it later.
   */
  lemma EngineFreedLast(cfg: Config, states: seq<State>, steps: seq<Step>, k: nat, h: Handle)
    requires Run(cfg, states, steps) && k < |states| && h < |states[k].panels|
    ensures var p := states[k].panels[h];
            && !p.held.touchedFreed
            && (p.held.destroyed ==>
                  && !cfg.sharedLoop
                  && p.chans.done == 1
                  && !Registered(states[k], h)
                  && !p.held.hotkey && p.held.followStopped
                  && (p.held.watcher.WatchOff? || p.held.watcher.WatchOver?)
                  && (p.held.timer.TimerOff? || p.held.timer.TimerOver?))
  {
    RunKeeps(cfg, states, steps, k);
    assert PanelOk(cfg.sharedLoop, states[k].panels[h]);
    if Registered(states[k], h) {
      assert EntryOk(states[k], states[k].panels[h].id);
    }
  }

  // ---- "panel already exists" ----

  /** The panel is open: it has come up, its window is there, and nothing has ended its wait for the close. */
  predicate Up(sharedLoop: bool, p: Panel) {
    p.chans.ready > 0 && p.at.Blocked? && p.native.window && (sharedLoop ==> p.chans.uiClosed == 0)
  }

  /** These steps can be taken one after the other, and then panel h is up. */
  ghost predicate UpAfter(cfg: Config, s: State, steps: seq<Step>, h: Handle)
    decreases |steps|
  {
    if steps == [] then h < |s.panels| && Up(cfg.sharedLoop, s.panels[h])
    else Enabled(cfg, s, steps[0]) && UpAfter(cfg, Apply(cfg, s, steps[0]), steps[1..], h)
  }

  /** The panel is up or can still come up, whatever it takes. */
  ghost predicate CanBeUp(cfg: Config, s: State, h: Handle) {
    exists steps: seq<Step> :: UpAfter(cfg, s, steps, h)
  }

  /** The runner has found the window gone, or its wait for the close is over. */
  predicate Ended(at: RunnerAt) {
    at.GoneDelete? || at.GoneSignal? || at.GoneReport? || at.Report? || Unwinding(at)
  }

  /** Never to be open again: its creation failed, its window is gone, its close was signalled or its runner is past it. */
  predicate Down(sharedLoop: bool, p: Panel) {
    || p.native.createFailed
    || (p.native.engine && !p.native.window)
    || (sharedLoop && p.chans.uiClosed > 0)
    || Ended(p.at)
  }

  lemma RunnerStaysDown(sharedLoop: bool, lockFree: bool, p: Panel, choice: bool)
    requires PanelOk(sharedLoop, p) && RunnerReady(sharedLoop, lockFree, p) && Down(sharedLoop, p)
    ensures Down(sharedLoop, RunnerNext(sharedLoop, p, choice))
  {
  }

  /** What the other goroutines and the user do to a panel leaves it down. */
  lemma RestStaysDown(sharedLoop: bool, p: Panel, choice: bool)
    requires PanelOk(sharedLoop, p) && Down(sharedLoop, p)
    ensures Down(sharedLoop, WatcherNext(sharedLoop, p, choice)) && Down(sharedLoop, TimerNext(p, choice))
    ensures Down(sharedLoop, LoseWindow(p)) && Down(sharedLoop, UseEngine(LoseWindow(p)))
    ensures Down(sharedLoop, UseEngine(p)) && Down(sharedLoop, p.(chans := SignalUiClosed(p.chans)))
  {
  }

  lemma SpawnLeavesDown(cfg: Config, s: State, c: nat, choice: bool, h: Handle)
    requires Inv(cfg, s) && SpawnReady(s, c, choice) && h < |s.panels| && Down(cfg.sharedLoop, s.panels[h])
    ensures h < |SpawnNext(s, c, choice).panels| && Down(cfg.sharedLoop, SpawnNext(s, c, choice).panels[h])
  {
    assert CallerOk(cfg, s, c);
    assert PanelOk(cfg.sharedLoop, s.panels[h]);
  }

  lemma DownStaysInRunner(cfg: Config, s: State, g: Handle, choice: bool, h: Handle)
    requires Inv(cfg, s) && Enabled(cfg, s, RunnerMoves(g, choice)) && h < |s.panels| && Down(cfg.sharedLoop, s.panels[h])
    ensures var t := Apply(cfg, s, RunnerMoves(g, choice)); h < |t.panels| && Down(cfg.sharedLoop, t.panels[h])
  {
    assert PanelOk(cfg.sharedLoop, s.panels[g]);
    if g == h {
      RunnerStaysDown(cfg.sharedLoop, s.lock.None?, s.panels[h], choice);
    }
  }

  lemma DownStaysInGoroutines(cfg: Config, s: State, step: Step, h: Handle)
    requires Inv(cfg, s) && Enabled(cfg, s, step) && h < |s.panels| && Down(cfg.sharedLoop, s.panels[h])
    requires step.WatcherMoves? || step.TimerMoves?
    ensures h < |Apply(cfg, s, step).panels| && Down(cfg.sharedLoop, Apply(cfg, s, step).panels[h])
  {
    assert PanelOk(cfg.sharedLoop, s.panels[h]);
    RestStaysDown(cfg.sharedLoop, s.panels[h], step.choice);
  }

  lemma DownStaysInClose(cfg: Config, s: State, i: nat, h: Handle)
    requires Inv(cfg, s) && CloseReady(s, i) && h < |s.panels| && Down(cfg.sharedLoop, s.panels[h])
    ensures h < |CloseNext(cfg, s, i).panels| && Down(cfg.sharedLoop, CloseNext(cfg, s, i).panels[h])
  {
    assert PanelOk(cfg.sharedLoop, s.panels[h]);
    RestStaysDown(cfg.sharedLoop, s.panels[h], false);
  }

  lemma DownStays(cfg: Config, s: State, step: Step, h: Handle)
    requires Inv(cfg, s) && Enabled(cfg, s, step) && h < |s.panels| && Down(cfg.sharedLoop, s.panels[h])
    ensures h < |Apply(cfg, s, step).panels| && Down(cfg.sharedLoop, Apply(cfg, s, step).panels[h])
  {
    if step.SpawnMoves? {
      SpawnLeavesDown(cfg, s, step.caller, step.choice, h);
    } else if step.CloseMoves? {
      DownStaysInClose(cfg, s, step.closer, h);
    } else if step.RunnerMoves? {
      DownStaysInRunner(cfg, s, step.panel, step.choice, h);
    } else if step.WatcherMoves? || step.TimerMoves? {
      DownStaysInGoroutines(cfg, s, step, h);
    } else {
      assert PanelOk(cfg.sharedLoop, s.panels[h]);
      RestStaysDown(cfg.sharedLoop, s.panels[h], false);
    }
  }

  lemma {:induction false} DownIsNeverUp(cfg: Config, s: State, steps: seq<Step>, h: Handle)
    requires Inv(cfg, s) && h < |s.panels| && Down(cfg.sharedLoop, s.panels[h])
    ensures !UpAfter(cfg, s, steps, h)
    decreases |steps|
  {
    assert PanelOk(cfg.sharedLoop, s.panels[h]);
    if steps != [] && Enabled(cfg, s, steps[0]) {
      StepKeeps(cfg, s, steps[0]);
      DownStays(cfg, s, steps[0], h);
      DownIsNeverUp(cfg, Apply(cfg, s, steps[0]), steps[1..], h);
    }
  }

  /** How many steps the runner is away from signalling ready after a successful setup. */
  function ToReady(at: RunnerAt): nat {
    match at
    case Creating => 5
    case Setup => 4
    case StartHotkey => 3
    case StartWatch => 2
    case SignalUp => 1
    case _ => 0
  }

  /** A panel that is not down comes up if only its runner moves, with a webview that can be created. */
  lemma {:induction false} RunnerComesUp(cfg: Config, s: State, h: Handle) returns (steps: seq<Step>)
    requires Inv(cfg, s) && h < |s.panels| && !s.panels[h].at.NotStarted? && !Down(cfg.sharedLoop, s.panels[h])
    ensures UpAfter(cfg, s, steps, h)
    decreases ToReady(s.panels[h].at)
  {
    assert PanelOk(cfg.sharedLoop, s.panels[h]);
    if Up(cfg.sharedLoop, s.panels[h]) {
      steps := [];
    } else {
      var step := RunnerMoves(h, true);
      StepKeeps(cfg, s, step);
      var rest := RunnerComesUp(cfg, Apply(cfg, s, step), h);
      steps := [step] + rest;
      assert steps[1..] == rest;
    }
  }

  /** A panel whose runner has not been launched belongs to the caller that holds s.mu. */
  predicate LaunchPending(s: State, h: Handle) {
    h < |s.panels| && s.panels[h].at.NotStarted? ==>
      s.lock.Some? && s.lock.value < |s.callers| && s.callers[s.lock.value].at == Launch(h)
  }

  lemma SpawnKeepsLaunchPending(cfg: Config, s: State, c: nat, choice: bool, h: Handle)
    requires Inv(cfg, s) && SpawnReady(s, c, choice) && LaunchPending(s, h)
    ensures LaunchPending(SpawnNext(s, c, choice), h)
  {
    assert CallerOk(cfg, s, c);
    assert s.lock.Some? ==> CallerOk(cfg, s, s.lock.value);
  }

  lemma StepKeepsLaunchPending(cfg: Config, s: State, step: Step, h: Handle)
    requires Inv(cfg, s) && Enabled(cfg, s, step) && LaunchPending(s, h)
    ensures LaunchPending(Apply(cfg, s, step), h)
  {
    if step.SpawnMoves? {
      SpawnKeepsLaunchPending(cfg, s, step.caller, step.choice, h);
    }
  }

  lemma {:induction false} NotStartedIsLaunching(cfg: Config, states: seq<State>, steps: seq<Step>, k: nat, h: Handle)
    requires Run(cfg, states, steps) && k < |states|
    ensures LaunchPending(states[k], h)
  {
    if k > 0 {
      RunKeeps(cfg, states, steps, k - 1);
      NotStartedIsLaunching(cfg, states, steps, k - 1, h);
      StepKeepsLaunchPending(cfg, states[k - 1], steps[k - 1], h);
    }
  }

  /** This step is a Spawn that answers "panel already exists" about panel seen. */
  predicate AnswersExists(s: State, step: Step, t: State, seen: Handle, becauseReady: bool) {
    && step.SpawnMoves? && step.caller < |s.callers| && step.caller < |t.callers|
    && !s.callers[step.caller].at.Answered?
    && t.callers[step.caller].at == Answered(AlreadyOpen(seen, becauseReady))
  }

  /**
   * What a look at the registry, the panel's channels and its window shows when the answer is right.
   * After ready, on the shared loop, that is the check Focus makes; off it Run must not have returned.
   */
  predicate LooksOpen(sharedLoop: bool, p: Panel, becauseReady: bool) {
    if !becauseReady then
      && !p.native.createFailed
      && (p.native.engine ==> p.native.window)
      && (sharedLoop ==> p.chans.uiClosed == 0)
    else if sharedLoop then p.chans.uiClosed == 0
    else p.at.Blocked? && p.native.window
  }

  lemma NotDownLooksOpen(cfg: Config, s: State, h: Handle)
    requires Inv(cfg, s) && h < |s.panels| && s.panels[h].id in cfg.single
    ensures !Down(cfg.sharedLoop, s.panels[h]) <==>
            Registered(s, h) && LooksOpen(cfg.sharedLoop, s.panels[h], s.panels[h].chans.ready > 0)
  {
    var p := s.panels[h];
    assert PanelOk(cfg.sharedLoop, p);
    if Registered(s, h) {
      assert EntryOk(s, p.id);
    }
  }

  /**
   * Exactly when "panel already exists" is right, that is, when the panel named is open or can still
   * open. The registry must still hold it. Answered because it has signalled ready, its window must
   * not have been closed since. Answered at the deadline, the creation must not have failed and the
   * window, if there is one already, must not have been lost.
   */
  lemma AlreadyOpenAnswerExact(
      cfg: Config, states: seq<State>, steps: seq<Step>, k: nat, seen: Handle, becauseReady: bool)
    requires Run(cfg, states, steps) && k < |steps|
    requires AnswersExists(states[k], steps[k], states[k + 1], seen, becauseReady)
    requires states[k].callers[steps[k].caller].id in cfg.single
    ensures seen < |states[k + 1].panels|
    ensures var s, p := states[k + 1], states[k + 1].panels[seen];
            && (becauseReady <==> p.chans.ready > 0)
            && (CanBeUp(cfg, s, seen) <==> Registered(s, seen) && LooksOpen(cfg.sharedLoop, p, becauseReady))
  {
    RunKeeps(cfg, states, steps, k);
    RunKeeps(cfg, states, steps, k + 1);
    var s, t := states[k], states[k + 1];
    assert CallerOk(cfg, s, steps[k].caller);
    assert t.panels == s.panels && t.registry == s.registry;
    var p := t.panels[seen];
    NotDownLooksOpen(cfg, t, seen);
    if Down(cfg.sharedLoop, p) {
      forall rest: seq<Step> ensures !UpAfter(cfg, t, rest, seen) {
        DownIsNeverUp(cfg, t, rest, seen);
      }
    } else {
      if p.at.NotStarted? {
        NotStartedIsLaunching(cfg, states, steps, k, seen);
      }
      var rest := RunnerComesUp(cfg, t, seen);
    }
  }

  lemma Extend(cfg: Config, states: seq<State>, steps: seq<Step>, step: Step) returns (states': seq<State>, steps': seq<Step>)
    requires Run(cfg, states, steps) && Enabled(cfg, states[|steps|], step)
    ensures Run(cfg, states', steps')
    ensures |steps'| == |steps| + 1 && states'[|steps'|] == Apply(cfg, states[|steps|], step)
    ensures steps'[|steps|] == step && states'[|steps|] == states[|steps|]
  {
    states', steps' := states + [Apply(cfg, states[|steps|], step)], steps + [step];
  }

  const FAILED: Panel := NewPanel("d").(at := StopHotkey, deleted := true,
                                        chans := Channels(1, 0, 0, false),
                                        native := Native(true, false, false, false, false))

  /** A first Spawn of "d" has inserted its panel and launched the runner. */
  lemma FirstSpawnRun(cfg: Config) returns (states: seq<State>, steps: seq<Step>)
    ensures Run(cfg, states, steps)
    ensures states[|steps|] == State(map["d" := 0], None, [NewPanel("d").(at := Creating)],
                                     [Caller("d", false, true, AwaitOwn(0))], [])
  {
    states, steps := [INIT], [];
    states, steps := Extend(cfg, states, steps, SpawnArrives("d", false, true));
    states, steps := Extend(cfg, states, steps, SpawnMoves(0, false));
    states, steps := Extend(cfg, states, steps, SpawnMoves(0, false));
    assert states[|steps|] == State(map[], Some(0), [], [Caller("d", false, true, Lookup)], []);
    states, steps := Extend(cfg, states, steps, SpawnMoves(0, false));
    states, steps := Extend(cfg, states, steps, SpawnMoves(0, false));
    states, steps := Extend(cfg, states, steps, SpawnMoves(0, false));
  }

  /** A second Spawn of "d" has looked it up and found the panel that is still being created. */
  lemma SecondSpawnLooksUpRun(cfg: Config) returns (states: seq<State>, steps: seq<Step>)
    ensures Run(cfg, states, steps)
    ensures states[|steps|] == State(map["d" := 0], Some(1), [NewPanel("d").(at := Creating)],
                                     [Caller("d", false, true, AwaitOwn(0)), Caller("d", false, true, Inspect(0))], [])
  {
    states, steps := FirstSpawnRun(cfg);
    states, steps := Extend(cfg, states, steps, SpawnArrives("d", false, true));
    states, steps := Extend(cfg, states, steps, SpawnMoves(1, false));
    states, steps := Extend(cfg, states, steps, SpawnMoves(1, false));
    states, steps := Extend(cfg, states, steps, SpawnMoves(1, false));
  }

  /** The creation fails, frees the id and signals ready while the second Spawn holds what it looked up. */
  lemma LookedUpBeforeFailureRun(cfg: Config) returns (states: seq<State>, steps: seq<Step>)
    ensures Run(cfg, states, steps)
    ensures states[|steps|] == State(map[], Some(1), [FAILED],
                                     [Caller("d", false, true, AwaitOwn(0)), Caller("d", false, true, Inspect(0))], [])
  {
    states, steps := SecondSpawnLooksUpRun(cfg);
    states, steps := Extend(cfg, states, steps, RunnerMoves(0, false));
    states, steps := Extend(cfg, states, steps, RunnerMoves(0, false));
    states, steps := Extend(cfg, states, steps, RunnerMoves(0, false));
  }

  /**
   * The registry look-up and the look at `ready` are separate steps, so Spawn can answer "panel
   * already exists" about a creation that has already failed and freed its id.
   */
  lemma AlreadyOpenCanNameAFailedPanel(cfg: Config)
    ensures exists states: seq<State>, steps: seq<Step> :: Run(cfg, states, steps) && |steps| > 0 &&
              var s := states[|steps|];
              && |s.callers| == 2 && s.callers[1].at == Answered(AlreadyOpen(0, true))
              && |s.panels| == 1 && s.panels[0].native.createFailed && s.registry == map[]
  {
    var states, steps := LookedUpBeforeFailureRun(cfg);
    states, steps := Extend(cfg, states, steps, SpawnMoves(1, false));
  }

  /** At the deadline Spawn can name a panel whose creation has failed, though the registry still holds it. */
  lemma DeadlineAnswerCanNameAFailedPanel(cfg: Config)
    ensures exists states: seq<State>, steps: seq<Step> :: Run(cfg, states, steps) && |steps| > 0 &&
              var s := states[|steps|];
              && |s.callers| == 2 && s.callers[1].at == Answered(AlreadyOpen(0, false))
              && |s.panels| == 1 && s.panels[0].native.createFailed && Registered(s, 0)
  {
    var states, steps := SecondSpawnLooksUpRun(cfg);
    states, steps := Extend(cfg, states, steps, RunnerMoves(0, false));
    states, steps := Extend(cfg, states, steps, SpawnMoves(1, true));
  }

  /** Or one that the registry no longer holds, although it has not signalled ready. */
  lemma DeadlineAnswerCanNameARemovedPanel(cfg: Config)
    ensures exists states: seq<State>, steps: seq<Step> :: Run(cfg, states, steps) && |steps| > 0 &&
              var s := states[|steps|];
              && |s.callers| == 2 && s.callers[1].at == Answered(AlreadyOpen(0, false))
              && |s.panels| == 1 && s.panels[0].chans.ready == 0 && s.registry == map[]
  {
    var states, steps := SecondSpawnLooksUpRun(cfg);
    states, steps := Extend(cfg, states, steps, RunnerMoves(0, false));
    states, steps := Extend(cfg, states, steps, RunnerMoves(0, false));
    states, steps := Extend(cfg, states, steps, SpawnMoves(1, true));
  }

  /** The panel "d" once it waits for its close. */
  function UpPanel(sharedLoop: bool): Panel {
    NewPanel("d").(at := Blocked, chans := Channels(1, 0, 0, false),
                   native := Native(false, true, true, true, sharedLoop),
                   held := NewPanel("d").held.(watcher := WatchTicking))
  }

  /** The runner of the only panel moves, with s.mu free. */
  lemma RunnerExtends(cfg: Config, states: seq<State>, steps: seq<Step>, t: State, choice: bool)
    returns (states': seq<State>, steps': seq<Step>, t': State)
    requires Run(cfg, states, steps) && states[|steps|] == t
    requires |t.panels| == 1 && t.lock.None? && RunnerReady(cfg.sharedLoop, true, t.panels[0])
    ensures Run(cfg, states', steps') && states'[|steps'|] == t'
    ensures t' == State(if Deletes(t.panels[0].at) then DeleteIf(t.registry, t.panels[0].id, 0) else t.registry,
                        None, [RunnerNext(cfg.sharedLoop, t.panels[0], choice)], t.callers, t.closers)
  {
    states', steps' := Extend(cfg, states, steps, RunnerMoves(0, choice));
    t' := states'[|steps'|];
  }

  /** The webview of the panel "d" has been created. */
  lemma PanelCreatedRun(cfg: Config) returns (states: seq<State>, steps: seq<Step>)
    ensures Run(cfg, states, steps)
    ensures states[|steps|] ==
            State(map["d" := 0], None,
                  [NewPanel("d").(at := Setup, native := Native(false, true, true, false, false))],
                  [Caller("d", false, true, AwaitOwn(0))], [])
  {
    states, steps := FirstSpawnRun(cfg);
    var t := states[|steps|];
    states, steps, t := RunnerExtends(cfg, states, steps, t, true);
  }

  /** It has been set up. */
  lemma PanelSetUpRun(cfg: Config) returns (states: seq<State>, steps: seq<Step>)
    ensures Run(cfg, states, steps)
    ensures states[|steps|] ==
            State(map["d" := 0], None,
                  [NewPanel("d").(at := StartWatch, native := UpPanel(cfg.sharedLoop).native)],
                  [Caller("d", false, true, AwaitOwn(0))], [])
  {
    states, steps := PanelCreatedRun(cfg);
    var t := states[|steps|];
    states, steps, t := RunnerExtends(cfg, states, steps, t, false);
    states, steps, t := RunnerExtends(cfg, states, steps, t, false);
  }

  /** It has come up. */
  lemma PanelUpRun(cfg: Config) returns (states: seq<State>, steps: seq<Step>)
    ensures Run(cfg, states, steps)
    ensures states[|steps|] ==
            State(map["d" := 0], None, [UpPanel(cfg.sharedLoop)], [Caller("d", false, true, AwaitOwn(0))], [])
  {
    states, steps := PanelSetUpRun(cfg);
    var t := states[|steps|];
    states, steps, t := RunnerExtends(cfg, states, steps, t, false);
    states, steps, t := RunnerExtends(cfg, states, steps, t, false);
  }

  /** A second Spawn of "d" looks up the only panel p, whose window is closed before it looks at ready. */
  lemma SecondSpawnAfterClose(cfg: Config, states: seq<State>, steps: seq<Step>, p: Panel)
    returns (states': seq<State>, steps': seq<Step>)
    requires Run(cfg, states, steps) && p.native.window
    requires states[|steps|] == State(map["d" := 0], None, [p], [Caller("d", false, true, AwaitOwn(0))], [])
    ensures Run(cfg, states', steps')
    ensures states'[|steps'|] ==
            State(map["d" := 0], Some(1), [LoseWindow(p)],
                  [Caller("d", false, true, AwaitOwn(0)), Caller("d", false, true, Inspect(0))], [])
  {
    states', steps' := Extend(cfg, states, steps, UserClosesWindow(0));
    states', steps' := Extend(cfg, states', steps', SpawnArrives("d", false, true));
    states', steps' := Extend(cfg, states', steps', SpawnMoves(1, false));
    states', steps' := Extend(cfg, states', steps', SpawnMoves(1, false));
    states', steps' := Extend(cfg, states', steps', SpawnMoves(1, false));
  }

  /**
   * The entry outlives the window: Spawn can answer "panel already exists" about a registered panel
   * whose window has been closed, and it does not look, as Focus does, whether that was signalled.
   */
  lemma ReadyAnswerCanNameAClosedPanel(cfg: Config)
    ensures exists states: seq<State>, steps: seq<Step> :: Run(cfg, states, steps) && |steps| > 0 &&
              var s := states[|steps|];
              && |s.callers| == 2 && s.callers[1].at == Answered(AlreadyOpen(0, true))
              && |s.panels| == 1 && Registered(s, 0) && !s.panels[0].native.window
              && (cfg.sharedLoop ==> s.panels[0].chans.uiClosed == 1)
  {
    var states, steps := PanelUpRun(cfg);
    states, steps := SecondSpawnAfterClose(cfg, states, steps, UpPanel(cfg.sharedLoop));
    states, steps := Extend(cfg, states, steps, SpawnMoves(1, false));
  }

  /** At the deadline it can name one whose window was closed before setup, so that uiClosed is still open. */
  lemma DeadlineAnswerCanNameAClosedPanel(cfg: Config)
    ensures exists states: seq<State>, steps: seq<Step> :: Run(cfg, states, steps) && |steps| > 0 &&
              var s := states[|steps|];
              && |s.callers| == 2 && s.callers[1].at == Answered(AlreadyOpen(0, false))
              && |s.panels| == 1 && Registered(s, 0) && s.panels[0].native.engine && !s.panels[0].native.window
              && s.panels[0].chans.uiClosed == 0
  {
    var states, steps := PanelCreatedRun(cfg);
    states, steps := SecondSpawnAfterClose(cfg, states, steps, states[|steps|].panels[0]);
    states, steps := Extend(cfg, states, steps, SpawnMoves(1, true));
  }

  /** Whoever holds s.mu can always take its next step: the wait for a creation happens without the lock. */
  lemma LockHolderCanMove(cfg: Config, states: seq<State>, steps: seq<Step>, k: nat, choice: bool)
    requires Run(cfg, states, steps) && k < |states| && states[k].lock.Some?
    ensures SpawnReady(states[k], states[k].lock.value, choice)
  {
    RunKeeps(cfg, states, steps, k);
    assert CallerOk(cfg, states[k], states[k].lock.value);
  }

  // ---- The joins ----

  /** How many more steps the watcher can take once its stop has been closed. */
  function WatchLeft(w: Watcher): nat {
    match w
    case WatchTicking => 2
    case WatchDeciding => 1
    case WatchPosting => 1
    case _ => 0
  }

  function TimerLeft(t: Timer): nat {
    match t
    case TimerArmed => 2
    case TimerPosting => 1
    case _ => 0
  }

  /** The steps from k up to j that the close watcher (or the reveal timer) of panel h takes. */
  function JoinedSteps(steps: seq<Step>, k: nat, j: nat, h: Handle, watcher: bool): nat
    requires k <= j <= |steps|
  {
    if k == j then 0
    else JoinedSteps(steps, k, j - 1, h, watcher) +
         if (watcher && steps[j - 1].WatcherMoves? && steps[j - 1].panel == h)
            || (!watcher && steps[j - 1].TimerMoves? && steps[j - 1].panel == h) then 1 else 0
  }

  predicate WatchTold(s: State, h: Handle) {
    h < |s.panels| && s.panels[h].held.watchStop
  }

  predicate RevealTold(s: State, h: Handle) {
    h < |s.panels| && s.panels[h].held.revealStop
  }

  /** Once told to stop, the watcher only runs down, by each step of its own. */
  predicate WatchFalls(s: State, step: Step, t: State, h: Handle) {
    WatchTold(s, h) ==>
      && WatchTold(t, h)
      && WatchLeft(t.panels[h].held.watcher) + (if step.WatcherMoves? && step.panel == h then 1 else 0)
         <= WatchLeft(s.panels[h].held.watcher)
  }

  predicate RevealFalls(s: State, step: Step, t: State, h: Handle) {
    RevealTold(s, h) ==>
      && RevealTold(t, h)
      && TimerLeft(t.panels[h].held.timer) + (if step.TimerMoves? && step.panel == h then 1 else 0)
         <= TimerLeft(s.panels[h].held.timer)
  }

  lemma WatcherRunsDown(cfg: Config, s: State, step: Step, h: Handle)
    requires Inv(cfg, s) && Enabled(cfg, s, step)
    ensures WatchFalls(s, step, Apply(cfg, s, step), h)
  {
    if WatchTold(s, h) {
      assert PanelOk(cfg.sharedLoop, s.panels[h]);
      if step.SpawnMoves? {
        assert CallerOk(cfg, s, step.caller);
      }
    }
  }

  lemma TimerRunsDown(cfg: Config, s: State, step: Step, h: Handle)
    requires Inv(cfg, s) && Enabled(cfg, s, step)
    ensures RevealFalls(s, step, Apply(cfg, s, step), h)
  {
    if RevealTold(s, h) {
      assert PanelOk(cfg.sharedLoop, s.panels[h]);
      if step.SpawnMoves? {
        assert CallerOk(cfg, s, step.caller);
      }
    }
  }

  lemma RunFalls(cfg: Config, states: seq<State>, steps: seq<Step>, k: nat, h: Handle)
    requires Run(cfg, states, steps) && k < |steps|
    ensures WatchFalls(states[k], steps[k], states[k + 1], h) && RevealFalls(states[k], steps[k], states[k + 1], h)
  {
    RunKeeps(cfg, states, steps, k);
    WatcherRunsDown(cfg, states[k], steps[k], h);
    TimerRunsDown(cfg, states[k], steps[k], h);
  }

  lemma {:induction false} WatcherRunsOut(states: seq<State>, steps: seq<Step>, k: nat, j: nat, h: Handle)
    requires |states| == |steps| + 1 && k <= j < |states| && WatchTold(states[k], h)
    requires forall i :: k <= i < j ==> WatchFalls(states[i], steps[i], states[i + 1], h)
    ensures WatchTold(states[j], h)
    ensures WatchLeft(states[j].panels[h].held.watcher) + JoinedSteps(steps, k, j, h, true)
            <= WatchLeft(states[k].panels[h].held.watcher)
  {
    if k < j {
      WatcherRunsOut(states, steps, k, j - 1, h);
      assert WatchFalls(states[j - 1], steps[j - 1], states[j], h);
    }
  }

  lemma {:induction false} TimerRunsOut(states: seq<State>, steps: seq<Step>, k: nat, j: nat, h: Handle)
    requires |states| == |steps| + 1 && k <= j < |states| && RevealTold(states[k], h)
    requires forall i :: k <= i < j ==> RevealFalls(states[i], steps[i], states[i + 1], h)
    ensures RevealTold(states[j], h)
    ensures TimerLeft(states[j].panels[h].held.timer) + JoinedSteps(steps, k, j, h, false)
            <= TimerLeft(states[k].panels[h].held.timer)
  {
    if k < j {
      TimerRunsOut(states, steps, k, j - 1, h);
      assert RevealFalls(states[j - 1], steps[j - 1], states[j], h);
    }
  }

  /**
   * The join of the close watcher returns: however the run goes on after its stop was closed, the
   * watcher takes at most two more steps, it can take the next one whenever it is not over, and
   * when it is over the runner is ready.
   */
  lemma {:induction false} WatcherJoinReturns(
      cfg: Config, states: seq<State>, steps: seq<Step>, k: nat, j: nat, h: Handle)
    requires Run(cfg, states, steps) && k <= j < |states| && WatchTold(states[k], h)
    ensures WatchTold(states[j], h)
    ensures var left := WatchLeft(states[j].panels[h].held.watcher);
            && left + JoinedSteps(steps, k, j, h, true) <= WatchLeft(states[k].panels[h].held.watcher) <= 2
            && (left > 0 ==> Enabled(cfg, states[j], WatcherMoves(h, true)))
            && (left == 0 && states[j].panels[h].at.JoinWatch? ==> Enabled(cfg, states[j], RunnerMoves(h, false)))
  {
    forall i | k <= i < j ensures WatchFalls(states[i], steps[i], states[i + 1], h) {
      RunFalls(cfg, states, steps, i, h);
    }
    WatcherRunsOut(states, steps, k, j, h);
  }

  /** So does the join of the reveal timer. */
  lemma {:induction false} TimerJoinReturns(
      cfg: Config, states: seq<State>, steps: seq<Step>, k: nat, j: nat, h: Handle)
    requires Run(cfg, states, steps) && k <= j < |states| && RevealTold(states[k], h)
    ensures RevealTold(states[j], h)
    ensures var left := TimerLeft(states[j].panels[h].held.timer);
            && left + JoinedSteps(steps, k, j, h, false) <= TimerLeft(states[k].panels[h].held.timer) <= 2
            && (left > 0 ==> Enabled(cfg, states[j], TimerMoves(h, true)))
            && (left == 0 && states[j].panels[h].at.JoinReveal? ==> Enabled(cfg, states[j], RunnerMoves(h, false)))
  {
    forall i | k <= i < j ensures RevealFalls(states[i], steps[i], states[i + 1], h) {
      RunFalls(cfg, states, steps, i, h);
    }
    TimerRunsOut(states, steps, k, j, h);
  }

  // ---- A Close that comes late ----

  /** A Close is about to use the engine it has loaded. */
  predicate ClosesWith(s: State, i: nat, h: Handle) {
    i < |s.closers| && (s.closers[i].at == CloseWindow(h) || s.closers[i].at == SignalClosed(h))
  }

  /** It holds, or is about to load, the engine of this panel. */
  predicate Targets(s: State, i: nat, h: Handle) {
    ClosesWith(s, i, h) || (i < |s.closers| && s.closers[i].at == LoadEngine(h))
  }

  predicate HasEngine(s: State, h: Handle) {
    h < |s.panels| && s.panels[h].native.engine
  }

  lemma TargetStep(cfg: Config, s: State, step: Step, i: nat, h: Handle)
    requires Inv(cfg, s) && Enabled(cfg, s, step) && Targets(Apply(cfg, s, step), i, h)
    ensures Targets(s, i, h) || (step == CloseMoves(i) && h < |s.panels| && Registered(s, h))
    ensures ClosesWith(Apply(cfg, s, step), i, h) ==> ClosesWith(s, i, h) || HasEngine(s, h)
  {
    if step == CloseMoves(i) && s.closers[i].at.Find? && s.closers[i].id in s.registry {
      assert EntryOk(s, s.closers[i].id);
    }
  }

  lemma EngineStays(cfg: Config, s: State, step: Step, h: Handle)
    requires Inv(cfg, s) && Enabled(cfg, s, step) && HasEngine(s, h)
    ensures HasEngine(Apply(cfg, s, step), h)
  {
    if step.SpawnMoves? {
      assert CallerOk(cfg, s, step.caller);
    }
  }

  lemma {:induction false} CloserHasEngine(cfg: Config, states: seq<State>, steps: seq<Step>, k: nat, i: nat, h: Handle)
    requires Run(cfg, states, steps) && k < |states| && ClosesWith(states[k], i, h)
    ensures HasEngine(states[k], h)
  {
    EngineBefore(cfg, states, steps, k - 1, i, h);
    if ClosesWith(states[k - 1], i, h) {
      CloserHasEngine(cfg, states, steps, k - 1, i, h);
    }
  }

  lemma EngineBefore(cfg: Config, states: seq<State>, steps: seq<Step>, k: nat, i: nat, h: Handle)
    requires Run(cfg, states, steps) && k < |steps| && ClosesWith(states[k + 1], i, h)
    ensures ClosesWith(states[k], i, h) || HasEngine(states[k], h)
    ensures HasEngine(states[k], h) ==> HasEngine(states[k + 1], h)
  {
    RunKeeps(cfg, states, steps, k);
    TargetStep(cfg, states[k], steps[k], i, h);
    if HasEngine(states[k], h) {
      EngineStays(cfg, states[k], steps[k], h);
    }
  }

  lemma TargetBefore(cfg: Config, states: seq<State>, steps: seq<Step>, k: nat, i: nat, h: Handle)
    requires Run(cfg, states, steps) && k < |steps| && Targets(states[k + 1], i, h)
    ensures Targets(states[k], i, h) || Finds(states[k], steps[k], i, h)
  {
    RunKeeps(cfg, states, steps, k);
    TargetStep(cfg, states[k], steps[k], i, h);
  }

  /** Close caller i looks up its id, and the registry holds panel h under it. */
  predicate Finds(s: State, step: Step, i: nat, h: Handle) {
    step == CloseMoves(i) && h < |s.panels| && Registered(s, h)
  }

  /** A Close uses an engine only if, when it looked, the registry still held the panel's entry. */
  lemma {:induction false} CloseFoundTheEntry(cfg: Config, states: seq<State>, steps: seq<Step>, k: nat, i: nat, h: Handle)
    requires Run(cfg, states, steps) && k < |states| && Targets(states[k], i, h)
    ensures exists j :: 0 <= j < k && Finds(states[j], steps[j], i, h)
  {
    TargetBefore(cfg, states, steps, k - 1, i, h);
    if Targets(states[k - 1], i, h) {
      CloseFoundTheEntry(cfg, states, steps, k - 1, i, h);
    }
  }

  /** A Close uses the engine of panel h after its runner has exited, off the shared loop. */
  predicate ClosesLate(cfg: Config, s: State, step: Step, h: Handle) {
    && step.CloseMoves? && ClosesWith(s, step.closer, h)
    && h < |s.panels| && s.panels[h].at.Exited? && !cfg.sharedLoop
  }

  /** A Close cannot come late while the registry still holds the panel or its done is open. */
  lemma LateCloseIsAfterDone(cfg: Config, states: seq<State>, steps: seq<Step>, k: nat, h: Handle)
    requires Run(cfg, states, steps) && k < |steps| && ClosesLate(cfg, states[k], steps[k], h)
    ensures states[k].panels[h].chans.done == 1 && !Registered(states[k], h)
    ensures states[k].panels[h].held.destroyed
  {
    RunKeeps(cfg, states, steps, k);
    CloserHasEngine(cfg, states, steps, k, steps[k].closer, h);
    assert PanelOk(cfg.sharedLoop, states[k].panels[h]);
    EngineFreedLast(cfg, states, steps, k, h);
  }

  lemma CloseMoveLate(cfg: Config, s: State, i: nat, h: Handle)
    requires Inv(cfg, s) && CloseReady(s, i) && h < |s.panels|
    requires ClosesWith(s, i, h) ==> HasEngine(s, h)
    ensures h < |CloseNext(cfg, s, i).panels|
    ensures CloseNext(cfg, s, i).panels[h].held.lateClose <==>
            s.panels[h].held.lateClose || ClosesLate(cfg, s, CloseMoves(i), h)
  {
    assert PanelOk(cfg.sharedLoop, s.panels[h]);
  }

  lemma LateCloseStep(cfg: Config, s: State, step: Step, h: Handle)
    requires Inv(cfg, s) && Enabled(cfg, s, step) && h < |s.panels|
    requires step.CloseMoves? && ClosesWith(s, step.closer, h) ==> HasEngine(s, h)
    ensures h < |Apply(cfg, s, step).panels|
    ensures Apply(cfg, s, step).panels[h].held.lateClose <==>
            s.panels[h].held.lateClose || ClosesLate(cfg, s, step, h)
  {
    if step.CloseMoves? {
      CloseMoveLate(cfg, s, step.closer, h);
    } else if step.SpawnMoves? {
      assert CallerOk(cfg, s, step.caller);
    }
  }

  lemma NewPanelStep(cfg: Config, s: State, step: Step, h: Handle)
    requires Enabled(cfg, s, step) && |s.panels| <= h < |Apply(cfg, s, step).panels|
    ensures !Apply(cfg, s, step).panels[h].held.lateClose
  {
  }

  predicate LateClosed(s: State, h: Handle) {
    h < |s.panels| && s.panels[h].held.lateClose
  }

  lemma LateCloseRunStep(cfg: Config, states: seq<State>, steps: seq<Step>, k: nat, h: Handle)
    requires Run(cfg, states, steps) && k < |steps|
    ensures LateClosed(states[k + 1], h) <==> LateClosed(states[k], h) || ClosesLate(cfg, states[k], steps[k], h)
  {
    RunKeeps(cfg, states, steps, k);
    var s, step := states[k], steps[k];
    if h < |s.panels| {
      if step.CloseMoves? && ClosesWith(s, step.closer, h) {
        CloserHasEngine(cfg, states, steps, k, step.closer, h);
      }
      LateCloseStep(cfg, s, step, h);
    } else if h < |states[k + 1].panels| {
      NewPanelStep(cfg, s, step, h);
    }
  }

  /** One of the first k steps is a Close that uses the engine of panel h too late. */
  ghost predicate ClosedLateBy(cfg: Config, states: seq<State>, steps: seq<Step>, k: nat, h: Handle)
    requires k <= |steps| && |states| == |steps| + 1
  {
    exists j :: 0 <= j < k && ClosesLate(cfg, states[j], steps[j], h)
  }

  lemma ClosedLateByStep(cfg: Config, states: seq<State>, steps: seq<Step>, k: nat, h: Handle)
    requires k < |steps| && |states| == |steps| + 1
    ensures ClosedLateBy(cfg, states, steps, k + 1, h) <==>
            ClosedLateBy(cfg, states, steps, k, h) || ClosesLate(cfg, states[k], steps[k], h)
  {
  }

  /** Exactly when a Close uses a freed engine: off the shared loop, after the panel's runner has exited. */
  lemma {:induction false} LateCloseExactly(cfg: Config, states: seq<State>, steps: seq<Step>, k: nat, h: Handle)
    requires Run(cfg, states, steps) && k < |states|
    ensures LateClosed(states[k], h) <==> ClosedLateBy(cfg, states, steps, k, h)
  {
    if k > 0 {
      LateCloseExactly(cfg, states, steps, k - 1, h);
      LateCloseRunStep(cfg, states, steps, k - 1, h);
      ClosedLateByStep(cfg, states, steps, k - 1, h);
    }
  }

  const WINDOWS: Config := Config(false, {})

  const UP: Panel := UpPanel(false)

  /** A Close has loaded its engine, and its loop returns. */
  lemma CloseLoadsRun() returns (states: seq<State>, steps: seq<Step>)
    ensures Run(WINDOWS, states, steps)
    ensures states[|steps|] == State(map["d" := 0], None, [UP.(at := StopHotkey)],
                                     [Caller("d", false, true, AwaitOwn(0))], [Closer("d", CloseWindow(0))])
  {
    states, steps := PanelUpRun(WINDOWS);
    states, steps := Extend(WINDOWS, states, steps, CloseArrives("d"));
    states, steps := Extend(WINDOWS, states, steps, CloseMoves(0));
    states, steps := Extend(WINDOWS, states, steps, CloseMoves(0));
    var t := states[|steps|];
    states, steps, t := RunnerExtends(WINDOWS, states, steps, t, false);
    states, steps, t := RunnerExtends(WINDOWS, states, steps, t, false);
  }

  /** The runner has closed done and is about to give up the id. */
  lemma DoneRun() returns (states: seq<State>, steps: seq<Step>)
    ensures Run(WINDOWS, states, steps)
    ensures states[|steps|] ==
            State(map["d" := 0], None,
                  [UP.(at := DeferDelete, chans := Channels(1, 1, 0, false), held := UP.held.(followStopped := true))],
                  [Caller("d", false, true, AwaitOwn(0))], [Closer("d", CloseWindow(0))])
  {
    states, steps := CloseLoadsRun();
    var t := states[|steps|];
    states, steps, t := RunnerExtends(WINDOWS, states, steps, t, false);
    states, steps, t := RunnerExtends(WINDOWS, states, steps, t, false);
    states, steps, t := RunnerExtends(WINDOWS, states, steps, t, false);
  }

  /** It has given up the id and waits for its close watcher. */
  lemma TornDownRun() returns (states: seq<State>, steps: seq<Step>)
    ensures Run(WINDOWS, states, steps)
    ensures states[|steps|] ==
            State(map[], None,
                  [UP.(at := JoinWatch, deleted := true, chans := Channels(1, 1, 0, false),
                       held := UP.held.(followStopped := true, watchStop := true))],
                  [Caller("d", false, true, AwaitOwn(0))], [Closer("d", CloseWindow(0))])
  {
    states, steps := DoneRun();
    var t := states[|steps|];
    states, steps, t := RunnerExtends(WINDOWS, states, steps, t, false);
    states, steps, t := RunnerExtends(WINDOWS, states, steps, t, false);
  }

  /** The watcher is over. */
  lemma WatchOverRun() returns (states: seq<State>, steps: seq<Step>)
    ensures Run(WINDOWS, states, steps)
    ensures states[|steps|] ==
            State(map[], None,
                  [UP.(at := JoinReveal, deleted := true, chans := Channels(1, 1, 0, false),
                       held := UP.held.(followStopped := true, watchStop := true, watcher := WatchOver))],
                  [Caller("d", false, true, AwaitOwn(0))], [Closer("d", CloseWindow(0))])
  {
    states, steps := TornDownRun();
    states, steps := Extend(WINDOWS, states, steps, WatcherMoves(0, true));
    var t := states[|steps|];
    states, steps, t := RunnerExtends(WINDOWS, states, steps, t, false);
  }

  /** The runner has exited, and the engine is freed, before the Close goes on. */
  lemma ExitedRun() returns (states: seq<State>, steps: seq<Step>)
    ensures Run(WINDOWS, states, steps)
    ensures var s := states[|steps|];
            && s.closers == [Closer("d", CloseWindow(0))] && |s.panels| == 1
            && s.panels[0].at.Exited? && s.panels[0].held.destroyed
  {
    states, steps := WatchOverRun();
    var t := states[|steps|];
    states, steps, t := RunnerExtends(WINDOWS, states, steps, t, false);
    states, steps, t := RunnerExtends(WINDOWS, states, steps, t, false);
    states, steps, t := RunnerExtends(WINDOWS, states, steps, t, false);
  }

  /** A Close that looked in time can go on too late: it then uses an engine already freed. */
  lemma CloseCanComeTooLate()
    ensures exists states: seq<State>, steps: seq<Step> :: Run(WINDOWS, states, steps) && |steps| > 0 &&
              var s := states[|steps|];
              |s.panels| == 1 && s.panels[0].held.lateClose
  {
    var states, steps := ExitedRun();
    states, steps := Extend(WINDOWS, states, steps, CloseMoves(0));
  }
}
