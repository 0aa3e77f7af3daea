/**
 * The cached browser of sidecar/browser.go: getCDP and closeActiveCDP callers, and the fail of
 * each client's read loop, over the cache's lock and each client's closed flag. A browser that is
 * launched and one that is taken out of the cache must be shut down, once.
 */
module BrowserCache {
  import opened Options

  datatype Actor = ByCaller(caller: nat) | ByReader(client: nat)

  datatype CallAt =
    | Waiting
    | Holding
    | Replacing(client: nat)
    | ReplaceKill(client: nat)
    | Launching
    | Handshake(client: nat)
    | Abandoning(client: nat)
    | AbandonKill(client: nat)
    | Evicting(client: nat)
    | EvictKill(client: nat)
    | Finished(result: Option<nat>)

  datatype ReadAt = Reading | FailWaiting | FailHolding | FailSwap | FailKill | Gone

  /** A getCDP call with its two flags, or a closeActiveCDP call. */
  datatype Caller = Caller(gets: bool, headless: bool, explicit: bool, at: CallAt)

  /** Auxiliary: where a client stands, and who took it out of the cache or gave up its launch. */
  datatype Stage = Launched(caller: nat) | InCache | Taken(actor: Actor)

  /** closed is the client's flag, kills how often its process was terminated, killer who swapped the flag and has yet to. */
  datatype Client = Client(headless: bool, reader: ReadAt, closed: bool, kills: nat, killer: Option<Actor>, stage: Stage)

  datatype State = State(active: Option<nat>, lock: Option<Actor>, clients: seq<Client>, callers: seq<Caller>)

  const INIT := State(None, None, [], [])

  datatype Step =
    | CallerArrives(gets: bool, headless: bool, explicit: bool)
    | CallerMoves(caller: nat, ok: bool)
    | ReaderMoves(client: nat)

  predicate HoldsLock(at: CallAt) {
    at.Holding? || at.Replacing? || at.ReplaceKill? || at.Launching? || at.Handshake? || at.Abandoning? || at.AbandonKill?
  }

  predicate Swaps(at: CallAt) {
    at.Replacing? || at.Abandoning? || at.Evicting?
  }

  predicate Kills(at: CallAt) {
    at.ReplaceKill? || at.AbandonKill? || at.EvictKill?
  }

  predicate CallerReady(s: State, i: nat) {
    i < |s.callers| && !s.callers[i].at.Finished? && (s.callers[i].at.Waiting? ==> s.lock.None?)
  }

  predicate ReaderReady(s: State, c: nat) {
    c < |s.clients| && !s.clients[c].reader.Gone? && (s.clients[c].reader.FailWaiting? ==> s.lock.None?)
  }

  predicate Closed(s: State, c: nat) {
    c < |s.clients| && s.clients[c].closed
  }

  /** What the holder of the lock does with the cache. */
  function HoldingNext(s: State, me: Caller): CallAt {
    if s.active.Some? && me.gets && !Closed(s, s.active.value) && s.active.value < |s.clients| then
      if me.explicit && s.clients[s.active.value].headless != me.headless then Replacing(s.active.value)
      else Finished(s.active)
    else if me.gets then Launching
    else if s.active.Some? then Evicting(s.active.value)
    else Finished(None)
  }

  function CallerNextAt(s: State, me: Caller, ok: bool): CallAt {
    match me.at
    case Waiting => Holding
    case Holding => HoldingNext(s, me)
    case Replacing(c) => if Closed(s, c) then Launching else ReplaceKill(c)
    case ReplaceKill(_) => Launching
    case Launching => if ok then Handshake(|s.clients|) else Finished(None)
    case Handshake(c) => if ok then Finished(Some(c)) else Abandoning(c)
    case Abandoning(c) => if Closed(s, c) then Finished(None) else AbandonKill(c)
    case AbandonKill(_) => Finished(None)
    case Evicting(c) => if Closed(s, c) then Finished(None) else EvictKill(c)
    case EvictKill(_) => Finished(None)
    case Finished(r) => Finished(r)
  }

  function CallerActive(s: State, me: Caller, next: CallAt): Option<nat> {
    if me.at.Holding? && (next.Replacing? || next.Evicting?) then None
    else if me.at.Handshake? && next.Finished? then Some(me.at.client)
    else s.active
  }

  function CallerLock(s: State, i: nat, at: CallAt, next: CallAt): Option<Actor> {
    if HoldsLock(next) then Some(ByCaller(i)) else if HoldsLock(at) then None else s.lock
  }

  /** The effect of a caller's step on the client it is concerned with. */
  function ClientAfter(k: Client, i: nat, at: CallAt, next: CallAt): Client {
    if at.Holding? && (next.Replacing? || next.Evicting?) then k.(stage := Taken(ByCaller(i)))
    else if at.Handshake? then k.(stage := if next.Finished? then InCache else Taken(ByCaller(i)))
    else if Kills(next) then k.(closed := true, killer := Some(ByCaller(i)))
    else if Kills(at) then k.(kills := k.kills + 1, killer := None)
    else k
  }

  /** The client a caller's step is concerned with, if any. */
  function Concerned(at: CallAt, next: CallAt): Option<nat> {
    if at.Holding? && next.Replacing? then Some(next.client)
    else if at.Holding? && next.Evicting? then Some(next.client)
    else if at.Handshake? || Swaps(at) || Kills(at) then Some(at.client)
    else None
  }

  function CallerClients(s: State, i: nat, me: Caller, next: CallAt): seq<Client> {
    if me.at.Launching? && next.Handshake? then
      s.clients + [Client(me.headless, Reading, false, 0, None, Launched(i))]
    else
      var c := Concerned(me.at, next);
      if c.Some? && c.value < |s.clients| then s.clients[c.value := ClientAfter(s.clients[c.value], i, me.at, next)]
      else s.clients
  }

  function CallerStep(s: State, i: nat, ok: bool): State
    requires i < |s.callers|
  {
    var me := s.callers[i];
    var next := CallerNextAt(s, me, ok);
    State(CallerActive(s, me, next), CallerLock(s, i, me.at, next), CallerClients(s, i, me, next),
          s.callers[i := me.(at := next)])
  }

  function ReaderNext(k: Client): ReadAt {
    match k.reader
    case Reading => FailWaiting
    case FailWaiting => FailHolding
    case FailHolding => FailSwap
    case FailSwap => if k.closed then Gone else FailKill
    case FailKill => Gone
    case Gone => Gone
  }

  /** fail: clear the cache if it still holds this client, then shut the client down. */
  function ReaderStep(s: State, c: nat): State
    requires c < |s.clients|
  {
    var k := s.clients[c];
    var next := ReaderNext(k);
    var mine := k.reader.FailHolding? && s.active == Some(c);
    State(if mine then None else s.active,
          if next.FailHolding? then Some(ByReader(c)) else if k.reader.FailHolding? then None else s.lock,
          s.clients[c := Client(k.headless, next, k.closed || next.FailKill?,
                                if k.reader.FailKill? then k.kills + 1 else k.kills,
                                if next.FailKill? then Some(ByReader(c)) else if k.reader.FailKill? then None else k.killer,
                                if mine then Taken(ByReader(c)) else k.stage)],
          s.callers)
  }

  predicate Enabled(s: State, step: Step) {
    match step
    case CallerArrives(_, _, _) => true
    case CallerMoves(i, _) => CallerReady(s, i)
    case ReaderMoves(c) => ReaderReady(s, c)
  }

  function Apply(s: State, step: Step): State
    requires Enabled(s, step)
  {
    match step
    case CallerArrives(g, h, e) => s.(callers := s.callers + [Caller(g, h, e, Waiting)])
    case CallerMoves(i, ok) => CallerStep(s, i, ok)
    case ReaderMoves(c) => ReaderStep(s, c)
  }

  ghost predicate Run(states: seq<State>, steps: seq<Step>) {
    && |states| == |steps| + 1
    && states[0] == INIT
    && forall k :: 0 <= k < |steps| ==> Enabled(states[k], steps[k]) && states[k + 1] == Apply(states[k], steps[k])
  }

  // ---- Invariants ----

  /** The lock's holder and the actors inside agree; only a caller that looks at the cache may find it full. */
  predicate LockOk(s: State) {
    && (forall i :: 0 <= i < |s.callers| ==> (s.lock == Some(ByCaller(i)) <==> HoldsLock(s.callers[i].at)))
    && (forall c :: 0 <= c < |s.clients| ==> (s.lock == Some(ByReader(c)) <==> s.clients[c].reader.FailHolding?))
    && (forall i :: 0 <= i < |s.callers| && HoldsLock(s.callers[i].at) && !s.callers[i].at.Holding? ==> s.active.None?)
    && (s.active.Some? ==> s.active.value < |s.clients|)
    && (s.lock.Some? ==> ActorKnown(s, s.lock.value))
  }

  predicate ActorKnown(s: State, a: Actor) {
    match a
    case ByCaller(i) => i < |s.callers|
    case ByReader(c) => c < |s.clients|
  }

  predicate StageOk(s: State, c: nat)
    requires c < |s.clients|
  {
    var k := s.clients[c];
    && (k.stage.InCache? <==> s.active == Some(c))
    && match k.stage
       case Launched(i) => !k.closed && i < |s.callers| && s.callers[i].at == Handshake(c)
       case InCache => !k.closed
       case Taken(ByCaller(i)) => k.closed || (i < |s.callers| && Swaps(s.callers[i].at) && s.callers[i].at.client == c)
       case Taken(ByReader(d)) => d == c && (k.closed || k.reader.FailSwap?)
  }

  predicate KillOk(s: State, c: nat)
    requires c < |s.clients|
  {
    var k := s.clients[c];
    && (k.reader.FailSwap? || k.reader.FailKill? || k.reader.Gone? ==> k.stage.Taken?)
    && (k.reader.FailKill? ==> k.killer == Some(ByReader(c)))
    && (k.reader.Gone? ==> k.closed)
    && k.kills == (if k.closed && k.killer.None? then 1 else 0)
    && (k.killer.Some? ==> k.closed)
    && match k.killer
       case Some(ByCaller(i)) => i < |s.callers| && Kills(s.callers[i].at) && s.callers[i].at.client == c
       case Some(ByReader(d)) => d == c && k.reader.FailKill?
       case None => true
  }

  predicate CallerOk(s: State, i: nat)
    requires i < |s.callers|
  {
    var at := s.callers[i].at;
    && (at.Handshake? ==> at.client < |s.clients| && s.clients[at.client].stage == Launched(i)
                          && s.clients[at.client].headless == s.callers[i].headless)
    && (Swaps(at) ==> at.client < |s.clients| && s.clients[at.client].stage == Taken(ByCaller(i)))
    && (Kills(at) ==> at.client < |s.clients| && s.clients[at.client].stage == Taken(ByCaller(i))
                      && s.clients[at.client].killer == Some(ByCaller(i)))
  }

  predicate Inv(s: State) {
    && LockOk(s)
    && (forall c :: 0 <= c < |s.clients| ==> StageOk(s, c) && KillOk(s, c))
    && (forall i :: 0 <= i < |s.callers| ==> CallerOk(s, i))
  }

  lemma CallerKeepsLock(s: State, i: nat, ok: bool)
    requires Inv(s) && CallerReady(s, i)
    ensures LockOk(CallerStep(s, i, ok))
  {
    assert CallerOk(s, i);
    assert s.active.Some? ==> StageOk(s, s.active.value);
  }

  lemma CallerKeepsStage(s: State, i: nat, ok: bool, c: nat)
    requires Inv(s) && CallerReady(s, i) && c < |CallerStep(s, i, ok).clients|
    ensures StageOk(CallerStep(s, i, ok), c)
  {
    assert CallerOk(s, i);
    assert c < |s.clients| ==> StageOk(s, c);
  }

  lemma SwapKeepsKill(s: State, i: nat, ok: bool)
    requires Inv(s) && CallerReady(s, i) && Swaps(s.callers[i].at)
    ensures s.callers[i].at.client < |s.clients| && KillOk(CallerStep(s, i, ok), s.callers[i].at.client)
  {
    assert CallerOk(s, i);
    assert KillOk(s, s.callers[i].at.client);
  }

  lemma KillKeepsKill(s: State, i: nat, ok: bool)
    requires Inv(s) && CallerReady(s, i) && Kills(s.callers[i].at)
    ensures s.callers[i].at.client < |s.clients| && KillOk(CallerStep(s, i, ok), s.callers[i].at.client)
  {
    assert CallerOk(s, i);
    assert KillOk(s, s.callers[i].at.client);
  }

  lemma OwnClientKeepsKill(s: State, i: nat, ok: bool)
    requires Inv(s) && CallerReady(s, i)
    requires Concerned(s.callers[i].at, CallerNextAt(s, s.callers[i], ok)).Some?
    ensures var c := Concerned(s.callers[i].at, CallerNextAt(s, s.callers[i], ok)).value;
            c < |s.clients| && KillOk(CallerStep(s, i, ok), c)
  {
    var at := s.callers[i].at;
    if Swaps(at) {
      SwapKeepsKill(s, i, ok);
    } else if Kills(at) {
      KillKeepsKill(s, i, ok);
    } else {
      var c := Concerned(at, CallerNextAt(s, s.callers[i], ok)).value;
      assert CallerOk(s, i) && StageOk(s, c) && KillOk(s, c);
    }
  }

  lemma CallerKeepsKill(s: State, i: nat, ok: bool, c: nat)
    requires Inv(s) && CallerReady(s, i) && c < |CallerStep(s, i, ok).clients|
    ensures KillOk(CallerStep(s, i, ok), c)
  {
    if Concerned(s.callers[i].at, CallerNextAt(s, s.callers[i], ok)) == Some(c) {
      OwnClientKeepsKill(s, i, ok);
    } else {
      assert CallerOk(s, i);
      assert c < |s.clients| ==> KillOk(s, c);
    }
  }

  lemma MoverKeeps(s: State, i: nat, ok: bool)
    requires Inv(s) && CallerReady(s, i)
    ensures CallerOk(CallerStep(s, i, ok), i)
  {
    assert CallerOk(s, i);
    var c := Concerned(s.callers[i].at, CallerNextAt(s, s.callers[i], ok));
    assert c.Some? && c.value < |s.clients| ==> StageOk(s, c.value) && KillOk(s, c.value);
  }

  lemma OthersKeep(s: State, i: nat, ok: bool, j: nat)
    requires Inv(s) && CallerReady(s, i) && j < |s.callers| && j != i
    ensures CallerOk(CallerStep(s, i, ok), j)
  {
    assert CallerOk(s, i) && CallerOk(s, j);
    var c := Concerned(s.callers[i].at, CallerNextAt(s, s.callers[i], ok));
    assert c.Some? && c.value < |s.clients| ==> StageOk(s, c.value) && KillOk(s, c.value);
  }

  lemma ReaderKeeps(s: State, c: nat)
    requires Inv(s) && ReaderReady(s, c)
    ensures Inv(ReaderStep(s, c))
  {
    var t := ReaderStep(s, c);
    assert StageOk(s, c) && KillOk(s, c);
    forall d | 0 <= d < |t.clients| ensures StageOk(t, d) && KillOk(t, d) {
      assert StageOk(s, d) && KillOk(s, d);
      ReaderKeepsClient(s, c, d);
    }
    forall i | 0 <= i < |t.callers| ensures CallerOk(t, i) {
      assert CallerOk(s, i);
    }
    ReaderKeepsLock(s, c);
  }

  lemma ReaderKeepsLock(s: State, c: nat)
    requires Inv(s) && ReaderReady(s, c)
    ensures LockOk(ReaderStep(s, c))
  {
  }

  lemma ReaderKeepsClient(s: State, c: nat, d: nat)
    requires Inv(s) && ReaderReady(s, c) && d < |s.clients|
    ensures StageOk(ReaderStep(s, c), d) && KillOk(ReaderStep(s, c), d)
  {
    assert StageOk(s, c) && KillOk(s, c) && StageOk(s, d) && KillOk(s, d);
    if s.clients[c].stage.Launched? {
      assert HoldsLock(s.callers[s.clients[c].stage.caller].at);
    }
  }

  lemma ArrivalKeeps(s: State, step: Step)
    requires Inv(s) && step.CallerArrives?
    ensures Inv(Apply(s, step))
  {
    var t := Apply(s, step);
    forall c | 0 <= c < |t.clients| ensures StageOk(t, c) && KillOk(t, c) {
      assert StageOk(s, c) && KillOk(s, c);
    }
    forall i | 0 <= i < |t.callers| ensures CallerOk(t, i) {
      assert i < |s.callers| ==> CallerOk(s, i);
    }
  }

  lemma StepKeeps(s: State, step: Step)
    requires Inv(s) && Enabled(s, step)
    ensures Inv(Apply(s, step))
  {
    match step
    case CallerArrives(_, _, _) => ArrivalKeeps(s, step);
    case ReaderMoves(c) => ReaderKeeps(s, c);
    case CallerMoves(i, ok) =>
      var t := CallerStep(s, i, ok);
      CallerKeepsLock(s, i, ok);
      forall c | 0 <= c < |t.clients| ensures StageOk(t, c) && KillOk(t, c) {
        CallerKeepsStage(s, i, ok, c);
        CallerKeepsKill(s, i, ok, c);
      }
      forall j | 0 <= j < |t.callers| ensures CallerOk(t, j) {
        if j == i {
          MoverKeeps(s, i, ok);
        } else {
          OthersKeep(s, i, ok, j);
        }
      }
  }

  lemma {:induction false} RunKeeps(states: seq<State>, steps: seq<Step>, k: nat)
    requires Run(states, steps) && k < |states|
    ensures Inv(states[k])
  {
    if k > 0 {
      RunKeeps(states, steps, k - 1);
      StepKeeps(states[k - 1], steps[k - 1]);
    }
  }

  // ---- Main results ----

  /** The cached client is open, and so is one whose launch is under way: nothing can close it mid-launch. */
  lemma CachedAndLaunchingAreOpen(states: seq<State>, steps: seq<Step>, k: nat)
    requires Run(states, steps) && k < |states|
    ensures states[k].active.Some? ==>
              states[k].active.value < |states[k].clients| && !Closed(states[k], states[k].active.value)
    ensures forall i :: 0 <= i < |states[k].callers| && states[k].callers[i].at.Handshake? ==>
              !Closed(states[k], states[k].callers[i].at.client)
  {
    RunKeeps(states, steps, k);
    var s := states[k];
    if s.active.Some? {
      assert StageOk(s, s.active.value);
    }
    forall i | 0 <= i < |s.callers| && s.callers[i].at.Handshake? ensures !Closed(s, s.callers[i].at.client) {
      assert CallerOk(s, i);
      assert StageOk(s, s.callers[i].at.client);
    }
  }

  /** Of all browsers ever launched at most one is neither closed nor already someone's to shut down. */
  lemma AtMostOneBrowserInUse(states: seq<State>, steps: seq<Step>, k: nat, c: nat, d: nat)
    requires Run(states, steps) && k < |states| && c < d < |states[k].clients|
    ensures states[k].clients[c].stage.Taken? || states[k].clients[d].stage.Taken?
  {
    RunKeeps(states, steps, k);
    var s := states[k];
    assert StageOk(s, c) && StageOk(s, d);
    if s.clients[c].stage.Launched? {
      assert HoldsLock(s.callers[s.clients[c].stage.caller].at);
    }
    if s.clients[d].stage.Launched? {
      assert HoldsLock(s.callers[s.clients[d].stage.caller].at);
    }
  }

  /** The process of a client is terminated at most once, and only after its closed flag is set. */
  lemma KilledAtMostOnce(states: seq<State>, steps: seq<Step>, k: nat, c: nat)
    requires Run(states, steps) && k < |states| && c < |states[k].clients|
    ensures states[k].clients[c].kills <= 1
    ensures states[k].clients[c].kills == 1 ==> Closed(states[k], c)
  {
    RunKeeps(states, steps, k);
    assert KillOk(states[k], c);
  }

  /** The actor has nothing more to do. */
  predicate Quiet(s: State, a: Actor) {
    match a
    case ByCaller(i) => i >= |s.callers| || s.callers[i].at.Finished?
    case ByReader(c) => c >= |s.clients| || s.clients[c].reader.Reading? || s.clients[c].reader.Gone?
  }

  /** No browser leaks: when nobody is in the middle of a step, every client but the cached one has been terminated, exactly once. */
  lemma NothingLeaks(states: seq<State>, steps: seq<Step>, k: nat, c: nat)
    requires Run(states, steps) && k < |states| && c < |states[k].clients|
    requires forall a :: Quiet(states[k], a)
    ensures states[k].active == Some(c) || (Closed(states[k], c) && states[k].clients[c].kills == 1)
  {
    RunKeeps(states, steps, k);
    var s := states[k];
    assert StageOk(s, c) && KillOk(s, c);
    assert Quiet(s, ByReader(c));
    var launcher := if s.clients[c].stage.Launched? then s.clients[c].stage.caller else 0;
    assert Quiet(s, ByCaller(launcher));
    if s.clients[c].stage.Taken? {
      assert Quiet(s, s.clients[c].stage.actor);
      if s.clients[c].killer.Some? {
        assert Quiet(s, s.clients[c].killer.value);
      }
    }
  }

  /** What a getCDP that finishes with a client returns is the cached client at that moment, in the mode asked for. */
  lemma ReturnedClientIsTheCachedOne(s: State, i: nat, ok: bool)
    requires Inv(s) && CallerReady(s, i) && s.callers[i].gets
    requires CallerStep(s, i, ok).callers[i].at.Finished? && CallerStep(s, i, ok).callers[i].at.result.Some?
    ensures CallerStep(s, i, ok).active == CallerStep(s, i, ok).callers[i].at.result
    ensures var t := CallerStep(s, i, ok);
            var c := t.callers[i].at.result.value;
            c < |t.clients| && !Closed(t, c) && (s.callers[i].explicit ==> t.clients[c].headless == s.callers[i].headless)
  {
    assert CallerOk(s, i);
    assert s.active.Some? ==> StageOk(s, s.active.value);
    assert s.callers[i].at.Handshake? ==> StageOk(s, s.callers[i].at.client);
  }
}
