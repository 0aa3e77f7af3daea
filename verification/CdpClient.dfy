/**
 * The request/reply multiplexer of sidecar/browser.go as a step system: any number of
 * sendOnTimeout callers, the one read loop, and the one-shot event waiters. One step is one
 * atomic action: an atomic counter, one critical section, one channel operation.
 */
module CdpClient {
  type EventName = string

  /** A reply as the read loop decodes it; `payload` stands for the result or error it carries. */
  datatype Reply = Reply(id: int, payload: string)

  datatype Outcome = Replied(reply: Reply) | TimedOut | WriteFailed | Closed

  datatype CallAt =
    | Entering
    | Numbering
    | Registering
    | Writing
    | Waiting
    | Forgetting(timedOut: bool)
    | Finished(outcome: Outcome)

  /** One sendOnTimeout call. id is 0 until msgID hands one out; chan is its reply channel, of capacity 1. */
  datatype Call = Call(at: CallAt, id: int, chan: seq<Reply>)

  /** A waitForEvent channel: its method, how often it was closed, and when (see fired in State). */
  datatype Waiter = Waiter(event: EventName, since: nat, closes: nat, closedBy: nat)

  datatype ReaderAt =
    | Reading
    | Delivering(call: nat, reply: Reply)
    | Firing(event: EventName, left: seq<nat>)
    | ReaderFailed

  /** eventWaiters, the channels ever handed out, and how many events of each method have been taken. */
  datatype Events = Events(waiting: map<EventName, seq<nat>>, waiters: seq<Waiter>, fired: map<EventName, nat>)

  /** pending maps an id to the call that registered it. */
  datatype State = State(
    closed: bool, lastId: int, pending: map<int, nat>, calls: seq<Call>, reader: ReaderAt, events: Events)

  const INIT := State(false, 0, map[], [], Reading, Events(map[], [], map[]))

  datatype Step =
    | CallArrives
    | CallMoves(call: nat, ok: bool)
    | ReplyArrives(reply: Reply)
    | EventArrives(event: EventName)
    | ReaderMoves
    | PipeFails
    | ShutDown
    | WaiterRegisters(event: EventName)

  // ---- Callers ----

  predicate CallReady(s: State, c: nat, ok: bool) {
    c < |s.calls| &&
    match s.calls[c].at
    case Finished(_) => false
    case Waiting => ok ==> s.calls[c].chan != []   // ok: the reply, otherwise the timer
    case _ => true
  }

  function CallNextAt(s: State, call: Call, ok: bool): CallAt {
    match call.at
    case Entering => if s.closed then Finished(Closed) else Numbering
    case Numbering => Registering
    case Registering => Writing
    case Writing => if ok then Waiting else Forgetting(false)
    case Waiting => if ok && call.chan != [] then Finished(Replied(call.chan[0])) else Forgetting(true)
    case Forgetting(timedOut) => Finished(if timedOut then TimedOut else WriteFailed)
    case Finished(o) => Finished(o)
  }

  function CallStep(s: State, c: nat, ok: bool): State
    requires c < |s.calls|
  {
    var call := s.calls[c];
    var next := Call(CallNextAt(s, call, ok),
                     if call.at.Numbering? then s.lastId + 1 else call.id,
                     if call.at.Waiting? && ok && call.chan != [] then call.chan[1..] else call.chan);
    s.(lastId := if call.at.Numbering? then s.lastId + 1 else s.lastId,
       pending := if call.at.Registering? then s.pending[call.id := c]
                  else if call.at.Forgetting? then s.pending - {call.id} else s.pending,
       calls := s.calls[c := next])
  }

  // ---- The read loop ----

  /** A message with an id is a reply: look its channel up and take the entry out of pending, under pendMu. */
  function ReplyStep(s: State, r: Reply): State {
    if r.id in s.pending then s.(reader := Delivering(s.pending[r.id], r), pending := s.pending - {r.id})
    else s
  }

  function Fired(e: Events, m: EventName): nat {
    if m in e.fired then e.fired[m] else 0
  }

  function WaitingFor(e: Events, m: EventName): seq<nat> {
    if m in e.waiting then e.waiting[m] else []
  }

  /** A message with a method is an event: take all its waiters, under eventMu, to close them one by one. */
  function EventStep(s: State, m: EventName): State {
    s.(reader := Firing(m, WaitingFor(s.events, m)),
       events := s.events.(waiting := s.events.waiting - {m}, fired := s.events.fired[m := Fired(s.events, m) + 1]))
  }

  function CloseWaiter(e: Events, w: nat): Events {
    if w < |e.waiters| then
      e.(waiters := e.waiters[w := e.waiters[w].(closes := e.waiters[w].closes + 1,
                                                 closedBy := Fired(e, e.waiters[w].event))])
    else e
  }

  /** A send on a channel of capacity 1 blocks while a reply is still in it. */
  predicate ReaderReady(s: State) {
    match s.reader
    case Reading => false
    case Delivering(c, _) => c < |s.calls| && |s.calls[c].chan| < 1
    case Firing(_, _) => true
    case ReaderFailed => false
  }

  function ReaderStep(s: State): State {
    match s.reader
    case Delivering(c, r) =>
      if c < |s.calls| then
        s.(reader := Reading, calls := s.calls[c := s.calls[c].(chan := s.calls[c].chan + [r])])
      else s
    case Firing(m, left) =>
      if left == [] then s.(reader := Reading)
      else s.(reader := Firing(m, left[1..]), events := CloseWaiter(s.events, left[0]))
    case _ => s
  }

  /** waitForEvent. since counts the events of this method that were taken before it registered. */
  function RegisterWaiter(s: State, m: EventName): State {
    s.(events := s.events.(
         waiters := s.events.waiters + [Waiter(m, Fired(s.events, m), 0, 0)],
         waiting := s.events.waiting[m := WaitingFor(s.events, m) + [|s.events.waiters|]]))
  }

  predicate Enabled(s: State, step: Step) {
    match step
    case CallArrives => true
    case CallMoves(c, ok) => CallReady(s, c, ok)
    case ReplyArrives(r) => s.reader.Reading? && r.id != 0
    case EventArrives(m) => s.reader.Reading? && m != ""
    case ReaderMoves => ReaderReady(s)
    case PipeFails => s.reader.Reading?
    case ShutDown => true
    case WaiterRegisters(_) => true
  }

  function Apply(s: State, step: Step): State
    requires Enabled(s, step)
  {
    match step
    case CallArrives => s.(calls := s.calls + [Call(Entering, 0, [])])
    case CallMoves(c, ok) => CallStep(s, c, ok)
    case ReplyArrives(r) => ReplyStep(s, r)
    case EventArrives(m) => EventStep(s, m)
    case ReaderMoves => ReaderStep(s)
    case PipeFails => s.(reader := ReaderFailed, closed := true)
    case ShutDown => s.(closed := true)
    case WaiterRegisters(m) => RegisterWaiter(s, m)
  }

  ghost predicate Run(states: seq<State>, steps: seq<Step>) {
    && |states| == |steps| + 1
    && states[0] == INIT
    && forall k :: 0 <= k < |steps| ==> Enabled(states[k], steps[k]) && states[k + 1] == Apply(states[k], steps[k])
  }

  // ---- Invariants ----

  predicate Numbered(at: CallAt) {
    !at.Entering? && !at.Numbering? && at != Finished(Closed)
  }

  /** The call whose reply the read loop has taken out of pending but not yet put into the channel. */
  predicate InHand(s: State, c: nat) {
    s.reader.Delivering? && s.reader.call == c
  }

  predicate Holds(s: State, c: nat)
    requires c < |s.calls|
  {
    s.calls[c].id in s.pending && s.pending[s.calls[c].id] == c
  }

  predicate CallOk(s: State, c: nat)
    requires c < |s.calls|
  {
    var call := s.calls[c];
    && (Numbered(call.at) ==> 0 < call.id <= s.lastId)
    && (!Numbered(call.at) ==> call.id == 0 && call.chan == [] && !InHand(s, c))
    && (call.at.Registering? ==> call.id !in s.pending && call.chan == [] && !InHand(s, c))
    // Exactly one of: still pending, being delivered, delivered, or over.
    && |call.chan| <= 1
    && (forall r :: r in call.chan ==> r.id == call.id)
    && (Holds(s, c) ==> call.chan == [] && !InHand(s, c))
    && (InHand(s, c) ==> call.chan == [] && s.reader.reply.id == call.id)
    && (call.at.Finished? ==> !Holds(s, c))
    && (call.at.Finished? && call.at.outcome.Replied? ==>
          call.at.outcome.reply.id == call.id && call.chan == [] && !InHand(s, c))
  }

  predicate CallsOk(s: State) {
    && s.lastId >= 0
    && (forall c :: 0 <= c < |s.calls| ==> CallOk(s, c))
    && (forall b, c :: 0 <= b < |s.calls| && 0 <= c < |s.calls| && s.calls[b].id == s.calls[c].id != 0 ==> b == c)
    && (forall id :: id in s.pending ==> s.pending[id] < |s.calls| && s.calls[s.pending[id]].id == id && id > 0)
    && (s.reader.Delivering? ==> s.reader.call < |s.calls|)
  }

  predicate Queued(e: Events, w: nat) {
    w < |e.waiters| && w in WaitingFor(e, e.waiters[w].event)
  }

  predicate BeingFired(s: State, w: nat) {
    s.reader.Firing? && w in s.reader.left
  }

  predicate Distinct(q: seq<nat>) {
    forall i, j :: 0 <= i < j < |q| ==> q[i] != q[j]
  }

  /** A waiter is queued until the next event of its method, then in the read loop's hand, then closed. */
  predicate WaiterOk(s: State, w: nat)
    requires w < |s.events.waiters|
  {
    var me := s.events.waiters[w];
    var now := Fired(s.events, me.event);
    && me.since <= now
    && (me.closes == 0 ==> (if now == me.since then Queued(s.events, w) else BeingFired(s, w)))
    && (me.closes == 0 && now > me.since ==> now == me.since + 1)
    && (me.closes > 0 ==> me.closes == 1 && me.closedBy == me.since + 1 <= now)
    && (Queued(s.events, w) ==> me.closes == 0 && now == me.since)
    && (BeingFired(s, w) ==> me.closes == 0 && now == me.since + 1 && me.event == s.reader.event)
  }

  predicate EventsOk(s: State) {
    && (forall w :: 0 <= w < |s.events.waiters| ==> WaiterOk(s, w))
    && (forall m :: m in s.events.waiting ==> Distinct(s.events.waiting[m]))
    && (forall m, i :: m in s.events.waiting && 0 <= i < |s.events.waiting[m]| ==>
          s.events.waiting[m][i] < |s.events.waiters| && s.events.waiters[s.events.waiting[m][i]].event == m)
    && (s.reader.Firing? ==> Distinct(s.reader.left))
    && (s.reader.Firing? ==> forall i :: 0 <= i < |s.reader.left| ==> s.reader.left[i] < |s.events.waiters|)
  }

  lemma MoverKeepsCall(s: State, c: nat, ok: bool)
    requires CallsOk(s) && CallReady(s, c, ok)
    ensures CallOk(CallStep(s, c, ok), c)
  {
    assert CallOk(s, c);
    forall id | id in s.pending ensures id <= s.lastId {
      assert CallOk(s, s.pending[id]);
    }
  }

  lemma OthersKeepCall(s: State, c: nat, ok: bool, d: nat)
    requires CallsOk(s) && CallReady(s, c, ok) && d < |s.calls| && d != c
    ensures CallOk(CallStep(s, c, ok), d)
  {
    assert CallOk(s, c) && CallOk(s, d);
    assert s.calls[d].id == s.calls[c].id ==> s.calls[c].id == 0;
  }

  lemma CallStepKeepsCalls(s: State, c: nat, ok: bool)
    requires CallsOk(s) && CallReady(s, c, ok)
    ensures CallsOk(CallStep(s, c, ok))
  {
    var t := CallStep(s, c, ok);
    assert CallOk(s, c);
    forall d | 0 <= d < |s.calls| ensures s.calls[d].id <= s.lastId {
      assert CallOk(s, d);
    }
    forall d | 0 <= d < |t.calls| ensures CallOk(t, d) {
      if d == c {
        MoverKeepsCall(s, c, ok);
      } else {
        OthersKeepCall(s, c, ok, d);
      }
    }
  }

  lemma ReplyKeepsCalls(s: State, r: Reply)
    requires CallsOk(s) && s.reader.Reading? && r.id != 0
    ensures CallsOk(ReplyStep(s, r))
  {
    var t := ReplyStep(s, r);
    forall d | 0 <= d < |t.calls| ensures CallOk(t, d) {
      assert CallOk(s, d);
    }
  }

  lemma ReaderKeepsCalls(s: State)
    requires CallsOk(s) && ReaderReady(s)
    ensures CallsOk(ReaderStep(s))
  {
    var t := ReaderStep(s);
    forall d | 0 <= d < |t.calls| ensures CallOk(t, d) {
      assert CallOk(s, d);
    }
  }

  lemma OutsideKeepsCalls(s: State, step: Step)
    requires CallsOk(s) && Enabled(s, step)
    requires !step.CallMoves? && !step.ReplyArrives? && !step.ReaderMoves?
    ensures CallsOk(Apply(s, step))
  {
    var t := Apply(s, step);
    forall d | 0 <= d < |t.calls| ensures CallOk(t, d) {
      assert d < |s.calls| ==> CallOk(s, d);
    }
  }

  lemma StepKeepsCalls(s: State, step: Step)
    requires CallsOk(s) && Enabled(s, step)
    ensures CallsOk(Apply(s, step))
  {
    match step
    case CallMoves(c, ok) => CallStepKeepsCalls(s, c, ok);
    case ReplyArrives(r) => ReplyKeepsCalls(s, r);
    case ReaderMoves => ReaderKeepsCalls(s);
    case _ => OutsideKeepsCalls(s, step);
  }

  lemma EventKeepsEvents(s: State, m: EventName)
    requires EventsOk(s) && s.reader.Reading?
    ensures EventsOk(EventStep(s, m))
  {
    var t := EventStep(s, m);
    forall w | 0 <= w < |t.events.waiters| ensures WaiterOk(t, w) {
      assert WaiterOk(s, w);
    }
  }

  lemma RegisterKeepsEvents(s: State, m: EventName)
    requires EventsOk(s)
    ensures EventsOk(RegisterWaiter(s, m))
  {
    var t := RegisterWaiter(s, m);
    forall w | 0 <= w < |t.events.waiters| ensures WaiterOk(t, w) {
      assert w < |s.events.waiters| ==> WaiterOk(s, w);
    }
  }

  lemma ClosingKeepsEvents(s: State)
    requires EventsOk(s) && s.reader.Firing? && s.reader.left != []
    ensures EventsOk(ReaderStep(s))
  {
    var t := ReaderStep(s);
    var left := s.reader.left;
    assert left == [left[0]] + left[1..] && left[0] in left;
    assert WaiterOk(s, left[0]) && BeingFired(s, left[0]);
    forall w | 0 <= w < |t.events.waiters| ensures WaiterOk(t, w) {
      assert WaiterOk(s, w);
      assert BeingFired(t, w) <==> BeingFired(s, w) && w != left[0];
    }
  }

  lemma ReaderKeepsEvents(s: State)
    requires EventsOk(s) && ReaderReady(s)
    ensures EventsOk(ReaderStep(s))
  {
    if s.reader.Firing? && s.reader.left != [] {
      ClosingKeepsEvents(s);
    } else {
      var t := ReaderStep(s);
      forall w | 0 <= w < |t.events.waiters| ensures WaiterOk(t, w) {
        assert WaiterOk(s, w);
      }
    }
  }

  lemma StepKeepsEvents(s: State, step: Step)
    requires EventsOk(s) && Enabled(s, step)
    ensures EventsOk(Apply(s, step))
  {
    match step
    case EventArrives(m) => EventKeepsEvents(s, m);
    case WaiterRegisters(m) => RegisterKeepsEvents(s, m);
    case ReaderMoves => ReaderKeepsEvents(s);
    case _ =>
      var t := Apply(s, step);
      forall w | 0 <= w < |t.events.waiters| ensures WaiterOk(t, w) {
        assert WaiterOk(s, w);
      }
  }

  lemma {:induction false} RunKeeps(states: seq<State>, steps: seq<Step>, k: nat)
    requires Run(states, steps) && k < |states|
    ensures CallsOk(states[k]) && EventsOk(states[k])
  {
    if k > 0 {
      RunKeeps(states, steps, k - 1);
      StepKeepsCalls(states[k - 1], steps[k - 1]);
      StepKeepsEvents(states[k - 1], steps[k - 1]);
    }
  }

  // ---- Main results: replies ----

  /** A call that ends with a reply ends with one that carries its own id. */
  lemma ReplyIsTheCallsOwn(states: seq<State>, steps: seq<Step>, k: nat, c: nat)
    requires Run(states, steps) && k < |states| && c < |states[k].calls|
    requires states[k].calls[c].at.Finished? && states[k].calls[c].at.outcome.Replied?
    ensures states[k].calls[c].at.outcome.reply.id == states[k].calls[c].id > 0
    ensures forall d :: 0 <= d < |states[k].calls| && d != c ==> states[k].calls[d].id != states[k].calls[c].id
  {
    RunKeeps(states, steps, k);
    assert CallOk(states[k], c);
  }

  /** The reply channel is empty whenever the read loop sends on it, so the read loop never blocks. */
  lemma ReadLoopNeverBlocks(states: seq<State>, steps: seq<Step>, k: nat)
    requires Run(states, steps) && k < |states|
    ensures states[k].reader.Delivering? ==> ReaderReady(states[k])
  {
    RunKeeps(states, steps, k);
    if states[k].reader.Delivering? {
      assert CallOk(states[k], states[k].reader.call);
    }
  }

  /** However a call ends (reply, timeout, write error, closed connection), its id is gone from pending. */
  lemma FinishedCallLeavesNothingPending(states: seq<State>, steps: seq<Step>, k: nat, c: nat)
    requires Run(states, steps) && k < |states| && c < |states[k].calls|
    requires states[k].calls[c].at.Finished?
    ensures states[k].calls[c].id !in states[k].pending
    ensures forall id :: id in states[k].pending ==> states[k].pending[id] != c
  {
    RunKeeps(states, steps, k);
    assert CallOk(states[k], c);
  }

  /** A call whose id has left pending and is in nobody's hand. */
  predicate Settled(s: State, c: nat) {
    c < |s.calls| && Numbered(s.calls[c].at) && !s.calls[c].at.Registering? && !Holds(s, c) && !InHand(s, c)
  }

  predicate DeliversTo(s: State, step: Step, c: nat) {
    step.ReaderMoves? && InHand(s, c)
  }

  lemma StepKeepsSettled(s: State, step: Step, c: nat)
    requires CallsOk(s) && Enabled(s, step)
    ensures Settled(s, c) ==> Settled(Apply(s, step), c)
    ensures DeliversTo(s, step, c) ==> Settled(Apply(s, step), c)
  {
    if c < |s.calls| {
      assert CallOk(s, c);
    }
    if step.CallMoves? {
      assert CallOk(s, step.call);
    }
  }

  lemma RunKeepsSettled(states: seq<State>, steps: seq<Step>, k: nat, c: nat)
    requires Run(states, steps) && k < |steps|
    ensures Settled(states[k], c) ==> Settled(states[k + 1], c)
    ensures DeliversTo(states[k], steps[k], c) ==> Settled(states[k + 1], c)
  {
    RunKeeps(states, steps, k);
    StepKeepsSettled(states[k], steps[k], c);
  }

  lemma {:induction false} SettledStays(states: seq<State>, steps: seq<Step>, i: nat, j: nat, c: nat)
    requires Run(states, steps) && i <= j < |states| && Settled(states[i], c)
    ensures Settled(states[j], c)
    decreases j - i
  {
    if i < j {
      RunKeepsSettled(states, steps, i, c);
      SettledStays(states, steps, i + 1, j, c);
    }
  }

  /** No call is ever sent a second reply, even by a browser that answers an id twice or after the timeout. */
  lemma AtMostOneReplyPerCall(states: seq<State>, steps: seq<Step>, i: nat, j: nat, c: nat)
    requires Run(states, steps) && i < j < |steps|
    requires DeliversTo(states[i], steps[i], c)
    ensures !DeliversTo(states[j], steps[j], c)
  {
    RunKeeps(states, steps, i);
    StepKeepsSettled(states[i], steps[i], c);
    SettledStays(states, steps, i + 1, j, c);
  }

  // ---- Main results: events ----

  /** How many messages naming this event the read loop has handled in the first k steps. */
  function EventCount(steps: seq<Step>, k: nat, m: EventName): nat
    requires k <= |steps|
  {
    if k == 0 then 0 else EventCount(steps, k - 1, m) + (if steps[k - 1] == EventArrives(m) then 1 else 0)
  }

  lemma {:induction false} FiredCountsEvents(states: seq<State>, steps: seq<Step>, k: nat, m: EventName)
    requires Run(states, steps) && k < |states|
    ensures Fired(states[k].events, m) == EventCount(steps, k, m)
  {
    if k > 0 {
      FiredCountsEvents(states, steps, k - 1, m);
    }
  }

  lemma {:induction false} WaiterKeepsItsStart(states: seq<State>, steps: seq<Step>, i: nat, k: nat, m: EventName)
    requires Run(states, steps) && i < |steps| && steps[i] == WaiterRegisters(m) && i < k < |states|
    ensures var w := |states[i].events.waiters|;
            && w < |states[k].events.waiters|
            && states[k].events.waiters[w].event == m
            && states[k].events.waiters[w].since == Fired(states[i].events, m)
  {
    if i + 1 < k {
      WaiterKeepsItsStart(states, steps, i, k - 1, m);
    }
  }

  /**
   * A waiter registered at step i is closed exactly once, by the first event of that name after it:
   * between events, it is closed if and only if such an event has been handled since.
   */
  lemma {:induction false} WaiterClosedByTheFirstEvent(states: seq<State>, steps: seq<Step>, i: nat, k: nat, m: EventName)
    requires Run(states, steps) && i < |steps| && steps[i] == WaiterRegisters(m) && i < k < |states|
    ensures var w := |states[i].events.waiters|;
            && w < |states[k].events.waiters|
            && (states[k].reader.Reading? ==>
                  states[k].events.waiters[w].closes ==
                    if EventCount(steps, k, m) > EventCount(steps, i, m) then 1 else 0)
            && states[k].events.waiters[w].closes <= 1
            && (states[k].events.waiters[w].closes == 1 ==>
                  states[k].events.waiters[w].closedBy == EventCount(steps, i, m) + 1)
  {
    WaiterKeepsItsStart(states, steps, i, k, m);
    FiredCountsEvents(states, steps, i, m);
    FiredCountsEvents(states, steps, k, m);
    RunKeeps(states, steps, k);
    assert WaiterOk(states[k], |states[i].events.waiters|);
  }
}
