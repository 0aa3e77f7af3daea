/**
 * The first-run window of sidecar/hosted_window.go as a step system: the main thread, the
 * goroutines of the hosted handshake, of deep links and of pasted tokens, the deep-link listener
 * of sidecar/deeplink.go, and the closures they post to the window's thread. One step is one
 * atomic action of one of them.
 */
module FirstRun {
  type Token = string
  type Nonce = string

  // ---- The goroutines joined through handshakeWG ----

  /** What the outside world answers: a value, a reported failure, a silent end, or a progress hint. */
  datatype Outcome = Good(text: string) | Bad | Quiet | Progress

  datatype HandshakeAt =
    | Registering
    | Publishing(nonce: Nonce)
    | PostingUrl
    | Launching
    | Awaiting
    | Checking(jwt: Token)
    | Storing(jwt: Token)
    | PostingConnected
    | Dwelling
    | PostingError
    | PostingClear
    | Leaving
    | Gone

  datatype LinkAt = Decoding | Verifying | StoringLink | PostingDone | DwellingLink | LeavingLink | GoneLink

  datatype PasteAt = VerifyingPaste | PostingVerdict(ok: bool) | LeavingPaste | GonePaste

  datatype ReopenAt = Opening | PostingFailure | LeavingReopen | GoneReopen

  datatype Worker =
    | Handshake(handshake: HandshakeAt)
    | DeepLink(nonce: Nonce, tok: Token, link: LinkAt)
    | Paste(tok: Token, paste: PasteAt)
    | Reopen(reopen: ReopenAt)

  /**
   * A closure posted with Dispatch. The paints are the SetHtml and Eval closures, by the flag each
   * re-checks before it touches the window.
   */
  datatype Closure =
    | ClearHandshake
    | ClearReopen
    | SetUrl
    | PaintUnlessCancelled
    | PaintUnlessTorn
    | TerminateLoop
    | Verdict(tok: Token, ok: bool)

  function HandshakeNext(at: HandshakeAt, selfHost: bool, o: Outcome): HandshakeAt {
    match at
    case Registering => if o.Good? then Publishing(o.text) else if o.Bad? then PostingError else PostingClear
    case Publishing(_) => PostingUrl
    case PostingUrl => Launching
    case Launching => if o.Quiet? then PostingClear else Awaiting
    case Awaiting =>
      if o.Good? then Checking(o.text) else if o.Progress? then Awaiting
      else if o.Bad? then PostingError else PostingClear
    case Checking(jwt) => if selfHost then PostingConnected else Storing(jwt)
    case Storing(_) => PostingConnected
    case PostingConnected => Dwelling
    case Dwelling => PostingClear
    case PostingError => PostingClear
    case PostingClear => Leaving
    case Leaving => Gone
    case Gone => Gone
  }

  function HandshakePosts(at: HandshakeAt, o: Outcome): multiset<Closure> {
    match at
    case PostingUrl => multiset{SetUrl}
    case Launching => if o.Quiet? then multiset{} else multiset{PaintUnlessCancelled}
    case Awaiting => if o.Progress? then multiset{PaintUnlessCancelled} else multiset{}
    case PostingConnected => multiset{PaintUnlessTorn}
    case Dwelling => multiset{TerminateLoop}
    case PostingError => multiset{PaintUnlessCancelled}
    case PostingClear => multiset{ClearHandshake}
    case _ => multiset{}
  }

  function LinkNext(at: LinkAt, o: Outcome): LinkAt {
    match at
    case Decoding => if o.Good? then Verifying else LeavingLink
    case Verifying => if o.Good? then StoringLink else LeavingLink
    case StoringLink => PostingDone
    case PostingDone => DwellingLink
    case DwellingLink => LeavingLink
    case LeavingLink => GoneLink
    case GoneLink => GoneLink
  }

  function PasteNext(at: PasteAt, o: Outcome): PasteAt {
    match at
    case VerifyingPaste => PostingVerdict(o.Good?)
    case PostingVerdict(_) => LeavingPaste
    case LeavingPaste => GonePaste
    case GonePaste => GonePaste
  }

  function ReopenNext(at: ReopenAt, o: Outcome): ReopenAt {
    match at
    case Opening => if o.Bad? then PostingFailure else LeavingReopen
    case PostingFailure => LeavingReopen
    case LeavingReopen => GoneReopen
    case GoneReopen => GoneReopen
  }

  function WorkerNext(w: Worker, selfHost: bool, o: Outcome): Worker {
    match w
    case Handshake(at) => Handshake(HandshakeNext(at, selfHost, o))
    case DeepLink(n, t, at) => DeepLink(n, t, LinkNext(at, o))
    case Paste(t, at) => Paste(t, PasteNext(at, o))
    case Reopen(at) => Reopen(ReopenNext(at, o))
  }

  function WorkerPosts(w: Worker, o: Outcome): multiset<Closure> {
    match w
    case Handshake(at) => HandshakePosts(at, o)
    case DeepLink(_, _, at) =>
      if at.PostingDone? then multiset{PaintUnlessTorn}
      else if at.DwellingLink? then multiset{TerminateLoop} else multiset{}
    case Paste(t, at) => if at.PostingVerdict? then multiset{Verdict(t, at.ok)} else multiset{}
    case Reopen(at) =>
      if at.Opening? then multiset{ClearReopen}
      else if at.PostingFailure? then multiset{PaintUnlessCancelled} else multiset{}
  }

  predicate Finished(w: Worker) {
    match w
    case Handshake(at) => at.Gone?
    case DeepLink(_, _, at) => at.GoneLink?
    case Paste(_, at) => at.GonePaste?
    case Reopen(at) => at.GoneReopen?
  }

  // ---- The window ----

  datatype MainAt =
    | Binding
    | Listening
    | Showing
    | InLoop
    | MarkTorn
    | FlagClosed | CloseSocket | JoinCallbacks
    | CancelAll | JoinWorkers | ReadToken
    | StopReveal | JoinReveal | DestroyWindow
    | Returned
    | Failed

  datatype Flags = Flags(cancelled: bool, verifyCancelled: bool, selfHost: bool, torn: bool, destroyed: bool)

  /** The locals that only the window's thread uses. quit: the loop was told to end. */
  datatype Ui = Ui(formActive: bool, verifyInFlight: bool, handshakeInFlight: bool, reopenInFlight: bool,
                   haveUrl: bool, quit: bool)

  /**
   * token is the variable the goroutines write, returned what runFirstRunWindow hands back.
   * captured and verified record the hosted tokens whose goroutine found self-host not chosen, and
   * the tokens whose brain accepted them.
   */
  datatype Creds = Creds(token: Token, returned: Token, captured: set<Token>, verified: set<Token>)

  /** The live nonce, every nonce that was registered, and deepLinkBusy. */
  datatype Nonces = Nonces(current: Nonce, registered: set<Nonce>, busy: bool)

  datatype AcceptAt = NotListening | Accepting | Accepted | AcceptOver

  datatype ConnAt =
    | Reading
    | Heard(uri: LinkUri)
    | Matching(nonce: Nonce, tok: Token)
    | Claiming(nonce: Nonce, tok: Token)
    | Adding(nonce: Nonce, tok: Token)
    | ConnOver

  /** What a connection delivered: nothing usable, or the nonce and token of an enroll link. */
  datatype LinkUri = NotALink | Link(nonce: Nonce, tok: Token)

  datatype Listener = Listener(open: bool, closed: bool, accept: AcceptAt, conns: seq<ConnAt>)

  datatype RevealAt = NoReveal | Armed | Posting | RevealOver

  datatype Reveal = Reveal(at: RevealAt, stop: bool)

  /** touched records a Dispatch, or a closure that passed its guard, after the engine was destroyed. */
  datatype State = State(
    main: MainAt, flags: Flags, ui: Ui, creds: Creds, nonces: Nonces, listener: Listener, revealer: Reveal,
    workers: seq<Worker>, outstanding: set<nat>, posted: multiset<Closure>, touched: bool)

  const INIT := State(
    Binding, Flags(false, false, false, false, false), Ui(false, false, false, false, false, false),
    Creds("", "", {}, {}), Nonces("", {}, false), Listener(false, false, NotListening, []), Reveal(NoReveal, false),
    [], {}, multiset{}, false)

  /** What the user does in the window; each binding runs on the window's thread, inside Run. */
  datatype UiEvent =
    | ChooseSelfHost
    | SubmitToken(tok: Token)
    | OpenConnectPage
    | RetryHosted
    | CloseWindow

  datatype Step =
    | MainMoves(ok: bool)
    | UserActs(event: UiEvent)
    | ClosureRuns(closure: Closure)
    | WorkerMoves(w: nat, outcome: Outcome)
    | AcceptMoves
    | ConnMoves(c: nat, heard: LinkUri)
    | RevealMoves(noticed: bool)

  predicate AfterRun(at: MainAt) {
    at.MarkTorn? || at.FlagClosed? || at.CloseSocket? || at.JoinCallbacks? || AfterCallbacks(at)
  }

  /** dl.Close has returned. */
  predicate AfterCallbacks(at: MainAt) {
    at.CancelAll? || at.JoinWorkers? || AfterJoin(at)
  }

  /** handshakeWG.Wait has returned. */
  predicate AfterJoin(at: MainAt) {
    at.ReadToken? || AfterRead(at)
  }

  predicate AfterRead(at: MainAt) {
    at.StopReveal? || at.JoinReveal? || at.DestroyWindow? || at.Returned?
  }

  // ---- The main thread ----

  predicate MainReady(s: State) {
    match s.main
    case InLoop => s.ui.quit
    case JoinCallbacks =>
      (s.listener.accept.NotListening? || s.listener.accept.AcceptOver?) &&
      forall c :: 0 <= c < |s.listener.conns| ==> s.listener.conns[c].ConnOver?
    case JoinWorkers => s.outstanding == {}
    case JoinReveal => s.revealer.at.NoReveal? || s.revealer.at.RevealOver?
    case Returned => false
    case Failed => false
    case _ => true
  }

  function MainNext(at: MainAt, ok: bool): MainAt {
    match at
    case Binding => if ok then Listening else Failed
    case Listening => Showing
    case Showing => InLoop
    case InLoop => MarkTorn
    case MarkTorn => FlagClosed
    case FlagClosed => CloseSocket
    case CloseSocket => JoinCallbacks
    case JoinCallbacks => CancelAll
    case CancelAll => JoinWorkers
    case JoinWorkers => ReadToken
    case ReadToken => StopReveal
    case StopReveal => JoinReveal
    case JoinReveal => DestroyWindow
    case DestroyWindow => Returned
    case Returned => Returned
    case Failed => Failed
  }

  function MainFlags(at: MainAt, f: Flags): Flags {
    match at
    case MarkTorn => f.(torn := true)
    case CancelAll => f.(cancelled := true, verifyCancelled := true)
    case DestroyWindow => f.(destroyed := true)
    case _ => f
  }

  function MainListener(at: MainAt, ok: bool, l: Listener): Listener {
    match at
    case Listening => if ok then l.(open := true, accept := Accepting) else l
    case FlagClosed => l.(closed := true)
    case CloseSocket => l.(open := false)
    case _ => l
  }

  function MainReveal(at: MainAt, r: Reveal): Reveal {
    match at
    case Showing => r.(at := Armed)
    case StopReveal => r.(stop := true)
    case _ => r
  }

  function MainStep(s: State, ok: bool): State {
    State(MainNext(s.main, ok), MainFlags(s.main, s.flags),
          if s.main.Showing? then s.ui.(handshakeInFlight := true) else s.ui,
          if s.main.ReadToken? then s.creds.(returned := s.creds.token) else s.creds,
          s.nonces, MainListener(s.main, ok, s.listener), MainReveal(s.main, s.revealer),
          if s.main.Showing? then s.workers + [Handshake(Registering)] else s.workers,
          if s.main.Showing? then s.outstanding + {|s.workers|} else s.outstanding,
          s.posted, s.touched)
  }

  // ---- Bindings and closures, on the window's thread ----

  predicate UserReady(s: State, e: UiEvent) {
    s.main.InLoop? &&
    match e
    case SubmitToken(tok) => s.ui.formActive && !s.ui.verifyInFlight && tok != ""
    case OpenConnectPage => s.ui.haveUrl && !s.ui.reopenInFlight
    case RetryHosted => !s.flags.cancelled && !s.ui.handshakeInFlight
    case _ => true
  }

  function UserUi(ui: Ui, e: UiEvent): Ui {
    match e
    case ChooseSelfHost => ui.(formActive := true, haveUrl := false)
    case SubmitToken(_) => ui.(verifyInFlight := true)
    case OpenConnectPage => ui.(reopenInFlight := true)
    case RetryHosted => ui.(formActive := false, haveUrl := false, handshakeInFlight := true)
    case CloseWindow => ui.(quit := true)
  }

  function UserAdds(e: UiEvent): seq<Worker> {
    match e
    case SubmitToken(tok) => [Paste(tok, VerifyingPaste)]
    case OpenConnectPage => [Reopen(Opening)]
    case RetryHosted => [Handshake(Registering)]
    case _ => []
  }

  function UserStep(s: State, e: UiEvent): State {
    var added := UserAdds(e);
    s.(flags := if e.ChooseSelfHost? then s.flags.(selfHost := true, cancelled := true) else s.flags,
       ui := UserUi(s.ui, e),
       workers := s.workers + added,
       outstanding := if added == [] then s.outstanding else s.outstanding + {|s.workers|},
       posted := if e.ChooseSelfHost? || e.RetryHosted? then s.posted + multiset{PaintUnlessTorn} else s.posted)
  }

  /** Posted closures run in this window's loop, and any left over may run in a later loop of the process. */
  predicate ClosureReady(s: State, c: Closure) {
    c in s.posted && (s.main.InLoop? || s.main.Returned?)
  }

  /** The closure's own guard lets it through to the window. */
  predicate Passes(f: Flags, c: Closure) {
    match c
    case ClearHandshake => false
    case ClearReopen => false
    case SetUrl => false
    case PaintUnlessCancelled => !f.cancelled
    case PaintUnlessTorn => !f.torn
    case TerminateLoop => !f.torn
    case Verdict(_, _) => !f.torn && !f.verifyCancelled
  }

  function ClosureUi(ui: Ui, f: Flags, c: Closure): Ui {
    match c
    case ClearHandshake => ui.(handshakeInFlight := false)
    case ClearReopen => ui.(reopenInFlight := false)
    case SetUrl => if f.cancelled then ui else ui.(haveUrl := true)
    case TerminateLoop => if Passes(f, c) then ui.(quit := true) else ui
    case Verdict(_, ok) => if Passes(f, c) then ui.(verifyInFlight := false, quit := ui.quit || ok) else ui
    case _ => ui
  }

  function ClosureStep(s: State, c: Closure): State {
    s.(ui := ClosureUi(s.ui, s.flags, c),
       creds := if c.Verdict? && c.ok && Passes(s.flags, c) then s.creds.(token := c.tok) else s.creds,
       posted := s.posted - multiset{c},
       touched := s.touched || (s.flags.destroyed && Passes(s.flags, c)))
  }

  // ---- The goroutines ----

  /** A value that arrives is not empty: a nonce is 32 random bytes, and an empty token is refused. */
  predicate WorkerReady(s: State, w: nat, o: Outcome) {
    w < |s.workers| && !Finished(s.workers[w]) && (o.Good? ==> o.text != "")
  }

  function WorkerCreds(c: Creds, w: Worker, selfHost: bool, o: Outcome): Creds {
    match w
    case Handshake(at) =>
      if at.Checking? && !selfHost then c.(captured := c.captured + {at.jwt})
      else if at.Storing? then c.(token := at.jwt) else c
    case DeepLink(_, t, at) =>
      if at.Verifying? && o.Good? then c.(verified := c.verified + {t})
      else if at.StoringLink? then c.(token := t) else c
    case Paste(t, at) => if at.VerifyingPaste? && o.Good? then c.(verified := c.verified + {t}) else c
    case Reopen(_) => c
  }

  function WorkerNonces(n: Nonces, w: Worker): Nonces {
    if w.Handshake? && w.handshake.Publishing? then
      n.(current := w.handshake.nonce, registered := n.registered + {w.handshake.nonce})
    else if w.DeepLink? && w.link.LeavingLink? then n.(busy := false)
    else n
  }

  function WorkerStep(s: State, w: nat, o: Outcome): State
    requires w < |s.workers|
  {
    var was := s.workers[w];
    var next := WorkerNext(was, s.flags.selfHost, o);
    s.(creds := WorkerCreds(s.creds, was, s.flags.selfHost, o),
       nonces := WorkerNonces(s.nonces, was),
       workers := s.workers[w := next],
       outstanding := if Finished(next) then s.outstanding - {w} else s.outstanding,
       posted := s.posted + WorkerPosts(was, o),
       touched := s.touched || (s.flags.destroyed && WorkerPosts(was, o) != multiset{}))
  }

  // ---- The deep-link listener ----

  predicate AcceptReady(l: Listener) {
    l.accept.Accepting? || l.accept.Accepted?
  }

  /** Accept returns a connection, or fails once the socket is closed; each connection gets a goroutine. */
  function AcceptStep(s: State): State {
    var l := s.listener;
    s.(listener :=
      if l.accept.Accepted? then l.(accept := Accepting, conns := l.conns + [Reading])
      else if l.open then l.(accept := Accepted)
      else l.(accept := AcceptOver))
  }

  predicate ConnReady(s: State, c: nat) {
    c < |s.listener.conns| && !s.listener.conns[c].ConnOver?
  }

  function ConnNext(s: State, at: ConnAt, heard: LinkUri): ConnAt {
    match at
    case Reading => Heard(heard)
    case Heard(uri) =>
      if s.listener.closed || uri.NotALink? || uri.nonce == "" || uri.tok == "" then ConnOver
      else Matching(uri.nonce, uri.tok)
    case Matching(n, t) => if s.nonces.current == "" || n != s.nonces.current then ConnOver else Claiming(n, t)
    case Claiming(n, t) => if s.nonces.busy then ConnOver else Adding(n, t)
    case Adding(n, t) => ConnOver
    case ConnOver => ConnOver
  }

  function ConnStep(s: State, c: nat, heard: LinkUri): State
    requires c < |s.listener.conns|
  {
    var at := s.listener.conns[c];
    s.(listener := s.listener.(conns := s.listener.conns[c := ConnNext(s, at, heard)]),
       nonces := if at.Claiming? then s.nonces.(busy := true) else s.nonces,
       workers := if at.Adding? then s.workers + [DeepLink(at.nonce, at.tok, Decoding)] else s.workers,
       outstanding := if at.Adding? then s.outstanding + {|s.workers|} else s.outstanding)
  }

  // ---- The reveal timeout ----

  predicate RevealReady(r: Reveal, noticed: bool) {
    (r.at.Armed? && (noticed ==> r.stop)) || r.at.Posting?
  }

  function RevealStep(s: State, noticed: bool): State {
    if s.revealer.at.Armed? then s.(revealer := s.revealer.(at := if noticed then RevealOver else Posting))
    else s.(revealer := s.revealer.(at := RevealOver), touched := s.touched || s.flags.destroyed)
  }

  // ---- The whole system ----

  ghost predicate Enabled(s: State, step: Step) {
    match step
    case MainMoves(_) => MainReady(s)
    case UserActs(e) => UserReady(s, e)
    case ClosureRuns(c) => ClosureReady(s, c)
    case WorkerMoves(w, o) => WorkerReady(s, w, o)
    case AcceptMoves => AcceptReady(s.listener)
    case ConnMoves(c, _) => ConnReady(s, c)
    case RevealMoves(noticed) => RevealReady(s.revealer, noticed)
  }

  ghost function Apply(s: State, step: Step): State
    requires Enabled(s, step)
  {
    match step
    case MainMoves(ok) => MainStep(s, ok)
    case UserActs(e) => UserStep(s, e)
    case ClosureRuns(c) => ClosureStep(s, c)
    case WorkerMoves(w, o) => WorkerStep(s, w, o)
    case AcceptMoves => AcceptStep(s)
    case ConnMoves(c, heard) => ConnStep(s, c, heard)
    case RevealMoves(noticed) => RevealStep(s, noticed)
  }

  ghost predicate Run(states: seq<State>, steps: seq<Step>) {
    && |states| == |steps| + 1
    && states[0] == INIT
    && forall k :: 0 <= k < |steps| ==> Enabled(states[k], steps[k]) && states[k + 1] == Apply(states[k], steps[k])
  }

  // ---- Invariants ----

  predicate CallbacksOver(l: Listener) {
    && (l.accept.NotListening? || l.accept.AcceptOver?)
    && forall c :: 0 <= c < |l.conns| ==> l.conns[c].ConnOver?
  }

  predicate Outstanding(s: State) {
    && (forall w :: w in s.outstanding ==> w < |s.workers|)
    && (forall w :: 0 <= w < |s.workers| ==> (w in s.outstanding <==> !Finished(s.workers[w])))
  }

  /** The WaitGroup counts exactly the goroutines that are still running, and the joins stay joined. */
  predicate JoinsOk(s: State) {
    && Outstanding(s)
    && (AfterCallbacks(s.main) ==> CallbacksOver(s.listener))
    && (AfterJoin(s.main) ==> s.outstanding == {})
  }

  predicate FlagsOk(s: State) {
    && (s.flags.torn <==> AfterRun(s.main) && !s.main.MarkTorn?)
    && (s.main.JoinWorkers? || AfterJoin(s.main) ==> s.flags.cancelled && s.flags.verifyCancelled)
    && (AfterRead(s.main) ==> s.creds.returned == s.creds.token)
    && (s.main.DestroyWindow? || s.main.Returned? ==> s.revealer.at.NoReveal? || s.revealer.at.RevealOver?)
    && (s.flags.destroyed <==> s.main.Returned?)
    && (s.main.Failed? ==> s.creds.returned == "")
    && (!AfterRead(s.main) ==> s.creds.returned == "")
    && !s.touched
  }

  /** A goroutine that is about to store a token has the right to. */
  predicate WorkerOk(c: Creds, n: Nonces, w: Worker) {
    match w
    case Handshake(at) =>
      && (at.Publishing? ==> at.nonce != "")
      && (at.Checking? ==> at.jwt != "")
      && (at.Storing? ==> at.jwt in c.captured)
    case DeepLink(nonce, tok, at) =>
      tok != "" && nonce in n.registered && (at.StoringLink? ==> tok in c.verified)
    case Paste(tok, at) => tok != "" && (at.PostingVerdict? && at.ok ==> tok in c.verified)
    case Reopen(_) => true
  }

  predicate ConnOk(n: Nonces, at: ConnAt) {
    && (at.Matching? ==> at.tok != "")
    && (at.Claiming? || at.Adding? ==> at.tok != "" && at.nonce in n.registered)
  }

  predicate StoringHosted(w: Worker) {
    w.Handshake? && w.handshake.Storing?
  }

  ghost predicate CredsOk(s: State) {
    && "" !in s.creds.captured && "" !in s.creds.verified
    && (s.creds.token == "" || s.creds.token in s.creds.captured || s.creds.token in s.creds.verified)
    && (s.creds.captured != {} && s.creds.token == "" ==>
          exists w :: 0 <= w < |s.workers| && StoringHosted(s.workers[w]))
    && (s.nonces.current == "" || s.nonces.current in s.nonces.registered)
    && "" !in s.nonces.registered
    && (forall w :: 0 <= w < |s.workers| ==> WorkerOk(s.creds, s.nonces, s.workers[w]))
    && (forall c :: 0 <= c < |s.listener.conns| ==> ConnOk(s.nonces, s.listener.conns[c]))
    && (forall v :: v in s.posted && v.Verdict? && v.ok ==> v.tok in s.creds.verified)
  }

  /** A handshake goroutine that has not yet posted the closure that lets the next one start. */
  predicate Busy(w: Worker) {
    w.Handshake? && !w.handshake.Leaving? && !w.handshake.Gone?
  }

  predicate OneHandshake(s: State) {
    && (forall w :: 0 <= w < |s.workers| && Busy(s.workers[w]) ==> s.ui.handshakeInFlight)
    && (forall v, w :: 0 <= v < |s.workers| && 0 <= w < |s.workers| && Busy(s.workers[v]) && Busy(s.workers[w]) ==> v == w)
    && s.posted[ClearHandshake] <= 1
    && (s.posted[ClearHandshake] == 1 ==>
          s.ui.handshakeInFlight && forall w :: 0 <= w < |s.workers| ==> !Busy(s.workers[w]))
    && (s.main.Binding? || s.main.Listening? || s.main.Showing? ==>
          s.posted[ClearHandshake] == 0 && forall w :: 0 <= w < |s.workers| ==> !Busy(s.workers[w]))
  }

  predicate RunningLink(w: Worker) {
    w.DeepLink? && !w.link.GoneLink?
  }

  /** deepLinkBusy is held by one connection about to start a verification, or by one running verification. */
  predicate OneLink(s: State) {
    && (forall c :: 0 <= c < |s.listener.conns| && s.listener.conns[c].Adding? ==> s.nonces.busy)
    && (forall w :: 0 <= w < |s.workers| && RunningLink(s.workers[w]) ==> s.nonces.busy)
    && (forall c, d | 0 <= c < |s.listener.conns| && 0 <= d < |s.listener.conns| ::
          s.listener.conns[c].Adding? && s.listener.conns[d].Adding? ==> c == d)
    && (forall v, w | 0 <= v < |s.workers| && 0 <= w < |s.workers| ::
          RunningLink(s.workers[v]) && RunningLink(s.workers[w]) ==> v == w)
    && (forall c, w | 0 <= c < |s.listener.conns| && 0 <= w < |s.workers| ::
          s.listener.conns[c].Adding? ==> !RunningLink(s.workers[w]))
  }

  ghost predicate Inv(s: State) {
    JoinsOk(s) && FlagsOk(s) && CredsOk(s) && OneHandshake(s) && OneLink(s)
  }

  /** A step of a goroutine, a posted closure or a connection, rather than of the user or the main flow. */
  predicate Inner(step: Step) {
    step.WorkerMoves? || step.ClosureRuns? || step.ConnMoves?
  }

  lemma InnerStepKeepsJoins(s: State, step: Step)
    requires JoinsOk(s) && Enabled(s, step) && Inner(step)
    ensures JoinsOk(Apply(s, step))
  {
  }

  lemma MainStepKeepsJoins(s: State, ok: bool)
    requires JoinsOk(s) && MainReady(s)
    ensures JoinsOk(MainStep(s, ok))
  {
  }

  lemma OuterStepKeepsJoins(s: State, step: Step)
    requires JoinsOk(s) && Enabled(s, step) && !Inner(step)
    ensures JoinsOk(Apply(s, step))
  {
    if step.MainMoves? {
      MainStepKeepsJoins(s, step.ok);
    }
  }

  lemma StepKeepsJoins(s: State, step: Step)
    requires JoinsOk(s) && Enabled(s, step)
    ensures JoinsOk(Apply(s, step))
  {
    if Inner(step) {
      InnerStepKeepsJoins(s, step);
    } else {
      OuterStepKeepsJoins(s, step);
    }
  }

  lemma InnerStepKeepsFlags(s: State, step: Step)
    requires JoinsOk(s) && FlagsOk(s) && Enabled(s, step) && Inner(step)
    ensures FlagsOk(Apply(s, step))
  {
  }

  lemma OuterStepKeepsFlags(s: State, step: Step)
    requires JoinsOk(s) && FlagsOk(s) && Enabled(s, step) && !Inner(step)
    ensures FlagsOk(Apply(s, step))
  {
  }

  lemma StepKeepsFlags(s: State, step: Step)
    requires JoinsOk(s) && FlagsOk(s) && Enabled(s, step)
    ensures FlagsOk(Apply(s, step))
  {
    if Inner(step) {
      InnerStepKeepsFlags(s, step);
    } else {
      OuterStepKeepsFlags(s, step);
    }
  }

  /** Steps that leave the credentials alone and only add goroutines that are fit to run. */
  lemma AddingKeepsCreds(s: State, t: State)
    requires CredsOk(s)
    requires t.creds.(returned := s.creds.returned) == s.creds && t.nonces.(busy := s.nonces.busy) == s.nonces
    requires |s.workers| <= |t.workers| && t.workers[..|s.workers|] == s.workers
    requires forall w :: |s.workers| <= w < |t.workers| ==> WorkerOk(s.creds, s.nonces, t.workers[w])
    requires forall c :: 0 <= c < |t.listener.conns| ==> ConnOk(s.nonces, t.listener.conns[c])
    requires forall v :: v in t.posted && v.Verdict? ==> v in s.posted
    ensures CredsOk(t)
  {
    forall w | 0 <= w < |s.workers| ensures t.workers[w] == s.workers[w] {
      assert t.workers[..|s.workers|][w] == s.workers[w];
    }
    if s.creds.captured != {} && s.creds.token == "" {
      var w :| 0 <= w < |s.workers| && StoringHosted(s.workers[w]);
      assert StoringHosted(t.workers[w]);
    }
  }

  lemma WorkerMoveOk(c: Creds, n: Nonces, w: Worker, selfHost: bool, o: Outcome)
    requires WorkerOk(c, n, w) && (o.Good? ==> o.text != "")
    ensures WorkerOk(WorkerCreds(c, w, selfHost, o), WorkerNonces(n, w), WorkerNext(w, selfHost, o))
    ensures c.captured <= WorkerCreds(c, w, selfHost, o).captured
    ensures c.verified <= WorkerCreds(c, w, selfHost, o).verified
    ensures n.registered <= WorkerNonces(n, w).registered
  {
  }

  lemma WorkerMoveStores(c: Creds, n: Nonces, w: Worker, selfHost: bool, o: Outcome)
    requires WorkerOk(c, n, w) && (o.Good? ==> o.text != "")
    requires "" !in c.captured && "" !in c.verified
    ensures var d := WorkerCreds(c, w, selfHost, o);
            && "" !in d.captured && "" !in d.verified
            && (d.token != c.token ==> d.token in c.captured || d.token in c.verified)
            && (d.captured != c.captured ==> StoringHosted(WorkerNext(w, selfHost, o)))
            && (StoringHosted(w) ==> d.token != "")
  {
  }

  lemma WorkerMovePosts(c: Creds, n: Nonces, w: Worker, o: Outcome)
    requires WorkerOk(c, n, w)
    ensures forall v :: v in WorkerPosts(w, o) && v.Verdict? && v.ok ==> v.tok in c.verified
    ensures forall m :: m in WorkerNonces(n, w).registered ==> m in n.registered || m != ""
    ensures WorkerNonces(n, w).current != n.current ==> WorkerNonces(n, w).current in WorkerNonces(n, w).registered
  {
  }

  lemma WorkerStepKeepsCreds(s: State, w: nat, o: Outcome)
    requires CredsOk(s) && WorkerReady(s, w, o)
    ensures CredsOk(WorkerStep(s, w, o))
  {
    var t := WorkerStep(s, w, o);
    var was := s.workers[w];
    assert WorkerOk(s.creds, s.nonces, was);
    WorkerMoveOk(s.creds, s.nonces, was, s.flags.selfHost, o);
    WorkerMoveStores(s.creds, s.nonces, was, s.flags.selfHost, o);
    WorkerMovePosts(s.creds, s.nonces, was, o);
    forall v | 0 <= v < |t.workers| ensures WorkerOk(t.creds, t.nonces, t.workers[v]) {
      assert v != w ==> WorkerOk(s.creds, s.nonces, s.workers[v]);
    }
    forall c | 0 <= c < |t.listener.conns| ensures ConnOk(t.nonces, t.listener.conns[c]) {
      assert ConnOk(s.nonces, s.listener.conns[c]);
    }
    if t.creds.captured != {} && t.creds.token == "" {
      if s.creds.captured == t.creds.captured {
        var v :| 0 <= v < |s.workers| && StoringHosted(s.workers[v]);
        assert StoringHosted(t.workers[v]);
      } else {
        assert StoringHosted(t.workers[w]);
      }
    }
  }

  lemma ClosureStepKeepsCreds(s: State, c: Closure)
    requires CredsOk(s) && ClosureReady(s, c)
    ensures CredsOk(ClosureStep(s, c))
  {
    var t := ClosureStep(s, c);
    if t.creds == s.creds {
      AddingKeepsCreds(s, t);
    }
  }

  lemma ConnStepKeepsCreds(s: State, c: nat, heard: LinkUri)
    requires CredsOk(s) && ConnReady(s, c)
    ensures CredsOk(ConnStep(s, c, heard))
  {
    var t := ConnStep(s, c, heard);
    assert ConnOk(s.nonces, s.listener.conns[c]);
    forall d | 0 <= d < |t.listener.conns| ensures ConnOk(s.nonces, t.listener.conns[d]) {
      assert ConnOk(s.nonces, s.listener.conns[d]);
    }
    AddingKeepsCreds(s, t);
  }

  lemma OuterStepKeepsCreds(s: State, step: Step)
    requires CredsOk(s) && Enabled(s, step) && !Inner(step)
    ensures CredsOk(Apply(s, step))
  {
    AddingKeepsCreds(s, Apply(s, step));
  }

  lemma StepKeepsCreds(s: State, step: Step)
    requires CredsOk(s) && Enabled(s, step)
    ensures CredsOk(Apply(s, step))
  {
    match step
    case WorkerMoves(w, o) => WorkerStepKeepsCreds(s, w, o);
    case ClosureRuns(c) => ClosureStepKeepsCreds(s, c);
    case ConnMoves(c, heard) => ConnStepKeepsCreds(s, c, heard);
    case _ => OuterStepKeepsCreds(s, step);
  }

  lemma WorkerStepKeepsOneHandshake(s: State, w: nat, o: Outcome)
    requires OneHandshake(s) && WorkerReady(s, w, o)
    ensures OneHandshake(WorkerStep(s, w, o))
  {
    var t := WorkerStep(s, w, o);
    var was := s.workers[w];
    assert Busy(t.workers[w]) ==> Busy(was);
    assert WorkerPosts(was, o)[ClearHandshake] == 1 ==> Busy(was) && !Busy(t.workers[w]);
    assert WorkerPosts(was, o)[ClearHandshake] <= 1;
    forall v | 0 <= v < |t.workers| && v != w ensures t.workers[v] == s.workers[v] {
    }
  }

  lemma ClosureStepKeepsOneHandshake(s: State, c: Closure)
    requires OneHandshake(s) && ClosureReady(s, c)
    ensures OneHandshake(ClosureStep(s, c))
  {
  }

  lemma UserStepKeepsOneHandshake(s: State, e: UiEvent)
    requires OneHandshake(s) && UserReady(s, e)
    ensures OneHandshake(UserStep(s, e))
  {
    var t := UserStep(s, e);
    assert forall w :: 0 <= w < |s.workers| ==> t.workers[w] == s.workers[w];
  }

  lemma ConnStepKeepsOneHandshake(s: State, c: nat, heard: LinkUri)
    requires OneHandshake(s) && ConnReady(s, c)
    ensures OneHandshake(ConnStep(s, c, heard))
  {
    var t := ConnStep(s, c, heard);
    assert forall w :: 0 <= w < |t.workers| && Busy(t.workers[w]) ==> w < |s.workers| && t.workers[w] == s.workers[w];
  }

  lemma StepKeepsOneHandshake(s: State, step: Step)
    requires OneHandshake(s) && Enabled(s, step)
    ensures OneHandshake(Apply(s, step))
  {
    match step
    case WorkerMoves(w, o) => WorkerStepKeepsOneHandshake(s, w, o);
    case ClosureRuns(c) => ClosureStepKeepsOneHandshake(s, c);
    case ConnMoves(c, heard) => ConnStepKeepsOneHandshake(s, c, heard);
    case UserActs(e) => UserStepKeepsOneHandshake(s, e);
    case _ =>
  }

  lemma WorkerStepKeepsOneLink(s: State, w: nat, o: Outcome)
    requires OneLink(s) && WorkerReady(s, w, o)
    ensures OneLink(WorkerStep(s, w, o))
  {
    var t := WorkerStep(s, w, o);
    assert RunningLink(t.workers[w]) ==> RunningLink(s.workers[w]);
    assert forall v :: 0 <= v < |s.workers| && v != w ==> t.workers[v] == s.workers[v];
  }

  lemma ConnStepKeepsOneLink(s: State, c: nat, heard: LinkUri)
    requires OneLink(s) && ConnReady(s, c)
    ensures OneLink(ConnStep(s, c, heard))
  {
    var t := ConnStep(s, c, heard);
    assert forall w :: 0 <= w < |s.workers| ==> t.workers[w] == s.workers[w];
    assert forall d :: 0 <= d < |s.listener.conns| && d != c ==> t.listener.conns[d] == s.listener.conns[d];
  }

  /** Steps after which deepLinkBusy is as it was and no further goroutine or connection can hold it. */
  lemma OthersKeepOneLink(s: State, t: State)
    requires OneLink(s)
    requires t.nonces.busy == s.nonces.busy
    requires |s.workers| <= |t.workers|
    requires forall w :: 0 <= w < |t.workers| && RunningLink(t.workers[w]) ==>
               w < |s.workers| && RunningLink(s.workers[w])
    requires forall c :: 0 <= c < |t.listener.conns| && t.listener.conns[c].Adding? ==>
               c < |s.listener.conns| && s.listener.conns[c].Adding?
    ensures OneLink(t)
  {
  }

  lemma StepKeepsOneLink(s: State, step: Step)
    requires OneLink(s) && Enabled(s, step)
    ensures OneLink(Apply(s, step))
  {
    match step
    case WorkerMoves(w, o) => WorkerStepKeepsOneLink(s, w, o);
    case ConnMoves(c, heard) => ConnStepKeepsOneLink(s, c, heard);
    case _ => OthersKeepOneLink(s, Apply(s, step));
  }

  lemma {:induction false} RunKeeps(states: seq<State>, steps: seq<Step>, k: nat)
    requires Run(states, steps) && k < |states|
    ensures Inv(states[k])
  {
    if k > 0 {
      RunKeeps(states, steps, k - 1);
      StepKeepsJoins(states[k - 1], steps[k - 1]);
      StepKeepsFlags(states[k - 1], steps[k - 1]);
      StepKeepsCreds(states[k - 1], steps[k - 1]);
      StepKeepsOneHandshake(states[k - 1], steps[k - 1]);
      StepKeepsOneLink(states[k - 1], steps[k - 1]);
    }
  }

  // ---- Main results ----

  /** A handshake goroutine holding this hosted token finds that self-host was not chosen. */
  predicate Captures(s: State, step: Step, tok: Token) {
    && step.WorkerMoves? && step.w < |s.workers|
    && s.workers[step.w] == Handshake(Checking(tok))
    && !s.flags.selfHost
  }

  /** The brain accepts a deep-linked or pasted token. */
  predicate Verifies(s: State, step: Step, tok: Token) {
    && step.WorkerMoves? && step.w < |s.workers| && step.outcome.Good?
    && var w := s.workers[step.w];
       || (w.DeepLink? && w.tok == tok && w.link.Verifying?)
       || (w.Paste? && w.tok == tok && w.paste.VerifyingPaste?)
  }

  /** A handshake goroutine makes its registered nonce the window's live nonce. */
  predicate Publishes(s: State, step: Step, n: Nonce) {
    step.WorkerMoves? && step.w < |s.workers| && s.workers[step.w] == Handshake(Publishing(n))
  }

  lemma WorkerRecords(s: State, w: nat, o: Outcome, tok: Token)
    requires WorkerReady(s, w, o)
    ensures var c := WorkerCreds(s.creds, s.workers[w], s.flags.selfHost, o);
            && (tok in c.captured <==> tok in s.creds.captured || Captures(s, WorkerMoves(w, o), tok))
            && (tok in c.verified <==> tok in s.creds.verified || Verifies(s, WorkerMoves(w, o), tok))
  {
  }

  lemma InnerStepRecordsCapture(s: State, step: Step, tok: Token)
    requires Enabled(s, step) && Inner(step)
    ensures tok in Apply(s, step).creds.captured <==> tok in s.creds.captured || Captures(s, step, tok)
  {
    if step.WorkerMoves? {
      WorkerRecords(s, step.w, step.outcome, tok);
      assert Apply(s, step).creds == WorkerCreds(s.creds, s.workers[step.w], s.flags.selfHost, step.outcome);
    } else {
      assert Apply(s, step).creds.captured == s.creds.captured;
    }
  }

  lemma StepRecordsCapture(s: State, step: Step, tok: Token)
    requires Enabled(s, step)
    ensures tok in Apply(s, step).creds.captured <==> tok in s.creds.captured || Captures(s, step, tok)
  {
    if Inner(step) {
      InnerStepRecordsCapture(s, step, tok);
    }
  }

  lemma InnerStepRecordsVerification(s: State, step: Step, tok: Token)
    requires Enabled(s, step) && Inner(step)
    ensures tok in Apply(s, step).creds.verified <==> tok in s.creds.verified || Verifies(s, step, tok)
  {
    if step.WorkerMoves? {
      WorkerRecords(s, step.w, step.outcome, tok);
      assert Apply(s, step).creds == WorkerCreds(s.creds, s.workers[step.w], s.flags.selfHost, step.outcome);
    } else {
      assert Apply(s, step).creds.verified == s.creds.verified;
    }
  }

  lemma StepRecordsVerification(s: State, step: Step, tok: Token)
    requires Enabled(s, step)
    ensures tok in Apply(s, step).creds.verified <==> tok in s.creds.verified || Verifies(s, step, tok)
  {
    if Inner(step) {
      InnerStepRecordsVerification(s, step, tok);
    }
  }

  lemma StepRecordsNonce(s: State, step: Step, n: Nonce)
    requires Enabled(s, step)
    ensures n in Apply(s, step).nonces.registered <==> n in s.nonces.registered || Publishes(s, step, n)
  {
  }

  lemma {:induction false} CapturedMeans(states: seq<State>, steps: seq<Step>, k: nat, tok: Token)
    requires Run(states, steps) && k < |states|
    ensures tok in states[k].creds.captured <==> exists j :: 0 <= j < k && Captures(states[j], steps[j], tok)
  {
    if k > 0 {
      CapturedMeans(states, steps, k - 1, tok);
      StepRecordsCapture(states[k - 1], steps[k - 1], tok);
    }
  }

  lemma {:induction false} VerifiedMeans(states: seq<State>, steps: seq<Step>, k: nat, tok: Token)
    requires Run(states, steps) && k < |states|
    ensures tok in states[k].creds.verified <==> exists j :: 0 <= j < k && Verifies(states[j], steps[j], tok)
  {
    if k > 0 {
      VerifiedMeans(states, steps, k - 1, tok);
      StepRecordsVerification(states[k - 1], steps[k - 1], tok);
    }
  }

  lemma {:induction false} RegisteredMeans(states: seq<State>, steps: seq<Step>, k: nat, n: Nonce)
    requires Run(states, steps) && k < |states|
    ensures n in states[k].nonces.registered <==> exists j :: 0 <= j < k && Publishes(states[j], steps[j], n)
  {
    if k > 0 {
      RegisteredMeans(states, steps, k - 1, n);
      StepRecordsNonce(states[k - 1], steps[k - 1], n);
    }
  }

  /**
   * What runFirstRunWindow returns is empty, a hosted token captured while self-host was not chosen,
   * or a token that passed verification.
   */
  lemma ReturnedTokenIsJustified(states: seq<State>, steps: seq<Step>, k: nat)
    requires Run(states, steps) && k < |states|
    ensures var tok := states[k].creds.returned;
            || tok == ""
            || (exists j :: 0 <= j < k && Captures(states[j], steps[j], tok))
            || (exists j :: 0 <= j < k && Verifies(states[j], steps[j], tok))
  {
    RunKeeps(states, steps, k);
    CapturedMeans(states, steps, k, states[k].creds.returned);
    VerifiedMeans(states, steps, k, states[k].creds.returned);
  }

  /** A captured hosted token is spent on the server, so it must not be lost: some token is returned. */
  lemma CapturedTokenIsNotLost(states: seq<State>, steps: seq<Step>, k: nat, j: nat, tok: Token)
    requires Run(states, steps) && k < |states| && states[k].main.Returned?
    requires j < k && Captures(states[j], steps[j], tok)
    ensures states[k].creds.returned != ""
  {
    RunKeeps(states, steps, k);
    CapturedMeans(states, steps, k, tok);
  }

  /** A goroutine that has a token to store. */
  predicate Stores(w: Worker) {
    (w.Handshake? && w.handshake.Storing?) || (w.DeepLink? && w.link.StoringLink?)
  }

  ghost predicate Held(s: State) {
    s.creds.token != "" || exists w :: 0 <= w < |s.workers| && Stores(s.workers[w])
  }

  /**
   * The step secures a token: a hosted one is captured, a deep-linked one is verified, or the
   * closure that reports a pasted one as verified runs before the window has closed.
   */
  predicate Secures(s: State, step: Step) {
    match step
    case WorkerMoves(w, o) =>
      && w < |s.workers|
      && ((s.workers[w].Handshake? && s.workers[w].handshake.Checking? && !s.flags.selfHost)
          || (s.workers[w].DeepLink? && s.workers[w].link.Verifying? && o.Good?))
    case ClosureRuns(c) => c.Verdict? && c.ok && Passes(s.flags, c)
    case _ => false
  }

  lemma WorkerHolds(s: State, w: nat, o: Outcome)
    requires CredsOk(s) && WorkerReady(s, w, o)
    ensures Held(WorkerStep(s, w, o)) <==> Held(s) || Secures(s, WorkerMoves(w, o))
  {
    var t := WorkerStep(s, w, o);
    var was := s.workers[w];
    assert WorkerOk(s.creds, s.nonces, was);
    assert Stores(t.workers[w]) <==> Secures(s, WorkerMoves(w, o));
    assert t.creds.token == s.creds.token || Stores(was);
    assert Stores(was) ==> t.creds.token != "";
    assert forall v :: 0 <= v < |s.workers| && v != w ==> t.workers[v] == s.workers[v];
    if Held(s) && s.creds.token == "" && !Stores(was) {
      var v :| 0 <= v < |s.workers| && Stores(s.workers[v]);
      assert Stores(t.workers[v]);
    }
  }

  lemma ClosureHolds(s: State, c: Closure)
    requires CredsOk(s) && ClosureReady(s, c)
    ensures Held(ClosureStep(s, c)) <==> Held(s) || Secures(s, ClosureRuns(c))
  {
    assert ClosureStep(s, c).workers == s.workers;
  }

  lemma OuterHolds(s: State, step: Step)
    requires Enabled(s, step) && !step.WorkerMoves? && !step.ClosureRuns?
    ensures Held(Apply(s, step)) <==> Held(s)
  {
    var t := Apply(s, step);
    assert t.creds.token == s.creds.token;
    assert s.workers <= t.workers && |t.workers| <= |s.workers| + 1;
    assert forall w :: |s.workers| <= w < |t.workers| ==> !Stores(t.workers[w]);
    if w :| 0 <= w < |s.workers| && Stores(s.workers[w]) {
      assert Stores(t.workers[w]);
    }
  }

  lemma StepHolds(s: State, step: Step)
    requires CredsOk(s) && Enabled(s, step)
    ensures Held(Apply(s, step)) <==> Held(s) || Secures(s, step)
  {
    match step
    case WorkerMoves(w, o) => WorkerHolds(s, w, o);
    case ClosureRuns(c) => ClosureHolds(s, c);
    case _ => OuterHolds(s, step);
  }

  lemma RunStepHolds(states: seq<State>, steps: seq<Step>, k: nat)
    requires Run(states, steps) && k < |steps|
    ensures Held(states[k + 1]) <==> Held(states[k]) || Secures(states[k], steps[k])
  {
    RunKeeps(states, steps, k);
    StepHolds(states[k], steps[k]);
  }

  /** One of the first k steps secures a token. */
  ghost predicate SecuredBy(states: seq<State>, steps: seq<Step>, k: nat)
    requires k <= |steps| && |states| == |steps| + 1
  {
    exists j :: 0 <= j < k && Secures(states[j], steps[j])
  }

  lemma SecuredByStep(states: seq<State>, steps: seq<Step>, k: nat)
    requires k < |steps| && |states| == |steps| + 1
    ensures SecuredBy(states, steps, k + 1) <==> SecuredBy(states, steps, k) || Secures(states[k], steps[k])
  {
  }

  lemma {:induction false} HeldMeans(states: seq<State>, steps: seq<Step>, k: nat)
    requires Run(states, steps) && k < |states|
    ensures Held(states[k]) <==> SecuredBy(states, steps, k)
  {
    if k > 0 {
      HeldMeans(states, steps, k - 1);
      RunStepHolds(states, steps, k - 1);
      SecuredByStep(states, steps, k - 1);
    }
  }

  /**
   * Exactly when a token is returned: when a hosted token was captured, a deep-linked one verified,
   * or the verdict on a verified pasted one delivered before the window closed.
   */
  lemma ReturnsATokenExactly(states: seq<State>, steps: seq<Step>, k: nat)
    requires Run(states, steps) && k < |states| && states[k].main.Returned?
    ensures states[k].creds.returned != "" <==> SecuredBy(states, steps, k)
  {
    RunKeeps(states, steps, k);
    HeldMeans(states, steps, k);
    var s := states[k];
    forall w | 0 <= w < |s.workers| ensures !Stores(s.workers[w]) {
      assert w !in s.outstanding;
    }
  }

  /** So a deep-linked token whose verification succeeded, and whose page was told so, is not lost. */
  lemma VerifiedLinkIsNotLost(states: seq<State>, steps: seq<Step>, k: nat, j: nat, w: nat)
    requires Run(states, steps) && k < |states| && states[k].main.Returned? && j < k
    requires steps[j].WorkerMoves? && steps[j].w == w < |states[j].workers| && steps[j].outcome.Good?
    requires states[j].workers[w].DeepLink? && states[j].workers[w].link.Verifying?
    ensures states[k].creds.returned != ""
  {
    assert Secures(states[j], steps[j]);
    ReturnsATokenExactly(states, steps, k);
  }

  lemma StepAfterCallbacks(s: State, step: Step)
    requires JoinsOk(s) && Enabled(s, step) && AfterCallbacks(s.main)
    ensures AfterCallbacks(Apply(s, step).main) && !step.AcceptMoves? && !step.ConnMoves?
  {
  }

  lemma RunAfterCallbacks(states: seq<State>, steps: seq<Step>, k: nat)
    requires Run(states, steps) && k < |steps| && AfterCallbacks(states[k].main)
    ensures AfterCallbacks(states[k + 1].main) && !steps[k].AcceptMoves? && !steps[k].ConnMoves?
  {
    RunKeeps(states, steps, k);
    StepAfterCallbacks(states[k], steps[k]);
  }

  /** Once dl.Close has returned, the listener and its callbacks never run again. */
  lemma {:induction false} NoCallbackAfterClose(states: seq<State>, steps: seq<Step>, k: nat, j: nat)
    requires Run(states, steps) && k <= j < |steps| && AfterCallbacks(states[k].main)
    ensures AfterCallbacks(states[j].main)
    ensures !steps[j].AcceptMoves? && !steps[j].ConnMoves?
  {
    if k < j {
      NoCallbackAfterClose(states, steps, k, j - 1);
      RunAfterCallbacks(states, steps, j - 1);
    }
    RunAfterCallbacks(states, steps, j);
  }

  /** After the join only the main thread, leftover closures and the reveal timeout can still move. */
  lemma StepAfterJoin(s: State, step: Step)
    requires JoinsOk(s) && Enabled(s, step) && AfterJoin(s.main)
    ensures !step.WorkerMoves? && !step.UserActs?
    ensures var t := Apply(s, step);
            && AfterJoin(t.main) && t.workers == s.workers && t.outstanding == {} && t.posted <= s.posted
  {
  }

  /**
   * Once handshakeWG.Wait has returned, no goroutine is added to it, none of those it joined moves
   * (so none of them dispatches), and the closures they queued only become fewer. The reveal timeout,
   * which it does not join, may still dispatch until it is stopped before Destroy.
   */
  lemma {:induction false} NothingJoinsAfterWait(states: seq<State>, steps: seq<Step>, k: nat, j: nat)
    requires Run(states, steps) && k <= j < |steps| && AfterJoin(states[k].main)
    ensures AfterJoin(states[j].main) && AfterJoin(states[j + 1].main)
    ensures !steps[j].WorkerMoves? && !steps[j].UserActs?
    ensures states[j + 1].workers == states[k].workers && states[j + 1].outstanding == {}
    ensures states[j + 1].posted <= states[j].posted
  {
    if k < j {
      NothingJoinsAfterWait(states, steps, k, j - 1);
    }
    RunKeeps(states, steps, j);
    StepAfterJoin(states[j], steps[j]);
  }

  /** The engine is freed after every join, and nothing dispatches into it or passes its guard afterwards. */
  lemma FreedWindowIsUntouched(states: seq<State>, steps: seq<Step>, k: nat)
    requires Run(states, steps) && k < |states|
    ensures !states[k].touched
    ensures states[k].flags.destroyed ==>
              && states[k].outstanding == {} && CallbacksOver(states[k].listener)
              && (states[k].revealer.at.NoReveal? || states[k].revealer.at.RevealOver?)
              && forall c :: ClosureReady(states[k], c) ==> !Passes(states[k].flags, c)
  {
    RunKeeps(states, steps, k);
  }

  /** A deep link is only ever acted on under a nonce that one of this window's handshakes registered. */
  lemma DeepLinkNamesARegisteredNonce(states: seq<State>, steps: seq<Step>, k: nat, w: nat)
    requires Run(states, steps) && k < |states| && w < |states[k].workers| && states[k].workers[w].DeepLink?
    ensures states[k].workers[w].nonce != ""
    ensures exists j :: 0 <= j < k && Publishes(states[j], steps[j], states[k].workers[w].nonce)
  {
    RunKeeps(states, steps, k);
    assert WorkerOk(states[k].creds, states[k].nonces, states[k].workers[w]);
    RegisteredMeans(states, steps, k, states[k].workers[w].nonce);
  }

  /** Handshakes never overlap, and neither do deep-link verifications. */
  lemma OneOfEachAtATime(states: seq<State>, steps: seq<Step>, k: nat, v: nat, w: nat)
    requires Run(states, steps) && k < |states| && v < |states[k].workers| && w < |states[k].workers|
    ensures Busy(states[k].workers[v]) && Busy(states[k].workers[w]) ==> v == w
    ensures RunningLink(states[k].workers[v]) && RunningLink(states[k].workers[w]) ==> v == w
  {
    RunKeeps(states, steps, k);
  }
}
