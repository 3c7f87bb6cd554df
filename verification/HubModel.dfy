/**
 * The event hub (internal/httpapi/eventhub.go) as a state machine.
 *
 * One action is one critical section of the hub's mutex, one channel
 * operation, or one call of a cancel function; the threads that perform them
 * are the clients (attach ... detach), the goroutine of each run, and callers
 * of stop. Every interleaving of these actions is a behaviour of the model.
 *
 * A run is named by its number. The ready and failed channels and the cancel
 * function made for a run are named by that number too, and travel through the
 * hub's fields and through local variables as in the source, so that a thread
 * may in principle hold a stale one. A client's record keeps one number for the
 * two channels its attach waits on.
 */
module HubModel {
  import opened Prelude
  import opened ContainerEvents

  type ClientId = nat
  type RunId = nat

  datatype CloseReason = EngineGone | Lagged

  datatype StreamError = FeedClosed | EngineFault(code: nat)

  datatype AttachError = RunFailed(err: StreamError) | HubUnavailable | RequestDone

  // ---------------------------------------------------------------- the hub

  /** The fields the mutex guards. */
  datatype Hub = Hub(
    subs: set<ClientId>,
    running: bool,
    ready: Option<RunId>,
    failed: Option<RunId>,
    runErr: Option<StreamError>,
    cancel: Option<RunId>)

  const IDLE_HUB := Hub({}, false, None, None, None, None)

  /** attach's critical section; `next` names the run it starts, if it starts one. */
  function AttachSection(h: Hub, c: ClientId, next: RunId): Hub {
    if h.running then h.(subs := h.subs + {c})
    else Hub(h.subs + {c}, true, Some(next), Some(next), None, Some(next))
  }

  /** detach's critical section: the new fields and whether `cancel` must be called. */
  function DetachSection(h: Hub, c: ClientId): (Hub, bool) {
    if c !in h.subs then (h, false)
    else
      var subs := h.subs - {c};
      (h.(subs := subs), subs == {} && h.running)
  }

  /** run's critical section once StreamContainerEvents has returned. */
  function TeardownSection(h: Hub, err: Option<StreamError>): Hub {
    h.(subs := {}, running := false, runErr := err, cancel := None)
  }

  // ------------------------------------------------------------ run goroutine

  datatype RunPc =
    | Spawned                                   // StreamContainerEvents not yet subscribed
    | Subscribed                                // subscription live, onReady about to run
    | ReadyRead(ch: Option<RunId>)              // markReady has read h.ready
    | Loop                                      // the select loop
    | Got(ev: ContainerEvent)                   // emit called, fanout not yet in its section
    | Sending(ev: ContainerEvent, rem: set<ClientId>)
    | Overflowed(ev: ContainerEvent, rem: set<ClientId>, victim: ClientId)
    | Dropping(ev: ContainerEvent, rem: set<ClientId>, victim: ClientId)
    | DropCancel(ev: ContainerEvent, rem: set<ClientId>, target: Option<RunId>)
    | Returned(err: Option<StreamError>)
    | TornDown(ch: Option<RunId>, list: set<ClientId>)
    | Closing(list: set<ClientId>)
    | Finished

  /**
   * `start` is the position in the Engine's log at which the subscription was
   * established, `cursor` the position up to which the loop has read, and
   * `emitted` the events for which fanout has entered its critical section.
   */
  datatype Run = Run(
    pc: RunPc, cancelled: bool, readyClosed: bool, failedClosed: bool,
    start: Option<nat>, cursor: nat, emitted: seq<ContainerEvent>)

  const NEW_RUN := Run(Spawned, false, false, false, None, 0, [])

  // ----------------------------------------------------------------- clients

  datatype Exit = AfterFailed | AfterRequestDone | AfterHandler

  datatype ClientPc =
    | Waiting                                   // in attach's select
    | Open                                      // attach returned the subscriber
    | Detaching(why: Exit)                      // detach not yet in its section
    | Cancelling(target: Option<RunId>, why: Exit)
    | ReadingErr                                // attach's second section
    | Refused(err: AttachError)                 // attach returned an error
    | Gone

  /**
   * A client and the subscriber made for it. `run` is the run whose channels
   * its attach waits on; `first` is how many events that run had emitted when
   * it registered. `delivered` is everything ever put in its buffer, of which
   * the first `taken` have been received. `reasons` is everything ever sent on
   * its closed channel.
   */
  datatype Client = Client(
    pc: ClientPc, run: RunId, first: nat,
    delivered: seq<ContainerEvent>, taken: nat,
    once: bool, reasons: seq<CloseReason>, snapshot: Option<nat>)

  /** eventSubscriber.close: the first call sends, every later one does nothing. */
  function CloseSubscriber(c: Client, reason: CloseReason): Client {
    if c.once then c
    else c.(once := true, reasons := if |c.reasons| < 1 then c.reasons + [reason] else c.reasons)
  }

  // ------------------------------------------------------------------- state

  datatype State = State(
    cap: nat,
    log: seq<Message>,
    parentDone: bool,
    ended: set<ClientId>,                       // clients whose request context is done
    hub: Hub,
    runs: seq<Run>,
    clients: map<ClientId, Client>,
    stoppers: map<nat, Option<RunId>>,          // callers of stop, with the cancel each read
    panicked: bool)

  function Init(cap: nat): State {
    State(cap, [], false, {}, IDLE_HUB, [], map[], map[], false)
  }

  // ----------------------------------------------------------------- helpers

  function SetClient(s: State, c: ClientId, client: Client): State {
    s.(clients := s.clients[c := client])
  }

  function SetClientPc(s: State, c: ClientId, pc: ClientPc): State
    requires c in s.clients
  {
    SetClient(s, c, s.clients[c].(pc := pc))
  }

  function SetRun(s: State, r: RunId, run: Run): State
    requires r < |s.runs|
  {
    s.(runs := s.runs[r := run])
  }

  function SetRunPc(s: State, r: RunId, pc: RunPc): State
    requires r < |s.runs|
  {
    SetRun(s, r, s.runs[r].(pc := pc))
  }

  /** The run's context is done: its own cancel was called, or the server's lifetime ended. */
  predicate Done(s: State, r: RunId)
    requires r < |s.runs|
  {
    s.runs[r].cancelled || s.parentDone
  }

  /** Calling a cancel function: nil panics, anything else marks that run's context. */
  function Cancel(s: State, target: Option<RunId>): State {
    match target
    case None => s.(panicked := true)
    case Some(r) =>
      if r < |s.runs| then SetRun(s, r, s.runs[r].(cancelled := true)) else s.(panicked := true)
  }

  /** close(ready): closing nil or an already closed channel panics. */
  function CloseReadyChannel(s: State, ch: Option<RunId>): State {
    if ch.None? || ch.value >= |s.runs| || s.runs[ch.value].readyClosed then s.(panicked := true)
    else SetRun(s, ch.value, s.runs[ch.value].(readyClosed := true))
  }

  /** close(failed), likewise. */
  function CloseFailedChannel(s: State, ch: Option<RunId>): State {
    if ch.None? || ch.value >= |s.runs| || s.runs[ch.value].failedClosed then s.(panicked := true)
    else SetRun(s, ch.value, s.runs[ch.value].(failedClosed := true))
  }

  // ------------------------------------------------------------------ attach

  datatype AttachOp = Register | SelectReady | SelectFailed | SelectRequestDone | ReadRunErr

  predicate AttachEnabled(s: State, c: ClientId, op: AttachOp) {
    if op.Register? then c !in s.clients
    else
      && c in s.clients
      && s.clients[c].run < |s.runs|
      && match op
         case SelectReady => s.clients[c].pc.Waiting? && s.runs[s.clients[c].run].readyClosed
         case SelectFailed => s.clients[c].pc.Waiting? && s.runs[s.clients[c].run].failedClosed
         case SelectRequestDone => s.clients[c].pc.Waiting? && c in s.ended
         case _ => s.clients[c].pc.ReadingErr?
  }

  /**
   * The first critical section: register, start a run if none is running, and read the two channels
   * to wait on from the hub's fields. A client record names one run, so a hub whose channels were
   * nil, or of two runs, is flagged here; the invariant shows that this never happens.
   */
  function RegisterStep(s: State, c: ClientId): State {
    var runs := if s.hub.running then s.runs else s.runs + [NEW_RUN];
    var hub := AttachSection(s.hub, c, |s.runs|);
    if hub.ready.None? || hub.failed != hub.ready || hub.ready.value >= |runs| then s.(panicked := true)
    else
      var run := hub.ready.value;
      s.(hub := hub, runs := runs,
      clients := s.clients[c := Client(Waiting, run, |runs[run].emitted|, [], 0, false, [], None)])
  }

  function AttachStep(s: State, c: ClientId, op: AttachOp): State
    requires AttachEnabled(s, c, op)
  {
    match op
    case Register => RegisterStep(s, c)
    case SelectReady => SetClientPc(s, c, Open)
    case SelectFailed => SetClientPc(s, c, Detaching(AfterFailed))
    case SelectRequestDone => SetClientPc(s, c, Detaching(AfterRequestDone))
    case ReadRunErr =>
      SetClientPc(s, c, Refused(if s.hub.runErr.Some? then RunFailed(s.hub.runErr.value) else HubUnavailable))
  }

  // ----------------------------------------------------------------- handler

  datatype HandlerOp = TakeSnapshot | Receive | Leave

  predicate HandlerEnabled(s: State, c: ClientId, op: HandlerOp) {
    && c in s.clients
    && s.clients[c].pc.Open?
    && match op
       case TakeSnapshot => s.clients[c].snapshot.None?
       case Receive => s.clients[c].snapshot.Some? && s.clients[c].taken < |s.clients[c].delivered|
       case Leave => true
  }

  function HandlerStep(s: State, c: ClientId, op: HandlerOp): State
    requires HandlerEnabled(s, c, op)
  {
    match op
    case TakeSnapshot => SetClient(s, c, s.clients[c].(snapshot := Some(|s.log|)))
    case Receive => SetClient(s, c, s.clients[c].(taken := s.clients[c].taken + 1))
    case Leave => SetClientPc(s, c, Detaching(AfterHandler))
  }

  // ------------------------------------------------------------------ detach

  datatype DetachOp = Unregister | CallCancel

  predicate DetachEnabled(s: State, c: ClientId, op: DetachOp) {
    && c in s.clients
    && match op
       case Unregister => s.clients[c].pc.Detaching?
       case CallCancel => s.clients[c].pc.Cancelling?
  }

  /** Where a client goes when its detach call returns. */
  function AfterDetach(why: Exit): ClientPc {
    match why
    case AfterFailed => ReadingErr
    case AfterRequestDone => Refused(RequestDone)
    case AfterHandler => Gone
  }

  function DetachStep(s: State, c: ClientId, op: DetachOp): State
    requires DetachEnabled(s, c, op)
  {
    var why := s.clients[c].pc.why;
    match op
    case Unregister =>
      var (hub, last) := DetachSection(s.hub, c);
      SetClientPc(s.(hub := hub), c, if last then Cancelling(s.hub.cancel, why) else AfterDetach(why))
    case CallCancel =>
      Cancel(SetClientPc(s, c, AfterDetach(why)), s.clients[c].pc.target)
  }

  // ------------------------------- StreamContainerEvents and its onReady call

  datatype StreamOp = Subscribe | ReturnEarly(err: Option<StreamError>) | ReadReady | CloseReady
                    | TakeMessage | Return(err: Option<StreamError>)

  predicate StreamEnabled(s: State, r: RunId, op: StreamOp) {
    && r < |s.runs|
    && match op
       case Subscribe => s.runs[r].pc.Spawned?
       case ReturnEarly(err) => s.runs[r].pc.Spawned? && (err.None? ==> Done(s, r))
       case ReadReady => s.runs[r].pc.Subscribed?
       case CloseReady => s.runs[r].pc.ReadyRead?
       case TakeMessage => s.runs[r].pc.Loop? && s.runs[r].cursor < |s.log|
       case Return(err) => s.runs[r].pc.Loop? && (err.None? ==> Done(s, r))
  }

  /** The loop has read one message; `next` is what the allowlist makes of it. */
  function AfterReading(run: Run, next: Option<ContainerEvent>): Run {
    match next
    case None => run.(cursor := run.cursor + 1)
    case Some(ev) => run.(cursor := run.cursor + 1, pc := Got(ev))
  }

  function TakeMessageStep(s: State, r: RunId): State
    requires StreamEnabled(s, r, TakeMessage)
  {
    SetRun(s, r, AfterReading(s.runs[r], ToContainerEvent(s.log[s.runs[r].cursor])))
  }

  function StreamStep(s: State, r: RunId, op: StreamOp): State
    requires StreamEnabled(s, r, op)
  {
    match op
    case Subscribe =>
      SetRun(s, r, s.runs[r].(pc := Subscribed, start := Some(|s.log|), cursor := |s.log|))
    case ReturnEarly(err) => SetRunPc(s, r, Returned(err))
    case ReadReady => SetRunPc(s, r, ReadyRead(s.hub.ready))
    case CloseReady => CloseReadyChannel(SetRunPc(s, r, Loop), s.runs[r].pc.ch)
    case TakeMessage => TakeMessageStep(s, r)
    case Return(err) => SetRunPc(s, r, Returned(err))
  }

  // ------------------------------------------------------------------ fanout

  datatype FanoutOp = CopySubs | Send(c: ClientId) | Overflow(c: ClientId) | CloseLagged
                    | DropLock | DropCall | FanoutDone

  predicate FanoutEnabled(s: State, r: RunId, op: FanoutOp) {
    && r < |s.runs|
    && var pc := s.runs[r].pc;
    && match op
       case CopySubs => pc.Got?
       case Send(c) =>
         pc.Sending? && c in pc.rem && c in s.clients && |s.clients[c].delivered| - s.clients[c].taken < s.cap
       case Overflow(c) =>
         pc.Sending? && c in pc.rem && c in s.clients && |s.clients[c].delivered| - s.clients[c].taken >= s.cap
       case CloseLagged => pc.Overflowed? && pc.victim in s.clients
       case DropLock => pc.Dropping?
       case DropCall => pc.DropCancel?
       case FanoutDone => pc.Sending? && pc.rem == {}
  }

  function CopySubsStep(s: State, r: RunId): State
    requires FanoutEnabled(s, r, CopySubs)
  {
    var run := s.runs[r];
    SetRun(s, r, run.(pc := Sending(run.pc.ev, s.hub.subs), emitted := run.emitted + [run.pc.ev]))
  }

  function SendStep(s: State, r: RunId, c: ClientId): State
    requires FanoutEnabled(s, r, Send(c))
  {
    var pc := s.runs[r].pc;
    var client := s.clients[c];
    SetRunPc(SetClient(s, c, client.(delivered := client.delivered + [pc.ev])), r, Sending(pc.ev, pc.rem - {c}))
  }

  function CloseLaggedStep(s: State, r: RunId): State
    requires FanoutEnabled(s, r, CloseLagged)
  {
    var pc := s.runs[r].pc;
    SetRunPc(SetClient(s, pc.victim, CloseSubscriber(s.clients[pc.victim], Lagged)),
             r, Dropping(pc.ev, pc.rem, pc.victim))
  }

  function DropLockStep(s: State, r: RunId): State
    requires FanoutEnabled(s, r, DropLock)
  {
    var pc := s.runs[r].pc;
    var (hub, last) := DetachSection(s.hub, pc.victim);
    SetRunPc(s.(hub := hub), r,
             if last then DropCancel(pc.ev, pc.rem, s.hub.cancel) else Sending(pc.ev, pc.rem))
  }

  function FanoutStep(s: State, r: RunId, op: FanoutOp): State
    requires FanoutEnabled(s, r, op)
  {
    var pc := s.runs[r].pc;
    match op
    case CopySubs => CopySubsStep(s, r)
    case Send(c) => SendStep(s, r, c)
    case Overflow(c) => SetRunPc(s, r, Overflowed(pc.ev, pc.rem - {c}, c))
    case CloseLagged => CloseLaggedStep(s, r)
    case DropLock => DropLockStep(s, r)
    case DropCall => Cancel(SetRunPc(s, r, Sending(pc.ev, pc.rem)), pc.target)
    case FanoutDone => SetRunPc(s, r, Loop)
  }

  // --------------------------------------------- run, after the stream returned

  datatype RunOp = Teardown | CloseFailed | CloseSub(c: ClientId) | Finish

  predicate RunEnabled(s: State, r: RunId, op: RunOp) {
    && r < |s.runs|
    && var pc := s.runs[r].pc;
    && match op
       case Teardown => pc.Returned?
       case CloseFailed => pc.TornDown?
       case CloseSub(c) => pc.Closing? && c in pc.list && c in s.clients
       case Finish => pc.Closing? && pc.list == {}
  }

  function TeardownStep(s: State, r: RunId): State
    requires RunEnabled(s, r, Teardown)
  {
    SetRunPc(s.(hub := TeardownSection(s.hub, s.runs[r].pc.err)), r, TornDown(s.hub.failed, s.hub.subs))
  }

  function CloseSubStep(s: State, r: RunId, c: ClientId): State
    requires RunEnabled(s, r, CloseSub(c))
  {
    SetRunPc(SetClient(s, c, CloseSubscriber(s.clients[c], EngineGone)), r, Closing(s.runs[r].pc.list - {c}))
  }

  function RunStep(s: State, r: RunId, op: RunOp): State
    requires RunEnabled(s, r, op)
  {
    match op
    case Teardown => TeardownStep(s, r)
    case CloseFailed => CloseFailedChannel(SetRunPc(s, r, Closing(s.runs[r].pc.list)), s.runs[r].pc.ch)
    case CloseSub(c) => CloseSubStep(s, r, c)
    case Finish => SetRunPc(s, r, Finished)
  }

  // -------------------------------------------------------------------- stop

  datatype StopOp = ReadCancel | StopCall

  predicate StopEnabled(s: State, k: nat, op: StopOp) {
    match op
    case ReadCancel => k !in s.stoppers
    case StopCall => k in s.stoppers
  }

  function StopStep(s: State, k: nat, op: StopOp): State
    requires StopEnabled(s, k, op)
  {
    match op
    case ReadCancel => s.(stoppers := s.stoppers[k := s.hub.cancel])
    case StopCall =>
      var rest := s.(stoppers := s.stoppers - {k});
      if s.stoppers[k].None? then rest else Cancel(rest, s.stoppers[k])
  }

  // ----------------------------------------------------------------- actions

  datatype Action =
    | EngineAppend(msg: Message)                // the Engine logs another message
    | ParentCancel                              // the server's lifetime context ends
    | RequestEnds(c: ClientId)                  // the client's request context ends, at any time
    | InAttach(c: ClientId, attachOp: AttachOp)
    | InHandler(c: ClientId, handlerOp: HandlerOp)
    | InDetach(c: ClientId, detachOp: DetachOp)
    | InStream(r: RunId, streamOp: StreamOp)
    | InFanout(r: RunId, fanoutOp: FanoutOp)
    | InRun(r: RunId, runOp: RunOp)
    | InStop(k: nat, stopOp: StopOp)

  predicate Enabled(s: State, a: Action) {
    match a
    case EngineAppend(_) => true
    case ParentCancel => true
    case RequestEnds(_) => true
    case InAttach(c, op) => AttachEnabled(s, c, op)
    case InHandler(c, op) => HandlerEnabled(s, c, op)
    case InDetach(c, op) => DetachEnabled(s, c, op)
    case InStream(r, op) => StreamEnabled(s, r, op)
    case InFanout(r, op) => FanoutEnabled(s, r, op)
    case InRun(r, op) => RunEnabled(s, r, op)
    case InStop(k, op) => StopEnabled(s, k, op)
  }

  function Apply(s: State, a: Action): State
    requires Enabled(s, a)
  {
    match a
    case EngineAppend(msg) => s.(log := s.log + [msg])
    case ParentCancel => s.(parentDone := true)
    case RequestEnds(c) => s.(ended := s.ended + {c})
    case InAttach(c, op) => AttachStep(s, c, op)
    case InHandler(c, op) => HandlerStep(s, c, op)
    case InDetach(c, op) => DetachStep(s, c, op)
    case InStream(r, op) => StreamStep(s, r, op)
    case InFanout(r, op) => FanoutStep(s, r, op)
    case InRun(r, op) => RunStep(s, r, op)
    case InStop(k, op) => StopStep(s, k, op)
  }

  // ------------------------------------------------------------- behaviours

  /** A schedule: every action is enabled in the state the earlier ones lead to. */
  predicate Legal(cap: nat, acts: seq<Action>)
    decreases |acts|, 0
  {
    acts == [] ||
    (Legal(cap, acts[..|acts| - 1]) && Enabled(Exec(cap, acts[..|acts| - 1]), acts[|acts| - 1]))
  }

  function Exec(cap: nat, acts: seq<Action>): State
    requires Legal(cap, acts)
    decreases |acts|, 1
  {
    if acts == [] then Init(cap)
    else Apply(Exec(cap, acts[..|acts| - 1]), acts[|acts| - 1])
  }
}
