/**
 * One event-stream request (handleEventStream, internal/httpapi/events.go): the main select loop
 * and the heartbeat goroutine write to one response, and everything else can happen at any moment.
 */
module EventStream {
  import opened Prelude
  import opened ContainerEvents
  import HubModel
  import HubTheorems
  import Sse

  datatype TerminalMsg = StreamRevoked | StreamSuperseded | StreamLagged | EngineUnavailable

  datatype Frame = Snapshot | Health(ev: ContainerEvent) | Heartbeat | Error(msg: TerminalMsg)

  datatype MainPc =
    | Starting                                  // before the snapshot has been written
    | Select
    | Writing(ev: ContainerEvent)               // received from sub.events
    | Ending(msg: TerminalMsg)                  // about to call terminalFrame
    | Claimed(msg: TerminalMsg)                 // inside the Once
    | Leaving                                   // deferred cancel not yet run
    | Waiting                                   // deferred wg.Wait
    | Returned

  datatype BeatPc =
    | Unborn
    | Sleeping
    | Checking
    | Revoking                                  // about to call terminalFrame
    | BeatClaimed
    | Cancelling
    | Exited

  /**
   * `delivered` is everything put in the subscriber's buffer, `taken` how much of it was received;
   * `closedReason` is what its closed channel carries. `requestDone` is the client or the server
   * going away, which also ends the handler's own context, `ctxDone`.
   */
  datatype State = State(
    main: MainPc, beat: BeatPc, once: bool, ctxDone: bool, requestDone: bool, superseded: bool, revoked: bool,
    closedReason: Option<HubModel.CloseReason>, delivered: seq<ContainerEvent>, taken: nat, wire: seq<Frame>)

  const INIT := State(Starting, Unborn, false, false, false, false, false, None, [], 0, [])

  /** `sent` on a write says whether the frame went out whole or the write failed. */
  datatype Action =
    | Deliver(ev: ContainerEvent)
    | CloseSub(reason: HubModel.CloseReason)
    | Supersede                                 // a newer registration closes the channel
    | Evict                                     // ... and then cancels the handler's context
    | Disconnect
    | Revoke                                    // the device is revoked or deleted
    | Start(sent: bool)
    | FailStart                                 // attach or the snapshot call failed: plain error response
    | TakeSuperseded | TakeDone | TakeEvent | TakeClosed
    | WriteHealth(sent: bool)
    | MainOnce | MainTerminal(sent: bool)
    | Cancel | Join
    | Tick(sent: bool) | Check(fault: bool) | BeatOnce | BeatTerminal(sent: bool) | BeatCancel | BeatDone

  /** A sync.Once makes a second caller wait until the first one's call has returned. */
  predicate Enabled(s: State, a: Action) {
    match a
    case Deliver(_) => s.closedReason.None?
    case CloseSub(_) => s.closedReason.None?
    case Supersede => !s.superseded
    case Evict => s.superseded
    case Disconnect => true
    case Revoke => true
    case Start(_) => s.main.Starting?
    case FailStart => s.main.Starting?
    case TakeSuperseded => s.main.Select? && s.superseded
    case TakeDone => s.main.Select? && s.ctxDone
    case TakeEvent => s.main.Select? && s.taken < |s.delivered|
    case TakeClosed => s.main.Select? && s.closedReason.Some?
    case WriteHealth(_) => s.main.Writing?
    case MainOnce => s.main.Ending? && !s.beat.BeatClaimed?
    case MainTerminal(_) => s.main.Claimed?
    case Cancel => s.main.Leaving?
    case Join => s.main.Waiting? && (s.beat.Unborn? || s.beat.Exited?)
    case Tick(_) => s.beat.Sleeping?
    case Check(_) => s.beat.Checking?
    case BeatOnce => s.beat.Revoking? && !s.main.Claimed?
    case BeatTerminal(_) => s.beat.BeatClaimed?
    case BeatCancel => s.beat.Cancelling?
    case BeatDone => s.beat.Sleeping? && s.ctxDone
  }

  function Put(s: State, f: Frame, sent: bool): seq<Frame> { if sent then s.wire + [f] else s.wire }

  /** writeTerminalEventError gates on the request, not on the handler's own context. */
  function PutTerminal(s: State, msg: TerminalMsg, sent: bool): seq<Frame> {
    if s.requestDone then s.wire else Put(s, Error(msg), sent)
  }

  function Apply(s: State, a: Action): State
    requires Enabled(s, a)
  {
    match a
    case Deliver(ev) => s.(delivered := s.delivered + [ev])
    case CloseSub(reason) => s.(closedReason := Some(reason))
    case Supersede => s.(superseded := true)
    case Evict => s.(ctxDone := true)
    case Disconnect => s.(requestDone := true, ctxDone := true)
    case Revoke => s.(revoked := true)
    case Start(sent) =>
      if sent then s.(wire := s.wire + [Snapshot], main := Select, beat := Sleeping) else s.(main := Leaving)
    case FailStart => s.(main := Leaving)
    case TakeSuperseded => s.(main := Ending(StreamSuperseded))
    case TakeDone => s.(main := Leaving)
    case TakeEvent => s.(main := Writing(s.delivered[s.taken]), taken := s.taken + 1)
    case TakeClosed =>
      s.(main := Ending(if s.closedReason.value.Lagged? then StreamLagged else EngineUnavailable))
    case WriteHealth(sent) => s.(wire := Put(s, Health(s.main.ev), sent), main := if sent then Select else Leaving)
    case MainOnce => if s.once then s.(main := Leaving) else s.(once := true, main := Claimed(s.main.msg))
    case MainTerminal(sent) => s.(wire := PutTerminal(s, s.main.msg, sent), main := Leaving)
    case Cancel => s.(ctxDone := true, main := Waiting)
    case Join => s.(main := Returned)
    case Tick(sent) => s.(wire := Put(s, Heartbeat, sent), beat := Checking)
    case Check(fault) => s.(beat := if s.revoked && !fault then Revoking else Sleeping)
    case BeatOnce => if s.once then s.(beat := Cancelling) else s.(once := true, beat := BeatClaimed)
    case BeatTerminal(sent) => s.(wire := PutTerminal(s, StreamRevoked, sent), beat := Cancelling)
    case BeatCancel => s.(ctxDone := true, beat := Exited)
    case BeatDone => s.(beat := Exited)
  }

  predicate Legal(s: State, actions: seq<Action>)
    decreases |actions|
  {
    actions == [] || (Enabled(s, actions[0]) && Legal(Apply(s, actions[0]), actions[1..]))
  }

  function Exec(s: State, actions: seq<Action>): State
    requires Legal(s, actions)
    decreases |actions|
  {
    if actions == [] then s else Exec(Apply(s, actions[0]), actions[1..])
  }

  // -------------------------------------------------------------- the invariant

  function HealthOf(wire: seq<Frame>): seq<ContainerEvent> {
    if wire == [] then []
    else HealthOf(wire[..|wire| - 1]) + if wire[|wire| - 1].Health? then [wire[|wire| - 1].ev] else []
  }

  function Errors(wire: seq<Frame>): seq<TerminalMsg> {
    if wire == [] then []
    else Errors(wire[..|wire| - 1]) + if wire[|wire| - 1].Error? then [wire[|wire| - 1].msg] else []
  }

  lemma Append(wire: seq<Frame>, f: Frame)
    ensures HealthOf(wire + [f]) == HealthOf(wire) + if f.Health? then [f.ev] else []
    ensures Errors(wire + [f]) == Errors(wire) + if f.Error? then [f.msg] else []
  {
    assert (wire + [f])[..|wire|] == wire;
  }

  /** A reason given to the client is a reason that holds. */
  predicate Justified(s: State, msg: TerminalMsg) {
    match msg
    case StreamRevoked => s.revoked
    case StreamSuperseded => s.superseded
    case StreamLagged => s.closedReason == Some(HubModel.Lagged)
    case EngineUnavailable => s.closedReason == Some(HubModel.EngineGone)
  }

  predicate SnapshotFirst(wire: seq<Frame>) {
    wire != [] ==> wire[0].Snapshot? && forall i :: 0 < i < |wire| ==> !wire[i].Snapshot?
  }

  /** The events received and, unless the last write failed, shown. */
  predicate ShowsTaken(s: State) {
    && s.taken <= |s.delivered|
    && var shown := HealthOf(s.wire);
    match s.main
    case Starting => s.taken == 0 && shown == [] && s.wire == [] && s.beat.Unborn?
    case Select => shown == s.delivered[..s.taken] && s.wire != []
    case Writing(ev) =>
      s.taken > 0 && ev == s.delivered[s.taken - 1] && shown == s.delivered[..s.taken - 1] && s.wire != []
    case _ => shown <= s.delivered[..s.taken]
  }

  predicate Terminals(s: State) {
    && |Errors(s.wire)| <= 1
    && (Errors(s.wire) != [] ==> s.once && Justified(s, Errors(s.wire)[0]))
    && (s.main.Claimed? || s.beat.BeatClaimed? ==> s.once && Errors(s.wire) == [])
    && !(s.main.Claimed? && s.beat.BeatClaimed?)
    && (s.main.Claimed? || s.main.Ending? ==> Justified(s, s.main.msg))
    && (s.beat.Revoking? || s.beat.BeatClaimed? ==> s.revoked)
  }

  predicate Inv(s: State) {
    && SnapshotFirst(s.wire) && ShowsTaken(s) && Terminals(s)
    && (!s.beat.Unborn? || s.main.Ending? || s.main.Claimed? ==> s.wire != [])
    && (s.main.Waiting? || s.main.Returned? ==> s.ctxDone)
    && (s.main.Returned? ==> s.beat.Unborn? || s.beat.Exited?)
  }

  /** A write that may fail, seen through the projections. */
  lemma PutSeen(s: State, f: Frame, sent: bool)
    requires SnapshotFirst(s.wire) && (s.wire == [] ==> !sent || f.Snapshot?) && (s.wire != [] ==> !f.Snapshot?)
    ensures var wire := Put(s, f, sent);
            && SnapshotFirst(wire) && (s.wire != [] ==> wire != [])
            && HealthOf(wire) == HealthOf(s.wire) + (if sent && f.Health? then [f.ev] else [])
            && Errors(wire) == Errors(s.wire) + (if sent && f.Error? then [f.msg] else [])
  {
    Append(s.wire, f);
  }

  lemma InvStart(s: State, sent: bool)
    requires Inv(s) && Enabled(s, Start(sent))
    ensures Inv(Apply(s, Start(sent)))
  {
    Append(s.wire, Snapshot);
  }

  lemma InvHealth(s: State, sent: bool)
    requires Inv(s) && Enabled(s, WriteHealth(sent))
    ensures Inv(Apply(s, WriteHealth(sent)))
  {
    PutSeen(s, Health(s.main.ev), sent);
    assert s.delivered[..s.taken] == s.delivered[..s.taken - 1] + [s.main.ev];
  }

  lemma InvTick(s: State, sent: bool)
    requires Inv(s) && Enabled(s, Tick(sent))
    ensures Inv(Apply(s, Tick(sent)))
  {
    PutSeen(s, Heartbeat, sent);
  }

  lemma InvMainTerminal(s: State, sent: bool)
    requires Inv(s) && Enabled(s, MainTerminal(sent))
    ensures Inv(Apply(s, MainTerminal(sent)))
  {
    PutSeen(s, Error(s.main.msg), sent);
  }

  lemma InvBeatTerminal(s: State, sent: bool)
    requires Inv(s) && Enabled(s, BeatTerminal(sent))
    ensures Inv(Apply(s, BeatTerminal(sent)))
  {
    PutSeen(s, Error(StreamRevoked), sent);
  }

  predicate Outside(a: Action) {
    a.Deliver? || a.CloseSub? || a.Supersede? || a.Evict? || a.Disconnect? || a.Revoke?
  }

  lemma InvOutside(s: State, a: Action)
    requires Inv(s) && Enabled(s, a) && Outside(a)
    ensures Inv(Apply(s, a))
  {
    if a.Deliver? {
      assert forall n :: 0 <= n <= s.taken ==> (s.delivered + [a.ev])[..n] == s.delivered[..n];
    }
  }

  predicate Selects(a: Action) { a.TakeSuperseded? || a.TakeDone? || a.TakeEvent? || a.TakeClosed? }

  lemma InvSelect(s: State, a: Action)
    requires Inv(s) && Enabled(s, a) && Selects(a)
    ensures Inv(Apply(s, a))
  {
  }

  lemma InvFailStart(s: State)
    requires Inv(s) && Enabled(s, FailStart)
    ensures Inv(Apply(s, FailStart))
  {
  }

  lemma InvMainOnce(s: State)
    requires Inv(s) && Enabled(s, MainOnce)
    ensures Inv(Apply(s, MainOnce))
  {
  }

  lemma InvReturn(s: State, a: Action)
    requires Inv(s) && Enabled(s, a) && (a.Cancel? || a.Join?)
    ensures Inv(Apply(s, a))
  {
  }

  lemma InvBeatOnce(s: State)
    requires Inv(s) && Enabled(s, BeatOnce)
    ensures Inv(Apply(s, BeatOnce))
  {
  }

  lemma InvBeat(s: State, a: Action)
    requires Inv(s) && Enabled(s, a) && (a.Check? || a.BeatCancel? || a.BeatDone?)
    ensures Inv(Apply(s, a))
  {
  }

  lemma InvStep(s: State, a: Action)
    requires Inv(s) && Enabled(s, a)
    ensures Inv(Apply(s, a))
  {
    if Outside(a) {
      InvOutside(s, a);
    } else if Selects(a) {
      InvSelect(s, a);
    } else {
      match a {
        case Start(sent) => InvStart(s, sent);
        case FailStart => InvFailStart(s);
        case MainOnce => InvMainOnce(s);
        case Cancel => InvReturn(s, a);
        case Join => InvReturn(s, a);
        case BeatOnce => InvBeatOnce(s);
        case WriteHealth(sent) => InvHealth(s, sent);
        case Tick(sent) => InvTick(s, sent);
        case MainTerminal(sent) => InvMainTerminal(s, sent);
        case BeatTerminal(sent) => InvBeatTerminal(s, sent);
        case _ => InvBeat(s, a);
      }
    }
  }

  lemma {:induction false} InvExec(s: State, actions: seq<Action>)
    requires Inv(s) && Legal(s, actions)
    ensures Inv(Exec(s, actions))
    decreases |actions|
  {
    if actions != [] {
      InvStep(s, actions[0]);
      InvExec(Apply(s, actions[0]), actions[1..]);
    }
  }

  ghost predicate Reachable(s: State) {
    exists actions :: Legal(INIT, actions) && Exec(INIT, actions) == s
  }

  lemma Invariant(s: State)
    requires Reachable(s)
    ensures Inv(s)
  {
    var actions :| Legal(INIT, actions) && Exec(INIT, actions) == s;
    InvExec(INIT, actions);
  }

  // --------------------------------------------------------------- the results

  /**
   * Whatever select and the scheduler choose: the stream opens with its only snapshot; its health
   * frames are, in order and with none skipped, a prefix of what the hub delivered; and it carries
   * at most one error frame, whose reason is true.
   */
  lemma FramesInOrder(s: State)
    requires Reachable(s)
    ensures SnapshotFirst(s.wire)
    ensures HealthOf(s.wire) <= s.delivered && s.taken <= |s.delivered|
    ensures s.main.Select? ==> HealthOf(s.wire) == s.delivered[..s.taken]
    ensures |Errors(s.wire)| <= 1 && (Errors(s.wire) != [] ==> Justified(s, Errors(s.wire)[0]))
  {
    Invariant(s);
    var shown := HealthOf(s.wire);
    match s.main {
      case Writing(_) => assert s.delivered[..s.taken - 1] <= s.delivered;
      case _ => assert s.delivered[..s.taken] <= s.delivered;
    }
  }

  /** Fed by the hub, the k-th health frame is the k-th event its run emitted since the registration. */
  lemma ShowsTheFeed(s: State, h: HubModel.State, c: HubModel.ClientId, k: nat)
    requires Reachable(s) && HubTheorems.Reachable(h) && c in h.clients
    requires s.delivered == h.clients[c].delivered && k < |HealthOf(s.wire)|
    ensures h.clients[c].run < |h.runs|
    ensures h.clients[c].first + k < |h.runs[h.clients[c].run].emitted|
    ensures HealthOf(s.wire)[k] == h.runs[h.clients[c].run].emitted[h.clients[c].first + k]
  {
    FramesInOrder(s);
    HubTheorems.NoGap(h, c);
    assert HealthOf(s.wire)[k] == s.delivered[k];
  }

  /** The handler returns only after its heartbeat is gone, and nothing is written afterwards. */
  lemma SilentAfterReturn(s: State, a: Action)
    requires Reachable(s) && s.main.Returned? && Enabled(s, a)
    ensures Apply(s, a).wire == s.wire && Apply(s, a).main.Returned?
  {
    Invariant(s);
  }

  /** The next own step of the thread that stands between a leaving handler and its return. */
  function Unwind(s: State): Action {
    if s.main.Leaving? then Cancel
    else match s.beat
      case Sleeping => BeatDone
      case Checking => Check(false)
      case Revoking => BeatOnce
      case BeatClaimed => BeatTerminal(true)
      case Cancelling => BeatCancel
      case _ => Join
  }

  function Distance(s: State): nat {
    (if s.main.Leaving? then 10 else if s.main.Waiting? then 1 else 0)
    + match s.beat
      case Checking => 5
      case Revoking => 4
      case BeatClaimed => 3
      case Cancelling => 2
      case Sleeping => 1
      case _ => 0
  }

  /**
   * The wait for the heartbeat cannot hang: cancel comes first, so from a leaving handler one named
   * own step, Unwind, is always possible and brings the return nearer. (A tick that is ready at the
   * same time may be taken instead of the exit; it costs another round.)
   */
  lemma UnwindReturns(s: State)
    requires Reachable(s) && (s.main.Leaving? || s.main.Waiting?)
    ensures !Outside(Unwind(s)) && Enabled(s, Unwind(s))
    ensures Distance(Apply(s, Unwind(s))) < Distance(s)
    ensures Distance(s) > 0 && (Apply(s, Unwind(s)).main.Waiting? || Apply(s, Unwind(s)).main.Returned?)
  {
    Invariant(s);
  }

  /**
   * The superseded frame is reachable: eviction cancels the handler's own context, yet while the
   * request lives and no terminal frame was claimed, the main loop can send exactly that one frame.
   */
  lemma SupersededIsTold(s: State)
    requires Reachable(s) && s.main.Select? && s.superseded && !s.once && !s.requestDone
    ensures var told := [TakeSuperseded, MainOnce, MainTerminal(true)];
            && Legal(s, told)
            && Errors(Exec(s, told).wire) == [StreamSuperseded]
            && s.taken <= |s.delivered| && HealthOf(Exec(s, told).wire) == s.delivered[..s.taken]
  {
    UnclaimedIsSilent(s);
    ThreeSteps(s, TakeSuperseded, MainOnce, MainTerminal(true));
    EndingIsWritten(Apply(s, TakeSuperseded), StreamSuperseded);
  }

  lemma UnclaimedIsSilent(s: State)
    requires Reachable(s) && !s.once && s.main.Select?
    ensures Errors(s.wire) == [] && s.taken <= |s.delivered| && HealthOf(s.wire) == s.delivered[..s.taken]
    ensures !s.beat.BeatClaimed?
  {
    Invariant(s);
  }

  lemma EndingIsWritten(s: State, msg: TerminalMsg)
    requires s.main == Ending(msg) && !s.once && !s.requestDone && !s.beat.BeatClaimed?
    ensures var end := Apply(Apply(s, MainOnce), MainTerminal(true));
            Errors(end.wire) == Errors(s.wire) + [msg] && HealthOf(end.wire) == HealthOf(s.wire)
  {
    Append(s.wire, Error(msg));
  }

  /**
   * And so is the reason of a subscription the hub closed: the main loop can tell a client that
   * lagged from one whose engine went away, in just that frame.
   */
  lemma ClosedIsTold(s: State)
    requires Reachable(s) && s.main.Select? && s.closedReason.Some? && !s.once && !s.requestDone
    ensures var told := [TakeClosed, MainOnce, MainTerminal(true)];
            && Legal(s, told)
            && Errors(Exec(s, told).wire)
               == [if s.closedReason.value == HubModel.Lagged then StreamLagged else EngineUnavailable]
            && s.taken <= |s.delivered| && HealthOf(Exec(s, told).wire) == s.delivered[..s.taken]
  {
    UnclaimedIsSilent(s);
    ThreeSteps(s, TakeClosed, MainOnce, MainTerminal(true));
    EndingIsWritten(Apply(s, TakeClosed),
                    if s.closedReason.value == HubModel.Lagged then StreamLagged else EngineUnavailable);
  }

  lemma ThreeSteps(s: State, a: Action, b: Action, c: Action)
    requires Enabled(s, a) && Enabled(Apply(s, a), b) && Enabled(Apply(Apply(s, a), b), c)
    ensures Legal(s, [a, b, c]) && Exec(s, [a, b, c]) == Apply(Apply(Apply(s, a), b), c)
  {
    assert [a, b, c][1..] == [b, c] && [b, c][1..] == [c] && [c][1..] == [];
    var s2 := Apply(Apply(s, a), b);
    assert Legal(s2, [c]) && Exec(s2, [c]) == Apply(s2, c);
    assert Legal(Apply(s, a), [b, c]) && Exec(Apply(s, a), [b, c]) == Exec(s2, [c]);
  }

  /** The heartbeat goroutine is past noticing the revocation. */
  predicate EndingStream(beat: BeatPc) { beat.Revoking? || beat.BeatClaimed? || beat.Cancelling? || beat.Exited? }

  predicate BeatAction(a: Action) {
    a.Tick? || a.Check? || a.BeatOnce? || a.BeatTerminal? || a.BeatCancel? || a.BeatDone?
  }

  function BeatActions(actions: seq<Action>): nat {
    if actions == [] then 0 else (if BeatAction(actions[0]) then 1 else 0) + BeatActions(actions[1..])
  }

  function BeatRank(beat: BeatPc): nat {
    match beat
    case Revoking => 3
    case BeatClaimed => 2
    case Cancelling => 1
    case _ => 0
  }

  /** On the way out: past the claim the Once is taken, and out means cancelled. */
  predicate OnWayOut(s: State) {
    && EndingStream(s.beat)
    && (!s.beat.Revoking? ==> s.once)
    && (s.beat.Exited? ==> s.ctxDone)
  }

  lemma WayOutStep(s: State, a: Action)
    requires OnWayOut(s) && Enabled(s, a) && !a.Start?
    ensures OnWayOut(Apply(s, a))
    ensures BeatRank(Apply(s, a).beat) + (if BeatAction(a) then 1 else 0) <= BeatRank(s.beat)
  {
  }

  lemma {:induction false} WayOutRun(s: State, actions: seq<Action>)
    requires Inv(s) && OnWayOut(s) && Legal(s, actions)
    ensures OnWayOut(Exec(s, actions))
    ensures BeatRank(Exec(s, actions).beat) + BeatActions(actions) <= BeatRank(s.beat)
    decreases |actions|
  {
    if actions != [] {
      assert !actions[0].Start?;
      WayOutStep(s, actions[0]);
      InvStep(s, actions[0]);
      WayOutRun(Apply(s, actions[0]), actions[1..]);
    }
  }

  /** The goroutine can go on, or the main loop is inside the Once and can finish there. */
  ghost predicate CanGoOn(s: State) {
    || (exists a :: BeatAction(a) && Enabled(s, a))
    || (s.beat.Revoking? && s.main.Claimed? && forall sent ::
          Enabled(s, MainTerminal(sent)) && Enabled(Apply(s, MainTerminal(sent)), BeatOnce))
  }

  lemma WayOutOpen(s: State)
    requires EndingStream(s.beat) && !s.beat.Exited?
    ensures CanGoOn(s)
  {
    var a := match s.beat
      case Revoking => BeatOnce
      case BeatClaimed => BeatTerminal(true)
      case _ => BeatCancel;
    if !(s.beat.Revoking? && s.main.Claimed?) { assert BeatAction(a) && Enabled(s, a); }
  }

  /**
   * A tick that finds the device revoked ends the stream. Whatever happens next, writes that fail
   * included: the goroutine never sleeps again; once past its claim the Once is taken, so that no
   * other reason can follow; after at most three more actions of its own it is out; and out means
   * that the stream's context is cancelled. Until then it has an action to take, or it waits at the
   * Once for the main loop's own terminal frame, whose write is the main loop's next action and
   * lets it on.
   */
  lemma RevokedTickEnds(s: State, actions: seq<Action>)
    requires Reachable(s) && s.beat.Checking? && s.revoked && Legal(Apply(s, Check(false)), actions)
    ensures
      var later := Exec(Apply(s, Check(false)), actions);
      && EndingStream(later.beat)
      && (!later.beat.Revoking? ==> later.once)
      && (later.beat.Exited? ==> later.ctxDone)
      && BeatActions(actions) <= 3 && (BeatActions(actions) == 3 ==> later.beat.Exited?)
      && (!later.beat.Exited? ==> CanGoOn(later))
  {
    Invariant(s);
    InvStep(s, Check(false));
    WayOutRun(Apply(s, Check(false)), actions);
    var later := Exec(Apply(s, Check(false)), actions);
    if !later.beat.Exited? { WayOutOpen(later); }
  }

  /** Until the claimed frame is written there is no error frame. */
  lemma ClaimedIsSilent(s: State)
    requires Reachable(s) && s.beat.BeatClaimed?
    ensures Errors(s.wire) == [] && s.revoked
  {
    Invariant(s);
  }

  /** The claimed frame says why and is the stream's only error frame; then the context is cancelled. */
  lemma RevokedIsTold(s: State, sent: bool)
    requires Reachable(s) && s.beat.BeatClaimed?
    ensures
      var told := Apply(s, BeatTerminal(sent));
      && Errors(told.wire) == (if sent && !s.requestDone then [StreamRevoked] else []) && s.revoked
      && told.beat.Cancelling? && Apply(told, BeatCancel).ctxDone && Apply(told, BeatCancel).beat.Exited?
  {
    ClaimedIsSilent(s);
    ClaimedIsWritten(s, sent);
  }

  lemma ClaimedIsWritten(s: State, sent: bool)
    requires s.beat.BeatClaimed? && Errors(s.wire) == []
    ensures
      var told := Apply(s, BeatTerminal(sent));
      && Errors(told.wire) == (if sent && !s.requestDone then [StreamRevoked] else [])
      && told.beat.Cancelling? && Apply(told, BeatCancel).ctxDone && Apply(told, BeatCancel).beat.Exited?
  {
    Append(s.wire, Error(StreamRevoked));
  }

  /** A tick that finds the device revoked, with no reason claimed yet, can end in just that frame. */
  lemma RevokedTickTells(s: State)
    requires Reachable(s) && s.beat.Checking? && s.revoked && !s.once && !s.requestDone
    ensures
      var checked := Apply(s, Check(false));
      && Enabled(checked, BeatOnce)
      && var claimed := Apply(checked, BeatOnce);
      && Enabled(claimed, BeatTerminal(true))
      && var told := Apply(claimed, BeatTerminal(true));
      && Errors(told.wire) == [StreamRevoked]
      && Enabled(told, BeatCancel) && Apply(told, BeatCancel).ctxDone && Apply(told, BeatCancel).beat.Exited?
  {
    Invariant(s);
    Append(s.wire, Error(StreamRevoked));
  }

  // ----------------------------------------------------- what ends a stream is seen

  /** What the outside has done to a stream is never undone. */
  predicate Remembers(s: State, a: Action) {
    match a
    case Supersede => s.superseded
    case Evict => s.ctxDone
    case Disconnect => s.requestDone && s.ctxDone
    case Revoke => s.revoked
    case CloseSub(reason) => s.closedReason == Some(reason)
    case _ => true
  }

  lemma RemembersStep(s: State, a: Action, old_: Action)
    requires Enabled(s, a) && (Remembers(s, old_) || a == old_)
    ensures Remembers(Apply(s, a), old_)
  {
  }

  lemma {:induction false} RemembersExec(s: State, actions: seq<Action>, a: Action)
    requires Legal(s, actions) && (Remembers(s, a) || a in actions)
    ensures Remembers(Exec(s, actions), a)
    decreases |actions|
  {
    if actions != [] {
      if Remembers(s, a) || actions[0] == a {
        RemembersStep(s, actions[0], a);
      } else {
        assert actions == [actions[0]] + actions[1..];
      }
      RemembersExec(Apply(s, actions[0]), actions[1..], a);
    }
  }

  /**
   * Nothing that should end a stream is missed: however long ago a newer stream took over, the
   * client went away or the hub closed the subscription, the select loop, whenever it is back at its
   * select, can take that branch; a heartbeat at rest can leave once the client has gone; and a
   * heartbeat's check that works finds a revocation.
   */
  lemma EndsAreSeen(s: State, actions: seq<Action>, a: Action)
    requires Legal(s, actions) && a in actions
    ensures
      var later := Exec(s, actions);
      match a
      case Supersede => later.main.Select? ==> Enabled(later, TakeSuperseded)
      case Disconnect => (later.main.Select? ==> Enabled(later, TakeDone))
                         && (later.beat.Sleeping? ==> Enabled(later, BeatDone))
      case Evict => (later.main.Select? ==> Enabled(later, TakeDone))
                    && (later.beat.Sleeping? ==> Enabled(later, BeatDone))
      case Revoke => later.beat.Checking? ==> Apply(later, Check(false)).beat.Revoking?
      case CloseSub(reason) => later.closedReason == Some(reason)
                               && (later.main.Select? ==> Enabled(later, TakeClosed))
      case _ => true
  {
    RemembersExec(s, actions, a);
  }

  /** A heartbeat goroutine exists from the snapshot on and is gone only for a reason. */
  predicate Watched(s: State) {
    && (s.beat.Unborn? ==> s.main.Starting? || s.main.Leaving? || s.main.Waiting? || s.main.Returned?)
    && (s.beat.Exited? ==> s.ctxDone)
    && (s.beat.Revoking? || s.beat.BeatClaimed? || s.beat.Cancelling? ==> s.revoked)
  }

  lemma WatchedStep(s: State, a: Action)
    requires Watched(s) && Enabled(s, a)
    ensures Watched(Apply(s, a))
  {
  }

  lemma {:induction false} WatchedExec(s: State, actions: seq<Action>)
    requires Watched(s) && Legal(s, actions)
    ensures Watched(Exec(s, actions))
    decreases |actions|
  {
    if actions != [] {
      WatchedStep(s, actions[0]);
      WatchedExec(Apply(s, actions[0]), actions[1..]);
    }
  }

  /** While a stream is open and nothing ends it, its heartbeat is alive: it can tick, or has and can check. */
  lemma WatchedWhileOpen(s: State)
    requires Reachable(s) && (s.main.Select? || s.main.Writing?) && !s.ctxDone && !s.revoked
    ensures Enabled(s, Tick(true)) || Enabled(s, Check(false))
  {
    var actions :| Legal(INIT, actions) && Exec(INIT, actions) == s;
    WatchedExec(INIT, actions);
  }

  function Heartbeats(wire: seq<Frame>): nat {
    if wire == [] then 0
    else Heartbeats(wire[..|wire| - 1]) + if wire[|wire| - 1].Heartbeat? then 1 else 0
  }

  lemma HeartbeatsAppend(wire: seq<Frame>, f: Frame)
    ensures Heartbeats(wire + [f]) == Heartbeats(wire) + if f.Heartbeat? then 1 else 0
  {
    assert (wire + [f])[..|wire|] == wire;
  }

  predicate SentTick(a: Action) { a.Tick? && a.sent }

  function SentTicks(actions: seq<Action>): nat {
    if actions == [] then 0 else (if SentTick(actions[0]) then 1 else 0) + SentTicks(actions[1..])
  }

  /** An action appends at most one frame, which a heartbeat's tick makes a heartbeat and no other does. */
  lemma WireStep(s: State, a: Action)
    requires Enabled(s, a)
    ensures SentTick(a) ==> Apply(s, a).wire == s.wire + [Heartbeat]
    ensures !SentTick(a) ==>
              || Apply(s, a).wire == s.wire
              || exists f: Frame :: !f.Heartbeat? && Apply(s, a).wire == s.wire + [f]
  {
  }

  /** Every tick whose write went through is a heartbeat on the wire, and there are no others. */
  lemma {:induction false} TicksAreHeard(s: State, actions: seq<Action>)
    requires Legal(s, actions)
    ensures Heartbeats(Exec(s, actions).wire) == Heartbeats(s.wire) + SentTicks(actions)
    decreases |actions|
  {
    if actions != [] {
      var a := actions[0];
      WireStep(s, a);
      HeartbeatsAppend(s.wire, Heartbeat);
      if f: Frame :| !f.Heartbeat? && Apply(s, a).wire == s.wire + [f] { HeartbeatsAppend(s.wire, f); }
      TicksAreHeard(Apply(s, a), actions[1..]);
    }
  }

  // ------------------------------------------------------------------ the bytes

  /** The wire form of a frame: the payload encodings are parameters, newline-free as JSON is. */
  function ToItem(f: Frame, snapshot: string, health: ContainerEvent -> string,
                  error: TerminalMsg -> string): Sse.Item
  {
    match f
    case Snapshot => Sse.Event("", "snapshot", snapshot)
    case Health(ev) => Sse.Event("", "health", health(ev))
    case Heartbeat => Sse.Comment("heartbeat")
    case Error(msg) => Sse.Event("", "error", error(msg))
  }

  ghost predicate Encodes(snapshot: string, health: ContainerEvent -> string, error: TerminalMsg -> string) {
    Sse.Clean(snapshot) && (forall ev :: Sse.Clean(health(ev))) && (forall m :: Sse.Clean(error(m)))
  }

  function Items(wire: seq<Frame>, snapshot: string, health: ContainerEvent -> string,
                 error: TerminalMsg -> string): seq<Sse.Item>
  {
    seq(|wire|, i requires 0 <= i < |wire| => ToItem(wire[i], snapshot, health, error))
  }

  /** What the client parses from the bytes is the frames that were written, one for one. */
  lemma ClientReadsFrames(s: State, snapshot: string, health: ContainerEvent -> string, error: TerminalMsg -> string,
                          end: Sse.ReadError)
    requires Encodes(snapshot, health, error)
    ensures var items := Items(s.wire, snapshot, health, error);
            Sse.ParseAll(Sse.PrintAll(items), end) == Sse.SeenAll(items)
  {
    var items := Items(s.wire, snapshot, health, error);
    forall i | 0 <= i < |items|
      ensures Sse.Readable(items[i])
    {
      assert items[i] == ToItem(s.wire[i], snapshot, health, error);
    }
    Sse.RoundTrip(items, end);
  }

  /** The names the client tells the frames apart by. */
  lemma FrameNames(f: Frame, snapshot: string, health: ContainerEvent -> string, error: TerminalMsg -> string)
    ensures var seen := Sse.Seen(ToItem(f, snapshot, health, error));
            match f
            case Snapshot => seen == Some(Sse.Frame("", "snapshot", snapshot))
            case Health(ev) => seen == Some(Sse.Frame("", "health", health(ev)))
            case Heartbeat => seen == None
            case Error(msg) => seen == Some(Sse.Frame("", "error", error(msg)))
  {
  }

  /** The same frame, as far as its payload tells. */
  predicate SameFrame(f: Frame, g: Frame, health: ContainerEvent -> string, error: TerminalMsg -> string) {
    match f
    case Snapshot => g.Snapshot?
    case Health(ev) => g.Health? && health(ev) == health(g.ev)
    case Heartbeat => g.Heartbeat?
    case Error(msg) => g.Error? && error(msg) == error(g.msg)
  }

  lemma FrameKnown(f: Frame, g: Frame, snapshot: string, health: ContainerEvent -> string,
                   error: TerminalMsg -> string)
    requires Sse.Seen(ToItem(f, snapshot, health, error)) == Sse.Seen(ToItem(g, snapshot, health, error))
    ensures SameFrame(f, g, health, error)
  {
    assert |"snapshot"| == 8 && |"health"| == 6 && |"error"| == 5;
  }

  /**
   * And no frame is taken for another: two streams from which the client parses the same blocks
   * wrote the same frames, one for one, as far as their payloads tell.
   */
  lemma BytesTellFrames(s: State, t: State, snapshot: string, health: ContainerEvent -> string,
                        error: TerminalMsg -> string, end: Sse.ReadError)
    requires Encodes(snapshot, health, error)
    requires Sse.ParseAll(Sse.PrintAll(Items(s.wire, snapshot, health, error)), end)
          == Sse.ParseAll(Sse.PrintAll(Items(t.wire, snapshot, health, error)), end)
    ensures |s.wire| == |t.wire|
    ensures forall i :: 0 <= i < |s.wire| ==> SameFrame(s.wire[i], t.wire[i], health, error)
  {
    ClientReadsFrames(s, snapshot, health, error, end);
    ClientReadsFrames(t, snapshot, health, error, end);
    var a, b := Items(s.wire, snapshot, health, error), Items(t.wire, snapshot, health, error);
    Sse.SeenEach(a);
    Sse.SeenEach(b);
    forall i | 0 <= i < |s.wire|
      ensures SameFrame(s.wire[i], t.wire[i], health, error)
    {
      assert Sse.SeenAll(a)[i] == Sse.SeenAll(b)[i];
      FrameKnown(s.wire[i], t.wire[i], snapshot, health, error);
    }
  }
}
