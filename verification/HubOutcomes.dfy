/**
 * What the hub's callers are told, and why (internal/httpapi/eventhub.go): which way an attach may
 * end, and what each close reason means.
 */
module HubOutcomes {
  import opened Prelude
  import opened ContainerEvents
  import opened HubModel
  import opened HubInvariant
  import opened HubTheorems

  // ------------------------------------------------------------ vocabulary

  ghost predicate Leaving(pc: ClientPc, why: Exit) {
    (pc.Detaching? || pc.Cancelling?) && pc.why == why
  }

  /** The attach saw its run's failed channel and answers, or will answer, with that failure. */
  ghost predicate OnFailedPath(pc: ClientPc) {
    Leaving(pc, AfterFailed) || pc.ReadingErr? || (pc.Refused? && pc.err != RequestDone)
  }

  /** The attach saw its own request end. */
  ghost predicate OnEndedPath(pc: ClientPc) {
    Leaving(pc, AfterRequestDone) || pc == Refused(RequestDone)
  }

  /** The attach returned its subscriber. */
  ghost predicate WasServed(pc: ClientPc) {
    pc.Open? || Leaving(pc, AfterHandler) || pc.Gone?
  }

  ghost predicate TellsTruth(s: State, c: ClientId)
    requires c in s.clients
  {
    var client := s.clients[c];
    && client.run < |s.runs|
    && var run := s.runs[client.run];
    && (OnFailedPath(client.pc) ==> run.failedClosed)
    && (OnEndedPath(client.pc) ==> c in s.ended)
    && (WasServed(client.pc) ==> run.readyClosed)
    && (client.reasons == [Lagged] ==> client.first + |client.delivered| < |run.emitted|)
    && (client.reasons == [Lagged] ==> |client.delivered| >= s.cap)
  }

  ghost function Queue(pc: RunPc): set<ClientId> {
    match pc
    case Sending(_, rem) => rem
    case Overflowed(_, rem, _) => rem
    case Dropping(_, rem, _) => rem
    case DropCancel(_, rem, _) => rem
    case _ => {}
  }

  /** The subscriber being dropped is full, and nobody still to be served was ever dropped. */
  ghost predicate DropsFull(s: State, r: RunId)
    requires r < |s.runs|
  {
    var pc := s.runs[r].pc;
    && (pc.Overflowed? ==> pc.victim in s.clients && |s.clients[pc.victim].delivered| >= s.cap)
    && (forall c {:trigger c in Queue(pc)} :: c in Queue(pc) && c in s.clients ==> !s.clients[c].once)
  }

  ghost predicate Outcomes(s: State) {
    && (forall c {:trigger TellsTruth(s, c)} :: c in s.clients ==> TellsTruth(s, c))
    && (forall r {:trigger DropsFull(s, r)} :: 0 <= r < |s.runs| ==> DropsFull(s, r))
  }

  // ----------------------------------------------------------- preservation

  /** Channels stay closed, feeds only grow, ended requests stay ended. */
  ghost predicate Forward(s: State, s': State) {
    && s'.cap == s.cap && s.ended <= s'.ended && |s.runs| <= |s'.runs|
    && forall r :: 0 <= r < |s.runs| ==>
         && (s.runs[r].failedClosed ==> s'.runs[r].failedClosed)
         && (s.runs[r].readyClosed ==> s'.runs[r].readyClosed)
         && |s.runs[r].emitted| <= |s'.runs[r].emitted|
  }

  ghost predicate SameStory(a: Client, b: Client) {
    b.run == a.run && b.first == a.first && b.delivered == a.delivered && b.reasons == a.reasons && b.once == a.once
  }

  lemma TruthFrame(s: State, s': State, c: ClientId)
    requires c in s.clients && c in s'.clients && TellsTruth(s, c) && Forward(s, s')
    requires SameStory(s.clients[c], s'.clients[c]) && s'.clients[c].pc == s.clients[c].pc
    ensures TellsTruth(s', c)
  {
  }

  lemma DropsFrame(s: State, s': State, r: RunId)
    requires r < |s.runs| <= |s'.runs| && DropsFull(s, r) && s'.cap == s.cap
    requires s'.runs[r].pc == s.runs[r].pc
    requires forall c :: c in s.clients ==> c in s'.clients && SameStory(s.clients[c], s'.clients[c])
    requires forall c :: c in Queue(s.runs[r].pc) ==> c in s.clients
    ensures DropsFull(s', r)
  {
  }

  lemma QueueKnown(s: State, r: RunId)
    requires Inv(s) && r < |s.runs|
    ensures forall c :: c in Queue(s.runs[r].pc) ==> c in s.clients
  {
    assert ListsOk(s, r);
    forall c | c in Queue(s.runs[r].pc) ensures c in s.clients { assert c in Unserved(s.runs[r].pc); }
  }

  /** A step that tells nobody anything: the same clients but for one pc, the same runs. */
  ghost predicate Quiet(s: State, s': State) {
    && Forward(s, s')
    && (forall r :: 0 <= r < |s.runs| ==> s'.runs[r].pc == s.runs[r].pc)
    && (forall c :: c in s.clients ==> c in s'.clients && SameStory(s.clients[c], s'.clients[c]))
    && (forall c :: c in s'.clients ==> c in s.clients)
    && |s'.runs| == |s.runs|
  }

  lemma QuietMoves(s: State, s': State)
    requires Inv(s) && Outcomes(s) && Quiet(s, s')
    requires forall c :: c in s.clients && s'.clients[c].pc != s.clients[c].pc ==> TellsTruth(s', c)
    ensures Outcomes(s')
  {
    forall c | c in s'.clients ensures TellsTruth(s', c) {
      assert TellsTruth(s, c);
      if s'.clients[c].pc == s.clients[c].pc { TruthFrame(s, s', c); }
    }
    forall r | 0 <= r < |s'.runs| ensures DropsFull(s', r) {
      assert DropsFull(s, r);
      QueueKnown(s, r);
      DropsFrame(s, s', r);
    }
  }

  lemma AttachTells(s: State, c: ClientId, op: AttachOp)
    requires Inv(s) && Outcomes(s) && AttachEnabled(s, c, op) && !op.Register?
    ensures Outcomes(AttachStep(s, c, op))
  {
    var s' := AttachStep(s, c, op);
    assert TellsTruth(s, c);
    assert TellsTruth(s', c);
    QuietMoves(s, s');
  }

  lemma RegisterNewTells(s: State, c: ClientId)
    requires HubOk(s) && c !in s.clients
    ensures c in RegisterStep(s, c).clients && TellsTruth(RegisterStep(s, c), c)
  {
    RegisterHub(s, RegisterStep(s, c), c);
  }

  lemma RegisterOldTells(s: State, c: ClientId, d: ClientId)
    requires HubOk(s) && c !in s.clients && d in s.clients && TellsTruth(s, d)
    ensures d in RegisterStep(s, c).clients && TellsTruth(RegisterStep(s, c), d)
  {
    RegisterHub(s, RegisterStep(s, c), c);
    assert RegisterStep(s, c).ended == s.ended;
    TruthFrame(s, RegisterStep(s, c), d);
  }

  lemma RegisterTells(s: State, c: ClientId)
    requires Inv(s) && Outcomes(s) && AttachEnabled(s, c, Register)
    ensures Outcomes(RegisterStep(s, c))
  {
    var s' := RegisterStep(s, c);
    RegisterHub(s, s', c);
    RegisterNewTells(s, c);
    forall d | d in s'.clients ensures TellsTruth(s', d) {
      if d != c {
        assert TellsTruth(s, d);
        RegisterOldTells(s, c, d);
      }
    }
    forall r | 0 <= r < |s'.runs| ensures DropsFull(s', r) {
      if r < |s.runs| {
        assert DropsFull(s, r);
        QueueKnown(s, r);
        DropsFrame(s, s', r);
      } else {
        RegisterFresh(s, s', c);
      }
    }
  }

  lemma RegisterFresh(s: State, s': State, c: ClientId)
    requires HubOk(s) && c !in s.clients && s' == RegisterStep(s, c)
    ensures forall r :: |s.runs| <= r < |s'.runs| ==> s'.runs[r] == NEW_RUN
  {
  }

  lemma HandlerTells(s: State, c: ClientId, op: HandlerOp)
    requires Inv(s) && Outcomes(s) && HandlerEnabled(s, c, op)
    ensures Outcomes(HandlerStep(s, c, op))
  {
    var s' := HandlerStep(s, c, op);
    assert TellsTruth(s, c);
    assert TellsTruth(s', c);
    QuietMoves(s, s');
  }

  lemma DetachTells(s: State, c: ClientId, op: DetachOp)
    requires Inv(s) && Outcomes(s) && DetachEnabled(s, c, op)
    ensures Outcomes(DetachStep(s, c, op))
  {
    var s' := DetachStep(s, c, op);
    assert StandingOk(s, c) && TellsTruth(s, c);
    DetachIsQuiet(s, c, op);
    assert TellsTruth(s', c);
    QuietMoves(s, s');
  }

  lemma DetachIsQuiet(s: State, c: ClientId, op: DetachOp)
    requires DetachEnabled(s, c, op)
    ensures var s' := DetachStep(s, c, op);
            && Quiet(s, s')
            && (forall d :: d in s.clients && d != c ==> s'.clients[d].pc == s.clients[d].pc)
            && (s'.clients[c].pc == AfterDetach(s.clients[c].pc.why)
                || Leaving(s'.clients[c].pc, s.clients[c].pc.why))
  {
  }

  /** A goroutine's own step: one run's pc moves, and every client keeps its pc and its story. */
  lemma RunStepTells(s: State, s': State, r: RunId)
    requires Inv(s) && Outcomes(s) && Forward(s, s') && |s'.runs| == |s.runs| && r < |s.runs|
    requires s'.clients == s.clients
    requires forall q :: 0 <= q < |s.runs| && q != r ==> s'.runs[q].pc == s.runs[q].pc
    requires DropsFull(s', r)
    ensures Outcomes(s')
  {
    forall c | c in s'.clients ensures TellsTruth(s', c) {
      assert TellsTruth(s, c);
      TruthFrame(s, s', c);
    }
    forall q | 0 <= q < |s'.runs| ensures DropsFull(s', q) {
      if q != r {
        assert DropsFull(s, q);
        QueueKnown(s, q);
        DropsFrame(s, s', q);
      }
    }
  }

  lemma StreamForward(s: State, r: RunId, op: StreamOp)
    requires StreamEnabled(s, r, op)
    ensures MovedOn(s, StreamStep(s, r, op), r) && Queue(StreamStep(s, r, op).runs[r].pc) == {}
  {
    StreamKeepsClients(s, r, op);
    if op.CloseReady? {
      CloseReadyForward(s, r);
    } else if op.TakeMessage? {
      assert StreamStep(s, r, op) == TakeMessageStep(s, r);
    }
  }

  /** Nothing but a channel or a context changed. */
  ghost predicate OnlySignalled(s: State, s': State) {
    && Forward(s, s') && |s'.runs| == |s.runs| && s'.clients == s.clients
    && forall q :: 0 <= q < |s.runs| ==> s'.runs[q].pc == s.runs[q].pc
  }

  lemma SignalRun(s: State, r: RunId, run: Run)
    requires r < |s.runs| && run.pc == s.runs[r].pc && run.emitted == s.runs[r].emitted
    requires (s.runs[r].failedClosed ==> run.failedClosed) && (s.runs[r].readyClosed ==> run.readyClosed)
    ensures OnlySignalled(s, SetRun(s, r, run))
  {
  }

  lemma ReadyKeeps(s: State, ch: Option<RunId>)
    ensures OnlySignalled(s, CloseReadyChannel(s, ch))
  {
    if ch.Some? && ch.value < |s.runs| { SignalRun(s, ch.value, s.runs[ch.value].(readyClosed := true)); }
  }

  lemma FailedKeeps(s: State, ch: Option<RunId>)
    ensures OnlySignalled(s, CloseFailedChannel(s, ch))
  {
    if ch.Some? && ch.value < |s.runs| { SignalRun(s, ch.value, s.runs[ch.value].(failedClosed := true)); }
  }

  lemma CancelKeeps(s: State, ch: Option<RunId>)
    ensures OnlySignalled(s, Cancel(s, ch))
  {
    if ch.Some? && ch.value < |s.runs| { SignalRun(s, ch.value, s.runs[ch.value].(cancelled := true)); }
  }

  lemma PcForward(s: State, r: RunId, pc: RunPc)
    requires r < |s.runs| && Queue(pc) <= Queue(s.runs[r].pc) && !pc.Overflowed?
    ensures MovedOn(s, SetRunPc(s, r, pc), r) && SetRunPc(s, r, pc).runs[r].pc == pc
  {
  }

  lemma AlsoMovedOn(s: State, mid: State, s': State, r: RunId)
    requires MovedOn(s, mid, r) && OnlySignalled(mid, s')
    ensures MovedOn(s, s', r) && s'.runs[r].pc == mid.runs[r].pc
  {
  }

  lemma CloseReadyForward(s: State, r: RunId)
    requires StreamEnabled(s, r, CloseReady)
    ensures MovedOn(s, StreamStep(s, r, CloseReady), r) && Queue(StreamStep(s, r, CloseReady).runs[r].pc) == {}
  {
    var ch := s.runs[r].pc.ch;
    PcForward(s, r, Loop);
    ReadyKeeps(SetRunPc(s, r, Loop), ch);
    AlsoMovedOn(s, SetRunPc(s, r, Loop), CloseReadyChannel(SetRunPc(s, r, Loop), ch), r);
  }

  lemma StreamTells(s: State, r: RunId, op: StreamOp)
    requires Inv(s) && Outcomes(s) && StreamEnabled(s, r, op)
    ensures Outcomes(StreamStep(s, r, op))
  {
    StreamForward(s, r, op);
    RunStepTells(s, StreamStep(s, r, op), r);
  }

  lemma RunForward(s: State, r: RunId, op: RunOp)
    requires RunEnabled(s, r, op) && !op.CloseSub?
    ensures MovedOn(s, RunStep(s, r, op), r) && Queue(RunStep(s, r, op).runs[r].pc) == {}
  {
    if op.Teardown? {
      assert RunStep(s, r, op) == TeardownStep(s, r);
    } else if op.CloseFailed? {
      CloseFailedForward(s, r);
    } else {
      PcForward(s, r, Finished);
    }
  }

  lemma CloseFailedForward(s: State, r: RunId)
    requires RunEnabled(s, r, CloseFailed)
    ensures MovedOn(s, RunStep(s, r, CloseFailed), r) && Queue(RunStep(s, r, CloseFailed).runs[r].pc) == {}
  {
    var pc := s.runs[r].pc;
    PcForward(s, r, Closing(pc.list));
    FailedKeeps(SetRunPc(s, r, Closing(pc.list)), pc.ch);
    AlsoMovedOn(s, SetRunPc(s, r, Closing(pc.list)), CloseFailedChannel(SetRunPc(s, r, Closing(pc.list)), pc.ch), r);
  }

  lemma RunTells(s: State, r: RunId, op: RunOp)
    requires Inv(s) && Outcomes(s) && RunEnabled(s, r, op)
    ensures Outcomes(RunStep(s, r, op))
  {
    var s' := RunStep(s, r, op);
    if op.CloseSub? {
      var c := op.c;
      assert ListsOk(s, r) && c in Teardowns(s.runs[r].pc);
      assert DeliveryOk(s, c) && TellsTruth(s, c);
      assert s' == CloseSubStep(s, r, c);
      assert s'.clients[c].reasons == [EngineGone];
      OneClientTells(s, s', r, c);
    } else {
      RunForward(s, r, op);
      RunStepTells(s, s', r);
    }
  }

  /** A goroutine's step that gives one client something, an event or a reason. */
  lemma OneClientTells(s: State, s': State, r: RunId, c: ClientId)
    requires Inv(s) && Outcomes(s) && OnlyPair(s, s', r, c)
    requires TellsTruth(s', c) && DropsFull(s', r)
    ensures Outcomes(s')
  {
    forall d | d in s'.clients ensures TellsTruth(s', d) {
      if d != c {
        assert TellsTruth(s, d);
        TruthFrame(s, s', d);
      }
    }
    forall q | 0 <= q < |s'.runs| ensures DropsFull(s', q) {
      if q != r {
        assert DropsFull(s, q) && ListsOk(s, q);
        assert c !in Unserved(s.runs[q].pc);
        OtherQueue(s, s', q, c);
      }
    }
  }

  lemma OtherQueue(s: State, s': State, q: RunId, c: ClientId)
    requires q < |s.runs| == |s'.runs| && s'.runs[q] == s.runs[q] && s'.cap == s.cap
    requires DropsFull(s, q) && c !in Unserved(s.runs[q].pc)
    requires forall d :: d in s.clients && d != c ==> d in s'.clients && s'.clients[d] == s.clients[d]
    requires s'.clients.Keys == s.clients.Keys
    ensures DropsFull(s', q)
  {
    forall d | d in Queue(s.runs[q].pc) ensures d in Unserved(s.runs[q].pc) {}
  }

  lemma CopySubsTells(s: State, r: RunId)
    requires Inv(s) && Outcomes(s) && FanoutEnabled(s, r, CopySubs)
    ensures Outcomes(CopySubsStep(s, r))
  {
    var s' := CopySubsStep(s, r);
    assert RunOk(s, r);
    forall c | c in s.hub.subs ensures c in s.clients && !s.clients[c].once { assert StandingOk(s, c); }
    RunStepTells(s, s', r);
  }

  lemma SendTells(s: State, r: RunId, c: ClientId)
    requires Inv(s) && Outcomes(s) && FanoutEnabled(s, r, Send(c))
    ensures Outcomes(SendStep(s, r, c))
  {
    var s' := SendStep(s, r, c);
    assert RunOk(s, r) && ListsOk(s, r) && DeliveryOk(s, c) && StandingOk(s, c);
    assert TellsTruth(s, c) && DropsFull(s, r);
    assert c in Queue(s.runs[r].pc);
    SendPair(s, r, c);
    OneClientTells(s, s', r, c);
  }

  lemma CloseLaggedTells(s: State, r: RunId)
    requires Inv(s) && Outcomes(s) && FanoutEnabled(s, r, CloseLagged)
    ensures Outcomes(CloseLaggedStep(s, r))
  {
    var s', c := CloseLaggedStep(s, r), s.runs[r].pc.victim;
    assert RunOk(s, r) && ListsOk(s, r) && DeliveryOk(s, c) && StandingOk(s, c);
    assert TellsTruth(s, c) && DropsFull(s, r);
    assert c in Unserved(s.runs[r].pc);
    CloseLaggedPair(s, r, c);
    CloseLaggedQueue(s, r);
    OneClientTells(s, s', r, c);
  }

  lemma CloseLaggedQueue(s: State, r: RunId)
    requires FanoutEnabled(s, r, CloseLagged) && RunOk(s, r) && DropsFull(s, r)
    ensures DropsFull(CloseLaggedStep(s, r), r)
  {
    var s' := CloseLaggedStep(s, r);
    forall d | d in Queue(s'.runs[r].pc) && d in s'.clients ensures !s'.clients[d].once {
      assert d in Queue(s.runs[r].pc);
    }
  }

  lemma OverflowTells(s: State, r: RunId, c: ClientId)
    requires Inv(s) && Outcomes(s) && FanoutEnabled(s, r, Overflow(c))
    ensures Outcomes(FanoutStep(s, r, Overflow(c)))
  {
    var s' := FanoutStep(s, r, Overflow(c));
    assert DropsFull(s, r) && DeliveryOk(s, c);
    assert s'.clients == s.clients && Queue(s'.runs[r].pc) <= Queue(s.runs[r].pc);
    RunStepTells(s, s', r);
  }

  lemma MoveOnTells(s: State, r: RunId, op: FanoutOp)
    requires Inv(s) && Outcomes(s) && FanoutEnabled(s, r, op) && (op.DropLock? || op.DropCall? || op.FanoutDone?)
    ensures Outcomes(FanoutStep(s, r, op))
  {
    assert DropsFull(s, r) && RunOk(s, r);
    MoveOnForward(s, r, op);
    RunStepTells(s, FanoutStep(s, r, op), r);
  }

  /** Run r's goroutine moved on: nobody was told anything and its queue did not grow. */
  ghost predicate MovedOn(s: State, s': State, r: RunId) {
    && r < |s.runs|
    && Forward(s, s') && |s'.runs| == |s.runs| && s'.clients == s.clients
    && (forall q :: 0 <= q < |s.runs| && q != r ==> s'.runs[q].pc == s.runs[q].pc)
    && Queue(s'.runs[r].pc) <= Queue(s.runs[r].pc) && !s'.runs[r].pc.Overflowed?
  }

  lemma MoveOnForward(s: State, r: RunId, op: FanoutOp)
    requires FanoutEnabled(s, r, op) && (op.DropLock? || op.DropCall? || op.FanoutDone?)
    ensures MovedOn(s, FanoutStep(s, r, op), r)
  {
    if op.DropLock? {
      DropLockForward(s, r);
    } else if op.DropCall? {
      DropCallForward(s, r);
    } else {
      PcForward(s, r, Loop);
    }
  }

  lemma DropLockForward(s: State, r: RunId)
    requires FanoutEnabled(s, r, DropLock)
    ensures MovedOn(s, FanoutStep(s, r, DropLock), r)
  {
    assert FanoutStep(s, r, DropLock) == DropLockStep(s, r);
  }

  lemma DropCallForward(s: State, r: RunId)
    requires FanoutEnabled(s, r, DropCall)
    ensures MovedOn(s, FanoutStep(s, r, DropCall), r)
  {
    var pc := s.runs[r].pc;
    var mid := SetRunPc(s, r, Sending(pc.ev, pc.rem));
    PcForward(s, r, Sending(pc.ev, pc.rem));
    CancelKeeps(mid, pc.target);
    AlsoMovedOn(s, mid, Cancel(mid, pc.target), r);
  }

  lemma FanoutTells(s: State, r: RunId, op: FanoutOp)
    requires Inv(s) && Outcomes(s) && FanoutEnabled(s, r, op)
    ensures Outcomes(FanoutStep(s, r, op))
  {
    match op
    case CopySubs => CopySubsTells(s, r);
    case Send(c) => SendTells(s, r, c);
    case Overflow(c) => OverflowTells(s, r, c);
    case CloseLagged => CloseLaggedTells(s, r);
    case _ => MoveOnTells(s, r, op);
  }

  lemma OutcomesStep(s: State, a: Action)
    requires Inv(s) && Outcomes(s) && Enabled(s, a)
    ensures Outcomes(Apply(s, a))
  {
    match a
    case EngineAppend(_) => QuietMoves(s, Apply(s, a));
    case ParentCancel => QuietMoves(s, Apply(s, a));
    case RequestEnds(_) => QuietMoves(s, Apply(s, a));
    case InAttach(c, op) => if op.Register? { RegisterTells(s, c); } else { AttachTells(s, c, op); }
    case InHandler(c, op) => HandlerTells(s, c, op);
    case InDetach(c, op) => DetachTells(s, c, op);
    case InStream(r, op) => StreamTells(s, r, op);
    case InFanout(r, op) => FanoutTells(s, r, op);
    case InRun(r, op) => RunTells(s, r, op);
    case InStop(k, op) => StopTells(s, k, op);
  }

  lemma StopTells(s: State, k: nat, op: StopOp)
    requires Inv(s) && Outcomes(s) && StopEnabled(s, k, op)
    ensures Outcomes(StopStep(s, k, op))
  {
    QuietMoves(s, StopStep(s, k, op));
  }

  lemma {:induction false} OutcomesOfSchedule(cap: nat, acts: seq<Action>, s: State)
    requires cap > 0 && Leads(cap, acts, s)
    ensures Inv(s) && Outcomes(s)
    decreases |acts|
  {
    ScheduleKeepsInvariant(cap, acts, s);
    if acts != [] {
      var before := Exec(cap, acts[..|acts| - 1]);
      OutcomesOfSchedule(cap, acts[..|acts| - 1], before);
      OutcomesStep(before, acts[|acts| - 1]);
    }
  }

  lemma OutcomesHold(s: State)
    requires Reachable(s)
    ensures Inv(s) && Outcomes(s)
  {
    var cap, acts :| cap > 0 && Leads(cap, acts, s);
    OutcomesOfSchedule(cap, acts, s);
  }

  // ------------------------------------------------------------ how attach ends

  /**
   * An attach that answers with its run's failure, or is on its way to, waited on a run whose failed
   * channel was closed; one that answers that the request is done had a request that ended; and
   * whoever got a subscriber had seen its run's subscription established.
   */
  lemma AttachTellsTruth(s: State, c: ClientId)
    requires Reachable(s) && c in s.clients
    ensures s.clients[c].run < |s.runs|
    ensures OnFailedPath(s.clients[c].pc) ==> s.runs[s.clients[c].run].failedClosed
    ensures OnEndedPath(s.clients[c].pc) ==> c in s.ended
    ensures WasServed(s.clients[c].pc) ==> s.runs[s.clients[c].run].readyClosed
    ensures s.clients[c].pc.Refused? ==> s.runs[s.clients[c].run].failedClosed || c in s.ended
  {
    OutcomesHold(s);
    assert TellsTruth(s, c);
  }

  /**
   * While its run has not failed and its request lives, the only thing a waiting attach can do is
   * return its subscriber, and it can as soon as the run is ready.
   */
  lemma LiveAttachSucceeds(s: State, c: ClientId)
    requires Reachable(s) && c in s.clients && s.clients[c].pc.Waiting? && s.clients[c].run < |s.runs|
    requires !s.runs[s.clients[c].run].failedClosed && c !in s.ended
    ensures forall a :: OwnAction(a, c) && Enabled(s, a) ==>
              c in Apply(s, a).clients && Apply(s, a).clients[c] == s.clients[c].(pc := Open)
    ensures s.runs[s.clients[c].run].readyClosed ==> exists a :: OwnAction(a, c) && Enabled(s, a)
  {
    forall a | OwnAction(a, c) && Enabled(s, a)
      ensures c in Apply(s, a).clients && Apply(s, a).clients[c] == s.clients[c].(pc := Open)
    {
      assert a.InAttach? && AttachEnabled(s, c, a.attachOp);
      assert AttachStep(s, c, a.attachOp) == SetClientPc(s, c, Open);
    }
    if s.runs[s.clients[c].run].readyClosed {
      var a := InAttach(c, SelectReady);
      assert OwnAction(a, c) && Enabled(s, a);
    }
  }

  /** Nobody is treated as served without having been handed its subscriber. */
  lemma ServedThroughOpen(s: State, a: Action, c: ClientId)
    requires Enabled(s, a) && c in s.clients && !WasServed(s.clients[c].pc)
    ensures c in Apply(s, a).clients
    ensures WasServed(Apply(s, a).clients[c].pc) ==> Apply(s, a).clients[c].pc.Open?
  {
    if OwnAction(a, c) {
      match a
      case InAttach(_, op) => assert Apply(s, a) == AttachStep(s, c, op);
      case InDetach(_, op) => assert Apply(s, a) == DetachStep(s, c, op);
    } else {
      AttachUndisturbed(s, a, c);
    }
  }

  // -------------------------------------------------------- what reasons mean

  /**
   * The two close reasons are told truthfully. A client told that it lagged had its buffer filled
   * and has missed an event its run emitted; one told that the Engine went has missed nothing, and
   * its run has ended.
   */
  lemma ReasonsTellTruth(s: State, c: ClientId)
    requires Reachable(s) && c in s.clients
    ensures s.clients[c].run < |s.runs|
    ensures
      var client, run := s.clients[c], s.runs[s.clients[c].run];
      && (client.reasons == [Lagged] ==>
            |client.delivered| >= s.cap && client.first + |client.delivered| < |run.emitted|)
      && (client.reasons == [EngineGone] ==>
            run.failedClosed && client.first + |client.delivered| == |run.emitted|)
  {
    OutcomesHold(s);
    assert TellsTruth(s, c) && DeliveryOk(s, c);
  }

  // -------------------------------------------------------- which error is told

  /** Between runs, a step that starts no run leaves the last run's error where it is. */
  lemma ErrorStays(s: State, a: Action)
    requires Reachable(s) && Enabled(s, a) && !s.hub.running && |Apply(s, a).runs| == |s.runs|
    ensures !Apply(s, a).hub.running && Apply(s, a).hub.runErr == s.hub.runErr
  {
    Invariant(s);
    match a
    case InAttach(c, op) => assert Apply(s, a) == AttachStep(s, c, op);
    case InRun(r, op) => RunKeepsHub(s, r, op);
    case InFanout(r, op) => FanoutKeepsError(s, r, op);
    case InStream(r, op) => StreamKeepsHub(s, r, op);
    case InDetach(c, op) => DetachKeepsError(s, c, op);
    case _ =>
  }

  lemma RunKeepsHub(s: State, r: RunId, op: RunOp)
    requires RunEnabled(s, r, op) && HubOk(s) && !s.hub.running
    ensures RunStep(s, r, op).hub == s.hub
  {
  }

  lemma FanoutKeepsError(s: State, r: RunId, op: FanoutOp)
    requires FanoutEnabled(s, r, op)
    ensures FanoutStep(s, r, op).hub == s.hub.(subs := FanoutStep(s, r, op).hub.subs)
  {
  }

  lemma DetachKeepsError(s: State, c: ClientId, op: DetachOp)
    requires DetachEnabled(s, c, op)
    ensures DetachStep(s, c, op).hub == s.hub.(subs := DetachStep(s, c, op).hub.subs)
  {
  }

  lemma StreamKeepsHub(s: State, r: RunId, op: StreamOp)
    requires StreamEnabled(s, r, op)
    ensures StreamStep(s, r, op).hub == s.hub
  {
  }

  lemma RunsGrow(s: State, a: Action)
    requires Enabled(s, a)
    ensures |s.runs| <= |Apply(s, a).runs|
  {
    match a
    case InAttach(c, op) => assert Apply(s, a) == AttachStep(s, c, op);
    case InDetach(c, op) => DetachIsQuiet(s, c, op);
    case InStream(r, op) => StreamForward(s, r, op);
    case InFanout(r, op) => FanoutUndisturbed(s, r, op);
    case InRun(r, op) => RunUndisturbed(s, r, op);
    case _ =>
  }

  lemma {:induction false} PrefixRuns(cap: nat, acts: seq<Action>, i: nat)
    requires cap > 0 && Legal(cap, acts) && i <= |acts|
    ensures Legal(cap, acts[..i]) && |Exec(cap, acts[..i]).runs| <= |Exec(cap, acts).runs|
    decreases |acts|
  {
    if i == |acts| {
      assert acts[..i] == acts;
    } else {
      var before := acts[..|acts| - 1];
      PrefixRuns(cap, before, i);
      assert before[..i] == acts[..i];
      RunsGrow(Exec(cap, before), acts[|acts| - 1]);
    }
  }

  lemma {:induction false} ErrorKept(cap: nat, acts: seq<Action>, i: nat)
    requires cap > 0 && Legal(cap, acts) && i <= |acts| && Legal(cap, acts[..i])
    requires !Exec(cap, acts[..i]).hub.running && |Exec(cap, acts).runs| == |Exec(cap, acts[..i]).runs|
    ensures !Exec(cap, acts).hub.running && Exec(cap, acts).hub.runErr == Exec(cap, acts[..i]).hub.runErr
    decreases |acts|
  {
    if i == |acts| {
      assert acts[..i] == acts;
    } else {
      var before, last := acts[..|acts| - 1], acts[|acts| - 1];
      assert before[..i] == acts[..i];
      PrefixRuns(cap, before, i);
      RunsGrow(Exec(cap, before), last);
      ErrorKept(cap, before, i);
      assert Leads(cap, before, Exec(cap, before));
      ErrorStays(Exec(cap, before), last);
    }
  }

  /** What an attach that waited on a run ended by `err` is to be told. */
  function ErrorFor(err: Option<StreamError>): AttachError {
    if err.Some? then RunFailed(err.value) else HubUnavailable
  }

  /**
   * As long as no later run was started, an attach that fails is told the error its run's stream
   * ended with, or that the hub is unavailable when the stream ended without one.
   */
  lemma FailedAttachToldWhy(cap: nat, acts: seq<Action>, i: nat, r: RunId, c: ClientId)
    requires cap > 0 && Legal(cap, acts) && i < |acts| && Legal(cap, acts[..i])
    requires r < |Exec(cap, acts[..i]).runs| && Exec(cap, acts[..i]).runs[r].pc.Returned?
    requires acts[i] == InRun(r, Teardown) && |Exec(cap, acts).runs| == |Exec(cap, acts[..i]).runs|
    requires Enabled(Exec(cap, acts), InAttach(c, ReadRunErr))
    ensures
      var told := Apply(Exec(cap, acts), InAttach(c, ReadRunErr));
      c in told.clients && told.clients[c].pc == Refused(ErrorFor(Exec(cap, acts[..i]).runs[r].pc.err))
  {
    var s := Exec(cap, acts[..i]);
    PrefixRuns(cap, acts, i + 1);
    assert acts[..i + 1][..i] == acts[..i];
    assert Exec(cap, acts[..i + 1]) == Apply(s, InRun(r, Teardown)) == TeardownStep(s, r);
    ErrorKept(cap, acts, i + 1);
  }

  /** A run that is going has no error yet, neither its own nor an earlier run's. */
  predicate NoErrorYet(s: State) { s.hub.running ==> s.hub.runErr == None }

  lemma NoErrorStep(s: State, a: Action)
    requires NoErrorYet(s) && Enabled(s, a)
    ensures NoErrorYet(Apply(s, a))
  {
    match a
    case InAttach(c, op) => assert Apply(s, a) == AttachStep(s, c, op);
    case InRun(r, op) => RunKeepsNoError(s, r, op);
    case InFanout(r, op) => FanoutKeepsError(s, r, op);
    case InStream(r, op) => StreamKeepsHub(s, r, op);
    case InDetach(c, op) => DetachKeepsError(s, c, op);
    case _ =>
  }

  lemma RunKeepsNoError(s: State, r: RunId, op: RunOp)
    requires RunEnabled(s, r, op) && NoErrorYet(s)
    ensures NoErrorYet(RunStep(s, r, op))
  {
  }

  lemma {:induction false} NoErrorExec(cap: nat, acts: seq<Action>)
    requires Legal(cap, acts)
    ensures NoErrorYet(Exec(cap, acts))
    decreases |acts|
  {
    if acts != [] {
      NoErrorExec(cap, acts[..|acts| - 1]);
      NoErrorStep(Exec(cap, acts[..|acts| - 1]), acts[|acts| - 1]);
    }
  }

  /** Nobody is told a stale error: while any run is going, a failed attach reads that the hub is unavailable. */
  lemma NoStaleError(s: State, c: ClientId)
    requires Reachable(s) && s.hub.running && Enabled(s, InAttach(c, ReadRunErr))
    ensures c in Apply(s, InAttach(c, ReadRunErr)).clients
    ensures Apply(s, InAttach(c, ReadRunErr)).clients[c].pc == Refused(HubUnavailable)
  {
    var cap, acts :| Leads(cap, acts, s);
    NoErrorExec(cap, acts);
  }
}
