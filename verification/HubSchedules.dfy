/**
 * What whole schedules of the hub add up to: how much of its buffer a client has taken, how far
 * into the Engine's log a run has read, and that a stop reaches the run it found.
 */
module HubSchedules {
  import opened Prelude
  import opened ContainerEvents
  import opened HubModel
  import opened HubInvariant
  import opened HubTheorems
  import opened HubOutcomes

  // ------------------------------------------------------------ room in a buffer

  /** How often the client's handler has received. */
  function Received(acts: seq<Action>, c: ClientId): nat {
    if acts == [] then 0
    else Received(acts[..|acts| - 1], c) + if acts[|acts| - 1] == InHandler(c, Receive) then 1 else 0
  }

  lemma TakenStep(s: State, a: Action, c: ClientId)
    requires Enabled(s, a)
    ensures c in s.clients ==>
              && c in Apply(s, a).clients
              && Apply(s, a).clients[c].taken == s.clients[c].taken + if a == InHandler(c, Receive) then 1 else 0
    ensures c !in s.clients ==> a != InHandler(c, Receive)
  {
    if c in s.clients {
      match a
      case InAttach(d, op) => AttachHistory(s, d, op, c);
      case InHandler(d, op) => assert Apply(s, a) == HandlerStep(s, d, op);
      case InDetach(d, op) => DetachHistory(s, d, op, c);
      case InStream(r, op) => StreamUndisturbed(s, r, op);
      case InFanout(r, op) => FanoutUndisturbed(s, r, op);
      case InRun(r, op) => RunUndisturbed(s, r, op);
      case _ =>
    }
  }

  lemma NewClientTookNothing(s: State, a: Action, c: ClientId)
    requires Enabled(s, a) && c !in s.clients && c in Apply(s, a).clients
    ensures Apply(s, a).clients[c].taken == 0
  {
    match a
    case InAttach(d, op) => NewClientAttached(s, d, op, c);
    case InDetach(d, op) => DetachKeepsKeys(s, d, op);
    case InStream(r, op) => StreamKeepsClients(s, r, op);
    case InFanout(r, op) => FanoutKeepsKeys(s, r, op);
    case InRun(r, op) => RunKeepsKeys(s, r, op);
    case _ =>
  }

  lemma NewClientAttached(s: State, d: ClientId, op: AttachOp, c: ClientId)
    requires AttachEnabled(s, d, op) && c !in s.clients && c in AttachStep(s, d, op).clients
    ensures AttachStep(s, d, op).clients[c].taken == 0
  {
  }

  lemma DetachKeepsKeys(s: State, c: ClientId, op: DetachOp)
    requires DetachEnabled(s, c, op)
    ensures DetachStep(s, c, op).clients.Keys == s.clients.Keys
  {
  }

  lemma FanoutKeepsKeys(s: State, r: RunId, op: FanoutOp)
    requires FanoutEnabled(s, r, op)
    ensures FanoutStep(s, r, op).clients.Keys == s.clients.Keys
  {
  }

  lemma RunKeepsKeys(s: State, r: RunId, op: RunOp)
    requires RunEnabled(s, r, op)
    ensures RunStep(s, r, op).clients.Keys == s.clients.Keys
  {
  }

  /** A buffer holds what was delivered less what the handler has received: every receive makes room for one. */
  lemma {:induction false} TakenIsReceived(cap: nat, acts: seq<Action>, c: ClientId)
    requires Legal(cap, acts)
    ensures var s := Exec(cap, acts);
            if c in s.clients then s.clients[c].taken == Received(acts, c) else Received(acts, c) == 0
    decreases |acts|
  {
    if acts != [] {
      var before, a := Exec(cap, acts[..|acts| - 1]), acts[|acts| - 1];
      TakenIsReceived(cap, acts[..|acts| - 1], c);
      TakenStep(before, a, c);
      if c !in before.clients && c in Apply(before, a).clients { NewClientTookNothing(before, a, c); }
    }
  }

  // ------------------------------------------------------------ a run's reading

  /** No run went back to before its subscription, and none was read from. */
  ghost predicate SameReading(s: State, s': State) {
    && |s.runs| <= |s'.runs|
    && forall q :: 0 <= q < |s.runs| ==> ReadOn(s.runs[q], s'.runs[q], 0)
  }

  predicate ReadOn(run: Run, run': Run, n: nat) {
    && run'.cursor == run.cursor + n
    && (!run.pc.Spawned? ==> run'.start == run.start && !run'.pc.Spawned?)
  }

  lemma AttachReading(s: State, c: ClientId, op: AttachOp)
    requires AttachEnabled(s, c, op)
    ensures SameReading(s, AttachStep(s, c, op))
  {
  }

  lemma DetachReading(s: State, c: ClientId, op: DetachOp)
    requires DetachEnabled(s, c, op)
    ensures SameReading(s, DetachStep(s, c, op))
  {
  }

  /** Cancelled stays cancelled, and no run comes to have ended without an error. */
  ghost predicate EndsKept(s: State, s': State) {
    && |s.runs| <= |s'.runs| && (s.parentDone ==> s'.parentDone) && s.ended <= s'.ended
    && (forall q :: 0 <= q < |s.runs| ==> EndKept(s.runs[q], s'.runs[q]))
    && forall q :: |s.runs| <= q < |s'.runs| ==> !s'.runs[q].pc.Returned?
  }

  predicate EndKept(run: Run, run': Run) {
    (run.cancelled ==> run'.cancelled) && (run'.pc == Returned(None) ==> run.pc == Returned(None))
  }

  ghost predicate Kept(s: State, s': State) { SameReading(s, s') && EndsKept(s, s') }

  lemma SetRunKept(s: State, r: RunId, run: Run)
    requires r < |s.runs| && ReadOn(s.runs[r], run, 0) && EndKept(s.runs[r], run)
    ensures Kept(s, SetRun(s, r, run))
  {
  }

  lemma KeptTrans(s: State, t: State, u: State)
    requires Kept(s, t) && Kept(t, u) && |s.runs| == |t.runs| == |u.runs|
    ensures Kept(s, u)
  {
  }

  lemma CancelKept(s: State, target: Option<RunId>)
    ensures Kept(s, Cancel(s, target)) && |Cancel(s, target).runs| == |s.runs|
  {
    if target.Some? && target.value < |s.runs| {
      SetRunKept(s, target.value, s.runs[target.value].(cancelled := true));
    }
  }

  lemma FailedKept(s: State, ch: Option<RunId>)
    ensures Kept(s, CloseFailedChannel(s, ch)) && |CloseFailedChannel(s, ch).runs| == |s.runs|
  {
    if ch.Some? && ch.value < |s.runs| { SetRunKept(s, ch.value, s.runs[ch.value].(failedClosed := true)); }
  }

  lemma CopySubsKept(s: State, r: RunId)
    requires FanoutEnabled(s, r, CopySubs)
    ensures Kept(s, CopySubsStep(s, r))
  {
    SetRunKept(s, r, CopySubsStep(s, r).runs[r]);
  }

  lemma SendKept(s: State, r: RunId, c: ClientId)
    requires FanoutEnabled(s, r, Send(c))
    ensures Kept(s, SendStep(s, r, c))
  {
    SetRunKept(s, r, SendStep(s, r, c).runs[r]);
  }

  lemma CloseLaggedKept(s: State, r: RunId)
    requires FanoutEnabled(s, r, CloseLagged)
    ensures Kept(s, CloseLaggedStep(s, r))
  {
    SetRunKept(s, r, CloseLaggedStep(s, r).runs[r]);
  }

  lemma DropLockKept(s: State, r: RunId)
    requires FanoutEnabled(s, r, DropLock)
    ensures Kept(s, DropLockStep(s, r))
  {
    SetRunKept(s, r, DropLockStep(s, r).runs[r]);
  }

  lemma DropCallKept(s: State, r: RunId)
    requires FanoutEnabled(s, r, DropCall)
    ensures Kept(s, FanoutStep(s, r, DropCall))
  {
    var pc := s.runs[r].pc;
    var t := SetRunPc(s, r, Sending(pc.ev, pc.rem));
    SetRunKept(s, r, s.runs[r].(pc := Sending(pc.ev, pc.rem)));
    CancelKept(t, pc.target);
    KeptTrans(s, t, Cancel(t, pc.target));
  }

  lemma OtherFanoutKept(s: State, r: RunId, op: FanoutOp)
    requires FanoutEnabled(s, r, op) && (op.Overflow? || op.FanoutDone?)
    ensures Kept(s, FanoutStep(s, r, op))
  {
    SetRunKept(s, r, FanoutStep(s, r, op).runs[r]);
  }

  lemma FanoutKept(s: State, r: RunId, op: FanoutOp)
    requires FanoutEnabled(s, r, op)
    ensures Kept(s, FanoutStep(s, r, op))
  {
    match op
    case CopySubs => CopySubsKept(s, r);
    case Send(c) => SendKept(s, r, c);
    case CloseLagged => CloseLaggedKept(s, r);
    case DropLock => DropLockKept(s, r);
    case DropCall => DropCallKept(s, r);
    case _ => OtherFanoutKept(s, r, op);
  }

  lemma RunKept(s: State, r: RunId, op: RunOp)
    requires RunEnabled(s, r, op)
    ensures Kept(s, RunStep(s, r, op))
  {
    match op
    case Teardown => TeardownKept(s, r);
    case CloseSub(c) => CloseSubKept(s, r, c);
    case CloseFailed =>
      var pc := s.runs[r].pc;
      var t := SetRunPc(s, r, Closing(pc.list));
      SetRunKept(s, r, s.runs[r].(pc := Closing(pc.list)));
      FailedKept(t, pc.ch);
      KeptTrans(s, t, CloseFailedChannel(t, pc.ch));
    case Finish => SetRunKept(s, r, s.runs[r].(pc := Finished));
  }

  lemma TeardownKept(s: State, r: RunId)
    requires RunEnabled(s, r, Teardown)
    ensures Kept(s, TeardownStep(s, r))
  {
    SetRunKept(s, r, TeardownStep(s, r).runs[r]);
  }

  lemma CloseSubKept(s: State, r: RunId, c: ClientId)
    requires RunEnabled(s, r, CloseSub(c))
    ensures Kept(s, CloseSubStep(s, r, c))
  {
    SetRunKept(s, r, CloseSubStep(s, r, c).runs[r]);
  }

  lemma StopReading(s: State, k: nat, op: StopOp)
    requires StopEnabled(s, k, op)
    ensures SameReading(s, StopStep(s, k, op))
  {
  }

  lemma StreamReading(s: State, r: RunId, op: StreamOp, q: RunId)
    requires StreamEnabled(s, r, op) && q < |s.runs| && !s.runs[q].pc.Spawned?
    ensures q < |StreamStep(s, r, op).runs|
    ensures ReadOn(s.runs[q], StreamStep(s, r, op).runs[q], if op.TakeMessage? && q == r then 1 else 0)
  {
    if op.CloseReady? {
      assert StreamStep(s, r, op) == CloseReadyChannel(SetRunPc(s, r, Loop), s.runs[r].pc.ch);
      ReadyReading(SetRunPc(s, r, Loop), s.runs[r].pc.ch);
    } else if op.TakeMessage? {
      assert StreamStep(s, r, op) == TakeMessageStep(s, r);
    }
  }

  lemma ReadyReading(s: State, ch: Option<RunId>)
    ensures SameReading(s, CloseReadyChannel(s, ch))
  {
  }

  lemma ReadingStep(s: State, a: Action, q: RunId)
    requires Enabled(s, a) && q < |s.runs| && !s.runs[q].pc.Spawned?
    ensures q < |Apply(s, a).runs|
    ensures ReadOn(s.runs[q], Apply(s, a).runs[q], if a == InStream(q, TakeMessage) then 1 else 0)
  {
    match a
    case InAttach(c, op) => AttachReading(s, c, op);
    case InDetach(c, op) => DetachReading(s, c, op);
    case InStream(r, op) => StreamReading(s, r, op, q);
    case InFanout(r, op) => FanoutKept(s, r, op);
    case InRun(r, op) => RunKept(s, r, op);
    case InStop(k, op) => StopReading(s, k, op);
    case _ =>
  }

  /** How many messages the run has read since action i. */
  function ReadSince(acts: seq<Action>, i: nat, r: RunId): nat
    decreases |acts|
  {
    if |acts| <= i + 1 then 0
    else ReadSince(acts[..|acts| - 1], i, r) + if acts[|acts| - 1] == InStream(r, TakeMessage) then 1 else 0
  }

  /**
   * A run's feed is the Engine's log from the moment it subscribed, message by message: nothing
   * logged earlier is in it, and after k messages read, of whatever kind, it stands k further on.
   */
  lemma {:induction false} FeedStartsAtSubscribe(cap: nat, acts: seq<Action>, i: nat, r: RunId)
    requires Legal(cap, acts) && i < |acts| && acts[i] == InStream(r, Subscribe) && Legal(cap, acts[..i])
    ensures
      var s, then_ := Exec(cap, acts), |Exec(cap, acts[..i]).log|;
      && r < |s.runs| && s.runs[r].start == Some(then_) && !s.runs[r].pc.Spawned?
      && s.runs[r].cursor == then_ + ReadSince(acts, i, r)
    decreases |acts|
  {
    var before, a := acts[..|acts| - 1], acts[|acts| - 1];
    if i == |acts| - 1 {
      assert acts[..i] == before;
    } else {
      assert before[..i] == acts[..i];
      FeedStartsAtSubscribe(cap, before, i, r);
      ReadingStep(Exec(cap, before), a, r);
    }
  }

  /** The run has handed on, or is handing on, what the allowlist makes of n messages from `then_` on. */
  ghost predicate Feeds(s: State, r: RunId, then_: nat, n: nat) {
    && r < |s.runs| && then_ + n <= |s.log|
    && s.runs[r].emitted + Pending(s.runs[r]) == Project(s.log[then_..then_ + n])
  }

  lemma RunFeed(s: State, r: RunId, then_: nat, n: nat)
    requires r < |s.runs| && RunOk(s, r) && s.runs[r].start == Some(then_) && s.runs[r].cursor == then_ + n
    ensures Feeds(s, r, then_, n)
  {
  }

  lemma RunKnown(s: State, r: RunId)
    requires Reachable(s) && r < |s.runs|
    ensures RunOk(s, r)
  {
    Invariant(s);
  }

  /** So its feed is those messages, no more and no fewer. */
  lemma FeedIsTheLog(cap: nat, acts: seq<Action>, i: nat, r: RunId, s: State, then_: nat, n: nat)
    requires Leads(cap, acts, s) && i < |acts| && acts[i] == InStream(r, Subscribe) && Legal(cap, acts[..i])
    requires then_ == |Exec(cap, acts[..i]).log| && n == ReadSince(acts, i, r)
    ensures Feeds(s, r, then_, n)
  {
    FeedStartsAtSubscribe(cap, acts, i, r);
    RunKnown(s, r);
    RunFeed(s, r, then_, n);
  }

  // ------------------------------------------------------------------------ stop

  /** Only the caller of stop itself uses up what it read. */
  lemma StopperWaits(s: State, a: Action, k: nat)
    requires Enabled(s, a) && k in s.stoppers && a != InStop(k, StopCall)
    ensures k in Apply(s, a).stoppers && Apply(s, a).stoppers[k] == s.stoppers[k]
  {
    match a
    case InAttach(c, op) => AttachKeepsStoppers(s, c, op);
    case InStream(r, op) => StreamKeepsStoppers(s, r, op);
    case InFanout(r, op) => FanoutKeepsStoppers(s, r, op);
    case InRun(r, op) => RunKeepsStoppers(s, r, op);
    case _ =>
  }

  lemma AttachKeepsStoppers(s: State, c: ClientId, op: AttachOp)
    requires AttachEnabled(s, c, op)
    ensures AttachStep(s, c, op).stoppers == s.stoppers
  {
  }

  lemma StreamKeepsStoppers(s: State, r: RunId, op: StreamOp)
    requires StreamEnabled(s, r, op)
    ensures StreamStep(s, r, op).stoppers == s.stoppers
  {
  }

  lemma FanoutKeepsStoppers(s: State, r: RunId, op: FanoutOp)
    requires FanoutEnabled(s, r, op)
    ensures FanoutStep(s, r, op).stoppers == s.stoppers
  {
  }

  lemma RunKeepsStoppers(s: State, r: RunId, op: RunOp)
    requires RunEnabled(s, r, op)
    ensures RunStep(s, r, op).stoppers == s.stoppers
  {
  }

  lemma {:induction false} StopHolds(cap: nat, acts: seq<Action>, i: nat, k: nat)
    requires Legal(cap, acts) && i < |acts| && Legal(cap, acts[..i]) && acts[i] == InStop(k, ReadCancel)
    requires forall j :: i < j < |acts| ==> acts[j] != InStop(k, StopCall)
    ensures k in Exec(cap, acts).stoppers && Exec(cap, acts).stoppers[k] == Exec(cap, acts[..i]).hub.cancel
    decreases |acts|
  {
    var before := acts[..|acts| - 1];
    if i == |acts| - 1 {
      assert acts[..i] == before;
    } else {
      assert before[..i] == acts[..i];
      StopHolds(cap, before, i, k);
      StopperWaits(Exec(cap, before), acts[|acts| - 1], k);
    }
  }

  /**
   * A stop cancels the run that was going when it looked, whatever happens before it gets to the
   * call, and nothing when none was going.
   */
  lemma StopCancels(cap: nat, acts: seq<Action>, i: nat, k: nat)
    requires cap > 0 && Legal(cap, acts) && i < |acts| && Legal(cap, acts[..i]) && acts[i] == InStop(k, ReadCancel)
    requires forall j :: i < j < |acts| ==> acts[j] != InStop(k, StopCall)
    ensures Enabled(Exec(cap, acts), InStop(k, StopCall))
    ensures
      var found, stopped := Exec(cap, acts[..i]), Apply(Exec(cap, acts), InStop(k, StopCall));
      && (found.hub.running ==> 0 < |found.runs| <= |stopped.runs| && stopped.runs[|found.runs| - 1].cancelled)
      && (!found.hub.running ==> stopped.runs == Exec(cap, acts).runs)
  {
    StopHolds(cap, acts, i, k);
    var found, s := Exec(cap, acts[..i]), Exec(cap, acts);
    CancelKnown(cap, acts[..i]);
    PrefixRuns(cap, acts, i);
    StopCallMarks(s, k);
  }

  lemma StopCallMarks(s: State, k: nat)
    requires k in s.stoppers
    ensures
      var stopped := StopStep(s, k, StopCall);
      && (s.stoppers[k].None? ==> stopped.runs == s.runs)
      && (s.stoppers[k].Some? && s.stoppers[k].value < |s.runs| ==>
            && |stopped.runs| == |s.runs| && stopped.runs[s.stoppers[k].value].cancelled)
  {
  }

  lemma CancelKnown(cap: nat, acts: seq<Action>)
    requires cap > 0 && Legal(cap, acts)
    ensures var s := Exec(cap, acts);
            s.hub.cancel == if s.hub.running && |s.runs| > 0 then Some(|s.runs| - 1) else None
    ensures Exec(cap, acts).hub.running ==> |Exec(cap, acts).runs| > 0
  {
    assert Leads(cap, acts, Exec(cap, acts));
    Invariant(Exec(cap, acts));
  }

  // ------------------------------------------------------------- how a run ends

  lemma AttachEnds(s: State, c: ClientId, op: AttachOp)
    requires AttachEnabled(s, c, op)
    ensures EndsKept(s, AttachStep(s, c, op))
  {
  }

  lemma DetachEnds(s: State, c: ClientId, op: DetachOp)
    requires DetachEnabled(s, c, op)
    ensures EndsKept(s, DetachStep(s, c, op))
  {
  }

  lemma StopEnds(s: State, k: nat, op: StopOp)
    requires StopEnabled(s, k, op)
    ensures EndsKept(s, StopStep(s, k, op))
  {
  }

  lemma StreamEnds(s: State, r: RunId, op: StreamOp)
    requires StreamEnabled(s, r, op) && !op.Return? && !op.ReturnEarly?
    ensures EndsKept(s, StreamStep(s, r, op))
  {
    if op.CloseReady? {
      assert StreamStep(s, r, op) == CloseReadyChannel(SetRunPc(s, r, Loop), s.runs[r].pc.ch);
    } else if op.TakeMessage? {
      assert StreamStep(s, r, op) == TakeMessageStep(s, r);
    }
  }

  predicate Returns(a: Action) { a.InStream? && (a.streamOp.Return? || a.streamOp.ReturnEarly?) }

  lemma EndsStep(s: State, a: Action)
    requires Enabled(s, a) && !Returns(a)
    ensures EndsKept(s, Apply(s, a))
  {
    match a
    case InAttach(c, op) => AttachEnds(s, c, op);
    case InDetach(c, op) => DetachEnds(s, c, op);
    case InStream(r, op) => StreamEnds(s, r, op);
    case InFanout(r, op) => FanoutKept(s, r, op);
    case InRun(r, op) => RunKept(s, r, op);
    case InStop(k, op) => StopEnds(s, k, op);
    case _ =>
  }

  /** Every run that has just ended without an error was told to. */
  ghost predicate CleanEnds(s: State) {
    forall r :: 0 <= r < |s.runs| && s.runs[r].pc == Returned(None) ==> Done(s, r)
  }

  lemma CleanStep(s: State, a: Action)
    requires Enabled(s, a) && CleanEnds(s)
    ensures CleanEnds(Apply(s, a))
  {
    if Returns(a) {
      ReturnClean(s, a.r, a.streamOp);
    } else {
      EndsStep(s, a);
    }
  }

  lemma ReturnClean(s: State, r: RunId, op: StreamOp)
    requires StreamEnabled(s, r, op) && (op.Return? || op.ReturnEarly?) && CleanEnds(s)
    ensures CleanEnds(StreamStep(s, r, op))
  {
    var s' := StreamStep(s, r, op);
    assert forall q :: 0 <= q < |s.runs| && q != r ==> s'.runs[q] == s.runs[q];
  }

  /**
   * A subscription that ends without an error was cancelled by the hub, or the server is going
   * down; a feed the Engine closes always ends with an error.
   */
  lemma {:induction false} CleanEndWasAsked(cap: nat, acts: seq<Action>, r: RunId)
    requires Legal(cap, acts)
    ensures CleanEnds(Exec(cap, acts))
    ensures r < |Exec(cap, acts).runs| && Exec(cap, acts).runs[r].pc == Returned(None) ==>
              Exec(cap, acts).runs[r].cancelled || Exec(cap, acts).parentDone
    decreases |acts|
  {
    if acts != [] {
      CleanEndWasAsked(cap, acts[..|acts| - 1], r);
      CleanStep(Exec(cap, acts[..|acts| - 1]), acts[|acts| - 1]);
    }
  }

  // ------------------------------------------------------------------- shutdown

  /** The server's lifetime and a client's request end for good. */
  predicate Over(s: State, a: Action) {
    (a.ParentCancel? ==> s.parentDone) && (a.RequestEnds? ==> a.c in s.ended)
  }

  lemma OverStays(s: State, a: Action, end: Action)
    requires Enabled(s, a) && (Over(s, end) || a == end)
    ensures Over(Apply(s, a), end)
  {
    if Returns(a) {
      assert StreamStep(s, a.r, a.streamOp).parentDone == s.parentDone;
      assert StreamStep(s, a.r, a.streamOp).ended == s.ended;
    } else {
      EndsStep(s, a);
    }
  }

  lemma {:induction false} OverSince(cap: nat, acts: seq<Action>, end: Action)
    requires Legal(cap, acts) && end in acts
    ensures Over(Exec(cap, acts), end)
    decreases |acts|
  {
    var before, a := acts[..|acts| - 1], acts[|acts| - 1];
    assert acts == before + [a];
    if a != end { OverSince(cap, before, end); }
    OverStays(Exec(cap, before), a, end);
  }

  /** Once the server's lifetime has ended, every run that is in its loop can leave it without an error. */
  lemma ShutdownReaches(cap: nat, acts: seq<Action>, r: RunId)
    requires Legal(cap, acts) && ParentCancel in acts
    requires r < |Exec(cap, acts).runs| && Exec(cap, acts).runs[r].pc.Loop?
    ensures Enabled(Exec(cap, acts), InStream(r, Return(None)))
  {
    OverSince(cap, acts, ParentCancel);
  }

  /** Once a client's request has ended, its attach need not wait any longer, whatever the Engine does. */
  lemma AbandonedAttachReturns(cap: nat, acts: seq<Action>, c: ClientId)
    requires Legal(cap, acts) && RequestEnds(c) in acts
    requires
      var s := Exec(cap, acts);
      c in s.clients && s.clients[c].pc.Waiting? && s.clients[c].run < |s.runs|
    ensures Enabled(Exec(cap, acts), InAttach(c, SelectRequestDone))
  {
    OverSince(cap, acts, RequestEnds(c));
  }

  // ---------------------------------------------------------- the feed's own error

  lemma ReturnedStays(s: State, a: Action, r: RunId, err: Option<StreamError>)
    requires Enabled(s, a) && r < |s.runs| && s.runs[r].pc == Returned(err) && a != InRun(r, Teardown)
    ensures r < |Apply(s, a).runs| && Apply(s, a).runs[r].pc == Returned(err)
  {
    match a
    case InAttach(c, op) => AttachKeepsPcs(s, c, op, r);
    case InDetach(c, op) => DetachKeepsPcs(s, c, op, r);
    case InStream(q, op) => StreamKeepsPcs(s, q, op, r);
    case InFanout(q, op) => FanoutKeepsPcs(s, q, op, r);
    case InRun(q, op) => RunKeepsPcs(s, q, op, r);
    case InStop(k, op) => StopKeepsPcs(s, k, op, r);
    case _ =>
  }

  predicate SamePc(s: State, s': State, r: RunId)
    requires r < |s.runs|
  {
    r < |s'.runs| && s'.runs[r].pc == s.runs[r].pc
  }

  lemma AttachKeepsPcs(s: State, c: ClientId, op: AttachOp, r: RunId)
    requires AttachEnabled(s, c, op) && r < |s.runs|
    ensures SamePc(s, AttachStep(s, c, op), r)
  {
  }

  lemma DetachKeepsPcs(s: State, c: ClientId, op: DetachOp, r: RunId)
    requires DetachEnabled(s, c, op) && r < |s.runs|
    ensures SamePc(s, DetachStep(s, c, op), r)
  {
  }

  lemma StreamKeepsPcs(s: State, q: RunId, op: StreamOp, r: RunId)
    requires StreamEnabled(s, q, op) && r < |s.runs| && s.runs[r].pc.Returned?
    ensures SamePc(s, StreamStep(s, q, op), r)
  {
  }

  lemma FanoutKeepsPcs(s: State, q: RunId, op: FanoutOp, r: RunId)
    requires FanoutEnabled(s, q, op) && r < |s.runs| && s.runs[r].pc.Returned?
    ensures SamePc(s, FanoutStep(s, q, op), r)
  {
  }

  lemma RunKeepsPcs(s: State, q: RunId, op: RunOp, r: RunId)
    requires RunEnabled(s, q, op) && r < |s.runs| && s.runs[r].pc.Returned? && (q == r ==> !op.Teardown?)
    ensures SamePc(s, RunStep(s, q, op), r)
  {
  }

  lemma StopKeepsPcs(s: State, k: nat, op: StopOp, r: RunId)
    requires StopEnabled(s, k, op) && r < |s.runs|
    ensures SamePc(s, StopStep(s, k, op), r)
  {
  }

  /** Since action h, at which the run's stream returned with `err`, its goroutine has not gone on. */
  predicate ReturnedAt(acts: seq<Action>, h: nat, r: RunId, err: Option<StreamError>) {
    && h < |acts| && (acts[h] == InStream(r, Return(err)) || acts[h] == InStream(r, ReturnEarly(err)))
    && forall j :: h < j < |acts| ==> acts[j] != InRun(r, Teardown)
  }

  lemma {:induction false} ReturnedSince(cap: nat, acts: seq<Action>, h: nat, r: RunId, err: Option<StreamError>)
    requires Legal(cap, acts) && ReturnedAt(acts, h, r, err)
    ensures r < |Exec(cap, acts).runs| && Exec(cap, acts).runs[r].pc == Returned(err)
    decreases |acts|
  {
    var before, a := acts[..|acts| - 1], acts[|acts| - 1];
    if h < |acts| - 1 {
      assert before[h] == acts[h];
      ReturnedSince(cap, before, h, r, err);
      ReturnedStays(Exec(cap, before), a, r, err);
    }
  }

  /**
   * From the feed to the client: the error a run's stream returned with is the one every attach that
   * failed on it is told, as long as no later run was started since its teardown.
   */
  lemma FeedErrorIsTold(cap: nat, acts: seq<Action>, h: nat, i: nat, r: RunId, err: Option<StreamError>, c: ClientId)
    requires cap > 0 && Legal(cap, acts) && i < |acts| && Legal(cap, acts[..i]) && ReturnedAt(acts[..i], h, r, err)
    requires acts[i] == InRun(r, Teardown) && |Exec(cap, acts).runs| == |Exec(cap, acts[..i]).runs|
    requires Enabled(Exec(cap, acts), InAttach(c, ReadRunErr))
    ensures
      var told := Apply(Exec(cap, acts), InAttach(c, ReadRunErr));
      && c in told.clients
      && told.clients[c].pc == Refused(if err.Some? then RunFailed(err.value) else HubUnavailable)
  {
    ReturnedSince(cap, acts[..i], h, r, err);
    FailedAttachToldWhy(cap, acts, i, r, c);
  }
}
