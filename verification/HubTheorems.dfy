/**
 * What holds of the event hub in every state some schedule of its threads
 * leads to.
 */
module HubTheorems {
  import opened Prelude
  import opened ContainerEvents
  import opened HubModel
  import opened HubInvariant

  /** `acts` is a legal schedule, from an idle hub whose subscribers buffer `cap` events, ending in `s`. */
  ghost predicate Leads(cap: nat, acts: seq<Action>, s: State) {
    cap > 0 && Legal(cap, acts) && Exec(cap, acts) == s
  }

  ghost predicate Reachable(s: State) {
    exists cap, acts :: Leads(cap, acts, s)
  }

  lemma {:induction false} ScheduleKeepsInvariant(cap: nat, acts: seq<Action>, s: State)
    requires Leads(cap, acts, s)
    ensures Inv(s)
    decreases |acts|
  {
    if acts != [] {
      var before := acts[..|acts| - 1];
      ScheduleKeepsInvariant(cap, before, Exec(cap, before));
      InvStep(Exec(cap, before), acts[|acts| - 1]);
    }
  }

  /** The invariant holds after every schedule, of any length and any interleaving. */
  lemma Invariant(s: State)
    requires Reachable(s)
    ensures Inv(s)
  {
    var cap, acts :| Leads(cap, acts, s);
    ScheduleKeepsInvariant(cap, acts, s);
  }

  // ------------------------------------------------------------------ no gap

  /**
   * A subscriber's deliveries are one contiguous stretch of its run's feed,
   * and the feed itself is everything the allowlist lets through of the
   * Engine's log since the subscription; a registered subscriber that the
   * fan-out in progress has already served lacks nothing of it.
   */
  lemma NoGap(s: State, c: ClientId)
    requires Reachable(s) && c in s.clients
    ensures
      var client := s.clients[c];
      && client.run < |s.runs|
      && var run := s.runs[client.run];
      && client.first + |client.delivered| <= |run.emitted|
      && client.delivered == run.emitted[client.first..client.first + |client.delivered|]
      && |client.delivered| - client.taken <= s.cap
      && (run.start.None? ==> run.emitted == [])
      && (run.start.Some? ==>
            && run.start.value <= run.cursor <= |s.log|
            && run.emitted + Pending(run) == Project(s.log[run.start.value..run.cursor]))
      && (c in s.hub.subs && c !in Unserved(run.pc) ==>
            client.first + |client.delivered| == |run.emitted|)
  {
    Invariant(s);
    assert DeliveryOk(s, c) && StandingOk(s, c);
    assert RunOk(s, s.clients[c].run);
  }

  /** The event emit has been called with, if fanout has not yet copied its subscribers. */
  ghost function Pending(run: Run): seq<ContainerEvent> {
    if run.pc.Got? then [run.pc.ev] else []
  }

  /** What a client has been given and told in `s` is a prefix of the same in `s'`. */
  ghost predicate HistoryExtends(s: State, s': State, c: ClientId) {
    && c in s.clients && c in s'.clients
    && s'.clients[c].run == s.clients[c].run && s'.clients[c].first == s.clients[c].first
    && s.clients[c].delivered <= s'.clients[c].delivered
    && s.clients[c].taken <= s'.clients[c].taken
    && s.clients[c].reasons <= s'.clients[c].reasons
  }

  /** What no goroutine of a run ever does: move a client, or take back what it was given. */
  ghost predicate ClientsUndisturbed(s: State, s': State) {
    && |s'.runs| == |s.runs|
    && forall c :: c in s.clients ==>
         HistoryExtends(s, s', c) && s'.clients[c].pc == s.clients[c].pc && s'.clients[c].taken == s.clients[c].taken
  }

  ghost predicate SameCancels(s: State, s': State) {
    && |s'.runs| == |s.runs|
    && forall q :: 0 <= q < |s.runs| ==> s'.runs[q].cancelled == s.runs[q].cancelled
  }

  lemma SameClients(s: State, s': State)
    requires s'.clients == s.clients && |s'.runs| == |s.runs|
    ensures ClientsUndisturbed(s, s')
  {
  }

  lemma StreamKeepsClients(s: State, r: RunId, op: StreamOp)
    requires StreamEnabled(s, r, op)
    ensures StreamStep(s, r, op).clients == s.clients && |StreamStep(s, r, op).runs| == |s.runs|
  {
  }

  lemma StreamKeepsCancels(s: State, r: RunId, op: StreamOp)
    requires StreamEnabled(s, r, op)
    ensures SameCancels(s, StreamStep(s, r, op))
  {
    var s' := StreamStep(s, r, op);
    if op.CloseReady? {
      assert s' == CloseReadyChannel(SetRunPc(s, r, Loop), s.runs[r].pc.ch);
    } else if op.TakeMessage? {
      assert s' == TakeMessageStep(s, r);
    }
  }

  lemma StreamUndisturbed(s: State, r: RunId, op: StreamOp)
    requires StreamEnabled(s, r, op)
    ensures ClientsUndisturbed(s, StreamStep(s, r, op)) && SameCancels(s, StreamStep(s, r, op))
  {
    StreamKeepsClients(s, r, op);
    StreamKeepsCancels(s, r, op);
    SameClients(s, StreamStep(s, r, op));
  }

  lemma FanoutUndisturbed(s: State, r: RunId, op: FanoutOp)
    requires FanoutEnabled(s, r, op)
    ensures ClientsUndisturbed(s, FanoutStep(s, r, op))
    ensures !op.DropCall? ==> SameCancels(s, FanoutStep(s, r, op))
  {
    if !op.DropCall? { FanoutKeepsCancels(s, r, op); }
    if op.Send? {
      assert FanoutStep(s, r, op) == SendStep(s, r, op.c);
    } else if op.CloseLagged? {
      assert FanoutStep(s, r, op) == CloseLaggedStep(s, r);
    } else {
      SameClients(s, FanoutStep(s, r, op));
    }
  }

  lemma FanoutKeepsCancels(s: State, r: RunId, op: FanoutOp)
    requires FanoutEnabled(s, r, op) && !op.DropCall?
    ensures SameCancels(s, FanoutStep(s, r, op))
  {
  }

  lemma RunUndisturbed(s: State, r: RunId, op: RunOp)
    requires RunEnabled(s, r, op)
    ensures ClientsUndisturbed(s, RunStep(s, r, op)) && SameCancels(s, RunStep(s, r, op))
  {
    RunKeepsCancels(s, r, op);
    if op.CloseSub? {
      assert RunStep(s, r, op) == CloseSubStep(s, r, op.c);
    } else {
      SameClients(s, RunStep(s, r, op));
    }
  }

  lemma RunKeepsCancels(s: State, r: RunId, op: RunOp)
    requires RunEnabled(s, r, op)
    ensures SameCancels(s, RunStep(s, r, op))
  {
  }

  lemma AttachHistory(s: State, d: ClientId, op: AttachOp, c: ClientId)
    requires AttachEnabled(s, d, op) && c in s.clients
    ensures HistoryExtends(s, AttachStep(s, d, op), c)
    ensures AttachStep(s, d, op).clients[c].taken == s.clients[c].taken
  {
  }

  lemma DetachHistory(s: State, d: ClientId, op: DetachOp, c: ClientId)
    requires DetachEnabled(s, d, op) && c in s.clients
    ensures HistoryExtends(s, DetachStep(s, d, op), c)
    ensures DetachStep(s, d, op).clients[c].taken == s.clients[c].taken
  {
  }

  /** Deliveries are only ever appended, and a close reason is never replaced. */
  lemma HistoryGrows(s: State, a: Action, c: ClientId)
    requires Enabled(s, a) && c in s.clients
    ensures HistoryExtends(s, Apply(s, a), c)
  {
    match a
    case InAttach(d, op) => AttachHistory(s, d, op, c);
    case InHandler(d, op) => assert HistoryExtends(s, HandlerStep(s, d, op), c);
    case InDetach(d, op) => DetachHistory(s, d, op, c);
    case InStream(r, op) => StreamUndisturbed(s, r, op);
    case InFanout(r, op) => FanoutUndisturbed(s, r, op);
    case InRun(r, op) => RunUndisturbed(s, r, op);
    case _ =>
  }

  // ------------------------------------------------- snapshot plus the stream

  /** The hub has not dropped the client and is not in the middle of serving it. */
  ghost predicate Served(s: State, c: ClientId)
    requires c in s.clients && s.clients[c].run < |s.runs|
  {
    var pc := s.runs[s.clients[c].run].pc;
    || (c in s.hub.subs && c !in Unserved(pc))
    || c in Teardowns(pc)
    || s.clients[c].reasons == [EngineGone]
  }

  /** `tail` is how `all` ends. */
  ghost predicate EndsWith(all: seq<ContainerEvent>, tail: seq<ContainerEvent>) {
    |tail| <= |all| && all[|all| - |tail|..] == tail
  }

  lemma FeedTail(log: seq<Message>, lo: nat, p: nat, hi: nat, feed: seq<ContainerEvent>, first: nat)
    requires lo <= p <= hi <= |log| && feed == Project(log[lo..hi])
    requires first <= |Project(log[lo..p])| && first <= |feed|
    ensures EndsWith(feed[first..], Project(log[p..hi]))
  {
    SplitFeed(log, lo, p, hi);
  }

  /**
   * A snapshot taken at log position p, followed by the client's deliveries,
   * misses nothing: what the allowlist lets through of everything the Engine
   * logged from p on is, in order and without a hole, the tail of what the
   * client was delivered.
   */
  lemma SnapshotMissesNothing(s: State, c: ClientId)
    requires Reachable(s) && c in s.clients
    requires s.clients[c].run < |s.runs| && Served(s, c)
    requires s.clients[c].snapshot.Some? && s.clients[c].snapshot.value <= s.runs[s.clients[c].run].cursor
    ensures
      var client, run := s.clients[c], s.runs[s.clients[c].run];
      && run.cursor <= |s.log|
      && EndsWith(client.delivered + Pending(run), Project(s.log[client.snapshot.value..run.cursor]))
  {
    Invariant(s);
    var client, run := s.clients[c], s.runs[s.clients[c].run];
    assert RunOk(s, client.run) && DeliveryOk(s, c);
    ServedIsUpToDate(s, c);
    FeedTail(s.log, run.start.value, client.snapshot.value, run.cursor, run.emitted + Pending(run), client.first);
    assert (run.emitted + Pending(run))[client.first..] == client.delivered + Pending(run);
  }

  /**
   * No client at all joined too late for its snapshot. Whatever became of it since (lagged, dropped
   * in the middle of a fan-out, detached), its deliveries start at or before the event the snapshot
   * position falls on, and from there on they are a prefix of what the allowlist lets through of
   * everything logged after the snapshot: nothing is skipped, only the end can be missing.
   */
  lemma NeverJoinedLate(s: State, c: ClientId)
    requires Reachable(s) && c in s.clients && s.clients[c].snapshot.Some?
    ensures s.clients[c].run < |s.runs| && s.runs[s.clients[c].run].start.Some?
    ensures
      var client, run := s.clients[c], s.runs[s.clients[c].run];
      var p := client.snapshot.value;
      && run.start.value <= p <= |s.log|
      && var seen := |Project(s.log[run.start.value..p])|;
      && client.first <= seen
      && (p <= run.cursor <= |s.log| && seen - client.first <= |client.delivered| ==>
            client.delivered[seen - client.first..] <= Project(s.log[p..run.cursor]))
  {
    Invariant(s);
    assert DeliveryOk(s, c);
    var client, run := s.clients[c], s.runs[s.clients[c].run];
    assert RunOk(s, client.run);
    if client.snapshot.value <= run.cursor {
      SplitFeed(s.log, run.start.value, client.snapshot.value, run.cursor);
      TailOfPrefix(Project(s.log[run.start.value..client.snapshot.value]),
                   Project(s.log[client.snapshot.value..run.cursor]), run.emitted + Pending(run), run.emitted,
                   client.first, client.delivered);
    }
  }

  lemma SplitFeed(log: seq<Message>, lo: nat, p: nat, hi: nat)
    requires lo <= p <= hi <= |log|
    ensures Project(log[lo..hi]) == Project(log[lo..p]) + Project(log[p..hi])
  {
    assert log[lo..hi] == log[lo..p] + log[p..hi];
    ProjectConcat(log[lo..p], log[p..hi]);
  }

  lemma TailOfPrefix(before: seq<ContainerEvent>, after: seq<ContainerEvent>, feed: seq<ContainerEvent>,
                     emitted: seq<ContainerEvent>, first: nat, delivered: seq<ContainerEvent>)
    requires feed == before + after && emitted <= feed && first <= |before|
    requires first + |delivered| <= |emitted| && delivered == emitted[first..first + |delivered|]
    ensures |before| - first <= |delivered| ==> delivered[|before| - first..] <= after
  {
    if |before| - first <= |delivered| {
      var tail := delivered[|before| - first..];
      assert forall k :: 0 <= k < |tail| ==> tail[k] == feed[|before| + k] == after[k];
    }
  }

  lemma ServedIsUpToDate(s: State, c: ClientId)
    requires Inv(s) && c in s.clients && s.clients[c].run < |s.runs| && Served(s, c)
    ensures UpToDate(s.clients[c], s.runs[s.clients[c].run])
  {
    assert DeliveryOk(s, c) && StandingOk(s, c) && ListsOk(s, s.clients[c].run);
  }

  /**
   * An event is never skipped, only the client is dropped: with no fan-out in
   * progress in its run, a client that still holds its subscriber is either
   * served in the sense above or has been told that it fell behind.
   */
  lemma LostOnlyByLagging(s: State, c: ClientId)
    requires Reachable(s) && c in s.clients && Undetached(s.clients[c].pc)
    ensures s.clients[c].run < |s.runs|
    ensures !FanningOut(s.runs[s.clients[c].run].pc) ==> Served(s, c) || s.clients[c].reasons == [Lagged]
  {
    Invariant(s);
    assert DeliveryOk(s, c) && StandingOk(s, c);
    if s.clients[c].once {
      match s.clients[c].reasons[0]
      case EngineGone => assert s.clients[c].reasons == [EngineGone];
      case Lagged => assert s.clients[c].reasons == [Lagged];
    }
  }

  // --------------------------------------- single subscription, no stranding

  /** The run is inside its StreamContainerEvents call. */
  ghost predicate Streaming(run: Run) { Live(run.pc) && !run.pc.Returned? }

  /**
   * At most one Engine subscription exists, a watched hub is running, and no
   * schedule closes a channel twice or calls a nil cancel.
   */
  lemma SingleSubscription(s: State)
    requires Reachable(s)
    ensures s.hub.subs != {} ==> s.hub.running
    ensures forall q, r ::
              0 <= q < |s.runs| && 0 <= r < |s.runs| && Streaming(s.runs[q]) && Streaming(s.runs[r]) ==> q == r
    ensures s.hub.running ==> s.hub.ready == s.hub.failed == s.hub.cancel == Some(|s.runs| - 1)
    ensures !s.panicked
  {
    Invariant(s);
  }

  /**
   * A client holding a subscriber is registered with the live run, or on its
   * finished run's teardown list, or has been sent exactly one close reason.
   */
  lemma NoStrandedClient(s: State, c: ClientId)
    requires Reachable(s) && c in s.clients
    ensures s.clients[c].run < |s.runs| && |s.clients[c].reasons| <= 1
    ensures Undetached(s.clients[c].pc) ==>
              || (c in s.hub.subs && s.hub.running && s.clients[c].run == |s.runs| - 1)
              || c in Teardowns(s.runs[s.clients[c].run].pc)
              || |s.clients[c].reasons| == 1
  {
    Invariant(s);
    assert DeliveryOk(s, c) && StandingOk(s, c);
  }

  // --------------------------------------------------- no leaked subscription

  /** A thread has captured run `r`'s cancel function and not yet called it. */
  ghost predicate CancelHeld(s: State, r: RunId) {
    || (exists c :: HoldsCancel(s, c, r))
    || (exists q :: 0 <= q < |s.runs| && s.runs[q].pc.DropCancel? && s.runs[q].pc.target == Some(r))
    || (exists k :: k in s.stoppers && s.stoppers[k] == Some(r))
  }

  /**
   * A run without subscribers is cancelled, or a detach is about to cancel exactly it: its own
   * goroutine's, dropping the last client, or a client's.
   */
  lemma NoLeakedSubscription(s: State)
    requires Reachable(s) && s.hub.running && s.hub.subs == {}
    ensures |s.runs| > 0
    ensures
      var r := |s.runs| - 1;
      var run := s.runs[r];
      run.cancelled || (run.pc.DropCancel? && run.pc.target == Some(r)) || exists c :: HoldsCancel(s, c, r)
  {
    Invariant(s);
    assert RunOk(s, |s.runs| - 1);
  }

  /** Nobody holds the cancel function of a run that has not started yet. */
  lemma NoCancelBeforeStart(s: State, r: RunId)
    requires Reachable(s) && r >= |s.runs|
    ensures !CancelHeld(s, r)
  {
    Invariant(s);
    forall c ensures !HoldsCancel(s, c, r) {
      if c in s.clients { assert StandingOk(s, c); }
    }
    forall q | 0 <= q < |s.runs| ensures s.runs[q].pc.DropCancel? ==> s.runs[q].pc.target != Some(r) {
      assert RunOk(s, q);
    }
  }

  lemma DetachCancelsItsTarget(s: State, c: ClientId, op: DetachOp, r: RunId)
    requires DetachEnabled(s, c, op) && r < |s.runs|
    ensures r < |DetachStep(s, c, op).runs|
    ensures DetachStep(s, c, op).runs[r].cancelled && !s.runs[r].cancelled ==> CancelHeld(s, r)
  {
    if op.CallCancel? && s.clients[c].pc.target == Some(r) { assert HoldsCancel(s, c, r); }
  }

  lemma FanoutCancelsItsTarget(s: State, q: RunId, op: FanoutOp, r: RunId)
    requires FanoutEnabled(s, q, op) && r < |s.runs|
    ensures r < |FanoutStep(s, q, op).runs|
    ensures FanoutStep(s, q, op).runs[r].cancelled && !s.runs[r].cancelled ==> CancelHeld(s, r)
  {
    FanoutUndisturbed(s, q, op);
    if op.DropCall? && s.runs[q].pc.target == Some(r) { assert CancelHeld(s, r); }
  }

  lemma StopCancelsItsTarget(s: State, k: nat, op: StopOp, r: RunId)
    requires StopEnabled(s, k, op) && r < |s.runs|
    ensures r < |StopStep(s, k, op).runs|
    ensures StopStep(s, k, op).runs[r].cancelled && !s.runs[r].cancelled ==> CancelHeld(s, r)
  {
  }

  /** Whoever marks run `r`'s context cancelled had captured that run's cancel function. */
  lemma CancelledByHolder(s: State, a: Action, r: RunId)
    requires Enabled(s, a) && r < |s.runs|
    ensures r < |Apply(s, a).runs|
    ensures Apply(s, a).runs[r].cancelled && !s.runs[r].cancelled ==> CancelHeld(s, r)
  {
    match a
    case InAttach(c, op) => assert AttachStep(s, c, op).runs[r].cancelled == s.runs[r].cancelled;
    case InDetach(c, op) => DetachCancelsItsTarget(s, c, op, r);
    case InFanout(q, op) => FanoutCancelsItsTarget(s, q, op, r);
    case InStop(k, op) => StopCancelsItsTarget(s, k, op, r);
    case InStream(q, op) => StreamUndisturbed(s, q, op);
    case InRun(q, op) => RunUndisturbed(s, q, op);
    case _ =>
  }

  /**
   * A cancel captured for one run can never cancel a later one: a run starts
   * uncancelled with nobody holding its cancel function, and only a holder of
   * that very function ever cancels it.
   */
  lemma CancelReachesOnlyItsRun(s: State, a: Action, r: RunId)
    requires Reachable(s) && Enabled(s, a) && r < |Apply(s, a).runs|
    ensures r < |s.runs| && !s.runs[r].cancelled && !CancelHeld(s, r) ==> !Apply(s, a).runs[r].cancelled
    ensures r >= |s.runs| ==> !Apply(s, a).runs[r].cancelled && !CancelHeld(s, r)
  {
    if r < |s.runs| {
      CancelledByHolder(s, a, r);
    } else {
      NoCancelBeforeStart(s, r);
      NewRunIsFresh(s, a, r);
    }
  }

  lemma NewRunIsFresh(s: State, a: Action, r: RunId)
    requires Enabled(s, a) && |s.runs| <= r < |Apply(s, a).runs|
    ensures !Apply(s, a).runs[r].cancelled
  {
    match a
    case InFanout(q, op) => FanoutUndisturbed(s, q, op);
    case InRun(q, op) => RunUndisturbed(s, q, op);
    case InStream(q, op) => StreamUndisturbed(s, q, op);
    case _ =>
  }

  // ----------------------------------------------------------- no lost wakeup

  /** How many of its own actions separate an attach call that failed from its return. */
  ghost function AttachRank(pc: ClientPc): nat {
    match pc
    case Waiting => 4
    case Detaching(_) => 3
    case Cancelling(_, _) => 2
    case ReadingErr => 1
    case _ => 0
  }

  ghost predicate OwnAction(a: Action, c: ClientId) {
    || (a.InAttach? && a.c == c)
    || (a.InDetach? && a.c == c)
  }

  /** A channel the client's attach waits on has been closed, so its select can return. */
  ghost predicate Woken(s: State, c: ClientId) {
    AttachEnabled(s, c, SelectReady) || AttachEnabled(s, c, SelectFailed)
  }

  /**
   * Nobody waits in vain, even with a request that never ends: a waiting attach can return by one
   * of its run's two channels, or its run's goroutine has a step to take on the way to closing one.
   * A run that has ended has closed the failed channel.
   */
  lemma AttachCanReturn(s: State, c: ClientId)
    requires Reachable(s) && c in s.clients && s.clients[c].pc.Waiting?
    ensures s.clients[c].run < |s.runs|
    ensures
      var r := s.clients[c].run;
      || Woken(s, c)
      || (!s.runs[r].pc.Loop? && !s.runs[r].pc.Finished? && exists a :: RunAction(a, r) && Enabled(s, a))
    ensures
      var pc := s.runs[s.clients[c].run].pc;
      pc.Closing? || pc.Finished? ==> AttachEnabled(s, c, SelectFailed)
  {
    Invariant(s);
    assert StandingOk(s, c);
    var r := s.clients[c].run;
    assert RunOk(s, r);
    if !Woken(s, c) { RunNeverStuck(s, r); }
  }

  /** How many of its run's actions a waiting attach may still have to wait for. */
  ghost function WakeRank(pc: RunPc): nat {
    match pc
    case Spawned => 3
    case Subscribed => 2
    case Returned(_) => 2
    case ReadyRead(_) => 1
    case TornDown(_, _) => 1
    case _ => 0
  }

  /** A run whose channels are both still open has closing one of them ahead of it. */
  lemma WakeAhead(s: State, r: RunId)
    requires r < |s.runs| && RunOk(s, r) && !s.runs[r].readyClosed && !s.runs[r].failedClosed
    ensures WakeRank(s.runs[r].pc) > 0
  {
  }

  ghost predicate Closer(s: State, s': State, r: RunId)
    requires r < |s.runs|
  {
    && r < |s'.runs|
    && (s'.runs[r].readyClosed || s'.runs[r].failedClosed || WakeRank(s'.runs[r].pc) < WakeRank(s.runs[r].pc))
  }

  lemma StreamWakes(s: State, r: RunId, op: StreamOp)
    requires StreamEnabled(s, r, op) && RunOk(s, r) && WakeRank(s.runs[r].pc) > 0 && !s.runs[r].readyClosed
    ensures Closer(s, StreamStep(s, r, op), r)
  {
  }

  lemma RunWakes(s: State, r: RunId, op: RunOp)
    requires RunEnabled(s, r, op) && RunOk(s, r) && WakeRank(s.runs[r].pc) > 0 && !s.runs[r].failedClosed
    ensures Closer(s, RunStep(s, r, op), r)
  {
  }

  /** Each action of its run opens a waiting attach's way out or brings that strictly closer. */
  lemma WaitEnds(s: State, a: Action, c: ClientId)
    requires Reachable(s) && c in s.clients && s.clients[c].pc.Waiting? && !Woken(s, c)
    requires s.clients[c].run < |s.runs| && RunAction(a, s.clients[c].run) && Enabled(s, a)
    ensures Closer(s, Apply(s, a), s.clients[c].run)
  {
    Invariant(s);
    var r := s.clients[c].run;
    assert RunOk(s, r);
    WakeAhead(s, r);
    match a
    case InStream(_, op) => StreamWakes(s, r, op);
    case InRun(_, op) => RunWakes(s, r, op);
    case _ =>
  }

  ghost predicate SamePc(s: State, s': State, r: RunId)
    requires r < |s.runs|
  {
    r < |s'.runs| && s'.runs[r].pc == s.runs[r].pc
  }

  lemma ClientsKeepPc(s: State, c: ClientId, r: RunId)
    requires r < |s.runs|
    ensures forall op :: AttachEnabled(s, c, op) ==> SamePc(s, AttachStep(s, c, op), r)
    ensures forall op :: DetachEnabled(s, c, op) ==> SamePc(s, DetachStep(s, c, op), r)
  {
  }

  lemma StreamKeepsPc(s: State, q: RunId, op: StreamOp, r: RunId)
    requires StreamEnabled(s, q, op) && r < |s.runs| && q != r
    ensures SamePc(s, StreamStep(s, q, op), r)
  {
  }

  lemma FanoutKeepsPc(s: State, q: RunId, op: FanoutOp, r: RunId)
    requires FanoutEnabled(s, q, op) && r < |s.runs| && q != r
    ensures SamePc(s, FanoutStep(s, q, op), r)
  {
  }

  lemma RunKeepsPc(s: State, q: RunId, op: RunOp, r: RunId)
    requires RunEnabled(s, q, op) && r < |s.runs| && q != r
    ensures SamePc(s, RunStep(s, q, op), r)
  {
  }

  /** And no other thread's action sets the run back. */
  lemma WaitUndisturbed(s: State, a: Action, r: RunId)
    requires r < |s.runs| && !RunAction(a, r) && Enabled(s, a)
    ensures SamePc(s, Apply(s, a), r)
  {
    match a
    case InAttach(c, op) => ClientsKeepPc(s, c, r);
    case InDetach(c, op) => ClientsKeepPc(s, c, r);
    case InStream(q, op) => StreamKeepsPc(s, q, op, r);
    case InFanout(q, op) => FanoutKeepsPc(s, q, op, r);
    case InRun(q, op) => RunKeepsPc(s, q, op, r);
    case InStop(k, op) => assert SamePc(s, StopStep(s, k, op), r);
    case _ =>
  }

  /** What an attach that has left its select still does on its own. */
  ghost function Unwinding(c: ClientId, pc: ClientPc): Action {
    match pc
    case Detaching(_) => InDetach(c, Unregister)
    case Cancelling(_, _) => InDetach(c, CallCancel)
    case _ => InAttach(c, ReadRunErr)
  }

  /** An attach that has left its select without a subscriber is never blocked on its way out. */
  lemma UnwindingEnabled(s: State, c: ClientId)
    requires Reachable(s) && c in s.clients && AttachRank(s.clients[c].pc) > 0 && !s.clients[c].pc.Waiting?
    ensures OwnAction(Unwinding(c, s.clients[c].pc), c) && Enabled(s, Unwinding(c, s.clients[c].pc))
  {
    Invariant(s);
    assert StandingOk(s, c);
  }

  /** Each such step brings the call closer to returning a subscriber or an error. */
  lemma AttachAdvances(s: State, a: Action, c: ClientId)
    requires c in s.clients && OwnAction(a, c) && Enabled(s, a)
    ensures c in Apply(s, a).clients
    ensures AttachRank(Apply(s, a).clients[c].pc) < AttachRank(s.clients[c].pc)
  {
    match a
    case InAttach(_, op) => assert AttachRank(AttachStep(s, c, op).clients[c].pc) < AttachRank(s.clients[c].pc);
    case InDetach(_, op) => assert AttachRank(DetachStep(s, c, op).clients[c].pc) < AttachRank(s.clients[c].pc);
  }

  /** Nobody else's step sets it back. */
  lemma AttachUndisturbed(s: State, a: Action, c: ClientId)
    requires c in s.clients && !OwnAction(a, c) && Enabled(s, a) && !s.clients[c].pc.Open?
    ensures c in Apply(s, a).clients
    ensures Apply(s, a).clients[c].pc == s.clients[c].pc
  {
    match a
    case InAttach(d, op) => assert AttachStep(s, d, op).clients[c] == s.clients[c];
    case InHandler(d, op) => assert HandlerStep(s, d, op).clients[c] == s.clients[c];
    case InDetach(d, op) => assert DetachStep(s, d, op).clients[c] == s.clients[c];
    case InFanout(r, op) => FanoutUndisturbed(s, r, op);
    case InRun(r, op) => RunUndisturbed(s, r, op);
    case InStream(r, op) => StreamUndisturbed(s, r, op);
    case _ =>
  }

  ghost predicate RunAction(a: Action, r: RunId) {
    || (a.InStream? && a.r == r)
    || (a.InFanout? && a.r == r)
    || (a.InRun? && a.r == r)
  }

  /**
   * A run's goroutine is never blocked by the hub: outside its select loop it
   * always has a step to take, and inside it a cancelled run can return.
   */
  lemma RunNeverStuck(s: State, r: RunId)
    requires Reachable(s) && r < |s.runs|
    requires !s.runs[r].pc.Finished? && (s.runs[r].pc.Loop? ==> Done(s, r))
    ensures exists a :: RunAction(a, r) && Enabled(s, a)
  {
    Invariant(s);
    assert ListsOk(s, r);
    var a := EnabledRunAction(s, r);
  }

  lemma EnabledRunAction(s: State, r: RunId) returns (a: Action)
    requires r < |s.runs| && ListsOk(s, r)
    requires !s.runs[r].pc.Finished? && (s.runs[r].pc.Loop? ==> Done(s, r))
    ensures RunAction(a, r) && Enabled(s, a)
  {
    match s.runs[r].pc {
      case Spawned => a := InStream(r, Subscribe);
      case Subscribed => a := InStream(r, ReadReady);
      case ReadyRead(_) => a := InStream(r, CloseReady);
      case Loop => a := InStream(r, Return(None));
      case Got(_) => a := InFanout(r, CopySubs);
      case Sending(_, rem) =>
        if rem == {} {
          a := InFanout(r, FanoutDone);
        } else {
          var c :| c in rem;
          assert c in Unserved(s.runs[r].pc);
          a := if |s.clients[c].delivered| - s.clients[c].taken < s.cap then InFanout(r, Send(c))
          else InFanout(r, Overflow(c));
        }
      case Overflowed(_, _, victim) =>
        assert victim in Unserved(s.runs[r].pc);
        a := InFanout(r, CloseLagged);
      case Dropping(_, _, _) => a := InFanout(r, DropLock);
      case DropCancel(_, _, _) => a := InFanout(r, DropCall);
      case Returned(_) => a := InRun(r, Teardown);
      case TornDown(_, _) => a := InRun(r, CloseFailed);
      case Closing(list) =>
        if list == {} {
          a := InRun(r, Finish);
        } else {
          var c :| c in list;
          assert c in Teardowns(s.runs[r].pc);
          a := InRun(r, CloseSub(c));
        }
    }
  }
}
