/**
 * The inductive invariant of the event hub and its preservation by every
 * action. HubTheorems states what follows from it for whole behaviours.
 */
module HubInvariant {
  import opened Prelude
  import opened ContainerEvents
  import opened HubModel

  // ------------------------------------------------------------ vocabulary

  /** The run's goroutine has not yet entered its last critical section. */
  ghost predicate Live(pc: RunPc) { !pc.TornDown? && !pc.Closing? && !pc.Finished? }

  ghost predicate FanningOut(pc: RunPc) { pc.Sending? || pc.Overflowed? || pc.Dropping? || pc.DropCancel? }

  ghost predicate Looping(pc: RunPc) { pc.Loop? || pc.Got? || FanningOut(pc) }

  /** The subscribers the fan-out in progress has not yet served. */
  ghost function Unserved(pc: RunPc): set<ClientId> {
    match pc
    case Sending(_, rem) => rem
    case Overflowed(_, rem, victim) => rem + {victim}
    case Dropping(_, rem, victim) => rem + {victim}
    case DropCancel(_, rem, _) => rem
    case _ => {}
  }

  /** The subscribers a torn-down run has not yet closed. */
  ghost function Teardowns(pc: RunPc): set<ClientId> {
    match pc
    case TornDown(_, list) => list
    case Closing(list) => list
    case _ => {}
  }

  /** The client still holds its subscriber: detach has not entered its section. */
  ghost predicate Undetached(pc: ClientPc) { pc.Waiting? || pc.Open? || pc.Detaching? }

  /** Everything the run has emitted since the client registered was delivered to it. */
  ghost predicate UpToDate(client: Client, run: Run) {
    client.first + |client.delivered| == |run.emitted|
  }

  ghost predicate OneBehind(client: Client, run: Run) {
    client.first + |client.delivered| + 1 == |run.emitted|
  }

  // ------------------------------------------------------------- invariant

  /** The hub's fields describe the newest run exactly while that run is live. */
  ghost predicate HubOk(s: State) {
    && (s.hub.running ==>
          |s.runs| > 0 && s.hub.ready == s.hub.failed == s.hub.cancel == Some(|s.runs| - 1))
    && (!s.hub.running ==> s.hub.subs == {} && s.hub.cancel == None)
    && (forall r :: 0 <= r < |s.runs| ==>
          (Live(s.runs[r].pc) <==> s.hub.running && r == |s.runs| - 1))
    && (forall k :: k in s.stoppers && s.stoppers[k].Some? ==> s.stoppers[k].value < |s.runs|)
    && !s.panicked
    && s.cap > 0
  }

  /** The part of a run's state only its own goroutine and the Engine's log touch. */
  ghost predicate RunOk(s: State, r: RunId)
    requires r < |s.runs|
  {
    var run := s.runs[r];
    && (run.pc.Spawned? || run.pc.Subscribed? || run.pc.ReadyRead? ==> !run.readyClosed)
    && (Looping(run.pc) ==> run.readyClosed)
    && (run.pc.Spawned? ==> run.start.None?)
    && (run.pc.Subscribed? || run.pc.ReadyRead? || run.readyClosed ==> run.start.Some?)
    && (run.pc.ReadyRead? ==> run.pc.ch == Some(r))
    && (run.failedClosed <==> run.pc.Closing? || run.pc.Finished?)
    && (run.pc.TornDown? ==> run.pc.ch == Some(r))
    && (run.pc.DropCancel? ==> run.pc.target == Some(r))
    && (run.start.None? ==> run.emitted == [])
    && (run.start.Some? ==>
          && run.start.value <= run.cursor <= |s.log|
          && Project(s.log[run.start.value..run.cursor])
             == run.emitted + if run.pc.Got? then [run.pc.ev] else [])
    && (FanningOut(run.pc) ==> |run.emitted| > 0 && run.emitted[|run.emitted| - 1] == run.pc.ev)
    && ((run.pc.Overflowed? || run.pc.Dropping?) ==> run.pc.victim !in run.pc.rem)
  }

  /** The subscribers a run's goroutine still has to act on. */
  ghost predicate ListsOk(s: State, r: RunId)
    requires r < |s.runs|
  {
    var run := s.runs[r];
    && (forall c {:trigger c in Unserved(run.pc)} :: c in Unserved(run.pc) ==>
          c in s.clients && s.clients[c].run == r && OneBehind(s.clients[c], run))
    && (run.pc.Dropping? ==> run.pc.victim in s.clients && s.clients[run.pc.victim].once)
    && (forall c {:trigger c in Teardowns(run.pc)} :: c in Teardowns(run.pc) ==>
          c in s.clients && s.clients[c].run == r && UpToDate(s.clients[c], run) && !s.clients[c].once)
  }

  /** What the hub has put into a subscriber. */
  ghost predicate DeliveryOk(s: State, c: ClientId)
    requires c in s.clients
  {
    var client := s.clients[c];
    && client.run < |s.runs|
    && var run := s.runs[client.run];
    && client.first + |client.delivered| <= |run.emitted|
    && client.delivered == run.emitted[client.first..client.first + |client.delivered|]
    && client.taken <= |client.delivered| <= client.taken + s.cap
    && |client.reasons| == (if client.once then 1 else 0)
    && (client.reasons == [EngineGone] ==> UpToDate(client, run) && run.failedClosed)
    && (client.pc.Open? || client.snapshot.Some? ==> run.readyClosed)
    && (client.snapshot.Some? ==>
          && run.start.Some?
          && run.start.value <= client.snapshot.value <= |s.log|
          && client.first <= |Project(s.log[run.start.value..client.snapshot.value])|)
  }

  /** Where a subscriber stands with the hub. */
  ghost predicate StandingOk(s: State, c: ClientId)
    requires c in s.clients
  {
    var client := s.clients[c];
    && client.run < |s.runs|
    && var run := s.runs[client.run];
    && (c in s.hub.subs ==>
          && client.run == |s.runs| - 1
          && Undetached(client.pc)
          && (c in Unserved(run.pc) || UpToDate(client, run))
          && (client.once ==> run.pc.Dropping? && run.pc.victim == c))
    && (c !in s.hub.subs && Undetached(client.pc) ==> client.once || c in Teardowns(run.pc))
    && (client.pc.Cancelling? ==> client.pc.target == Some(client.run))
  }

  ghost predicate HoldsCancel(s: State, c: ClientId, r: RunId) {
    c in s.clients && s.clients[c].pc.Cancelling? && s.clients[c].pc.target == Some(r)
  }

  /** A run nobody watches is cancelled or about to be. */
  ghost predicate NoLeak(s: State) {
    s.hub.running && s.hub.subs == {} && |s.runs| > 0 ==>
      var r := |s.runs| - 1;
      s.runs[r].cancelled || s.runs[r].pc.DropCancel? || exists c :: HoldsCancel(s, c, r)
  }

  ghost predicate Inv(s: State) {
    && HubOk(s)
    && (forall c {:trigger c in s.hub.subs} :: c in s.hub.subs ==> c in s.clients)
    && (forall r {:trigger RunOk(s, r)} :: 0 <= r < |s.runs| ==> RunOk(s, r))
    && (forall r {:trigger ListsOk(s, r)} :: 0 <= r < |s.runs| ==> ListsOk(s, r))
    && (forall c {:trigger DeliveryOk(s, c)} :: c in s.clients ==> DeliveryOk(s, c))
    && (forall c {:trigger StandingOk(s, c)} :: c in s.clients ==> StandingOk(s, c))
    && NoLeak(s)
  }

  // ----------------------------------------------------------- preservation

  /** The later state of a run whose goroutine has only moved on. */
  ghost predicate Advanced(a: Run, b: Run) {
    && a.emitted == b.emitted
    && (a.start.Some? ==> b.start == a.start)
    && (a.readyClosed ==> b.readyClosed)
    && (a.failedClosed ==> b.failedClosed)
    && (a.cancelled ==> b.cancelled)
  }

  ghost predicate SameDelivery(a: Client, b: Client) {
    && a.run == b.run && a.first == b.first && a.delivered == b.delivered
    && a.once == b.once && a.reasons == b.reasons
  }

  lemma RunFrame(s: State, s': State, r: RunId)
    requires r < |s.runs| && r < |s'.runs| && RunOk(s, r)
    requires s'.runs[r] == s.runs[r].(cancelled := s'.runs[r].cancelled)
    requires s.log <= s'.log
    ensures RunOk(s', r)
  {
    var run := s.runs[r];
    if run.start.Some? {
      assert s'.log[run.start.value..run.cursor] == s.log[run.start.value..run.cursor];
    }
  }

  lemma ListsFrame(s: State, s': State, r: RunId)
    requires r < |s.runs| && r < |s'.runs| && ListsOk(s, r)
    requires s'.runs[r].pc == s.runs[r].pc && s'.runs[r].emitted == s.runs[r].emitted
    requires forall c :: c in s.clients && s.clients[c].run == r ==>
               c in s'.clients && SameDelivery(s.clients[c], s'.clients[c])
    requires s.runs[r].pc.Dropping? ==> s.runs[r].pc.victim in Unserved(s.runs[r].pc)
    ensures ListsOk(s', r)
  {
  }

  lemma DeliveryFrame(s: State, s': State, c: ClientId)
    requires c in s.clients && c in s'.clients && DeliveryOk(s, c)
    requires SameDelivery(s.clients[c], s'.clients[c])
    requires s'.clients[c].taken == s.clients[c].taken && s'.clients[c].snapshot == s.clients[c].snapshot
    requires s'.clients[c].pc.Open? ==> s.clients[c].pc.Open?
    requires |s.runs| <= |s'.runs| && Advanced(s.runs[s.clients[c].run], s'.runs[s.clients[c].run])
    requires s.log <= s'.log && s'.cap == s.cap
    ensures DeliveryOk(s', c)
  {
    var client, run := s.clients[c], s.runs[s.clients[c].run];
    if client.snapshot.Some? {
      assert s'.log[run.start.value..client.snapshot.value] == s.log[run.start.value..client.snapshot.value];
    }
  }

  /** The run's goroutine stands the same way towards every subscriber. */
  ghost predicate SameLists(a: RunPc, b: RunPc) {
    && Unserved(a) == Unserved(b)
    && Teardowns(a) == Teardowns(b)
    && (a.Dropping? <==> b.Dropping?)
    && (a.Dropping? ==> a.victim == b.victim)
  }

  lemma StandingFrame(s: State, s': State, c: ClientId)
    requires c in s.clients && StandingOk(s, c) && |s.runs| <= |s'.runs|
    requires c in s.hub.subs ==> |s'.runs| == |s.runs|
    requires c in s'.clients && SameDelivery(s.clients[c], s'.clients[c])
    requires c in s'.hub.subs <==> c in s.hub.subs
    requires Undetached(s'.clients[c].pc) == Undetached(s.clients[c].pc)
    requires s'.clients[c].pc.Cancelling? ==> s.clients[c].pc == s'.clients[c].pc
    requires s'.runs[s.clients[c].run].emitted == s.runs[s.clients[c].run].emitted
    requires SameLists(s.runs[s.clients[c].run].pc, s'.runs[s.clients[c].run].pc)
    ensures StandingOk(s', c)
  {
  }

  lemma NoLeakFrame(s: State, s': State)
    requires NoLeak(s)
    requires s'.hub == s.hub && |s'.runs| == |s.runs|
    requires |s.runs| > 0 ==>
               var r := |s.runs| - 1;
               && (s.runs[r].cancelled ==> s'.runs[r].cancelled)
               && (s.runs[r].pc.DropCancel? ==> s'.runs[r].pc.DropCancel? || s'.runs[r].cancelled)
               && forall c :: HoldsCancel(s, c, r) ==> HoldsCancel(s', c, r) || s'.runs[r].cancelled
    ensures NoLeak(s')
  {
    if s.hub.running && s.hub.subs == {} && |s.runs| > 0 {
      var r := |s.runs| - 1;
      if !s.runs[r].cancelled && !s.runs[r].pc.DropCancel? {
        var c :| HoldsCancel(s, c, r);
        assert HoldsCancel(s', c, r) || s'.runs[r].cancelled;
      }
    }
  }

  // ------------------------------------------------ actions that move one pc

  /** Only run `r` changed, and no list or registration with it. */
  ghost predicate RunMoved(s: State, s': State, r: RunId) {
    && r < |s.runs| == |s'.runs|
    && s' == SetRun(s, r, s'.runs[r])
    && Advanced(s.runs[r], s'.runs[r])
    && RunOk(s', r)
    && Live(s'.runs[r].pc) == Live(s.runs[r].pc)
    && SameLists(s.runs[r].pc, s'.runs[r].pc)
    && (s.runs[r].pc.DropCancel? ==> s'.runs[r].pc.DropCancel? || s'.runs[r].cancelled)
  }

  lemma RunMovesRun(s: State, s': State, r: RunId, q: RunId)
    requires RunMoved(s, s', r) && q < |s.runs| && RunOk(s, q) && ListsOk(s, q)
    ensures RunOk(s', q) && ListsOk(s', q)
  {
    if q != r { RunFrame(s, s', q); }
  }

  lemma RunMovesClient(s: State, s': State, r: RunId, c: ClientId)
    requires RunMoved(s, s', r) && c in s.clients && DeliveryOk(s, c) && StandingOk(s, c)
    ensures DeliveryOk(s', c) && StandingOk(s', c)
  {
    DeliveryFrame(s, s', c);
    StandingFrame(s, s', c);
  }

  lemma RunMoves(s: State, s': State, r: RunId)
    requires Inv(s) && RunMoved(s, s', r)
    ensures Inv(s')
  {
    forall q | 0 <= q < |s'.runs| ensures RunOk(s', q) && ListsOk(s', q) {
      assert RunOk(s, q) && ListsOk(s, q);
      RunMovesRun(s, s', r, q);
    }
    forall c | c in s'.clients ensures DeliveryOk(s', c) && StandingOk(s', c) {
      assert DeliveryOk(s, c) && StandingOk(s, c);
      RunMovesClient(s, s', r, c);
    }
    NoLeakFrame(s, s');
  }

  /** The same clients; only `c` may differ, and not in what the hub did to its subscriber. */
  ghost predicate OnlyClient(s: State, s': State, c: ClientId) {
    && s' == s.(clients := s'.clients)
    && s'.clients.Keys == s.clients.Keys
    && c in s.clients
    && SameDelivery(s.clients[c], s'.clients[c])
    && forall d :: d in s.clients && d != c ==> s'.clients[d] == s.clients[d]
  }

  lemma ClientMovesRuns(s: State, s': State, c: ClientId, r: RunId)
    requires Inv(s) && OnlyClient(s, s', c) && r < |s.runs|
    ensures RunOk(s', r) && ListsOk(s', r)
  {
    assert RunOk(s, r) && ListsOk(s, r);
    ListsFrame(s, s', r);
  }

  lemma ClientMovesOthers(s: State, s': State, c: ClientId, d: ClientId)
    requires Inv(s) && OnlyClient(s, s', c) && d in s.clients
    requires Undetached(s'.clients[c].pc) == Undetached(s.clients[c].pc)
    requires !s'.clients[c].pc.Cancelling?
    ensures d != c ==> DeliveryOk(s', d)
    ensures StandingOk(s', d)
  {
    assert DeliveryOk(s, d) && StandingOk(s, d);
    if d != c { DeliveryFrame(s, s', d); }
    StandingFrame(s, s', d);
  }

  lemma ClientMovesLeak(s: State, s': State, c: ClientId)
    requires OnlyClient(s, s', c) && NoLeak(s) && StandingOk(s, c)
    requires s.clients[c].pc.Cancelling? ==> s.runs[s'.clients[c].run].cancelled
    ensures NoLeak(s')
  {
    NoLeakFrame(s, s');
  }

  /** Only client `c` changed, and nothing of what the hub did to its subscriber. */
  lemma ClientMoves(s: State, s': State, c: ClientId)
    requires Inv(s) && OnlyClient(s, s', c) && DeliveryOk(s', c)
    requires Undetached(s'.clients[c].pc) == Undetached(s.clients[c].pc)
    requires !s'.clients[c].pc.Cancelling?
    requires s.clients[c].pc.Cancelling? ==> s.runs[s'.clients[c].run].cancelled
    ensures Inv(s')
  {
    forall r | 0 <= r < |s'.runs| ensures RunOk(s', r) && ListsOk(s', r) { ClientMovesRuns(s, s', c, r); }
    forall d | d in s'.clients ensures DeliveryOk(s', d) && StandingOk(s', d) { ClientMovesOthers(s, s', c, d); }
    assert StandingOk(s, c);
    ClientMovesLeak(s, s', c);
  }

  lemma AttachSelects(s: State, c: ClientId, op: AttachOp)
    requires Inv(s) && AttachEnabled(s, c, op) && !op.Register?
    ensures Inv(AttachStep(s, c, op))
  {
    assert DeliveryOk(s, c);
    ClientMoves(s, AttachStep(s, c, op), c);
  }

  /** A longer stretch of the log never emits less. */
  lemma ProjectGrows(log: seq<Message>, lo: nat, mid: nat)
    requires lo <= mid <= |log|
    ensures |Project(log[lo..mid])| <= |Project(log[lo..|log|])|
  {
    assert log[lo..|log|] == log[lo..mid] + log[mid..];
    ProjectConcat(log[lo..mid], log[mid..]);
  }

  lemma HandlerDelivery(s: State, c: ClientId, op: HandlerOp)
    requires HandlerEnabled(s, c, op) && DeliveryOk(s, c) && RunOk(s, s.clients[c].run)
    ensures var s' := HandlerStep(s, c, op); OnlyClient(s, s', c) && DeliveryOk(s', c)
  {
    if op.TakeSnapshot? {
      var run := s.runs[s.clients[c].run];
      ProjectGrows(s.log, run.start.value, run.cursor);
    }
  }

  lemma HandlerMoves(s: State, c: ClientId, op: HandlerOp)
    requires Inv(s) && HandlerEnabled(s, c, op)
    ensures Inv(HandlerStep(s, c, op))
  {
    assert DeliveryOk(s, c) && RunOk(s, s.clients[c].run);
    HandlerDelivery(s, c, op);
    ClientMoves(s, HandlerStep(s, c, op), c);
  }

  /** Calling run `r`'s cancel function, whoever calls it. */
  lemma CancelMoves(s: State, r: RunId)
    requires Inv(s) && r < |s.runs|
    ensures Inv(Cancel(s, Some(r)))
  {
    var s' := Cancel(s, Some(r));
    assert RunOk(s, r);
    RunFrame(s, s', r);
    RunMoves(s, s', r);
  }

  lemma CallCancelMoves(s: State, c: ClientId)
    requires Inv(s) && DetachEnabled(s, c, CallCancel)
    ensures Inv(DetachStep(s, c, CallCancel))
  {
    assert DeliveryOk(s, c) && StandingOk(s, c);
    var r := s.clients[c].run;
    CancelMoves(s, r);
    var mid := Cancel(s, Some(r));
    assert DeliveryOk(mid, c);
    CancelThenMove(s, c, r);
    ClientMoves(mid, DetachStep(s, c, CallCancel), c);
  }

  lemma CancelThenMove(s: State, c: ClientId, r: RunId)
    requires DetachEnabled(s, c, CallCancel) && s.clients[c].pc.target == Some(r) && s.clients[c].run == r < |s.runs|
    requires DeliveryOk(s, c) && DeliveryOk(Cancel(s, Some(r)), c)
    ensures
      var mid, s' := Cancel(s, Some(r)), DetachStep(s, c, CallCancel);
      && OnlyClient(mid, s', c) && DeliveryOk(s', c) && mid.runs[r].cancelled
      && Undetached(s'.clients[c].pc) == Undetached(mid.clients[c].pc) && !s'.clients[c].pc.Cancelling?
  {
    var mid, s' := Cancel(s, Some(r)), DetachStep(s, c, CallCancel);
    assert s'.clients == mid.clients[c := mid.clients[c].(pc := AfterDetach(s.clients[c].pc.why))];
  }

  /** Changes outside the hub, its runs and its clients. */
  lemma EnvironmentMoves(s: State, s': State)
    requires Inv(s) && s' == s.(stoppers := s'.stoppers, parentDone := s'.parentDone, ended := s'.ended)
    requires forall k :: k in s'.stoppers && s'.stoppers[k].Some? ==> s'.stoppers[k].value < |s.runs|
    ensures Inv(s')
  {
    forall r | 0 <= r < |s.runs| ensures RunOk(s', r) && ListsOk(s', r) { assert RunOk(s, r) && ListsOk(s, r); }
    forall c | c in s.clients ensures DeliveryOk(s', c) && StandingOk(s', c) {
      assert DeliveryOk(s, c) && StandingOk(s, c);
    }
    NoLeakFrame(s, s');
  }

  lemma StopMoves(s: State, k: nat, op: StopOp)
    requires Inv(s) && StopEnabled(s, k, op)
    ensures Inv(StopStep(s, k, op))
  {
    var mid := s.(stoppers := StopStep(s, k, op).stoppers);
    EnvironmentMoves(s, mid);
    if op.StopCall? && s.stoppers[k].Some? {
      CancelMoves(mid, s.stoppers[k].value);
    }
  }

  lemma AppendMoves(s: State, s': State)
    requires Inv(s) && s' == s.(log := s'.log) && s.log <= s'.log
    ensures Inv(s')
  {
    forall r | 0 <= r < |s.runs| ensures RunOk(s', r) && ListsOk(s', r) {
      assert RunOk(s, r) && ListsOk(s, r);
      RunFrame(s, s', r);
    }
    forall c | c in s.clients ensures DeliveryOk(s', c) && StandingOk(s', c) {
      assert DeliveryOk(s, c) && StandingOk(s, c);
      DeliveryFrame(s, s', c);
    }
    NoLeakFrame(s, s');
  }

  function Events(next: Option<ContainerEvent>): seq<ContainerEvent> {
    if next.Some? then [next.value] else []
  }

  lemma ProjectOneMore(log: seq<Message>, lo: nat, hi: nat)
    requires lo <= hi < |log|
    ensures Project(log[lo..hi + 1]) == Project(log[lo..hi]) + Events(ToContainerEvent(log[hi]))
  {
    assert log[lo..hi + 1] == log[lo..hi] + [log[hi]];
    ProjectSnoc(log[lo..hi], log[hi]);
  }

  /** Reading a message keeps the run in order, and touches neither a list nor a registration. */
  lemma ReadMoved(s: State, r: RunId, next: Option<ContainerEvent>)
    requires r < |s.runs| && RunOk(s, r) && s.runs[r].pc.Loop? && s.runs[r].cursor < |s.log| && s.runs[r].start.Some?
    requires
      var run := s.runs[r];
      run.start.value <= run.cursor
      && Project(s.log[run.start.value..run.cursor + 1])
         == Project(s.log[run.start.value..run.cursor]) + Events(next)
    ensures RunMoved(s, SetRun(s, r, AfterReading(s.runs[r], next)), r)
  {
  }

  lemma TakeMessageRun(s: State, r: RunId)
    requires StreamEnabled(s, r, TakeMessage) && RunOk(s, r)
    ensures RunMoved(s, TakeMessageStep(s, r), r)
  {
    var run := s.runs[r];
    ProjectOneMore(s.log, run.start.value, run.cursor);
    ReadMoved(s, r, ToContainerEvent(s.log[run.cursor]));
  }

  lemma StreamRun(s: State, r: RunId, op: StreamOp)
    requires StreamEnabled(s, r, op) && !op.TakeMessage?
    requires RunOk(s, r) && HubOk(s)
    ensures RunMoved(s, StreamStep(s, r, op), r)
  {
    var s' := StreamStep(s, r, op);
    assert s'.runs == s.runs[r := s'.runs[r]];
  }

  lemma FanoutRun(s: State, r: RunId, op: FanoutOp)
    requires FanoutEnabled(s, r, op) && (op.Overflow? || op.FanoutDone? || op.DropCall?)
    requires RunOk(s, r) && HubOk(s)
    ensures RunMoved(s, FanoutStep(s, r, op), r)
  {
    var pc := s.runs[r].pc;
    match op {
      case Overflow(c) => PcMoved(s, r, Overflowed(pc.ev, pc.rem - {c}, c));
      case FanoutDone => PcMoved(s, r, Loop);
      case _ => DropCallMoved(s, r);
    }
  }

  /** A goroutine that moves on without touching a list. */
  lemma PcMoved(s: State, r: RunId, pc: RunPc)
    requires r < |s.runs| && RunOk(s, r) && RunOk(SetRunPc(s, r, pc), r)
    requires Live(pc) == Live(s.runs[r].pc) && SameLists(s.runs[r].pc, pc) && !s.runs[r].pc.DropCancel?
    ensures RunMoved(s, SetRunPc(s, r, pc), r)
  {
  }

  lemma DropCallMoved(s: State, r: RunId)
    requires FanoutEnabled(s, r, DropCall) && RunOk(s, r)
    ensures RunMoved(s, FanoutStep(s, r, DropCall), r)
  {
    var pc := s.runs[r].pc;
    var s' := FanoutStep(s, r, DropCall);
    assert s'.runs == s.runs[r := s.runs[r].(pc := Sending(pc.ev, pc.rem), cancelled := true)];
  }

  lemma EndRun(s: State, r: RunId, op: RunOp)
    requires RunEnabled(s, r, op) && (op.CloseFailed? || op.Finish?)
    requires RunOk(s, r) && HubOk(s)
    ensures RunMoved(s, RunStep(s, r, op), r)
  {
    if op.Finish? { PcMoved(s, r, Finished); } else { CloseFailedMoved(s, r); }
  }

  lemma CloseFailedMoved(s: State, r: RunId)
    requires RunEnabled(s, r, CloseFailed) && RunOk(s, r)
    ensures RunMoved(s, RunStep(s, r, CloseFailed), r)
  {
    var s' := RunStep(s, r, CloseFailed);
    assert s'.runs == s.runs[r := s.runs[r].(pc := Closing(s.runs[r].pc.list), failedClosed := true)];
  }

  // ------------------------------------- actions that change a registration

  /** The run, or one more: nothing already there has changed but registrations and pcs. */
  ghost predicate SameRecords(s: State, s': State) {
    && s.log == s'.log && s.cap == s'.cap
    && |s.runs| <= |s'.runs|
    && (forall r :: 0 <= r < |s.runs| ==> s'.runs[r] == s.runs[r].(pc := s'.runs[r].pc))
    && s.clients.Keys <= s'.clients.Keys
    && (forall d :: d in s.clients ==> s'.clients[d] == s.clients[d].(pc := s'.clients[d].pc))
  }

  lemma RecordsRun(s: State, s': State, r: RunId)
    requires SameRecords(s, s') && r < |s.runs| && RunOk(s, r) && ListsOk(s, r)
    requires s'.runs[r].pc == s.runs[r].pc
    ensures RunOk(s', r) && ListsOk(s', r)
  {
    RunFrame(s, s', r);
    ListsFrame(s, s', r);
  }

  lemma RecordsClient(s: State, s': State, d: ClientId)
    requires SameRecords(s, s') && d in s.clients && DeliveryOk(s, d) && StandingOk(s, d)
    requires s'.clients[d].pc.Open? ==> s.clients[d].pc.Open?
    ensures DeliveryOk(s', d)
    ensures s'.clients[d].pc == s.clients[d].pc
            && s'.runs[s.clients[d].run].pc == s.runs[s.clients[d].run].pc
            && (d in s'.hub.subs <==> d in s.hub.subs)
            && (d in s.hub.subs ==> |s.runs| == |s'.runs|)
            ==> StandingOk(s', d)
  {
    DeliveryFrame(s, s', d);
  }

  /** The registrations changed, and nothing else but `c`'s and run `r`'s own pcs. */
  lemma RegisterHub(s: State, s': State, c: ClientId)
    requires HubOk(s) && c !in s.clients && s' == RegisterStep(s, c)
    ensures HubOk(s') && SameRecords(s, s') && NoLeak(s') && c in s'.hub.subs && c in s'.clients
    ensures s'.clients[c].run == |s'.runs| - 1 && s'.clients[c].pc.Waiting?
    ensures |s'.runs| == if s.hub.running then |s.runs| else |s.runs| + 1
  {
  }

  lemma RegisterNewRun(s: State, s': State, c: ClientId, r: RunId)
    requires HubOk(s) && c !in s.clients && s' == RegisterStep(s, c) && |s.runs| <= r < |s'.runs|
    ensures RunOk(s', r) && ListsOk(s', r)
  {
    assert s'.runs[r] == NEW_RUN;
  }

  lemma RegisterNewClient(s: State, s': State, c: ClientId)
    requires HubOk(s) && c !in s.clients && s' == RegisterStep(s, c)
    requires s.hub.running ==> RunOk(s, |s.runs| - 1)
    ensures c in s'.clients && DeliveryOk(s', c) && StandingOk(s', c)
  {
    RegisterHub(s, s', c);
    var client := s'.clients[c];
    assert client == Client(Waiting, |s'.runs| - 1, |s'.runs[|s'.runs| - 1].emitted|, [], 0, false, [], None);
  }

  lemma RegisterOldRun(s: State, s': State, c: ClientId, r: RunId)
    requires HubOk(s) && c !in s.clients && s' == RegisterStep(s, c) && r < |s.runs| && RunOk(s, r) && ListsOk(s, r)
    ensures r < |s'.runs| && RunOk(s', r) && ListsOk(s', r)
  {
    RegisterHub(s, s', c);
    RecordsRun(s, s', r);
  }

  lemma RegisterOldClient(s: State, s': State, c: ClientId, d: ClientId)
    requires HubOk(s) && c !in s.clients && s' == RegisterStep(s, c)
    requires d in s.clients && DeliveryOk(s, d) && StandingOk(s, d)
    ensures d in s'.clients && DeliveryOk(s', d) && StandingOk(s', d)
  {
    RegisterHub(s, s', c);
    RecordsClient(s, s', d);
  }

  lemma RegisterMoves(s: State, c: ClientId)
    requires Inv(s) && AttachEnabled(s, c, Register)
    ensures Inv(RegisterStep(s, c))
  {
    var s' := RegisterStep(s, c);
    if s.hub.running { assert RunOk(s, |s.runs| - 1); }
    RegisterHub(s, s', c);
    RegisterNewClient(s, s', c);
    forall r | 0 <= r < |s'.runs| ensures RunOk(s', r) && ListsOk(s', r) {
      if r < |s.runs| {
        assert RunOk(s, r) && ListsOk(s, r);
        RegisterOldRun(s, s', c, r);
      } else {
        RegisterNewRun(s, s', c, r);
      }
    }
    forall d | d in s'.clients ensures DeliveryOk(s', d) && StandingOk(s', d) {
      if d != c {
        assert DeliveryOk(s, d) && StandingOk(s, d);
        RegisterOldClient(s, s', c, d);
      }
    }
  }

  lemma UnregisterParts(s: State, s': State, c: ClientId)
    requires HubOk(s) && NoLeak(s) && DetachEnabled(s, c, Unregister) && s' == DetachStep(s, c, Unregister)
    requires DeliveryOk(s, c) && StandingOk(s, c)
    ensures HubOk(s') && SameRecords(s, s') && StandingOk(s', c) && NoLeak(s')
  {
    if s.hub.subs == {c} {
      assert HoldsCancel(s', c, |s.runs| - 1);
    } else if c !in s.hub.subs {
      NoLeakFrame(s, s');
    }
  }

  lemma UnregisterMoves(s: State, c: ClientId)
    requires Inv(s) && DetachEnabled(s, c, Unregister)
    ensures Inv(DetachStep(s, c, Unregister))
  {
    var s' := DetachStep(s, c, Unregister);
    assert DeliveryOk(s, c) && StandingOk(s, c);
    UnregisterParts(s, s', c);
    forall r | 0 <= r < |s'.runs| ensures RunOk(s', r) && ListsOk(s', r) {
      assert RunOk(s, r) && ListsOk(s, r);
      RecordsRun(s, s', r);
    }
    forall d | d in s'.clients ensures DeliveryOk(s', d) && StandingOk(s', d) {
      assert DeliveryOk(s, d) && StandingOk(s, d);
      RecordsClient(s, s', d);
    }
  }

  lemma DropLockParts(s: State, s': State, r: RunId)
    requires HubOk(s) && NoLeak(s) && FanoutEnabled(s, r, DropLock) && s' == DropLockStep(s, r)
    requires RunOk(s, r) && ListsOk(s, r)
    ensures HubOk(s') && SameRecords(s, s') && RunOk(s', r) && ListsOk(s', r) && NoLeak(s')
  {
    DropLockHub(s, s', r);
    DropLockRun(s, s', r);
    if s.runs[r].pc.victim !in s.hub.subs { NoLeakFrame(s, s'); }
  }

  lemma DropLockHub(s: State, s': State, r: RunId)
    requires HubOk(s) && FanoutEnabled(s, r, DropLock) && s' == DropLockStep(s, r)
    ensures HubOk(s') && SameRecords(s, s')
  {
  }

  lemma DropLockRun(s: State, s': State, r: RunId)
    requires HubOk(s) && FanoutEnabled(s, r, DropLock) && s' == DropLockStep(s, r)
    requires RunOk(s, r) && ListsOk(s, r)
    ensures RunOk(s', r) && ListsOk(s', r)
  {
    forall c | c in Unserved(s'.runs[r].pc) ensures c in Unserved(s.runs[r].pc) {}
  }

  lemma DropLockClient(s: State, s': State, r: RunId, d: ClientId)
    requires HubOk(s) && FanoutEnabled(s, r, DropLock) && s' == DropLockStep(s, r) && SameRecords(s, s')
    requires RunOk(s, r) && ListsOk(s, r)
    requires d in s.clients && DeliveryOk(s, d) && StandingOk(s, d)
    ensures DeliveryOk(s', d) && StandingOk(s', d)
  {
    RecordsClient(s, s', d);
  }

  lemma DropLockMoves(s: State, r: RunId)
    requires Inv(s) && FanoutEnabled(s, r, DropLock)
    ensures Inv(DropLockStep(s, r))
  {
    var s' := DropLockStep(s, r);
    assert RunOk(s, r) && ListsOk(s, r);
    DropLockParts(s, s', r);
    forall q | 0 <= q < |s'.runs| ensures RunOk(s', q) && ListsOk(s', q) {
      assert RunOk(s, q) && ListsOk(s, q);
      if q != r { RecordsRun(s, s', q); }
    }
    forall d | d in s'.clients ensures DeliveryOk(s', d) && StandingOk(s', d) {
      assert DeliveryOk(s, d) && StandingOk(s, d);
      DropLockClient(s, s', r, d);
    }
  }

  /** The lists of the torn-down run are exactly its registered subscribers, all up to date. */
  lemma TeardownLists(s: State, r: RunId)
    requires Inv(s) && RunEnabled(s, r, Teardown)
    ensures ListsOk(TeardownStep(s, r), r)
  {
    assert RunOk(s, r);
    forall c | c in s.hub.subs
      ensures c in s.clients && s.clients[c].run == r && UpToDate(s.clients[c], s.runs[r]) && !s.clients[c].once
    {
      assert StandingOk(s, c);
    }
  }

  lemma TeardownMoves(s: State, r: RunId)
    requires Inv(s) && RunEnabled(s, r, Teardown)
    ensures Inv(TeardownStep(s, r))
  {
    var s' := TeardownStep(s, r);
    assert RunOk(s, r);
    assert SameRecords(s, s');
    TeardownLists(s, r);
    forall q | 0 <= q < |s'.runs| ensures RunOk(s', q) && ListsOk(s', q) {
      assert RunOk(s, q) && ListsOk(s, q);
      if q != r { RecordsRun(s, s', q); }
    }
    forall d | d in s'.clients ensures DeliveryOk(s', d) && StandingOk(s', d) {
      assert DeliveryOk(s, d) && StandingOk(s, d);
      RecordsClient(s, s', d);
    }
  }

  /** The fan-out takes its list from the registrations, and those are all up to date. */
  lemma CopySubsLists(s: State, r: RunId)
    requires Inv(s) && FanoutEnabled(s, r, CopySubs)
    ensures ListsOk(CopySubsStep(s, r), r)
  {
    assert RunOk(s, r);
    var s' := CopySubsStep(s, r);
    forall c | c in s.hub.subs
      ensures c in s.clients && s.clients[c].run == r && OneBehind(s'.clients[c], s'.runs[r])
    {
      assert StandingOk(s, c);
    }
  }

  lemma CopySubsClient(s: State, r: RunId, c: ClientId)
    requires FanoutEnabled(s, r, CopySubs) && RunOk(s, r)
    requires c in s.clients && DeliveryOk(s, c) && StandingOk(s, c)
    ensures var s' := CopySubsStep(s, r); DeliveryOk(s', c) && StandingOk(s', c)
  {
    var s' := CopySubsStep(s, r);
    if s.clients[c].run != r {
      DeliveryFrame(s, s', c);
    } else {
      var client, run := s.clients[c], s.runs[r];
      var hi := client.first + |client.delivered|;
      assert s'.runs[r].emitted[client.first..hi] == run.emitted[client.first..hi];
    }
  }

  lemma CopySubsOwnRun(s: State, r: RunId)
    requires FanoutEnabled(s, r, CopySubs) && RunOk(s, r)
    ensures RunOk(CopySubsStep(s, r), r)
  {
  }

  lemma CopySubsOtherRun(s: State, r: RunId, q: RunId)
    requires FanoutEnabled(s, r, CopySubs) && q < |s.runs| && q != r && RunOk(s, q) && ListsOk(s, q)
    ensures RunOk(CopySubsStep(s, r), q) && ListsOk(CopySubsStep(s, r), q)
  {
    assert CopySubsStep(s, r).runs[q] == s.runs[q];
  }

  lemma CopySubsHub(s: State, r: RunId)
    requires FanoutEnabled(s, r, CopySubs) && HubOk(s) && NoLeak(s)
    ensures HubOk(CopySubsStep(s, r)) && NoLeak(CopySubsStep(s, r))
  {
    NoLeakFrame(s, CopySubsStep(s, r));
  }

  lemma CopySubsMoves(s: State, r: RunId)
    requires Inv(s) && FanoutEnabled(s, r, CopySubs)
    ensures Inv(CopySubsStep(s, r))
  {
    var s' := CopySubsStep(s, r);
    assert RunOk(s, r);
    CopySubsOwnRun(s, r);
    CopySubsLists(s, r);
    forall q | 0 <= q < |s'.runs| ensures RunOk(s', q) && ListsOk(s', q) {
      if q != r {
        assert RunOk(s, q) && ListsOk(s, q);
        CopySubsOtherRun(s, r, q);
      }
    }
    CopySubsHub(s, r);
    forall c | c in s'.clients ensures DeliveryOk(s', c) && StandingOk(s', c) {
      assert DeliveryOk(s, c) && StandingOk(s, c);
      CopySubsClient(s, r, c);
    }
  }

  /** Run `r`'s goroutine acted on subscriber `c`; everything else is as it was. */
  ghost predicate OnlyPair(s: State, s': State, r: RunId, c: ClientId) {
    && s' == s.(runs := s'.runs, clients := s'.clients)
    && r < |s.runs| == |s'.runs|
    && c in s.clients && s'.clients.Keys == s.clients.Keys
    && (forall q :: 0 <= q < |s.runs| && q != r ==> s'.runs[q] == s.runs[q])
    && (forall d :: d in s.clients && d != c ==> s'.clients[d] == s.clients[d])
    && s'.runs[r] == s.runs[r].(pc := s'.runs[r].pc)
    && s.clients[c].run == s'.clients[c].run == r
    && s'.clients[c].pc == s.clients[c].pc
    && var pc, pc' := s.runs[r].pc, s'.runs[r].pc;
    && Live(pc) == Live(pc') && !pc.Dropping? && !pc.DropCancel?
    && Unserved(pc) - {c} == Unserved(pc') - {c}
    && Teardowns(pc) - {c} == Teardowns(pc') - {c}
    && (pc'.Dropping? ==> pc'.victim == c)
  }

  lemma PairMovesOtherRun(s: State, s': State, r: RunId, c: ClientId, q: RunId)
    requires OnlyPair(s, s', r, c) && q < |s.runs| && q != r && RunOk(s, q) && ListsOk(s, q)
    ensures RunOk(s', q) && ListsOk(s', q)
  {
    ListsFrame(s, s', q);
  }

  lemma PairMovesOtherClient(s: State, s': State, r: RunId, c: ClientId, d: ClientId)
    requires OnlyPair(s, s', r, c) && d in s.clients && d != c && DeliveryOk(s, d) && StandingOk(s, d)
    ensures DeliveryOk(s', d) && StandingOk(s', d)
  {
    var u, u' := Unserved(s.runs[r].pc), Unserved(s'.runs[r].pc);
    var t, t' := Teardowns(s.runs[r].pc), Teardowns(s'.runs[r].pc);
    assert (d in u <==> d in u - {c}) && (d in u' <==> d in u' - {c});
    assert (d in t <==> d in t - {c}) && (d in t' <==> d in t' - {c});
    DeliveryFrame(s, s', d);
  }

  lemma PairMovesHub(s: State, s': State, r: RunId, c: ClientId)
    requires HubOk(s) && NoLeak(s) && OnlyPair(s, s', r, c)
    ensures HubOk(s') && NoLeak(s')
  {
    NoLeakFrame(s, s');
  }

  lemma PairMoves(s: State, s': State, r: RunId, c: ClientId)
    requires Inv(s) && OnlyPair(s, s', r, c)
    requires RunOk(s', r) && ListsOk(s', r) && DeliveryOk(s', c) && StandingOk(s', c)
    ensures Inv(s')
  {
    forall q | 0 <= q < |s'.runs| ensures RunOk(s', q) && ListsOk(s', q) {
      if q != r {
        assert RunOk(s, q) && ListsOk(s, q);
        PairMovesOtherRun(s, s', r, c, q);
      }
    }
    forall d | d in s'.clients ensures DeliveryOk(s', d) && StandingOk(s', d) {
      if d != c {
        assert DeliveryOk(s, d) && StandingOk(s, d);
        PairMovesOtherClient(s, s', r, c, d);
      }
    }
    PairMovesHub(s, s', r, c);
  }

  /** What a goroutine acting on `c` may rely on. */
  ghost predicate PairOk(s: State, r: RunId, c: ClientId) {
    && r < |s.runs| && c in s.clients
    && RunOk(s, r) && ListsOk(s, r) && DeliveryOk(s, c) && StandingOk(s, c)
  }

  lemma SendPair(s: State, r: RunId, c: ClientId)
    requires PairOk(s, r, c) && FanoutEnabled(s, r, Send(c))
    ensures var s' := SendStep(s, r, c); OnlyPair(s, s', r, c) && PairOk(s', r, c)
  {
    var s' := SendStep(s, r, c);
    assert c in Unserved(s.runs[r].pc);
    var client, run := s.clients[c], s.runs[r];
    assert run.emitted[client.first..client.first + |client.delivered| + 1] == client.delivered + [run.pc.ev];
  }

  lemma CloseLaggedPair(s: State, r: RunId, c: ClientId)
    requires FanoutEnabled(s, r, CloseLagged) && s.runs[r].pc.victim == c && PairOk(s, r, c)
    ensures var s' := CloseLaggedStep(s, r); OnlyPair(s, s', r, c) && PairOk(s', r, c)
  {
    var s' := CloseLaggedStep(s, r);
    assert c in Unserved(s.runs[r].pc);
    assert Unserved(s'.runs[r].pc) == Unserved(s.runs[r].pc);
    if !s.clients[c].once {
      assert s'.clients[c].reasons[0] == Lagged;
    }
  }

  lemma CloseSubPair(s: State, r: RunId, c: ClientId)
    requires RunEnabled(s, r, CloseSub(c)) && HubOk(s) && PairOk(s, r, c)
    ensures var s' := CloseSubStep(s, r, c); OnlyPair(s, s', r, c) && PairOk(s', r, c)
  {
    assert c in Teardowns(s.runs[r].pc);
    assert !Live(s.runs[r].pc);
  }

  // ------------------------------------------------------------- every step

  lemma AttachInv(s: State, c: ClientId, op: AttachOp)
    requires Inv(s) && AttachEnabled(s, c, op)
    ensures Inv(AttachStep(s, c, op))
  {
    if op.Register? { RegisterMoves(s, c); } else { AttachSelects(s, c, op); }
  }

  lemma DetachInv(s: State, c: ClientId, op: DetachOp)
    requires Inv(s) && DetachEnabled(s, c, op)
    ensures Inv(DetachStep(s, c, op))
  {
    if op.Unregister? { UnregisterMoves(s, c); } else { CallCancelMoves(s, c); }
  }

  lemma StreamInv(s: State, r: RunId, op: StreamOp)
    requires Inv(s) && StreamEnabled(s, r, op)
    ensures Inv(StreamStep(s, r, op))
  {
    assert RunOk(s, r);
    if op.TakeMessage? { TakeMessageRun(s, r); } else { StreamRun(s, r, op); }
    RunMoves(s, StreamStep(s, r, op), r);
  }

  lemma FanoutInv(s: State, r: RunId, op: FanoutOp)
    requires Inv(s) && FanoutEnabled(s, r, op)
    ensures Inv(FanoutStep(s, r, op))
  {
    assert RunOk(s, r) && ListsOk(s, r);
    match op
    case CopySubs => CopySubsMoves(s, r);
    case Send(c) =>
      assert DeliveryOk(s, c) && StandingOk(s, c);
      SendPair(s, r, c);
      PairMoves(s, SendStep(s, r, c), r, c);
    case CloseLagged =>
      var c := s.runs[r].pc.victim;
      assert DeliveryOk(s, c) && StandingOk(s, c);
      CloseLaggedPair(s, r, c);
      PairMoves(s, CloseLaggedStep(s, r), r, c);
    case DropLock => DropLockMoves(s, r);
    case _ =>
      FanoutRun(s, r, op);
      RunMoves(s, FanoutStep(s, r, op), r);
  }

  lemma RunInv(s: State, r: RunId, op: RunOp)
    requires Inv(s) && RunEnabled(s, r, op)
    ensures Inv(RunStep(s, r, op))
  {
    assert RunOk(s, r) && ListsOk(s, r);
    match op
    case Teardown => TeardownMoves(s, r);
    case CloseSub(c) =>
      assert DeliveryOk(s, c) && StandingOk(s, c);
      CloseSubPair(s, r, c);
      PairMoves(s, CloseSubStep(s, r, c), r, c);
    case _ =>
      EndRun(s, r, op);
      RunMoves(s, RunStep(s, r, op), r);
  }

  /** Every action of every thread keeps the invariant. */
  lemma InvStep(s: State, a: Action)
    requires Inv(s) && Enabled(s, a)
    ensures Inv(Apply(s, a))
  {
    match a
    case EngineAppend(_) => AppendMoves(s, Apply(s, a));
    case ParentCancel => EnvironmentMoves(s, Apply(s, a));
    case RequestEnds(_) => EnvironmentMoves(s, Apply(s, a));
    case InAttach(c, op) => AttachInv(s, c, op);
    case InHandler(c, op) => HandlerMoves(s, c, op);
    case InDetach(c, op) => DetachInv(s, c, op);
    case InStream(r, op) => StreamInv(s, r, op);
    case InFanout(r, op) => FanoutInv(s, r, op);
    case InRun(r, op) => RunInv(s, r, op);
    case InStop(k, op) => StopMoves(s, k, op);
  }
}
