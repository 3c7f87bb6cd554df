/**
 * The event hub's own code, in its imperative form: the critical sections that
 * update its fields, each proved equal to the section HubModel's machine takes
 * as one step, and fanout's loop when nothing interrupts it.
 */
module EventHub {
  import opened Prelude
  import opened ContainerEvents
  import opened HubModel

  class EventSubscriber {
    const id: ClientId
    const cap: nat
    var events: seq<ContainerEvent>     // the channel's buffer, at most cap long
    var closed: seq<CloseReason>        // the buffered-1 channel
    var once: bool

    constructor (id: ClientId, cap: nat)
      ensures this.id == id && this.cap == cap
      ensures events == [] && closed == [] && !once
    {
      this.id, this.cap := id, cap;
      events, closed, once := [], [], false;
    }

    /** This subscriber's part of a client record. */
    ghost function Record(client: Client): Client
      reads this
    {
      client.(once := once, reasons := closed)
    }

    method Close(reason: CloseReason)
      modifies this`once, this`closed
      ensures forall client: Client :: Record(client) == CloseSubscriber(old(Record(client)), reason)
    {
      if !once {
        once := true;
        if |closed| < 1 {
          closed := closed + [reason];
        }
      }
    }

    /** The non-blocking send of fanout's select. */
    method Offer(ev: ContainerEvent) returns (sent: bool)
      modifies this`events
      ensures sent <==> |old(events)| < cap
      ensures events == if sent then old(events) + [ev] else old(events)
    {
      sent := |events| < cap;
      if sent {
        events := events + [ev];
      }
    }
  }

  class EventHub {
    var subs: set<EventSubscriber>
    var running: bool
    var ready: Option<RunId>
    var failed: Option<RunId>
    var runErr: Option<StreamError>
    var cancel: Option<RunId>

    constructor ()
      ensures subs == {} && Fields() == IDLE_HUB && Distinct()
    {
      subs, running := {}, false;
      ready, failed, runErr, cancel := None, None, None, None;
    }

    /** The record of HubModel these fields stand for. */
    ghost function Fields(): Hub
      reads this
    {
      Hub(set sub | sub in subs :: sub.id, running, ready, failed, runErr, cancel)
    }

    /** A subscriber is the only one of its client. */
    ghost predicate Distinct()
      reads this
    {
      forall a, b :: a in subs && b in subs && a.id == b.id ==> a == b
    }

    /** attach, up to the first unlock. */
    method Register(sub: EventSubscriber, next: RunId)
      returns (started: bool, readyCh: Option<RunId>, failedCh: Option<RunId>)
      requires Distinct() && forall other :: other in subs ==> other.id != sub.id
      modifies this
      ensures Distinct()
      ensures Fields() == AttachSection(old(Fields()), sub.id, next)
      ensures started == !old(running)
      ensures readyCh == ready && failedCh == failed
    {
      subs := subs + {sub};
      started := !running;
      if !running {
        running := true;
        runErr := None;
        ready, failed := Some(next), Some(next);
        cancel := Some(next);
      }
      readyCh, failedCh := ready, failed;
    }

    /** detach, up to the unlock. */
    method Unregister(sub: EventSubscriber) returns (last: bool, captured: Option<RunId>)
      requires Distinct() && forall other :: other in subs && other.id == sub.id ==> other == sub
      modifies this`subs
      ensures Distinct()
      ensures subs == old(subs) - {sub}
      ensures (Fields(), last) == DetachSection(old(Fields()), sub.id)
      ensures last <==> sub in old(subs) && subs == {} && running
      ensures captured == cancel
    {
      ghost var before := Fields();
      captured := cancel;
      if sub !in subs {
        last := false;
        return;
      }
      assert sub.id in before.subs;
      subs := subs - {sub};
      last := subs == {} && running;
      assert Fields().subs == before.subs - {sub.id};
      assert subs == {} <==> Fields().subs == {} by {
        if s :| s in subs { assert s.id in Fields().subs; }
      }
    }

    /** run, from the lock to the unlock after StreamContainerEvents has returned. */
    method TearDown(err: Option<StreamError>)
      returns (failedCh: Option<RunId>, list: set<EventSubscriber>)
      modifies this
      ensures Fields() == TeardownSection(old(Fields()), err) && Distinct()
      ensures failedCh == old(failed) && list == old(subs)
    {
      runErr := err;
      failedCh, list := failed, subs;
      subs := {};
      running := false;
      cancel := None;
    }

    /** run's last loop: every subscriber of the finished run is told. */
    method CloseAll(list: set<EventSubscriber>)
      modifies list
      ensures forall sub :: sub in list ==>
                sub.once && sub.closed == if old(sub.once) || |old(sub.closed)| >= 1 then old(sub.closed)
                                          else [EngineGone]
      ensures forall sub :: sub in list ==> sub.events == old(sub.events)
    {
      var rem := list;
      while rem != {}
        invariant rem <= list
        invariant forall sub :: sub in rem ==>
                    sub.once == old(sub.once) && sub.closed == old(sub.closed) && sub.events == old(sub.events)
        invariant forall sub :: sub in list - rem ==>
                    && sub.events == old(sub.events) && sub.once
                    && sub.closed == if old(sub.once) || |old(sub.closed)| >= 1 then old(sub.closed)
                                     else [EngineGone]
        decreases rem
      {
        var sub :| sub in rem;
        ghost var any := Client(Gone, 0, 0, [], 0, false, [], None);
        assert sub.Record(any) == any.(once := old(sub.once), reasons := old(sub.closed));
        sub.Close(EngineGone);
        assert sub.Record(any).once;
        assert sub.Record(any).reasons == sub.closed;
        rem := rem - {sub};
      }
    }

    /**
     * One turn of fanout's loop: hand `ev` over, or drop the subscriber that has no room. On the
     * fields and on the subscriber this is what the machine's own steps do (ServeIsSend,
     * ServeIsDrop).
     */
    method Serve(sub: EventSubscriber, ev: ContainerEvent) returns (cancelled: seq<Option<RunId>>)
      requires Distinct() && sub in subs
      modifies this`subs, sub
      ensures Distinct()
      ensures |old(sub.events)| < sub.cap ==>
                && Fields() == old(Fields())
                && forall client: Client :: sub.Record(client) == old(sub.Record(client))
      ensures |old(sub.events)| >= sub.cap ==>
                && Fields() == DetachSection(old(Fields()), sub.id).0
                && cancelled == (if DetachSection(old(Fields()), sub.id).1 then [old(cancel)] else [])
                && forall client: Client :: sub.Record(client) == CloseSubscriber(old(sub.Record(client)), Lagged)
      ensures |old(sub.events)| < sub.cap ==>
                && subs == old(subs) && sub.events == old(sub.events) + [ev]
                && sub.once == old(sub.once) && sub.closed == old(sub.closed)
      ensures |old(sub.events)| >= sub.cap ==>
                && subs == old(subs) - {sub} && sub.events == old(sub.events)
                && sub.once && (!old(sub.once) && old(sub.closed) == [] ==> sub.closed == [Lagged])
      ensures cancelled == if subs == {} && running then [cancel] else []
    {
      cancelled := [];
      var sent := sub.Offer(ev);
      if !sent {
        ghost var any := Client(Gone, 0, 0, [], 0, false, [], None);
        assert sub.Record(any) == any.(once := old(sub.once), reasons := old(sub.closed));
        sub.Close(Lagged);
        assert sub.Record(any).once && sub.Record(any).reasons == sub.closed;
        var last, captured := Unregister(sub);
        if last {
          cancelled := [captured];
        }
      }
    }

    /**
     * fanout, with no other thread running: every subscriber with room gets
     * the event, every other is dropped and told so, and the subscription is
     * cancelled exactly when the last subscriber was dropped.
     */
    method Fanout(ev: ContainerEvent) returns (cancelled: seq<Option<RunId>>)
      requires Distinct()
      modifies this`subs, subs
      ensures Distinct()
      ensures forall sub :: sub in old(subs) && |old(sub.events)| < sub.cap ==>
                sub in subs && sub.events == old(sub.events) + [ev]
                && sub.once == old(sub.once) && sub.closed == old(sub.closed)
      ensures forall sub :: sub in old(subs) && |old(sub.events)| >= sub.cap ==>
                sub !in subs && sub.events == old(sub.events)
                && sub.once && (!old(sub.once) && old(sub.closed) == [] ==> sub.closed == [Lagged])
      ensures subs <= old(subs)
      ensures cancelled == if old(subs) != {} && subs == {} && running then [cancel] else []
    {
      var all := subs;
      var rem := all;
      cancelled := [];
      while rem != {}
        invariant rem <= all && rem <= subs <= all && Distinct()
        invariant forall sub :: sub in rem ==>
                    sub.once == old(sub.once) && sub.closed == old(sub.closed) && sub.events == old(sub.events)
        invariant forall sub :: sub in all - rem && |old(sub.events)| < sub.cap ==>
                    sub in subs && sub.events == old(sub.events) + [ev]
                    && sub.once == old(sub.once) && sub.closed == old(sub.closed)
        invariant forall sub :: sub in all - rem && |old(sub.events)| >= sub.cap ==>
                    sub !in subs && sub.events == old(sub.events)
                    && sub.once && (!old(sub.once) && old(sub.closed) == [] ==> sub.closed == [Lagged])
        invariant cancelled == if all != {} && subs == {} && running then [cancel] else []
        decreases rem
      {
        var sub :| sub in rem;
        var turn := Serve(sub, ev);
        cancelled := cancelled + turn;
        rem := rem - {sub};
      }
    }
  }

  // -------------------------------------------------- the same turn in the machine

  /** With room: one machine step appends the event, keeps the rest of the record and the fields. */
  lemma ServeIsSend(s: State, r: RunId, c: ClientId)
    requires FanoutEnabled(s, r, Send(c))
    ensures
      var s' := FanoutStep(s, r, Send(c));
      && s'.hub == s.hub
      && s'.clients == s.clients[c := s.clients[c].(delivered := s.clients[c].delivered + [s.runs[r].pc.ev])]
      && s'.runs == s.runs[r := s.runs[r].(pc := Sending(s.runs[r].pc.ev, s.runs[r].pc.rem - {c}))]
  {
  }

  /** Without room: three machine steps, each possible after the one before, close and drop it. */
  lemma ServeIsDrop(s: State, r: RunId, c: ClientId)
    requires FanoutEnabled(s, r, Overflow(c))
    ensures
      var s1 := FanoutStep(s, r, Overflow(c));
      && FanoutEnabled(s1, r, CloseLagged)
      && var s2 := FanoutStep(s1, r, CloseLagged);
      && FanoutEnabled(s2, r, DropLock)
      && var s3 := FanoutStep(s2, r, DropLock);
      var (hub, last) := DetachSection(s.hub, c);
      && s3.hub == hub
      && s3.clients == s.clients[c := CloseSubscriber(s.clients[c], Lagged)]
      && r < |s3.runs|
      && s3.runs[r].pc == (if last then DropCancel(s.runs[r].pc.ev, s.runs[r].pc.rem - {c}, s.hub.cancel)
                           else Sending(s.runs[r].pc.ev, s.runs[r].pc.rem - {c}))
  {
    var ev, rem := s.runs[r].pc.ev, s.runs[r].pc.rem - {c};
    var s1 := FanoutStep(s, r, Overflow(c));
    assert s1.clients == s.clients && s1.hub == s.hub && s1.runs[r].pc == Overflowed(ev, rem, c);
    var s2 := FanoutStep(s1, r, CloseLagged);
    assert s2 == CloseLaggedStep(s1, r);
    assert s2.hub == s.hub && s2.runs[r].pc == Dropping(ev, rem, c);
    var s3 := FanoutStep(s2, r, DropLock);
    assert s3 == DropLockStep(s2, r);
  }
}
