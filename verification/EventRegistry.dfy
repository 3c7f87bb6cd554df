/**
 * One live event stream per device, the newest winning (internal/httpapi/eventregistry.go). The
 * class is the code; the machine below it interleaves any number of registrations and releases,
 * one action per critical section, channel close and cancel call.
 */
module EventRegistry {
  import opened Prelude

  type DeviceID = string

  // ------------------------------------------------------------------ the code

  class EventSlot {
    var cancelled: bool
    var superseded: bool
    var once: bool

    constructor ()
      ensures !cancelled && !superseded && !once
    {
      cancelled, superseded, once := false, false, false;
    }
  }

  class Registry {
    var active: map<DeviceID, EventSlot>

    /** A slot in the map has not been told to go; no slot serves two devices. */
    ghost predicate Valid()
      reads this, active.Values
    {
      && (forall d :: d in active ==> active[d] in active.Values && !active[d].superseded)
      && (forall d, e :: d in active && e in active && active[d] == active[e] ==> d == e)
    }

    constructor ()
      ensures Valid() && active == map[]
    {
      active := map[];
    }

    /** The evicted slot, if there was one, and no other, is superseded and then cancelled. */
    method Register(d: DeviceID) returns (slot: EventSlot)
      requires Valid()
      modifies this, if d in active then {active[d]} else {}
      ensures fresh(slot) && !slot.superseded && !slot.cancelled && !slot.once
      ensures Valid() && active == old(active)[d := slot]
      ensures d in old(active) ==> old(active)[d].superseded && old(active)[d].cancelled
    {
      slot := new EventSlot();
      var evicted := if d in active then Some(active[d]) else None;
      active := active[d := slot];
      if evicted.Some? {
        evicted.value.superseded := true;
        evicted.value.cancelled := true;
      }
    }

    /** The release closure of `slot`: it frees the device only while the slot is still its own. */
    method Release(d: DeviceID, slot: EventSlot)
      requires Valid()
      modifies this, slot`once
      ensures Valid() && slot.once
      ensures active == if !old(slot.once) && d in old(active) && old(active)[d] == slot
                        then old(active) - {d} else old(active)
    {
      if slot.once { return; }
      slot.once := true;
      if d in active && active[d] == slot {
        active := active - {d};
      }
    }
  }

  // --------------------------------------------------------------- the machine

  type SlotId = nat

  /** What the registering goroutine still owes the slot it evicted. */
  datatype RegisterPc = OwesClose(loser: SlotId) | OwesCancel(loser: SlotId) | Registered

  /**
   * `closes` counts closings of the superseded channel, of which a second would panic; `evictedBy`
   * names the registration that took the slot's place in the map.
   */
  datatype Slot = Slot(device: DeviceID, pc: RegisterPc, closes: nat, cancelled: bool, released: bool,
                       evictedBy: Option<SlotId>)

  datatype State = State(active: map<DeviceID, SlotId>, slots: seq<Slot>)

  const INIT := State(map[], [])

  datatype Action =
    | Register(device: DeviceID)
    | CloseLoser(slot: SlotId)
    | CancelLoser(slot: SlotId)
    | Release(slot: SlotId)

  predicate Enabled(s: State, a: Action) {
    match a
    case Register(_) => true
    case CloseLoser(n) => n < |s.slots| && s.slots[n].pc.OwesClose?
    case CancelLoser(n) => n < |s.slots| && s.slots[n].pc.OwesCancel?
    case Release(i) => i < |s.slots| && s.slots[i].pc.Registered?
  }

  function Apply(s: State, a: Action): State
    requires Enabled(s, a)
  {
    match a
    case Register(d) =>
      var n := |s.slots|;
      if d in s.active && s.active[d] < n then
        var i := s.active[d];
        State(s.active[d := n],
              s.slots[i := s.slots[i].(evictedBy := Some(n))] + [Slot(d, OwesClose(i), 0, false, false, None)])
      else State(s.active[d := n], s.slots + [Slot(d, Registered, 0, false, false, None)])
    case CloseLoser(n) =>
      var i := s.slots[n].pc.loser;
      var slots := s.slots[n := s.slots[n].(pc := OwesCancel(i))];
      s.(slots := if i < |slots| then slots[i := slots[i].(closes := slots[i].closes + 1)] else slots)
    case CancelLoser(n) =>
      var i := s.slots[n].pc.loser;
      var slots := s.slots[n := s.slots[n].(pc := Registered)];
      s.(slots := if i < |slots| then slots[i := slots[i].(cancelled := true)] else slots)
    case Release(i) =>
      if s.slots[i].released then s
      else
        var d := s.slots[i].device;
        State(if d in s.active && s.active[d] == i then s.active - {d} else s.active,
              s.slots[i := s.slots[i].(released := true)])
  }

  predicate Legal(s: State, actions: seq<Action>)
    decreases |actions|
  {
    actions == [] || (Enabled(s, actions[0]) && Legal(Apply(s, actions[0]), actions[1..]))
  }

  function Exec(s: State, actions: seq<Action>): State
    requires Legal(s, actions)
    decreases |actions|
  {
    if actions == [] then s else Exec(Apply(s, actions[0]), actions[1..])
  }

  // ------------------------------------------------------------- the invariant

  predicate IsActive(s: State, i: int) {
    0 <= i < |s.slots| && s.slots[i].device in s.active && s.active[s.slots[i].device] == i
  }

  predicate Same(s: State, i: int, j: int) {
    0 <= i < j < |s.slots| && s.slots[i].device == s.slots[j].device
  }

  predicate EntryOk(s: State, d: DeviceID)
    requires d in s.active
  {
    s.active[d] < |s.slots| && s.slots[s.active[d]].device == d
  }

  /** An evicted slot is told exactly as far as its evictor has got; any other is told nothing. */
  predicate SlotOk(s: State, i: int)
    requires 0 <= i < |s.slots|
  {
    var x := s.slots[i];
    && (IsActive(s, i) <==> x.evictedBy.None? && !x.released)
    && match x.evictedBy
       case None => x.closes == 0 && !x.cancelled
       case Some(n) =>
         && Same(s, i, n)
         && (s.slots[n].pc == OwesClose(i) ==> x.closes == 0 && !x.cancelled)
         && (s.slots[n].pc == OwesCancel(i) ==> x.closes == 1 && !x.cancelled)
         && (s.slots[n].pc == Registered ==> x.closes == 1 && x.cancelled)
  }

  predicate DebtOk(s: State, n: int)
    requires 0 <= n < |s.slots|
  {
    !s.slots[n].pc.Registered? ==>
      s.slots[n].pc.loser < |s.slots| && s.slots[s.slots[n].pc.loser].evictedBy == Some(n)
  }

  /** A registration that has evicted someone owes exactly that slot. */
  predicate CreditOk(s: State, i: int)
    requires 0 <= i < |s.slots|
  {
    s.slots[i].evictedBy.Some? ==>
      && s.slots[i].evictedBy.value < |s.slots|
      && (!s.slots[s.slots[i].evictedBy.value].pc.Registered? ==> s.slots[s.slots[i].evictedBy.value].pc.loser == i)
  }

  ghost predicate Inv(s: State) {
    && (forall d {:trigger EntryOk(s, d)} :: d in s.active ==> EntryOk(s, d))
    && (forall i {:trigger SlotOk(s, i)} :: 0 <= i < |s.slots| ==> SlotOk(s, i))
    && (forall n {:trigger DebtOk(s, n)} :: 0 <= n < |s.slots| ==> DebtOk(s, n))
    && (forall i {:trigger CreditOk(s, i)} :: 0 <= i < |s.slots| ==> CreditOk(s, i))
    && (forall i, j {:trigger Same(s, i, j)} :: Same(s, i, j) ==> !IsActive(s, i))
  }

  lemma InvRegister(s: State, d: DeviceID)
    requires Inv(s)
    ensures Inv(Apply(s, Register(d)))
  {
    var s' := Apply(s, Register(d));
    var n := |s.slots|;
    if d in s.active { assert EntryOk(s, d) && SlotOk(s, s.active[d]); }
    forall e | e in s'.active
      ensures EntryOk(s', e)
    {
      if e != d { assert EntryOk(s, e); }
    }
    forall i | 0 <= i < |s'.slots|
      ensures SlotOk(s', i) && DebtOk(s', i) && CreditOk(s', i)
    {
      if i < n {
        assert SlotOk(s, i) && DebtOk(s, i) && CreditOk(s, i);
        assert s'.slots[i].device == s.slots[i].device && s'.slots[i].pc == s.slots[i].pc;
      }
    }
    forall i, j | Same(s', i, j)
      ensures !IsActive(s', i)
    {
      if j < n { assert Same(s, i, j); }
    }
  }

  lemma InvTell(s: State, a: Action)
    requires Inv(s) && Enabled(s, a) && (a.CloseLoser? || a.CancelLoser?)
    ensures Inv(Apply(s, a))
  {
    var s' := Apply(s, a);
    var n := a.slot;
    assert DebtOk(s, n);
    var i := s.slots[n].pc.loser;
    assert SlotOk(s, i) && CreditOk(s, i) && Same(s, i, n);
    forall e | e in s'.active
      ensures EntryOk(s', e)
    {
      assert EntryOk(s, e);
    }
    forall j | 0 <= j < |s'.slots|
      ensures SlotOk(s', j) && DebtOk(s', j) && CreditOk(s', j)
    {
      assert SlotOk(s, j) && DebtOk(s, j) && CreditOk(s, j);
      assert IsActive(s', j) == IsActive(s, j);
    }
    forall j, k | Same(s', j, k)
      ensures !IsActive(s', j)
    {
      assert Same(s, j, k);
    }
  }

  lemma InvRelease(s: State, i: SlotId)
    requires Inv(s) && Enabled(s, Release(i))
    ensures Inv(Apply(s, Release(i)))
  {
    var s' := Apply(s, Release(i));
    assert SlotOk(s, i);
    forall e | e in s'.active
      ensures EntryOk(s', e)
    {
      assert EntryOk(s, e);
    }
    forall j | 0 <= j < |s'.slots|
      ensures SlotOk(s', j) && DebtOk(s', j) && CreditOk(s', j)
    {
      assert SlotOk(s, j) && DebtOk(s, j) && CreditOk(s, j);
    }
    forall j, k | Same(s', j, k)
      ensures !IsActive(s', j)
    {
      assert Same(s, j, k);
    }
  }

  lemma {:induction false} InvExec(s: State, actions: seq<Action>)
    requires Inv(s) && Legal(s, actions)
    ensures Inv(Exec(s, actions))
    decreases |actions|
  {
    if actions != [] {
      match actions[0] {
        case Register(d) => InvRegister(s, d);
        case Release(i) => InvRelease(s, i);
        case _ => InvTell(s, actions[0]);
      }
      InvExec(Apply(s, actions[0]), actions[1..]);
    }
  }

  ghost predicate Reachable(s: State) {
    exists actions :: Legal(INIT, actions) && Exec(INIT, actions) == s
  }

  lemma Invariant(s: State)
    requires Reachable(s)
    ensures Inv(s)
  {
    var actions :| Legal(INIT, actions) && Exec(INIT, actions) == s;
    InvExec(INIT, actions);
  }

  // --------------------------------------------------------------- the results

  /**
   * The newest registration of a device is the only one of that device that can be in the map, and
   * it is there exactly until its own release.
   */
  lemma NewestWins(s: State, i: SlotId)
    requires Reachable(s) && i < |s.slots|
    ensures IsActive(s, i) <==> !s.slots[i].released && s.slots[i].evictedBy.None?
    ensures IsActive(s, i) ==> forall j :: 0 <= j < |s.slots| && s.slots[j].device == s.slots[i].device ==>
                                 j <= i && (j < i ==> !IsActive(s, j))
  {
    Invariant(s);
    assert SlotOk(s, i);
    if IsActive(s, i) {
      forall j | 0 <= j < |s.slots| && s.slots[j].device == s.slots[i].device
        ensures j <= i && (j < i ==> !IsActive(s, j))
      {
        assert !Same(s, i, j);
      }
    }
  }

  /**
   * A slot's superseded channel is closed at most once, before its cancel is called, and only when
   * a newer registration of the same device evicted it; once that registration has returned it has
   * been closed and cancelled for certain.
   */
  lemma SupersededIffEvicted(s: State, i: SlotId)
    requires Reachable(s) && i < |s.slots|
    ensures var x := s.slots[i];
            && x.closes <= 1 && (x.cancelled ==> x.closes == 1)
            && (x.closes == 1 ==> x.evictedBy.Some?)
            && (x.evictedBy.Some? ==> Same(s, i, x.evictedBy.value))
            && (x.evictedBy.Some? && s.slots[x.evictedBy.value].pc.Registered? ==> x.closes == 1 && x.cancelled)
  {
    Invariant(s);
    assert SlotOk(s, i) && CreditOk(s, i);
  }

  /** Closing is always of an open channel: no interleaving panics. */
  lemma NeverClosesTwice(s: State, n: SlotId)
    requires Reachable(s) && Enabled(s, CloseLoser(n))
    ensures var i := s.slots[n].pc.loser;
            i < n && s.slots[i].closes == 0 && Apply(s, CloseLoser(n)).slots[i].closes == 1
  {
    Invariant(s);
    assert DebtOk(s, n);
    assert SlotOk(s, s.slots[n].pc.loser);
  }

  /** A superseded stream's release, first or repeated, leaves its successor in place. */
  lemma ReleaseSparesSuccessor(s: State, i: SlotId)
    requires Reachable(s) && Enabled(s, Release(i))
    ensures var s' := Apply(s, Release(i));
            && (s.slots[i].evictedBy.Some? || s.slots[i].released ==> s'.active == s.active)
            && (forall j :: j != i && IsActive(s, j) ==> IsActive(s', j))
            && !IsActive(s', i) && Apply(s', Release(i)) == s'
  {
    Invariant(s);
    assert SlotOk(s, i);
  }
}
