/**
 * The two-level budget for live streams (internal/httpapi/streambudget.go): a cap per device under
 * a global ceiling, with a release closure that works once.
 */
module StreamBudget {
  type DeviceID = string

  datatype Caps = Caps(maxTotal: int, maxPerDevice: int)
  datatype Outcome = Granted | DeviceFull | HostFull
  datatype Counts = Counts(byDevice: map<DeviceID, int>, total: int)

  function CountOf(c: Counts, d: DeviceID): int { if d in c.byDevice then c.byDevice[d] else 0 }

  function Acquire(caps: Caps, c: Counts, d: DeviceID): (Counts, Outcome) {
    if CountOf(c, d) >= caps.maxPerDevice then (c, DeviceFull)
    else if c.total >= caps.maxTotal then (c, HostFull)
    else (Counts(c.byDevice[d := CountOf(c, d) + 1], c.total + 1), Granted)
  }

  function Release(c: Counts, d: DeviceID): Counts {
    var n := CountOf(c, d) - 1;
    Counts(if n <= 0 then c.byDevice - {d} else c.byDevice[d := n], c.total - 1)
  }

  class Budget {
    var byDevice: map<DeviceID, int>
    var total: int
    const caps: Caps

    ghost function Now(): Counts
      reads this
    {
      Counts(byDevice, total)
    }

    constructor (caps: Caps)
      ensures this.caps == caps && Now() == Counts(map[], 0)
    {
      this.caps := caps;
      byDevice, total := map[], 0;
    }

    method TryAcquire(d: DeviceID) returns (release: ReleaseFunc?, outcome: Outcome)
      modifies this
      ensures (Now(), outcome) == Acquire(caps, old(Now()), d)
      ensures outcome.Granted? <==> release != null
      ensures release != null ==>
                fresh(release) && release.budget == this && release.device == d && !release.done
    {
      var held := if d in byDevice then byDevice[d] else 0;
      if held >= caps.maxPerDevice {
        return null, DeviceFull;
      }
      if total >= caps.maxTotal {
        return null, HostFull;
      }
      byDevice := byDevice[d := held + 1];
      total := total + 1;
      release := new ReleaseFunc(this, d);
      outcome := Granted;
    }

    method Holders() returns (snapshot: map<DeviceID, int>)
      ensures snapshot == byDevice
    {
      snapshot := map[];
      var rem := byDevice.Keys;
      while rem != {}
        invariant rem <= byDevice.Keys
        invariant snapshot.Keys == byDevice.Keys - rem
        invariant forall d :: d in snapshot ==> snapshot[d] == byDevice[d]
        decreases rem
      {
        var d :| d in rem;
        snapshot := snapshot[d := byDevice[d]];
        rem := rem - {d};
      }
    }
  }

  /** The closure `acquire` hands out; `done` is its sync.Once. */
  class ReleaseFunc {
    const budget: Budget
    const device: DeviceID
    var done: bool

    constructor (budget: Budget, device: DeviceID)
      ensures this.budget == budget && this.device == device && !done
    {
      this.budget, this.device, done := budget, device, false;
    }

    method Call()
      modifies this`done, budget`byDevice, budget`total
      ensures done
      ensures budget.Now() == if old(done) then old(budget.Now()) else Release(old(budget.Now()), device)
    {
      if done { return; }
      done := true;
      budget.total := budget.total - 1;
      var left := (if device in budget.byDevice then budget.byDevice[device] else 0) - 1;
      budget.byDevice := budget.byDevice[device := left];
      if left <= 0 {
        budget.byDevice := budget.byDevice - {device};
        assert budget.byDevice == old(budget.byDevice) - {device};
      }
    }
  }

  // -------------------------------------------------------------- any history

  /** A grant handed out, and whether its release has run. */
  datatype Grant = Grant(device: DeviceID, released: bool)

  datatype World = World(counts: Counts, grants: seq<Grant>)

  /** `Give(i)` runs the release of the i-th grant, for the first time or again. */
  datatype Op = Take(device: DeviceID) | Give(grant: nat)

  function Apply(caps: Caps, w: World, op: Op): World {
    match op
    case Take(d) =>
      var (c, outcome) := Acquire(caps, w.counts, d);
      World(c, if outcome.Granted? then w.grants + [Grant(d, false)] else w.grants)
    case Give(i) =>
      if i >= |w.grants| || w.grants[i].released then w
      else World(Release(w.counts, w.grants[i].device), w.grants[i := w.grants[i].(released := true)])
  }

  function Exec(caps: Caps, w: World, ops: seq<Op>): World
    decreases |ops|
  {
    if ops == [] then w else Exec(caps, Apply(caps, w, ops[0]), ops[1..])
  }

  const INIT := World(Counts(map[], 0), [])

  /** The unreleased grants of one device. */
  function Held(grants: seq<Grant>, d: DeviceID): nat {
    if grants == [] then 0
    else Held(grants[..|grants| - 1], d)
         + if grants[|grants| - 1] == Grant(d, false) then 1 else 0
  }

  /** The unreleased grants of every device. */
  function Live(grants: seq<Grant>): nat {
    if grants == [] then 0
    else Live(grants[..|grants| - 1]) + if grants[|grants| - 1].released then 0 else 1
  }

  lemma {:induction false} HeldAfterRelease(grants: seq<Grant>, i: nat, d: DeviceID)
    requires i < |grants| && !grants[i].released
    ensures Held(grants[i := grants[i].(released := true)], d)
         == Held(grants, d) - (if grants[i].device == d then 1 else 0)
    ensures Live(grants[i := grants[i].(released := true)]) == Live(grants) - 1
    decreases |grants|
  {
    var after := grants[i := grants[i].(released := true)];
    var last := |grants| - 1;
    if i == last {
      assert after[..last] == grants[..last];
    } else {
      assert after[..last] == grants[..last][i := grants[i].(released := true)];
      HeldAfterRelease(grants[..last], i, d);
    }
  }

  lemma HeldAfterGrant(grants: seq<Grant>, g: Grant, d: DeviceID)
    requires !g.released
    ensures Held(grants + [g], d) == Held(grants, d) + (if g.device == d then 1 else 0)
    ensures Live(grants + [g]) == Live(grants) + 1
  {
    assert (grants + [g])[..|grants|] == grants;
  }

  /** Counting per device adds up to counting all. */
  ghost function Sum(m: map<DeviceID, int>): int {
    if m == map[] then 0
    else
      var d :| d in m;
      m[d] + Sum(m - {d})
  }

  lemma {:induction false} SumAt(m: map<DeviceID, int>, d: DeviceID)
    requires d in m
    ensures Sum(m) == m[d] + Sum(m - {d})
    decreases |m|
  {
    var k :| k in m && Sum(m) == m[k] + Sum(m - {k});
    if k != d {
      SumAt(m - {k}, d);
      SumAt(m - {d}, k);
      assert m - {k} - {d} == m - {d} - {k};
    }
  }

  lemma SumPut(m: map<DeviceID, int>, d: DeviceID, n: int)
    ensures Sum(m[d := n]) == Sum(m) + n - (if d in m then m[d] else 0)
  {
    SumAt(m[d := n], d);
    assert m[d := n] - {d} == m - {d};
    if d in m { SumAt(m, d); } else { assert m - {d} == m; }
  }

  // ----------------------------------------------------------- the invariant

  /** The counters are the unreleased grants: per device, in total, and as a sum. */
  ghost predicate Conserved(caps: Caps, w: World) {
    && (forall d :: CountOf(w.counts, d) == Held(w.grants, d))
    && (forall d :: d in w.counts.byDevice ==> 1 <= w.counts.byDevice[d] <= caps.maxPerDevice)
    && w.counts.total == Live(w.grants) == Sum(w.counts.byDevice)
    && (w.counts.total <= caps.maxTotal || w.counts.total == 0)
  }

  lemma TakeConserves(caps: Caps, w: World, d: DeviceID)
    requires Conserved(caps, w)
    ensures Conserved(caps, Apply(caps, w, Take(d)))
  {
    forall k {
      HeldAfterGrant(w.grants, Grant(d, false), k);
    }
    SumPut(w.counts.byDevice, d, CountOf(w.counts, d) + 1);
    HeldAfterGrant(w.grants, Grant(d, false), d);
  }

  lemma GiveConserves(caps: Caps, w: World, i: nat)
    requires Conserved(caps, w)
    ensures Conserved(caps, Apply(caps, w, Give(i)))
  {
    if i < |w.grants| && !w.grants[i].released {
      var d := w.grants[i].device;
      var w' := Apply(caps, w, Give(i));
      assert CountOf(w.counts, d) == Held(w.grants, d);
      HeldAfterRelease(w.grants, i, d);
      forall k
        ensures CountOf(w'.counts, k) == Held(w'.grants, k)
      {
        assert CountOf(w.counts, k) == Held(w.grants, k);
        HeldAfterRelease(w.grants, i, k);
      }
      SumAt(w.counts.byDevice, d);
      SumPut(w.counts.byDevice, d, CountOf(w.counts, d) - 1);
    }
  }

  /** Over any acquires and any releases, repeated or not, no slot is lost and none is invented. */
  lemma {:induction false} Conservation(caps: Caps, w: World, ops: seq<Op>)
    requires Conserved(caps, w)
    ensures Conserved(caps, Exec(caps, w, ops))
    decreases |ops|
  {
    if ops != [] {
      match ops[0] {
        case Take(d) => TakeConserves(caps, w, d);
        case Give(i) => GiveConserves(caps, w, i);
      }
      Conservation(caps, Apply(caps, w, ops[0]), ops[1..]);
    }
  }

  /**
   * After any history the refusals are exact: a device is told it is full if and only if its own
   * unreleased grants fill its cap, and that the host is full if and only if they do not and every
   * global slot is held by an unreleased grant.
   */
  lemma RefusalsExact(caps: Caps, ops: seq<Op>, d: DeviceID)
    ensures var w := Exec(caps, INIT, ops);
            var outcome := Acquire(caps, w.counts, d).1;
            && (outcome.DeviceFull? <==> Held(w.grants, d) >= caps.maxPerDevice)
            && (outcome.HostFull? <==> Held(w.grants, d) < caps.maxPerDevice && Live(w.grants) >= caps.maxTotal)
  {
    Conservation(caps, INIT, ops);
  }

  lemma {:induction false} HeldZero(grants: seq<Grant>, d: DeviceID)
    requires Live(grants) == 0
    ensures Held(grants, d) == 0
    decreases |grants|
  {
    if grants != [] { HeldZero(grants[..|grants| - 1], d); }
  }

  /** Once every grant is released the budget is as new: nothing leaked, no entry left behind. */
  lemma AllReleasedIsNew(caps: Caps, ops: seq<Op>)
    requires forall i :: 0 <= i < |Exec(caps, INIT, ops).grants| ==> Exec(caps, INIT, ops).grants[i].released
    ensures Exec(caps, INIT, ops).counts == INIT.counts
  {
    var w := Exec(caps, INIT, ops);
    Conservation(caps, INIT, ops);
    NoneLive(w.grants);
    forall d {
      HeldZero(w.grants, d);
    }
    if d :| d in w.counts.byDevice {
      HeldZero(w.grants, d);
    }
  }

  lemma {:induction false} NoneLive(grants: seq<Grant>)
    requires forall i :: 0 <= i < |grants| ==> grants[i].released
    ensures Live(grants) == 0
    decreases |grants|
  {
    if grants != [] { NoneLive(grants[..|grants| - 1]); }
  }

  /** One device's grants never reach past its own cap, so others keep the rest of the host. */
  lemma NoStarvation(caps: Caps, ops: seq<Op>, d: DeviceID, other: DeviceID)
    requires d != other
    requires var w := Exec(caps, INIT, ops);
             Acquire(caps, w.counts, other).1.HostFull?
    ensures var w := Exec(caps, INIT, ops);
            var cap := if caps.maxPerDevice < 0 then 0 else caps.maxPerDevice;
            Live(w.grants) - Held(w.grants, d) >= caps.maxTotal - cap
  {
    Conservation(caps, INIT, ops);
    var w := Exec(caps, INIT, ops);
    assert CountOf(w.counts, d) == Held(w.grants, d);
  }
}
