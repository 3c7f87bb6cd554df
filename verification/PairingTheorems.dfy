/** What holds of the device registry over every interleaving of requests. */
module PairingTheorems {
  import opened Prelude
  import opened DeviceStore
  import opened PairingModel
  import opened PairingInvariant

  ghost predicate Reachable(s: State) {
    exists actions :: Legal(INIT, actions) && Exec(INIT, actions) == s
  }

  lemma Invariant(s: State)
    requires Reachable(s)
    ensures Inv(s)
  {
    var actions :| Legal(INIT, actions) && Exec(INIT, actions) == s;
    InvInit();
    InvExec(INIT, actions);
  }

  // ------------------------------------------------------------- single use

  /**
   * However pairings, prunes and revocations interleave, no two requests ever redeem one mint, so
   * each minted code yields at most one device.
   */
  lemma SingleUse(s: State, i: nat, j: nat)
    requires Reachable(s) && i < |s.pairs| && j < |s.pairs|
    requires MintOf(s.pairs[i]).Some? && MintOf(s.pairs[i]) == MintOf(s.pairs[j])
    ensures i == j
  {
    Invariant(s);
    assert Spends(s.pairs, i, MintOf(s.pairs[i]).value);
    assert Spends(s.pairs, j, MintOf(s.pairs[i]).value);
  }

  /** A successful pairing's device exists, under the minted name, and holds the issued certificate. */
  lemma SuccessCarriesMint(s: State, i: nat)
    requires Reachable(s) && i < |s.pairs| && s.pairs[i].Paired?
    ensures var p := s.pairs[i];
            && p.mint < |s.t.minted| && p.id in s.t.devices && s.t.devices[p.id].name == s.t.minted[p.mint]
            && p.serial in s.t.certs && s.t.certs[p.serial].device == p.id
  {
    Invariant(s);
    assert PairOk(s.t, s.pairs[i]);
  }

  /** Every device row belongs to exactly one pairing: running, successful, or with a failed rollback. */
  lemma RowsAccountedFor(s: State, id: ID)
    requires Reachable(s)
    ensures id in s.t.devices <==> HasOwner(s.pairs, id)
    ensures forall i, j {:trigger Owns(s.pairs, i, id), Owns(s.pairs, j, id)} ::
              Owns(s.pairs, i, id) && Owns(s.pairs, j, id) ==> i == j
  {
    Invariant(s);
  }

  /** With no pairing in flight and every rollback done, the rows are those of the successful pairings. */
  lemma RowsAreSuccesses(s: State, id: ID)
    requires Reachable(s)
    requires forall i :: 0 <= i < |s.pairs| ==> s.pairs[i].Paired? || s.pairs[i].Refused?
    ensures id in s.t.devices <==> HasPaired(s.pairs, id)
  {
    RowsAccountedFor(s, id);
    if HasOwner(s.pairs, id) {
      var i :| Owns(s.pairs, i, id);
      assert PairedAt(s.pairs, i, id);
    }
    if HasPaired(s.pairs, id) {
      var i :| PairedAt(s.pairs, i, id);
      assert Owns(s.pairs, i, id);
    }
  }

  /** The rows a request relies on are never pulled from under it: only its own call can fail. */
  lemma NothingInterferes(s: State, i: nat, x: Input)
    requires Reachable(s) && Enabled(s, Pair(i, x)) && !x.fault
    ensures s.pairs[i].Redeemed? ==> PairStep(s.t, s.pairs[i], x).1.Renamed?
    ensures s.pairs[i].Issued? && s.pairs[i].serial !in s.t.certs ==> PairStep(s.t, s.pairs[i], x).1.Paired?
    ensures s.pairs[i].RollingBack? ==> PairStep(s.t, s.pairs[i], x).0.certs == s.t.certs
  {
    Invariant(s);
    if s.pairs[i].Redeemed? || s.pairs[i].Issued? {
      assert Owns(s.pairs, i, s.pairs[i].id);
    }
    if s.pairs[i].RollingBack? { RowInvDelete(s.t, s.pairs, i); }
  }

  // -------------------------------------------------------------- revocation

  predicate RevokedIn(t: Tables, id: ID, at: int) {
    id in t.devices && t.devices[id].revokedAt == Some(at)
  }

  /** Was the device's row missing at any point of the run? */
  predicate Gone(s: State, actions: seq<Action>, id: ID)
    requires Legal(s, actions)
    decreases |actions|
  {
    id !in s.t.devices || (actions != [] && Gone(Apply(s, actions[0]), actions[1..], id))
  }

  /** One step leaves a revocation as it is, or is the rollback of that device's own pairing. */
  lemma RevokedStep(s: State, a: Action, id: ID, at: int)
    requires Inv(s) && Enabled(s, a) && RevokedIn(s.t, id, at)
    ensures RevokedIn(Apply(s, a).t, id, at)
            || (id !in Apply(s, a).t.devices && forall c :: c in s.t.certs ==> s.t.certs[c].device != id)
  {
    if a.Pair? && s.pairs[a.req].RollingBack? && s.pairs[a.req].id == id {
      assert Owns(s.pairs, a.req, id);
      UnfinishedHasNoCert(s.t, s.pairs, a.req, id);
    }
  }

  /** Revocation never reverts and never moves: it lasts until the device's own pairing is undone. */
  lemma {:induction false} RevokedUntilGone(s: State, actions: seq<Action>, id: ID, at: int)
    requires Inv(s) && Legal(s, actions) && RevokedIn(s.t, id, at)
    ensures Gone(s, actions, id) || RevokedIn(Exec(s, actions).t, id, at)
    decreases |actions|
  {
    if actions != [] {
      InvStep(s, actions[0]);
      RevokedStep(s, actions[0], id, at);
      if RevokedIn(Apply(s, actions[0]).t, id, at) {
        RevokedUntilGone(Apply(s, actions[0]), actions[1..], id, at);
      } else {
        assert Gone(Apply(s, actions[0]), actions[1..], id);
      }
    }
  }

  lemma CertKept(s: State, a: Action, c: Serial)
    requires Inv(s) && Enabled(s, a) && c in s.t.certs
    ensures var t' := Apply(s, a).t;
            && c in t'.certs && t'.certs[c].device == s.t.certs[c].device
            && t'.certs[c].notAfter == s.t.certs[c].notAfter
  {
    if a.Pair? { PairKeepsCerts(s.t, s.pairs, a.req, a.x); }
  }

  /** A device that ever held a certificate keeps its row and that certificate for good. */
  lemma {:induction false} NeverGone(s: State, actions: seq<Action>, c: Serial)
    requires Inv(s) && Legal(s, actions) && c in s.t.certs
    ensures var t' := Exec(s, actions).t;
            && c in t'.certs && t'.certs[c].device == s.t.certs[c].device
            && t'.certs[c].notAfter == s.t.certs[c].notAfter
    ensures !Gone(s, actions, s.t.certs[c].device) && Inv(Exec(s, actions))
    decreases |actions|
  {
    CertHasRow(s, c);
    if actions != [] {
      InvStep(s, actions[0]);
      CertKept(s, actions[0], c);
      NeverGone(Apply(s, actions[0]), actions[1..], c);
    }
  }

  lemma CertHasRow(s: State, c: Serial)
    requires Inv(s) && c in s.t.certs
    ensures s.t.certs[c].device in s.t.devices
  {
    assert CertOk(s.t, s.pairs, c);
    var i :| PairedAt(s.pairs, i, s.t.certs[c].device);
    assert Owns(s.pairs, i, s.t.certs[c].device);
  }

  /**
   * Revocation is permanent and total. Once a device holding a certificate is revoked, in every
   * later state it is still revoked, since the same moment, and every certificate of it is
   * rejected: old ones, superseded ones, and those a renewal admitted earlier records afterwards.
   */
  lemma RevocationTotal(s: State, actions: seq<Action>, c: Serial, at: int, later: Serial)
    requires Reachable(s) && Legal(s, actions)
    requires c in s.t.certs && RevokedIn(s.t, s.t.certs[c].device, at)
    ensures var id := s.t.certs[c].device;
            var t' := Exec(s, actions).t;
            && RevokedIn(t', id, at)
            && (later in t'.certs && t'.certs[later].device == id ==> Authenticate(t', later) == Revoked(id))
            && StreamRevoked(t', id, false)
  {
    Invariant(s);
    NeverGone(s, actions, c);
    RevokedUntilGone(s, actions, s.t.certs[c].device, at);
  }

  /**
   * A device revoked while its pairing is still in flight stays revoked too: if that pairing
   * succeeds, with no rollback in between, the certificate it recorded is rejected.
   */
  lemma RevokedInFlight(s: State, actions: seq<Action>, id: ID, at: int, c: Serial)
    requires Reachable(s) && Legal(s, actions) && RevokedIn(s.t, id, at) && !Gone(s, actions, id)
    requires c in Exec(s, actions).t.certs && Exec(s, actions).t.certs[c].device == id
    ensures Authenticate(Exec(s, actions).t, c) == Revoked(id)
  {
    Invariant(s);
    RevokedUntilGone(s, actions, id, at);
  }

  /**
   * What the second statement of a revocation leaves, reported as success either way: nobody is
   * active under that id, nobody else's access changed, and the device is revoked if and only if
   * its row was still there.
   */
  lemma RevokeCommits(s: State, i: nat, now: int)
    requires Enabled(s, Revoke(i, now, false))
    ensures var s' := Apply(s, Revoke(i, now, false));
            var id := s.revokes[i].id;
            && s'.revokes[i] == Revoking(true)
            && (forall c :: Authenticate(s'.t, c) != Active(id))
            && (forall c :: c in s.t.certs && s.t.certs[c].device != id ==>
                  Authenticate(s'.t, c) == Authenticate(s.t, c))
            && ((exists at :: RevokedIn(s'.t, id, at)) <==> id in s.t.devices)
  {
    var t', id := Apply(s, Revoke(i, now, false)).t, s.revokes[i].id;
    if id in s.t.devices { assert RevokedIn(t', id, t'.devices[id].revokedAt.value); }
  }

  lemma {:induction false} ExecSnoc(s: State, actions: seq<Action>, a: Action)
    requires Legal(s, actions) && Enabled(Exec(s, actions), a)
    ensures Legal(s, actions + [a]) && Exec(s, actions + [a]) == Apply(Exec(s, actions), a)
    decreases |actions|
  {
    if actions == [] {
      assert [] + [a] == [a] && [a][1..] == [];
    } else {
      assert (actions + [a])[1..] == actions[1..] + [a];
      ExecSnoc(Apply(s, actions[0]), actions[1..], a);
    }
  }

  lemma ReachStep(s: State, a: Action)
    requires Reachable(s) && Enabled(s, a)
    ensures Reachable(Apply(s, a))
  {
    var actions :| Legal(INIT, actions) && Exec(INIT, actions) == s;
    ExecSnoc(INIT, actions, a);
  }

  /** A revocation whose EXISTS query found the row of a pairing still in flight. */
  lemma FoundInFlight(hash: Hash, id: ID, now: int) returns (s: State)
    ensures Reachable(s) && s.t.codes == map[] && s.t.certs == map[] && s.t.devices.Keys == {id}
    ensures s.pairs == [Created(hash, id)] && s.revokes == [Updating(id)]
  {
    var x := Input(id, "", now, now, false);
    assert Legal(INIT, []) && Exec(INIT, []) == INIT;
    ReachStep(INIT, BeginPair(hash));
    var begun := Apply(INIT, BeginPair(hash));
    ReachStep(begun, Pair(0, x));
    var created := Apply(begun, Pair(0, x));
    ReachStep(created, CheckRevoke(id));
    s := Apply(created, CheckRevoke(id));
  }

  /**
   * And the row can be gone: a pairing that is rolled back between the two statements leaves a
   * revocation that changes nothing and still reports success.
   */
  lemma RevokeMissesRow(hash: Hash, id: ID, now: int) returns (s: State)
    ensures Reachable(s) && Enabled(s, Revoke(0, now, false))
    ensures s.revokes[0] == Updating(id) && id !in s.t.devices
    ensures Apply(s, Revoke(0, now, false)) == s.(revokes := [Revoking(true)])
  {
    var x := Input(id, "", now, now, false);
    var found := FoundInFlight(hash, id, now);
    ReachStep(found, Pair(0, x));
    var refused := Apply(found, Pair(0, x));
    assert refused == found.(pairs := [RollingBack(id, None)]);
    ReachStep(refused, Pair(0, x));
    s := Apply(refused, Pair(0, x));
  }

  /** Renewal strands nobody: a certificate once recorded authenticates until its device is revoked. */
  lemma NeverStranded(s: State, actions: seq<Action>, c: Serial)
    requires Reachable(s) && Legal(s, actions) && c in s.t.certs
    ensures var t' := Exec(s, actions).t;
            var id := s.t.certs[c].device;
            && id in t'.devices && c in t'.certs && t'.certs[c].notAfter == s.t.certs[c].notAfter
            && Authenticate(t', c) == if t'.devices[id].revokedAt.Some? then Revoked(id) else Active(id)
  {
    Invariant(s);
    NeverGone(s, actions, c);
    CertHasRow(Exec(s, actions), c);
  }

  /** The stream re-check and the request check agree, except that a failed lookup spares the stream. */
  lemma StreamCheckAgrees(s: State, c: Serial, fault: bool)
    requires Reachable(s) && c in s.t.certs
    ensures StreamRevoked(s.t, s.t.certs[c].device, fault)
       <==> !fault && !Authenticate(s.t, c).Active?
  {
    Invariant(s);
    CertHasRow(s, c);
  }

  // ---------------------------------------------------------------- renewals

  datatype Reissue = Reissue(serial: Serial, notAfter: int, now: int)

  /** renewDevice run to its end, once per element, nothing of the same device in between. */
  function RenewAll(t: Tables, id: ID, ks: seq<Reissue>): Tables {
    if ks == [] then t
    else
      var k := ks[|ks| - 1];
      var recorded := RecordCert(RenewAll(t, id, ks[..|ks| - 1]), id, k.serial, k.notAfter, k.now).0;
      SupersedePrior(recorded, id, k.serial, k.now)
  }

  function Serials(ks: seq<Reissue>): set<Serial> { set k | k in ks :: k.serial }

  predicate FreshSerials(t: Tables, ks: seq<Reissue>) {
    && (forall i :: 0 <= i < |ks| ==> ks[i].serial !in t.certs)
    && (forall i, j :: 0 <= i < j < |ks| ==> ks[i].serial != ks[j].serial)
  }

  /** `added` joined the device's certificates; none was deleted, shortened or taken from another. */
  ghost predicate Extends(t: Tables, t': Tables, id: ID, added: set<Serial>) {
    && t'.devices == t.devices
    && t'.certs.Keys == t.certs.Keys + added
    && (forall c :: c in t.certs ==>
          t'.certs[c].notAfter == t.certs[c].notAfter && t'.certs[c].device == t.certs[c].device)
    && (forall c :: c in t.certs && t.certs[c].device != id ==> t'.certs[c] == t.certs[c])
    && (forall c :: c in t'.certs && c !in t.certs ==> t'.certs[c].device == id)
  }

  ghost predicate OnlyUnsuperseded(t: Tables, id: ID, newest: Serial) {
    forall c :: c in t.certs && t.certs[c].device == id ==> (t.certs[c].supersededAt.None? <==> c == newest)
  }

  lemma OneRenewal(t: Tables, id: ID, k: Reissue)
    requires id in t.devices && k.serial !in t.certs
    ensures var t' := SupersedePrior(RecordCert(t, id, k.serial, k.notAfter, k.now).0, id, k.serial, k.now);
            Extends(t, t', id, {k.serial}) && OnlyUnsuperseded(t', id, k.serial)
  {
  }

  lemma ExtendsTrans(t: Tables, u: Tables, v: Tables, id: ID, a: set<Serial>, b: set<Serial>)
    requires Extends(t, u, id, a) && Extends(u, v, id, b)
    ensures Extends(t, v, id, a + b)
  {
    forall c | c in v.certs && c !in t.certs
      ensures v.certs[c].device == id
    {
      if c in u.certs { assert u.certs[c].device == id; }
    }
  }

  /**
   * Sequential renewals delete nothing, shorten nothing, touch no other device, and leave exactly
   * the newest certificate of the device unsuperseded.
   */
  lemma {:induction false} SequentialRenewals(t: Tables, id: ID, ks: seq<Reissue>)
    requires id in t.devices && FreshSerials(t, ks)
    ensures Extends(t, RenewAll(t, id, ks), id, Serials(ks))
    ensures ks != [] ==> OnlyUnsuperseded(RenewAll(t, id, ks), id, ks[|ks| - 1].serial)
    decreases |ks|
  {
    if ks != [] {
      var init, k := ks[..|ks| - 1], ks[|ks| - 1];
      assert ks == init + [k];
      SequentialRenewals(t, id, init);
      assert Serials(ks) == Serials(init) + {k.serial};
      var u := RenewAll(t, id, init);
      assert k.serial !in Serials(init);
      OneRenewal(u, id, k);
      ExtendsTrans(t, u, RenewAll(t, id, ks), id, Serials(init), {k.serial});
    }
  }

  /**
   * In the machine: a renewal that finishes leaves no certificate of its device unsuperseded but
   * its own, which it does not touch, and no certificate of another device changed.
   */
  lemma RenewalSupersedes(s: State, i: nat, x: Input)
    requires Enabled(s, Renew(i, x)) && s.renewals[i].Recorded? && !x.fault
    ensures var r := s.renewals[i];
            var s' := Apply(s, Renew(i, x));
            && s'.renewals[i] == Renewed(r.id, r.serial) && s'.t.certs.Keys == s.t.certs.Keys
            && (forall c :: c in s'.t.certs && s'.t.certs[c].device == r.id && s'.t.certs[c].supersededAt.None? ==>
                  c == r.serial)
            && (forall c :: c in s.t.certs && (c == r.serial || s.t.certs[c].device != r.id) ==>
                  s'.t.certs[c] == s.t.certs[c])
  {
  }

  /**
   * Two renewals that overlap may supersede each other, and then no certificate of the device is
   * unsuperseded; both still authenticate.
   */
  lemma OverlappingRenewals(t: Tables, id: ID, a: Serial, b: Serial, notAfter: int, now: int)
    requires id in t.devices && t.devices[id].revokedAt.None? && a != b && a !in t.certs && b !in t.certs
    ensures var recorded := RecordCert(RecordCert(t, id, a, notAfter, now).0, id, b, notAfter, now).0;
            var t' := SupersedePrior(SupersedePrior(recorded, id, a, now), id, b, now);
            && (forall c :: c in t'.certs && t'.certs[c].device == id ==> t'.certs[c].supersededAt.Some?)
            && Authenticate(t', a) == Active(id) && Authenticate(t', b) == Active(id)
  {
    var recorded := RecordCert(RecordCert(t, id, a, notAfter, now).0, id, b, notAfter, now).0;
    assert recorded.certs.Keys == t.certs.Keys + {a, b};
    var t1 := SupersedePrior(recorded, id, a, now);
    assert t1.certs[b].supersededAt.Some?;
    var t' := SupersedePrior(t1, id, b, now);
    assert t'.certs[a].supersededAt.Some? && t'.certs[b].supersededAt.Some?;
  }

  // ------------------------------------------------------------ pruning codes

  /** The same tables, except that some expired codes have been pruned from `t'`. */
  ghost predicate Pruned(t: Tables, t': Tables, now: int) {
    && t' == t.(codes := t'.codes)
    && (forall h :: h in t'.codes ==> h in t.codes && t'.codes[h] == t.codes[h])
    && (forall h :: h in t.codes && h !in t'.codes ==> t.codes[h].expiresAt < Unix(now))
  }

  function Time(a: Action): Option<int> {
    match a
    case MintCode(_, _, now, _) => Some(now)
    case PruneCodes(now) => Some(now)
    case Pair(_, x) => Some(x.now)
    case Renew(_, x) => Some(x.now)
    case Revoke(_, now, _) => Some(now)
    case _ => None
  }

  function Clock(now: int, a: Action): int { if Time(a).Some? then Time(a).value else now }

  /** The store sees non-decreasing times, from `now` on. */
  predicate Timed(actions: seq<Action>, now: int)
    decreases |actions|
  {
    actions == [] || (now <= Clock(now, actions[0]) && Timed(actions[1..], Clock(now, actions[0])))
  }

  // ------------------------------------------------------- how long a code lives

  /** The step mints this hash anew or redeems its code. */
  predicate Touches(s: State, a: Action, hash: Hash)
    requires Enabled(s, a)
  {
    || (a.MintCode? && a.hash == hash && Apply(s, a).t.minted != s.t.minted)
    || (a.Pair? && s.pairs[a.req].Created? && s.pairs[a.req].hash == hash && Apply(s, a).pairs[a.req].Redeemed?)
  }

  predicate Untouched(s: State, actions: seq<Action>, hash: Hash)
    requires Legal(s, actions)
    decreases |actions|
  {
    actions == []
    || (!Touches(s, actions[0], hash) && Untouched(Apply(s, actions[0]), actions[1..], hash))
  }

  /** The moment of the run's last timed action. */
  function EndOf(actions: seq<Action>, now: int): int
    decreases |actions|
  {
    if actions == [] then now else EndOf(actions[1..], Clock(now, actions[0]))
  }

  /** The code is on file as it was minted, or has expired and been pruned. */
  predicate Keeps(t: Tables, hash: Hash, c: Code, now: int) {
    if hash in t.codes then t.codes[hash] == c else c.expiresAt < Unix(now)
  }

  lemma KeepsPair(t: Tables, p: Pairing, x: Input, hash: Hash, c: Code, now: int)
    requires Running(p) && Keeps(t, hash, c, now)
    requires p.Created? && p.hash == hash ==> !PairStep(t, p, x).1.Redeemed?
    ensures Keeps(PairStep(t, p, x).0, hash, c, now)
  {
  }

  lemma KeepsStep(s: State, a: Action, hash: Hash, c: Code, now: int)
    requires Enabled(s, a) && !Touches(s, a, hash) && Keeps(s.t, hash, c, now) && now <= Clock(now, a)
    ensures Keeps(Apply(s, a).t, hash, c, Clock(now, a))
  {
    UnixMonotone(now, Clock(now, a));
    if a.Pair? { KeepsPair(s.t, s.pairs[a.req], a.x, hash, c, Clock(now, a)); }
    if a.MintCode? && a.hash == hash { assert s.t.minted + [a.name] != s.t.minted; }
  }

  lemma {:induction false} KeepsRun(s: State, actions: seq<Action>, hash: Hash, c: Code, now: int)
    requires Legal(s, actions) && Timed(actions, now) && Untouched(s, actions, hash) && Keeps(s.t, hash, c, now)
    ensures Keeps(Exec(s, actions).t, hash, c, EndOf(actions, now)) && now <= EndOf(actions, now)
    decreases |actions|
  {
    if actions != [] {
      KeepsStep(s, actions[0], hash, c, now);
      KeepsRun(Apply(s, actions[0]), actions[1..], hash, c, Clock(now, actions[0]));
    }
  }

  /**
   * A minted code is good for its ttl and no longer. Whatever requests and prunes come in between,
   * as long as they do not redeem it or mint it again, a redemption that meets no fault succeeds,
   * under the minted name, if and only if its second lies before the second the ttl runs out.
   */
  lemma LivesItsTtl(s: State, hash: Hash, name: string, now: int, ttl: int, actions: seq<Action>, id: ID, x: Input)
    requires ttl > 0 && hash !in s.t.codes
    requires var minted := Apply(s, MintCode(hash, name, now, ttl));
             Legal(minted, actions) && Timed(actions, now) && Untouched(minted, actions, hash)
    requires EndOf(actions, now) <= x.now && !x.fault
    ensures
      var later := Exec(Apply(s, MintCode(hash, name, now, ttl)), actions);
      PairStep(later.t, Created(hash, id), x).1
        == if x.now / 1_000_000_000 < (now + ttl) / 1_000_000_000 then Redeemed(id, |s.t.minted|, name)
           else RollingBack(id, None)
  {
    var minted := Apply(s, MintCode(hash, name, now, ttl));
    var c := Code(name, Unix(now + ttl), None, None, |s.t.minted|);
    KeepsRun(minted, actions, hash, c, now);
    UnixMonotone(EndOf(actions, now), x.now);
  }

  /** No mint draws a code already drawn. */
  predicate FreshMints(actions: seq<Action>, known: set<Hash>)
    decreases |actions|
  {
    actions == []
    || (if actions[0].MintCode? then
          actions[0].hash !in known && FreshMints(actions[1..], known + {actions[0].hash})
        else FreshMints(actions[1..], known))
  }

  function WithoutPrunes(actions: seq<Action>): seq<Action>
    decreases |actions|
  {
    if actions == [] then []
    else if actions[0].PruneCodes? then WithoutPrunes(actions[1..])
    else [actions[0]] + WithoutPrunes(actions[1..])
  }

  lemma UnixMonotone(a: int, b: int)
    requires a <= b
    ensures Unix(a) <= Unix(b)
  {
  }

  lemma PruneHides(t: Tables, t': Tables, now: int, later: int)
    requires Pruned(t, t', now) && now <= later
    ensures Pruned(t, t', later) && Pruned(t, Prune(t', later), later)
  {
    UnixMonotone(now, later);
  }

  /** A redemption cannot tell: a pruned code had expired, so it was refused either way. */
  lemma RedeemBlind(t: Tables, t': Tables, hash: Hash, id: ID, now: int)
    requires Pruned(t, t', now)
    ensures Redeem(t, hash, id, now).1 == Redeem(t', hash, id, now).1
    ensures Pruned(Redeem(t, hash, id, now).0, Redeem(t', hash, id, now).0, now)
  {
  }

  /** A mint can tell exactly when it draws a pruned code again. */
  lemma MintBlindIff(t: Tables, t': Tables, hash: Hash, name: string, now: int, ttl: int)
    requires Pruned(t, t', now) && ttl > 0
    ensures Mint(t, hash, name, now, ttl).1 == Mint(t', hash, name, now, ttl).1
       <==> !(hash in t.codes && hash !in t'.codes)
    ensures hash !in t.codes ==> Pruned(Mint(t, hash, name, now, ttl).0, Mint(t', hash, name, now, ttl).0, now)
  {
    assert t'.codes.Keys <= t.codes.Keys;
  }

  ghost predicate Alike(s: State, s': State, now: int) {
    s' == s.(t := s'.t) && Pruned(s.t, s'.t, now)
  }

  lemma PairBlind(t: Tables, t': Tables, p: Pairing, x: Input)
    requires Pruned(t, t', x.now) && Running(p)
    ensures PairStep(t, p, x).1 == PairStep(t', p, x).1
    ensures Pruned(PairStep(t, p, x).0, PairStep(t', p, x).0, x.now)
  {
    if p.Created? { RedeemBlind(t, t', p.hash, p.id, x.now); }
  }

  lemma StepBlind(s: State, s': State, a: Action, now: int)
    requires Alike(s, s', Clock(now, a)) && !a.PruneCodes? && Enabled(s', a)
    requires a.MintCode? ==> a.hash !in s.t.codes
    ensures Enabled(s, a) && Alike(Apply(s, a), Apply(s', a), Clock(now, a))
  {
    match a {
      case MintCode(hash, name, at, ttl) =>
        if ttl > 0 { MintBlindIff(s.t, s'.t, hash, name, at, ttl); }
      case Pair(i, x) => PairBlind(s.t, s'.t, s.pairs[i], x);
      case _ =>
    }
  }

  lemma CodesKnown(s: State, a: Action, known: set<Hash>)
    requires Enabled(s, a) && s.t.codes.Keys <= known
    ensures Apply(s, a).t.codes.Keys <= if a.MintCode? then known + {a.hash} else known
  {
  }

  lemma {:induction false} PrunesUnobservable(s: State, s': State, actions: seq<Action>, now: int, known: set<Hash>)
    requires Alike(s, s', now) && Legal(s', actions) && Timed(actions, now)
    requires s.t.codes.Keys <= known && FreshMints(actions, known)
    ensures Legal(s, WithoutPrunes(actions))
    ensures var end, end' := Exec(s, WithoutPrunes(actions)), Exec(s', actions);
            end' == end.(t := end.t.(codes := end'.t.codes))
    decreases |actions|
  {
    if actions != [] {
      var a, rest := actions[0], actions[1..];
      var at := Clock(now, a);
      PruneHides(s.t, s'.t, now, at);
      if a.PruneCodes? {
        PrunesUnobservable(s, Apply(s', a), rest, at, known);
      } else {
        StepBlind(s, s', a, now);
        CodesKnown(s, a, known);
        PrunesUnobservable(Apply(s, a), Apply(s', a), rest, at, if a.MintCode? then known + {a.hash} else known);
        assert ([a] + WithoutPrunes(rest))[1..] == WithoutPrunes(rest);
      }
    }
  }

  /**
   * Pruning codes is unobservable: drop every prune from a run and all pairings, renewals,
   * revocations, devices and certificates come out the same.
   */
  lemma PruningUnobservable(actions: seq<Action>, start: int)
    requires Legal(INIT, actions) && Timed(actions, start) && FreshMints(actions, {})
    ensures Legal(INIT, WithoutPrunes(actions))
    ensures var end, end' := Exec(INIT, WithoutPrunes(actions)), Exec(INIT, actions);
            && end'.pairs == end.pairs && end'.renewals == end.renewals && end'.revokes == end.revokes
            && end'.t.devices == end.t.devices && end'.t.certs == end.t.certs
  {
    PrunesUnobservable(INIT, INIT, actions, start, {});
  }
}
