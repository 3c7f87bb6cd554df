/**
 * What one request comes to, in terms of the rows it finds and leaves: a pairing, a renewal or a
 * revocation from its first step to its last, and the rules of the tables every step respects.
 */
module PairingOutcomes {
  import opened Prelude
  import opened DeviceStore
  import opened PairingModel
  import opened PairingTheorems

  // ---------------------------------------------------------- one pairing, alone

  /** How many steps a pairing has at most before it. */
  function Left(p: Pairing): nat {
    match p
    case Begun(_) => 6
    case Created(_, _) => 5
    case Redeemed(_, _, _) => 4
    case Renamed(_, _) => 3
    case Issued(_, _, _) => 2
    case RollingBack(_, _) => 1
    case _ => 0
  }

  /** Its steps with nothing in between; `faults[k]` fails the k-th call and `undo` the rollback. */
  function PairAlone(t: Tables, p: Pairing, x: Input, faults: seq<bool>, undo: bool): (Tables, Pairing)
    requires |faults| == 5
    decreases Left(p)
  {
    if Left(p) == 0 then (t, p)
    else
      var (t', p') := PairStep(t, p, x.(fault := if p.RollingBack? then undo else faults[6 - Left(p)]));
      PairAlone(t', p', x, faults, undo)
  }

  /** The device row a pairing leaves whose rollback failed: under its own name once it was renamed. */
  function OrphanRow(t: Tables, hash: Hash, x: Input, renamed: bool): Device
    requires renamed ==> hash in t.codes
  {
    Device(if renamed then t.codes[hash].name else "pending", x.now / 1_000_000_000, None)
  }

  /** The code of a pairing that got as far as redeeming it. */
  function Spent(t: Tables, hash: Hash, x: Input): Tables
    requires hash in t.codes
  {
    t.(codes := t.codes[hash := t.codes[hash].(usedAt := Some(x.now / 1_000_000_000), usedBy := Some(x.id))])
  }

  predicate CertsHaveRows(t: Tables) { forall s :: s in t.certs ==> t.certs[s].device in t.devices }

  /** From an issued certificate on: record it or take the row back. */
  lemma IssuedAlone(t: Tables, x: Input, m: nat, faults: seq<bool>, undo: bool)
    requires |faults| == 5 && x.id in t.devices && forall s :: s in t.certs ==> t.certs[s].device != x.id
    ensures
      PairAlone(t, Issued(x.id, m, x.serial), x, faults, undo)
      == if !faults[4] && x.serial !in t.certs then
           (t.(certs := t.certs[x.serial := Cert(x.id, x.notAfter / 1_000_000_000, x.now / 1_000_000_000, None)]),
            Paired(x.id, m, x.serial))
         else if undo then (t, Orphaned(x.id, Some(m)))
         else (t.(devices := t.devices - {x.id}), Refused(Some(m)))
  {
    assert DeleteDevice(t, x.id).certs == t.certs;
    Rollback(t, x, Some(m), faults, undo);
    assert Left(Issued(x.id, m, x.serial)) == 2;
  }

  /** From a spent code on: rename, issue, record, or take the row back. */
  lemma RedeemedAlone(t: Tables, x: Input, m: nat, name: string, faults: seq<bool>, undo: bool)
    requires |faults| == 5 && x.id in t.devices && forall s :: s in t.certs ==> t.certs[s].device != x.id
    ensures
      var (t', p') := PairAlone(t, Redeemed(x.id, m, name), x, faults, undo);
      if !faults[2] && !faults[3] && !faults[4] && x.serial !in t.certs then
        && p' == Paired(x.id, m, x.serial)
        && t' == t.(devices := t.devices[x.id := t.devices[x.id].(name := name)],
                    certs := t.certs[x.serial := Cert(x.id, x.notAfter / 1_000_000_000,
                                                      x.now / 1_000_000_000, None)])
      else if undo then
        && p' == Orphaned(x.id, Some(m))
        && t' == if faults[2] then t else t.(devices := t.devices[x.id := t.devices[x.id].(name := name)])
      else p' == Refused(Some(m)) && t' == t.(devices := t.devices - {x.id})
  {
    var renamed := t.(devices := t.devices[x.id := t.devices[x.id].(name := name)]);
    assert renamed.devices - {x.id} == t.devices - {x.id};
    assert DeleteDevice(t, x.id).certs == t.certs;
    Rollback(t, x, Some(m), faults, undo);
    Rollback(renamed, x, Some(m), faults, undo);
    AloneStep(t, Redeemed(x.id, m, name), x, faults, undo);
    AloneStep(renamed, Renamed(x.id, m), x, faults, undo);
    IssuedAlone(renamed, x, m, faults, undo);
  }

  lemma AloneStep(t: Tables, p: Pairing, x: Input, faults: seq<bool>, undo: bool)
    requires |faults| == 5 && Left(p) > 1
    ensures var (t', p') := PairStep(t, p, x.(fault := faults[6 - Left(p)]));
            PairAlone(t, p, x, faults, undo) == PairAlone(t', p', x, faults, undo)
  {
  }

  lemma Rollback(t: Tables, x: Input, spent: Option<nat>, faults: seq<bool>, undo: bool)
    requires |faults| == 5
    ensures PairAlone(t, RollingBack(x.id, spent), x, faults, undo)
         == if undo then (t, Orphaned(x.id, spent)) else (DeleteDevice(t, x.id), Refused(spent))
  {
  }

  /** A code that is not live, or a failing redemption: take the row back. */
  lemma UnredeemedAlone(t: Tables, hash: Hash, x: Input, faults: seq<bool>, undo: bool)
    requires |faults| == 5 && forall s :: s in t.certs ==> t.certs[s].device != x.id
    requires faults[1] || hash !in t.codes || !Redeemable(t.codes[hash], x.now)
    ensures PairAlone(t, Created(hash, x.id), x, faults, undo)
         == if undo then (t, Orphaned(x.id, None)) else (t.(devices := t.devices - {x.id}), Refused(None))
  {
    assert DeleteDevice(t, x.id).certs == t.certs;
    AloneStep(t, Created(hash, x.id), x, faults, undo);
    Rollback(t, x, None, faults, undo);
  }

  /**
   * A pairing from start to end. It succeeds exactly when no call fails, its two random names are
   * new and the code is live, and then adds one device and one certificate. A failure whose
   * rollback works leaves nothing, or just the spent code when it came after the redemption; one
   * whose rollback fails leaves the device row as well, still called "pending" unless it was renamed.
   */
  lemma PairingAlone(t: Tables, hash: Hash, x: Input, faults: seq<bool>, undo: bool)
    requires |faults| == 5 && CertsHaveRows(t)
    ensures
      var (t', p') := PairAlone(t, Begun(hash), x, faults, undo);
      var created := !faults[0] && x.id !in t.devices;
      var redeemed := created && !faults[1] && hash in t.codes && t.codes[hash].usedAt.None?
                      && x.now / 1_000_000_000 < t.codes[hash].expiresAt;
      var left := if redeemed then Spent(t, hash, x) else t;
      var mint := if redeemed then Some(t.codes[hash].mint) else None;
      if redeemed && !faults[2] && !faults[3] && !faults[4] && x.serial !in t.certs then
        && p' == Paired(x.id, mint.value, x.serial)
        && t' == left.(devices := t.devices[x.id := OrphanRow(t, hash, x, true)],
                       certs := t.certs[x.serial := Cert(x.id, x.notAfter / 1_000_000_000,
                                                         x.now / 1_000_000_000, None)])
      else if created && undo then
        && p' == Orphaned(x.id, mint)
        && t' == left.(devices := t.devices[x.id := OrphanRow(t, hash, x, redeemed && !faults[2])])
      else p' == Refused(mint) && t' == left
  {
    if !faults[0] && x.id !in t.devices {
      var row := OrphanRow(t, hash, x, false);
      var created := t.(devices := t.devices[x.id := row]);
      assert created.devices - {x.id} == t.devices;
      AloneStep(t, Begun(hash), x, faults, undo);
      if !faults[1] && hash in t.codes && Redeemable(t.codes[hash], x.now) {
        var spent := Spent(created, hash, x);
        AloneStep(created, Created(hash, x.id), x, faults, undo);
        RedeemedAlone(spent, x, t.codes[hash].mint, t.codes[hash].name, faults, undo);
        assert spent.devices[x.id := row.(name := t.codes[hash].name)]
            == t.devices[x.id := OrphanRow(t, hash, x, true)];
      } else {
        UnredeemedAlone(created, hash, x, faults, undo);
      }
    }
  }

  // ---------------------------------------------------------- one renewal, alone

  function RenewLeft(r: Renewal): nat {
    match r
    case Admitted(_) => 3
    case Reissued(_, _) => 2
    case Recorded(_, _) => 1
    case _ => 0
  }

  function RenewAlone(t: Tables, r: Renewal, x: Input, faults: seq<bool>): (Tables, Renewal)
    requires |faults| == 3
    decreases RenewLeft(r)
  {
    if RenewLeft(r) == 0 then (t, r)
    else
      var (t', r') := RenewStep(t, r, x.(fault := faults[3 - RenewLeft(r)]));
      RenewAlone(t', r', x, faults)
  }

  /**
   * A renewal from start to end. The new certificate is on record exactly when the first two calls
   * work, the serial is new and the device is there; the renewal succeeds when the third works too,
   * and only then do the device's other unsuperseded certificates get the time of it. Nothing else
   * about any certificate changes.
   */
  lemma RenewalAlone(t: Tables, id: ID, x: Input, faults: seq<bool>)
    requires |faults| == 3
    ensures
      var (t', r') := RenewAlone(t, Admitted(id), x, faults);
      var recorded := !faults[0] && !faults[1] && x.serial !in t.certs && id in t.devices;
      && (t'.codes, t'.devices, t'.minted) == (t.codes, t.devices, t.minted)
      && r' == (if recorded && !faults[2] then Renewed(id, x.serial) else RenewFailed)
      && t'.certs.Keys == t.certs.Keys + (if recorded then {x.serial} else {})
      && (recorded ==>
            t'.certs[x.serial] == Cert(id, x.notAfter / 1_000_000_000, x.now / 1_000_000_000, None))
      && forall c :: c in t.certs ==>
           t'.certs[c] == if r'.Renewed? && t.certs[c].device == id && t.certs[c].supersededAt.None?
                          then t.certs[c].(supersededAt := Some(x.now / 1_000_000_000)) else t.certs[c]
  {
    var second := RecordCert(t, id, x.serial, x.notAfter, x.now).0;
    RenewAloneStep(t, Admitted(id), x, faults);
    RenewAloneStep(t, Reissued(id, x.serial), x, faults);
    RenewAloneStep(second, Recorded(id, x.serial), x, faults);
  }

  lemma RenewAloneStep(t: Tables, r: Renewal, x: Input, faults: seq<bool>)
    requires |faults| == 3 && Renewing(r)
    ensures var (t', r') := RenewStep(t, r, x.(fault := faults[3 - RenewLeft(r)]));
            RenewAlone(t, r, x, faults) == RenewAlone(t', r', x, faults)
    ensures RenewAlone(t, RenewFailed, x, faults) == (t, RenewFailed)
  {
  }

  // ------------------------------------------------------------------ revocation

  predicate Leaves(actions: seq<Action>, i: nat) { forall a :: a in actions && a.Revoke? ==> a.req != i }

  lemma {:induction false} RevocationWaits(s: State, actions: seq<Action>, i: nat)
    requires Legal(s, actions) && i < |s.revokes| && Leaves(actions, i)
    ensures i < |Exec(s, actions).revokes| && Exec(s, actions).revokes[i] == s.revokes[i]
    decreases |actions|
  {
    if actions != [] {
      assert actions[0] in actions;
      RevocationWaits(Apply(s, actions[0]), actions[1..], i);
    }
  }

  /**
   * What a revocation answers, whatever happens between its two statements: it fails when the row
   * was not there at the first or when the second failed, and then changed nothing. Otherwise it
   * stamps the row, if that is still there, with the time of the first revocation to reach it.
   */
  lemma RevokeReports(s: State, id: ID, actions: seq<Action>, now: int, fault: bool)
    requires Legal(Apply(s, CheckRevoke(id)), actions) && Leaves(actions, |s.revokes|)
    ensures
      var i, later := |s.revokes|, Exec(Apply(s, CheckRevoke(id)), actions);
      && i < |later.revokes|
      && (id !in s.t.devices ==> later.revokes[i] == Revoking(false) && !Enabled(later, Revoke(i, now, fault)))
      && (id in s.t.devices ==>
            && Enabled(later, Revoke(i, now, fault))
            && var s' := Apply(later, Revoke(i, now, fault));
            && s'.revokes[i] == Revoking(!fault)
            && (fault || id !in later.t.devices ==> s'.t == later.t)
            && (!fault && id in later.t.devices ==>
                  var row := later.t.devices[id];
                  s'.t == later.t.(devices := later.t.devices[id := row.(revokedAt :=
                            if row.revokedAt.Some? then row.revokedAt else Some(now / 1_000_000_000))])))
  {
    var checked := Apply(s, CheckRevoke(id));
    RevocationWaits(checked, actions, |s.revokes|);
    var later := Exec(checked, actions);
    if id in later.t.devices {
      assert later.t.devices[id := later.t.devices[id]] == later.t.devices;
      assert later.t.devices[id].(revokedAt := later.t.devices[id].revokedAt) == later.t.devices[id];
    }
  }

  /** Only a device that is not revoked can begin a renewal, whatever certificate of it is shown. */
  lemma RenewalNeedsAccess(s: State, c: Serial)
    requires Reachable(s)
    ensures Enabled(s, BeginRenew(c)) <==>
            c in s.t.certs && s.t.certs[c].device in s.t.devices
            && s.t.devices[s.t.certs[c].device].revokedAt.None?
    ensures Enabled(s, BeginRenew(c)) ==>
              Apply(s, BeginRenew(c)).renewals == s.renewals + [Admitted(s.t.certs[c].device)]
  {
  }

  // -------------------------------------------------------------- the tables' rules

  /** Foreign keys hold after any action on any tables where they held: a deletion cascades. */
  lemma ForeignKeyKept(s: State, a: Action)
    requires CertsHaveRows(s.t) && Enabled(s, a)
    ensures CertsHaveRows(Apply(s, a).t)
  {
    if a.Pair? { ForeignKeyPair(s.t, s.pairs[a.req], a.x); }
  }

  lemma ForeignKeyPair(t: Tables, p: Pairing, x: Input)
    requires CertsHaveRows(t) && Running(p)
    ensures CertsHaveRows(PairStep(t, p, x).0)
  {
  }

  /** A mint commits exactly when its ttl is positive and its code new, and changes nothing else. */
  lemma MintCommitsIff(s: State, hash: Hash, name: string, now: int, ttl: int)
    ensures
      var s' := Apply(s, MintCode(hash, name, now, ttl));
      if ttl > 0 && hash !in s.t.codes then
        && s'.t.codes.Keys == s.t.codes.Keys + {hash} && s'.t.minted == s.t.minted + [name]
        && s' == s.(t := s.t.(codes := s'.t.codes, minted := s'.t.minted))
        && forall h :: h in s.t.codes ==> s'.t.codes[h] == s.t.codes[h]
      else s' == s
  {
  }

  /**
   * Pruning goes by the ttl alone: after a mint and any run that neither redeems the code nor mints
   * it again, a prune takes it if its second is past the one the ttl runs out in, and leaves it
   * otherwise, however many prunes there were before.
   */
  lemma PrunedIff(s: State, hash: Hash, name: string, now: int, ttl: int, actions: seq<Action>, at: int)
    requires ttl > 0 && hash !in s.t.codes
    requires var minted := Apply(s, MintCode(hash, name, now, ttl));
             Legal(minted, actions) && Timed(actions, now) && Untouched(minted, actions, hash)
    requires EndOf(actions, now) <= at
    ensures
      var later := Exec(Apply(s, MintCode(hash, name, now, ttl)), actions);
      hash in Apply(later, PruneCodes(at)).t.codes <==> at / 1_000_000_000 <= (now + ttl) / 1_000_000_000
  {
    var minted := Apply(s, MintCode(hash, name, now, ttl));
    KeepsRun(minted, actions, hash, Code(name, Unix(now + ttl), None, None, |s.t.minted|), now);
    UnixMonotone(EndOf(actions, now), at);
  }
}
