/**
 * Pairing, renewal and revocation requests over the shared store: one step per store call
 * (internal/httpapi/pair.go, internal/httpapi/device.go, internal/httpapi/middleware.go).
 */
module PairingModel {
  import opened Prelude
  import opened DeviceStore

  // ---------------------------------------------------------- one pairing

  /** Where a pairDevice call stands; `spent` is the mint whose code it redeemed, if any. */
  datatype Pairing =
    | Begun(hash: Hash)
    | Created(hash: Hash, id: ID)
    | Redeemed(id: ID, mint: nat, name: string)
    | Renamed(id: ID, mint: nat)
    | Issued(id: ID, mint: nat, serial: Serial)
    | RollingBack(id: ID, spent: Option<nat>)
    | Paired(id: ID, mint: nat, serial: Serial)
    | Refused(spent: Option<nat>)
    | Orphaned(id: ID, spent: Option<nat>)

  /** What the outside supplies to a step: the random id or serial, the clock, a failing call. */
  datatype Input = Input(id: ID, serial: Serial, notAfter: int, now: int, fault: bool)

  predicate Running(p: Pairing) { !p.Paired? && !p.Refused? && !p.Orphaned? }

  function PairStep(t: Tables, p: Pairing, x: Input): (Tables, Pairing)
    requires Running(p)
  {
    match p
    case Begun(hash) =>
      var (t', ok) := CreateDevice(t, x.id, PENDING, x.now);
      if x.fault || !ok then (t, Refused(None)) else (t', Created(hash, x.id))
    case Created(hash, id) =>
      var (t', c) := Redeem(t, hash, id, x.now);
      if x.fault || c.None? then (t, RollingBack(id, None)) else (t', Redeemed(id, c.value.mint, c.value.name))
    case Redeemed(id, mint, name) =>
      var (t', ok) := RenameDevice(t, id, name);
      if x.fault || !ok then (t, RollingBack(id, Some(mint))) else (t', Renamed(id, mint))
    case Renamed(id, mint) =>
      if x.fault then (t, RollingBack(id, Some(mint))) else (t, Issued(id, mint, x.serial))
    case Issued(id, mint, serial) =>
      var (t', ok) := RecordCert(t, id, serial, x.notAfter, x.now);
      if x.fault || !ok then (t, RollingBack(id, Some(mint))) else (t', Paired(id, mint, serial))
    case RollingBack(id, spent) =>
      if x.fault then (t, Orphaned(id, spent)) else (DeleteDevice(t, id), Refused(spent))
  }

  // ---------------------------------------------------------- one renewal

  datatype Renewal =
    | Admitted(id: ID)
    | Reissued(id: ID, serial: Serial)
    | Recorded(id: ID, serial: Serial)
    | Renewed(id: ID, serial: Serial)
    | RenewFailed

  predicate Renewing(r: Renewal) { !r.Renewed? && !r.RenewFailed? }

  function RenewStep(t: Tables, r: Renewal, x: Input): (Tables, Renewal)
    requires Renewing(r)
  {
    match r
    case Admitted(id) => (t, if x.fault then RenewFailed else Reissued(id, x.serial))
    case Reissued(id, serial) =>
      var (t', ok) := RecordCert(t, id, serial, x.notAfter, x.now);
      if x.fault || !ok then (t, RenewFailed) else (t', Recorded(id, serial))
    case Recorded(id, serial) =>
      if x.fault then (t, RenewFailed) else (SupersedePrior(t, id, serial, x.now), Renewed(id, serial))
  }

  // ------------------------------------------------- the calls, run on the store

  /** What a pairing that meets no interference leaves behind. */
  function PairedAlone(t: Tables, hash: Hash, id: ID, serial: Serial, notAfter: int, now: int): Tables
    requires hash in t.codes
  {
    t.(codes := t.codes[hash := t.codes[hash].(usedAt := Some(Unix(now)), usedBy := Some(id))],
       devices := t.devices[id := Device(t.codes[hash].name, Unix(now), None)],
       certs := t.certs[serial := Cert(id, Unix(notAfter), Unix(now), None)])
  }

  /** Deleting a device nothing refers to takes back its creation and its renaming, and no more. */
  lemma RollbackUndoes(t: Tables, hash: Hash, id: ID, name: string, now: int)
    requires id !in t.devices && forall s :: s in t.certs ==> t.certs[s].device in t.devices
    ensures var created := CreateDevice(t, id, PENDING, now).0;
            var redeemed := Redeem(created, hash, id, now).0;
            && DeleteDevice(created, id) == t
            && DeleteDevice(redeemed, id) == Redeem(t, hash, id, now).0
            && DeleteDevice(RenameDevice(redeemed, id, name).0, id) == Redeem(t, hash, id, now).0
  {
    var created := CreateDevice(t, id, PENDING, now).0;
    var redeemed := Redeem(created, hash, id, now).0;
    var renamed := RenameDevice(redeemed, id, name).0;
    assert created.devices - {id} == t.devices && renamed.devices - {id} == t.devices;
    assert DeleteDevice(created, id).certs == t.certs && DeleteDevice(renamed, id).certs == t.certs;
  }

  class Agent {
    const st: Store

    constructor (st: Store)
      ensures this.st == st
    {
      this.st := st;
    }

    /** deleteOrphanedDevice */
    method DeleteOrphanedDevice(id: ID, fault: bool)
      modifies st
      ensures st.Now() == if fault then old(st.Now()) else DeleteDevice(old(st.Now()), id)
    {
      var _ := st.Delete(id, fault);
    }

    /**
     * pairDevice with nothing else running; `faults[k]` fails its k-th call and `undo` the rollback.
     * It succeeds exactly when no call fails, the two random names are new and the code is live;
     * then the code is spent and there is one more device, under the minted name and holding the
     * new certificate. Any failure with a working rollback leaves no trace but a spent code, and
     * that only if the redemption itself went through.
     */
    method PairDevice(hash: Hash, id: ID, serial: Serial, notAfter: int, now: int, faults: seq<bool>, undo: bool)
      returns (r: Result<ID, StoreError>)
      requires |faults| == 5
      requires forall s :: s in st.certs ==> st.certs[s].device in st.devices
      modifies st
      ensures r.Ok? <==>
                && true !in faults && id !in old(st.devices) && serial !in old(st.certs)
                && hash in old(st.codes) && Redeemable(old(st.codes)[hash], now)
      ensures r.Ok? ==> r.value == id && st.Now() == PairedAlone(old(st.Now()), hash, id, serial, notAfter, now)
      ensures r.Err? && !undo ==>
                || st.Now() == old(st.Now())
                || (!faults[1] && st.Now() == Redeem(old(st.Now()), hash, id, now).0)
      ensures r == Err(CodeInvalid) ==> st.codes == old(st.codes)
    {
      ghost var t := st.Now();
      var created := st.Create(id, PENDING, now, faults[0]);
      if !created {
        return Err(Failed);
      }
      var redeemed := st.RedeemPairingCode(hash, id, now, faults[1]);
      RollbackUndoes(t, hash, id, "", now);
      if redeemed.Err? {
        DeleteOrphanedDevice(id, undo);
        return Err(redeemed.error);
      }
      RollbackUndoes(t, hash, id, redeemed.value.name, now);
      var renamed := st.Rename(id, redeemed.value.name, faults[2]);
      if !renamed || faults[3] {
        DeleteOrphanedDevice(id, undo);
        return Err(Failed);
      }
      var recorded := st.Record(id, serial, notAfter, now, faults[4]);
      if !recorded {
        DeleteOrphanedDevice(id, undo);
        return Err(Failed);
      }
      r := Ok(id);
    }

    /** renewDevice with nothing else running: the new certificate is the only unsuperseded one. */
    method RenewDevice(id: ID, serial: Serial, notAfter: int, now: int, faults: seq<bool>) returns (ok: bool)
      requires |faults| == 3
      modifies st`certs
      ensures old(st.certs).Keys <= st.certs.Keys <= old(st.certs).Keys + {serial}
      ensures forall s :: s in old(st.certs) ==>
                st.certs[s].device == old(st.certs)[s].device && st.certs[s].notAfter == old(st.certs)[s].notAfter
      ensures ok ==>
                && serial !in old(st.certs) && serial in st.certs && st.certs[serial].device == id
                && forall s :: s in st.certs && st.certs[s].device == id ==>
                     (st.certs[s].supersededAt.None? <==> s == serial)
      ensures forall s :: s in old(st.certs) && old(st.certs)[s].device != id ==> st.certs[s] == old(st.certs)[s]
      ensures faults == [false, false, false] && serial !in old(st.certs) && id in st.devices ==> ok
    {
      if faults[0] {
        return false;
      }
      ok := st.Record(id, serial, notAfter, now, faults[1]);
      if ok {
        ok := st.Supersede(id, serial, now, faults[2]);
      }
    }
  }

  // ----------------------------------------------------------- all requests

  /** RevokeDevice between its two statements, and after them. */
  datatype Revocation = Updating(id: ID) | Revoking(done: bool)

  datatype State = State(t: Tables, pairs: seq<Pairing>, renewals: seq<Renewal>, revokes: seq<Revocation>)

  const INIT := State(EMPTY, [], [], [])

  datatype Action =
    | MintCode(hash: Hash, name: string, now: int, ttl: int)
    | PruneCodes(now: int)
    | BeginPair(hash: Hash)
    | Pair(req: nat, x: Input)
    | BeginRenew(serial: Serial)
    | Renew(req: nat, x: Input)
    | CheckRevoke(id: ID)
    | Revoke(req: nat, now: int, fault: bool)

  predicate Enabled(s: State, a: Action) {
    match a
    case MintCode(_, _, _, _) => true
    case PruneCodes(_) => true
    case BeginPair(_) => true
    case Pair(i, _) => i < |s.pairs| && Running(s.pairs[i])
    case BeginRenew(serial) => Authenticate(s.t, serial).Active?
    case Renew(i, _) => i < |s.renewals| && Renewing(s.renewals[i])
    case CheckRevoke(_) => true
    case Revoke(i, _, _) => i < |s.revokes| && s.revokes[i].Updating?
  }

  function Apply(s: State, a: Action): State
    requires Enabled(s, a)
  {
    match a
    case MintCode(hash, name, now, ttl) => s.(t := Mint(s.t, hash, name, now, ttl).0)
    case PruneCodes(now) => s.(t := Prune(s.t, now))
    case BeginPair(hash) => s.(pairs := s.pairs + [Begun(hash)])
    case Pair(i, x) =>
      var (t', p) := PairStep(s.t, s.pairs[i], x);
      s.(t := t', pairs := s.pairs[i := p])
    case BeginRenew(serial) => s.(renewals := s.renewals + [Admitted(Authenticate(s.t, serial).id)])
    case Renew(i, x) =>
      var (t', r) := RenewStep(s.t, s.renewals[i], x);
      s.(t := t', renewals := s.renewals[i := r])
    case CheckRevoke(id) =>
      s.(revokes := s.revokes + [if id in s.t.devices then Updating(id) else Revoking(false)])
    case Revoke(i, now, fault) =>
      s.(t := if fault then s.t else RevokeUpdate(s.t, s.revokes[i].id, now),
         revokes := s.revokes[i := Revoking(!fault)])
  }

  predicate Legal(s: State, actions: seq<Action>)
    decreases |actions|
  {
    actions == [] || (Enabled(s, actions[0]) && Legal(Apply(s, actions[0]), actions[1..]))
  }

  function Exec(s: State, actions: seq<Action>): State
    requires Legal(s, actions)
    decreases |actions|
  {
    if actions == [] then s else Exec(Apply(s, actions[0]), actions[1..])
  }
}
