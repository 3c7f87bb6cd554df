/** What every step of every interleaving of pairings, renewals and revocations keeps. */
module PairingInvariant {
  import opened Prelude
  import opened DeviceStore
  import opened PairingModel

  /** The mint whose code this request redeemed. */
  function MintOf(p: Pairing): Option<nat> {
    match p
    case Redeemed(_, m, _) => Some(m)
    case Renamed(_, m) => Some(m)
    case Issued(_, m, _) => Some(m)
    case Paired(_, m, _) => Some(m)
    case RollingBack(_, spent) => spent
    case Refused(spent) => spent
    case Orphaned(_, spent) => spent
    case _ => None
  }

  /** The device row this request created and has not taken back. */
  function OwnedBy(p: Pairing): Option<ID> {
    match p
    case Begun(_) => None
    case Refused(_) => None
    case _ => Some(p.id)
  }

  // ------------------------------------------------------------------- codes

  predicate CodeOk(t: Tables, h: Hash)
    requires h in t.codes
  {
    t.codes[h].mint < |t.minted| && t.codes[h].name == t.minted[t.codes[h].mint]
  }

  predicate Spends(pairs: seq<Pairing>, i: int, m: nat) {
    0 <= i < |pairs| && MintOf(pairs[i]) == Some(m)
  }

  ghost predicate MintInv(t: Tables, pairs: seq<Pairing>) {
    && (forall h {:trigger CodeOk(t, h)} :: h in t.codes ==> CodeOk(t, h))
    && (forall g, h :: g in t.codes && h in t.codes && t.codes[g].mint == t.codes[h].mint ==> g == h)
    && (forall h, i {:trigger Spends(pairs, i, t.codes[h].mint)} ::
          h in t.codes && t.codes[h].usedAt.None? ==> !Spends(pairs, i, t.codes[h].mint))
    && (forall i, m: nat {:trigger Spends(pairs, i, m)} :: Spends(pairs, i, m) ==> m < |t.minted|)
    && (forall i, j, m: nat {:trigger Spends(pairs, i, m), Spends(pairs, j, m)} ::
          Spends(pairs, i, m) && Spends(pairs, j, m) ==> i == j)
  }

  lemma MintInvBegin(t: Tables, pairs: seq<Pairing>, hash: Hash)
    requires MintInv(t, pairs)
    ensures MintInv(t, pairs + [Begun(hash)])
  {
    var pairs' := pairs + [Begun(hash)];
    forall i, m: nat
      ensures Spends(pairs', i, m) == Spends(pairs, i, m)
    {
    }
  }

  lemma MintInvMint(t: Tables, pairs: seq<Pairing>, hash: Hash, name: string, now: int, ttl: int)
    requires MintInv(t, pairs)
    ensures MintInv(Mint(t, hash, name, now, ttl).0, pairs)
  {
    var t' := Mint(t, hash, name, now, ttl).0;
    forall h | h in t'.codes
      ensures CodeOk(t', h) && (h in t.codes ==> t'.codes[h] == t.codes[h])
    {
      if h in t.codes { assert CodeOk(t, h); }
    }
    forall g, h | g in t'.codes && h in t'.codes && t'.codes[g].mint == t'.codes[h].mint
      ensures g == h
    {
      if g in t.codes { assert CodeOk(t, g); }
      if h in t.codes { assert CodeOk(t, h); }
    }
  }

  lemma MintInvPrune(t: Tables, pairs: seq<Pairing>, now: int)
    requires MintInv(t, pairs)
    ensures MintInv(Prune(t, now), pairs)
  {
    var t' := Prune(t, now);
    forall h | h in t'.codes
      ensures CodeOk(t', h)
    {
      assert CodeOk(t, h);
    }
  }

  /** Any change outside the codes keeps the codes' invariant. */
  lemma MintInvFrame(t: Tables, t': Tables, pairs: seq<Pairing>)
    requires MintInv(t, pairs) && t'.codes == t.codes && t'.minted == t.minted
    ensures MintInv(t', pairs)
  {
    forall h | h in t'.codes
      ensures CodeOk(t', h)
    {
      assert CodeOk(t, h);
    }
  }

  /** A step that redeems nothing keeps the request's mint. */
  lemma MintInvQuiet(t: Tables, pairs: seq<Pairing>, i: nat, p: Pairing)
    requires MintInv(t, pairs) && i < |pairs| && MintOf(p) == MintOf(pairs[i])
    ensures MintInv(t, pairs[i := p])
  {
    var pairs' := pairs[i := p];
    forall j, m: nat
      ensures Spends(pairs', j, m) == Spends(pairs, j, m)
    {
    }
    forall h, j | h in t.codes && t.codes[h].usedAt.None?
      ensures !Spends(pairs', j, t.codes[h].mint)
    {
      assert !Spends(pairs, j, t.codes[h].mint);
    }
  }

  lemma MintInvRedeem(t: Tables, pairs: seq<Pairing>, i: nat, hash: Hash, id: ID, now: int)
    requires MintInv(t, pairs) && i < |pairs| && pairs[i] == Created(hash, id)
    requires hash in t.codes && Redeemable(t.codes[hash], now)
    ensures MintInv(Redeem(t, hash, id, now).0,
                    pairs[i := Redeemed(id, t.codes[hash].mint, t.codes[hash].name)])
  {
    var t' := Redeem(t, hash, id, now).0;
    var m0 := t.codes[hash].mint;
    var pairs' := pairs[i := Redeemed(id, m0, t.codes[hash].name)];
    assert CodeOk(t, hash);
    forall j
      ensures !Spends(pairs, j, m0)
    {
      assert !Spends(pairs, j, t.codes[hash].mint);
    }
    forall j, m: nat
      ensures Spends(pairs', j, m) == (Spends(pairs, j, m) || (j == i && m == m0))
    {
    }
    forall h | h in t'.codes
      ensures CodeOk(t', h) && h in t.codes && t'.codes[h].mint == t.codes[h].mint
    {
      assert CodeOk(t, h);
    }
  }

  lemma MintInvPair(t: Tables, pairs: seq<Pairing>, i: nat, x: Input)
    requires MintInv(t, pairs) && i < |pairs| && Running(pairs[i])
    ensures MintInv(PairStep(t, pairs[i], x).0, pairs[i := PairStep(t, pairs[i], x).1])
  {
    var (t', p') := PairStep(t, pairs[i], x);
    if pairs[i].Created? && p'.Redeemed? {
      MintInvRedeem(t, pairs, i, pairs[i].hash, pairs[i].id, x.now);
    } else {
      MintInvQuiet(t, pairs, i, p');
      MintInvFrame(t, t', pairs[i := p']);
    }
  }

  // -------------------------------------------------------------------- rows

  predicate Owns(pairs: seq<Pairing>, i: int, id: ID) {
    0 <= i < |pairs| && OwnedBy(pairs[i]) == Some(id)
  }

  predicate PairedAt(pairs: seq<Pairing>, i: int, id: ID) {
    Owns(pairs, i, id) && pairs[i].Paired?
  }

  ghost predicate HasOwner(pairs: seq<Pairing>, id: ID) {
    exists i {:trigger Owns(pairs, i, id)} :: Owns(pairs, i, id)
  }

  ghost predicate HasPaired(pairs: seq<Pairing>, id: ID) {
    exists i {:trigger PairedAt(pairs, i, id)} :: PairedAt(pairs, i, id)
  }

  /** What a request may count on at each of its steps. */
  predicate PairOk(t: Tables, p: Pairing) {
    match p
    case Redeemed(_, m, name) => m < |t.minted| && name == t.minted[m]
    case Renamed(id, m) => m < |t.minted| && id in t.devices && t.devices[id].name == t.minted[m]
    case Issued(id, m, _) => m < |t.minted| && id in t.devices && t.devices[id].name == t.minted[m]
    case Paired(id, m, serial) =>
      && m < |t.minted| && id in t.devices && t.devices[id].name == t.minted[m]
      && serial in t.certs && t.certs[serial].device == id
    case _ => true
  }

  ghost predicate CertOk(t: Tables, pairs: seq<Pairing>, s: Serial)
    requires s in t.certs
  {
    HasPaired(pairs, t.certs[s].device)
  }

  /** Device rows and unfinished-or-kept pairings correspond, and only a finished one has certificates. */
  ghost predicate RowInv(t: Tables, pairs: seq<Pairing>) {
    && (forall i, id {:trigger Owns(pairs, i, id)} :: Owns(pairs, i, id) ==> id in t.devices)
    && (forall id {:trigger HasOwner(pairs, id)} :: id in t.devices ==> HasOwner(pairs, id))
    && (forall i, j, id {:trigger Owns(pairs, i, id), Owns(pairs, j, id)} ::
          Owns(pairs, i, id) && Owns(pairs, j, id) ==> i == j)
    && (forall s {:trigger CertOk(t, pairs, s)} :: s in t.certs ==> CertOk(t, pairs, s))
    && (forall i {:trigger PairOk(t, pairs[i])} :: 0 <= i < |pairs| ==> PairOk(t, pairs[i]))
  }

  /** Later tables that keep the rows, the names and every certificate's owner. */
  ghost predicate Keeps(t: Tables, t': Tables) {
    && t'.devices.Keys == t.devices.Keys
    && (forall id :: id in t.devices ==> t'.devices[id].name == t.devices[id].name)
    && t.minted <= t'.minted
    && (forall s :: s in t.certs ==> s in t'.certs && t'.certs[s].device == t.certs[s].device)
  }

  lemma RowInvKeeps(t: Tables, t': Tables, pairs: seq<Pairing>)
    requires RowInv(t, pairs) && Keeps(t, t')
    requires forall s :: s in t'.certs && s !in t.certs ==> HasPaired(pairs, t'.certs[s].device)
    ensures RowInv(t', pairs)
  {
    forall id | id in t'.devices
      ensures HasOwner(pairs, id)
    {
      assert id in t.devices;
    }
    forall s | s in t'.certs
      ensures CertOk(t', pairs, s)
    {
      if s in t.certs { assert CertOk(t, pairs, s); }
    }
    forall i | 0 <= i < |pairs|
      ensures PairOk(t', pairs[i])
    {
      assert PairOk(t, pairs[i]);
    }
  }

  lemma RowInvBegin(t: Tables, pairs: seq<Pairing>, hash: Hash)
    requires RowInv(t, pairs)
    ensures RowInv(t, pairs + [Begun(hash)])
    ensures forall id :: HasPaired(pairs, id) ==> HasPaired(pairs + [Begun(hash)], id)
  {
    SameOwners(pairs, pairs + [Begun(hash)]);
    RowInvSame(t, pairs, pairs + [Begun(hash)]);
  }

  /** Two request lists with the same owners and the same finished pairings. */
  ghost predicate SameRows(pairs: seq<Pairing>, pairs': seq<Pairing>) {
    && (forall i, id {:trigger Owns(pairs', i, id)} :: Owns(pairs', i, id) == Owns(pairs, i, id))
    && (forall i, id {:trigger PairedAt(pairs, i, id)} :: PairedAt(pairs, i, id) ==> PairedAt(pairs', i, id))
  }

  lemma SameOwners(pairs: seq<Pairing>, pairs': seq<Pairing>)
    requires |pairs| <= |pairs'|
    requires forall i :: 0 <= i < |pairs| ==>
               OwnedBy(pairs'[i]) == OwnedBy(pairs[i]) && (pairs[i].Paired? ==> pairs'[i].Paired?)
    requires forall i :: |pairs| <= i < |pairs'| ==> pairs'[i].Begun?
    ensures SameRows(pairs, pairs')
  {
  }

  lemma SameLookups(pairs: seq<Pairing>, pairs': seq<Pairing>)
    requires SameRows(pairs, pairs')
    ensures forall id {:trigger HasOwner(pairs', id)} :: HasOwner(pairs, id) ==> HasOwner(pairs', id)
    ensures forall id {:trigger HasPaired(pairs', id)} :: HasPaired(pairs, id) ==> HasPaired(pairs', id)
  {
    forall id | HasOwner(pairs, id)
      ensures HasOwner(pairs', id)
    {
      var i :| Owns(pairs, i, id);
      assert Owns(pairs', i, id);
    }
    forall id | HasPaired(pairs, id)
      ensures HasPaired(pairs', id)
    {
      var i :| PairedAt(pairs, i, id);
      assert PairedAt(pairs', i, id);
    }
  }

  lemma RowInvSame(t: Tables, pairs: seq<Pairing>, pairs': seq<Pairing>)
    requires RowInv(t, pairs) && SameRows(pairs, pairs')
    requires forall i :: 0 <= i < |pairs'| ==> PairOk(t, pairs'[i])
    ensures RowInv(t, pairs')
    ensures forall id {:trigger HasPaired(pairs', id)} :: HasPaired(pairs, id) ==> HasPaired(pairs', id)
  {
    SameLookups(pairs, pairs');
    forall id | id in t.devices
      ensures HasOwner(pairs', id)
    {
      assert HasOwner(pairs, id);
    }
    forall s | s in t.certs
      ensures CertOk(t, pairs', s)
    {
      assert CertOk(t, pairs, s);
    }
  }

  /** A step that keeps the request's row and finishes nothing. */
  lemma RowInvStay(t: Tables, pairs: seq<Pairing>, i: nat, p: Pairing)
    requires RowInv(t, pairs) && i < |pairs| && !pairs[i].Paired?
    requires OwnedBy(p) == OwnedBy(pairs[i]) && PairOk(t, p)
    ensures RowInv(t, pairs[i := p])
    ensures forall id {:trigger HasPaired(pairs[i := p], id)} :: HasPaired(pairs, id) ==> HasPaired(pairs[i := p], id)
  {
    var pairs' := pairs[i := p];
    SameOwners(pairs, pairs');
    forall j | 0 <= j < |pairs'|
      ensures PairOk(t, pairs'[j])
    {
      if j != i { assert PairOk(t, pairs[j]); }
    }
    RowInvSame(t, pairs, pairs');
  }

  lemma RowInvCreate(t: Tables, pairs: seq<Pairing>, i: nat, hash: Hash, id: ID, now: int)
    requires RowInv(t, pairs) && i < |pairs| && pairs[i].Begun? && id !in t.devices
    ensures RowInv(CreateDevice(t, id, PENDING, now).0, pairs[i := Created(hash, id)])
    ensures forall k {:trigger HasPaired(pairs[i := Created(hash, id)], k)} ::
              HasPaired(pairs, k) ==> HasPaired(pairs[i := Created(hash, id)], k)
  {
    var t' := CreateDevice(t, id, PENDING, now).0;
    var pairs' := pairs[i := Created(hash, id)];
    forall j, k
      ensures Owns(pairs', j, k) == (Owns(pairs, j, k) || (j == i && k == id))
      ensures PairedAt(pairs', j, k) == PairedAt(pairs, j, k)
    {
    }
    forall j
      ensures !Owns(pairs, j, id)
    {
    }
    forall k | HasPaired(pairs, k)
      ensures HasPaired(pairs', k)
    {
      var j :| PairedAt(pairs, j, k);
      assert PairedAt(pairs', j, k);
    }
    forall k | k in t'.devices
      ensures HasOwner(pairs', k)
    {
      if k == id {
        assert Owns(pairs', i, id);
      } else {
        assert HasOwner(pairs, k);
        var j :| Owns(pairs, j, k);
        assert Owns(pairs', j, k);
      }
    }
    forall s | s in t'.certs
      ensures CertOk(t', pairs', s)
    {
      assert CertOk(t, pairs, s);
    }
    forall j | 0 <= j < |pairs'|
      ensures PairOk(t', pairs'[j])
    {
      if j != i { assert PairOk(t, pairs[j]); }
    }
  }

  lemma RowInvRename(t: Tables, pairs: seq<Pairing>, i: nat)
    requires RowInv(t, pairs) && i < |pairs| && pairs[i].Redeemed?
    ensures pairs[i].id in t.devices
    ensures var t' := RenameDevice(t, pairs[i].id, pairs[i].name).0;
            RowInv(t', pairs[i := Renamed(pairs[i].id, pairs[i].mint)])
    ensures forall k {:trigger HasPaired(pairs[i := Renamed(pairs[i].id, pairs[i].mint)], k)} ::
              HasPaired(pairs, k) ==> HasPaired(pairs[i := Renamed(pairs[i].id, pairs[i].mint)], k)
  {
    var id := pairs[i].id;
    assert Owns(pairs, i, id);
    assert PairOk(t, pairs[i]);
    var t' := RenameDevice(t, id, pairs[i].name).0;
    var pairs' := pairs[i := Renamed(id, pairs[i].mint)];
    SameOwners(pairs, pairs');
    SameLookups(pairs, pairs');
    forall k | k in t'.devices
      ensures HasOwner(pairs', k)
    {
      assert k in t.devices && HasOwner(pairs, k);
    }
    forall s | s in t'.certs
      ensures CertOk(t', pairs', s)
    {
      assert CertOk(t, pairs, s);
    }
    forall j | 0 <= j < |pairs'|
      ensures PairOk(t', pairs'[j])
    {
      if j != i {
        assert PairOk(t, pairs[j]);
        if Owns(pairs, j, id) { assert false; }
      }
    }
  }

  lemma RowInvRecord(t: Tables, pairs: seq<Pairing>, i: nat, notAfter: int, now: int)
    requires RowInv(t, pairs) && i < |pairs| && pairs[i].Issued? && pairs[i].serial !in t.certs
    ensures pairs[i].id in t.devices
    ensures var p := pairs[i];
            RowInv(RecordCert(t, p.id, p.serial, notAfter, now).0, pairs[i := Paired(p.id, p.mint, p.serial)])
    ensures forall k {:trigger HasPaired(pairs[i := Paired(pairs[i].id, pairs[i].mint, pairs[i].serial)], k)} ::
              HasPaired(pairs, k) ==> HasPaired(pairs[i := Paired(pairs[i].id, pairs[i].mint, pairs[i].serial)], k)
  {
    var p := pairs[i];
    assert Owns(pairs, i, p.id);
    var t' := RecordCert(t, p.id, p.serial, notAfter, now).0;
    var pairs' := pairs[i := Paired(p.id, p.mint, p.serial)];
    SameOwners(pairs, pairs');
    SameLookups(pairs, pairs');
    assert PairedAt(pairs', i, p.id);
    forall k | k in t'.devices
      ensures HasOwner(pairs', k)
    {
      assert HasOwner(pairs, k);
    }
    forall s | s in t'.certs
      ensures CertOk(t', pairs', s)
    {
      if s in t.certs { assert CertOk(t, pairs, s); }
    }
    forall j | 0 <= j < |pairs'|
      ensures PairOk(t', pairs'[j])
    {
      assert PairOk(t, pairs[j]);
    }
  }

  /** A device being rolled back has no certificate: only a finished pairing's device has any. */
  lemma UnfinishedHasNoCert(t: Tables, pairs: seq<Pairing>, i: nat, id: ID)
    requires RowInv(t, pairs) && Owns(pairs, i, id) && !pairs[i].Paired?
    ensures forall s :: s in t.certs ==> t.certs[s].device != id
  {
    forall s | s in t.certs
      ensures t.certs[s].device != id
    {
      assert CertOk(t, pairs, s);
      var j :| PairedAt(pairs, j, t.certs[s].device);
      assert Owns(pairs, j, t.certs[s].device);
    }
  }

  lemma RowInvDelete(t: Tables, pairs: seq<Pairing>, i: nat)
    requires RowInv(t, pairs) && i < |pairs| && pairs[i].RollingBack?
    ensures DeleteDevice(t, pairs[i].id).certs == t.certs
    ensures RowInv(DeleteDevice(t, pairs[i].id), pairs[i := Refused(pairs[i].spent)])
    ensures forall k {:trigger HasPaired(pairs[i := Refused(pairs[i].spent)], k)} ::
              HasPaired(pairs, k) ==> HasPaired(pairs[i := Refused(pairs[i].spent)], k)
  {
    var id := pairs[i].id;
    var t' := DeleteDevice(t, id);
    var pairs' := pairs[i := Refused(pairs[i].spent)];
    assert Owns(pairs, i, id);
    UnfinishedHasNoCert(t, pairs, i, id);
    assert t'.certs == t.certs;
    forall j, k
      ensures Owns(pairs', j, k) == (Owns(pairs, j, k) && j != i)
      ensures PairedAt(pairs', j, k) == PairedAt(pairs, j, k)
    {
    }
    forall k | HasPaired(pairs, k)
      ensures HasPaired(pairs', k)
    {
      var j :| PairedAt(pairs, j, k);
      assert PairedAt(pairs', j, k);
    }
    forall k | k in t'.devices
      ensures HasOwner(pairs', k)
    {
      assert HasOwner(pairs, k);
      var j :| Owns(pairs, j, k);
      assert Owns(pairs', j, k);
    }
    forall s | s in t'.certs
      ensures CertOk(t', pairs', s)
    {
      assert CertOk(t, pairs, s);
    }
    forall j | 0 <= j < |pairs'|
      ensures PairOk(t', pairs'[j])
    {
      if j != i {
        assert PairOk(t, pairs[j]);
        if Owns(pairs, j, id) { assert false; }
      }
    }
  }

  lemma RowInvPair(t: Tables, pairs: seq<Pairing>, i: nat, x: Input)
    requires MintInv(t, pairs) && RowInv(t, pairs) && i < |pairs| && Running(pairs[i])
    ensures var (t', p') := PairStep(t, pairs[i], x);
            && RowInv(t', pairs[i := p'])
            && forall id {:trigger HasPaired(pairs[i := p'], id)} ::
                 HasPaired(pairs, id) ==> HasPaired(pairs[i := p'], id)
  {
    var (t', p') := PairStep(t, pairs[i], x);
    assert PairOk(t, pairs[i]);
    if p'.Created? {
      RowInvCreate(t, pairs, i, pairs[i].hash, x.id, x.now);
    } else if p'.Redeemed? {
      assert CodeOk(t, pairs[i].hash);
      RowInvStay(t, pairs, i, p');
      RowInvKeeps(t, t', pairs[i := p']);
    } else if p'.Renamed? {
      RowInvRename(t, pairs, i);
    } else if p'.Paired? {
      RowInvRecord(t, pairs, i, x.notAfter, x.now);
    } else if p'.Refused? && pairs[i].RollingBack? {
      RowInvDelete(t, pairs, i);
    } else {
      RowInvStay(t, pairs, i, p');
    }
  }

  // ---------------------------------------------------------------- renewals

  ghost predicate RenewOk(t: Tables, pairs: seq<Pairing>, r: Renewal) {
    && (Renewing(r) ==> HasPaired(pairs, r.id))
    && (r.Recorded? || r.Renewed? ==> r.serial in t.certs && t.certs[r.serial].device == r.id)
  }

  ghost predicate RenewInv(t: Tables, pairs: seq<Pairing>, renewals: seq<Renewal>) {
    forall i {:trigger RenewOk(t, pairs, renewals[i])} :: 0 <= i < |renewals| ==> RenewOk(t, pairs, renewals[i])
  }

  lemma RenewInvFrame(t: Tables, t': Tables, pairs: seq<Pairing>, pairs': seq<Pairing>, renewals: seq<Renewal>)
    requires RenewInv(t, pairs, renewals)
    requires forall s :: s in t.certs ==> s in t'.certs && t'.certs[s].device == t.certs[s].device
    requires forall id {:trigger HasPaired(pairs', id)} :: HasPaired(pairs, id) ==> HasPaired(pairs', id)
    ensures RenewInv(t', pairs', renewals)
  {
    forall i | 0 <= i < |renewals|
      ensures RenewOk(t', pairs', renewals[i])
    {
      assert RenewOk(t, pairs, renewals[i]);
      if Renewing(renewals[i]) { assert HasPaired(pairs', renewals[i].id); }
    }
  }

  /** No pairing step, rollback included, removes a certificate or hands it to another device. */
  lemma PairKeepsCerts(t: Tables, pairs: seq<Pairing>, i: nat, x: Input)
    requires RowInv(t, pairs) && i < |pairs| && Running(pairs[i])
    ensures var t' := PairStep(t, pairs[i], x).0;
            forall s :: s in t.certs ==> s in t'.certs && t'.certs[s] == t.certs[s]
  {
    if pairs[i].RollingBack? {
      RowInvDelete(t, pairs, i);
    }
  }

  // --------------------------------------------------------------- the whole

  ghost predicate Inv(s: State) {
    && MintInv(s.t, s.pairs)
    && RowInv(s.t, s.pairs)
    && RenewInv(s.t, s.pairs, s.renewals)
  }

  lemma InvRenew(s: State, i: nat, x: Input)
    requires Inv(s) && Enabled(s, Renew(i, x))
    ensures Inv(Apply(s, Renew(i, x)))
  {
    var s' := Apply(s, Renew(i, x));
    assert RenewOk(s.t, s.pairs, s.renewals[i]);
    MintInvFrame(s.t, s'.t, s.pairs);
    RowInvKeeps(s.t, s'.t, s.pairs);
    RenewInvFrame(s.t, s'.t, s.pairs, s.pairs, s.renewals);
    forall j | 0 <= j < |s'.renewals|
      ensures RenewOk(s'.t, s'.pairs, s'.renewals[j])
    {
      if j != i { assert RenewOk(s'.t, s.pairs, s.renewals[j]); }
    }
  }

  lemma InvBeginRenew(s: State, serial: Serial)
    requires Inv(s) && Enabled(s, BeginRenew(serial))
    ensures Inv(Apply(s, BeginRenew(serial)))
  {
    var s' := Apply(s, BeginRenew(serial));
    assert CertOk(s.t, s.pairs, serial);
    forall j | 0 <= j < |s'.renewals|
      ensures RenewOk(s'.t, s'.pairs, s'.renewals[j])
    {
      if j < |s.renewals| { assert RenewOk(s.t, s.pairs, s.renewals[j]); }
    }
  }

  lemma InvPair(s: State, i: nat, x: Input)
    requires Inv(s) && Enabled(s, Pair(i, x))
    ensures Inv(Apply(s, Pair(i, x)))
  {
    var s' := Apply(s, Pair(i, x));
    MintInvPair(s.t, s.pairs, i, x);
    RowInvPair(s.t, s.pairs, i, x);
    PairKeepsCerts(s.t, s.pairs, i, x);
    RenewInvFrame(s.t, s'.t, s.pairs, s'.pairs, s.renewals);
  }

  /** A step that touches tables only, and there neither device rows, names nor certificates' owners. */
  lemma InvTables(s: State, s': State)
    requires Inv(s) && MintInv(s'.t, s.pairs) && Keeps(s.t, s'.t) && s'.t.certs == s.t.certs
    requires s'.pairs == s.pairs && s'.renewals == s.renewals
    ensures Inv(s')
  {
    RowInvKeeps(s.t, s'.t, s.pairs);
    RenewInvFrame(s.t, s'.t, s.pairs, s.pairs, s.renewals);
  }

  lemma InvStep(s: State, a: Action)
    requires Inv(s) && Enabled(s, a)
    ensures Inv(Apply(s, a))
  {
    var s' := Apply(s, a);
    match a {
      case MintCode(hash, name, now, ttl) =>
        MintInvMint(s.t, s.pairs, hash, name, now, ttl);
        InvTables(s, s');
      case PruneCodes(now) =>
        MintInvPrune(s.t, s.pairs, now);
        InvTables(s, s');
      case BeginPair(hash) =>
        MintInvBegin(s.t, s.pairs, hash);
        RowInvBegin(s.t, s.pairs, hash);
        RenewInvFrame(s.t, s.t, s.pairs, s'.pairs, s.renewals);
      case Pair(i, x) => InvPair(s, i, x);
      case BeginRenew(serial) => InvBeginRenew(s, serial);
      case Renew(i, x) => InvRenew(s, i, x);
      case CheckRevoke(_) =>
      case Revoke(_, _, _) =>
        MintInvFrame(s.t, s'.t, s.pairs);
        InvTables(s, s');
    }
  }

  lemma {:induction false} InvExec(s: State, actions: seq<Action>)
    requires Inv(s) && Legal(s, actions)
    ensures Inv(Exec(s, actions))
    decreases |actions|
  {
    if actions != [] {
      InvStep(s, actions[0]);
      InvExec(Apply(s, actions[0]), actions[1..]);
    }
  }

  lemma InvInit()
    ensures Inv(INIT)
  {
  }
}
