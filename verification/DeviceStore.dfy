/**
 * The pairing-code, device and certificate tables, one function per SQL statement
 * (internal/state/pairing.go, internal/state/devices.go).
 */
module DeviceStore {
  import opened Prelude

  type ID = string
  type Hash = string
  type Serial = string

  /** Times are nanoseconds; the columns hold whole seconds. */
  const SECOND := 1_000_000_000

  function Unix(ns: int): int { ns / SECOND }

  const PENDING := "pending"

  /** `mint` numbers the INSERT the row came from; it is no column, only a name for the mint. */
  datatype Code = Code(name: string, expiresAt: int, usedAt: Option<int>, usedBy: Option<ID>, mint: nat)
  datatype Device = Device(name: string, pairedAt: int, revokedAt: Option<int>)
  datatype Cert = Cert(device: ID, notAfter: int, issuedAt: int, supersededAt: Option<int>)

  /** `minted` lists the device names of every committed mint, in order. */
  datatype Tables = Tables(codes: map<Hash, Code>, devices: map<ID, Device>, certs: map<Serial, Cert>,
                           minted: seq<string>)

  const EMPTY := Tables(map[], map[], map[], [])

  // ------------------------------------------------------------ pairing codes

  /** A non-positive ttl and a hash already on file are both errors that change nothing. */
  function Mint(t: Tables, hash: Hash, name: string, now: int, ttl: int): (Tables, bool) {
    if ttl <= 0 || hash in t.codes then (t, false)
    else (t.(codes := t.codes[hash := Code(name, Unix(now + ttl), None, None, |t.minted|)],
             minted := t.minted + [name]),
          true)
  }

  predicate Redeemable(c: Code, now: int) { c.usedAt.None? && c.expiresAt > Unix(now) }

  function Redeem(t: Tables, hash: Hash, id: ID, now: int): (Tables, Option<Code>) {
    if hash in t.codes && Redeemable(t.codes[hash], now) then
      var c := t.codes[hash];
      (t.(codes := t.codes[hash := c.(usedAt := Some(Unix(now)), usedBy := Some(id))]), Some(c))
    else (t, None)
  }

  function Prune(t: Tables, now: int): Tables {
    t.(codes := map h | h in t.codes && !(t.codes[h].expiresAt < Unix(now)) :: t.codes[h])
  }

  // ------------------------------------------------------------------ devices

  function CreateDevice(t: Tables, id: ID, name: string, now: int): (Tables, bool) {
    if id in t.devices then (t, false)
    else (t.(devices := t.devices[id := Device(name, Unix(now), None)]), true)
  }

  function RenameDevice(t: Tables, id: ID, name: string): (Tables, bool) {
    if id in t.devices then (t.(devices := t.devices[id := t.devices[id].(name := name)]), true) else (t, false)
  }

  /** ON DELETE CASCADE takes the device's certificates along. */
  function DeleteDevice(t: Tables, id: ID): Tables {
    t.(devices := t.devices - {id}, certs := map s | s in t.certs && t.certs[s].device != id :: t.certs[s])
  }

  /** RevokeDevice's second statement; its first, the EXISTS query, is `id in t.devices`. */
  function RevokeUpdate(t: Tables, id: ID, now: int): Tables {
    if id in t.devices && t.devices[id].revokedAt.None? then
      t.(devices := t.devices[id := t.devices[id].(revokedAt := Some(Unix(now)))])
    else t
  }

  // ------------------------------------------------------------- certificates

  /** The foreign key and the primary key are both enforced. */
  function RecordCert(t: Tables, id: ID, serial: Serial, notAfter: int, now: int): (Tables, bool) {
    if serial in t.certs || id !in t.devices then (t, false)
    else (t.(certs := t.certs[serial := Cert(id, Unix(notAfter), Unix(now), None)]), true)
  }

  function Superseded(c: Cert, s: Serial, id: ID, keep: Serial, now: int): Cert {
    if c.device == id && s != keep && c.supersededAt.None? then c.(supersededAt := Some(Unix(now))) else c
  }

  function SupersedePrior(t: Tables, id: ID, keep: Serial, now: int): Tables {
    t.(certs := map s | s in t.certs :: Superseded(t.certs[s], s, id, keep, now))
  }

  // ------------------------------------------------------------------ lookups

  datatype Access = Unknown | Revoked(id: ID) | Active(id: ID)

  /** requireDevice's decision for a verified serial: the join, then the revocation check. */
  function Authenticate(t: Tables, serial: Serial): Access {
    if serial !in t.certs || t.certs[serial].device !in t.devices then Unknown
    else if t.devices[t.certs[serial].device].revokedAt.Some? then Revoked(t.certs[serial].device)
    else Active(t.certs[serial].device)
  }

  /** streamRevoked: a missing row ends the stream, a lookup that failed does not. */
  function StreamRevoked(t: Tables, id: ID, fault: bool): bool {
    if fault then false
    else if id !in t.devices then true
    else t.devices[id].revokedAt.Some?
  }

  // -------------------------------------------------------- the store, in place

  datatype StoreError = NotFound | CodeInvalid | Failed

  /**
   * The open database. `fault` on a method is a call that the driver fails without effect: a dead
   * context, a full disk.
   */
  class Store {
    var codes: map<Hash, Code>
    var devices: map<ID, Device>
    var certs: map<Serial, Cert>
    var minted: seq<string>

    ghost function Now(): Tables
      reads this
    {
      Tables(codes, devices, certs, minted)
    }

    constructor ()
      ensures Now() == EMPTY
    {
      codes, devices, certs, minted := map[], map[], map[], [];
    }

    method MintPairingCode(hash: Hash, name: string, now: int, ttl: int, fault: bool) returns (ok: bool)
      modifies this
      ensures (Now(), ok) == if fault then (old(Now()), false) else Mint(old(Now()), hash, name, now, ttl)
    {
      if ttl <= 0 || fault || hash in codes {
        return false;
      }
      codes := codes[hash := Code(name, Unix(now + ttl), None, None, |minted|)];
      minted := minted + [name];
      ok := true;
    }

    method RedeemPairingCode(hash: Hash, id: ID, now: int, fault: bool) returns (r: Result<Code, StoreError>)
      modifies this`codes
      ensures fault ==> Now() == old(Now()) && r == Err(Failed)
      ensures !fault ==>
                var (t, c) := Redeem(old(Now()), hash, id, now);
                Now() == t && r == if c.Some? then Ok(c.value) else Err(CodeInvalid)
    {
      if fault {
        return Err(Failed);
      }
      if hash !in codes || codes[hash].usedAt.Some? || codes[hash].expiresAt <= Unix(now) {
        return Err(CodeInvalid);
      }
      r := Ok(codes[hash]);
      codes := codes[hash := codes[hash].(usedAt := Some(Unix(now)), usedBy := Some(id))];
    }

    /** One DELETE, row by row, counting what it removed. */
    method PrunePairingCodes(now: int) returns (removed: nat)
      modifies this`codes
      ensures Now() == Prune(old(Now()), now)
      ensures removed == |old(codes)| - |codes|
    {
      removed := 0;
      var rem := codes.Keys;
      while rem != {}
        invariant rem <= codes.Keys <= old(codes).Keys
        invariant forall h :: h in codes ==> codes[h] == old(codes)[h]
        invariant forall h :: h in old(codes) && h !in rem ==>
                    (h in codes <==> !(old(codes)[h].expiresAt < Unix(now)))
        invariant removed == |old(codes)| - |codes|
        decreases rem
      {
        var h :| h in rem;
        if codes[h].expiresAt < Unix(now) {
          assert (codes - {h}).Keys == codes.Keys - {h};
          codes := codes - {h};
          removed := removed + 1;
        }
        rem := rem - {h};
      }
      assert codes == Prune(old(Now()), now).codes;
    }

    method Create(id: ID, name: string, now: int, fault: bool) returns (ok: bool)
      modifies this`devices
      ensures (Now(), ok) == if fault then (old(Now()), false) else CreateDevice(old(Now()), id, name, now)
    {
      if fault || id in devices {
        return false;
      }
      devices := devices[id := Device(name, Unix(now), None)];
      ok := true;
    }

    method Rename(id: ID, name: string, fault: bool) returns (ok: bool)
      modifies this`devices
      ensures (Now(), ok) == if fault then (old(Now()), false) else RenameDevice(old(Now()), id, name)
    {
      if fault || id !in devices {
        return false;
      }
      devices := devices[id := devices[id].(name := name)];
      ok := true;
    }

    method Delete(id: ID, fault: bool) returns (ok: bool)
      modifies this`devices, this`certs
      ensures ok == !fault
      ensures Now() == if fault then old(Now()) else DeleteDevice(old(Now()), id)
    {
      if fault {
        return false;
      }
      devices := devices - {id};
      certs := map s | s in certs && certs[s].device != id :: certs[s];
      ok := true;
    }

    method Record(id: ID, serial: Serial, notAfter: int, now: int, fault: bool) returns (ok: bool)
      modifies this`certs
      ensures (Now(), ok) == if fault then (old(Now()), false) else RecordCert(old(Now()), id, serial, notAfter, now)
    {
      if fault || serial in certs || id !in devices {
        return false;
      }
      certs := certs[serial := Cert(id, Unix(notAfter), Unix(now), None)];
      ok := true;
    }

    method Supersede(id: ID, keep: Serial, now: int, fault: bool) returns (ok: bool)
      modifies this`certs
      ensures ok == !fault
      ensures Now() == if fault then old(Now()) else SupersedePrior(old(Now()), id, keep, now)
    {
      if fault {
        return false;
      }
      certs := map s | s in certs :: Superseded(certs[s], s, id, keep, now);
      ok := true;
    }

    method Revoke(id: ID, now: int, fault: bool) returns (r: Result<(), StoreError>)
      modifies this`devices
      ensures fault ==> Now() == old(Now()) && r == Err(Failed)
      ensures !fault && id !in old(devices) ==> Now() == old(Now()) && r == Err(NotFound)
      ensures !fault && id in old(devices) ==> Now() == RevokeUpdate(old(Now()), id, now) && r == Ok(())
    {
      if fault {
        return Err(Failed);
      }
      if id !in devices {
        return Err(NotFound);
      }
      if devices[id].revokedAt.None? {
        devices := devices[id := devices[id].(revokedAt := Some(Unix(now)))];
      }
      r := Ok(());
    }
  }
}
