/**
 * Audit retention (PruneAudit, internal/state/store.go): three delete passes
 * in one transaction, by age, by per-device fair share, and by total count.
 */
module AuditRetention {
  import opened Prelude

  /** `device` is the nullable device_id column. */
  datatype Row = Row(id: int, occurredAt: int, device: Option<string>, operation: string, outcome: string)

  /** COALESCE(device_id, '') */
  function Bucket(row: Row): string {
    if row.device.Some? then row.device.value else ""
  }

  /** The table, oldest row first: ids are assigned in ascending order. */
  ghost predicate Ordered(rows: seq<Row>) {
    forall i, j :: 0 <= i < j < |rows| ==> rows[i].id < rows[j].id
  }

  function Devices(rows: seq<Row>): set<string> {
    set row | row in rows :: Bucket(row)
  }

  /** One device's rows, oldest first. */
  function OfDevice(rows: seq<Row>, d: string): seq<Row> {
    if rows == [] then []
    else if Bucket(rows[0]) == d then [rows[0]] + OfDevice(rows[1..], d)
    else OfDevice(rows[1..], d)
  }

  function Last(rows: seq<Row>, n: nat): seq<Row> {
    if |rows| <= n then rows else rows[|rows| - n..]
  }

  // --------------------------------------------------------------- the passes

  function AgePass(rows: seq<Row>, cutoff: int): seq<Row> {
    if rows == [] then []
    else (if rows[0].occurredAt < cutoff then [] else [rows[0]]) + AgePass(rows[1..], cutoff)
  }

  /** Keeps the rows whose rank, counted from the newest of their own bucket, is at most `share`. */
  function SharePass(rows: seq<Row>, share: nat): seq<Row> {
    if rows == [] then []
    else
      (if |OfDevice(rows, Bucket(rows[0]))| > share then [] else [rows[0]]) + SharePass(rows[1..], share)
  }

  /** ORDER BY id DESC LIMIT maxRows, where a negative limit is no limit. */
  function CountPass(rows: seq<Row>, maxRows: int): seq<Row> {
    if maxRows < 0 then rows else Last(rows, maxRows)
  }

  function PerDevice(maxRows: int, buckets: nat): (share: nat)
    requires buckets > 0
    ensures share >= 1
  {
    if maxRows / buckets < 1 then 1 else maxRows / buckets
  }

  function Shared(rows: seq<Row>, maxRows: int): seq<Row> {
    var buckets := |Devices(rows)|;
    if buckets == 0 then rows else SharePass(rows, PerDevice(maxRows, buckets))
  }

  /** What a committed PruneAudit leaves in the table. */
  function Retained(rows: seq<Row>, cutoff: int, maxRows: int): seq<Row> {
    CountPass(Shared(AgePass(rows, cutoff), maxRows), maxRows)
  }

  // --------------------------------------------------------- rows of a device

  lemma OfDeviceMember(rows: seq<Row>, d: string)
    ensures OfDevice(rows, d) != [] <==> d in Devices(rows)
  {
    if rows != [] {
      OfDeviceMember(rows[1..], d);
      assert rows == [rows[0]] + rows[1..];
    }
  }

  lemma {:induction false} OfDeviceConcat(a: seq<Row>, b: seq<Row>, d: string)
    ensures OfDevice(a + b, d) == OfDevice(a, d) + OfDevice(b, d)
  {
    if a == [] {
      assert a + b == b;
    } else {
      assert (a + b)[1..] == a[1..] + b;
      OfDeviceConcat(a[1..], b, d);
    }
  }

  lemma {:induction false} AgePerDevice(rows: seq<Row>, cutoff: int, d: string)
    ensures OfDevice(AgePass(rows, cutoff), d) == AgePass(OfDevice(rows, d), cutoff)
  {
    if rows != [] {
      AgePerDevice(rows[1..], cutoff, d);
      var rest := AgePass(rows[1..], cutoff);
      OfDeviceConcat(if rows[0].occurredAt < cutoff then [] else [rows[0]], rest, d);
    }
  }

  /** The share pass leaves every device exactly its newest `share` rows. */
  lemma {:induction false} ShareKeepsNewest(rows: seq<Row>, share: nat, d: string)
    ensures OfDevice(SharePass(rows, share), d) == Last(OfDevice(rows, d), share)
  {
    if rows != [] {
      ShareKeepsNewest(rows[1..], share, d);
      if Bucket(rows[0]) == d {
        ShareOwnRow(rows, share);
        LastOneMore(rows[0], OfDevice(rows[1..], d), share);
      } else {
        ShareOtherRow(rows, share, d);
      }
    }
  }

  lemma ShareOtherRow(rows: seq<Row>, share: nat, d: string)
    requires rows != [] && Bucket(rows[0]) != d
    ensures OfDevice(SharePass(rows, share), d) == OfDevice(SharePass(rows[1..], share), d)
  {
    var first := if |OfDevice(rows, Bucket(rows[0]))| > share then [] else [rows[0]];
    OfDeviceConcat(first, SharePass(rows[1..], share), d);
  }

  lemma ShareOwnRow(rows: seq<Row>, share: nat)
    requires rows != []
    ensures
      var d := Bucket(rows[0]);
      OfDevice(SharePass(rows, share), d)
      == (if |OfDevice(rows, d)| > share then [] else [rows[0]]) + OfDevice(SharePass(rows[1..], share), d)
  {
    var first := if |OfDevice(rows, Bucket(rows[0]))| > share then [] else [rows[0]];
    OfDeviceConcat(first, SharePass(rows[1..], share), Bucket(rows[0]));
  }

  lemma LastOneMore(row: Row, rest: seq<Row>, n: nat)
    ensures Last([row] + rest, n) == (if |rest| + 1 > n then [] else [row]) + Last(rest, n)
  {
  }

  // ---------------------------------------------------------------- counting

  function Without(rows: seq<Row>, d: string): seq<Row> {
    if rows == [] then []
    else (if Bucket(rows[0]) == d then [] else [rows[0]]) + Without(rows[1..], d)
  }

  lemma {:induction false} WithoutSplits(rows: seq<Row>, d: string)
    ensures |rows| == |OfDevice(rows, d)| + |Without(rows, d)|
    ensures forall e :: e != d ==> OfDevice(Without(rows, d), e) == OfDevice(rows, e)
  {
    if rows != [] {
      WithoutSplits(rows[1..], d);
      forall e | e != d
        ensures OfDevice(Without(rows, d), e) == OfDevice(rows, e)
      {
        OfDeviceConcat(if Bucket(rows[0]) == d then [] else [rows[0]], Without(rows[1..], d), e);
      }
    }
  }

  lemma {:induction false} WithoutDevices(rows: seq<Row>, d: string)
    ensures Devices(Without(rows, d)) == Devices(rows) - {d}
  {
    if rows != [] {
      WithoutDevices(rows[1..], d);
      var first, rest := if Bucket(rows[0]) == d then [] else [rows[0]], Without(rows[1..], d);
      assert rows == [rows[0]] + rows[1..];
      assert Devices(rows) == {Bucket(rows[0])} + Devices(rows[1..]);
      assert Devices(first + rest) == Devices(first) + Devices(rest);
    }
  }

  lemma OneBucketLess(b: nat, n: nat)
    requires b > 0
    ensures b * n == (b - 1) * n + n
  {
  }

  /** Buckets of at most n rows hold at most that many rows altogether. */
  lemma {:induction false} BucketsBound(rows: seq<Row>, n: nat)
    requires forall d :: d in Devices(rows) ==> |OfDevice(rows, d)| <= n
    ensures |rows| <= |Devices(rows)| * n
    decreases |Devices(rows)|
  {
    if rows == [] {
      assert Devices(rows) == {};
    } else {
      assert rows[0] in rows;
      var d := Bucket(rows[0]);
      var rest := Without(rows, d);
      WithoutSplits(rows, d);
      WithoutDevices(rows, d);
      OneBucketLess(|Devices(rows)|, n);
      BucketsBound(rest, n);
    }
  }

  /** There are no more devices than rows. */
  lemma {:induction false} DevicesBound(rows: seq<Row>)
    ensures |Devices(rows)| <= |rows|
  {
    if rows != [] {
      assert rows == [rows[0]] + rows[1..];
      assert Devices(rows) == {Bucket(rows[0])} + Devices(rows[1..]);
      DevicesBound(rows[1..]);
    }
  }

  // ------------------------------------------------------------ main results

  /** Division: b shares of maxRows / b rows fit, and a share is at least one while b <= maxRows. */
  lemma SharesFit(maxRows: int, b: nat)
    requires 0 < b <= maxRows
    ensures maxRows / b >= 1 && PerDevice(maxRows, b) == maxRows / b && b * (maxRows / b) <= maxRows
  {
    assert b * (maxRows / b) + maxRows % b == maxRows;
  }

  lemma SharedBuckets(rows: seq<Row>, maxRows: int, d: string)
    requires rows != []
    ensures |Devices(rows)| > 0
    ensures OfDevice(Shared(rows, maxRows), d) == Last(OfDevice(rows, d), PerDevice(maxRows, |Devices(rows)|))
    ensures d in Devices(Shared(rows, maxRows)) <==> d in Devices(rows)
  {
    assert rows[0] in rows && Bucket(rows[0]) in Devices(rows);
    var share := PerDevice(maxRows, |Devices(rows)|);
    ShareKeepsNewest(rows, share, d);
    OfDeviceMember(rows, d);
    OfDeviceMember(Shared(rows, maxRows), d);
  }

  /** While every device has a share, the count pass finds nothing to delete. */
  lemma CountPassIdle(rows: seq<Row>, maxRows: int)
    requires |Devices(rows)| <= maxRows
    ensures CountPass(Shared(rows, maxRows), maxRows) == Shared(rows, maxRows)
    ensures |Shared(rows, maxRows)| <= maxRows
  {
    if rows != [] {
      var shared := Shared(rows, maxRows);
      SharedBuckets(rows, maxRows, "");
      var b := |Devices(rows)|;
      SharesFit(maxRows, b);
      forall d ensures |OfDevice(shared, d)| <= maxRows / b && (d in Devices(shared) <==> d in Devices(rows)) {
        SharedBuckets(rows, maxRows, d);
      }
      assert Devices(shared) == Devices(rows);
      BucketsBound(shared, maxRows / b);
    }
  }

  /**
   * Fair share: with b device buckets left after the age pass and b <= maxRows,
   * every device keeps exactly its newest maxRows / b rows, or all of them.
   */
  lemma FairShare(rows: seq<Row>, cutoff: int, maxRows: int, d: string)
    requires 0 < |Devices(AgePass(rows, cutoff))| <= maxRows
    ensures
      var b := |Devices(AgePass(rows, cutoff))|;
      OfDevice(Retained(rows, cutoff, maxRows), d) == Last(AgePass(OfDevice(rows, d), cutoff), maxRows / b)
  {
    var aged := AgePass(rows, cutoff);
    CountPassIdle(aged, maxRows);
    assert aged != [];
    SharedBuckets(aged, maxRows, d);
    SharesFit(maxRows, |Devices(aged)|);
    AgePerDevice(rows, cutoff, d);
  }

  // ------------------------------------------ fair share in the table's own columns

  /** A row no device is named in: the column is NULL or empty. */
  predicate Unattributed(row: Row) { row.device == None || row.device == Some("") }

  /** Two rows share a bucket exactly when they name the same device, or neither names any. */
  lemma SameBucketIff(a: Row, b: Row)
    ensures Bucket(a) == Bucket(b) <==> a.device == b.device || (Unattributed(a) && Unattributed(b))
  {
  }

  /** The rows in age that name the device, or that name none. */
  function RowsNaming(rows: seq<Row>, device: Option<string>, cutoff: int): seq<Row> {
    if rows == [] then []
    else
      (if rows[0].occurredAt >= cutoff && (if device.None? then Unattributed(rows[0]) else rows[0].device == device)
       then [rows[0]] else [])
      + RowsNaming(rows[1..], device, cutoff)
  }

  /** The device a row names, or None for all rows that name none. */
  function Name(row: Row): Option<string> { if Unattributed(row) then None else row.device }

  /** The devices named in rows in age, with one None for all rows that name none. */
  function Named(rows: seq<Row>, cutoff: int): set<Option<string>> {
    set row | row in rows && row.occurredAt >= cutoff :: Name(row)
  }

  function NameOf(device: Option<string>): string { if device.None? then "" else device.value }

  lemma {:induction false} NamingIsBucket(rows: seq<Row>, device: Option<string>, cutoff: int)
    requires device != Some("")
    ensures RowsNaming(rows, device, cutoff) == OfDevice(AgePass(rows, cutoff), NameOf(device))
  {
    if rows != [] {
      NamingIsBucket(rows[1..], device, cutoff);
      var rest := AgePass(rows[1..], cutoff);
      assert ([rows[0]] + rest)[1..] == rest && [] + rest == rest;
      assert Bucket(rows[0]) == NameOf(device)
             <==> if device.None? then Unattributed(rows[0]) else rows[0].device == device;
    }
  }

  lemma NamedOneMore(row: Row, rest: seq<Row>, cutoff: int)
    ensures Named([row] + rest, cutoff)
         == Named(rest, cutoff) + if row.occurredAt >= cutoff then {Name(row)} else {}
  {
  }

  /** A row's device is named in age exactly when its bucket has a row in age. */
  lemma {:induction false} NamedHasBucket(rows: seq<Row>, cutoff: int, row: Row)
    ensures Name(row) in Named(rows, cutoff) <==> Bucket(row) in Devices(AgePass(rows, cutoff))
  {
    if rows != [] {
      var first, rest := rows[0], AgePass(rows[1..], cutoff);
      assert rows == [first] + rows[1..];
      NamedHasBucket(rows[1..], cutoff, row);
      NamedOneMore(first, rows[1..], cutoff);
      DevicesOneMore(first, rest);
      assert AgePass(rows, cutoff) == if first.occurredAt < cutoff then rest else [first] + rest;
    }
  }

  lemma DevicesOneMore(row: Row, rest: seq<Row>)
    ensures Devices([row] + rest) == Devices(rest) + {Bucket(row)}
  {
  }

  lemma OneMoreEach(a: set<Option<string>>, x: Option<string>, b: set<string>, y: string)
    requires |a| == |b| && (x in a <==> y in b)
    ensures |a + {x}| == |b + {y}|
  {
    if x in a {
      assert a + {x} == a && b + {y} == b;
    }
  }

  /** There are as many names in age as buckets. */
  lemma {:induction false} NamedCount(rows: seq<Row>, cutoff: int)
    ensures |Named(rows, cutoff)| == |Devices(AgePass(rows, cutoff))|
  {
    if rows != [] {
      var row, rest := rows[0], AgePass(rows[1..], cutoff);
      assert rows == [row] + rows[1..];
      NamedCount(rows[1..], cutoff);
      NamedOneMore(row, rows[1..], cutoff);
      if row.occurredAt < cutoff {
        assert AgePass(rows, cutoff) == rest;
      } else {
        DevicesOneMore(row, rest);
        NamedHasBucket(rows[1..], cutoff, row);
        OneMoreEach(Named(rows[1..], cutoff), Name(row), Devices(rest), Bucket(row));
      }
    }
  }

  /**
   * Fair share, on the device column itself: while the devices named in rows in age, counting all
   * rows that name none as one, are b <= maxRows, each keeps exactly its newest maxRows / b rows.
   */
  lemma FairShareByColumn(rows: seq<Row>, cutoff: int, maxRows: nat, device: Option<string>)
    requires 0 < |Named(rows, cutoff)| <= maxRows && device != Some("")
    ensures
      var share, kept := maxRows / |Named(rows, cutoff)|, RowsNaming(rows, device, cutoff);
      RowsNaming(Retained(rows, cutoff, maxRows), device, cutoff)
      == if |kept| <= share then kept else kept[|kept| - share..]
    ensures forall row :: row in Retained(rows, cutoff, maxRows) ==> row.occurredAt >= cutoff
  {
    NamedCount(rows, cutoff);
    NamingIsBucket(rows, device, cutoff);
    var kept := Retained(rows, cutoff, maxRows);
    NamingIsBucket(kept, device, cutoff);
    SurvivorsFit(rows, cutoff, maxRows, "");
    AgedStays(kept, cutoff);
    FairShareOfAged(rows, AgePass(rows, cutoff), |Named(rows, cutoff)|, cutoff, maxRows, NameOf(device));
  }

  /** The hard bound: whatever the number of devices, the table fits. */
  lemma RowCap(rows: seq<Row>, cutoff: int, maxRows: int)
    requires maxRows >= 0
    ensures |Retained(rows, cutoff, maxRows)| <= maxRows
  {
  }

  /**
   * Two tables that differ only in one device's rows, of which each has some
   * in age, leave every other device the same survivors.
   */
  lemma NonInterference(t1: seq<Row>, t2: seq<Row>, cutoff: int, maxRows: int, device: string, other: string)
    requires forall d :: d != device ==> OfDevice(t1, d) == OfDevice(t2, d)
    requires device in Devices(AgePass(t1, cutoff)) && device in Devices(AgePass(t2, cutoff))
    requires |Devices(AgePass(t1, cutoff))| <= maxRows && other != device
    ensures OfDevice(Retained(t1, cutoff, maxRows), other) == OfDevice(Retained(t2, cutoff, maxRows), other)
  {
    var a1, a2 := AgePass(t1, cutoff), AgePass(t2, cutoff);
    forall d ensures d in Devices(a1) <==> d in Devices(a2) {
      AgePerDevice(t1, cutoff, d);
      AgePerDevice(t2, cutoff, d);
      OfDeviceMember(a1, d);
      OfDeviceMember(a2, d);
    }
    assert Devices(a1) == Devices(a2);
    FairShare(t1, cutoff, maxRows, other);
    FairShare(t2, cutoff, maxRows, other);
  }

  // -------------------------------------------------------------- idempotence

  lemma {:induction false} AgedStays(rows: seq<Row>, cutoff: int)
    requires forall i :: 0 <= i < |rows| ==> rows[i].occurredAt >= cutoff
    ensures AgePass(rows, cutoff) == rows
  {
    if rows != [] { AgedStays(rows[1..], cutoff); }
  }

  lemma {:induction false} WithinShareStays(rows: seq<Row>, share: nat)
    requires forall d :: |OfDevice(rows, d)| <= share
    ensures SharePass(rows, share) == rows
  {
    if rows != [] {
      forall d ensures |OfDevice(rows[1..], d)| <= share {
        assert |OfDevice(rows, d)| <= share;
      }
      WithinShareStays(rows[1..], share);
      assert |OfDevice(rows, Bucket(rows[0]))| <= share;
    }
  }

  /** A table's survivors are among its rows, and in age. */
  lemma {:induction false} AgePassInAge(rows: seq<Row>, cutoff: int)
    ensures forall row :: row in AgePass(rows, cutoff) ==> row in rows && row.occurredAt >= cutoff
  {
    if rows != [] {
      AgePassInAge(rows[1..], cutoff);
      assert rows == [rows[0]] + rows[1..];
    }
  }

  lemma {:induction false} SharePassSubset(rows: seq<Row>, share: nat)
    ensures forall row :: row in SharePass(rows, share) ==> row in rows
  {
    if rows != [] {
      SharePassSubset(rows[1..], share);
      assert rows == [rows[0]] + rows[1..];
    }
  }

  lemma SuffixBuckets(rows: seq<Row>, n: nat, d: string)
    ensures |OfDevice(Last(rows, n), d)| <= |OfDevice(rows, d)|
  {
    if |rows| > n {
      assert rows == rows[..|rows| - n] + rows[|rows| - n..];
      OfDeviceConcat(rows[..|rows| - n], rows[|rows| - n..], d);
    }
  }

  lemma FewerDevicesBiggerShare(maxRows: int, b: nat, fewer: nat)
    requires 0 < fewer <= b
    ensures PerDevice(maxRows, b) <= PerDevice(maxRows, fewer)
  {
    if maxRows >= 0 {
      var q := maxRows / b;
      MulLe(fewer, b, q);
      DivAtLeast(maxRows, fewer, q);
    }
  }

  lemma MulLe(a: nat, b: nat, q: nat)
    requires a <= b
    ensures a * q <= b * q
  {
  }

  lemma DivAtLeast(n: nat, d: nat, q: nat)
    requires d > 0 && d * q <= n
    ensures q <= n / d
  {
    if n / d < q { MulLe(n / d + 1, q, d); }
  }

  lemma SurvivorsFit(rows: seq<Row>, cutoff: int, maxRows: int, d: string)
    ensures
      var aged, kept := AgePass(rows, cutoff), Retained(rows, cutoff, maxRows);
      && Devices(kept) <= Devices(aged)
      && (aged != [] ==>
            |Devices(aged)| > 0 && |OfDevice(kept, d)| <= PerDevice(maxRows, |Devices(aged)|))
      && (forall i :: 0 <= i < |kept| ==> kept[i].occurredAt >= cutoff)
  {
    var aged, kept := AgePass(rows, cutoff), Retained(rows, cutoff, maxRows);
    var shared := Shared(aged, maxRows);
    AgePassInAge(rows, cutoff);
    if aged != [] {
      SharePassSubset(aged, PerDevice(maxRows, if |Devices(aged)| > 0 then |Devices(aged)| else 1));
      SharedBuckets(aged, maxRows, d);
      if maxRows >= 0 { SuffixBuckets(shared, maxRows, d); }
    }
    assert forall row :: row in kept ==> row in shared;
    assert forall row :: row in shared ==> row in aged;
    forall i | 0 <= i < |kept| ensures kept[i].occurredAt >= cutoff { assert kept[i] in kept; }
  }

  /** Pruning again with the same cutoff and cap removes nothing, whatever the cap. */
  lemma Idempotent(rows: seq<Row>, cutoff: int, maxRows: int)
    ensures
      var kept := Retained(rows, cutoff, maxRows);
      Retained(kept, cutoff, maxRows) == kept
  {
    var aged, kept := AgePass(rows, cutoff), Retained(rows, cutoff, maxRows);
    SurvivorsFit(rows, cutoff, maxRows, "");
    AgedStays(kept, cutoff);
    if kept != [] {
      assert kept[0] in kept && Bucket(kept[0]) in Devices(kept);
      SetsAreSmaller(Devices(kept), Devices(aged));
      FewerDevicesBiggerShare(maxRows, |Devices(aged)|, |Devices(kept)|);
      forall d ensures |OfDevice(kept, d)| <= PerDevice(maxRows, |Devices(kept)|) {
        SurvivorsFit(rows, cutoff, maxRows, d);
      }
      WithinShareStays(kept, PerDevice(maxRows, |Devices(kept)|));
    }
  }

  lemma SetsAreSmaller(a: set<string>, b: set<string>)
    requires a <= b
    ensures |a| <= |b|
  {
    assert b == a + (b - a);
  }

  // ---------------------------------------------- exactly when shares are fair

  /**
   * Every device with a row in age keeps one if and only if there are no more
   * such devices than the cap.
   */
  lemma EveryDeviceSurvivesIff(rows: seq<Row>, cutoff: int, maxRows: nat)
    ensures
      var aged, kept := AgePass(rows, cutoff), Retained(rows, cutoff, maxRows);
      Devices(aged) == Devices(kept) <==> |Devices(aged)| <= maxRows
  {
    var aged, kept := AgePass(rows, cutoff), Retained(rows, cutoff, maxRows);
    if |Devices(aged)| <= maxRows {
      if aged != [] {
        CountPassIdle(aged, maxRows);
        forall d ensures d in Devices(kept) <==> d in Devices(aged) { SharedBuckets(aged, maxRows, d); }
        assert Devices(kept) == Devices(aged);
      }
    } else {
      DevicesBound(kept);
    }
  }

  lemma OfOneRow(row: Row, d: string)
    ensures OfDevice([row], d) == if Bucket(row) == d then [row] else []
  {
    assert [row][1..] == [];
  }

  /** One more row of a device replaces that device's row among the newest ones. */
  lemma {:induction false} NewestRowsAfterInsert(rows: seq<Row>, row: Row)
    ensures SharePass(rows + [row], 1) == Without(SharePass(rows, 1), Bucket(row)) + [row]
  {
    var d := Bucket(row);
    OfOneRow(row, d);
    if rows == [] {
      assert rows + [row] == [row];
      assert SharePass([row], 1) == [row] + SharePass([], 1);
    } else {
      assert (rows + [row])[1..] == rows[1..] + [row];
      NewestRowsAfterInsert(rows[1..], row);
      var e := Bucket(rows[0]);
      OfOneRow(row, e);
      OfDeviceConcat(rows, [row], e);
      var first := if |OfDevice(rows, e)| > 1 then [] else [rows[0]];
      WithoutConcat(first, SharePass(rows[1..], 1), d);
    }
  }

  lemma {:induction false} WithoutConcat(a: seq<Row>, b: seq<Row>, d: string)
    ensures Without(a + b, d) == Without(a, d) + Without(b, d)
  {
    if a == [] {
      assert a + b == b;
    } else {
      assert (a + b)[1..] == a[1..] + b;
      WithoutConcat(a[1..], b, d);
    }
  }

  lemma {:induction false} WithoutStranger(rows: seq<Row>, d: string)
    requires d !in Devices(rows)
    ensures Without(rows, d) == rows
  {
    if rows != [] {
      assert rows[0] in rows && Bucket(rows[0]) in Devices(rows);
      assert rows == [rows[0]] + rows[1..];
      WithoutStranger(rows[1..], d);
    }
  }

  lemma {:induction false} AgePassConcat(a: seq<Row>, b: seq<Row>, cutoff: int)
    ensures AgePass(a + b, cutoff) == AgePass(a, cutoff) + AgePass(b, cutoff)
  {
    if a == [] {
      assert a + b == b;
    } else {
      assert (a + b)[1..] == a[1..] + b;
      AgePassConcat(a[1..], b, cutoff);
    }
  }

  /** From the cap on, the share is one row, and what is kept is the newest of those. */
  lemma AtCapOneEach(rows: seq<Row>, cutoff: int, maxRows: nat)
    requires 0 < maxRows <= |Devices(AgePass(rows, cutoff))|
    ensures
      var newest := SharePass(AgePass(rows, cutoff), 1);
      && Retained(rows, cutoff, maxRows) == Last(newest, maxRows)
      && Devices(newest) == Devices(AgePass(rows, cutoff)) && maxRows <= |newest|
  {
    var aged := AgePass(rows, cutoff);
    DivSelf(maxRows, |Devices(aged)|);
    assert Shared(aged, maxRows) == SharePass(aged, 1);
    SharedDevices(aged, maxRows);
    DevicesBound(SharePass(aged, 1));
  }

  lemma DivSelf(n: nat, d: nat)
    requires 0 < n <= d
    ensures PerDevice(n, d) == 1
  {
    if n == d { DivAtLeast(n, d, 1); } else { assert n / d == 0; }
  }

  /** One more row in age: the devices in age, and what is kept when they reach the cap. */
  lemma InsertAtCap(rows: seq<Row>, cutoff: int, maxRows: nat, row: Row)
    requires 0 < maxRows <= |Devices(AgePass(rows, cutoff))| && row.occurredAt >= cutoff
    ensures
      Retained(rows + [row], cutoff, maxRows)
      == Last(Without(SharePass(AgePass(rows, cutoff), 1), Bucket(row)) + [row], maxRows)
  {
    var aged := AgePass(rows, cutoff);
    AgeInsert(rows, cutoff, row);
    DevicesGrow(aged, row);
    AtCapOneEach(rows + [row], cutoff, maxRows);
    NewestRowsAfterInsert(aged, row);
  }

  lemma AgeInsert(rows: seq<Row>, cutoff: int, row: Row)
    ensures AgePass(rows + [row], cutoff)
            == if row.occurredAt < cutoff then AgePass(rows, cutoff) else AgePass(rows, cutoff) + [row]
  {
    AgePassConcat(rows, [row], cutoff);
    assert AgePass([row], cutoff) == if row.occurredAt < cutoff then [] else [row];
  }

  /** What inserting one row of a device without survivors does from the cap on: the oldest survivor goes. */
  lemma InsertShifts(rows: seq<Row>, cutoff: int, maxRows: nat, row: Row)
    requires 0 < maxRows <= |Devices(AgePass(rows, cutoff))| && row.occurredAt >= cutoff
    requires Bucket(row) !in Devices(Retained(rows, cutoff, maxRows))
    ensures
      var kept := Retained(rows, cutoff, maxRows);
      |kept| == maxRows && Retained(rows + [row], cutoff, maxRows) == kept[1..] + [row]
  {
    var d := Bucket(row);
    AtCapOneEach(rows, cutoff, maxRows);
    InsertAtCap(rows, cutoff, maxRows, row);
    var newest := SharePass(AgePass(rows, cutoff), 1);
    var kept := Last(newest, maxRows);
    var older := newest[..|newest| - maxRows];
    assert newest == older + kept;
    WithoutConcat(older, kept, d);
    WithoutStranger(kept, d);
    LastSlides(Without(older, d), kept, row);
  }

  /** From the cap on, a device that has a survivor only exchanges it for its newer row. */
  lemma InsertExchanges(rows: seq<Row>, cutoff: int, maxRows: nat, row: Row)
    requires 0 < maxRows <= |Devices(AgePass(rows, cutoff))| && row.occurredAt >= cutoff
    requires Bucket(row) in Devices(Retained(rows, cutoff, maxRows))
    ensures
      Retained(rows + [row], cutoff, maxRows) == Without(Retained(rows, cutoff, maxRows), Bucket(row)) + [row]
  {
    var d := Bucket(row);
    AtCapOneEach(rows, cutoff, maxRows);
    InsertAtCap(rows, cutoff, maxRows, row);
    ShareKeepsNewest(AgePass(rows, cutoff), 1, d);
    ExchangeIn(SharePass(AgePass(rows, cutoff), 1), maxRows, row);
  }

  lemma ExchangeIn(newest: seq<Row>, n: nat, row: Row)
    requires n <= |newest| && |OfDevice(newest, Bucket(row))| <= 1 && Bucket(row) in Devices(Last(newest, n))
    ensures Last(Without(newest, Bucket(row)) + [row], n) == Without(Last(newest, n), Bucket(row)) + [row]
  {
    var older, kept := newest[..|newest| - n], Last(newest, n);
    assert newest == older + kept;
    OnlyRowIsKept(older, kept, Bucket(row));
    LastKeeps(older, Without(kept, Bucket(row)), row);
  }

  lemma OnlyRowIsKept(older: seq<Row>, kept: seq<Row>, d: string)
    requires |OfDevice(older + kept, d)| <= 1 && d in Devices(kept)
    ensures Without(older + kept, d) == older + Without(kept, d)
    ensures |Without(kept, d)| + 1 == |kept|
  {
    OfDeviceConcat(older, kept, d);
    OfDeviceMember(kept, d);
    OfDeviceMember(older, d);
    WithoutStranger(older, d);
    WithoutConcat(older, kept, d);
    WithoutSplits(kept, d);
  }

  lemma LastKeeps(before: seq<Row>, kept: seq<Row>, row: Row)
    ensures Last((before + kept) + [row], |kept| + 1) == kept + [row]
  {
  }

  lemma DevicesGrow(rows: seq<Row>, row: Row)
    ensures Devices(rows + [row]) == Devices(rows) + {Bucket(row)}
    ensures |Devices(rows + [row])| == |Devices(rows)| + if Bucket(row) in Devices(rows) then 0 else 1
  {
    forall d ensures d in Devices(rows + [row]) <==> d in Devices(rows) + {Bucket(row)} {
      if d in Devices(rows) {
        var r :| r in rows && Bucket(r) == d;
        assert r in rows + [row];
      }
      if d == Bucket(row) { assert row in rows + [row]; }
    }
  }

  lemma LastSlides(before: seq<Row>, kept: seq<Row>, row: Row)
    requires kept != []
    ensures Last((before + kept) + [row], |kept|) == kept[1..] + [row]
  {
  }

  lemma SharedDevices(rows: seq<Row>, maxRows: int)
    ensures Devices(Shared(rows, maxRows)) == Devices(rows)
  {
    if rows != [] {
      forall d ensures d in Devices(Shared(rows, maxRows)) <==> d in Devices(rows) {
        SharedBuckets(rows, maxRows, d);
      }
    }
  }

  /**
   * With a positive cap that the devices in age reach, isolation fails on every table: one more row
   * of a device without a survivor, known or new, costs another device its last surviving row.
   */
  lemma InterferenceAtCap(rows: seq<Row>, cutoff: int, maxRows: nat, row: Row) returns (victim: string)
    requires 0 < maxRows <= |Devices(AgePass(rows, cutoff))| && row.occurredAt >= cutoff
    requires Bucket(row) !in Devices(Retained(rows, cutoff, maxRows))
    ensures victim != Bucket(row)
    ensures OfDevice(rows + [row], victim) == OfDevice(rows, victim)
    ensures OfDevice(Retained(rows, cutoff, maxRows), victim) != []
    ensures OfDevice(Retained(rows + [row], cutoff, maxRows), victim) == []
  {
    var aged, kept := AgePass(rows, cutoff), Retained(rows, cutoff, maxRows);
    InsertShifts(rows, cutoff, maxRows, row);
    victim := Bucket(kept[0]);
    assert kept[0] in kept && victim in Devices(kept);
    OfDeviceMember(kept, victim);
    OfDeviceConcat(rows, [row], victim);
    OfOneRow(row, victim);
    AtCapOneEach(rows, cutoff, maxRows);
    ShareKeepsNewest(aged, 1, victim);
    SuffixBuckets(SharePass(aged, 1), maxRows, victim);
    assert |OfDevice(kept, victim)| <= 1;
    OfDeviceConcat(kept[1..], [row], victim);
  }

  /** Such a device exists whenever there are more devices in age than the cap. */
  lemma SqueezedOut(rows: seq<Row>, cutoff: int, maxRows: nat) returns (d: string)
    requires |Devices(AgePass(rows, cutoff))| > maxRows
    ensures d in Devices(AgePass(rows, cutoff)) && d !in Devices(Retained(rows, cutoff, maxRows))
  {
    var aged, kept := AgePass(rows, cutoff), Retained(rows, cutoff, maxRows);
    EveryDeviceSurvivesIff(rows, cutoff, maxRows);
    SurvivorsFit(rows, cutoff, maxRows, "");
    assert !(Devices(aged) <= Devices(kept));
    d :| d in Devices(aged) && d !in Devices(kept);
  }

  // ------------------------------------------- exactly when an insert spares others

  /** The insert changes no other device's survivors. */
  ghost predicate OthersSpared(rows: seq<Row>, cutoff: int, maxRows: nat, row: Row) {
    forall e :: e != Bucket(row) ==> SpareOne(rows, cutoff, maxRows, row, e)
  }

  predicate SpareOne(rows: seq<Row>, cutoff: int, maxRows: nat, row: Row, e: string) {
    OfDevice(Retained(rows + [row], cutoff, maxRows), e) == OfDevice(Retained(rows, cutoff, maxRows), e)
  }

  /** A device whose rows in age do not exceed the smaller share, if the share gets smaller at all. */
  predicate FitsNewShare(aged: seq<Row>, maxRows: nat, b: nat, e: string)
    requires b > 0
  {
    maxRows / b == maxRows / (b + 1) || |OfDevice(aged, e)| <= maxRows / (b + 1)
  }

  /**
   * A first row below the cap shrinks every share from maxRows / b to maxRows / (b + 1): device e
   * is untouched if and only if that is the same share or its rows in age fit the smaller one.
   */
  lemma NewDeviceSparesIff(rows: seq<Row>, cutoff: int, maxRows: nat, row: Row, e: string)
    requires 0 < |Devices(AgePass(rows, cutoff))| < maxRows && row.occurredAt >= cutoff
    requires Bucket(row) !in Devices(AgePass(rows, cutoff)) && e != Bucket(row)
    ensures
      var aged := AgePass(rows, cutoff);
      SpareOne(rows, cutoff, maxRows, row, e) <==> FitsNewShare(aged, maxRows, |Devices(aged)|, e)
  {
    var aged := AgePass(rows, cutoff);
    var b := |Devices(aged)|;
    SharesOfOther(rows, aged, b, cutoff, maxRows, row, e);
    ShrunkShareSameIff(aged, maxRows, b, e);
  }

  lemma ShrunkShareSameIff(aged: seq<Row>, maxRows: nat, b: nat, e: string)
    requires 0 < b < maxRows
    ensures
      Last(OfDevice(aged, e), maxRows / b) == Last(OfDevice(aged, e), maxRows / (b + 1))
      <==> FitsNewShare(aged, maxRows, b, e)
  {
    SharesShrink(maxRows, b);
    LastSameIff(OfDevice(aged, e), maxRows / b, maxRows / (b + 1));
  }

  /** The smallest case: with a cap of two, the first row of a second device evicts a row of the first. */
  lemma FirstRowEvicts(older: Row, newer: Row, row: Row, cutoff: int)
    requires older.occurredAt >= cutoff && newer.occurredAt >= cutoff && row.occurredAt >= cutoff
    requires Bucket(older) == Bucket(newer) != Bucket(row)
    ensures !OthersSpared([older, newer], cutoff, 2, row)
  {
    var rows, e := [older, newer], Bucket(older);
    AgedStays(rows, cutoff);
    assert rows[1..] == [newer] && [newer][1..] == [];
    assert OfDevice(rows, e) == [older] + OfDevice([newer], e) == [older, newer];
    assert Devices(rows) == {e};
    NewDeviceSparesIff(rows, cutoff, 2, row, e);
    assert !SpareOne(rows, cutoff, 2, row, e);
  }

  function EvenShare(maxRows: nat, b: nat): nat
    requires b > 0
  {
    maxRows / b
  }

  lemma SharesOfOther(rows: seq<Row>, aged: seq<Row>, b: nat, cutoff: int, maxRows: nat, row: Row, e: string)
    requires 0 < b < maxRows && aged == AgePass(rows, cutoff) && b == |Devices(aged)| && row.occurredAt >= cutoff
    requires Bucket(row) !in Devices(aged) && e != Bucket(row)
    ensures OfDevice(Retained(rows, cutoff, maxRows), e) == Last(OfDevice(aged, e), EvenShare(maxRows, b))
    ensures OfDevice(Retained(rows + [row], cutoff, maxRows), e) == Last(OfDevice(aged, e), EvenShare(maxRows, b + 1))
  {
    AgeInsert(rows, cutoff, row);
    DevicesGrow(aged, row);
    FairShareOfAged(rows, aged, b, cutoff, maxRows, e);
    FairShareOfAged(rows + [row], aged + [row], b + 1, cutoff, maxRows, e);
    OtherRowsSame(aged, row, e);
  }

  /** Fair share once more, with the rows in age and their b devices named. */
  lemma FairShareOfAged(rows: seq<Row>, aged: seq<Row>, b: nat, cutoff: int, maxRows: nat, d: string)
    requires 0 < b <= maxRows && aged == AgePass(rows, cutoff) && b == |Devices(aged)|
    ensures OfDevice(Retained(rows, cutoff, maxRows), d) == Last(OfDevice(aged, d), EvenShare(maxRows, b))
  {
    FairShare(rows, cutoff, maxRows, d);
    AgePerDevice(rows, cutoff, d);
  }

  lemma OtherRowsSame(rows: seq<Row>, row: Row, e: string)
    requires e != Bucket(row)
    ensures OfDevice(rows + [row], e) == OfDevice(rows, e)
  {
    OfDeviceConcat(rows, [row], e);
    OfOneRow(row, e);
  }

  lemma SharesShrink(maxRows: nat, b: nat)
    requires 0 < b < maxRows
    ensures maxRows / (b + 1) <= maxRows / b
  {
    FewerDevicesBiggerShare(maxRows, b + 1, b);
    SharesFit(maxRows, b);
    SharesFit(maxRows, b + 1);
  }

  lemma LastSameIff(rows: seq<Row>, n: nat, m: nat)
    requires m <= n
    ensures Last(rows, n) == Last(rows, m) <==> n == m || |rows| <= m
  {
    if |rows| > m {
      assert |Last(rows, m)| == m;
      assert |Last(rows, n)| == if |rows| <= n then |rows| else n;
    }
  }

  /** Below the cap a device already in age spares everyone. */
  lemma KnownDeviceSpares(rows: seq<Row>, cutoff: int, maxRows: nat, row: Row, e: string)
    requires |Devices(AgePass(rows, cutoff))| < maxRows && row.occurredAt >= cutoff
    requires Bucket(row) in Devices(AgePass(rows, cutoff)) && e != Bucket(row)
    ensures SpareOne(rows, cutoff, maxRows, row, e)
  {
    AgeInsert(rows, cutoff, row);
    DevicesGrow(AgePass(rows, cutoff), row);
    forall d | d != Bucket(row) ensures OfDevice(rows + [row], d) == OfDevice(rows, d) {
      OtherRowsSame(rows, row, d);
    }
    NonInterference(rows, rows + [row], cutoff, maxRows, Bucket(row), e);
  }

  /** The very first device in age has nobody to evict. */
  lemma FirstDeviceSpares(rows: seq<Row>, cutoff: int, maxRows: nat, row: Row, e: string)
    requires Devices(AgePass(rows, cutoff)) == {} && maxRows > 0 && row.occurredAt >= cutoff && e != Bucket(row)
    ensures SpareOne(rows, cutoff, maxRows, row, e)
  {
    var aged := AgePass(rows, cutoff);
    OfDeviceMember(aged, e);
    NoDevicesNoRows(aged);
    AgeInsert(rows, cutoff, row);
    DevicesGrow(aged, row);
    FairShareOfAged(rows + [row], aged + [row], 1, cutoff, maxRows, e);
    OtherRowsSame(aged, row, e);
  }

  lemma NoDevicesNoRows(rows: seq<Row>)
    ensures rows == [] <==> Devices(rows) == {}
  {
    if rows != [] { assert rows[0] in rows && Bucket(rows[0]) in Devices(rows); }
  }

  /** The rows newer than a device's newest one, or all of them if it has none. */
  function RowsAfter(rows: seq<Row>, d: string): seq<Row> {
    if rows == [] then []
    else if OfDevice(rows[1..], d) != [] then RowsAfter(rows[1..], d)
    else if Bucket(rows[0]) == d then rows[1..]
    else rows
  }

  /** A device's newest row parts the table into what is older and what is newer. */
  lemma {:induction false} NewestParts(rows: seq<Row>, d: string) returns (older: seq<Row>, newest: Row)
    requires d in Devices(rows)
    ensures rows == older + [newest] + RowsAfter(rows, d) && Bucket(newest) == d
    ensures OfDevice(RowsAfter(rows, d), d) == []
  {
    OfDeviceMember(rows, d);
    assert rows == [rows[0]] + rows[1..];
    if OfDevice(rows[1..], d) != [] {
      OfDeviceMember(rows[1..], d);
      var before;
      before, newest := NewestParts(rows[1..], d);
      older := [rows[0]] + before;
    } else {
      older, newest := [], rows[0];
    }
  }

  /** The share pass looks only at later rows: what it keeps of a tail is the tail of what it keeps. */
  lemma {:induction false} ShareTail(a: seq<Row>, b: seq<Row>, share: nat) returns (kept: seq<Row>)
    ensures SharePass(a + b, share) == kept + SharePass(b, share)
  {
    if a == [] {
      assert a + b == b;
      kept := [];
    } else {
      assert (a + b)[1..] == a[1..] + b;
      var rest := ShareTail(a[1..], b, share);
      kept := (if |OfDevice(a + b, Bucket(a[0]))| > share then [] else [a[0]]) + rest;
    }
  }

  /** One row each: as many rows as devices. */
  lemma OneRowEach(rows: seq<Row>)
    ensures |SharePass(rows, 1)| == |Devices(rows)|
  {
    var kept := SharePass(rows, 1);
    forall d ensures |OfDevice(kept, d)| <= 1 && (d in Devices(kept) <==> d in Devices(rows)) {
      ShareKeepsNewest(rows, 1, d);
      OfDeviceMember(rows, d);
      OfDeviceMember(kept, d);
    }
    assert Devices(kept) == Devices(rows);
    BucketsBound(kept, 1);
    DevicesBound(kept);
  }

  /** Among the newest rows of all devices, a device's own has one row after it per newer device. */
  lemma NewestAmong(rows: seq<Row>, d: string) returns (before: seq<Row>, newest: Row, after: seq<Row>)
    requires d in Devices(rows)
    ensures SharePass(rows, 1) == before + [newest] + after && Bucket(newest) == d
    ensures |after| == |Devices(RowsAfter(rows, d))|
    ensures d !in Devices(after) && d !in Devices(before)
  {
    var older;
    older, newest := NewestParts(rows, d);
    var tail := RowsAfter(rows, d);
    after := SharePass(tail, 1);
    OneRowEach(tail);
    before := ShareAround(older, newest, tail);
    ShareKeepsNewest(rows, 1, d);
    OnlyOnce(before, newest, after);
  }

  lemma ShareAround(older: seq<Row>, row: Row, tail: seq<Row>) returns (before: seq<Row>)
    requires OfDevice(tail, Bucket(row)) == []
    ensures SharePass(older + [row] + tail, 1) == before + [row] + SharePass(tail, 1)
  {
    assert older + [row] + tail == older + ([row] + tail);
    KeepsFirstOfTail(row, tail);
    before := ShareTail(older, [row] + tail, 1);
  }

  lemma KeepsFirstOfTail(row: Row, tail: seq<Row>)
    requires OfDevice(tail, Bucket(row)) == []
    ensures SharePass([row] + tail, 1) == [row] + SharePass(tail, 1)
  {
    assert ([row] + tail)[1..] == tail;
    assert |OfDevice([row] + tail, Bucket(row))| == 1;
  }

  lemma OnlyOnce(before: seq<Row>, row: Row, after: seq<Row>)
    requires |OfDevice(before + [row] + after, Bucket(row))| <= 1
    ensures Bucket(row) !in Devices(after) && Bucket(row) !in Devices(before)
  {
    var d := Bucket(row);
    OfDeviceConcat(before + [row], after, d);
    OfDeviceConcat(before, [row], d);
    OfOneRow(row, d);
    OfDeviceMember(before, d);
    OfDeviceMember(after, d);
  }

  lemma InLastIff(before: seq<Row>, row: Row, after: seq<Row>, n: nat)
    requires Bucket(row) !in Devices(after) && Bucket(row) !in Devices(before)
    requires n <= |before| + 1 + |after|
    ensures Bucket(row) in Devices(Last(before + [row] + after, n)) <==> |after| < n
  {
    var all := before + [row] + after;
    var last := Last(all, n);
    var k := |all| - n;
    assert last == all[k..];
    if |after| < n {
      assert last[|before| - k] == row && row in last;
    } else {
      assert last == after[|after| - n..];
      assert forall r :: r in last ==> r in after;
    }
  }

  /**
   * Once the devices in age reach a positive cap, a device survives the prune if and only if it has
   * a row in age and fewer than maxRows other devices have a newer one than its newest.
   */
  lemma SurvivesAtCapIff(rows: seq<Row>, cutoff: int, maxRows: nat, d: string)
    requires 0 < maxRows <= |Devices(AgePass(rows, cutoff))|
    ensures
      var aged := AgePass(rows, cutoff);
      d in Devices(Retained(rows, cutoff, maxRows))
      <==> d in Devices(aged) && |Devices(RowsAfter(aged, d))| < maxRows
  {
    var aged := AgePass(rows, cutoff);
    AtCapOneEach(rows, cutoff, maxRows);
    if d in Devices(aged) {
      var before, newest, after := NewestAmong(aged, d);
      InLastIff(before, newest, after, maxRows);
    } else {
      SurvivorsFit(rows, cutoff, maxRows, d);
    }
  }

  /** What the source's comment needs, in terms of the table before the insert. */
  ghost predicate SparesOthers(rows: seq<Row>, cutoff: int, maxRows: nat, row: Row) {
    var aged := AgePass(rows, cutoff);
    var b, d := |Devices(aged)|, Bucket(row);
    || row.occurredAt < cutoff || maxRows == 0 || b == 0
    || if b >= maxRows then d in Devices(aged) && |Devices(RowsAfter(aged, d))| < maxRows
       else d in Devices(aged) || forall e :: e != d ==> FitsNewShare(aged, maxRows, b, e)
  }

  /**
   * One device cannot evict another's rows exactly when: its new row is already out of age, or the
   * cap is zero, or nobody has a row in age; or, once the devices in age reach the cap, it has a row
   * in age and fewer than maxRows other devices have a newer one than its newest; or, below the cap,
   * it is in age already or its first row leaves every other device within its share.
   */
  lemma InsertSparesOthersIff(rows: seq<Row>, cutoff: int, maxRows: nat, row: Row)
    ensures OthersSpared(rows, cutoff, maxRows, row) <==> SparesOthers(rows, cutoff, maxRows, row)
  {
    var aged := AgePass(rows, cutoff);
    var b, d := |Devices(aged)|, Bucket(row);
    AgeInsert(rows, cutoff, row);
    if row.occurredAt < cutoff || maxRows == 0 {
    } else if b == 0 {
      forall e | e != d ensures SpareOne(rows, cutoff, maxRows, row, e) {
        FirstDeviceSpares(rows, cutoff, maxRows, row, e);
      }
    } else if b >= maxRows {
      AtCapSparesIff(rows, cutoff, maxRows, row);
      SurvivesAtCapIff(rows, cutoff, maxRows, d);
    } else {
      forall e | e != d
        ensures SpareOne(rows, cutoff, maxRows, row, e) <==> d in Devices(aged) || FitsNewShare(aged, maxRows, b, e)
      {
        if d in Devices(aged) {
          KnownDeviceSpares(rows, cutoff, maxRows, row, e);
        } else {
          NewDeviceSparesIff(rows, cutoff, maxRows, row, e);
        }
      }
    }
  }

  lemma AtCapSparesIff(rows: seq<Row>, cutoff: int, maxRows: nat, row: Row)
    requires 0 < maxRows <= |Devices(AgePass(rows, cutoff))| && row.occurredAt >= cutoff
    ensures OthersSpared(rows, cutoff, maxRows, row) <==> Bucket(row) in Devices(Retained(rows, cutoff, maxRows))
  {
    var kept, d := Retained(rows, cutoff, maxRows), Bucket(row);
    if d in Devices(kept) {
      InsertExchanges(rows, cutoff, maxRows, row);
      WithoutSplits(kept, d);
      forall e | e != d ensures SpareOne(rows, cutoff, maxRows, row, e) {
        OfDeviceConcat(Without(kept, d), [row], e);
        OfOneRow(row, e);
      }
    } else {
      var victim := InterferenceAtCap(rows, cutoff, maxRows, row);
      assert !SpareOne(rows, cutoff, maxRows, row, victim);
    }
  }

  // ----------------------------------------------------------------- the store

  datatype PruneStep = Begin | ByAge | CountBuckets | ByShare | ByCount | Commit

  /** pruneAuditByDeviceShare: the DELETE runs only when there is a bucket to share between. */
  method PruneAuditByDeviceShare(tx: seq<Row>, maxRows: int, fails: Option<PruneStep>)
    returns (res: Result<seq<Row>, PruneStep>)
    ensures res.Err? <==> fails == Some(CountBuckets) || (fails == Some(ByShare) && tx != [])
    ensures res.Err? ==> Some(res.error) == fails
    ensures res.Ok? ==> res.value == Shared(tx, maxRows)
  {
    if fails == Some(CountBuckets) { return Err(CountBuckets); }
    DevicesOfNone(tx);
    var buckets := |Devices(tx)|;
    if buckets == 0 {
      return Ok(tx);
    }
    var perDevice := maxRows / buckets;
    if perDevice < 1 { perDevice := 1; }
    if fails == Some(ByShare) { return Err(ByShare); }
    res := Ok(SharePass(tx, perDevice));
  }

  /** The share pass has something to run on. */
  predicate AnyInAge(rows: seq<Row>, cutoff: int) { exists row :: row in rows && row.occurredAt >= cutoff }

  lemma {:induction false} AnyInAgeIff(rows: seq<Row>, cutoff: int)
    ensures AnyInAge(rows, cutoff) <==> AgePass(rows, cutoff) != []
  {
    if rows != [] {
      AnyInAgeIff(rows[1..], cutoff);
      assert rows == [rows[0]] + rows[1..];
    }
  }

  lemma DevicesOfNone(rows: seq<Row>)
    ensures |Devices(rows)| == 0 <==> rows == []
  {
    if rows != [] { assert rows[0] in rows && Bucket(rows[0]) in Devices(rows); }
  }

  class AuditStore {
    var audit: seq<Row>

    constructor ()
      ensures audit == []
    {
      audit := [];
    }

    /** An INSERT: the id is past every id the table holds. */
    method Insert(row: Row)
      requires Ordered(audit) && (audit != [] ==> audit[|audit| - 1].id < row.id)
      modifies this
      ensures Ordered(audit) && audit == old(audit) + [row]
    {
      audit := audit + [row];
    }

    /**
     * PruneAudit. `fails` is the statement that reports an error, if one does;
     * the deferred rollback then leaves the table as it was.
     */
    method PruneAudit(cutoff: int, maxRows: int, fails: Option<PruneStep>) returns (res: Result<int, PruneStep>)
      requires Ordered(audit)
      modifies this
      ensures Ordered(audit)
      ensures match res
              case Err(step) => fails == Some(step) && audit == old(audit)
              case Ok(removed) =>
                && audit == Retained(old(audit), cutoff, maxRows)
                && removed == |old(audit)| - |audit|
      ensures res.Err? <==> fails.Some? && (fails == Some(ByShare) ==> AnyInAge(old(audit), cutoff))
    {
      if fails == Some(Begin) { return Err(Begin); }
      var tx := audit;
      if fails == Some(ByAge) { return Err(ByAge); }
      AnyInAgeIff(tx, cutoff);
      var aged := AgePass(tx, cutoff);
      var ageRows := |tx| - |aged|;
      tx := aged;

      var perDevice := PruneAuditByDeviceShare(tx, maxRows, fails);
      if perDevice.Err? { return Err(perDevice.error); }
      var byShare := |tx| - |perDevice.value|;
      tx := perDevice.value;

      if fails == Some(ByCount) { return Err(ByCount); }
      var counted := CountPass(tx, maxRows);
      var countRows := |tx| - |counted|;
      tx := counted;

      if fails == Some(Commit) { return Err(Commit); }
      assert fails.None? || fails.value.ByShare?;
      RetainedOrdered(audit, cutoff, maxRows);
      audit := tx;
      res := Ok(ageRows + byShare + countRows);
    }
  }

  /** Deleting rows keeps the rest in order. */
  lemma RetainedOrdered(rows: seq<Row>, cutoff: int, maxRows: int)
    requires Ordered(rows)
    ensures Ordered(Retained(rows, cutoff, maxRows))
  {
    AgePassOrdered(rows, cutoff);
    var aged := AgePass(rows, cutoff);
    if |Devices(aged)| > 0 { SharePassOrdered(aged, PerDevice(maxRows, |Devices(aged)|)); }
  }

  lemma {:induction false} AgePassOrdered(rows: seq<Row>, cutoff: int)
    requires Ordered(rows)
    ensures Ordered(AgePass(rows, cutoff))
  {
    if rows != [] {
      AgePassOrdered(rows[1..], cutoff);
      AgePassInAge(rows[1..], cutoff);
      var rest := AgePass(rows[1..], cutoff);
      forall j | 0 <= j < |rest| ensures rows[0].id < rest[j].id { assert rest[j] in rest; }
    }
  }

  lemma {:induction false} SharePassOrdered(rows: seq<Row>, share: nat)
    requires Ordered(rows)
    ensures Ordered(SharePass(rows, share))
  {
    if rows != [] {
      SharePassOrdered(rows[1..], share);
      SharePassSubset(rows[1..], share);
      var rest := SharePass(rows[1..], share);
      forall j | 0 <= j < |rest| ensures rows[0].id < rest[j].id { assert rest[j] in rest; }
    }
  }
}
