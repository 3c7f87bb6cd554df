/**
 * The schema ladder (internal/state/store.go, internal/state/schema.go), climbed by any number of
 * processes at once, each of which may fail or crash between any two transactions.
 */
module Migrations {
  import opened Prelude

  const CURRENT := 2
  const LADDER: seq<int> := [1, 2]

  /** The devices table with the columns of v1 or of v2, and the ids of its rows. */
  datatype DevicesTable = NoTable | V1Table(rows: set<string>) | V2Table(rows: set<string>)

  /** `certs` stands for device_certs and pairing_codes, which v2 creates; `stamp` is the version row. */
  datatype Db = Db(stamp: Option<int>, devices: DevicesTable, certs: bool)

  const FRESH := Db(None, NoTable, false)

  datatype OpenError = TooNew | StatementFailed

  function Version(db: Db): int { if db.stamp.Some? then db.stamp.value else 0 }

  /** v1 creates what is missing, but its index needs a column that the v2 table does not have. */
  function SchemaV1(db: Db): Result<Db, OpenError> {
    match db.devices
    case NoTable => Ok(db.(devices := V1Table({})))
    case V1Table(_) => Ok(db)
    case V2Table(_) => Err(StatementFailed)
  }

  /** v2 drops and recreates devices, then creates device_certs, which fails where it exists. */
  function SchemaV2(db: Db): Result<Db, OpenError> {
    var dropped := db.(devices := V2Table({}));
    if dropped.certs then Err(StatementFailed) else Ok(dropped.(certs := true))
  }

  /** applyMigration: statements and stamp in one transaction, rolled back by any failure. */
  function ApplyRung(db: Db, v: int): Result<Db, OpenError> {
    var r := if v == 1 then SchemaV1(db) else SchemaV2(db);
    if r.Ok? then Ok(r.value.(stamp := Some(v))) else r
  }

  // ------------------------------------------------------------- one opener

  /** A process that has read `version` and has the rungs from `next` on before it. */
  datatype Opener = Reading | Climbing(version: int, next: nat) | Opened | Failed(err: OpenError)

  function OpenStep(db: Db, o: Opener, fault: bool): (Db, Opener) {
    match o
    case Reading =>
      if fault then (db, Failed(StatementFailed))
      else if Version(db) > CURRENT then (db, Failed(TooNew))
      else (db, Climbing(Version(db), 0))
    case Climbing(version, next) =>
      if next >= |LADDER| then (db, Opened)
      else if LADDER[next] <= version then (db, Climbing(version, next + 1))
      else
        var r := ApplyRung(db, LADDER[next]);
        if fault then (db, Failed(StatementFailed))
        else if r.Err? then (db, Failed(r.error))
        else (r.value, Climbing(version, next + 1))
    case _ => (db, o)
  }

  /** The steps of an opener with no other process at work. */
  function OpenAlone(db: Db, o: Opener, faults: seq<bool>): (Db, Opener)
    requires |faults| == |LADDER|
    decreases if o.Reading? then |LADDER| + 1 else if o.Climbing? then |LADDER| - o.next else 0
  {
    match o
    case Reading =>
      var (db', o') := OpenStep(db, o, false);
      OpenAlone(db', o', faults)
    case Climbing(_, next) =>
      var (db', o') := OpenStep(db, o, next < |faults| && faults[next]);
      if o'.Climbing? then OpenAlone(db', o', faults) else (db', o')
    case _ => (db, o)
  }

  class Store {
    var db: Db

    constructor (db: Db)
      ensures this.db == db
    {
      this.db := db;
    }

    method ApplyMigration(v: int, fault: bool) returns (r: Result<(), OpenError>)
      modifies this
      ensures !fault && ApplyRung(old(db), v).Ok? ==> r.Ok? && db == ApplyRung(old(db), v).value
      ensures fault || ApplyRung(old(db), v).Err? ==> r == Err(StatementFailed) && db == old(db)
    {
      var saved := db;
      if v == 1 {
        if db.devices.V2Table? {
          return Err(StatementFailed);
        }
        if db.devices.NoTable? {
          db := db.(devices := V1Table({}));
        }
      } else {
        db := db.(devices := V2Table({}));
        if db.certs {
          db := saved;
          return Err(StatementFailed);
        }
        db := db.(certs := true);
      }
      db := db.(stamp := Some(v));
      if fault {
        db := saved;
        return Err(StatementFailed);
      }
      r := Ok(());
    }

    /**
     * migrate with no other process at work, which is an opener of the machine below taking its
     * steps alone; `faults[k]` fails the k-th rung. A store this build
     * knows comes out at the current version unless a rung failed, and then it is at the version
     * below that rung; a newer store is refused; neither a refused nor a current store is touched.
     */
    method Migrate(faults: seq<bool>) returns (r: Result<(), OpenError>)
      requires |faults| == |LADDER|
      modifies this
      ensures OpenAlone(old(db), Reading, faults) == (db, if r.Ok? then Opened else Failed(r.error))
      ensures Version(old(db)) > 2 ==> r == Err(TooNew) && db == old(db)
      ensures r == Err(TooNew) ==> Version(old(db)) > 2
      ensures Level(old(db)) == CURRENT ==> r.Ok? && db == old(db)
      ensures 0 <= Level(old(db)) ==> Level(old(db)) <= Level(db) && (r.Ok? ==> Level(db) == CURRENT)
      ensures 0 <= Level(old(db)) < CURRENT && r.Err? ==> Level(db) < CURRENT && faults[Level(db)]
      ensures 0 <= Level(old(db)) < 2 && r.Ok? ==> db == Db(Some(2), V2Table({}), true)
      ensures 0 <= Level(old(db)) < 2 && r.Err? ==> db == old(db) || db == Db(Some(1), V1Table({}), false)
      ensures 0 <= Level(old(db)) ==> (r.Ok? <==> forall k :: Level(old(db)) <= k < 2 ==> !faults[k])
    {
      var version := Version(db);
      if version > CURRENT {
        return Err(TooNew);
      }
      for k := 0 to |LADDER|
        invariant Level(old(db)) == CURRENT ==> db == old(db)
        invariant OpenAlone(old(db), Reading, faults) == OpenAlone(db, Climbing(version, k), faults)
        invariant 0 <= Level(old(db)) < 2 ==>
                    db == if k <= Level(old(db)) then old(db) else if k == 1 then Db(Some(1), V1Table({}), false)
                          else Db(Some(2), V2Table({}), true)
        invariant 0 <= Level(old(db)) ==> forall j :: Level(old(db)) <= j < k ==> !faults[j]
        invariant 0 <= Level(old(db)) ==> Level(db) == if k < Level(old(db)) then Level(old(db)) else k
      {
        if LADDER[k] > version {
          r := ApplyMigration(LADDER[k], faults[k]);
          if r.Err? {
            assert faults[k] ==> faults[k] in faults;
            return r;
          }
        }
      }
      r := Ok(());
    }
  }

  // -------------------------------------------------------------- any openers

  /** How many rungs are applied, when the stamp tells exactly that; -1 when it does not. */
  function Level(db: Db): int {
    if db.stamp == None && db.devices.NoTable? && !db.certs then 0
    else if db.stamp == Some(1) && db.devices.V1Table? && !db.certs then 1
    else if db.stamp == Some(2) && db.devices.V2Table? && db.certs then 2
    else -1
  }

  datatype World = World(db: Db, openers: seq<Opener>)

  /** `AddDevice` is an open agent or CLI writing a row; `Crash` ends a process where it stands. */
  datatype Action = Launch | Step(proc: nat, fault: bool) | Crash(proc: nat) | AddDevice(proc: nat, id: string)

  predicate Enabled(w: World, a: Action) {
    match a
    case Launch => true
    case Step(i, _) => i < |w.openers|
    case Crash(i) => i < |w.openers|
    case AddDevice(i, _) => i < |w.openers| && w.openers[i].Opened? && w.db.devices.V2Table?
  }

  function Apply(w: World, a: Action): World
    requires Enabled(w, a)
  {
    match a
    case Launch => w.(openers := w.openers + [Reading])
    case Step(i, fault) =>
      var (db, o) := OpenStep(w.db, w.openers[i], fault);
      World(db, w.openers[i := o])
    case Crash(i) => w.(openers := w.openers[i := Failed(StatementFailed)])
    case AddDevice(_, id) => w.(db := w.db.(devices := V2Table(w.db.devices.rows + {id})))
  }

  predicate Legal(w: World, actions: seq<Action>)
    decreases |actions|
  {
    actions == [] || (Enabled(w, actions[0]) && Legal(Apply(w, actions[0]), actions[1..]))
  }

  function Exec(w: World, actions: seq<Action>): World
    requires Legal(w, actions)
    decreases |actions|
  {
    if actions == [] then w else Exec(Apply(w, actions[0]), actions[1..])
  }

  predicate OpenerOk(db: Db, o: Opener) {
    match o
    case Climbing(version, next) =>
      && 0 <= version <= Level(db) && next <= |LADDER|
      && (next > version ==> next <= Level(db))
    case Opened => Level(db) == CURRENT
    case _ => true
  }

  predicate Inv(w: World) {
    Level(w.db) >= 0 && forall i :: 0 <= i < |w.openers| ==> OpenerOk(w.db, w.openers[i])
  }

  /** A transaction that commits moves a known store up by exactly one rung, or rewrites the first. */
  lemma RungClimbs(db: Db, k: nat)
    requires Level(db) >= 0 && k < |LADDER| && k <= Level(db)
    ensures ApplyRung(db, LADDER[k]).Ok? ==>
              && Level(ApplyRung(db, LADDER[k]).value) == k + 1 >= Level(db)
              && (Level(db) == k + 1 ==> ApplyRung(db, LADDER[k]).value == db)
    ensures ApplyRung(db, LADDER[k]).Ok? <==> Level(db) == k || (k == 0 && Level(db) == 1)
  {
  }

  /** No step of any opener lowers the level or, at the current one, touches a row. */
  lemma StepOk(w: World, a: Action)
    requires Inv(w) && Enabled(w, a)
    ensures Inv(Apply(w, a)) && Level(w.db) <= Level(Apply(w, a).db)
    ensures Level(w.db) == CURRENT ==>
              Apply(w, a).db.devices.V2Table? && w.db.devices.rows <= Apply(w, a).db.devices.rows
  {
    if a.Step? {
      var o := w.openers[a.proc];
      assert OpenerOk(w.db, o);
      if o.Climbing? && o.next < |LADDER| && LADDER[o.next] > o.version {
        RungClimbs(w.db, o.next);
      }
    }
  }

  /**
   * Started fresh or on a store of any known version, with any number of processes opening it,
   * failing and crashing: the stamp always names exactly the rungs applied, the version never goes
   * down, and once v2 is in place its DROP never takes effect again, so no device row is lost.
   */
  lemma {:induction false} LadderSafe(w: World, actions: seq<Action>)
    requires Inv(w) && Legal(w, actions)
    ensures var end := Exec(w, actions);
            && Inv(end) && Level(w.db) <= Level(end.db)
            && (Level(w.db) == CURRENT ==> end.db.devices.V2Table? && w.db.devices.rows <= end.db.devices.rows)
    decreases |actions|
  {
    if actions != [] {
      StepOk(w, actions[0]);
      LadderSafe(Apply(w, actions[0]), actions[1..]);
    }
  }

  /** Whoever got the store open has it at the current version, whoever did the climbing. */
  lemma OpenedIsCurrent(actions: seq<Action>, i: nat)
    requires Legal(World(FRESH, []), actions) && i < |Exec(World(FRESH, []), actions).openers|
    requires Exec(World(FRESH, []), actions).openers[i].Opened?
    ensures Level(Exec(World(FRESH, []), actions).db) == CURRENT
  {
    LadderSafe(World(FRESH, []), actions);
    var end := Exec(World(FRESH, []), actions);
    assert OpenerOk(end.db, end.openers[i]);
  }

  /** A store written by a newer build is never changed, and nobody opens it. */
  lemma {:induction false} TooNewUntouched(w: World, actions: seq<Action>)
    requires Legal(w, actions) && Version(w.db) > CURRENT
    requires forall i :: 0 <= i < |w.openers| ==> w.openers[i].Reading? || w.openers[i].Failed?
    ensures Exec(w, actions).db == w.db
    ensures forall i :: 0 <= i < |Exec(w, actions).openers| ==> !Exec(w, actions).openers[i].Opened?
    decreases |actions|
  {
    if actions != [] {
      TooNewUntouched(Apply(w, actions[0]), actions[1..]);
    }
  }

  /**
   * Racing upgrades: an opener that read any older version of a store that is by now current is
   * refused by the first rung it tries, whatever rows were written meanwhile, and changes nothing:
   * v1 by its index on a column that is gone, v2 by its CREATE TABLE, which takes the DROP back.
   */
  lemma StaleUpgradeRollsBack(db: Db, version: int, next: nat)
    requires Level(db) == CURRENT && next < |LADDER| && LADDER[next] > version
    ensures OpenStep(db, Climbing(version, next), false) == (db, Failed(StatementFailed))
    ensures version < CURRENT
  {
    RungClimbs(db, next);
  }
}
