/**
 * Location operations: the location table (create, remove, lookups, mark
 * done, counts) and the batch allocation `get_locations`.
 */
module LocationOperations {
  import opened Outcomes
  import opened Tables
  import opened Answers
  import opened Sets

  /** A location's columns besides its id; `done` stands for "done_at is set". */
  datatype LocationFields = LocationFields(factoryId: string, done: bool)

  type Location = Row<LocationFields>

  // ---------------------------------------------------------------------
  // The location table
  // ---------------------------------------------------------------------

  /** create_location: a new, not yet done location with the given factory id. */
  method CreateLocation(db: Table<LocationFields>, factoryId: string) returns (loc: Location)
    requires db.Valid()
    modifies db
    ensures db.Valid()
    ensures loc.val.factoryId == factoryId && !loc.val.done
    ensures loc.id !in Ids(old(db.rows)) && db.rows == old(db.rows) + [loc]
    ensures loc.id == old(db.nextId) && db.nextId == old(db.nextId) + 1
    ensures Find(db.rows, loc.id) == Some(loc)
  {
    loc := db.Insert(LocationFields(factoryId, false));
    FindAppended(old(db.rows), loc);
  }

  /** Looking up the key of a row appended under a fresh key finds that row. */
  lemma {:induction false} FindAppended<T>(rows: seq<Row<T>>, row: Row<T>)
    requires row.id !in Ids(rows)
    ensures Find(rows + [row], row.id) == Some(row)
  {
    if rows != [] {
      assert (rows + [row])[1..] == rows[1..] + [row];
      assert Ids(rows) == {rows[0].id} + Ids(rows[1..]);
      FindAppended(rows[1..], row);
    }
  }

  /** remove_location: deletes the location with that id; NotFound when there is none. */
  method RemoveLocation(db: Table<LocationFields>, id: LocationId) returns (r: Result<Location>)
    requires db.Valid()
    modifies db
    ensures db.Valid() && db.nextId == old(db.nextId)
    ensures r.Ok? <==> id in Ids(old(db.rows))
    ensures r.Ok? ==> Find(old(db.rows), id) == Some(r.value) && db.rows == Delete(old(db.rows), id)
    ensures r.Err? ==> r.error == NotFound && db.rows == old(db.rows)
    ensures Find(db.rows, id).None?
    ensures forall k | k != id :: Find(db.rows, k) == Find(old(db.rows), k)
  {
    r := db.Remove(id);
  }

  /**
   * get_location_by_factory_id.  Factory ids need not be unique; which of
   * the locations sharing one comes back is a choice of this model: the
   * earliest created.
   */
  function GetLocationByFactoryId(rows: seq<Location>, factoryId: string): (r: Option<Location>)
    ensures r.Some? <==> exists l | l in rows :: l.val.factoryId == factoryId
    ensures r.Some? ==> r.value in rows && r.value.val.factoryId == factoryId
    ensures r.Some? && Keyed(rows) ==>
      forall l | l in rows && l.val.factoryId == factoryId :: r.value.id <= l.id
  {
    if rows == [] then None
    else if rows[0].val.factoryId == factoryId then
      assert Keyed(rows) ==> forall l | l in rows :: rows[0].id <= l.id by {
        if Keyed(rows) {
          forall l | l in rows ensures rows[0].id <= l.id {
            var j :| 0 <= j < |rows| && rows[j] == l;
          }
        }
      }
      Some(rows[0])
    else
      assert forall l | l in rows :: l == rows[0] || l in rows[1..];
      assert Keyed(rows) ==> Keyed(rows[1..]);
      GetLocationByFactoryId(rows[1..], factoryId)
  }

  /**
   * Right after a location is created with a factory id no other location
   * has, looking that factory id up returns the new location.
   */
  lemma {:induction false} FactoryIdOfCreated(rows: seq<Location>, loc: Location)
    requires forall l | l in rows :: l.val.factoryId != loc.val.factoryId
    ensures GetLocationByFactoryId(rows + [loc], loc.val.factoryId) == Some(loc)
  {
    if rows != [] {
      assert (rows + [loc])[1..] == rows[1..] + [loc];
      FactoryIdOfCreated(rows[1..], loc);
    }
  }

  /**
   * set_location_done: sets (isDone) or clears the done mark of the
   * location with that id and returns it; NotFound when there is none.
   */
  method SetLocationDone(db: Table<LocationFields>, id: LocationId, isDone: bool) returns (r: Result<Location>)
    requires db.Valid()
    modifies db
    ensures db.Valid() && Ids(db.rows) == Ids(old(db.rows)) && db.nextId == old(db.nextId)
    ensures r.Ok? <==> id in Ids(old(db.rows))
    ensures r.Ok? ==> r.value.id == id && r.value.val.done == isDone
    ensures r.Ok? ==> r.value.val.factoryId == Find(old(db.rows), id).value.val.factoryId
    ensures r.Ok? ==> Find(db.rows, id) == Some(r.value) && db.rows == Update(old(db.rows), id, r.value.val)
    ensures r.Err? ==> r.error == NotFound && db.rows == old(db.rows)
    ensures forall k | k != id :: Find(db.rows, k) == Find(old(db.rows), k)
  {
    match Find(db.rows, id)
    case None =>
      r := Err(NotFound);
    case Some(loc) =>
      UpdateKeys(db.rows, id, loc.val.(done := isDone));
      r := db.Set(id, loc.val.(done := isDone));
  }

  /** Ids of the locations whose done mark is set. */
  function DoneIds(rows: seq<Location>): set<LocationId> {
    set l | l in rows && l.val.done :: l.id
  }

  /** get_location_is_done_count: the number of locations marked done. */
  function DoneCount(rows: seq<Location>): (n: nat)
    ensures n <= |rows|
  {
    if rows == [] then 0
    else (if rows[0].val.done then 1 else 0) + DoneCount(rows[1..])
  }

  /** In a keyed table the done count is the number of distinct done locations. */
  lemma {:induction false} DoneCountIsDoneIds(rows: seq<Location>)
    requires Keyed(rows)
    ensures DoneCount(rows) == |DoneIds(rows)|
  {
    if rows != [] {
      KeyedTail(rows);
      DoneCountIsDoneIds(rows[1..]);
      var rest := DoneIds(rows[1..]);
      assert rows[0].id !in rest;
      assert DoneIds(rows) == (if rows[0].val.done then {rows[0].id} else {}) + rest;
    }
  }

  /**
   * Setting the done mark of one location moves the done count by at most
   * one: up when it was not done before, down when it is cleared.
   */
  lemma {:induction false} DoneCountAfterSet(rows: seq<Location>, k: nat, v: LocationFields)
    requires Keyed(rows) && k < |rows|
    ensures DoneCount(Update(rows, rows[k].id, v))
         == DoneCount(rows) - (if rows[k].val.done then 1 else 0) + (if v.done then 1 else 0)
  {
    var id := rows[k].id;
    var r := Update(rows, id, v);
    assert r[1..] == Update(rows[1..], id, v);
    assert DoneCount(r) == (if r[0].val.done then 1 else 0) + DoneCount(r[1..]);
    if k == 0 {
      assert forall i | 0 <= i < |rows[1..]| :: rows[1..][i].id != id by {
        forall i | 0 <= i < |rows[1..]| ensures rows[1..][i].id != id {
          assert rows[1..][i] == rows[i + 1];
        }
      }
      UpdateAbsent(rows[1..], id, v);
    } else {
      assert rows[0].id < id;
      assert Keyed(rows[1..]);
      assert rows[1..][k - 1] == rows[k];
      DoneCountAfterSet(rows[1..], k - 1, v);
    }
  }

  /** Updating a key no row holds changes nothing. */
  lemma {:induction false} UpdateAbsent<T>(rows: seq<Row<T>>, id: nat, v: T)
    requires forall i | 0 <= i < |rows| :: rows[i].id != id
    ensures Update(rows, id, v) == rows
  {
    if rows != [] {
      UpdateAbsent(rows[1..], id, v);
    }
  }

  // ---------------------------------------------------------------------
  // Batch allocation
  // ---------------------------------------------------------------------

  /** Locations in the table that the user has not answered yet. */
  function Unanswered(rows: seq<Location>, answers: seq<Answer>, user: UserId): set<LocationId> {
    Ids(rows) - AnsweredBy(answers, user)
  }

  /** Unanswered locations that carry a gold answer. */
  function GoldPool(rows: seq<Location>, answers: seq<Answer>, user: UserId): set<LocationId> {
    Unanswered(rows, answers, user) * GoldLocations(answers)
  }

  /** Unanswered locations without any gold answer. */
  function PlainPool(rows: seq<Location>, answers: seq<Answer>, user: UserId): set<LocationId> {
    Unanswered(rows, answers, user) - GoldLocations(answers)
  }

  /**
   * What a successful get_locations(user, size, goldSize) may return:
   * `size` distinct locations of the table, none answered by the user,
   * exactly `goldSize` of which carry a gold answer.
   */
  predicate IsBatch(rows: seq<Location>, answers: seq<Answer>, user: UserId, size: nat, goldSize: nat, batch: set<LocationId>) {
    && batch <= Unanswered(rows, answers, user)
    && |batch| == size
    && |batch * GoldLocations(answers)| == goldSize
  }

  /**
   * The validation get_locations performs before sampling: the gold pool
   * is checked first, then whether the rest of the batch can be filled.
   */
  function Shortfall(rows: seq<Location>, answers: seq<Answer>, user: UserId, size: nat, goldSize: nat): (e: Option<Error>)
    requires goldSize <= size
    ensures e.Some? ==> e.value == InsufficientGoldPool || e.value == InsufficientTotalPool
    ensures e == Some(InsufficientGoldPool) <==> |GoldPool(rows, answers, user)| < goldSize
    ensures |Unanswered(rows, answers, user)| < size ==> e.Some?
  {
    PoolsSplit(rows, answers, user);
    if |GoldPool(rows, answers, user)| < goldSize then Some(InsufficientGoldPool)
    else if |PlainPool(rows, answers, user)| < size - goldSize then Some(InsufficientTotalPool)
    else None
  }

  /** The unanswered locations split into the gold pool and the plain pool. */
  lemma PoolsSplit(rows: seq<Location>, answers: seq<Answer>, user: UserId)
    ensures |Unanswered(rows, answers, user)|
         == |GoldPool(rows, answers, user)| + |PlainPool(rows, answers, user)|
  {
    SubsetCard(GoldPool(rows, answers, user), Unanswered(rows, answers, user));
    assert Unanswered(rows, answers, user) - GoldPool(rows, answers, user) == PlainPool(rows, answers, user);
  }

  /** With no locations in the table, every request for a non-empty batch fails. */
  lemma EmptyTableFails(answers: seq<Answer>, user: UserId, size: nat, goldSize: nat)
    requires goldSize <= size && 0 < size
    ensures Shortfall([], answers, user, size, goldSize).Some?
  {
    assert Unanswered([], answers, user) == {};
  }

  /** Every batch draws its gold part from the gold pool and the rest from the plain pool. */
  lemma BatchNeedsPools(rows: seq<Location>, answers: seq<Answer>, user: UserId, size: nat, goldSize: nat, batch: set<LocationId>)
    requires IsBatch(rows, answers, user, size, goldSize, batch)
    ensures goldSize <= |GoldPool(rows, answers, user)|
    ensures size - goldSize <= |PlainPool(rows, answers, user)|
  {
    var gold := batch * GoldLocations(answers);
    SubsetCard(gold, GoldPool(rows, answers, user));
    SubsetCard(gold, batch);
    assert batch - gold <= PlainPool(rows, answers, user);
    SubsetCard(batch - gold, PlainPool(rows, answers, user));
  }

  /** The validation rejects exactly the requests no batch can satisfy. */
  lemma {:induction false} ShortfallMeansNoBatch(rows: seq<Location>, answers: seq<Answer>, user: UserId, size: nat, goldSize: nat, batch: set<LocationId>)
    requires goldSize <= size
    requires Shortfall(rows, answers, user, size, goldSize).Some?
    ensures !IsBatch(rows, answers, user, size, goldSize, batch)
  {
    if IsBatch(rows, answers, user, size, goldSize, batch) {
      BatchNeedsPools(rows, answers, user, size, goldSize, batch);
    }
  }

  /** Draws `k` distinct members of `pool`; which ones is left open. */
  method Sample<T>(pool: set<T>, k: nat) returns (s: set<T>)
    requires k <= |pool|
    ensures s <= pool && |s| == k
  {
    s := {};
    while |s| < k
      invariant s <= pool && |s| <= k
      decreases k - |s|
    {
      SubsetCard(s, pool);
      var x :| x in pool - s;
      s := s + {x};
    }
  }

  /**
   * get_locations(user, size, goldSize): a batch for the user, or the
   * reason none can be formed.  Read-only: the tables are not touched.
   */
  method GetLocations(rows: seq<Location>, answers: seq<Answer>, user: UserId, size: nat, goldSize: nat)
    returns (r: Result<set<LocationId>>)
    requires goldSize <= size
    ensures r.Ok? ==> IsBatch(rows, answers, user, size, goldSize, r.value)
    ensures r.Err? ==> forall b :: !IsBatch(rows, answers, user, size, goldSize, b)
    ensures r.Err? ==> r.error == (if |GoldPool(rows, answers, user)| < goldSize then InsufficientGoldPool else InsufficientTotalPool)
    ensures r.Err? <==> Shortfall(rows, answers, user, size, goldSize).Some?
  {
    var goldPool := GoldPool(rows, answers, user);
    var plainPool := PlainPool(rows, answers, user);
    match Shortfall(rows, answers, user, size, goldSize)
    case Some(e) =>
      forall b ensures !IsBatch(rows, answers, user, size, goldSize, b) {
        ShortfallMeansNoBatch(rows, answers, user, size, goldSize, b);
      }
      r := Err(e);
    case None =>
      var gold := Sample(goldPool, goldSize);
      var plain := Sample(plainPool, size - goldSize);
      assert gold * plain == {};
      assert (gold + plain) * GoldLocations(answers) == gold;
      r := Ok(gold + plain);
  }
}
