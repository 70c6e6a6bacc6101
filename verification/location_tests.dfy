/**
 * The location test cases, replayed against the model: each method builds a
 * fresh database and checks, by proof, what the test asserts.
 */
module LocationTests {
  import opened Outcomes
  import opened Tables
  import opened Answers
  import opened Sets
  import opened LocationOperations
  import opened UserOperations

  method TestCreateLocation() {
    var db := new Table<LocationFields>();
    var location := CreateLocation(db, "AAAA");
    assert location in db.rows;
    assert location.val.factoryId == "AAAA";
  }

  method TestRemoveLocation() {
    var db := new Table<LocationFields>();
    var location := CreateLocation(db, "EEEE");
    assert location in db.rows;
    var r := RemoveLocation(db, location.id);
    assert r == Ok(location);
    assert location !in db.rows;
  }

  method TestGetLocationById() {
    var db := new Table<LocationFields>();
    var location := CreateLocation(db, "AAAA");
    var retrieved := Find(db.rows, location.id);
    assert retrieved.Some? && retrieved.value.id == location.id;
  }

  method TestGetLocationByFactoryId() {
    var db := new Table<LocationFields>();
    var location := CreateLocation(db, "CCCC");
    var retrieved := GetLocationByFactoryId(db.rows, "CCCC");
    assert retrieved.Some? && retrieved.value.id == location.id;
  }

  method TestSetLocationDone() {
    var db := new Table<LocationFields>();
    var location := CreateLocation(db, "CCCC");
    assert !location.val.done;
    var done := SetLocationDone(db, location.id, true);
    assert done.Ok? && done.value.val.done;
  }

  /** Marks the location with key `id`, which is not done yet, as done. */
  method MarkDone(db: Table<LocationFields>, id: LocationId)
    requires db.Valid()
    requires Find(db.rows, id).Some? && !Find(db.rows, id).value.val.done
    modifies db
    ensures db.Valid() && Ids(db.rows) == Ids(old(db.rows))
    ensures DoneCount(db.rows) == DoneCount(old(db.rows)) + 1
    ensures forall k | k != id :: Find(db.rows, k) == Find(old(db.rows), k)
  {
    var loc := Find(db.rows, id).value;
    var k :| 0 <= k < |db.rows| && db.rows[k] == loc;
    DoneCountAfterSet(db.rows, k, loc.val.(done := true));
    var r := SetLocationDone(db, id, true);
  }

  /** Creates one location per factory id, in order, in a fresh table. */
  method CreateLocations(factoryIds: seq<string>) returns (db: Table<LocationFields>)
    ensures fresh(db) && db.Valid() && |db.rows| == |factoryIds|
    ensures forall i | 0 <= i < |factoryIds| :: db.rows[i] == Row(i + 1, LocationFields(factoryIds[i], false))
  {
    db := new Table<LocationFields>();
    for i := 0 to |factoryIds|
      invariant db.Valid() && |db.rows| == i && db.nextId == i + 1
      invariant forall j | 0 <= j < i :: db.rows[j] == Row(j + 1, LocationFields(factoryIds[j], false))
    {
      var l := CreateLocation(db, factoryIds[i]);
    }
  }

  /** A table where nothing is marked done has a done count of zero. */
  lemma {:induction false} NoneDone(rows: seq<Location>)
    requires forall i | 0 <= i < |rows| :: !rows[i].val.done
    ensures DoneCount(rows) == 0
  {
    if rows != [] {
      assert forall i | 0 <= i < |rows[1..]| :: rows[1..][i] == rows[i + 1];
      NoneDone(rows[1..]);
    }
  }

  method TestGetLocationIsDoneCount() {
    var db := CreateLocations(["AAA", "BBB", "CCC", "DDD"]);
    NoneDone(db.rows);
    FindKeyed(db.rows, 0);
    FindKeyed(db.rows, 1);
    FindKeyed(db.rows, 3);
    MarkDone(db, 1);
    MarkDone(db, 2);
    MarkDone(db, 4);
    assert DoneCount(db.rows) == 3;
  }

  method TestGetLocationCount() {
    var db := new Table<LocationFields>();
    var l1 := CreateLocation(db, "AAA");
    var l2 := CreateLocation(db, "BBB");
    var l3 := CreateLocation(db, "CCC");
    var l4 := CreateLocation(db, "DDD");
    assert Count(db.rows) == 4;
  }

  /** A batch in the scenario below holds exactly one of the two gold locations. */
  lemma OneOfTwoGold(batch: set<LocationId>, gold: set<LocationId>, g1: LocationId, g2: LocationId)
    requires g1 != g2 && gold == {g1, g2}
    requires |batch * gold| == 1
    ensures (g1 in batch) != (g2 in batch)
  {
    if g1 in batch && g2 in batch {
      SubsetCard({g1, g2}, batch * gold);
    }
  }

  /**
   * The answers of the allocation scenario: user 1 answered locations 1 to 5,
   * with gold answers only on 2 and 3; user 2 answered 7 and 8; nobody
   * answered 6.
   */
  function ScenarioAnswers(): seq<Answer> {
    [ Answer(1, 1, (1, 1), false),
      Answer(1, 2, (1, 1), true), Answer(1, 2, (1, 1), false), Answer(1, 2, (1, 1), false),
      Answer(1, 3, (1, 1), true), Answer(1, 3, (1, 1), false), Answer(1, 3, (1, 1), false),
      Answer(1, 4, (1, 1), false), Answer(1, 4, (1, 1), false), Answer(1, 4, (1, 1), false),
      Answer(1, 5, (1, 1), false), Answer(1, 5, (1, 1), false),
      Answer(2, 7, (1, 1), false),
      Answer(2, 8, (1, 1), false) ]
  }

  lemma ScenarioGold()
    ensures GoldLocations(ScenarioAnswers()) == {2, 3}
  {
    var answers := ScenarioAnswers();
    assert answers[1] in answers && answers[4] in answers;
  }

  lemma ScenarioAnswered()
    ensures AnsweredBy(ScenarioAnswers(), 2) == {7, 8}
  {
    var answers := ScenarioAnswers();
    assert answers[12] in answers && answers[13] in answers;
  }

  /** Eight locations with ids 1 to 8, in creation order. */
  predicate ScenarioTable(rows: seq<Location>) {
    |rows| == 8 && forall i | 0 <= i < 8 :: rows[i].id == i + 1
  }

  lemma ScenarioIds(rows: seq<Location>)
    requires ScenarioTable(rows)
    ensures Ids(rows) == {1, 2, 3, 4, 5, 6, 7, 8}
  {
    forall k | k in {1, 2, 3, 4, 5, 6, 7, 8} ensures k in Ids(rows) {
      assert rows[k - 1] in rows;
    }
  }

  /** The pools user 2 sees: gold {2, 3} and plain {1, 4, 5, 6}. */
  lemma ScenarioPools(rows: seq<Location>)
    requires ScenarioTable(rows)
    ensures GoldPool(rows, ScenarioAnswers(), 2) == {2, 3}
    ensures PlainPool(rows, ScenarioAnswers(), 2) == {1, 4, 5, 6}
  {
    ScenarioIds(rows);
    ScenarioGold();
    ScenarioAnswered();
    var unanswered: set<LocationId> := {1, 2, 3, 4, 5, 6, 7, 8} - {7, 8};
    assert unanswered == {1, 2, 3, 4, 5, 6};
    assert Unanswered(rows, ScenarioAnswers(), 2) == unanswered;
    assert unanswered * {2, 3} == {2, 3};
    assert unanswered - {2, 3} == {1, 4, 5, 6};
  }

  lemma ScenarioPoolSizes(gold: set<LocationId>, plain: set<LocationId>)
    requires gold == {2, 3} && plain == {1, 4, 5, 6}
    ensures |gold| == 2 && |plain| == 4
  {
  }

  /**
   * In the scenario, user 2 can get a batch of 5 with 1 gold location, not
   * one with 3 gold locations, and not a batch of 7.
   */
  lemma ScenarioShortfalls(rows: seq<Location>)
    requires ScenarioTable(rows)
    ensures Shortfall(rows, ScenarioAnswers(), 2, 5, 1).None?
    ensures Shortfall(rows, ScenarioAnswers(), 2, 5, 3) == Some(InsufficientGoldPool)
    ensures Shortfall(rows, ScenarioAnswers(), 2, 7, 3).Some?
  {
    ScenarioPools(rows);
    ScenarioPoolSizes(GoldPool(rows, ScenarioAnswers(), 2), PlainPool(rows, ScenarioAnswers(), 2));
  }

  /**
   * Every batch of 5 with 1 gold location for user 2 holds exactly one of
   * locations 2 and 3, and neither 7 nor 8.
   */
  lemma ScenarioBatch(rows: seq<Location>, batch: set<LocationId>)
    requires ScenarioTable(rows)
    requires IsBatch(rows, ScenarioAnswers(), 2, 5, 1, batch)
    ensures |batch| == 5
    ensures (2 in batch) != (3 in batch)
    ensures 7 !in batch && 8 !in batch
  {
    ScenarioGold();
    ScenarioAnswered();
    OneOfTwoGold(batch, GoldLocations(ScenarioAnswers()), 2, 3);
  }

  method TestGetLocations() {
    var users := new Table<UserFields>();
    var r1 := CreateUser(users, "111");
    assert ClientIds(users.rows) == {"111"};
    var r2 := CreateUser(users, "222");
    var u1, u2 := r1.value, r2.value;
    assert u1.id == 1 && u2.id == 2;

    var empty := GetLocations([], [], u2.id, 5, 1);
    assert empty.Err?;

    var db := CreateLocations(["AAA", "BBB", "CCC", "DDD", "EEE", "FFF", "GGG", "GGG"]);
    var rows := db.rows;
    var answers := ScenarioAnswers();
    ScenarioShortfalls(rows);

    for i := 0 to 5 {
      var locations := GetLocations(rows, answers, u2.id, 5, 1);
      assert locations.Ok?;
      ScenarioBatch(rows, locations.value);
      assert |locations.value| == 5;
      assert !(2 in locations.value && 3 in locations.value);
      assert 2 in locations.value || 3 in locations.value;
      assert !(7 in locations.value || 8 in locations.value);
    }

    // the gold pool {2, 3} is smaller than 3: InsufficientGoldPool
    var tooMuchGold := GetLocations(rows, answers, u2.id, 5, 3);
    assert tooMuchGold == Err(InsufficientGoldPool);

    // the gold pool is short again, and 6 unanswered locations cannot fill 7
    var tooMany := GetLocations(rows, answers, u2.id, 7, 3);
    assert tooMany.Err?;
  }
}
