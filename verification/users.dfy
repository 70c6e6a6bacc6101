/**
 * User operations: the user table (create, remove, lookups, count) and the
 * number of distinct locations a user has answered correctly.
 */
module UserOperations {
  import opened Outcomes
  import opened Tables
  import opened Answers
  import opened Sets

  datatype UserFields = UserFields(clientId: string)

  type User = Row<UserFields>

  function ClientIds(rows: seq<User>): set<string> {
    set u | u in rows :: u.val.clientId
  }

  /** No two users share a client id. */
  predicate UniqueClients(rows: seq<User>) {
    forall u, v | u in rows && v in rows && u.val.clientId == v.val.clientId :: u.id == v.id
  }

  /**
   * create_user: a new user with the given client id; client ids are
   * unique, so a repeated one is refused.
   */
  method CreateUser(db: Table<UserFields>, clientId: string) returns (r: Result<User>)
    requires db.Valid()
    modifies db
    ensures db.Valid()
    ensures r.Err? <==> clientId in ClientIds(old(db.rows))
    ensures r.Err? ==> r.error == DuplicateClientId && db.rows == old(db.rows)
    ensures r.Ok? ==> r.value.val.clientId == clientId && r.value.id !in Ids(old(db.rows))
    ensures r.Ok? ==> db.rows == old(db.rows) + [r.value] && r.value.id == old(db.nextId)
    ensures db.nextId == old(db.nextId) + (if r.Ok? then 1 else 0)
    ensures UniqueClients(old(db.rows)) ==> UniqueClients(db.rows)
  {
    if clientId in ClientIds(db.rows) {
      r := Err(DuplicateClientId);
    } else {
      var user := db.Insert(UserFields(clientId));
      r := Ok(user);
      assert forall u | u in db.rows :: u in old(db.rows) || u == user;
    }
  }

  /** remove_user: deletes the user with that id; NotFound when there is none. */
  method RemoveUser(db: Table<UserFields>, id: UserId) returns (r: Result<User>)
    requires db.Valid()
    modifies db
    ensures db.Valid() && db.nextId == old(db.nextId)
    ensures r.Ok? <==> id in Ids(old(db.rows))
    ensures r.Ok? ==> Find(old(db.rows), id) == Some(r.value) && db.rows == Delete(old(db.rows), id)
    ensures r.Err? ==> r.error == NotFound && db.rows == old(db.rows)
    ensures Find(db.rows, id).None?
    ensures forall k | k != id :: Find(db.rows, k) == Find(old(db.rows), k)
    ensures UniqueClients(old(db.rows)) ==> UniqueClients(db.rows)
  {
    r := db.Remove(id);
  }

  /** get_user_by_client_id. */
  function GetUserByClientId(rows: seq<User>, clientId: string): (r: Option<User>)
    ensures r.Some? <==> clientId in ClientIds(rows)
    ensures r.Some? ==> r.value in rows && r.value.val.clientId == clientId
    ensures r.Some? && UniqueClients(rows) ==>
      forall u | u in rows && u.val.clientId == clientId :: u.id == r.value.id
  {
    if rows == [] then None
    else if rows[0].val.clientId == clientId then Some(rows[0])
    else
      assert ClientIds(rows) == {rows[0].val.clientId} + ClientIds(rows[1..]);
      assert forall u | u in rows[1..] :: u in rows;
      GetUserByClientId(rows[1..], clientId)
  }

  /** Right after a user is created, looking its client id up returns that user. */
  lemma {:induction false} ClientIdOfCreated(rows: seq<User>, user: User)
    requires user.val.clientId !in ClientIds(rows)
    ensures GetUserByClientId(rows + [user], user.val.clientId) == Some(user)
  {
    if rows != [] {
      assert (rows + [user])[1..] == rows[1..] + [user];
      assert ClientIds(rows) == {rows[0].val.clientId} + ClientIds(rows[1..]);
      ClientIdOfCreated(rows[1..], user);
    }
  }

  // ---------------------------------------------------------------------
  // Locations a user has done correctly
  // ---------------------------------------------------------------------

  /**
   * An answer is correct when it agrees with some gold answer for the same
   * location; `agrees` is the comparison rule, left as a parameter.
   */
  predicate IsCorrect(a: Answer, answers: seq<Answer>, agrees: (Answer, Answer) -> bool) {
    exists g | g in answers :: g.isGold && g.locationId == a.locationId && agrees(a, g)
  }

  /** Locations where the user has at least one correct answer. */
  function CorrectLocations(answers: seq<Answer>, user: UserId, agrees: (Answer, Answer) -> bool): set<LocationId> {
    set a | a in answers && a.userId == user && IsCorrect(a, answers, agrees) :: a.locationId
  }

  /**
   * get_user_done_location_count(client_id): the number of distinct
   * locations the user with that client id has answered correctly.
   */
  function DoneLocationCount(users: seq<User>, answers: seq<Answer>, clientId: string, agrees: (Answer, Answer) -> bool)
    : (r: Result<nat>)
    ensures r.Err? <==> clientId !in ClientIds(users)
    ensures r.Err? ==> r.error == NotFound
    ensures r.Ok? ==> r.value == |CorrectLocations(answers, GetUserByClientId(users, clientId).value.id, agrees)|
    ensures r.Ok? ==> r.value <= |AnsweredBy(answers, GetUserByClientId(users, clientId).value.id)|
  {
    match GetUserByClientId(users, clientId)
    case None => Err(NotFound)
    case Some(user) =>
      CorrectLocationsAnswered(answers, user.id, agrees);
      SubsetCard(CorrectLocations(answers, user.id, agrees), AnsweredBy(answers, user.id));
      Ok(|CorrectLocations(answers, user.id, agrees)|)
  }

  /** Only locations the user answered can count for the user. */
  lemma CorrectLocationsAnswered(answers: seq<Answer>, user: UserId, agrees: (Answer, Answer) -> bool)
    ensures CorrectLocations(answers, user, agrees) <= AnsweredBy(answers, user)
  {
    forall l | l in CorrectLocations(answers, user, agrees) ensures l in AnsweredBy(answers, user) {
      var a :| a in answers && a.userId == user && IsCorrect(a, answers, agrees) && a.locationId == l;
    }
  }

  /**
   * Submitting a non-gold answer adds its location when, and only when, it
   * is the user's own answer and it is correct; otherwise the counted
   * locations stay as they were.  A location is counted once however many
   * correct answers it has.
   */
  lemma CorrectLocationsAppend(answers: seq<Answer>, a: Answer, user: UserId, agrees: (Answer, Answer) -> bool)
    requires !a.isGold
    ensures CorrectLocations(answers + [a], user, agrees)
         == CorrectLocations(answers, user, agrees)
          + (if a.userId == user && IsCorrect(a, answers, agrees) then {a.locationId} else {})
  {
    var after := answers + [a];
    forall b | b in answers ensures IsCorrect(b, after, agrees) == IsCorrect(b, answers, agrees) {
      if IsCorrect(b, after, agrees) {
        var g :| g in after && g.isGold && g.locationId == b.locationId && agrees(b, g);
        assert g in answers;
      }
    }
    if IsCorrect(a, after, agrees) {
      var g :| g in after && g.isGold && g.locationId == a.locationId && agrees(a, g);
      assert g in answers;
    }
  }
}
