/**
 * The user test cases, replayed against the model: each method builds a
 * fresh database and checks, by proof, what the test asserts.
 */
module UserTests {
  import opened Outcomes
  import opened Tables
  import opened Answers
  import opened UserOperations

  method TestCreateUser() {
    var db := new Table<UserFields>();
    var user := CreateUser(db, "123");
    assert user.Ok? && user.value in db.rows;
  }

  method TestGetUserById() {
    var db := new Table<UserFields>();
    var user := CreateUser(db, "456");
    FindKeyed(db.rows, 0);
    var retrieved := Find(db.rows, user.value.id);
    assert retrieved.Some? && retrieved.value.val.clientId == "456";
  }

  method TestGetUserByClientId() {
    var db := new Table<UserFields>();
    var user := CreateUser(db, "456");
    var retrieved := GetUserByClientId(db.rows, "456");
    assert retrieved.Some? && retrieved.value.id == user.value.id;
  }

  method TestRemoveUser() {
    var db := new Table<UserFields>();
    var user := CreateUser(db, "789");
    assert user.Ok? && user.value in db.rows;
    var removed := RemoveUser(db, user.value.id);
    assert user.value !in db.rows;
  }

  method TestGetAllUsers() {
    var db := new Table<UserFields>();
    var user1 := CreateUser(db, "123");
    assert ClientIds(db.rows) == {"123"};
    var user2 := CreateUser(db, "456");
    assert user1.value in db.rows && user2.value in db.rows;
    assert |db.rows| == 2;
  }

  method TestGetUserCount() {
    var db := new Table<UserFields>();
    var user1 := CreateUser(db, "123");
    assert ClientIds(db.rows) == {"123"};
    var user2 := CreateUser(db, "456");
    assert Count(db.rows) == 2;
  }

  /**
   * The rule the test's data suggests for a correct answer: the same pair
   * of judgement values as the gold answer.
   */
  predicate SameJudgement(a: Answer, gold: Answer) {
    a.judgement == gold.judgement
  }

  /**
   * The answers of the done-count scenario: user 1 answers location 1
   * incorrectly, and location 2 once correctly and once incorrectly; user 2
   * (the admin) gives the gold answers.
   */
  function DoneScenarioAnswers(): seq<Answer> {
    [ Answer(1, 1, (1, 1), false),
      Answer(2, 1, (0, 1), true),
      Answer(1, 2, (1, 1), false),
      Answer(1, 2, (0, 0), false),
      Answer(2, 2, (1, 1), true) ]
  }

  /** Only location 2 counts for user 1. */
  lemma DoneScenarioLocations()
    ensures CorrectLocations(DoneScenarioAnswers(), 1, SameJudgement) == {2}
  {
    var answers := DoneScenarioAnswers();
    assert IsCorrect(answers[2], answers, SameJudgement) by {
      assert answers[4] in answers;
    }
    assert !IsCorrect(answers[0], answers, SameJudgement);
    assert answers[2] in answers;
  }

  method TestGetUserDoneLocationCount() {
    var users := new Table<UserFields>();
    var user1 := CreateUser(users, "123");
    assert ClientIds(users.rows) == {"123"};
    var admin := CreateUser(users, "ADMIN");
    assert user1.value.id == 1 && admin.value.id == 2;
    assert users.rows == [user1.value, admin.value];
    var answers := DoneScenarioAnswers();
    DoneScenarioLocations();
    var count := DoneLocationCount(users.rows, answers, "123", SameJudgement);
    assert count == Ok(1);
  }
}
