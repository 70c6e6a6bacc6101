# SpotDiff location allocation — a Dafny model

SpotDiff hands out *locations* (factory sites to annotate) to *users*
(crowd workers). The back end keeps a location table, a user table and the
answers users submit. Some answers are *gold* answers: authoritative
answers used for quality control. Its central operation is
`get_locations(user_id, size, gold_size)`. It returns a batch of `size`
locations the user has not answered yet, and exactly `gold_size` of them
carry a gold answer. It fails when the unanswered pools are too small.

The model covers the operations pinned down by
`back-end/www/tests/location_tests.py` and `back-end/www/tests/user_tests.py`:

- `tables.dfy` (`Tables`): a table keyed by an auto-increment id. Rows are
  kept in creation order, ids start at 1 and strictly increase. A `Table`
  class holds the rows and the next id. `Insert`, `Remove` and `Set`
  change it in place. `Find` is lookup by id and `Count` counts rows.
- `locations.dfy` (`LocationOperations`): the location operations. Among
  them is `GetLocations`, the batch allocation. It is specified by
  `IsBatch` and validated by `Shortfall`. The random draw is modelled by
  `Sample`, which picks *any* `k` distinct members of a pool.
- `users.dfy` (`UserOperations`): the user operations and
  `DoneLocationCount`, the number of distinct locations a user answered
  correctly.
- `answers.dfy` (`Answers`): an answer as the two operations above see it.
  It records who answered which location, a pair of judgement values (the
  sixth and seventh arguments of `create_answer`, which the tests pass
  unnamed), and the gold flag.
- `outcomes.dfy`, `sets.dfy`: `Option`/`Result`, the error kinds, and a
  set-cardinality fact.
- `location_tests.dfy`, `user_tests.dfy`: each test case replayed as a
  method over fresh tables. What the test asserts is proved there.

How `GetLocations` validates: the gold pool is checked first,
and a short gold pool gives `InsufficientGoldPool`. Then the plain
(non-gold) pool must hold the other `size - gold_size` locations, or the
call gives `InsufficientTotalPool`. `GetLocations` proves that it fails
exactly when no valid batch exists.

## Model

| member | source | states |
|---|---|---|
| `LocationOperations.CreateLocation` | back-end/www/tests/location_tests.py:16-25 | the new location is in the table under a fresh id, carries the given factory id, is not done, and lookup by its id finds it |
| `LocationOperations.RemoveLocation` | back-end/www/tests/location_tests.py:28-39 | succeeds exactly when the id was present; afterwards no location has that id, lookups of every other id and the id counter are unchanged; NotFound otherwise |
| `Tables.Find` | back-end/www/tests/location_tests.py:42-52 | lookup by id finds something exactly when the id is in the table, and what it finds is a row with that id |
| `Tables.FindKeyed` | back-end/www/tests/user_tests.py:20-25 | in a table with unique increasing ids, looking up a row's id returns that very row |
| `LocationOperations.GetLocationByFactoryId` | back-end/www/tests/location_tests.py:55-65 | finds a location exactly when one has that factory id; the result has that factory id, and it is the earliest created of the locations sharing it |
| `LocationOperations.FactoryIdOfCreated` | back-end/www/tests/location_tests.py:62-65 | right after creating a location with a factory id no other location has, lookup by that factory id returns the new location |
| `LocationOperations.SetLocationDone` | back-end/www/tests/location_tests.py:68-79 | the location keeps its id and factory id, its done mark becomes the requested value, no other location changes, the id set and the id counter are unchanged; NotFound for an unknown id |
| `LocationOperations.DoneCount` | back-end/www/tests/location_tests.py:151-166 | the done count never exceeds the number of locations |
| `LocationOperations.DoneCountIsDoneIds` | back-end/www/tests/location_tests.py:151-166 | the done count equals the number of distinct locations marked done |
| `LocationOperations.DoneCountAfterSet` | back-end/www/tests/location_tests.py:161-166 | changing one location's done mark moves the done count by exactly one (up when set, down when cleared) or leaves it |
| `Tables.Count` | back-end/www/tests/location_tests.py:169-179 | the row count equals the number of distinct ids in the table |
| `Tables.KeyedIdsCount` | back-end/www/tests/user_tests.py:55-63 | in a table with unique ids, the number of rows is the number of distinct ids |
| `LocationOperations.Shortfall` | back-end/www/tests/location_tests.py:141-147 | fails with InsufficientGoldPool exactly when the unanswered gold pool is smaller than gold_size, otherwise InsufficientTotalPool or no failure; a total unanswered pool smaller than size always fails |
| `LocationOperations.EmptyTableFails` | back-end/www/tests/location_tests.py:96-98 | with no locations, any request for a non-empty batch fails |
| `LocationOperations.PoolsSplit` | back-end/www/tests/location_tests.py:109 | the unanswered locations split into the gold pool and the plain pool, so their sizes add up |
| `LocationOperations.BatchNeedsPools` | back-end/www/tests/location_tests.py:133-139 | any valid batch takes gold_size locations from the gold pool and the rest from the plain pool, so both pools are large enough |
| `LocationOperations.ShortfallMeansNoBatch` | back-end/www/tests/location_tests.py:141-147 | when validation fails, no set of locations is a valid batch |
| `LocationOperations.Sample` | back-end/www/tests/location_tests.py:133-134 | draws exactly k distinct members of the pool |
| `LocationOperations.GetLocations` | back-end/www/tests/location_tests.py:82-147 | on success: size distinct locations of the table, none answered by the user, exactly gold_size with a gold answer; on failure: no such batch exists, and the error is InsufficientGoldPool when the gold pool is short, else InsufficientTotalPool; it fails exactly when validation does |
| `LocationTests.ScenarioPools` | back-end/www/tests/location_tests.py:100-129 | in the test's data, user 2 sees the gold pool {2, 3} and the plain pool {1, 4, 5, 6} |
| `LocationTests.ScenarioShortfalls` | back-end/www/tests/location_tests.py:141-147 | in the test's data, (5, 1) passes validation, (5, 3) fails for the gold pool, (7, 3) fails |
| `LocationTests.ScenarioBatch` | back-end/www/tests/location_tests.py:133-139 | in the test's data, every valid batch of 5 with 1 gold holds exactly one of locations 2 and 3 and neither 7 nor 8 |
| `UserOperations.CreateUser` | back-end/www/tests/user_tests.py:15-17 | the new user is in the table under a fresh id with the given client id; a client id already in use is refused; client ids stay unique |
| `UserOperations.GetUserByClientId` | back-end/www/tests/user_tests.py:28-32 | finds a user exactly when one has that client id; with unique client ids it is the user created with it |
| `UserOperations.ClientIdOfCreated` | back-end/www/tests/user_tests.py:28-32 | right after creating a user, lookup by its client id returns that user |
| `UserOperations.RemoveUser` | back-end/www/tests/user_tests.py:35-41 | succeeds exactly when the id was present; afterwards no user has that id, other lookups and the id counter are unchanged, client ids stay unique; NotFound otherwise |
| `UserOperations.DoneLocationCount` | back-end/www/tests/user_tests.py:66-87 | fails with NotFound exactly when no user has the client id; otherwise the count is the number of distinct locations where the user has a correct answer, and at most the number of distinct locations the user answered |
| `UserOperations.CorrectLocationsAnswered` | back-end/www/tests/user_tests.py:81-86 | only locations the user answered can be counted; gold answers of other users add none by themselves |
| `UserOperations.CorrectLocationsAppend` | back-end/www/tests/user_tests.py:81-86 | a new non-gold answer adds its location exactly when it is the user's own and correct; a location is counted once however many correct answers it has |
| `UserTests.DoneScenarioLocations` | back-end/www/tests/user_tests.py:66-87 | in the test's data, user 1's correctly answered locations are exactly {2}, so the count is 1 |
| `Tables.Table.Insert` | back-end/www/tests/user_tests.py:44-52 | appends one row with the next id and the given value; the table stays keyed |
| `Tables.FindAfterDelete` | back-end/www/tests/user_tests.py:35-41 | after deleting an id it is not found, and every other lookup is unchanged |
| `Tables.FindAfterUpdate` | back-end/www/tests/location_tests.py:78-79 | after an update the id holds the new value when it was present, and every other lookup is unchanged |

## Left out

- The database session, `db.create_all()` and the test harness class. The tables are in-memory objects and each test builds fresh ones.
- `answer_operations.create_answer` is not part of this model. Answers are a sequence passed to the operations that read them.
- Answer fields other than the user, the location, the pair of judgement values and the gold flag (years, URL, bounding box, zoom).
- The `done_at` timestamp: only whether it is set is kept.
- The uniform distribution of the random draw: `Sample` may return any subset of the right size.
- Concurrent callers and snapshot consistency: every operation runs alone.
- The store being unreachable, and exact exception types: failures are values of `Error`.
- `get_all_users`: it returns the user table's rows, which the model exposes as `Table.rows` without a separate function.
- `GetLocations`: returns the ids of the chosen locations rather than the location objects. It takes the user id as given and does not check that the user exists. It requires `gold_size <= size`: the gold locations are part of the batch, so a batch of `size` cannot hold more than `size` of them, and every call in location_tests.py passes such arguments.
- `LocationOperations.Shortfall`: the second check could be phrased as "the unanswered pool, gold and plain together, is smaller than `size`". That phrasing alone would accept requests that cannot be filled with exactly `gold_size` gold locations, such as a gold pool of 5, an empty plain pool, `size` 5 and `gold_size` 1. The model therefore checks the plain pool against `size - gold_size`, and its contract proves that a total pool smaller than `size` still fails.
- `LocationOperations.GetLocationByFactoryId`: the tests only look up a factory id that one location has. Which location comes back when several share a factory id is not shown; returning the earliest created is this model's choice.
- `DoneLocationCount`: the rule that makes an answer correct is a parameter `agrees`. An answer is correct when it agrees with some gold answer for the same location. The test scenario instantiates `agrees` as an equal pair of judgement values.
- `RemoveLocation`, `RemoveUser`, `SetLocationDone` and `DoneLocationCount`: the tests never show what the program does with an unknown id or client id; reporting NotFound is this model's choice.
- `RemoveLocation`, `RemoveUser`: whether the database hands out a deleted id again is not shown; in the model the id counter never moves back, so a deleted id is not reused.
- `CreateUser`: the tests never reuse a client id; refusing one already in use with DuplicateClientId is this model's choice, made so that client ids stay unique.
