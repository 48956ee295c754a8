# Database-access handlers of the benchmark, modelled in Dafny

This project models the two Java handlers that carry the logic of the benchmark's
database tests:

- the muserver `JDBCDbService`, with three operations:
  - `getWorld` reads one `World` row per requested id, in order.
  - `updateWorld` re-reads the rows and gives each one a freshly drawn value that
    differs from the value it read. It stages one `UPDATE` per row in a JDBC batch,
    executes the batch, commits, and returns the rows with their new values.
  - `getFortune` reads every `Fortune` row, appends one synthetic fortune and sorts
    the list by message.
- the smart-socket `MultipleQueriesHandler`. It clamps the `queries` parameter to
  [1, 500] and fills a `World[queries]` array from one keyed lookup per slot. If a
  lookup raises `SQLException`, the rest of the array stays `null`. The array is
  written to the response either way, and the request's future is completed in a
  `finally` block.

The database is state: a `Database` object holds the `World` table as a map from
id to `randomNumber`, and the `Fortune` table as the sequence of rows its query
returns. Each JDBC call that can raise `SQLException` is named by a `Fault`
argument. A failure becomes a `Failure` result, which stands for the
`RuntimeException` the Java methods throw. A `select ... where id = ?` that finds
no row also fails, as `NoRow(id)`. In that case `rs.next()` returns false, so the
`rs.getInt` that follows raises. An `update ... where id = ?` for an id with no
row changes nothing.

Modules:

- `Wrappers`: `Option` and `Result`.
- `Worlds`: the `World` row and the `World` table.
- `FortuneOrder`: the `Fortune` row, the message order of `String.compareTo`, and a
  reference stable sort. A proof shows that this sort has the only result any
  stable sort can have.
- `JdbcDbService`: the muserver service.
- `MultipleQueriesHandler`: the smart-socket handler.

Inputs that come from code outside this model are parameters:

- The ids of `getRandomNumberSet(num)` are a sequence. It may repeat an id, and
  its length need not be `num`.
- The `getRandomNumber()` draws seen by each row's do-while loop are a sequence.
- The synthetic fortune (`defaultFortuneId`, `defaultFortuneMessage`) is a
  parameter.
- The integer `FeatUtils.toInt` parses from the `queries` parameter is an
  `Option<int>`.
- The `nextInt(10000)` results are a sequence of integers in [0, 10000).

## Model

| member | source | states |
|---|---|---|
| `JdbcDbService.GetWorld` | frameworks/Java/muserver/src/main/java/benchmark/repository/JDBCDbService.java:17-38 | Succeeds exactly when the connection and statement can be set up and every lookup returns its row. A connection fault fails it even for an empty id list. On success there is one `World` per queried id, in query order, each with the queried id and that row's current `randomNumber`. On failure the error is the one raised by the first failing lookup, and no partial list is returned. It changes nothing (no `modifies`). |
| `JdbcDbService.FirstDifferent` | frameworks/Java/muserver/src/main/java/benchmark/repository/JDBCDbService.java:75-78 | The value the do-while loop settles on differs from the row's current value, and every draw before it equalled that value. |
| `JdbcDbService.DrawUntilDifferent` | frameworks/Java/muserver/src/main/java/benchmark/repository/JDBCDbService.java:75-78 | The do-while loop stops at a draw that differs from the row's current value, and that draw is the first such one. |
| `JdbcDbService.FirstDifferentAt` | frameworks/Java/muserver/src/main/java/benchmark/repository/JDBCDbService.java:75-78 | If draw j is the first draw that differs from the current value, the loop settles on draw j. |
| `JdbcDbService.ApplyWrites` | frameworks/Java/muserver/src/main/java/benchmark/repository/JDBCDbService.java:80-87 | Executing the staged updates never adds or removes a row: the table keeps its set of ids. |
| `JdbcDbService.ApplyWritesUntouched` | frameworks/Java/muserver/src/main/java/benchmark/repository/JDBCDbService.java:80-87 | A row that no staged update names keeps its value. |
| `JdbcDbService.ApplyWritesLastWins` | frameworks/Java/muserver/src/main/java/benchmark/repository/JDBCDbService.java:80-87 | The updates apply in batch order: a row ends with the value of the last update that names it. |
| `JdbcDbService.ApplyWritesChangesEveryRow` | frameworks/Java/muserver/src/main/java/benchmark/repository/JDBCDbService.java:74-87 | If every staged value differs from its row's value before the batch, every row the batch names has a different value afterwards, even when an id repeats. |
| `JdbcDbService.UpdateWorld` | frameworks/Java/muserver/src/main/java/benchmark/repository/JDBCDbService.java:64-93 | Succeeds exactly when the connection can be set up, every lookup succeeds, and no staging, batch or commit call raises. On failure the `World` table is unchanged (auto-commit is off and the uncommitted batch is discarded), and nothing is returned. On success, result i has id `ids[i]` and the value the rejection loop chose for row i, which differs from the old value. The new table is the old one with the returned rows written in order. Ids outside the batch keep their values, every id in it changes, and the `Fortune` table is untouched. |
| `JdbcDbService.GetFortune` | frameworks/Java/muserver/src/main/java/benchmark/repository/JDBCDbService.java:41-61 | Fails when the connection or statement cannot be set up, or when a fetch of the fortune query raises. Otherwise the result is the stored fortunes plus the sentinel: one entry longer than the table, and a permutation of it with the sentinel added. It is sorted ascending by message, and entries with equal messages keep their read order. It equals the reference stable sort. |
| `FortuneOrder.MessageLe` | frameworks/Java/muserver/src/main/java/benchmark/repository/JDBCDbService.java:59 | `a.compareTo(b) <= 0` on messages: a proper prefix of a message, or the message itself, comes at or before it, and a message never comes at or before its own proper prefix; so the empty string is below every non-empty one. |
| `FortuneOrder.MessageLeFirstDifference` | frameworks/Java/muserver/src/main/java/benchmark/repository/JDBCDbService.java:59 | When two messages agree up to position k and differ there, the one with the smaller character at k comes first: the first differing character decides. |
| `FortuneOrder.MessageLeTotal` | frameworks/Java/muserver/src/main/java/benchmark/repository/JDBCDbService.java:59 | Any two messages are comparable under `compareTo`. |
| `FortuneOrder.MessageLeTransitive` | frameworks/Java/muserver/src/main/java/benchmark/repository/JDBCDbService.java:59 | The message order is transitive. |
| `FortuneOrder.MessageLeAntisymmetric` | frameworks/Java/muserver/src/main/java/benchmark/repository/JDBCDbService.java:59 | Two messages that each compare at most the other are equal, so ties occur only between equal messages. |
| `FortuneOrder.SortByMessage` | frameworks/Java/muserver/src/main/java/benchmark/repository/JDBCDbService.java:59 | The sorted list is a permutation of its input and has the same length. |
| `FortuneOrder.SortByMessageSorted` | frameworks/Java/muserver/src/main/java/benchmark/repository/JDBCDbService.java:59 | The sorted list is in ascending message order. |
| `FortuneOrder.SortByMessageStable` | frameworks/Java/muserver/src/main/java/benchmark/repository/JDBCDbService.java:59 | The sort is stable: for each message, the entries that carry it keep their input order. |
| `FortuneOrder.SortByMessageIsTheStableSort` | frameworks/Java/muserver/src/main/java/benchmark/repository/JDBCDbService.java:59 | Any sequence that is sorted by message and keeps each message's entries in input order is the reference sort. So `List.sort`, a stable sort, returns it. |
| `MultipleQueriesHandler.Clamp` | frameworks/Java/smart-socket/src/main/java/org/smartboot/http/MultipleQueriesHandler.java:34 | The result lies in [1, 500]. Values below 1 become 1, values above 500 become 500, and values in range are unchanged, so clamping twice equals clamping once. |
| `MultipleQueriesHandler.Queries` | frameworks/Java/smart-socket/src/main/java/org/smartboot/http/MultipleQueriesHandler.java:34 | The effective query count lies in [1, 500]. A missing or unparsable parameter gives 1, values of 0 or below give 1, values above 500 give 500, and others pass through. |
| `MultipleQueriesHandler.RandomNumber` | frameworks/Java/smart-socket/src/main/java/org/smartboot/http/MultipleQueriesHandler.java:67-69 | Every key lies in [1, 10000]. |
| `MultipleQueriesHandler.RandomNumberOneToOne` | frameworks/Java/smart-socket/src/main/java/org/smartboot/http/MultipleQueriesHandler.java:67-69 | Each key in [1, 10000] comes from exactly one `nextInt` result, so uniform draws give uniform keys. |
| `MultipleQueriesHandler.FillWorlds` | frameworks/Java/smart-socket/src/main/java/org/smartboot/http/MultipleQueriesHandler.java:35-52 | The array has `queries` slots. Slot i holds the row of lookup i, keyed by the i-th drawn key, when lookups 0..i all succeeded, and is `null` otherwise. |
| `MultipleQueriesHandler.FirstFailureSplitsSlots` | frameworks/Java/smart-socket/src/main/java/org/smartboot/http/MultipleQueriesHandler.java:39-52 | If lookup k is the first to raise, slots 0..k-1 are filled and slots k..queries-1 stay `null`. |
| `MultipleQueriesHandler.Handle` | frameworks/Java/smart-socket/src/main/java/org/smartboot/http/MultipleQueriesHandler.java:30-58 | On every path, the response gets content type `application/json` and the array of `Queries(parsed)` slots, filled as above even after a failed lookup, and the future ends up completed. |
| `MultipleQueriesHandler.Completion.Complete` | frameworks/Java/smart-socket/src/main/java/org/smartboot/http/MultipleQueriesHandler.java:56 | The future is completed afterwards. The call reports that it caused the transition exactly when the future was not already complete. |

## Left out

- Connections, prepared statements, result sets, and their closing by
  try-with-resources are not modelled. `JDBCConnectionFactory` and the `DataSource`
  are not modelled either. What remains of them is the table state and the `Fault`
  argument that names the call that raises.
- A failing `getConnection` or `prepareStatement` is the `ConnectionFault`. It
  fails `getWorld` and `getFortune` even when there is nothing to read. In
  `updateWorld`, it fails the `getWorld` call that comes first. A failure of
  `updateWorld`'s own connection, statement or `setAutoCommit` is not a separate
  fault. Its outcome is the same as that of `ExecuteBatchFault`: an exception,
  and nothing committed.
- `getRandomNumberSet`, the muserver `getRandomNumber`, `defaultFortuneId`,
  `defaultFortuneMessage`, `World.copy` and `FeatUtils.toInt` are not part of this
  model. Their results are parameters. `World.copy(null, n)` is taken to keep the
  id and set the number.
- The quality of `ThreadLocalRandom` is not modelled. Only the range of
  `nextInt(10000)` is kept, as a precondition on the draws.
- JdbcDbService.UpdateWorld: the do-while loop has no cap. The model gives each row
  its own sequence of draws and requires that some draw differ from the row's
  value. It therefore does not cover a loop that never ends. Giving each row its
  own sequence is equivalent to splitting the single stream of draws into the
  slices that consecutive rows consume.
- `Thread.startVirtualThread`, `CompletableFuture` beyond its completed flag, and
  concurrency between requests are not modelled. `Handle` is the thread body run
  to its end.
- `JsonUtil.writeJsonBytes` and the JSON and HTML rendering are not modelled. The
  response records the array written, with `null` slots shown as `None`.
- Exceptions other than `SQLException` inside the handler are not modelled; for
  example, one raised while writing the response. The `finally` block would still
  complete the future, but no such path exists in the model.
- The `printStackTrace` logging of a caught exception is not modelled.
- Integers are unbounded. Ids, values and the parsed parameter are Java `int`s,
  but no arithmetic in the modelled code can overflow.
- A parameter too large for an `int` is taken as unparsable, as `Integer.parseInt`
  would treat it. So it yields 1 rather than 500.
- Strings are sequences of Unicode scalar values, and their order compares those
  values. `String.compareTo` compares UTF-16 code units, and the two orders differ
  only for characters outside the Basic Multilingual Plane.
- JdbcDbService.UpdateWorld: `updateWorld` never calls `rollback()`. That the
  table is unchanged after a failure before the commit relies on the driver or the
  pool discarding the uncommitted batch when the connection is closed, which JDBC
  leaves to the implementation.
- When a lookup raises, `MultipleQueriesHandler` logs the exception and still
  writes the partially filled array. It sends no error response, and `Handle`
  models exactly that.
