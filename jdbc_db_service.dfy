/** The muserver `JDBCDbService`: keyed point lookups on `World`, the batched
    update of freshly drawn random numbers, and the fortune listing.

    The database is a `Database` object holding the `World` table as a map from
    id to randomNumber and the `Fortune` table as the rows its query returns, in
    that order. Where the JDBC driver may raise `SQLException`, the model takes
    a `Fault` naming the call that raises; the Java method then throws a
    `RuntimeException`, modelled as a `Failure` result. */
module JdbcDbService {
  import opened Wrappers
  import opened Worlds
  import opened FortuneOrder

  /** The driver call that raises `SQLException`, if any. */
  datatype Fault =
    | NoFault
      /** `getConnection` or `prepareStatement` raises, before any statement runs */
    | ConnectionFault
      /** the k-th round trip of a query: lookup k of `getWorld`, or the k-th
          `rs.next()` of the fortune query */
    | QueryFault(k: nat)
      /** `setInt`/`addBatch` for row k of `updateWorld` */
    | StageFault(k: nat)
    | ExecuteBatchFault
    | CommitFault

  datatype SqlError =
      /** `rs.next()` found no row for the id, so the following `rs.getInt` raised */
    | NoRow(id: int)
      /** the driver raised at the call named by the `Fault` */
    | DriverError

  /** The two benchmark tables as the database holds them. */
  class Database {
    var world: Table
    var fortune: seq<Fortune>

    constructor (world: Table, fortune: seq<Fortune>)
      ensures this.world == world && this.fortune == fortune
    {
      this.world := world;
      this.fortune := fortune;
    }
  }

  // ---------------------------------------------------------------------------
  // getWorld

  /** Lookup k of the id sequence returns its row. */
  predicate LookupOk(world: Table, ids: seq<int>, fault: Fault, k: nat)
    requires k < |ids|
  {
    fault != QueryFault(k) && ids[k] in world
  }

  /** What lookup k raises when it does not return a row. */
  function LookupError(world: Table, ids: seq<int>, fault: Fault, k: nat): SqlError
    requires k < |ids|
  {
    if fault == QueryFault(k) then DriverError else NoRow(ids[k])
  }

  /** Lookup k is the first lookup that fails. */
  predicate FirstFailingLookup(world: Table, ids: seq<int>, fault: Fault, k: nat)
  {
    && k < |ids|
    && !LookupOk(world, ids, fault, k)
    && forall j :: 0 <= j < k ==> LookupOk(world, ids, fault, j)
  }

  /** `getWorld`: one `select ... where id = ?` per id, in the order of `ids`,
      appending each row read. `ids` stands for `getRandomNumberSet(num)` and may
      repeat an id. Reads the database and changes nothing (no `modifies`). */
  method GetWorld(db: Database, ids: seq<int>, fault: Fault) returns (r: Result<seq<World>, SqlError>)
    ensures r.Success? <==> fault != ConnectionFault && forall k :: 0 <= k < |ids| ==> LookupOk(db.world, ids, fault, k)
    ensures fault == ConnectionFault ==> r == Failure(DriverError)
    ensures r.Success? ==> |r.value| == |ids|
    ensures r.Success? ==> forall i :: 0 <= i < |ids| ==> ids[i] in db.world && r.value[i] == World(ids[i], db.world[ids[i]])
    ensures r.Failure? && fault != ConnectionFault ==>
              exists k :: FirstFailingLookup(db.world, ids, fault, k) && r.error == LookupError(db.world, ids, fault, k)
  {
    if fault == ConnectionFault {
      return Failure(DriverError);
    }
    var worldList: seq<World> := [];
    var i := 0;
    while i < |ids|
      invariant 0 <= i <= |ids| && |worldList| == i
      invariant forall j :: 0 <= j < i ==> LookupOk(db.world, ids, fault, j)
      invariant forall j :: 0 <= j < i ==> ids[j] in db.world && worldList[j] == World(ids[j], db.world[ids[j]])
    {
      if fault == QueryFault(i) {
        assert FirstFailingLookup(db.world, ids, fault, i);
        return Failure(DriverError);
      }
      if ids[i] !in db.world {
        assert FirstFailingLookup(db.world, ids, fault, i);
        return Failure(NoRow(ids[i]));
      }
      worldList := worldList + [World(ids[i], db.world[ids[i]])];
      i := i + 1;
    }
    return Success(worldList);
  }

  // ---------------------------------------------------------------------------
  // updateWorld: the rejection loop

  /** Some draw in `c` differs from `v`, so the do-while loop over `c` stops. */
  predicate Escapes(c: seq<int>, v: int)
  {
    exists j :: 0 <= j < |c| && c[j] != v
  }

  /** The value the do-while loop of `updateWorld` settles on when its successive
      `getRandomNumber()` draws are `c` and the row's current value is `v`. */
  function FirstDifferent(c: seq<int>, v: int): (d: int)
    requires Escapes(c, v)
    ensures d != v
    ensures exists j :: 0 <= j < |c| && c[j] == d && forall t :: 0 <= t < j ==> c[t] == v
  {
    if c[0] != v then
      c[0]
    else
      assert Escapes(c[1..], v) by {
        var j :| 0 <= j < |c| && c[j] != v;
        assert c[1..][j - 1] == c[j];
      }
      var d := FirstDifferent(c[1..], v);
      assert exists j :: 0 <= j < |c| && c[j] == d && forall t :: 0 <= t < j ==> c[t] == v by {
        var j :| 0 <= j < |c[1..]| && c[1..][j] == d && forall t :: 0 <= t < j ==> c[1..][t] == v;
        assert c[j + 1] == d;
        assert forall t :: 0 < t < j + 1 ==> c[t] == c[1..][t - 1];
      }
      d
  }

  /** The first draw that differs from `v` is the one the loop settles on. */
  lemma {:induction false} FirstDifferentAt(c: seq<int>, v: int, j: nat)
    requires j < |c| && c[j] != v
    requires forall t :: 0 <= t < j ==> c[t] == v
    ensures Escapes(c, v) && FirstDifferent(c, v) == c[j]
  {
    if j > 0 {
      assert c[0] == v;
      assert c[1..][j - 1] == c[j];
      forall t | 0 <= t < j - 1
        ensures c[1..][t] == v
      {
        assert c[1..][t] == c[t + 1];
      }
      FirstDifferentAt(c[1..], v, j - 1);
    }
  }

  // ---------------------------------------------------------------------------
  // updateWorld: the batch and its commit

  /** One staged update of a row's randomNumber, keyed by id. */
  datatype Write = Write(id: int, value: int)

  /** The writes that setting each row of `ws` to its randomNumber stages, in order. */
  function AsWrites(ws: seq<World>): seq<Write>
  {
    seq(|ws|, i requires 0 <= i < |ws| => Write(ws[i].id, ws[i].randomNumber))
  }

  /** The table after executing the batch statement by statement. An `update`
      whose id names no row changes nothing. */
  function ApplyWrites(t: Table, batch: seq<Write>): (t': Table)
    ensures t'.Keys == t.Keys
  {
    if batch == [] then t
    else ApplyWrites(if batch[0].id in t then t[batch[0].id := batch[0].value] else t, batch[1..])
  }

  /** A row that no staged write names keeps its value. */
  lemma {:induction false} ApplyWritesUntouched(t: Table, batch: seq<Write>, k: int)
    requires k in t
    requires forall j :: 0 <= j < |batch| ==> batch[j].id != k
    ensures ApplyWrites(t, batch)[k] == t[k]
  {
    if batch != [] {
      var t1 := if batch[0].id in t then t[batch[0].id := batch[0].value] else t;
      assert t1[k] == t[k];
      ApplyWritesUntouched(t1, batch[1..], k);
    }
  }

  /** The last staged write to a row decides its value: a later duplicate id wins. */
  lemma {:induction false} ApplyWritesLastWins(t: Table, batch: seq<Write>, i: nat)
    requires i < |batch| && batch[i].id in t
    requires forall j :: i < j < |batch| ==> batch[j].id != batch[i].id
    ensures ApplyWrites(t, batch)[batch[i].id] == batch[i].value
  {
    var t1 := if batch[0].id in t then t[batch[0].id := batch[0].value] else t;
    if i == 0 {
      ApplyWritesUntouched(t1, batch[1..], batch[0].id);
    } else {
      ApplyWritesLastWins(t1, batch[1..], i - 1);
    }
  }

  /** A batch in which each write differs from the value its row held before the
      batch changes every row it names. */
  lemma {:induction false} ApplyWritesChangesEveryRow(t: Table, batch: seq<Write>, i: nat)
    requires i < |batch|
    requires forall j :: 0 <= j < |batch| ==> batch[j].id in t && batch[j].value != t[batch[j].id]
    ensures ApplyWrites(t, batch)[batch[i].id] != t[batch[i].id]
    decreases |batch| - i
  {
    if j :| i < j < |batch| && batch[j].id == batch[i].id {
      ApplyWritesChangesEveryRow(t, batch, j);
    } else {
      ApplyWritesLastWins(t, batch, i);
    }
  }

  // ---------------------------------------------------------------------------
  // updateWorld

  /** `updateWorld` commits: every lookup returns its row and no later driver call raises. */
  predicate UpdateSucceeds(world: Table, ids: seq<int>, fault: Fault)
  {
    && fault != ConnectionFault
    && (forall k :: 0 <= k < |ids| ==> LookupOk(world, ids, fault, k))
    && !(fault.StageFault? && fault.k < |ids|)
    && fault != ExecuteBatchFault
    && fault != CommitFault
  }

  /** The do-while loop of `updateWorld`: keeps drawing from `candidates` for as
      long as the draw equals the row's current value. */
  method DrawUntilDifferent(candidates: seq<int>, current: int) returns (newRandomNumber: int)
    requires Escapes(candidates, current)
    ensures newRandomNumber != current
    ensures newRandomNumber == FirstDifferent(candidates, current)
  {
    var n := 0;
    newRandomNumber := candidates[0];
    while newRandomNumber == current
      invariant 0 <= n < |candidates| && newRandomNumber == candidates[n]
      invariant forall t :: 0 <= t < n ==> candidates[t] == current
      invariant exists t :: n <= t < |candidates| && candidates[t] != current
      decreases |candidates| - n
    {
      n := n + 1;
      newRandomNumber := candidates[n];
    }
    FirstDifferentAt(candidates, current, n);
  }

  /** `updateWorld`: re-reads the rows with `getWorld`, draws for each a new value
      that differs from the one read, stages one update per row, executes the
      batch and commits. `draws[i]` is the sequence of `getRandomNumber()` results
      the do-while loop sees for row i. Auto-commit is off, so an exception before
      the commit leaves the table as it was. */
  method UpdateWorld(db: Database, ids: seq<int>, draws: seq<seq<int>>, fault: Fault)
    returns (r: Result<seq<World>, SqlError>)
    requires |draws| == |ids|
    requires forall i :: 0 <= i < |ids| && ids[i] in db.world ==> Escapes(draws[i], db.world[ids[i]])
    modifies db
    ensures db.fortune == old(db.fortune)
    ensures r.Success? <==> UpdateSucceeds(old(db.world), ids, fault)
    ensures r.Failure? ==> db.world == old(db.world)
    ensures r.Success? ==> |r.value| == |ids|
    ensures r.Success? ==> forall i :: 0 <= i < |ids| ==>
              && ids[i] in old(db.world)
              && r.value[i].id == ids[i]
              && r.value[i].randomNumber != old(db.world)[ids[i]]
              && r.value[i].randomNumber == FirstDifferent(draws[i], old(db.world)[ids[i]])
    ensures r.Success? ==> db.world == ApplyWrites(old(db.world), AsWrites(r.value))
    ensures r.Success? ==> db.world.Keys == old(db.world).Keys
    ensures r.Success? ==> forall i :: 0 <= i < |ids| ==> ids[i] in old(db.world) && db.world[ids[i]] != old(db.world)[ids[i]]
    ensures r.Success? ==> forall k :: k in old(db.world) && k !in ids ==> db.world[k] == old(db.world)[k]
  {
    var fetched := GetWorld(db, ids, fault);
    if fetched.Failure? {
      return Failure(fetched.error);
    }
    var worldList := fetched.value;
    assert forall j :: 0 <= j < |ids| ==> LookupOk(db.world, ids, fault, j);
    var batch: seq<Write> := [];
    var updatedWorldList: seq<World> := [];
    var i := 0;
    while i < |worldList|
      invariant 0 <= i <= |worldList| && |updatedWorldList| == i && |batch| == i
      invariant db.world == old(db.world) && db.fortune == old(db.fortune)
      invariant |worldList| == |ids|
      invariant forall j :: 0 <= j < |ids| ==> ids[j] in db.world && worldList[j] == World(ids[j], db.world[ids[j]])
      invariant !(fault.StageFault? && fault.k < i)
      invariant forall j :: 0 <= j < i ==> batch[j] == Write(updatedWorldList[j].id, updatedWorldList[j].randomNumber)
      invariant forall j :: 0 <= j < i ==>
                  && updatedWorldList[j].id == ids[j]
                  && updatedWorldList[j].randomNumber == FirstDifferent(draws[j], db.world[ids[j]])
    {
      var world := worldList[i];
      var newRandomNumber := DrawUntilDifferent(draws[i], world.randomNumber);
      if fault == StageFault(i) {
        return Failure(DriverError);
      }
      batch := batch + [Write(world.id, newRandomNumber)];
      updatedWorldList := updatedWorldList + [World(world.id, newRandomNumber)];
      i := i + 1;
    }
    assert batch == AsWrites(updatedWorldList);
    if fault == ExecuteBatchFault {
      return Failure(DriverError);
    }
    var committed := ApplyWrites(db.world, batch);
    if fault == CommitFault {
      return Failure(DriverError);
    }
    forall j | 0 <= j < |ids|
      ensures committed[ids[j]] != db.world[ids[j]]
    {
      ApplyWritesChangesEveryRow(db.world, batch, j);
    }
    forall k | k in db.world && k !in ids
      ensures committed[k] == db.world[k]
    {
      ApplyWritesUntouched(db.world, batch, k);
    }
    db.world := committed;
    return Success(updatedWorldList);
  }

  // ---------------------------------------------------------------------------
  // getFortune

  /** The fortune query fails when the connection or statement cannot be set up,
      or when one of its `|fortune| + 1` row fetches raises
      (the last one is the `rs.next()` that reports the end of the rows). */
  predicate FortuneQueryFails(fortune: seq<Fortune>, fault: Fault)
  {
    fault == ConnectionFault || (fault.QueryFault? && fault.k <= |fortune|)
  }

  /** `getFortune`: reads every stored fortune, appends the synthetic `sentinel`
      (`defaultFortuneId`, `defaultFortuneMessage`) and sorts the list by message.
      Reads the database and changes nothing (no `modifies`). */
  method GetFortune(db: Database, sentinel: Fortune, fault: Fault) returns (r: Result<seq<Fortune>, SqlError>)
    ensures r.Success? <==> !FortuneQueryFails(db.fortune, fault)
    ensures r.Failure? ==> r.error == DriverError
    ensures r.Success? ==> r.value == SortByMessage(db.fortune + [sentinel])
    ensures r.Success? ==> |r.value| == |db.fortune| + 1
    ensures r.Success? ==> multiset(r.value) == multiset(db.fortune) + multiset{sentinel}
    ensures r.Success? ==> sentinel in r.value
    ensures r.Success? ==> SortedByMessage(r.value)
    ensures r.Success? ==> forall m :: WithMessage(r.value, m) == WithMessage(db.fortune + [sentinel], m)
  {
    if fault == ConnectionFault {
      return Failure(DriverError);
    }
    var fortuneList: seq<Fortune> := [];
    var i := 0;
    while i < |db.fortune|
      invariant 0 <= i <= |db.fortune| && fortuneList == db.fortune[..i]
      invariant !(fault.QueryFault? && fault.k < i)
    {
      if fault == QueryFault(i) {
        return Failure(DriverError);
      }
      fortuneList := fortuneList + [db.fortune[i]];
      i := i + 1;
    }
    if fault == QueryFault(i) {
      return Failure(DriverError);
    }
    assert fortuneList == db.fortune;
    fortuneList := fortuneList + [sentinel];
    // sort by message with the JDK's stable list sort
    SortedFortunes(fortuneList, sentinel);
    fortuneList := SortByMessage(fortuneList);
    return Success(fortuneList);
  }

  /** What sorting the read fortunes with the sentinel appended yields. */
  lemma SortedFortunes(read: seq<Fortune>, sentinel: Fortune)
    requires sentinel in read
    ensures sentinel in SortByMessage(read)
    ensures SortedByMessage(SortByMessage(read))
    ensures forall m :: WithMessage(SortByMessage(read), m) == WithMessage(read, m)
  {
    SortByMessageSorted(read);
    forall m
      ensures WithMessage(SortByMessage(read), m) == WithMessage(read, m)
    {
      SortByMessageStable(read, m);
    }
    assert sentinel in multiset(read);
  }
}
