/** The smart-socket `MultipleQueriesHandler`: clamp the `queries` parameter,
    fill a `World[queries]` array from one keyed lookup per slot, write the array
    (whatever part of it was filled) and complete the request's future.

    The virtual thread that runs the body is not modelled: `Handle` is its body
    run to the end. The random source is given as the successive bounded draws
    of the thread-local generator, each below 10000, and the data source as the
    `World` table plus the index of the lookup at which the driver raises
    `SQLException`, if any. */
module MultipleQueriesHandler {
  import opened Wrappers
  import opened Worlds

  const MaxQueries: int := 500
  /** The bound passed to `nextInt`: keys are drawn from [1, TableSize]. */
  const TableSize: int := 10000

  function Max(a: int, b: int): (r: int) { if a >= b then a else b }
  function Min(a: int, b: int): (r: int) { if a <= b then a else b }

  /** Clamps `x` to [1, MaxQueries], raising it to 1 first and then lowering it
      to MaxQueries. */
  function Clamp(x: int): (r: int)
    ensures 1 <= r <= MaxQueries
    ensures 1 <= x <= MaxQueries ==> r == x
    ensures x < 1 ==> r == 1
    ensures x > MaxQueries ==> r == MaxQueries
  {
    Min(Max(x, 1), MaxQueries)
  }

  /** The effective query count. `parsed` is what `FeatUtils.toInt` makes of the
      `queries` parameter: `None` when it is missing or not an integer, in which
      case `toInt` returns its default 1. */
  function Queries(parsed: Option<int>): (q: int)
    ensures 1 <= q <= MaxQueries
    ensures parsed.None? ==> q == 1
    ensures parsed.Some? && parsed.value <= 0 ==> q == 1
    ensures parsed.Some? && parsed.value > MaxQueries ==> q == MaxQueries
    ensures parsed.Some? && 1 <= parsed.value <= MaxQueries ==> q == parsed.value
  {
    Clamp(parsed.GetOr(1))
  }

  /** `getRandomNumber()`: one more than the `nextInt(TableSize)` result `next`. */
  function RandomNumber(next: int): (key: int)
    requires 0 <= next < TableSize
    ensures 1 <= key <= TableSize
  {
    1 + next
  }

  /** Every key of [1, TableSize] comes from exactly one `nextInt` result, so a
      uniform `nextInt` gives uniform keys. */
  lemma RandomNumberOneToOne(key: int)
    requires 1 <= key <= TableSize
    ensures exists next :: 0 <= next < TableSize && RandomNumber(next) == key
    ensures forall n1, n2 :: 0 <= n1 < TableSize && 0 <= n2 < TableSize && RandomNumber(n1) == key && RandomNumber(n2) == key ==> n1 == n2
  {
    assert RandomNumber(key - 1) == key;
  }

  /** Every draw is a possible result of the bounded draw below TableSize. */
  ghost predicate DrawsInRange(draws: seq<int>)
  {
    forall i :: 0 <= i < |draws| ==> 0 <= draws[i] < TableSize
  }

  /** Lookup i (key drawn from `draws[i]`) returns a row: the driver does not
      raise there and the key names a row (otherwise `resultSet.next()` is false
      and `getInt` raises). */
  predicate LookupOk(table: Table, draws: seq<int>, fault: Option<nat>, i: nat)
    requires i < |draws| && 0 <= draws[i] < TableSize
  {
    fault != Some(i) && RandomNumber(draws[i]) in table
  }

  /** `ws` is what the fill loop leaves in the array: slot i holds the row of the
      i-th lookup when lookups 0..i all succeeded, and is `null` otherwise. */
  ghost predicate FilledInOrder(ws: seq<Option<World>>, table: Table, draws: seq<int>, fault: Option<nat>)
    requires |ws| <= |draws| && DrawsInRange(draws)
  {
    && (forall i :: 0 <= i < |ws| ==> (ws[i].Some? <==> forall j :: 0 <= j <= i ==> LookupOk(table, draws, fault, j)))
    && (forall i :: 0 <= i < |ws| && ws[i].Some? ==>
          RandomNumber(draws[i]) in table && ws[i].value == World(RandomNumber(draws[i]), table[RandomNumber(draws[i])]))
  }

  /** When lookup k is the first to raise, exactly the slots before k are filled. */
  lemma {:induction false} FirstFailureSplitsSlots(ws: seq<Option<World>>, table: Table, draws: seq<int>, fault: Option<nat>, k: nat)
    requires |ws| <= |draws| && DrawsInRange(draws)
    requires FilledInOrder(ws, table, draws, fault)
    requires k < |ws| && !LookupOk(table, draws, fault, k)
    requires forall j :: 0 <= j < k ==> LookupOk(table, draws, fault, j)
    ensures forall i :: 0 <= i < k ==> ws[i].Some?
    ensures forall i :: k <= i < |ws| ==> ws[i] == None
  {
    forall i | k <= i < |ws|
      ensures ws[i] == None
    {
      assert !(forall j :: 0 <= j <= i ==> LookupOk(table, draws, fault, j)) by {
        assert 0 <= k <= i;
      }
    }
  }

  /** The `for` loop of `handle`: a fresh array of `queries` empty slots, then one
      lookup per slot in order, leaving the remaining slots `null` once a lookup
      raises. */
  method FillWorlds(queries: nat, table: Table, draws: seq<int>, fault: Option<nat>)
    returns (worlds: array<Option<World>>)
    requires queries <= |draws| && DrawsInRange(draws)
    ensures worlds.Length == queries
    ensures FilledInOrder(worlds[..], table, draws, fault)
  {
    worlds := new Option<World>[queries](_ => None);
    var i := 0;
    while i < queries
      invariant 0 <= i <= queries
      invariant forall j :: 0 <= j < i ==> LookupOk(table, draws, fault, j)
      invariant forall j :: 0 <= j < i ==>
                  RandomNumber(draws[j]) in table && worlds[j] == Some(World(RandomNumber(draws[j]), table[RandomNumber(draws[j])]))
      invariant forall j :: i <= j < queries ==> worlds[j] == None
    {
      var id := RandomNumber(draws[i]);
      if fault == Some(i) || id !in table {
        // the SQLException leaves the loop; the catch block only logs it
        assert !LookupOk(table, draws, fault, i);
        break;
      }
      worlds[i] := Some(World(id, table[id]));
      i := i + 1;
    }
    forall k | 0 <= k < queries
      ensures worlds[..][k].Some? <==> forall j :: 0 <= j <= k ==> LookupOk(table, draws, fault, j)
    {
      if k >= i {
        assert !LookupOk(table, draws, fault, i);
      }
    }
  }

  /** The HTTP response: its content type and the JSON array written to it, a
      `null` slot being `None`. */
  class Response {
    var contentType: string
    var body: Option<seq<Option<World>>>

    constructor ()
      ensures contentType == "" && body == None
    {
      contentType := "";
      body := None;
    }
  }

  /** The `CompletableFuture<Void>` the server waits on. */
  class Completion {
    var done: bool

    constructor ()
      ensures !done
    {
      done := false;
    }

    /** `complete(null)`: true when this call is the one that completed it. */
    method Complete() returns (transitioned: bool)
      modifies this
      ensures done && transitioned == !old(done)
    {
      transitioned := !done;
      done := true;
    }
  }

  /** The body of the virtual thread started by `handle`. Whether the lookups all
      succeed or one raises, the array is written as JSON and, in the `finally`
      block, the future is completed. */
  method Handle(parsed: Option<int>, table: Table, draws: seq<int>, fault: Option<nat>,
                response: Response, future: Completion)
    requires Queries(parsed) <= |draws| && DrawsInRange(draws)
    modifies response, future
    ensures future.done
    ensures response.contentType == "application/json"
    ensures response.body.Some? && |response.body.value| == Queries(parsed)
    ensures FilledInOrder(response.body.value, table, draws, fault)
  {
    var queries := Queries(parsed);
    var worlds := FillWorlds(queries, table, draws, fault);
    response.contentType := "application/json";
    response.body := Some(worlds[..]);
    var _ := future.Complete();
  }
}
