/** The row type of the benchmark's `World` table, shared by both handlers. */
module Worlds {

  /** One row of `World(id INTEGER PRIMARY KEY, randomNumber INTEGER)`. */
  datatype World = World(id: int, randomNumber: int)

  /** The `World` table, keyed by id. */
  type Table = map<int, int>
}
