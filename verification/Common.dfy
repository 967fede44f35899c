// Small shared vocabulary: optional values, results with the source's error
// values, and the resolution at which MongoDB stores an instant.

module Common {

  datatype Option<+T> = None | Some(value: T)

  datatype Result<+T, +E> = Ok(value: T) | Err(error: E)
}

// Instants are nanoseconds since the zero time of Go's time package.
// A BSON date has millisecond resolution, so every instant is rounded down
// when it is written to the database or sent as part of a filter.
module Instants {

  const MILLISECOND: int := 1_000_000
  const SECOND: int := 1_000 * MILLISECOND
  const MINUTE: int := 60 * SECOND
  const HOUR: int := 60 * MINUTE

  function Stored(t: int): (s: int)
    ensures s <= t < s + MILLISECOND
    ensures s % MILLISECOND == 0
  {
    t - t % MILLISECOND
  }

  predicate WholeMillisecond(t: int) {
    t % MILLISECOND == 0
  }

  lemma StoredMonotone(a: int, b: int)
    requires a <= b
    ensures Stored(a) <= Stored(b)
  {
    var m := MILLISECOND;
    assert Stored(a) == m * (a / m) && Stored(b) == m * (b / m);
  }
}
