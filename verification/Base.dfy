/** Values shared by every module: optional values, results and finite lookups. */
module Base {
  type Id = nat

  datatype Option<+T> = None | Some(value: T)

  datatype Result<+T, +E> = Ok(value: T) | Err(error: E)

  /** What is left of a table after the rows in `gone` were deleted. */
  function Without<V>(rows: map<Id, V>, gone: set<Id>): (rest: map<Id, V>)
    ensures rest.Keys == rows.Keys - gone
    ensures forall id :: id in rest ==> rest[id] == rows[id]
  {
    rows - gone
  }

  function Max(a: int, b: int): int { if a < b then b else a }

  function Min(a: int, b: int): int { if a < b then a else b }
}
