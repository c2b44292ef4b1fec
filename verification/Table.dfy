/** Looking up a row by an indexed text field: the row ids in order, the first match wins. */
module Table {
  import opened Prelude

  /** The smallest id in [from, bound) with the value. */
  function FindFrom(values: map<nat, string>, value: string, from: nat, bound: nat): (r: Option<nat>)
    ensures r.Some? ==> r.value in values && values[r.value] == value
    ensures r.None? ==> forall id :: id in values && from <= id < bound ==> values[id] != value
    decreases if from < bound then bound - from else 0
  {
    if from >= bound then None
    else if from in values && values[from] == value then Some(from)
    else FindFrom(values, value, from + 1, bound)
  }
}
