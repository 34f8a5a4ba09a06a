/** The usual option and result types; an exception of the source is an `Err`. Also the conditional append that the
    validators are built from. */
module Wrappers {
  datatype Option<+T> = None | Some(value: T)

  datatype Result<+T, +E> = Ok(value: T) | Err(error: E)

  /** `if condition: items.append(item)`. */
  function AppendIf<T(!new)>(items: seq<T>, condition: bool, item: T): (r: seq<T>)
    ensures forall x :: x in r <==> x in items || (condition && x == item)
  {
    if condition then items + [item] else items
  }
}
