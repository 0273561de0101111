/** Values that stand for what the backend hands back. The backend itself (its
    tables and stored procedures) is outside this model: each call's answer is a
    parameter of the operation that makes the call. */
module Remote {

  datatype Option<+T> = None | Some(value: T)

  /** The `{ data, error }` pair a backend call resolves to: either the data or
      an error carrying its message. */
  datatype Reply<+T> = Ok(data: T) | Error(message: string)

  /** The value of an `x || fallback` expression whose left side is a nullable
      integer column: null and 0 are both falsy. */
  function OrInt(x: Option<int>, fallback: int): int
  {
    if x.Some? && x.value != 0 then x.value else fallback
  }

  /** The same for a nullable text column: null and "" are both falsy. */
  function OrText(x: Option<string>, fallback: string): string
  {
    if x.Some? && x.value != "" then x.value else fallback
  }
}
