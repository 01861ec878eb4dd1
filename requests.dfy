/** What handlers receive and answer. A request body field is `None` when it
    is omitted; a handler answers with a status and the stored row, with no
    content, with a message, or with an error status and its error code. */
module Requests {
  import opened Tables

  datatype Reply<T> =
    | Ok(status: int, id: int, row: T)
    | NoContent
    | Message(text: string)
    | Failed(status: int, code: string)

  /** JavaScript truthiness of an optional text field: present and not empty. */
  predicate Truthy(x: Option<string>)
  {
    x.Some? && |x.value| > 0
  }

  /** JavaScript truthiness of an optional key: present and not zero. */
  predicate TruthyId(x: Option<int>)
  {
    x.Some? && x.value != 0
  }

  /** `x || current` for a text field. */
  function Or(x: Option<string>, current: Option<string>): Option<string>
  {
    if Truthy(x) then x else current
  }

  /** `x || current` for a key. */
  function OrId(x: Option<int>, current: Option<int>): Option<int>
  {
    if TruthyId(x) then x else current
  }

  /** `x ? new Date(x) : null`: a falsy date becomes null. */
  function DateOrNull(x: Option<string>): Option<string>
  {
    if Truthy(x) then x else None
  }

  /** A field handed to `update`: an omitted value leaves the column as it is. */
  function Given<V>(x: Option<V>, current: V): V
  {
    if x.Some? then x.value else current
  }

  /** A nullable field handed to `update`. */
  function GivenOpt<V>(x: Option<V>, current: Option<V>): Option<V>
  {
    if x.Some? then x else current
  }

  /** `findByPk(id)`: the row under `id`, or 404 with `notFound`. */
  function FindByPk<T>(t: Table<T>, id: int, notFound: string): (r: Reply<T>)
    ensures r.Ok? <==> id in t.rows
    ensures r.Ok? ==> r.status == 200 && r.id == id && r.row == t.rows[id]
    ensures !r.Ok? ==> r == Failed(404, notFound)
  {
    if id in t.rows then Ok(200, id, t.rows[id]) else Failed(404, notFound)
  }
}
