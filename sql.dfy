/** What the two record models rely on from node-postgres and PostgreSQL:
    how a body field becomes a query parameter, and `COALESCE`. */
module Sql {
  import opened Values

  /** One column value of a row: None is SQL NULL. */
  type Cell = Option<Json>

  /** `x !== undefined ? x : null` for a field destructured from the body. */
  function OrNull(body: Body, key: string): (v: Json)
    ensures key in body ==> v == body[key]
    ensures key !in body ==> v == JNull
  {
    if key in body then body[key] else JNull
  }

  /** The driver binds JavaScript `null` as NULL and any other value as itself. */
  function Bind(v: Json): (c: Cell)
    ensures c.None? <==> v == JNull
    ensures c.Some? ==> c.value == v
  {
    if v == JNull then None else Some(v)
  }

  /** `cell` is what the body says for `key`: NULL when the key is missing or
      holds `null`, and otherwise exactly the body's value. */
  predicate Carries(cell: Cell, body: Body, key: string)
  {
    && (cell.None? <==> key !in body || body[key] == JNull)
    && (cell.Some? ==> key in body && cell.value == body[key])
  }

  /** A cell that came from a bound parameter never holds JSON null. */
  predicate Proper(cell: Cell)
  {
    cell != Some(JNull)
  }

  /** The query parameter one body field turns into. */
  function ParamCell(body: Body, key: string): (c: Cell)
    ensures Carries(c, body, key)
    ensures Proper(c)
  {
    Bind(OrNull(body, key))
  }

  /** An explicit `null` and an omitted key bind the same parameter. */
  lemma NullIsOmitted(body: Body, key: string)
    ensures ParamCell(body[key := JNull], key) == ParamCell(body - {key}, key) == None
  {
  }

  /** Keys other than the one read do not affect its parameter. */
  lemma OtherKeysIgnored(body: Body, key: string, other: string, v: Json)
    requires other != key
    ensures ParamCell(body[other := v], key) == ParamCell(body, key)
    ensures ParamCell(body - {other}, key) == ParamCell(body, key)
  {
  }

  /** SQL `COALESCE(first, second)`. */
  function Coalesce<T>(first: Option<T>, second: Option<T>): (r: Option<T>)
    ensures first.Some? ==> r == first
    ensures first.None? ==> r == second
  {
    if first.Some? then first else second
  }

  /** The last non-NULL value of a series of writes, NULL when every write was NULL. */
  function LastProvided<T>(writes: seq<Option<T>>): (r: Option<T>)
    ensures r.None? <==> forall i :: 0 <= i < |writes| ==> writes[i].None?
    ensures r.Some? ==> exists i :: 0 <= i < |writes| && writes[i] == r &&
                                    forall j :: i < j < |writes| ==> writes[j].None?
  {
    if writes == [] then None
    else
      var later := LastProvided(writes[1..]);
      if later.Some? then
        assert exists i :: 0 <= i < |writes| - 1 && writes[1..][i] == later &&
                           forall j :: i < j < |writes| - 1 ==> writes[1..][j].None?;
        later
      else
        writes[0]
  }

  /** Writing the series one `COALESCE(new, stored)` after another, starting from `init`. */
  function CoalesceAll<T>(init: Option<T>, writes: seq<Option<T>>): Option<T>
    decreases |writes|
  {
    if writes == [] then init else CoalesceAll(Coalesce(writes[0], init), writes[1..])
  }

  /** A series of COALESCE writes keeps the last value provided, and the initial
      value only when no write provided one: no provided value is lost to a later NULL. */
  lemma {:induction false} CoalesceAllKeepsLastProvided<T>(init: Option<T>, writes: seq<Option<T>>)
    ensures CoalesceAll(init, writes) == Coalesce(LastProvided(writes), init)
    decreases |writes|
  {
    if writes != [] {
      CoalesceAllKeepsLastProvided(Coalesce(writes[0], init), writes[1..]);
    }
  }
}
