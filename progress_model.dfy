/** The `user_progress` table: one row per user id, written by an upsert that
    inserts a fresh row or merges into the stored one column by column. */
module ProgressModel {
  import opened Values
  import opened Sql

  type UserId = string

  /** The three columns the upsert writes. */
  datatype Column = ConceptMastery | TimeSpent | QuestionsAnswered
  {
    /** The body key the column is read from. */
    function Key(): string
    {
      match this
      case ConceptMastery => "concept_mastery"
      case TimeSpent => "time_spent"
      case QuestionsAnswered => "questions_answered"
    }
  }

  /** The values bound to `$2`, `$3` and `$4`. */
  datatype Params = Params(conceptMastery: Cell, timeSpent: Cell, questionsAnswered: Cell)
  {
    function At(c: Column): Cell
    {
      match c
      case ConceptMastery => conceptMastery
      case TimeSpent => timeSpent
      case QuestionsAnswered => questionsAnswered
    }
  }

  /** A stored row; `updated_at` is not modelled. */
  datatype ProgressRow = ProgressRow(userId: UserId, conceptMastery: Cell, timeSpent: Cell, questionsAnswered: Cell)
  {
    function At(c: Column): Cell
    {
      match c
      case ConceptMastery => conceptMastery
      case TimeSpent => timeSpent
      case QuestionsAnswered => questionsAnswered
    }

    /** The row as `res.json` sends it; NULL columns become `null`. */
    function ToJson(): Json
    {
      JObj(map[
        "user_id" := JStr(userId),
        "concept_mastery" := CellJson(conceptMastery),
        "time_spent" := CellJson(timeSpent),
        "questions_answered" := CellJson(questionsAnswered)])
    }
  }

  function CellJson(c: Cell): Json
  {
    if c.Some? then c.value else JNull
  }

  /** Every column of the row came from a bound parameter. */
  predicate WellFormed(row: ProgressRow)
  {
    forall c: Column :: Proper(row.At(c))
  }

  /** The parameters `upsertUserProgress` binds for a request body: only the
      three column keys are read, each NULL when omitted or `null`. */
  function ParamsOf(body: Body): (p: Params)
    ensures forall c: Column :: Carries(p.At(c), body, c.Key()) && Proper(p.At(c))
  {
    Params(ParamCell(body, "concept_mastery"), ParamCell(body, "time_spent"), ParamCell(body, "questions_answered"))
  }

  /** The column value of an optional row: NULL when there is no row. */
  function Prior(row: Option<ProgressRow>, c: Column): Cell
  {
    if row.Some? then row.value.At(c) else None
  }

  /** The row the upsert leaves for `userId`: without an existing row the
      INSERT stores the parameters as they are; on conflict each column is
      `COALESCE(EXCLUDED.col, stored col)`. */
  function Merge(existing: Option<ProgressRow>, userId: UserId, p: Params): (r: ProgressRow)
    ensures r.userId == userId
    ensures existing.None? ==> forall c: Column :: r.At(c) == p.At(c)
    ensures forall c: Column :: p.At(c).Some? ==> r.At(c) == p.At(c)
    ensures forall c: Column :: p.At(c).None? ==> r.At(c) == Prior(existing, c)
  {
    match existing
    case None =>
      ProgressRow(userId, p.conceptMastery, p.timeSpent, p.questionsAnswered)
    case Some(stored) =>
      ProgressRow(userId,
                  Coalesce(p.conceptMastery, stored.conceptMastery),
                  Coalesce(p.timeSpent, stored.timeSpent),
                  Coalesce(p.questionsAnswered, stored.questionsAnswered))
  }

  /** Only the three column keys of the body matter, and only through their
      `undefined`-to-`null` normalised values. */
  lemma OnlyColumnKeysRead(b1: Body, b2: Body)
    requires forall c: Column :: OrNull(b1, c.Key()) == OrNull(b2, c.Key())
    ensures ParamsOf(b1) == ParamsOf(b2)
  {
    forall c: Column ensures ParamsOf(b1).At(c) == ParamsOf(b2).At(c) {
      assert OrNull(b1, c.Key()) == OrNull(b2, c.Key());
    }
    assert ParamsOf(b1).At(ConceptMastery) == ParamsOf(b2).At(ConceptMastery);
    assert ParamsOf(b1).At(TimeSpent) == ParamsOf(b2).At(TimeSpent);
    assert ParamsOf(b1).At(QuestionsAnswered) == ParamsOf(b2).At(QuestionsAnswered);
  }

  /** Sending `null` for a column and leaving it out give the same parameters. */
  lemma NullIsOmitted(body: Body, c: Column)
    ensures ParamsOf(body[c.Key() := JNull]) == ParamsOf(body - {c.Key()})
  {
    OnlyColumnKeysRead(body[c.Key() := JNull], body - {c.Key()});
  }

  /** Upserting the same body twice stores what upserting it once stores. */
  lemma MergeIdempotent(existing: Option<ProgressRow>, userId: UserId, p: Params)
    ensures Merge(Some(Merge(existing, userId, p)), userId, p) == Merge(existing, userId, p)
  {
  }

  /** The upsert keeps the row well formed when its parameters came from a body. */
  lemma MergeWellFormed(existing: Option<ProgressRow>, userId: UserId, body: Body)
    requires existing.Some? ==> WellFormed(existing.value)
    ensures WellFormed(Merge(existing, userId, ParamsOf(body)))
  {
  }

  /** A series of upserts for one user, applied in order (the order in which
      the database serialises them). */
  function Replay(existing: Option<ProgressRow>, userId: UserId, series: seq<Params>): (r: Option<ProgressRow>)
    ensures series == [] ==> r == existing
    ensures series != [] ==> r.Some? && r.value.userId == userId
    decreases |series|
  {
    if series == [] then existing
    else Replay(Some(Merge(existing, userId, series[0])), userId, series[1..])
  }

  /** The values a series of upserts writes to one column. */
  function Writes(series: seq<Params>, c: Column): (w: seq<Cell>)
    ensures |w| == |series|
    ensures forall i :: 0 <= i < |series| ==> w[i] == series[i].At(c)
  {
    seq(|series|, i requires 0 <= i < |series| => series[i].At(c))
  }

  /** Each column after a series of upserts is the column as COALESCE-written by that series. */
  lemma {:induction false} ReplayIsCoalesceAll(existing: Option<ProgressRow>, userId: UserId, series: seq<Params>, c: Column)
    ensures Prior(Replay(existing, userId, series), c) == CoalesceAll(Prior(existing, c), Writes(series, c))
    decreases |series|
  {
    if series != [] {
      var next := Some(Merge(existing, userId, series[0]));
      ReplayIsCoalesceAll(next, userId, series[1..], c);
      assert Writes(series, c)[1..] == Writes(series[1..], c);
      assert Prior(next, c) == Coalesce(Writes(series, c)[0], Prior(existing, c));
    }
  }

  /** No lost update: after a series of upserts each column holds the last value
      provided for it, or its previous value when no upsert provided one. */
  lemma ReplayKeepsLastProvided(existing: Option<ProgressRow>, userId: UserId, series: seq<Params>, c: Column)
    ensures Prior(Replay(existing, userId, series), c) == Coalesce(LastProvided(Writes(series, c)), Prior(existing, c))
  {
    ReplayIsCoalesceAll(existing, userId, series, c);
    CoalesceAllKeepsLastProvided(Prior(existing, c), Writes(series, c));
  }

  /** A first upsert with only `concept_mastery` stores NULL in the other two
      columns: the INSERT applies no zero defaults. */
  lemma FirstWriteLeavesOmittedNull(userId: UserId)
    ensures Merge(None, userId, ParamsOf(map["concept_mastery" := JNum(5.0)]))
            == ProgressRow(userId, Some(JNum(5.0)), None, None)
  {
  }

  /** The `user_progress` table. */
  class ProgressTable {
    var rows: map<UserId, ProgressRow>

    /** Rows are keyed by their own user id, so there is at most one row per user. */
    ghost predicate Valid()
      reads this
    {
      forall u :: u in rows ==> rows[u].userId == u && WellFormed(rows[u])
    }

    constructor ()
      ensures Valid() && rows == map[]
    {
      rows := map[];
    }

    /** `getUserProgressDb`: the user's row, or nothing. */
    function GetUserProgress(userId: UserId): (r: Option<ProgressRow>)
      reads this
      ensures r.Some? <==> userId in rows
      ensures r.Some? ==> r.value == rows[userId]
    {
      if userId in rows then Some(rows[userId]) else None
    }

    /** `upsertUserProgress`. `fault` is a failure the database reports (connection
        lost, a constraint on `user_id`, a value of the wrong type); the statement
        then changes nothing and the error reaches the caller. */
    method UpsertUserProgress(userId: UserId, body: Body, fault: Option<JsError>) returns (r: Result<ProgressRow, JsError>)
      requires Valid()
      modifies this
      ensures Valid()
      ensures fault.Some? ==> r == Failure(fault.value) && rows == old(rows)
      ensures fault.None? ==> rows == old(rows)[userId := Merge(old(GetUserProgress(userId)), userId, ParamsOf(body))]
      ensures fault.None? ==> r == Success(rows[userId])
      ensures forall u :: u != userId ==> GetUserProgress(u) == old(GetUserProgress(u))
    {
      if fault.Some? {
        return Failure(fault.value);
      }
      var row := Merge(GetUserProgress(userId), userId, ParamsOf(body));
      MergeWellFormed(GetUserProgress(userId), userId, body);
      rows := rows[userId := row];
      r := Success(row);
    }
  }
}
