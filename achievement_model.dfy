/** The `user_achievements` table: one row per user id, written by an upsert
    that inserts a fresh row or merges into the stored one column by column. */
module AchievementModel {
  import opened Values
  import opened Sql

  type UserId = string

  /** The two columns the upsert writes. */
  datatype Column = Streak | EarnedBadgeIds
  {
    /** The body key the column is read from. */
    function Key(): string
    {
      match this
      case Streak => "streak"
      case EarnedBadgeIds => "earned_badge_ids"
    }
  }

  /** The values bound to `$2` and `$3`. */
  datatype Params = Params(streak: Cell, earnedBadgeIds: Cell)
  {
    function At(c: Column): Cell
    {
      match c
      case Streak => streak
      case EarnedBadgeIds => earnedBadgeIds
    }
  }

  /** A stored row; `updated_at` is not modelled. */
  datatype AchievementRow = AchievementRow(userId: UserId, streak: Cell, earnedBadgeIds: Cell)
  {
    function At(c: Column): Cell
    {
      match c
      case Streak => streak
      case EarnedBadgeIds => earnedBadgeIds
    }

    /** The row as `res.json` sends it; NULL columns become `null`. */
    function ToJson(): Json
    {
      JObj(map[
        "user_id" := JStr(userId),
        "streak" := CellJson(streak),
        "earned_badge_ids" := CellJson(earnedBadgeIds)])
    }
  }

  function CellJson(c: Cell): Json
  {
    if c.Some? then c.value else JNull
  }

  /** Every column of the row came from a bound parameter. */
  predicate WellFormed(row: AchievementRow)
  {
    forall c: Column :: Proper(row.At(c))
  }

  /** The parameters `upsertUserAchievements` binds for a request body: only the
      two column keys are read, each NULL when omitted or `null`. */
  function ParamsOf(body: Body): (p: Params)
    ensures forall c: Column :: Carries(p.At(c), body, c.Key()) && Proper(p.At(c))
  {
    Params(ParamCell(body, "streak"), ParamCell(body, "earned_badge_ids"))
  }

  /** The column value of an optional row: NULL when there is no row. */
  function Prior(row: Option<AchievementRow>, c: Column): Cell
  {
    if row.Some? then row.value.At(c) else None
  }

  /** The row the upsert leaves for `userId`: without an existing row the
      INSERT stores the parameters as they are; on conflict each column is
      `COALESCE(EXCLUDED.col, stored col)`. A provided badge list therefore
      replaces the stored one whole. */
  function Merge(existing: Option<AchievementRow>, userId: UserId, p: Params): (r: AchievementRow)
    ensures r.userId == userId
    ensures existing.None? ==> forall c: Column :: r.At(c) == p.At(c)
    ensures forall c: Column :: p.At(c).Some? ==> r.At(c) == p.At(c)
    ensures forall c: Column :: p.At(c).None? ==> r.At(c) == Prior(existing, c)
  {
    match existing
    case None =>
      AchievementRow(userId, p.streak, p.earnedBadgeIds)
    case Some(stored) =>
      AchievementRow(userId,
                     Coalesce(p.streak, stored.streak),
                     Coalesce(p.earnedBadgeIds, stored.earnedBadgeIds))
  }

  /** Only the two column keys of the body matter, and only through their
      `undefined`-to-`null` normalised values. */
  lemma OnlyColumnKeysRead(b1: Body, b2: Body)
    requires forall c: Column :: OrNull(b1, c.Key()) == OrNull(b2, c.Key())
    ensures ParamsOf(b1) == ParamsOf(b2)
  {
    assert OrNull(b1, Streak.Key()) == OrNull(b2, Streak.Key());
    assert OrNull(b1, EarnedBadgeIds.Key()) == OrNull(b2, EarnedBadgeIds.Key());
  }

  /** Sending `null` for a column and leaving it out give the same parameters. */
  lemma NullIsOmitted(body: Body, c: Column)
    ensures ParamsOf(body[c.Key() := JNull]) == ParamsOf(body - {c.Key()})
  {
    OnlyColumnKeysRead(body[c.Key() := JNull], body - {c.Key()});
  }

  /** Upserting the same body twice stores what upserting it once stores. */
  lemma MergeIdempotent(existing: Option<AchievementRow>, userId: UserId, p: Params)
    ensures Merge(Some(Merge(existing, userId, p)), userId, p) == Merge(existing, userId, p)
  {
  }

  /** The upsert keeps the row well formed when its parameters came from a body. */
  lemma MergeWellFormed(existing: Option<AchievementRow>, userId: UserId, body: Body)
    requires existing.Some? ==> WellFormed(existing.value)
    ensures WellFormed(Merge(existing, userId, ParamsOf(body)))
  {
  }

  /** A provided badge list replaces the stored list: no union, no deduplication,
      so badges stored before and missing from the new list are gone. */
  lemma BadgesReplacedWholesale(stored: AchievementRow, userId: UserId, body: Body, badges: seq<Json>)
    requires "earned_badge_ids" in body && body["earned_badge_ids"] == JArr(badges)
    ensures Merge(Some(stored), userId, ParamsOf(body)).earnedBadgeIds == Some(JArr(badges))
  {
    assert ParamsOf(body).At(EarnedBadgeIds).Some?;
  }

  /** A stored `{streak: 3, earned_badge_ids: ["a"]}` updated with `{streak: 4}`
      becomes `{streak: 4, earned_badge_ids: ["a"]}`. */
  lemma StreakUpdateKeepsBadges(userId: UserId)
    ensures Merge(Some(AchievementRow(userId, Some(JNum(3.0)), Some(JArr([JStr("a")])))),
                  userId, ParamsOf(map["streak" := JNum(4.0)]))
            == AchievementRow(userId, Some(JNum(4.0)), Some(JArr([JStr("a")])))
  {
  }

  /** A series of upserts for one user, applied in order (the order in which
      the database serialises them). */
  function Replay(existing: Option<AchievementRow>, userId: UserId, series: seq<Params>): (r: Option<AchievementRow>)
    ensures series == [] ==> r == existing
    ensures series != [] ==> r.Some? && r.value.userId == userId
    decreases |series|
  {
    if series == [] then existing
    else Replay(Some(Merge(existing, userId, series[0])), userId, series[1..])
  }

  /** The values a series of upserts writes to one column. */
  function Writes(series: seq<Params>, c: Column): (w: seq<Cell>)
    ensures |w| == |series|
    ensures forall i :: 0 <= i < |series| ==> w[i] == series[i].At(c)
  {
    seq(|series|, i requires 0 <= i < |series| => series[i].At(c))
  }

  /** Each column after a series of upserts is the column as COALESCE-written by that series. */
  lemma {:induction false} ReplayIsCoalesceAll(existing: Option<AchievementRow>, userId: UserId, series: seq<Params>, c: Column)
    ensures Prior(Replay(existing, userId, series), c) == CoalesceAll(Prior(existing, c), Writes(series, c))
    decreases |series|
  {
    if series != [] {
      var next := Some(Merge(existing, userId, series[0]));
      ReplayIsCoalesceAll(next, userId, series[1..], c);
      assert Writes(series, c)[1..] == Writes(series[1..], c);
      assert Prior(next, c) == Coalesce(Writes(series, c)[0], Prior(existing, c));
    }
  }

  /** No lost update: after a series of upserts each column holds the last value
      provided for it, or its previous value when no upsert provided one. */
  lemma ReplayKeepsLastProvided(existing: Option<AchievementRow>, userId: UserId, series: seq<Params>, c: Column)
    ensures Prior(Replay(existing, userId, series), c) == Coalesce(LastProvided(Writes(series, c)), Prior(existing, c))
  {
    ReplayIsCoalesceAll(existing, userId, series, c);
    CoalesceAllKeepsLastProvided(Prior(existing, c), Writes(series, c));
  }

  /** The `user_achievements` table. */
  class AchievementTable {
    var rows: map<UserId, AchievementRow>

    /** Rows are keyed by their own user id, so there is at most one row per user. */
    ghost predicate Valid()
      reads this
    {
      forall u :: u in rows ==> rows[u].userId == u && WellFormed(rows[u])
    }

    constructor ()
      ensures Valid() && rows == map[]
    {
      rows := map[];
    }

    /** `getUserAchievementsDb`: the user's row, or nothing. */
    function GetUserAchievements(userId: UserId): (r: Option<AchievementRow>)
      reads this
      ensures r.Some? <==> userId in rows
      ensures r.Some? ==> r.value == rows[userId]
    {
      if userId in rows then Some(rows[userId]) else None
    }

    /** `upsertUserAchievements`. `fault` is a failure the database reports; the
        statement then changes nothing and the error reaches the caller. */
    method UpsertUserAchievements(userId: UserId, body: Body, fault: Option<JsError>) returns (r: Result<AchievementRow, JsError>)
      requires Valid()
      modifies this
      ensures Valid()
      ensures fault.Some? ==> r == Failure(fault.value) && rows == old(rows)
      ensures fault.None? ==> rows == old(rows)[userId := Merge(old(GetUserAchievements(userId)), userId, ParamsOf(body))]
      ensures fault.None? ==> r == Success(rows[userId])
      ensures forall u :: u != userId ==> GetUserAchievements(u) == old(GetUserAchievements(u))
    {
      if fault.Some? {
        return Failure(fault.value);
      }
      var row := Merge(GetUserAchievements(userId), userId, ParamsOf(body));
      MergeWellFormed(GetUserAchievements(userId), userId, body);
      rows := rows[userId := row];
      r := Success(row);
    }
  }
}
