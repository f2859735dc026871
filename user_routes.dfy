/** The `/user-data` and `/register-temp-user` handlers. The configured user id,
    the tables, the password hash and store failures are parameters. */
module UserRoutes {
  import opened Values
  import P = ProgressModel
  import A = AchievementModel
  import U = UserModel

  /** `process.env.TEMP_USER_ID || null`: unset or empty means not configured. */
  function TempUserId(env: Option<string>): (id: Option<string>)
    ensures id.Some? <==> env.Some? && env.value != ""
    ensures id.Some? ==> id == env
  {
    if env.Some? && env.value != "" then env else None
  }

  const MissingTempUser := "TEMP_USER_ID is not set. Please add it to your .env file."
  const InternalError := "Internal server error"
  const CredentialsRequired := "Email and password are required."
  const UserCreated := "Temporary user created successfully!"
  const CreateFailed := "Error creating temporary user."

  /** Sent for a user with no progress row. */
  const DefaultProgress := JObj(map[
    "concept_mastery" := JNum(0.0), "time_spent" := JNum(0.0), "questions_answered" := JNum(0.0)])

  /** Sent for a user with no achievements row. */
  const DefaultAchievements := JObj(map["streak" := JNum(0.0), "earned_badge_ids" := JArr([])])

  /** The `progress` member of a GET response. */
  function ProgressPart(row: Option<P.ProgressRow>): Json
  {
    if row.Some? then row.value.ToJson() else DefaultProgress
  }

  /** The `achievements` member of a GET response. */
  function AchievementsPart(row: Option<A.AchievementRow>): Json
  {
    if row.Some? then row.value.ToJson() else DefaultAchievements
  }

  /** GET `/user-data`. `fault` is a failure of either query. A default is sent
      exactly when the whole row is missing; a stored row is sent as it is, even
      when some of its columns are NULL. */
  function GetUserData(env: Option<string>, progress: P.ProgressTable, achievements: A.AchievementTable,
                       fault: Option<JsError>): (resp: Response)
    reads progress, achievements
    ensures TempUserId(env).None? ==> resp == Response(500, MessageBody(MissingTempUser))
    ensures TempUserId(env).Some? && fault.Some? ==> resp == Response(500, MessageBody(InternalError))
    ensures TempUserId(env).Some? && fault.None? ==>
      var id := TempUserId(env).value;
      && resp.status == 200
      && resp.body.JObj?
      && resp.body.fields.Keys == {"progress", "achievements"}
      && (progress.GetUserProgress(id).Some? ==> resp.body.fields["progress"] == progress.rows[id].ToJson())
      && (resp.body.fields["progress"] == DefaultProgress <==> progress.GetUserProgress(id).None?)
      && (achievements.GetUserAchievements(id).Some? ==> resp.body.fields["achievements"] == achievements.rows[id].ToJson())
      && (resp.body.fields["achievements"] == DefaultAchievements <==> achievements.GetUserAchievements(id).None?)
  {
    match TempUserId(env)
    case None => Response(500, MessageBody(MissingTempUser))
    case Some(id) =>
      if fault.Some? then Response(500, MessageBody(InternalError))
      else
        var row := progress.GetUserProgress(id);
        var ach := achievements.GetUserAchievements(id);
        assert row.Some? ==> "user_id" in row.value.ToJson().fields && "user_id" !in DefaultProgress.fields;
        assert ach.Some? ==> "user_id" in ach.value.ToJson().fields && "user_id" !in DefaultAchievements.fields;
        Response(200, JObj(map["progress" := ProgressPart(row), "achievements" := AchievementsPart(ach)]))
  }

  /** PUT `/user-data/progress`: the upserted row is echoed as it was returned. */
  method PutProgress(env: Option<string>, table: P.ProgressTable, body: Body, fault: Option<JsError>) returns (resp: Response)
    requires table.Valid()
    modifies table
    ensures table.Valid()
    ensures TempUserId(env).None? ==> resp == Response(500, MessageBody(MissingTempUser)) && table.rows == old(table.rows)
    ensures TempUserId(env).Some? && fault.Some? ==> resp == Response(500, MessageBody(InternalError)) && table.rows == old(table.rows)
    ensures TempUserId(env).Some? && fault.None? ==>
      var id := TempUserId(env).value;
      && table.rows == old(table.rows)[id := P.Merge(old(table.GetUserProgress(id)), id, P.ParamsOf(body))]
      && resp == Response(200, table.rows[id].ToJson())
  {
    var id := TempUserId(env);
    if id.None? {
      return Response(500, MessageBody(MissingTempUser));
    }
    var updated := table.UpsertUserProgress(id.value, body, fault);
    match updated
    case Success(row) => resp := Response(200, row.ToJson());
    case Failure(_) => resp := Response(500, MessageBody(InternalError));
  }

  /** PUT `/user-data/achievements`: the upserted row is echoed as it was returned. */
  method PutAchievements(env: Option<string>, table: A.AchievementTable, body: Body, fault: Option<JsError>) returns (resp: Response)
    requires table.Valid()
    modifies table
    ensures table.Valid()
    ensures TempUserId(env).None? ==> resp == Response(500, MessageBody(MissingTempUser)) && table.rows == old(table.rows)
    ensures TempUserId(env).Some? && fault.Some? ==> resp == Response(500, MessageBody(InternalError)) && table.rows == old(table.rows)
    ensures TempUserId(env).Some? && fault.None? ==>
      var id := TempUserId(env).value;
      && table.rows == old(table.rows)[id := A.Merge(old(table.GetUserAchievements(id)), id, A.ParamsOf(body))]
      && resp == Response(200, table.rows[id].ToJson())
  {
    var id := TempUserId(env);
    if id.None? {
      return Response(500, MessageBody(MissingTempUser));
    }
    var updated := table.UpsertUserAchievements(id.value, body, fault);
    match updated
    case Success(row) => resp := Response(200, row.ToJson());
    case Failure(_) => resp := Response(500, MessageBody(InternalError));
  }

  /** `error.message || 'Error creating temporary user.'` */
  function FailureMessage(e: JsError): (text: string)
    ensures e.message != "" ==> text == e.message
    ensures e.message == "" ==> text == CreateFailed
  {
    if e.message != "" then e.message else CreateFailed
  }

  /** The registration body passes the guard when both fields are truthy. */
  predicate HasCredentials(body: Body)
  {
    Truthy(Prop(body, "email")) && Truthy(Prop(body, "password"))
  }

  /** POST `/register-temp-user`. `hashed` is the outcome of hashing the password
      (bcrypt, cost 10); `newId` and `fault` are passed on to the insert. */
  method RegisterTempUser(users: U.UserTable, body: Body, hashed: Result<string, JsError>, newId: U.UserId,
                          fault: Option<JsError>) returns (resp: Response)
    requires users.Valid()
    modifies users
    ensures users.Valid()
    ensures !HasCredentials(body) ==> resp == Response(400, MessageBody(CredentialsRequired)) && users.rows == old(users.rows)
    ensures HasCredentials(body) && hashed.Failure? ==>
      resp == Response(500, MessageBody(FailureMessage(hashed.error))) && users.rows == old(users.rows)
    ensures resp.status == 201 <==>
      && HasCredentials(body) && hashed.Success? && fault.None?
      && old(users.FindUserByEmail(body["email"])).None? && old(users.FindUserById(newId)).None?
    ensures resp.status == 201 ==>
      && users.rows == old(users.rows) + [U.User(newId, body["email"], hashed.value)]
      && resp.body == JObj(map["message" := JStr(UserCreated),
                               "user" := U.NewUser(newId, body["email"]).ToJson()])
    ensures resp.status != 201 ==> users.rows == old(users.rows)
    ensures HasCredentials(body) && hashed.Success? && resp.status != 201 ==>
      resp.status == 500 &&
      resp.body == MessageBody(FailureMessage(if fault.Some? then U.Rethrow(fault.value)
                                              else JsError(None, U.DuplicateEmailMessage)))
  {
    if !HasCredentials(body) {
      return Response(400, MessageBody(CredentialsRequired));
    }
    if hashed.Failure? {
      return Response(500, MessageBody(FailureMessage(hashed.error)));
    }
    var created := users.CreateUser(body["email"], hashed.value, newId, fault);
    match created
    case Success(user) =>
      resp := Response(201, JObj(map["message" := JStr(UserCreated), "user" := user.ToJson()]));
    case Failure(e) =>
      resp := Response(500, MessageBody(FailureMessage(e)));
  }

  /** A user with neither row gets both defaults, without error. */
  lemma MissingRowsGiveDefaults(env: Option<string>, progress: P.ProgressTable, achievements: A.AchievementTable)
    requires TempUserId(env).Some?
    requires TempUserId(env).value !in progress.rows && TempUserId(env).value !in achievements.rows
    ensures GetUserData(env, progress, achievements, None)
            == Response(200, JObj(map["progress" := DefaultProgress, "achievements" := DefaultAchievements]))
  {
  }

  /** An empty email is falsy: the request is refused before any insert. */
  lemma EmptyEmailRefused(body: Body)
    requires "email" in body && body["email"] == JStr("")
    ensures !HasCredentials(body)
  {
  }
}
