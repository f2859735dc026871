/** The `users` table: an insert guarded by the unique index on `email`, and
    lookups by email and by id. */
module UserModel {
  import opened Values

  type UserId = string

  /** A stored user. The email is the value the client sent; `null` is bound
      as SQL NULL. */
  datatype User = User(id: UserId, email: Json, passwordHash: string)

  /** What `RETURNING id, email` hands back: never the hash. */
  datatype NewUser = NewUser(id: UserId, email: Json)
  {
    function ToJson(): Json
    {
      JObj(map["id" := JStr(id), "email" := email])
    }
  }

  /** PostgreSQL's SQLSTATE for a unique violation. */
  const UniqueViolationCode := "23505"

  const DuplicateEmailMessage := "User with this email already exists."

  /** The `catch` of `createUser`: a unique violation becomes a plain error
      with the duplicate-email message; any other error is re-thrown as it is. */
  function Rethrow(e: JsError): (r: JsError)
    ensures e.code == Some(UniqueViolationCode) ==> r == JsError(None, DuplicateEmailMessage)
    ensures e.code != Some(UniqueViolationCode) ==> r == e
  {
    if e.code == Some(UniqueViolationCode) then JsError(None, DuplicateEmailMessage) else e
  }

  /** The first row that satisfies `matches`, or nothing. */
  function FirstMatch(rows: seq<User>, matches: User -> bool): (r: Option<User>)
    ensures r.Some? ==> r.value in rows && matches(r.value)
    ensures r.None? <==> forall i :: 0 <= i < |rows| ==> !matches(rows[i])
  {
    if rows == [] then None
    else if matches(rows[0]) then Some(rows[0])
    else FirstMatch(rows[1..], matches)
  }

  /** SQL's `email = $1`: NULL equals nothing, not even NULL. */
  predicate EmailMatches(stored: Json, email: Json)
  {
    email != JNull && stored == email
  }

  /** No two rows share an id, and no two share a non-NULL email: a unique
      index never counts two NULLs as equal. */
  ghost predicate Distinct(rows: seq<User>)
  {
    forall i, j :: 0 <= i < j < |rows| ==> rows[i].id != rows[j].id && !EmailMatches(rows[i].email, rows[j].email)
  }

  /** The `users` table. */
  class UserTable {
    var rows: seq<User>

    /** The primary key on `id` and the unique index on `email`. */
    ghost predicate Valid()
      reads this
    {
      Distinct(rows)
    }

    constructor ()
      ensures Valid() && rows == []
    {
      rows := [];
    }

    /** `findUserByEmail`: a row with exactly this email, or nothing; a `null`
        email finds nothing. */
    function FindUserByEmail(email: Json): (r: Option<User>)
      reads this
      ensures r.Some? ==> r.value in rows && r.value.email == email && email != JNull
      ensures r.None? <==> email == JNull || forall i :: 0 <= i < |rows| ==> rows[i].email != email
    {
      FirstMatch(rows, (u: User) => EmailMatches(u.email, email))
    }

    /** `findUserById`: the row with this id, or nothing. */
    function FindUserById(id: UserId): (r: Option<User>)
      reads this
      ensures r.Some? ==> r.value in rows && r.value.id == id
      ensures r.None? <==> forall i :: 0 <= i < |rows| ==> rows[i].id != id
    {
      FirstMatch(rows, (u: User) => u.id == id)
    }

    /** `createUser`. `newId` is the id the table's default would give the row;
        `fault` is any other failure the database reports (a NOT NULL violation
        on `email` among them). The INSERT fails with a unique violation when the
        email, or the id, is already taken; a `null` email is never taken. */
    method CreateUser(email: Json, passwordHash: string, newId: UserId, fault: Option<JsError>) returns (r: Result<NewUser, JsError>)
      requires Valid()
      modifies this
      ensures Valid()
      ensures r.Success? <==> fault.None? && old(FindUserByEmail(email)).None? && old(FindUserById(newId)).None?
      ensures r.Success? ==> r.value == NewUser(newId, email) && rows == old(rows) + [User(newId, email, passwordHash)]
      ensures r.Failure? ==> rows == old(rows)
      ensures fault.Some? ==> r == Failure(Rethrow(fault.value))
      ensures fault.None? && r.Failure? ==> r.error == JsError(None, DuplicateEmailMessage)
    {
      if fault.Some? {
        return Failure(Rethrow(fault.value));
      }
      if FindUserByEmail(email).Some? || FindUserById(newId).Some? {
        var violation := JsError(Some(UniqueViolationCode), "duplicate key value violates unique constraint");
        return Failure(Rethrow(violation));
      }
      var user := User(newId, email, passwordHash);
      rows := rows + [user];
      r := Success(NewUser(newId, email));
    }
  }

  /** With the unique index, looking a stored user up by its (non-null) email
      finds that user. */
  lemma FindByEmailIsUnique(t: UserTable, u: User)
    requires t.Valid() && u in t.rows && u.email != JNull
    ensures t.FindUserByEmail(u.email) == Some(u)
  {
    var found := t.FindUserByEmail(u.email);
    var j :| 0 <= j < |t.rows| && t.rows[j] == u;
    assert found.Some?;
    var i :| 0 <= i < |t.rows| && t.rows[i] == found.value;
    assert i == j;
  }

  /** With the primary key, looking a stored user up by its id finds that user. */
  lemma FindByIdIsUnique(t: UserTable, u: User)
    requires t.Valid() && u in t.rows
    ensures t.FindUserById(u.id) == Some(u)
  {
    var found := t.FindUserById(u.id);
    var j :| 0 <= j < |t.rows| && t.rows[j] == u;
    assert found.Some?;
    var i :| 0 <= i < |t.rows| && t.rows[i] == found.value;
    assert i == j;
  }

  /** Registering the same email twice: the first insert succeeds, the second
      reports the duplicate and stores nothing. */
  method SecondInsertOfEmailFails(email: Json, hash1: string, hash2: string, id1: UserId, id2: UserId)
    returns (first: Result<NewUser, JsError>, second: Result<NewUser, JsError>, stored: seq<User>)
    requires email != JNull
    ensures first == Success(NewUser(id1, email))
    ensures second == Failure(JsError(None, DuplicateEmailMessage))
    ensures stored == [User(id1, email, hash1)]
  {
    var t := new UserTable();
    first := t.CreateUser(email, hash1, id1, None);
    second := t.CreateUser(email, hash2, id2, None);
    stored := t.rows;
  }

  /** Two `null` emails never collide: when the database accepts NULL in the
      column, both inserts are stored under their own ids. */
  method NullEmailsNeverCollide(hash1: string, hash2: string, id1: UserId, id2: UserId)
    returns (first: Result<NewUser, JsError>, second: Result<NewUser, JsError>, stored: seq<User>)
    requires id1 != id2
    ensures first == Success(NewUser(id1, JNull))
    ensures second == Success(NewUser(id2, JNull))
    ensures stored == [User(id1, JNull, hash1), User(id2, JNull, hash2)]
  {
    var t := new UserTable();
    first := t.CreateUser(JNull, hash1, id1, None);
    second := t.CreateUser(JNull, hash2, id2, None);
    stored := t.rows;
  }
}
