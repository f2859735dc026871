# SETGuru backend: verified model of the record stores and request logic

This project models the sequential core of the SETGuru tutoring backend in Dafny
and proves properties of it:

- the `user_progress` and `user_achievements` tables, each keyed by user id and
  written by an upsert that inserts a fresh row or merges into the stored row
  column by column with `COALESCE(new, stored)` (modules `ProgressModel`,
  `AchievementModel`, with the shared rules in `Sql`);
- the `users` table with its unique email and id, `createUser`,
  `findUserByEmail` and `findUserById` (`UserModel`);
- the Express handlers for `/user-data`, the two PUT routes and
  `/register-temp-user` (`UserRoutes`), and for `/chat/message` (`AiRoutes`);
- the selection logic of the Python AI service: provider dispatch, request
  defaults, the tutoring-style guide, history conversion, message-list assembly
  and the mapping of model replies to HTTP answers (`AiService`).

Each table is a class with a `map` (or, for users, a `seq`) field that its
upsert or insert method reassigns. Every column is an `Option` (None is SQL
NULL). Request and response bodies are JSON values (`Values.Json`); a missing
key is JavaScript's `undefined`. The database, the password hash, the
environment, the HTTP client and the chat models are parameters:

- `fault: Option<JsError>` is a failure the database reports (connection loss,
  a constraint on `user_id`, a value of the wrong type). The statement then
  changes nothing and the error reaches the caller.
- `newId` is the id the `users` table's default would give a new row.
- `hashed` is the outcome of `bcrypt.hash(password, 10)`.
- `env` / `serviceUrl` / `providerEnv` / `ServiceEnv` are environment variables.
- `Upstream` is what axios reports for the AI call. `LlmReply` is what the chat
  model call returns, together with the result of `json.loads`.

What is proved, in short:

- the merge law per column: the insert stores exactly the normalised values,
  and the update gives `COALESCE(new, old)`;
- an explicit `null` and an omitted field bind the same parameters, and keys
  other than the columns' are never read;
- idempotence;
- no lost update: after any series of upserts, each column holds the last
  value provided, or its previous value when none was provided;
- other users' rows are untouched, and the returned row is the stored row;
- one row per user id;
- unique email and id in `users`, the duplicate-email error, and that the hash
  is never returned;
- the status and body of every handler outcome;
- the request sent to the AI service;
- the shape and length of the message list the AI service sends to the model.

A first upsert does not fill omitted columns with zeros: the INSERT binds NULL
for them (`backend/src/models/progressModel.js:12-13, 23-28`). No schema is
part of this model, so no column defaults are assumed
(`ProgressModel.FirstWriteLeavesOmittedNull`). Zero and empty defaults appear
only in the GET handler, and only when the whole row is missing. A stored row
with NULL columns is sent as it is.

Two consequences of the code that the model keeps:

- `createUser` maps every unique violation (SQLSTATE 23505) to "User with this
  email already exists.". That includes a collision of the generated id.
- The style-guide chain assigns `"standard"` first and then always overwrites
  it. Only the three guides can reach the prompt.

## Model

| member | source | states |
|---|---|---|
| `Sql.OrNull` | backend/src/models/progressModel.js:25-27 | an omitted body field becomes `null`; a present one is passed through unchanged |
| `Sql.Bind` | backend/src/models/progressModel.js:29 | the driver binds `null` as SQL NULL and every other value as itself |
| `Sql.ParamCell` | backend/src/models/progressModel.js:23-28 | a column parameter is NULL exactly when the key is omitted or `null`, and otherwise exactly the body's value |
| `Sql.NullIsOmitted` | backend/src/models/progressModel.js:25-27 | an explicit `null` and an omitted key give the same parameter, NULL |
| `Sql.OtherKeysIgnored` | backend/src/models/progressModel.js:10 | adding or removing any other key does not change a column's parameter |
| `Sql.Coalesce` | backend/src/models/progressModel.js:16 | `COALESCE(a, b)` is `a` when it is not NULL, else `b` |
| `Sql.LastProvided` | backend/src/models/progressModel.js:16-18 | the last non-NULL write of a series, NULL exactly when every write was NULL |
| `Sql.CoalesceAllKeepsLastProvided` | backend/src/models/progressModel.js:16-18 | a series of COALESCE writes leaves the last provided value, or the initial one if none was provided |
| `ProgressModel.ParamsOf` | backend/src/models/progressModel.js:23-28 | each of the three parameters carries its body key: NULL when omitted or `null`, the body value otherwise |
| `ProgressModel.OnlyColumnKeysRead` | backend/src/models/progressModel.js:10 | two bodies that agree on the normalised values of the three column keys give the same parameters |
| `ProgressModel.NullIsOmitted` | backend/src/models/progressModel.js:25-27 | sending `null` for a column and omitting it give the same parameters |
| `ProgressModel.Merge` | backend/src/models/progressModel.js:11-20 | without a row the new row holds exactly the parameters; otherwise each column is the parameter when provided and the stored value when not; the row's user id is the key |
| `ProgressModel.MergeIdempotent` | backend/src/models/progressModel.js:16-19 | upserting the same body twice stores what upserting it once stores |
| `ProgressModel.MergeWellFormed` | backend/src/models/progressModel.js:23-28 | a merged row never holds a JSON null inside a non-NULL column |
| `ProgressModel.Replay` | backend/src/models/progressModel.js:14 | a non-empty series of upserts for one user leaves a row keyed by that user |
| `ProgressModel.Writes` | backend/src/models/progressModel.js:16-18 | the values a series of upserts writes to one column, in order |
| `ProgressModel.ReplayIsCoalesceAll` | backend/src/models/progressModel.js:14-18 | each column after a series of upserts is the COALESCE chain of the series' values for it |
| `ProgressModel.ReplayKeepsLastProvided` | backend/src/models/progressModel.js:14-18 | no lost update: each column ends as the last value provided, or its earlier value when none was |
| `ProgressModel.FirstWriteLeavesOmittedNull` | backend/src/models/progressModel.js:12-13 | a first upsert of `{concept_mastery: 5}` stores `5, NULL, NULL` |
| `ProgressModel.ProgressTable.GetUserProgress` | backend/src/models/progressModel.js:4-7 | the user's row if there is one, nothing otherwise |
| `ProgressModel.ProgressTable.UpsertUserProgress` | backend/src/models/progressModel.js:9-31 | the user's row becomes the merge of the body into the old row; other users' rows are unchanged; the stored row is returned; a database failure changes nothing and is passed on; one row per user id |
| `AchievementModel.ParamsOf` | backend/src/models/achievementModel.js:21-25 | each of the two parameters carries its body key: NULL when omitted or `null`, the body value otherwise |
| `AchievementModel.OnlyColumnKeysRead` | backend/src/models/achievementModel.js:10 | two bodies that agree on the normalised values of `streak` and `earned_badge_ids` give the same parameters |
| `AchievementModel.NullIsOmitted` | backend/src/models/achievementModel.js:23-24 | sending `null` for a column and omitting it give the same parameters |
| `AchievementModel.Merge` | backend/src/models/achievementModel.js:11-19 | without a row the new row holds exactly the parameters; otherwise each column is the parameter when provided and the stored value when not |
| `AchievementModel.MergeIdempotent` | backend/src/models/achievementModel.js:14-18 | upserting the same body twice stores what upserting it once stores |
| `AchievementModel.MergeWellFormed` | backend/src/models/achievementModel.js:21-25 | a merged row never holds a JSON null inside a non-NULL column |
| `AchievementModel.BadgesReplacedWholesale` | backend/src/models/achievementModel.js:17 | a provided badge list replaces the stored one exactly, with no union or deduplication |
| `AchievementModel.StreakUpdateKeepsBadges` | backend/src/models/achievementModel.js:16-17 | `{streak: 3, earned_badge_ids: ["a"]}` updated with `{streak: 4}` becomes `{streak: 4, earned_badge_ids: ["a"]}` |
| `AchievementModel.Replay` | backend/src/models/achievementModel.js:14 | a non-empty series of upserts for one user leaves a row keyed by that user |
| `AchievementModel.Writes` | backend/src/models/achievementModel.js:16-17 | the values a series of upserts writes to one column, in order |
| `AchievementModel.ReplayIsCoalesceAll` | backend/src/models/achievementModel.js:14-17 | each column after a series of upserts is the COALESCE chain of the series' values for it |
| `AchievementModel.ReplayKeepsLastProvided` | backend/src/models/achievementModel.js:14-17 | no lost update: each column ends as the last value provided, or its earlier value when none was |
| `AchievementModel.AchievementTable.GetUserAchievements` | backend/src/models/achievementModel.js:4-7 | the user's row if there is one, nothing otherwise |
| `AchievementModel.AchievementTable.UpsertUserAchievements` | backend/src/models/achievementModel.js:9-28 | the user's row becomes the merge of the body into the old row; other users' rows are unchanged; the stored row is returned; a database failure changes nothing and is passed on |
| `UserModel.Rethrow` | backend/src/models/userModel.js:11-16 | a unique violation (23505) becomes "User with this email already exists."; any other error is re-thrown unchanged |
| `UserModel.FirstMatch` | backend/src/models/userModel.js:20-21 | the row returned satisfies the query's condition; nothing is returned exactly when no row does |
| `UserModel.UserTable.FindUserByEmail` | backend/src/models/userModel.js:19-22 | a stored row whose email equals the argument, or nothing exactly when no row has it or the argument is `null` (SQL NULL equals nothing) |
| `UserModel.UserTable.FindUserById` | backend/src/models/userModel.js:24-27 | a stored row with that id, or nothing exactly when no row has it |
| `UserModel.UserTable.CreateUser` | backend/src/models/userModel.js:4-17 | succeeds exactly when there is no failure and neither email nor id is taken (a `null` email is never taken); then exactly one row with the email and hash is appended and only `{id, email}` is returned; otherwise the table is unchanged and the error is the duplicate-email error or the re-thrown failure; emails and ids stay unique |
| `UserModel.FindByEmailIsUnique` | backend/src/models/userModel.js:19-22 | with unique emails, looking up a stored user's non-null email returns that user |
| `UserModel.FindByIdIsUnique` | backend/src/models/userModel.js:24-27 | with unique ids, looking up a stored user's id returns that user |
| `UserModel.SecondInsertOfEmailFails` | backend/src/models/userModel.js:12-13 | inserting the same non-null email twice: the first succeeds, the second fails with the duplicate-email error and stores nothing |
| `UserModel.NullEmailsNeverCollide` | backend/src/models/userModel.js:6-13 | two inserts with a `null` email and distinct ids both succeed: the unique index never counts two NULLs as equal |
| `UserRoutes.TempUserId` | backend/src/routes/userRoutes.js:13 | the configured id is present exactly when the variable is set and non-empty |
| `UserRoutes.GetUserData` | backend/src/routes/userRoutes.js:16-36 | 500 without a configured id; 500 "Internal server error" on a store failure; otherwise 200 with `progress` and `achievements`, each the stored row, or the default exactly when the row is missing |
| `UserRoutes.MissingRowsGiveDefaults` | backend/src/routes/userRoutes.js:24-31 | a user with neither row gets `{0,0,0}` and `{streak: 0, earned_badge_ids: []}` |
| `UserRoutes.PutProgress` | backend/src/routes/userRoutes.js:39-50 | 500 without touching the table when no id is configured; otherwise the upsert's row is echoed with 200, or 500 "Internal server error" on failure |
| `UserRoutes.PutAchievements` | backend/src/routes/userRoutes.js:53-64 | 500 without touching the table when no id is configured; otherwise the upsert's row is echoed with 200, or 500 "Internal server error" on failure |
| `UserRoutes.FailureMessage` | backend/src/routes/userRoutes.js:80 | the error's message, or the fallback text when the message is empty |
| `UserRoutes.RegisterTempUser` | backend/src/routes/userRoutes.js:68-82 | 400 with no insert when email or password is falsy; 201 with `{id, email}` exactly when the hash and the insert succeed; 500 with the error's message otherwise, table unchanged |
| `UserRoutes.EmptyEmailRefused` | backend/src/routes/userRoutes.js:70 | an empty-string email fails the credentials guard |
| `Values.EnvOr` | backend/src/routes/aiRoutes.js:35 | an unset or empty variable gives the fallback, any other value itself |
| `AiRoutes.SocraticRequest` | backend/src/routes/aiRoutes.js:28-36 | message, subject, gradeLevel, tutoringStyle and conversationHistory are copied unchanged (absent stays absent); emotion is the body value if truthy, else "neutral"; provider is the configured name, else "google"; no other key |
| `AiRoutes.Classify` | backend/src/routes/aiRoutes.js:44-66 | success relays the data with 200; an error response relays its status with `{message, details}`; no response gives 503; anything else 500 |
| `AiRoutes.ChatMessage` | backend/src/routes/aiRoutes.js:10-68 | without a service URL nothing is sent and the answer is 500; otherwise exactly the built request goes to `/ai/socratic-question` and the outcome is classified |
| `AiRoutes.ClassifyRelaysUpstream` | backend/src/routes/aiRoutes.js:48-57 | the only statuses are 200, 503, 500 and the upstream's own; upstream data reaches the client unchanged |
| `AiRoutes.RateLimitRelayed` | backend/src/routes/aiRoutes.js:54-57 | an upstream 429 `{error: "rate limited"}` reaches the client as 429 with that body as details |
| `AiService.OrDefault` | python-ai-service/main.py:77-79 | an omitted field takes its declared default, a given one is kept |
| `AiService.GetEnv` | python-ai-service/main.py:32 | `os.getenv` with a default gives the default only when the variable is unset |
| `AiService.GetLlm` | python-ai-service/main.py:27-52 | succeeds exactly for "google" or "openai" with its key set; each missing key and every other provider gives its error |
| `AiService.SocraticInputOf` | python-ai-service/main.py:72-79 | omitted style is "standard", omitted history empty, omitted provider "google"; given fields are kept |
| `AiService.EmotionInputOf` | python-ai-service/main.py:64-66 | an omitted provider is "google" |
| `AiService.StyleGuide` | python-ai-service/main.py:128-134 | "simpler" gives the simplify guide, "moreDepth" the depth guide, and every other style the balanced guide, each if and only if |
| `AiService.ConvertHistory` | python-ai-service/main.py:153-158 | one message per turn, in order: a human message exactly for type "user", an AI message otherwise, with the turn's text |
| `AiService.SocraticMessages` | python-ai-service/main.py:160-168 | the system prompt, then the converted history, then one human message with the student's message; length is history + 2 |
| `AiService.SocraticOutcome` | python-ai-service/main.py:170-184 | as written: a question only from a JSON object with a string `question`; invalid JSON gives 500 with the content; a reply of another shape gives 500 "Error generating socratic question."; a failed model call escapes through `UnboundLocalError` and gives the framework's bare 500 |
| `AiService.SocraticOutcomeIntended` | python-ai-service/main.py:170-184 | with `json` bound when the `except` clauses run: the same outcomes, except that a failed model call gives 500 "Error generating socratic question."; no outcome is the framework's bare 500 |
| `AiService.EmotionOutcome` | python-ai-service/main.py:107-121 | as written: a report only from a JSON object with string `emotion` and `adaptedResponse`; invalid JSON gives 500 with the content; a reply of another shape gives 500 "Error processing emotion analysis."; a failed model call gives the framework's bare 500 |
| `AiService.EmotionOutcomeIntended` | python-ai-service/main.py:107-121 | with `json` bound when the `except` clauses run: the same outcomes, except that a failed model call gives 500 "Error processing emotion analysis."; no outcome is the framework's bare 500 |
| `AiService.FailedCallEscapes` | python-ai-service/main.py:107-115 | the as-written and intended outcomes differ exactly when the model call fails, where the as-written answer is the framework's bare 500 |
| `AiService.SocraticQuestion` | python-ai-service/main.py:124-184 | a failed provider lookup sends nothing and answers the framework's 500; otherwise the chosen model gets the assembled list and the reply is classified as written |
| `AiService.AnalyzeEmotion` | python-ai-service/main.py:86-121 | a failed provider lookup sends nothing and answers the framework's 500; otherwise the model gets the system prompt and the message, and the reply is classified as written |
| `AiService.DefaultRequestShape` | python-ai-service/main.py:77-79 | a request with every optional field omitted is served by Google with the balanced guide and a two-message list |

## Left out

- The SQL engine, the connection pool, its configuration and SSL selection. The tables are maps or sequences.
- Atomicity and row locking of `INSERT … ON CONFLICT` under concurrent requests. The model treats each statement as one step. Concurrent upserts are covered only as a serial order (`Replay`).
- `updated_at = CURRENT_TIMESTAMP`. It depends on the clock.
- Columns that `RETURNING *` / `SELECT *` may add beyond those written (such as a row id). No schema is part of this model.
- The driver's conversion of body values to column types. A value of the wrong type is one of the `fault` failures.
- Case-insensitive email matching. The email is compared as the JSON value sent, which is case-sensitive.
- The text conversion pg applies to a non-string email.
- bcrypt. Its outcome is the `hashed` parameter.
- The database's id generator. Its output is the `newId` parameter.
- Express and FastAPI wiring, CORS, body parsing, and server bootstrap (`backend/server.js`).
- `console.error` and `print` logging.
- Reading environment variables. They are parameters.
- axios and the LangChain chat clients. The outcome of each call is a parameter.
- Prompt wording, `temperature=0.7`, client options and JSON mode. The prompts keep only the request values they are built from.
- Pydantic request validation: type coercion, and the 422 for a malformed request. The request models start from validated fields.
- The response model accepts only string fields. This follows pydantic v2's default, where a number is not coerced to a string.
- `Truthy` ignores NaN, which JSON cannot carry.
- UserModel.UserTable.CreateUser: no schema is part of this model, so whether `email` accepts NULL is not known; a `null` email is stored under the nullable reading, and a NOT NULL violation (SQLSTATE 23502) is one of the `fault` failures, re-thrown as it is. The only caller passes a truthy email.
- `UserModel.FirstMatch` returns the first matching row in table order. PostgreSQL gives no order without ORDER BY. With the unique index, at most one row matches.

## Findings

| source | as written | input that shows it | evidently intended | confidence | as-written member | corrected member |
|---|---|---|---|---|---|---|
| python-ai-service/main.py:107-121, 170-184 | `import json` sits inside each handler, so `json` is a local name that is unbound until line 111 (174); when `llm.ainvoke` or `.strip()` raises, evaluating `except json.JSONDecodeError` raises `UnboundLocalError` and the framework answers with its bare 500 "Internal Server Error" | any provider whose model call raises (a network or quota error) | the handler's own 500 with "Error generating socratic question." / "Error processing emotion analysis." (a module-level `import json`) | high, not executed | `AiService.SocraticOutcome`, `AiService.EmotionOutcome`, `AiService.FailedCallEscapes` | `AiService.SocraticOutcomeIntended`, `AiService.EmotionOutcomeIntended` |
