# Task manager with profiles: a Dafny model

This project models the core of a small serverless task manager. The
modelled parts are:

- the **task API**, an AWS Lambda function (`lambda_handler` with `create_task`,
  `get_tasks`, `update_task` and `delete_task`). It keeps every task twice: as a
  row of the RDS `tasks` table and as an item of the DynamoDB `Tasks` table. It
  stores attachments in an S3 bucket;
- the **profile API**, a second Lambda function, which keeps a user's profile in
  the DynamoDB `UserProfiles` table and in the RDS `users` table;
- the two React components that call them: the task list (`TaskManager.jsx`) and
  the profile page (`profile.jsx`).

Each table is a map from its primary key to a datatype. The two servers are
classes whose methods update those maps in place. Each method is tied to a
specification (a function from the stores before to the answer and the stores
after, or an explicit description of the new state). The components are
classes as well: each of their commands is one atomic step whose network answers
are inputs. Requests a component sends are recorded in a `sent` field, and
alerts in an `alerts` field.

Some inputs are given as parameters:

- the fresh task id, the clock and the presigned URL;
- whether `base64.b64decode` accepts an attachment's payload (`decodes`). When
  it does not, the create answers 500 with nothing stored. The decoded bytes
  themselves are not modelled: the stored object's body is the base64 text;
- whether a database connection can be opened (`dbAvailable`). When it cannot,
  the model gives the handler's 500 answer. The body of that answer is the
  opaque `Failure`.

Modules:

| file | module | models |
|---|---|---|
| wrappers.dfy | `Wrappers` | `Option` (a JSON key that is absent or present) |
| text.dfy | `Text` | Python `str.strip` and JavaScript `trim` with their own white-space sets, ASCII case mapping, decimal rendering, `split(sep)[0]` |
| task_files.dfy | `TaskFiles` | `handle_file_upload` and `get_content_type` |
| task_update.dfy | `TaskUpdate` | the change list, the RDS `UPDATE` statement and the DynamoDB update expression of `update_task` |
| task_api.dfy | `TaskApi` | routing and the four task handlers over the four stores |
| profile_api.dfy | `ProfileApi` | `ensure_profile_exists`, `get`, `update`, `delete` and the profile handler |
| task_manager.dfy | `TaskManagerClient` | the state and the `fetchTasks`/`createTask` commands of the task list |
| profile_client.dfy | `ProfileClient` | the state, `fetchProfile`, `handleUpdate`, `handleDelete` and the delete-confirmation flag of the profile page |

Facts about the code that the model keeps:

- the task list attaches no bearer token to its calls, the profile page does
  not redirect on a 401, and no component numbers its requests; the model
  does none of these either;
- a task's `status` is any string the body carries; the server checks it
  against no list. The client offers three values, and
  `TaskManagerClient.TaskManager.SetStatus` requires one of them;
- the task API strips the fields with Python's white-space set. The client
  trims them with JavaScript's set. The two sets differ, so the client and the
  server disagree on which fields are blank (`TaskManagerClient.ClientAndServerChecksDiffer`);
- the profile handler always passes the caller's own id as the profile to
  update, so its 403 branch cannot happen (`ProfileApi.HandleNeverForbids`).

The profile page behaves in two ways worth noting:

- after a successful update it refetches the profile, and the refetch clears
  the success message again;
- the confirmation dialog stays open after the account is deleted.

## Model

| member | source | states |
|---|---|---|
| Text.LeadingCountMeaning | taskapp/lambda-functions/tasks-functions.py:181-182 | the count covers exactly the leading run of white space |
| Text.DropTrailingMeaning | taskapp/lambda-functions/tasks-functions.py:181-182 | only trailing white space is dropped, and what is left does not end with white space |
| Text.StripMeaning | taskapp/lambda-functions/tasks-functions.py:181-182 | `strip()` is empty exactly when every character is Python white space, and otherwise neither starts nor ends with white space |
| Text.TrimMeaning | taskapp/frontendd/src/components/TaskManager.jsx:59 | the same for JavaScript's `trim()` and its own white-space set |
| Text.TrimAndStripDisagree | taskapp/frontendd/src/components/TaskManager.jsx:59 | U+001C is blank to Python but not to JavaScript, and U+FEFF the reverse |
| Text.NatToStringRoundTrip | taskapp/lambda-functions/tasks-functions.py:442-443 | the decimal text of an integer reads back as that integer, so distinct seconds give distinct texts |
| Text.UpTo | taskapp/frontendd/lambda-functions/user-profile.py:61 | `s.split(sep)[0]` is the longest prefix without the separator, followed by the separator or the end |
| Text.UpToPrefix | taskapp/frontendd/lambda-functions/user-profile.py:61 | a prefix without the separator is recovered from `pre + sep + rest` |
| TaskFiles.StripDataUrlPrefix | taskapp/lambda-functions/tasks-functions.py:439-440 | data without a comma is unchanged; otherwise the result is the segment between the first comma and the next comma or the end |
| TaskFiles.DataUrlRoundTrip | taskapp/lambda-functions/tasks-functions.py:439-440 | the base64 payload of a `data:` URL built by the browser's reader is recovered exactly |
| TaskFiles.ObjectKeyInjective | taskapp/lambda-functions/tasks-functions.py:443 | the S3 key determines the user, the task, the upload second and the filename, when the ids contain no `/` |
| TaskFiles.ObjectKeyLayout | taskapp/lambda-functions/tasks-functions.py:443 | the key lies in the folder `tasks/{user}/{task}/` and ends with `_` and the original filename |
| TaskFiles.AfterLastDot | taskapp/lambda-functions/tasks-functions.py:470 | the result is the dot-free suffix after the last dot |
| TaskFiles.Extension | taskapp/lambda-functions/tasks-functions.py:470 | the extension has no dot, and is empty for a name without one |
| TaskFiles.ContentType | taskapp/lambda-functions/tasks-functions.py:468-483 | a name without a dot gets `application/octet-stream`, and every answer is that default or one of the table's media types |
| TaskFiles.ContentTypeOfSuffix | taskapp/lambda-functions/tasks-functions.py:468-483 | the media type of `name.ext` is the table entry of the lower-cased `ext`, else `application/octet-stream` |
| TaskFiles.ContentTypeIgnoresCase | taskapp/lambda-functions/tasks-functions.py:470 | the case of the extension makes no difference to the media type |
| TaskFiles.PlanUpload | taskapp/lambda-functions/tasks-functions.py:433-463 | nothing is uploaded unless both data and filename are truthy; otherwise the stored object has the key, the stripped payload, the media type and the metadata |
| TaskUpdate.EditsMeaning | taskapp/lambda-functions/tasks-functions.py:325-333 | the edits are exactly the truthy fields with their values, each once, in the order title, description, status |
| TaskUpdate.Updated | taskapp/lambda-functions/tasks-functions.py:322-337 | every truthy body field replaces the stored one, and the others are kept |
| TaskUpdate.ApplyEditsMeaning | taskapp/lambda-functions/tasks-functions.py:322-337 | running the generated `SET` clauses in order gives exactly `Updated` |
| TaskUpdate.ChangeList | taskapp/lambda-functions/tasks-functions.py:314-320 | one correct entry per truthy field that differs from the stored value, with the old and new values, in order; empty exactly when the update leaves the content unchanged |
| TaskUpdate.EditParams | taskapp/lambda-functions/tasks-functions.py:324-333 | one text parameter per edit, holding the edit's value |
| TaskUpdate.SetClausesPlaceholders | taskapp/lambda-functions/tasks-functions.py:325-333 | each `SET` clause carries exactly one placeholder |
| TaskUpdate.PlaceholdersMatchParams | taskapp/lambda-functions/tasks-functions.py:323-335 | the whole statement carries three placeholders more than there are edits |
| TaskUpdate.BuildRdsUpdate | taskapp/lambda-functions/tasks-functions.py:322-337 | the statement is the head, one clause per edit and the owner-scoped `WHERE`; the parameters are the time, the edit values, the task id and the user id; there is one placeholder per parameter |
| TaskUpdate.AddValue | taskapp/lambda-functions/tasks-functions.py:346-355 | adding the value of a later field keeps the attribute values matched to the edits |
| TaskUpdate.BuildDynamoUpdate | taskapp/lambda-functions/tasks-functions.py:341-362 | the expression is `updatedAt` then one clause per edit in order; every placeholder has its value and there are no others; `#status` is declared exactly when the status is set |
| TaskApi.Method | taskapp/lambda-functions/tasks-functions.py:123 | the top-level `httpMethod` when present, else `requestContext.http.method`, else empty, upper-cased character by character |
| TaskApi.ClaimsOf | taskapp/lambda-functions/tasks-functions.py:133-136 | the claims under `jwt` when there are any, else those directly under the authorizer, else no claims at all (so no `sub`) |
| TaskApi.TaskIdOf | taskapp/lambda-functions/tasks-functions.py:150-152 | the path's task id when it is truthy, else the query string's |
| TaskApi.Route | taskapp/lambda-functions/tasks-functions.py:111-167 | a preflight comes before the claims check; without a truthy `sub` the answer is 401; four methods go to their handlers for the `sub`, with the email defaulting to `unknown@example.com`; every other method is refused; each outcome holds exactly when its condition does |
| TaskApi.PreflightIgnoresClaims | taskapp/lambda-functions/tasks-functions.py:125-130 | a preflight is answered whatever the authorizer holds |
| TaskApi.LowerCaseMethodRoutes | taskapp/lambda-functions/tasks-functions.py:123 | a lower-case `get` is routed as a read |
| TaskApi.NormalizeCreate | taskapp/lambda-functions/tasks-functions.py:180-192 | an accepted draft has the stripped, non-empty title and description, and the status defaults to `pending` only when absent |
| TaskApi.BlankFieldsRefused | taskapp/lambda-functions/tasks-functions.py:181-192 | a create is refused exactly when the title or the description is absent or all white space |
| TaskApi.ContentUpdateKeepsAgreement | taskapp/lambda-functions/tasks-functions.py:337-362 | giving the RDS row and the DynamoDB item the same new content keeps the tables in agreement |
| TaskApi.TouchKeepsAgreement | taskapp/lambda-functions/tasks-functions.py:337-341 | touching only the row's update time keeps the tables in agreement |
| TaskApi.RemoveKeepsAgreement | taskapp/lambda-functions/tasks-functions.py:405-408 | removing a task from both tables keeps them in agreement |
| TaskApi.UpdateAsWritten | taskapp/lambda-functions/tasks-functions.py:322-362 | the update of an owned task as written: the row always takes the edits; a change that sets no status sends an empty names map, which DynamoDB refuses, so it answers 500 with the item left stale; when DynamoDB is written, the truthy fields are set onto the item's own stored content |
| TaskApi.AsWrittenUpdateSplitsStores | taskapp/lambda-functions/tasks-functions.py:341-362 | as written, a title or description change without a status answers 500 and leaves the two tables disagreeing on the task |
| TaskApi.AsWrittenSplitPersists | taskapp/lambda-functions/tasks-functions.py:314-362 | as written, after a failed title change a later status-only update answers 200, but the item keeps the old title while the row has the new one, so the tables still disagree |
| TaskApi.TaskBackend.constructor | taskapp/lambda-functions/tasks-functions.py:111-175 | the stores start empty and in agreement |
| TaskApi.TaskBackend.Owns | taskapp/lambda-functions/tasks-functions.py:310 | a task is refused exactly when it is missing or its owner is another user (also the guard at line 402) |
| TaskApi.TaskBackend.RowsOf | taskapp/lambda-functions/tasks-functions.py:280-281 | exactly the rows the user owns, unchanged |
| TaskApi.TaskBackend.GetTasks | taskapp/lambda-functions/tasks-functions.py:264-292 | with a task id, the user's own task or 404 (a foreign task looks missing); without one, exactly the user's stored rows; 500 without a database |
| TaskApi.TaskBackend.StoreUpload | taskapp/lambda-functions/tasks-functions.py:433-463 | nothing when the data or the filename is missing; a payload that does not decode stores nothing and fails; otherwise the planned object replaces any object under its key and the attachment names it; no table changes |
| TaskApi.TaskBackend.CreateTask | taskapp/lambda-functions/tasks-functions.py:177-262 | an unreadable body is 500 and a blank field 400, with nothing stored; otherwise the upload happens first, and a payload that does not decode is a 500 with nothing stored; then, without a database, or when the id is taken, the answer is 500 with only the upload kept; otherwise the email is upserted, the same task goes into both tables, and 201 echoes it |
| TaskApi.TaskBackend.InsertTask | taskapp/lambda-functions/tasks-functions.py:199-253 | the email upsert and the new row, the new item and the 201 body, keeping the tables in agreement |
| TaskApi.TaskBackend.UpdateTask | taskapp/lambda-functions/tasks-functions.py:294-389 | 400 without a task id, 500 for an unreadable body or no database, 403 for a missing or foreign task, each changing nothing; otherwise as `WriteUpdate`, the corrected update (see Findings), answering 200 |
| TaskApi.TaskBackend.WriteUpdate | taskapp/lambda-functions/tasks-functions.py:314-362 | the row takes every truthy field and the time; the item changes only when the change list is non-empty, which is exactly when the content changes; the attribute names go to DynamoDB only when there are any, so the tables stay in agreement |
| TaskApi.TaskBackend.DeleteTask | taskapp/lambda-functions/tasks-functions.py:391-431 | 400 without a task id, 500 without a database, 403 for a missing or foreign task, each changing nothing; otherwise the task leaves both tables and its attachment leaves the bucket |
| TaskApi.TaskBackend.Handle | taskapp/lambda-functions/tasks-functions.py:111-175 | runs what `Route` decides; a preflight, a 401, a 405 and a read change nothing |
| ProfileApi.DefaultName | taskapp/frontendd/lambda-functions/user-profile.py:61 | the username when truthy, else the text of the email before its first `@`; nothing (the code raises) when both are missing |
| ProfileApi.DefaultNameIsLocalPart | taskapp/frontendd/lambda-functions/user-profile.py:61 | without a username the name is the local part of the address |
| ProfileApi.Ensured | taskapp/frontendd/lambda-functions/user-profile.py:38-88 | a profile present in either store is left alone; an absent one is created in both stores, with the derived name, the token's email and one time; it fails exactly when the database is needed and unreachable, or no name can be derived |
| ProfileApi.EnsureIdempotent | taskapp/frontendd/lambda-functions/user-profile.py:38-58 | a second ensure changes nothing, whatever token it carries |
| ProfileApi.GetUserProfile | taskapp/frontendd/lambda-functions/user-profile.py:90-137 | the DynamoDB item first, else the RDS row in its own shape; 404 exactly when the database answers and neither store has the user; 500 exactly when the database is needed and unreachable; the 404 and 500 bodies are the source's error texts |
| ProfileApi.EnsuredProfileIsFound | taskapp/frontendd/lambda-functions/user-profile.py:261-265 | after a successful ensure a read answers 200 |
| ProfileApi.UpdateOutcome | taskapp/frontendd/lambda-functions/user-profile.py:139-196 | 403 for another user's id, 500 for an unreadable body or no database, 400 for a missing name or email, changing nothing; otherwise the item takes the name, the email and the time (it is created when missing, with no creation time), keeping the creation time of an existing item, the RDS row changes only when it exists, and nothing else changes |
| ProfileApi.UpdateThenGet | taskapp/frontendd/lambda-functions/user-profile.py:139-196 | after a successful update a read returns the new name and email |
| ProfileApi.DeleteOutcome | taskapp/frontendd/lambda-functions/user-profile.py:198-224 | the user leaves both stores and nothing else changes, or 500 without a database |
| ProfileApi.HandleOutcome | taskapp/frontendd/lambda-functions/user-profile.py:226-282 | a preflight is an empty 200 and a missing `sub` a 401, both before anything else; otherwise the profile is ensured unless the method is POST or DELETE, a failed ensure is 500, and then GET reads, PUT updates the caller's own profile, DELETE deletes it and any other method is 405; only the listed statuses can occur |
| ProfileApi.RequestMethod | taskapp/frontendd/lambda-functions/user-profile.py:240 | the dispatch uses `requestContext.http.method` as sent, or empty, and ignores the top-level `httpMethod` |
| ProfileApi.PostIsRefused | taskapp/frontendd/lambda-functions/user-profile.py:260-275 | a POST is answered with 405 and creates nothing |
| ProfileApi.OtherMethodsEnsureProfile | taskapp/frontendd/lambda-functions/user-profile.py:260-262 | every method but POST and DELETE leaves a profile behind, even one then refused with 405 |
| ProfileApi.DeletedProfileReturns | taskapp/frontendd/lambda-functions/user-profile.py:260-269 | after a DELETE the next GET recreates the profile with the derived name and returns it |
| ProfileApi.HandleNeverForbids | taskapp/frontendd/lambda-functions/user-profile.py:266-267 | the handler never answers 403 |
| ProfileApi.ProfileBackend.constructor | taskapp/frontendd/lambda-functions/user-profile.py:226-282 | both tables start empty |
| ProfileApi.ProfileBackend.EnsureProfileExists | taskapp/frontendd/lambda-functions/user-profile.py:38-88 | the in-place writes give the state `Ensured` describes, and `ok` tells whether it succeeded |
| ProfileApi.ProfileBackend.UpdateUserProfile | taskapp/frontendd/lambda-functions/user-profile.py:139-196 | the answer and the new state are those of `UpdateOutcome` |
| ProfileApi.ProfileBackend.DeleteUserProfile | taskapp/frontendd/lambda-functions/user-profile.py:198-224 | the answer and the new state are those of `DeleteOutcome` |
| ProfileApi.ProfileBackend.Handle | taskapp/frontendd/lambda-functions/user-profile.py:226-282 | the answer and the new state are those of `HandleOutcome` |
| TaskManagerClient.PayloadOf | taskapp/frontendd/src/components/TaskManager.jsx:67-84 | the untrimmed form fields, plus the data URL and the name exactly when a file is selected |
| TaskManagerClient.FillableMeaning | taskapp/frontendd/src/components/TaskManager.jsx:59 | the client's check passes exactly when both the title and the description hold a character that is not JavaScript white space |
| TaskManagerClient.ClientAndServerChecksDiffer | taskapp/frontendd/src/components/TaskManager.jsx:59-62 | a U+001C title passes the client's check but the server refuses it; a U+FEFF title is the reverse |
| TaskManagerClient.TaskManager.constructor | taskapp/frontendd/src/components/TaskManager.jsx:4-11 | no tasks, the empty form with status `pending`, no file, nothing sent |
| TaskManagerClient.TaskManager.SetTitle | taskapp/frontendd/src/components/TaskManager.jsx:150-188 | only the title changes |
| TaskManagerClient.TaskManager.SetDescription | taskapp/frontendd/src/components/TaskManager.jsx:150-188 | only the description changes |
| TaskManagerClient.TaskManager.SetStatus | taskapp/frontendd/src/components/TaskManager.jsx:178-180 | only the status changes, to one of the three options |
| TaskManagerClient.TaskManager.SelectFile | taskapp/frontendd/src/components/TaskManager.jsx:150-188 | only the selected file changes |
| TaskManagerClient.TaskManager.FetchTasks | taskapp/frontendd/src/components/TaskManager.jsx:18-55 | one GET is sent while loading; the list is replaced by the data (or emptied) only on an ok answer reporting success; loading ends false |
| TaskManagerClient.TaskManager.CreateTask | taskapp/frontendd/src/components/TaskManager.jsx:58-124 | a form failing the trim check alerts and sends nothing; otherwise the payload is sent while loading; on success the form resets, the file clears, the list refreshes and a success alert shows; on failure the form, file and list are kept and the matching alert shows |
| ProfileClient.FailureText | taskapp/frontendd/src/components/profile.jsx:66 | the message starts with the prefix, shows the status in decimal and ends with the body text |
| ProfileClient.FailureTextShowsStatus | taskapp/frontendd/src/components/profile.jsx:66 | distinct statuses give distinct messages |
| ProfileClient.LoadedForm | taskapp/frontendd/src/components/profile.jsx:73-76 | the loaded name, else empty; the loaded email, else the user's email attribute, else empty |
| ProfileClient.Loaded | taskapp/frontendd/src/components/profile.jsx:49-82 | a missing token and each kind of failed answer keep the form and set their own error text; an answer carrying a profile fills the form; the error is empty exactly when a profile was loaded |
| ProfileClient.ClientView | taskapp/frontendd/src/components/profile.jsx:72 | a profile is found exactly in the two profile shapes the API returns |
| ProfileClient.SavedFormLoadsBack | taskapp/frontendd/src/components/profile.jsx:88-128 | a saved form with a name and an email is what the next load puts back into the form |
| ProfileClient.ProfileContent.constructor | taskapp/frontendd/src/components/profile.jsx:23-27 | the empty form, loading, no messages, the dialog closed |
| ProfileClient.ProfileContent.SetName | taskapp/frontendd/src/components/profile.jsx:228 | only the name changes |
| ProfileClient.ProfileContent.SetEmail | taskapp/frontendd/src/components/profile.jsx:244 | only the email changes |
| ProfileClient.ProfileContent.FetchProfile | taskapp/frontendd/src/components/profile.jsx:32-86 | without a user or a token it reports so and sends nothing; otherwise one GET is sent; the form and the error become what `Loaded` gives and the message is cleared; loading ends false |
| ProfileClient.ProfileContent.HandleUpdate | taskapp/frontendd/src/components/profile.jsx:88-128 | without a user or a token it reports so and sends nothing; otherwise the form goes out in one PUT; a failure sets the error; a success refetches, which leaves the message empty and the form and the error as `Loaded` gives for the refetch |
| ProfileClient.ProfileContent.HandleDelete | taskapp/frontendd/src/components/profile.jsx:130-161 | without a token nothing is sent; otherwise one DELETE is sent; only an ok answer sets the message and signs the user out; a failure sets the error |
| ProfileClient.ProfileContent.RequestDelete | taskapp/frontendd/src/components/profile.jsx:284 | the dialog opens and nothing else changes |
| ProfileClient.ProfileContent.CancelDelete | taskapp/frontendd/src/components/profile.jsx:323 | the dialog closes and nothing else changes |
| ProfileClient.ProfileContent.ConfirmDelete | taskapp/frontendd/src/components/profile.jsx:299-335 | the delete runs only from an open dialog, which stays open; the form and loading are kept; the request, the message, the error and the sign-out are those of `HandleDelete` |

## Left out

- Notifications by e-mail (`send_notification`) are not modelled. No handler's answer depends on them; `UpdateTask` returns the change list a notification would report.
- Database cursors and connections are not modelled. Neither are uuid generation, the clock and presigned URL signing; their results are inputs.
- The clock is one input `now` per request. The task update reads the clock twice, once for the RDS row (tasks-functions.py:324) and once for the DynamoDB item (:343); the model gives both the same time. Store agreement compares content only, not `updatedAt`, so this changes no proved property.
- Base64 decoding is not modelled as a function: whether it succeeds is the input `decodes`, and the stored object body is the undecoded base64 text.
- Apart from the refused empty names map (see Findings), DynamoDB and S3 calls never fail in the model. Other failures after some writes, such as RDS committed and then DynamoDB unreachable, are not modelled; only an unreachable database is.
- TaskApi.TaskBackend.WriteUpdate: follows the corrected update, which gives DynamoDB the attribute names only when there are any; the code as written is `TaskApi.UpdateAsWritten`.
- The text of an exception inside a 500 body is abstracted to `Failure`.
- JSON `null` and non-string field values are not modelled. A field is absent or a string, and a body that is not a JSON object is `None`.
- Case mapping is ASCII only. Python's and JavaScript's full Unicode case mapping is not modelled.
- Timestamps are natural numbers. Their ISO and SQL renderings are not modelled.
- The RDS `users` table is one table in the source. It is shared by the task upsert and the profile service; the model keeps the task side's emails and the profile side's rows separately.
- The component effects that run on mount are not modelled. Neither are asynchronous interleaving of commands and the un-awaited refresh inside `createTask`; each command is one atomic step. The Amplify calls `fetchUserAttributes` and `fetchAuthSession` are assumed to return; only the token they yield is an input.
- The shapes the task list expects (`success`, `data`) differ from what the task API returns. The model does not connect the two; the components' network answers are free inputs.
- The CORS headers and the response headers of both APIs are not modelled.
- The Cognito post-confirmation sync function, `api.js`, the sign-in and sign-up components, the navigation bar and all markup are not part of this model.
- TaskManagerClient.TaskManager.CreateTask: every file read is assumed to succeed. In the code the read's promise settles only in `onload` (TaskManager.jsx:76-79), so a failed read leaves `createTask` waiting for ever: nothing is sent, no alert shows and `loading` stays true. The model does not capture this hang.
- TaskApi.TaskBackend.Handle: its own contract does not restate the effects of create, update and delete. They are the contracts of the handler methods it calls.

## Findings

| source | as written | input that shows it | evidently intended | confidence | as-written member | corrected member |
|---|---|---|---|---|---|---|
| taskapp/lambda-functions/tasks-functions.py:344-362 | `update_item` always receives `ExpressionAttributeNames`, which stays empty unless the status is set; DynamoDB refuses an empty names map, so the update answers 500 after the RDS commit at line 338 and the DynamoDB item keeps the old content; later updates set their fields onto that stale item, so the split persists | an owned task and a body `{"title": "new title"}` whose title differs from the stored one | pass the names only when there are any, so DynamoDB takes the same content as RDS | not executed; rests on DynamoDB's documented refusal of an empty `ExpressionAttributeNames` | TaskApi.UpdateAsWritten, TaskApi.AsWrittenUpdateSplitsStores, TaskApi.AsWrittenSplitPersists | TaskApi.TaskBackend.WriteUpdate |
