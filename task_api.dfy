/**
 * The task API (taskapp/lambda-functions/tasks-functions.py): request
 * routing in `lambda_handler`, and the four handlers over the three stores
 * they touch: the RDS `tasks` and `users` tables, the DynamoDB `Tasks` table
 * and the S3 bucket of attachments. Each table is a map keyed by its primary
 * key. The task id, the clock and the presigned URL are inputs; whether a
 * database connection can be opened is an input too (`dbAvailable`), and a
 * failure to open one is the abstract 500 outcome; so is whether an
 * attachment's base64 payload decodes (`decodes`).
 */
module TaskApi {
  import opened Wrappers
  import opened Text
  import opened TaskFiles
  import opened TaskUpdate

  /** The JSON object of a create or update body; each field is absent or a string. */
  datatype Payload = Payload(
    title: Option<string>, description: Option<string>, status: Option<string>,
    file: Option<string>, filename: Option<string>)

  /** The attachment columns of a task: all absent when nothing was uploaded. */
  datatype Attachment = Attachment(fileUrl: Option<string>, fileName: Option<string>, s3Key: Option<string>)

  const NoAttachment := Attachment(None, None, None)

  /** A row of the RDS `tasks` table; `updated_at` is not written by the insert. */
  datatype TaskRow = TaskRow(
    userId: string, content: Content, attachment: Attachment,
    createdAt: nat, updatedAt: Option<nat>)

  /** An item of the DynamoDB `Tasks` table. */
  datatype TaskItem = TaskItem(
    userId: string, userEmail: string, content: Content, attachment: Attachment,
    createdAt: nat, updatedAt: nat)

  /** The `data` object of a 201 response. */
  datatype TaskData = TaskData(
    taskId: string, title: string, description: string, status: string,
    fileUrl: Option<string>, fileName: Option<string>, createdAt: nat)

  /** The kinds of JSON body a response carries; `Failure` is the text of an exception. */
  datatype Body =
    | Message(text: string)
    | Error(text: string)
    | Failure
    | Created(data: TaskData)
    | OneTask(row: TaskRow)
    | TaskList(rows: map<string, TaskRow>)

  datatype Response = Response(statusCode: int, body: Body)

  const ServerError := Response(500, Failure)

  /** The claims of the authorizer; each is absent or a string. */
  datatype Claims = Claims(sub: Option<string>, email: Option<string>)

  /** `requestContext.authorizer`: the claims under `jwt`, and the claims directly under it. */
  datatype Authorizer = Authorizer(jwtClaims: Option<Claims>, claims: Option<Claims>)

  /** The parts of an API Gateway event the handler reads; `body` is None when it is not a JSON object. */
  datatype Request = Request(
    httpMethod: Option<string>, contextMethod: Option<string>, authorizer: Authorizer,
    pathTaskId: Option<string>, queryTaskId: Option<string>, body: Option<Payload>)

  /** `httpMethod`, else `requestContext.http.method`, else the empty string, upper-cased. */
  function Method(req: Request): (m: string)
    ensures var raw := req.httpMethod.GetOr(req.contextMethod.GetOr(""));
            |m| == |raw| && forall i :: 0 <= i < |m| ==> m[i] == AsciiUpper(raw[i])
  {
    Upper(req.httpMethod.GetOr(req.contextMethod.GetOr("")))
  }

  /** The claims under `jwt` when it has them, else those directly under the authorizer, else none. */
  function ClaimsOf(a: Authorizer): (c: Claims)
    ensures a.jwtClaims.Some? ==> c == a.jwtClaims.value
    ensures a.jwtClaims.None? && a.claims.Some? ==> c == a.claims.value
    ensures a.jwtClaims.None? && a.claims.None? ==> c.sub.None? && c.email.None?
  {
    if a.jwtClaims.Some? then a.jwtClaims.value
    else a.claims.GetOr(Claims(None, None))
  }

  const UnknownEmail := "unknown@example.com"

  /** The task id of the path, or (when that is not truthy) of the query string. */
  function TaskIdOf(req: Request): (t: Option<string>)
    ensures Truthy(req.pathTaskId) ==> t == req.pathTaskId
    ensures !Truthy(req.pathTaskId) ==> t == req.queryTaskId
  {
    if Truthy(req.pathTaskId) then req.pathTaskId else req.queryTaskId
  }

  /** What `lambda_handler` does with a request. */
  datatype Action =
    | Preflight
    | Unauthorized
    | CreateTask(userId: string, email: string)
    | GetTasks(taskId: Option<string>, userId: string)
    | UpdateTask(taskId: Option<string>, userId: string)
    | DeleteTask(taskId: Option<string>, userId: string)
    | NotAllowed

  /** The handlers that run for an authenticated request. */
  predicate RunsHandler(a: Action)
  {
    a.CreateTask? || a.GetTasks? || a.UpdateTask? || a.DeleteTask?
  }

  function ActingUser(a: Action): string
    requires RunsHandler(a)
  {
    match a
    case CreateTask(u, _) => u
    case GetTasks(_, u) => u
    case UpdateTask(_, u) => u
    case DeleteTask(_, u) => u
  }

  /**
   * The routing of `lambda_handler`: a preflight is answered before the
   * claims are looked at; without a truthy `sub` nothing runs; otherwise the
   * four methods go to their handlers, acting for the `sub` of the claims,
   * and every other method is refused.
   */
  function Route(req: Request): (a: Action)
    ensures a.Preflight? <==> Method(req) == "OPTIONS"
    ensures a.Unauthorized? <==> Method(req) != "OPTIONS" && !Truthy(ClaimsOf(req.authorizer).sub)
    ensures a.CreateTask? <==> Method(req) == "POST" && Truthy(ClaimsOf(req.authorizer).sub)
    ensures a.GetTasks? <==> Method(req) == "GET" && Truthy(ClaimsOf(req.authorizer).sub)
    ensures a.UpdateTask? <==> Method(req) == "PUT" && Truthy(ClaimsOf(req.authorizer).sub)
    ensures a.DeleteTask? <==> Method(req) == "DELETE" && Truthy(ClaimsOf(req.authorizer).sub)
    ensures a.NotAllowed? <==>
      Method(req) !in {"OPTIONS", "POST", "GET", "PUT", "DELETE"} && Truthy(ClaimsOf(req.authorizer).sub)
    ensures RunsHandler(a) ==> ActingUser(a) == ClaimsOf(req.authorizer).sub.value
    ensures a.CreateTask? ==> a.email == ClaimsOf(req.authorizer).email.GetOr(UnknownEmail)
    ensures (a.GetTasks? || a.UpdateTask? || a.DeleteTask?) ==> a.taskId == TaskIdOf(req)
  {
    var m := Method(req);
    var claims := ClaimsOf(req.authorizer);
    if m == "OPTIONS" then Preflight
    else if !Truthy(claims.sub) then Unauthorized
    else
      var userId := claims.sub.value;
      if m == "POST" then CreateTask(userId, claims.email.GetOr(UnknownEmail))
      else if m == "GET" then GetTasks(TaskIdOf(req), userId)
      else if m == "PUT" then UpdateTask(TaskIdOf(req), userId)
      else if m == "DELETE" then DeleteTask(TaskIdOf(req), userId)
      else NotAllowed
  }

  /** A preflight is answered whatever the authorizer holds. */
  lemma PreflightIgnoresClaims(req: Request, other: Authorizer)
    requires Route(req).Preflight?
    ensures Route(req.(authorizer := other)).Preflight?
  {
    assert Method(req.(authorizer := other)) == Method(req);
  }

  /** The method is compared after upper-casing: a lower-case `get` is a read. */
  lemma LowerCaseMethodRoutes(req: Request)
    requires req.httpMethod == Some("get") && Truthy(ClaimsOf(req.authorizer).sub)
    ensures Route(req) == GetTasks(TaskIdOf(req), ClaimsOf(req.authorizer).sub.value)
  {
    assert Upper("get") == "GET" by {
      assert Upper("get") == [AsciiUpper('g')] + Upper("et");
      assert Upper("et") == [AsciiUpper('e')] + Upper("t");
      assert Upper("t") == [AsciiUpper('t')] + Upper("");
    }
  }

  /** The validated fields of a create body. */
  datatype Draft = Draft(title: string, description: string, status: string)

  /**
   * The validation of `create_task`: title and description are stripped and
   * must both be non-empty (so a body without them, or with only white space
   * in them, is refused); the status defaults to `pending` only when absent.
   */
  function NormalizeCreate(p: Payload): (d: Option<Draft>)
    ensures d.Some? ==>
      && d.value.title == Strip(p.title.GetOr("")) && d.value.description == Strip(p.description.GetOr(""))
      && d.value.title != [] && d.value.description != []
      && (p.status.Some? ==> d.value.status == p.status.value)
      && (p.status.None? ==> d.value.status == "pending")
  {
    var title := Strip(p.title.GetOr(""));
    var description := Strip(p.description.GetOr(""));
    if title == [] || description == [] then None
    else Some(Draft(title, description, p.status.GetOr("pending")))
  }

  /** A create is refused exactly when the title or the description is absent, empty or all white space. */
  lemma BlankFieldsRefused(p: Payload)
    ensures NormalizeCreate(p).None? <==>
      || (forall k :: 0 <= k < |p.title.GetOr("")| ==> PyIsSpace(p.title.GetOr("")[k]))
      || (forall k :: 0 <= k < |p.description.GetOr("")| ==> PyIsSpace(p.description.GetOr("")[k]))
  {
    StripMeaning(p.title.GetOr(""));
    StripMeaning(p.description.GetOr(""));
  }

  /** The attachment columns after `handle_file_upload`: the URL, the filename and the key, or nothing. */
  function AttachmentOf(up: Option<Upload>, presignedUrl: string): (att: Attachment)
    ensures up.None? ==> att == NoAttachment
    ensures up.Some? ==> att.fileUrl == Some(presignedUrl) && att.fileName == Some(up.value.filename)
                         && att.s3Key == Some(up.value.key)
  {
    if up.None? then NoAttachment else Attachment(Some(presignedUrl), Some(up.value.filename), Some(up.value.key))
  }

  /** The RDS row and the DynamoDB item agree on everything both hold, except the update time. */
  predicate Agree(row: TaskRow, item: TaskItem)
  {
    && row.userId == item.userId
    && row.content == item.content
    && row.attachment == item.attachment
    && row.createdAt == item.createdAt
  }

  /** Both task tables hold the same tasks, and agree on each. */
  predicate StoresAgree(rows: map<string, TaskRow>, items: map<string, TaskItem>)
  {
    && rows.Keys == items.Keys
    && forall id :: id in rows ==> Agree(rows[id], items[id])
  }

  lemma PutKeepsAgreement(rows: map<string, TaskRow>, items: map<string, TaskItem>, id: string,
                          row: TaskRow, item: TaskItem)
    requires StoresAgree(rows, items) && Agree(row, item)
    ensures StoresAgree(rows[id := row], items[id := item])
  {
  }

  /** An update that gives the row and the item the same new content keeps the stores in agreement. */
  lemma ContentUpdateKeepsAgreement(rows: map<string, TaskRow>, items: map<string, TaskItem>, id: string,
                                    c: Content, now: nat)
    requires StoresAgree(rows, items) && id in rows
    ensures StoresAgree(rows[id := rows[id].(content := c, updatedAt := Some(now))],
                        items[id := items[id].(content := c, updatedAt := now)])
  {
    PutKeepsAgreement(rows, items, id, rows[id].(content := c, updatedAt := Some(now)),
                      items[id].(content := c, updatedAt := now));
  }

  /** Touching only the row's update time keeps the stores in agreement. */
  lemma TouchKeepsAgreement(rows: map<string, TaskRow>, items: map<string, TaskItem>, id: string, now: nat)
    requires StoresAgree(rows, items) && id in rows
    ensures StoresAgree(rows[id := rows[id].(updatedAt := Some(now))], items)
  {
    assert items[id := items[id]] == items;
    PutKeepsAgreement(rows, items, id, rows[id].(updatedAt := Some(now)), items[id]);
  }

  lemma RemoveKeepsAgreement(rows: map<string, TaskRow>, items: map<string, TaskItem>, id: string)
    requires StoresAgree(rows, items)
    ensures StoresAgree(rows - {id}, items - {id})
  {
  }

  /** The answer of an update together with both task tables after it. */
  datatype UpdateResult = UpdateResult(response: Response, rows: map<string, TaskRow>, items: map<string, TaskItem>)

  /**
   * The update of an owned task as the source writes it. `update_item` is
   * always given `ExpressionAttributeNames`, and that map is empty unless the
   * status is set (`BuildDynamoUpdate`); DynamoDB refuses an empty names map
   * with a validation error. So a change that sets no status is committed to
   * RDS and then answered with 500, with the DynamoDB item left as it was.
   * Whether DynamoDB is written at all depends on the change list against
   * the RDS row, but the `SET` puts each truthy field onto the item's own
   * stored content, which may already differ from the row.
   */
  function UpdateAsWritten(rows: map<string, TaskRow>, items: map<string, TaskItem>, id: string,
                           u: Fields, now: nat): (o: UpdateResult)
    requires id in rows && id in items
    ensures o.rows == rows[id := rows[id].(content := Updated(rows[id].content, u), updatedAt := Some(now))]
    ensures Updated(rows[id].content, u) == rows[id].content ==>
      o.response == Response(200, Message("Task updated")) && o.items == items
    ensures Updated(rows[id].content, u) != rows[id].content && Truthy(u.status) ==>
      && o.response == Response(200, Message("Task updated"))
      && o.items == items[id := items[id].(content := Updated(items[id].content, u), updatedAt := now)]
    ensures Updated(rows[id].content, u) != rows[id].content && !Truthy(u.status) ==>
      o.response == ServerError && o.items == items
  {
    var row := rows[id];
    var content := Updated(row.content, u);
    var rows' := rows[id := row.(content := content, updatedAt := Some(now))];
    if content == row.content then UpdateResult(Response(200, Message("Task updated")), rows', items)
    else if !Truthy(u.status) then UpdateResult(ServerError, rows', items)
    else
      var item := items[id];
      UpdateResult(Response(200, Message("Task updated")), rows',
                   items[id := item.(content := Updated(item.content, u), updatedAt := now)])
  }

  /**
   * As written, changing the title or the description of a task without
   * setting a status answers 500 and leaves the two tables disagreeing on
   * the task's content.
   */
  lemma AsWrittenUpdateSplitsStores(rows: map<string, TaskRow>, items: map<string, TaskItem>, id: string,
                                    u: Fields, now: nat)
    requires StoresAgree(rows, items) && id in rows
    requires Updated(rows[id].content, u) != rows[id].content && !Truthy(u.status)
    ensures UpdateAsWritten(rows, items, id, u, now).response == ServerError
    ensures !StoresAgree(UpdateAsWritten(rows, items, id, u, now).rows, UpdateAsWritten(rows, items, id, u, now).items)
  {
    var o := UpdateAsWritten(rows, items, id, u, now);
    assert Agree(rows[id], items[id]);
    assert o.rows[id].content != o.items[id].content;
  }

  /**
   * As written, the split persists: after a title change without a status
   * has failed, a later update that only sets the status answers 200, yet
   * the DynamoDB item keeps the old title while the RDS row has the new one.
   */
  lemma {:induction false} AsWrittenSplitPersists(rows: map<string, TaskRow>, items: map<string, TaskItem>,
                                                  id: string, title: string, status: string, now: nat, now2: nat)
    requires StoresAgree(rows, items) && id in rows
    requires title != "" && title != rows[id].content.title && status != ""
    ensures var c := rows[id].content;
            var o1 := UpdateAsWritten(rows, items, id, Fields(Some(title), None, None), now);
            var o2 := UpdateAsWritten(o1.rows, o1.items, id, Fields(None, None, Some(status)), now2);
            && o1.response == ServerError
            && o2.response == Response(200, Message("Task updated"))
            && o2.rows[id].content == Content(title, c.description, status)
            && o2.items[id].content == Content(c.title, c.description, status)
            && !StoresAgree(o2.rows, o2.items)
  {
    var c := rows[id].content;
    assert Agree(rows[id], items[id]);
    var o1 := UpdateAsWritten(rows, items, id, Fields(Some(title), None, None), now);
    assert o1.rows[id].content == Content(title, c.description, c.status);
    assert o1.items == items;
    var o2 := UpdateAsWritten(o1.rows, o1.items, id, Fields(None, None, Some(status)), now2);
    assert o2.rows[id].content == Content(title, c.description, status);
    assert o2.items[id].content == Content(c.title, c.description, status);
  }

  class TaskBackend {
    /** The RDS `tasks` table by `task_id`. */
    var rows: map<string, TaskRow>
    /** The DynamoDB `Tasks` table by `taskId`. */
    var items: map<string, TaskItem>
    /** The RDS `users` table: the email of each `user_id`. */
    var users: map<string, string>
    /** The attachment bucket by key. */
    var objects: map<string, Upload>

    /** Both task stores hold the same tasks, and agree on each. */
    ghost predicate Valid()
      reads this
    {
      StoresAgree(rows, items)
    }

    constructor ()
      ensures Valid()
      ensures rows == map[] && items == map[] && users == map[] && objects == map[]
    {
      rows := map[];
      items := map[];
      users := map[];
      objects := map[];
    }

    /** The task exists and belongs to the user. */
    predicate Owns(taskId: string, userId: string)
      reads this
      ensures !Owns(taskId, userId) <==> taskId !in rows || rows[taskId].userId != userId
    {
      taskId in rows && rows[taskId].userId == userId
    }

    /** The rows of the user: what `SELECT * FROM tasks WHERE user_id = %s` returns. */
    function RowsOf(userId: string): (r: map<string, TaskRow>)
      reads this
      ensures forall id :: id in r <==> Owns(id, userId)
      ensures forall id :: id in r ==> id in rows && r[id] == rows[id]
    {
      map id | id in rows && rows[id].userId == userId :: rows[id]
    }

    /**
     * `get_tasks`: with a truthy task id, the task when the user owns it and
     * 404 otherwise (another user's task is indistinguishable from a missing
     * one); without one, exactly the user's tasks. Nothing changes.
     */
    function GetTasks(taskId: Option<string>, userId: string, dbAvailable: bool): (r: Response)
      reads this
      ensures !dbAvailable ==> r == ServerError
      ensures dbAvailable && Truthy(taskId) ==>
        (r.statusCode == 200 <==> Owns(taskId.value, userId))
        && (Owns(taskId.value, userId) ==> r.body == OneTask(rows[taskId.value]))
        && (!Owns(taskId.value, userId) ==> r == Response(404, Error("Task not found")))
      ensures dbAvailable && !Truthy(taskId) ==>
        && r.statusCode == 200 && r.body.TaskList? && r.body.rows == RowsOf(userId)
        && (forall id :: id in r.body.rows <==> Owns(id, userId))
        && (forall id :: id in r.body.rows ==> r.body.rows[id].userId == userId)
    {
      if !dbAvailable then ServerError
      else if Truthy(taskId) then
        if Owns(taskId.value, userId) then Response(200, OneTask(rows[taskId.value]))
        else Response(404, Error("Task not found"))
      else Response(200, TaskList(RowsOf(userId)))
    }

    /**
     * `handle_file_upload`: nothing unless both the data and the filename are
     * truthy. Otherwise the payload is decoded, and `decodes` says whether
     * `base64.b64decode` accepts it: when it does not, the upload raises
     * (`None` here) and nothing is stored; when it does, the payload is
     * stored under its key (replacing any object there) and the attachment
     * columns name it.
     */
    method StoreUpload(fileData: Option<string>, filename: Option<string>, taskId: string, userId: string,
                       seconds: nat, presignedUrl: string, decodes: bool)
      returns (att: Option<Attachment>)
      modifies this
      ensures var up := PlanUpload(fileData, filename, taskId, userId, seconds);
        && (up.Some? && !decodes ==> att.None? && unchanged(this))
        && (up.None? || decodes ==>
              && att == Some(AttachmentOf(up, presignedUrl))
              && objects == if up.Some? then old(objects)[up.value.key := up.value] else old(objects))
      ensures rows == old(rows) && items == old(items) && users == old(users)
    {
      var up := PlanUpload(fileData, filename, taskId, userId, seconds);
      if up.None? {
        return Some(NoAttachment);
      }
      if !decodes {
        return None;
      }
      objects := objects[up.value.key := up.value];
      att := Some(Attachment(Some(presignedUrl), Some(up.value.filename), Some(up.value.key)));
    }

    /**
     * `create_task`. An unreadable body is a 500 and a refused draft a 400,
     * both with nothing stored. Otherwise the attachment is uploaded first,
     * and a payload that does not decode is a 500 with nothing stored; then,
     * when the database cannot be reached, or the new id is already taken (the
     * insert fails and is rolled back), the answer is 500 with only the upload
     * kept. Otherwise the user's email is upserted, the same task goes into
     * both tables, and 201 echoes the stored fields.
     */
    method CreateTask(body: Option<Payload>, userId: string, email: string, newId: string,
                      now: nat, seconds: nat, presignedUrl: string, decodes: bool, dbAvailable: bool)
      returns (r: Response)
      requires Valid()
      modifies this
      ensures Valid()
      ensures body.None? ==> r == ServerError && unchanged(this)
      ensures body.Some? && NormalizeCreate(body.value).None? ==>
        r == Response(400, Error("Title and description are required")) && unchanged(this)
      ensures body.Some? && NormalizeCreate(body.value).Some? ==>
        var d := NormalizeCreate(body.value).value;
        var up := PlanUpload(body.value.file, body.value.filename, newId, userId, seconds);
        var att := AttachmentOf(up, presignedUrl);
        var content := Content(d.title, d.description, d.status);
        && (up.Some? && !decodes ==> r == ServerError && unchanged(this))
        && (up.None? || decodes ==>
        && objects == (if up.Some? then old(objects)[up.value.key := up.value] else old(objects))
        && (!dbAvailable || newId in old(rows) ==>
              r == ServerError && rows == old(rows) && items == old(items) && users == old(users))
        && (dbAvailable && newId !in old(rows) ==>
              && r == Response(201, Created(TaskData(newId, d.title, d.description, d.status,
                                                    att.fileUrl, att.fileName, now)))
              && rows == old(rows)[newId := TaskRow(userId, content, att, now, None)]
              && items == old(items)[newId := TaskItem(userId, email, content, att, now, now)]
              && users == old(users)[userId := email]))
    {
      if body.None? {
        return ServerError;
      }
      var draft := NormalizeCreate(body.value);
      if draft.None? {
        return Response(400, Error("Title and description are required"));
      }
      var d := draft.value;
      var att := StoreUpload(body.value.file, body.value.filename, newId, userId, seconds, presignedUrl, decodes);
      if att.None? {
        return ServerError;
      }
      if !dbAvailable || newId in rows {
        return ServerError;
      }
      r := InsertTask(d, att.value, userId, email, newId, now);
    }

    /** The database half of a create: the email upsert and the same task in both tables. */
    method InsertTask(d: Draft, att: Attachment, userId: string, email: string, newId: string, now: nat)
      returns (r: Response)
      requires Valid() && newId !in rows
      modifies this
      ensures Valid()
      ensures r == Response(201, Created(TaskData(newId, d.title, d.description, d.status,
                                                  att.fileUrl, att.fileName, now)))
      ensures rows == old(rows)[newId := TaskRow(userId, Content(d.title, d.description, d.status), att, now, None)]
      ensures items == old(items)[newId := TaskItem(userId, email, Content(d.title, d.description, d.status),
                                                      att, now, now)]
      ensures users == old(users)[userId := email] && objects == old(objects)
    {
      var content := Content(d.title, d.description, d.status);
      var row, item := TaskRow(userId, content, att, now, None), TaskItem(userId, email, content, att, now, now);
      PutKeepsAgreement(rows, items, newId, row, item);
      users := users[userId := email];
      rows := rows[newId := row];
      items := items[newId := item];
      r := Response(201, Created(TaskData(newId, d.title, d.description, d.status, att.fileUrl, att.fileName, now)));
    }

    /**
     * `update_task`. Without a task id it is a 400; an unreadable body or an
     * unreachable database a 500; a task that is missing or another user's a
     * 403; none of them changes anything. Otherwise the RDS row takes every
     * truthy field and the time, while the DynamoDB item is updated only
     * when some field actually changed, which keeps both tables in agreement.
     * `changes` is the list the notification reports.
     */
    method UpdateTask(taskId: Option<string>, body: Option<Payload>, userId: string, now: nat, dbAvailable: bool)
      returns (r: Response, changes: seq<Change>)
      requires Valid()
      modifies this
      ensures Valid()
      ensures !Truthy(taskId) ==> r == Response(400, Error("taskId is required")) && unchanged(this)
      ensures Truthy(taskId) && (body.None? || !dbAvailable) ==> r == ServerError && unchanged(this)
      ensures Truthy(taskId) && body.Some? && dbAvailable && !old(Owns(taskId.value, userId)) ==>
        r == Response(403, Error("Not authorized to update this task")) && unchanged(this)
      ensures Truthy(taskId) && body.Some? && dbAvailable && old(Owns(taskId.value, userId)) ==>
        var id := taskId.value;
        var u := Fields(body.value.title, body.value.description, body.value.status);
        var row := old(rows)[id];
        && r == Response(200, Message("Task updated"))
        && (forall i :: 0 <= i < |changes| ==> Reports(row.content, u, changes[i]))
        && (changes == [] <==> Updated(row.content, u) == row.content)
        && rows == old(rows)[id := row.(content := Updated(row.content, u), updatedAt := Some(now))]
        && items == (if changes == [] then old(items)
                     else old(items)[id := old(items)[id].(content := Updated(row.content, u), updatedAt := now)])
        && users == old(users) && objects == old(objects)
    {
      changes := [];
      if !Truthy(taskId) {
        return Response(400, Error("taskId is required")), changes;
      }
      if body.None? || !dbAvailable {
        return ServerError, changes;
      }
      var id := taskId.value;
      if !Owns(id, userId) {
        return Response(403, Error("Not authorized to update this task")), changes;
      }
      var u := Fields(body.value.title, body.value.description, body.value.status);
      changes := WriteUpdate(id, u, userId, now);
      r := Response(200, Message("Task updated"));
    }

    /**
     * The database half of an update of an owned task: the RDS row takes
     * every truthy field and the time; the DynamoDB item only when the
     * change list is non-empty. The attribute names are passed to DynamoDB
     * only when there are any, so the item update is accepted and the two
     * tables stay in agreement (compare `UpdateAsWritten`).
     */
    method WriteUpdate(id: string, u: Fields, userId: string, now: nat) returns (changes: seq<Change>)
      requires Valid() && Owns(id, userId)
      modifies this
      ensures Valid()
      ensures var row := old(rows)[id];
        && (forall i :: 0 <= i < |changes| ==> Reports(row.content, u, changes[i]))
        && (changes == [] <==> Updated(row.content, u) == row.content)
        && rows == old(rows)[id := row.(content := Updated(row.content, u), updatedAt := Some(now))]
        && items == (if changes == [] then old(items)
                     else old(items)[id := old(items)[id].(content := Updated(row.content, u), updatedAt := now)])
        && users == old(users) && objects == old(objects)
    {
      var row := rows[id];
      changes := ChangeList(row.content, u);
      var es := Edits(u);
      // The RDS statement carries exactly these edits, and applying them in
      // order is the update of the content.
      var query, params := BuildRdsUpdate(u, now, id, userId);
      assert params[1..1 + |es|] == EditParams(es);
      ApplyEditsMeaning(row.content, u);
      var content := ApplyEdits(row.content, es);
      if changes != [] {
        // The item gets the same edits; the names map is empty exactly when
        // no status is set, and then it is not passed.
        var expr, values, names := BuildDynamoUpdate(u, now);
        assert ValuesFor(values, es, now) && (if Truthy(u.status) then "#status" in names else names == map[]);
        ContentUpdateKeepsAgreement(rows, items, id, content, now);
        rows := rows[id := row.(content := content, updatedAt := Some(now))];
        items := items[id := items[id].(content := content, updatedAt := now)];
      } else {
        TouchKeepsAgreement(rows, items, id, now);
        rows := rows[id := row.(updatedAt := Some(now))];
      }
    }

    /**
     * `delete_task`. Without a task id it is a 400, an unreachable database a
     * 500, and a missing or foreign task a 403, with nothing changed.
     * Otherwise the task leaves both tables, its attachment leaves the bucket
     * when the row names one, and the answer is 200.
     */
    method DeleteTask(taskId: Option<string>, userId: string, dbAvailable: bool) returns (r: Response)
      requires Valid()
      modifies this
      ensures Valid()
      ensures !Truthy(taskId) ==> r == Response(400, Error("taskId is required")) && unchanged(this)
      ensures Truthy(taskId) && !dbAvailable ==> r == ServerError && unchanged(this)
      ensures Truthy(taskId) && dbAvailable && !old(Owns(taskId.value, userId)) ==>
        r == Response(403, Error("Not authorized to delete this task")) && unchanged(this)
      ensures Truthy(taskId) && dbAvailable && old(Owns(taskId.value, userId)) ==>
        var id := taskId.value;
        var key := old(rows)[id].attachment.s3Key;
        && r == Response(200, Message("Task deleted"))
        && rows == old(rows) - {id} && items == old(items) - {id}
        && objects == (if Truthy(key) then old(objects) - {key.value} else old(objects))
        && users == old(users)
    {
      if !Truthy(taskId) {
        return Response(400, Error("taskId is required"));
      }
      if !dbAvailable {
        return ServerError;
      }
      var id := taskId.value;
      if !Owns(id, userId) {
        return Response(403, Error("Not authorized to delete this task"));
      }
      var key := rows[id].attachment.s3Key;
      RemoveKeepsAgreement(rows, items, id);
      rows := rows - {id};
      items := items - {id};
      if Truthy(key) {
        objects := objects - {key.value};
      }
      r := Response(200, Message("Task deleted"));
    }

    /**
     * `lambda_handler`: runs what `Route` decides. A preflight, a request
     * without a principal and an unsupported method change nothing; a read
     * changes nothing either.
     */
    method Handle(req: Request, newId: string, now: nat, seconds: nat, presignedUrl: string, decodes: bool,
                  dbAvailable: bool)
      returns (r: Response)
      requires Valid()
      modifies this
      ensures Valid()
      ensures Route(req).Preflight? ==> r == Response(200, Message("CORS preflight successful")) && unchanged(this)
      ensures Route(req).Unauthorized? ==> r == Response(401, Error("User ID not found in claims")) && unchanged(this)
      ensures Route(req).NotAllowed? ==> r == Response(405, Error("Method not allowed")) && unchanged(this)
      ensures Route(req).GetTasks? ==>
        r == old(GetTasks(Route(req).taskId, Route(req).userId, dbAvailable)) && unchanged(this)
      ensures !RunsHandler(Route(req)) ==> r.statusCode in {200, 401, 405}
    {
      match Route(req)
      case Preflight =>
        r := Response(200, Message("CORS preflight successful"));
      case Unauthorized =>
        r := Response(401, Error("User ID not found in claims"));
      case NotAllowed =>
        r := Response(405, Error("Method not allowed"));
      case CreateTask(userId, email) =>
        r := CreateTask(req.body, userId, email, newId, now, seconds, presignedUrl, decodes, dbAvailable);
      case GetTasks(taskId, userId) =>
        r := GetTasks(taskId, userId, dbAvailable);
      case UpdateTask(taskId, userId) =>
        var changes;
        r, changes := UpdateTask(taskId, req.body, userId, now, dbAvailable);
      case DeleteTask(taskId, userId) =>
        r := DeleteTask(taskId, userId, dbAvailable);
    }
  }
}
