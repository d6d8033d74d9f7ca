/**
 * The task list component (taskapp/frontendd/src/components/TaskManager.jsx):
 * its state `tasks`, `loading`, `formData` and `selectedFile`, and the two
 * commands `fetchTasks` and `createTask`. Each command is one atomic step
 * whose network answers are inputs; the requests it sends are recorded in
 * `sent`, together with the value of `loading` at the moment of sending,
 * and the alerts it raises in `alerts`.
 */
module TaskManagerClient {
  import opened Wrappers
  import opened Text
  import TaskApi

  /** A task as the list shows it. */
  datatype TaskView = TaskView(
    taskId: string, title: string, description: string, status: string,
    fileUrl: Option<string>, fileName: Option<string>)

  datatype FormData = FormData(title: string, description: string, status: string)

  /** The form before any input and after a successful create. */
  const EmptyForm := FormData("", "", "pending")

  /** The values the status selector offers. */
  const StatusOptions: set<string> := {"pending", "in-progress", "completed"}

  /** A chosen file: its name and what `FileReader.readAsDataURL` makes of it. */
  datatype LocalFile = LocalFile(name: string, dataUrl: string)

  /** The JSON body of a create request. */
  datatype TaskPayload = TaskPayload(
    title: string, description: string, status: string,
    file: Option<string>, filename: Option<string>)

  datatype ClientRequest = ListTasks | PostTask(payload: TaskPayload)

  /** A request as it leaves the component, with the loading flag shown meanwhile. */
  datatype Sent = Sent(request: ClientRequest, loading: bool)

  /**
   * What a `fetch` comes back with: an ok response whose JSON has `success`
   * and possibly `data`, a response that is not ok, or a thrown error.
   */
  datatype Reply<T> = Ok(success: bool, data: Option<T>) | HttpError(status: int) | Throw

  datatype Alert = FillInBoth | TaskCreated | CreateFailed | CreateError

  /**
   * The payload `createTask` sends: the fields as typed, untrimmed, and the
   * file data and name only when a file is selected.
   */
  function PayloadOf(form: FormData, file: Option<LocalFile>): (p: TaskPayload)
    ensures p.title == form.title && p.description == form.description && p.status == form.status
    ensures p.file.Some? <==> file.Some?
    ensures p.filename.Some? <==> file.Some?
    ensures file.Some? ==> p.file == Some(file.value.dataUrl) && p.filename == Some(file.value.name)
  {
    var payload := TaskPayload(form.title, form.description, form.status, None, None);
    if file.Some? then payload.(file := Some(file.value.dataUrl), filename := Some(file.value.name)) else payload
  }

  /** The client's own check before a create: both fields non-blank after `trim()`. */
  predicate Fillable(form: FormData)
  {
    Trim(form.title) != [] && Trim(form.description) != []
  }

  /** The form passes exactly when both fields hold a character that is not JavaScript white space. */
  lemma FillableMeaning(form: FormData)
    ensures Fillable(form) <==>
      && (exists i :: 0 <= i < |form.title| && !JsIsSpace(form.title[i]))
      && (exists i :: 0 <= i < |form.description| && !JsIsSpace(form.description[i]))
  {
    TrimMeaning(form.title);
    TrimMeaning(form.description);
  }

  /** The body the task API reads from a payload this component sends. */
  function ServerPayload(p: TaskPayload): (q: TaskApi.Payload)
    ensures q.title == Some(p.title) && q.description == Some(p.description) && q.status == Some(p.status)
    ensures q.file == p.file && q.filename == p.filename
  {
    TaskApi.Payload(Some(p.title), Some(p.description), Some(p.status), p.file, p.filename)
  }

  /**
   * The client and the server disagree on blank fields: a title made of one
   * U+001C passes the client's check and is refused by the server, while a
   * title made of one U+FEFF is refused by the client although the server
   * would accept it.
   */
  lemma ClientAndServerChecksDiffer(description: string, status: string)
    requires Trim(description) != [] && Strip(description) != []
    ensures var form := FormData("\U{001C}", description, status);
            Fillable(form) && TaskApi.NormalizeCreate(ServerPayload(PayloadOf(form, None))).None?
    ensures var form := FormData("\U{FEFF}", description, status);
            !Fillable(form) && TaskApi.NormalizeCreate(ServerPayload(PayloadOf(form, None))).Some?
  {
    TrimAndStripDisagree();
  }

  class TaskManager {
    var tasks: seq<TaskView>
    var loading: bool
    var formData: FormData
    var selectedFile: Option<LocalFile>
    /** Every request sent so far, oldest first. */
    var sent: seq<Sent>
    /** Every alert shown so far, oldest first. */
    var alerts: seq<Alert>

    /** Between commands nothing is loading, and the status is one the selector offers. */
    ghost predicate Valid()
      reads this
    {
      !loading && formData.status in StatusOptions
    }

    constructor ()
      ensures Valid()
      ensures tasks == [] && formData == EmptyForm && selectedFile == None && sent == [] && alerts == []
    {
      tasks := [];
      loading := false;
      formData := EmptyForm;
      selectedFile := None;
      sent := [];
      alerts := [];
    }

    method SetTitle(title: string)
      requires Valid()
      modifies this
      ensures Valid()
      ensures formData == old(formData).(title := title)
      ensures tasks == old(tasks) && selectedFile == old(selectedFile) && sent == old(sent) && alerts == old(alerts)
    {
      formData := formData.(title := title);
    }

    method SetDescription(description: string)
      requires Valid()
      modifies this
      ensures Valid()
      ensures formData == old(formData).(description := description)
      ensures tasks == old(tasks) && selectedFile == old(selectedFile) && sent == old(sent) && alerts == old(alerts)
    {
      formData := formData.(description := description);
    }

    /** The status selector offers only its three options. */
    method SetStatus(status: string)
      requires Valid() && status in StatusOptions
      modifies this
      ensures Valid()
      ensures formData == old(formData).(status := status)
      ensures tasks == old(tasks) && selectedFile == old(selectedFile) && sent == old(sent) && alerts == old(alerts)
    {
      formData := formData.(status := status);
    }

    /** `setSelectedFile(e.target.files[0])`: `None` when the chooser was cleared. */
    method SelectFile(file: Option<LocalFile>)
      requires Valid()
      modifies this
      ensures Valid()
      ensures selectedFile == file
      ensures tasks == old(tasks) && formData == old(formData) && sent == old(sent) && alerts == old(alerts)
    {
      selectedFile := file;
    }

    /**
     * `fetchTasks`: one GET, sent while loading; the list is replaced by the
     * data (or emptied when there is none) only when the response is ok and
     * reports success, and is otherwise kept. Loading ends false.
     */
    method FetchTasks(reply: Reply<seq<TaskView>>)
      requires formData.status in StatusOptions
      modifies this
      ensures Valid()
      ensures sent == old(sent) + [Sent(ListTasks, true)]
      ensures tasks == if reply.Ok? && reply.success then reply.data.GetOr([]) else old(tasks)
      ensures formData == old(formData) && selectedFile == old(selectedFile) && alerts == old(alerts)
    {
      loading := true;
      sent := sent + [Sent(ListTasks, loading)];
      if reply.Ok? && reply.success {
        tasks := reply.data.GetOr([]);
      }
      loading := false;
    }

    /**
     * `createTask`. A form that fails the trim check raises an alert and
     * sends nothing. Otherwise the payload goes out while loading; on an ok
     * response reporting success the form is reset, the file is cleared and
     * the list is refreshed with `refresh`; on any failure the form, the
     * file and the list are kept. Loading ends false.
     */
    method CreateTask(reply: Reply<TaskView>, refresh: Reply<seq<TaskView>>)
      requires Valid()
      modifies this
      ensures Valid()
      ensures !Fillable(old(formData)) ==>
        && alerts == old(alerts) + [FillInBoth]
        && sent == old(sent) && tasks == old(tasks) && formData == old(formData) && selectedFile == old(selectedFile)
      ensures Fillable(old(formData)) && reply.Ok? && reply.success ==>
        && sent == old(sent) + [Sent(PostTask(PayloadOf(old(formData), old(selectedFile))), true), Sent(ListTasks, true)]
        && formData == EmptyForm && selectedFile == None
        && tasks == (if refresh.Ok? && refresh.success then refresh.data.GetOr([]) else old(tasks))
        && alerts == old(alerts) + [TaskCreated]
      ensures Fillable(old(formData)) && !(reply.Ok? && reply.success) ==>
        && sent == old(sent) + [Sent(PostTask(PayloadOf(old(formData), old(selectedFile))), true)]
        && formData == old(formData) && selectedFile == old(selectedFile) && tasks == old(tasks)
        && alerts == old(alerts) + [if reply.Ok? then CreateFailed else CreateError]
    {
      if !Fillable(formData) {
        alerts := alerts + [FillInBoth];
        return;
      }
      loading := true;
      var payload := TaskPayload(formData.title, formData.description, formData.status, None, None);
      if selectedFile.Some? {
        payload := payload.(file := Some(selectedFile.value.dataUrl), filename := Some(selectedFile.value.name));
      }
      assert payload == PayloadOf(formData, selectedFile);
      sent := sent + [Sent(PostTask(payload), loading)];
      if reply.Ok? && reply.success {
        ghost var before := sent;
        formData := EmptyForm;
        selectedFile := None;
        FetchTasks(refresh);
        assert sent == before + [Sent(ListTasks, true)];
        alerts := alerts + [TaskCreated];
      } else if reply.Ok? {
        alerts := alerts + [CreateFailed];
      } else {
        alerts := alerts + [CreateError];
      }
      loading := false;
    }
  }
}
