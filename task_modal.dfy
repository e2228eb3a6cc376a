/** The task form: its fields, the submit guards, the task handed to
    `createTask`, and the reset when the modal closes. */
module TaskModal {
  import opened Wrappers
  import opened JsText
  import opened JsNumbers
  import opened RecordAccess
  import TaskService

  datatype TaskField = TitleField | PriorityField | StatusField | DueDateField | ProjectIdField

  /** `formData`: every input holds text; `projectId` is the selected
      project's id as text, "" when none is selected. */
  datatype TaskForm = TaskForm(title: string, priority: string, status: string, dueDate: string, projectId: string)

  const EmptyForm := TaskForm("", "medium", "todo", "", "")

  const TitleRequired := "Please enter a task title"
  const ProjectRequired := "Please select a project"
  const DueDateRequired := "Please select a due date"
  const CreatedText := "Task created successfully!"
  const CreateFailedText := "Failed to create task"

  function Get(f: TaskForm, field: TaskField): string {
    match field
    case TitleField => f.title
    case PriorityField => f.priority
    case StatusField => f.status
    case DueDateField => f.dueDate
    case ProjectIdField => f.projectId
  }

  /** `{ ...prev, [name]: value }`: only the named field changes. */
  function Set(f: TaskForm, field: TaskField, value: string): (g: TaskForm)
    ensures Get(g, field) == value
    ensures forall other :: other != field ==> Get(g, other) == Get(f, other)
  {
    match field
    case TitleField => f.(title := value)
    case PriorityField => f.(priority := value)
    case StatusField => f.(status := value)
    case DueDateField => f.(dueDate := value)
    case ProjectIdField => f.(projectId := value)
  }

  /** The guards of `handleSubmit`, checked in order; the first that fails
      names the error toast, and `None` lets the submit go ahead. */
  function SubmitGuard(f: TaskForm): (r: Option<string>)
    ensures r == Some(TitleRequired) <==> IsBlank(f.title)
    ensures r == Some(ProjectRequired) <==> !IsBlank(f.title) && f.projectId == ""
    ensures r == Some(DueDateRequired) <==> !IsBlank(f.title) && f.projectId != "" && f.dueDate == ""
    ensures r.None? <==> !IsBlank(f.title) && f.projectId != "" && f.dueDate != ""
  {
    if Trim(f.title) == "" then Some(TitleRequired)
    else if f.projectId == "" then Some(ProjectRequired)
    else if f.dueDate == "" then Some(DueDateRequired)
    else None
  }

  /** `taskData`: the trimmed title, the form's priority, status and due
      date, and `parseInt(projectId)` under both id keys. */
  function TaskDataOf(f: TaskForm): (input: TaskService.TaskInput)
    ensures input.title == Some(Trim(f.title)) && input.Name.None?
    ensures input.priority == Some(f.priority) && input.status == Some(f.status) && input.dueDate == Some(f.dueDate)
    ensures input.projectId == input.project_id
    ensures ParseIntOf(input.projectId) == ParseInt(f.projectId)
    ensures input.total_time.None? && input.Tags.None?
  {
    var projectId := FromParsed(ParseInt(f.projectId));
    TaskService.TaskInput(Some(Trim(f.title)), None, Some(f.priority), Some(f.status), Some(f.dueDate),
                          None, Some(projectId), Some(projectId), None)
  }

  /** The record a submitted form makes `createTask` send: `Name` and
      `title` are both the trimmed title, `project_id` is the parsed project
      id, there is no logged time and no tags, and priority and status are
      the form's own unless left empty. */
  lemma SubmittedRecord(f: TaskForm)
    requires SubmitGuard(f).None?
    ensures var p := TaskService.NewTaskPayload(TaskDataOf(f));
      p.Name == p.title == Some(Trim(f.title))
      && p.project_id == ParseInt(f.projectId)
      && p.total_time == 0 && p.Tags == ""
      && p.dueDate == Some(f.dueDate) && p.dueDate != Some("")
      && p.priority == Some(if f.priority != "" then f.priority else "medium")
      && p.status == Some(if f.status != "" then f.status else "todo")
  {
  }

  class TaskModalState {
    var formData: TaskForm
    var loading: bool

    constructor ()
      ensures formData == EmptyForm && !loading
    {
      formData, loading := EmptyForm, false;
    }

    /** `handleChange`: sets the named field and nothing else. */
    method HandleChange(field: TaskField, value: string)
      modifies this`formData
      ensures formData == Set(old(formData), field, value)
    {
      formData := Set(formData, field, value);
    }

    /** `handleClose`: puts the form back to its initial values (the
      `onClose` callback that follows is the caller's). */
    method HandleClose()
      modifies this`formData
      ensures formData == EmptyForm
    {
      formData := EmptyForm;
    }

    /** `handleSubmit`, given the envelope the backend answers `createTask`
      with. A failing guard shows its toast and changes nothing. Otherwise
      the task is created: the toasts are the service's own followed by the
      modal's, `onTaskCreated` runs and the form resets exactly when the
      task was created, and a failed creation keeps the form. */
    method HandleSubmit(env: Envelope<TaskService.TaskRecord, TaskService.TaskRecord>)
      returns (sent: Option<TaskService.TaskFields>, taskCreated: bool, notices: seq<string>)
      modifies this`formData, this`loading
      ensures SubmitGuard(old(formData)).Some? ==>
        sent.None? && !taskCreated && notices == [SubmitGuard(old(formData)).value]
        && formData == old(formData) && loading == old(loading)
      ensures SubmitGuard(old(formData)).None? ==>
        var call := TaskService.CreateTask(TaskDataOf(old(formData)), env);
        sent == call.sent && !loading
        && (taskCreated <==> call.reply.outcome.Returned?)
        && notices == call.reply.notices + [if taskCreated then CreatedText else CreateFailedText]
        && formData == (if taskCreated then EmptyForm else old(formData))
    {
      var guard := SubmitGuard(formData);
      if guard.Some? {
        return None, false, [guard.value];
      }
      loading := true;
      var call := TaskService.CreateTask(TaskDataOf(formData), env);
      sent := call.sent;
      notices := call.reply.notices;
      match call.reply.outcome {
        case Returned(_) =>
          notices := notices + [CreatedText];
          taskCreated := true;
          HandleClose();
        case Threw(_) =>
          notices := notices + [CreateFailedText];
          taskCreated := false;
      }
      loading := false;
    }
  }
}
