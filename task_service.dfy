/** The task service: payload building for the `task` table, the
    normalisation that adds `projectId` and a `timeTracking` block to every
    task it returns, and the shared response handling. */
module TaskService {
  import opened Wrappers
  import opened JsNumbers
  import opened RecordAccess

  /** A stored task as the backend returns it (the selected fields). */
  datatype TaskRecord = TaskRecord(
    Id: int,
    Name: Option<string>,
    title: Option<string>,
    priority: Option<string>,
    status: Option<string>,
    dueDate: Option<string>,
    total_time: Option<int>,
    project_id: Option<int>,
    Tags: Option<string>)

  /** The compatibility block: `activeTimer` is always `null` and `timeLogs`
      always empty in this code. */
  datatype TimeTracking = TimeTracking(totalTime: int, activeTimer: Option<string>, timeLogs: seq<string>)

  /** A task as the service returns it: the stored record, spread unchanged,
      plus the two added keys. */
  datatype Task = Task(record: TaskRecord, projectId: Option<int>, timeTracking: TimeTracking)

  /** What the UI hands to `createTask`/`updateTask`. */
  datatype TaskInput = TaskInput(
    title: Option<string>,
    Name: Option<string>,
    priority: Option<string>,
    status: Option<string>,
    dueDate: Option<string>,
    total_time: Option<Scalar>,
    projectId: Option<Scalar>,
    project_id: Option<Scalar>,
    Tags: Option<string>)

  /** The updateable fields sent on a write; `project_id` is `None` for `NaN`. */
  datatype TaskFields = TaskFields(
    Name: Option<string>,
    title: Option<string>,
    priority: Option<string>,
    status: Option<string>,
    dueDate: Option<string>,
    total_time: int,
    project_id: Option<int>,
    Tags: string)

  datatype TaskUpdateRecord = TaskUpdateRecord(Id: Option<int>, fields: TaskFields)

  /** The input `updateTaskStatus` passes on: only `status`. */
  function StatusOnly(status: string): (i: TaskInput)
    ensures i.status == Some(status)
    ensures i.title.None? && i.Name.None? && i.priority.None? && i.dueDate.None?
    ensures i.total_time.None? && i.projectId.None? && i.project_id.None? && i.Tags.None?
  {
    TaskInput(None, None, None, Some(status), None, None, None, None, None)
  }

  /** Adds `projectId` = `project_id` and the time-tracking block, whose total
      is `total_time`, or 0 when that is missing. */
  function Normalize(t: TaskRecord): (v: Task)
    ensures v.record == t && v.projectId == t.project_id
    ensures v.timeTracking == TimeTracking(t.total_time.GetOr(0), None, [])
  {
    Task(t, t.project_id, TimeTracking(if t.total_time.Some? && t.total_time.value != 0 then t.total_time.value else 0, None, []))
  }

  /** The list normalisation of `getAllTasks`: same length and order, each
      task kept and extended. */
  function NormalizeAll(ts: seq<TaskRecord>): (vs: seq<Task>)
    ensures |vs| == |ts|
    ensures forall i :: 0 <= i < |ts| ==> vs[i] == Normalize(ts[i])
  {
    if ts == [] then [] else [Normalize(ts[0])] + NormalizeAll(ts[1..])
  }

  /** `getAllTasks`: a top-level failure throws the backend's message;
      otherwise every stored task, in order, normalised. */
  function GetAllTasks(env: Envelope<seq<TaskRecord>, TaskRecord>): (o: Outcome<seq<Task>>)
    ensures !env.success ==> o == Threw(ErrorText(env.message))
    ensures env.success ==> o.Returned? && |o.value| == |env.data.GetOr([])|
    ensures env.success ==> forall i :: 0 <= i < |o.value| ==>
      o.value[i].record == env.data.value[i] && o.value[i].projectId == env.data.value[i].project_id
    ensures env.success ==> forall i :: 0 <= i < |o.value| ==> o.value[i] == Normalize(env.data.value[i])
  {
    FetchAll(env).Map(NormalizeAll)
  }

  /** `getTaskById`: throws "Task not found" when a successful envelope has
      no `data`, and otherwise returns that task normalised. */
  function GetTaskById(id: Scalar, env: Envelope<TaskRecord, TaskRecord>): (c: Call<Option<int>, Task>)
    ensures c.sent == Some(ParseIntOf(Some(id))) && c.reply.notices == []
    ensures !env.success ==> c.reply.outcome == Threw(ErrorText(env.message))
    ensures env.success && env.data.None? ==> c.reply.outcome == Threw("Task not found")
    ensures env.success && env.data.Some? ==> c.reply.outcome == Returned(Normalize(env.data.value))
  {
    Call(Some(ParseIntOf(Some(id))), Reply([], FetchOne(env, "Task not found").Map(Normalize)))
  }

  /** The fields both writes send. `Name` is `title`, or `Name` when the
      title is empty; `total_time` is the parsed count, 0 for `NaN` or 0;
      `project_id` is `parseInt(projectId || project_id)`; `Tags` defaults to "". */
  function WriteFields(input: TaskInput, priority: Option<string>, status: Option<string>): (f: TaskFields)
    ensures f.Name == OrText(input.title, input.Name) && f.title == input.title
    ensures f.priority == priority && f.status == status && f.dueDate == input.dueDate
    ensures f.total_time == ParseIntOf(input.total_time).GetOr(0)
    ensures f.project_id == ParseIntOf(OrScalar(input.projectId, input.project_id))
    ensures f.Tags == input.Tags.GetOr("")
  {
    var total := ParseIntOf(input.total_time);
    TaskFields(OrText(input.title, input.Name), input.title, priority, status, input.dueDate,
               if total.Some? && total.value != 0 then total.value else 0,
               ParseIntOf(OrScalar(input.projectId, input.project_id)),
               OrDefault(input.Tags, ""))
  }

  /** The record `createTask` sends: `priority` defaults to "medium" and
      `status` to "todo". */
  function NewTaskPayload(input: TaskInput): (p: TaskFields)
    ensures p == WriteFields(input, p.priority, p.status)
    ensures p.priority == Some(OrDefault(input.priority, "medium"))
    ensures p.status == Some(OrDefault(input.status, "todo"))
    ensures TruthyText(p.priority) && TruthyText(p.status)
  {
    WriteFields(input, Some(OrDefault(input.priority, "medium")), Some(OrDefault(input.status, "todo")))
  }

  /** `createTask`: returns the first written task, normalised, or throws
      "No records were created successfully". */
  function CreateTask(input: TaskInput, env: Envelope<TaskRecord, TaskRecord>): (c: Call<TaskFields, Task>)
    ensures c.sent == Some(NewTaskPayload(input))
    ensures c.reply.notices == ClassifyWrite(env, Create).notices
    ensures c.reply.outcome == ClassifyWrite(env, Create).outcome.Map(Normalize)
    ensures c.reply.outcome.Returned? <==> env.success && env.results.Some? && AnySucceeded(env.results.value)
    ensures c.reply.outcome.Returned? ==> exists r :: c.reply.outcome.value == Normalize(r) && Succeeded(r) in env.results.value
    ensures env.success && c.reply.outcome.Threw? ==> c.reply.outcome.message == "No records were created successfully"
  {
    var w := ClassifyWrite(env, Create);
    assert w.outcome.Returned? ==> Succeeded(w.outcome.value) in env.results.value by {
      if w.outcome.Returned? {
        var rs := env.results.value;
        var i :| FirstSuccess(rs, i, w.outcome.value);
        assert rs[i] in rs;
      }
    }
    Call(Some(NewTaskPayload(input)), Reply(w.notices, w.outcome.Map(Normalize)))
  }

  /** The record `updateTask` sends: `Id` is the coerced id; `priority` and
      `status` are sent as given, without defaults. */
  function TaskUpdatePayload(id: Scalar, input: TaskInput): (p: TaskUpdateRecord)
    ensures p.Id == ParseIntOf(Some(id))
    ensures p.fields == WriteFields(input, input.priority, input.status)
  {
    TaskUpdateRecord(ParseIntOf(Some(id)), WriteFields(input, input.priority, input.status))
  }

  /** `updateTask`. */
  function UpdateTask(id: Scalar, input: TaskInput, env: Envelope<TaskRecord, TaskRecord>): (c: Call<TaskUpdateRecord, Task>)
    ensures c.sent == Some(TaskUpdatePayload(id, input))
    ensures c.reply.notices == ClassifyWrite(env, Update).notices
    ensures c.reply.outcome == ClassifyWrite(env, Update).outcome.Map(Normalize)
    ensures c.reply.outcome.Returned? <==> env.success && env.results.Some? && AnySucceeded(env.results.value)
    ensures env.success && c.reply.outcome.Threw? ==> c.reply.outcome.message == "No records were updated successfully"
  {
    var w := ClassifyWrite(env, Update);
    Call(Some(TaskUpdatePayload(id, input)), Reply(w.notices, w.outcome.Map(Normalize)))
  }

  /** `updateTaskStatus(id, status)` is `updateTask(id, { status })`. */
  function UpdateTaskStatus(id: Scalar, status: string, env: Envelope<TaskRecord, TaskRecord>): (c: Call<TaskUpdateRecord, Task>)
    ensures c.sent.Some? && c.sent.value.Id == ParseIntOf(Some(id))
    ensures c.sent.value.fields.status == Some(status) && c.sent.value.fields.priority.None?
    ensures c.reply.notices == ClassifyWrite(env, Update).notices
    ensures c.reply.outcome == ClassifyWrite(env, Update).outcome.Map(Normalize)
    ensures c.reply.outcome.Returned? <==> env.success && env.results.Some? && AnySucceeded(env.results.value)
  {
    UpdateTask(id, StatusOnly(status), env)
  }

  /** `deleteTask`: true exactly when some entry succeeded, false without
      `results`; throws only on top-level failure. */
  function DeleteTask(id: Scalar, env: Envelope<TaskRecord, TaskRecord>): (c: Call<seq<Option<int>>, bool>)
    ensures c.sent == Some([ParseIntOf(Some(id))])
    ensures c.reply == ClassifyDelete(env)
    ensures c.reply.outcome.Threw? <==> !env.success
    ensures env.success ==> c.reply.outcome.value == (env.results.Some? && AnySucceeded(env.results.value))
  {
    Call(Some([ParseIntOf(Some(id))]), ClassifyDelete(env))
  }

  /** A status change sends the full field set: the new status, no title,
      priority or due date, a `total_time` of 0, a `NaN` project and empty
      `Tags`. */
  lemma StatusUpdatePayload(id: Scalar, status: string, env: Envelope<TaskRecord, TaskRecord>)
    ensures UpdateTaskStatus(id, status, env).sent ==
      Some(TaskUpdateRecord(ParseIntOf(Some(id)), TaskFields(None, None, None, Some(status), None, 0, None, "")))
  {
  }
}
