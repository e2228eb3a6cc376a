/** The state of the project form: its fields, the per-field error texts,
    the form population when a project is edited, validation, and the data
    handed to the submit callback. */
module ProjectModal {
  import opened Wrappers
  import opened JsText
  import opened JsNumbers
  import ClientService

  datatype ProjectField = NameField | DescriptionField | ClientIdField | StatusField | BudgetField | StartDateField | EndDateField

  /** `formData`: every input holds text; a date input holds "YYYY-MM-DD" or "". */
  datatype ProjectForm = ProjectForm(
    Name: string,
    description: string,
    client_id: string,
    status: string,
    budget: string,
    startDate: string,
    endDate: string)

  /** The project being edited, as the page passes it in; `budget` and the
      client id are taken as their text. */
  datatype ProjectInput = ProjectInput(
    Name: Option<string>,
    name: Option<string>,
    description: Option<string>,
    client_id: Option<string>,
    clientId: Option<string>,
    status: Option<string>,
    budget: Option<string>,
    startDate: Option<string>,
    endDate: Option<string>)

  /** What `handleSubmit` hands to `onSubmit`; `budget` is `null` (`None`)
      when empty, and `client_id` is `None` for `null` and for `NaN`. */
  datatype ProjectData = ProjectData(
    Name: string,
    status: string,
    budget: Option<real>,
    startDate: string,
    endDate: string,
    client_id: Option<int>)

  const DefaultForm := ProjectForm("", "", "", "planning", "", "", "")

  const NameRequired := "Project name is required"
  const ClientRequired := "Client selection is required"
  const BudgetInvalid := "Budget must be a valid number"
  const EndBeforeStart := "End date must be after start date"

  function Get(f: ProjectForm, field: ProjectField): string {
    match field
    case NameField => f.Name
    case DescriptionField => f.description
    case ClientIdField => f.client_id
    case StatusField => f.status
    case BudgetField => f.budget
    case StartDateField => f.startDate
    case EndDateField => f.endDate
  }

  /** `{ ...prev, [name]: value }`: only the named field changes. */
  function Set(f: ProjectForm, field: ProjectField, value: string): (g: ProjectForm)
    ensures Get(g, field) == value
    ensures forall other :: other != field ==> Get(g, other) == Get(f, other)
  {
    match field
    case NameField => f.(Name := value)
    case DescriptionField => f.(description := value)
    case ClientIdField => f.(client_id := value)
    case StatusField => f.(status := value)
    case BudgetField => f.(budget := value)
    case StartDateField => f.(startDate := value)
    case EndDateField => f.(endDate := value)
  }

  /** Text of the shape "YYYY-MM-DD": four digits, `-`, two digits, `-`,
      two digits. */
  predicate IsDateText(s: string) {
    |s| == 10 && s[4] == '-' && s[7] == '-'
    && AllDigits(s[..4]) && AllDigits(s[5..7]) && AllDigits(s[8..])
  }

  function Year(s: string): nat
    requires IsDateText(s)
  {
    DigitsValue(s[..4])
  }

  function Month(s: string): nat
    requires IsDateText(s)
  {
    DigitsValue(s[5..7])
  }

  function Day(s: string): nat
    requires IsDateText(s)
  {
    DigitsValue(s[8..])
  }

  /** An integer that orders calendar dates as `new Date(...)` does, for
      the "YYYY-MM-DD" text a date input produces; other text is an invalid
      date (`None`), which compares false with everything. */
  function DateKey(s: string): (k: Option<int>)
    ensures k.Some? <==> IsDateText(s) && 1 <= Month(s) <= 12 && 1 <= Day(s) <= 31
    ensures k.Some? ==> k.value == DayKey(Year(s), Month(s), Day(s))
  {
    if IsDateText(s) && 1 <= Month(s) <= 12 && 1 <= Day(s) <= 31
    then Some(DayKey(Year(s), Month(s), Day(s)))
    else None
  }

  function DayKey(year: nat, month: nat, day: nat): int {
    year * 10000 + month * 100 + day
  }

  /** The key orders dates lexicographically by year, month and day. */
  lemma DayKeyOrder(y1: nat, m1: nat, d1: nat, y2: nat, m2: nat, d2: nat)
    requires 1 <= m1 <= 12 && 1 <= d1 <= 31 && 1 <= m2 <= 12 && 1 <= d2 <= 31
    ensures DayKey(y1, m1, d1) <= DayKey(y2, m2, d2) <==>
      y1 < y2 || (y1 == y2 && (m1 < m2 || (m1 == m2 && d1 <= d2)))
  {
  }

  /** Two valid dates compare by their keys exactly as the calendar orders
      them: by year, then month, then day. */
  lemma DateKeyOrder(s: string, t: string)
    requires DateKey(s).Some? && DateKey(t).Some?
    ensures DateKey(s).value <= DateKey(t).value <==>
      Year(s) < Year(t) || (Year(s) == Year(t) && (Month(s) < Month(t) || (Month(s) == Month(t) && Day(s) <= Day(t))))
  {
    DayKeyOrder(Year(s), Month(s), Day(s), Year(t), Month(t), Day(t));
  }

  /** The end-date check: both dates present and the end not after the start. */
  predicate EndNotAfterStart(f: ProjectForm) {
    f.startDate != "" && f.endDate != ""
    && DateKey(f.startDate).Some? && DateKey(f.endDate).Some?
    && DateKey(f.endDate).value <= DateKey(f.startDate).value
  }

  /** The errors `validateForm` records, one entry per failing check. */
  function FormErrors(f: ProjectForm): (errors: map<ProjectField, string>)
    ensures NameField in errors <==> IsBlank(f.Name)
    ensures ClientIdField in errors <==> f.client_id == ""
    ensures BudgetField in errors <==> f.budget != "" && ParseFloat(f.budget).None?
    ensures EndDateField in errors <==> EndNotAfterStart(f)
    ensures errors.Keys <= {NameField, ClientIdField, BudgetField, EndDateField}
    ensures NameField in errors ==> errors[NameField] == NameRequired
    ensures ClientIdField in errors ==> errors[ClientIdField] == ClientRequired
    ensures BudgetField in errors ==> errors[BudgetField] == BudgetInvalid
    ensures EndDateField in errors ==> errors[EndDateField] == EndBeforeStart
  {
    var e := FieldErrors(f);
    if EndNotAfterStart(f) then e[EndDateField := EndBeforeStart] else e
  }

  /** The checks of single fields: name, client and budget. */
  function FieldErrors(f: ProjectForm): map<ProjectField, string> {
    var e1 := if IsBlank(f.Name) then map[NameField := NameRequired] else map[];
    var e2 := if f.client_id == "" then e1[ClientIdField := ClientRequired] else e1;
    if f.budget != "" && ParseFloat(f.budget).None? then e2[BudgetField := BudgetInvalid] else e2
  }

  /** The data `handleSubmit` builds from the form. */
  function ProjectDataOf(f: ProjectForm): (d: ProjectData)
    ensures d.Name == f.Name && d.status == f.status && d.startDate == f.startDate && d.endDate == f.endDate
    ensures f.budget == "" ==> d.budget.None?
    ensures f.budget != "" ==> d.budget == ParseFloat(f.budget)
    ensures f.client_id == "" ==> d.client_id.None?
    ensures f.client_id != "" ==> d.client_id == ParseInt(f.client_id)
  {
    ProjectData(f.Name, f.status, if f.budget != "" then ParseFloat(f.budget) else None,
                f.startDate, f.endDate, if f.client_id != "" then ParseInt(f.client_id) else None)
  }

  /** What a form that passed validation submits: a non-blank name, a client
      id that was parsed, and a budget that is `null` exactly when the field
      was empty. */
  lemma ValidFormData(f: ProjectForm)
    requires FormErrors(f) == map[]
    ensures !IsBlank(ProjectDataOf(f).Name)
    ensures ProjectDataOf(f).client_id == ParseInt(f.client_id)
    ensures ProjectDataOf(f).budget.None? <==> f.budget == ""
  {
  }

  /** The form-population effect: the edited project's values with their
      fallbacks, or the defaults when there is none. */
  function FormFor(project: Option<ProjectInput>): (f: ProjectForm)
    ensures project.None? ==> f == DefaultForm
    ensures f.status != ""
    ensures project.Some? ==> f.Name == OrDefault(OrText(project.value.Name, project.value.name), "")
    ensures project.Some? ==> f.client_id == OrDefault(OrText(project.value.client_id, project.value.clientId), "")
    ensures project.Some? ==> f.status == OrDefault(project.value.status, "planning")
    ensures project.Some? ==>
      (f.description == project.value.description.GetOr("")
       && f.budget == project.value.budget.GetOr("") && f.startDate == project.value.startDate.GetOr("")
       && f.endDate == project.value.endDate.GetOr(""))
  {
    match project
    case None => DefaultForm
    case Some(p) =>
      ProjectForm(
        OrDefault(OrText(p.Name, p.name), ""),
        OrDefault(p.description, ""),
        OrDefault(OrText(p.client_id, p.clientId), ""),
        OrDefault(p.status, "planning"),
        OrDefault(p.budget, ""),
        OrDefault(p.startDate, ""),
        OrDefault(p.endDate, ""))
  }

  /** No client has the id `id`. */
  predicate NoClientWithId(clients: seq<ClientService.Client>, id: Option<int>) {
    forall i :: 0 <= i < |clients| ==> Some(clients[i].Id) != id
  }

  /** The client at `i` is the first one whose id is `id`. */
  predicate FirstWithId(clients: seq<ClientService.Client>, id: Option<int>, i: int) {
    0 <= i < |clients| && Some(clients[i].Id) == id && NoClientWithId(clients[..i], id)
  }

  /** `getClientName`: the `Name` of the first client whose `Id` equals
      `parseInt(clientId)`, or "Unknown Client" when there is none. */
  function ClientName(clients: seq<ClientService.Client>, clientId: string): (n: Option<string>)
    ensures NoClientWithId(clients, ParseInt(clientId)) ==> n == Some("Unknown Client")
    ensures forall i :: FirstWithId(clients, ParseInt(clientId), i) ==> n == clients[i].Name
  {
    NameOfFirst(clients, ParseInt(clientId))
  }

  function NameOfFirst(clients: seq<ClientService.Client>, id: Option<int>): (n: Option<string>)
    ensures NoClientWithId(clients, id) ==> n == Some("Unknown Client")
    ensures forall i :: FirstWithId(clients, id, i) ==> n == clients[i].Name
  {
    if clients == [] then Some("Unknown Client")
    else if Some(clients[0].Id) == id then
      clients[0].Name
    else
      var rest := NameOfFirst(clients[1..], id);
      assert NoClientWithId(clients, id) ==> NoClientWithId(clients[1..], id) by {
        if NoClientWithId(clients, id) {
          forall i | 0 <= i < |clients[1..]| ensures Some(clients[1..][i].Id) != id {
            assert clients[1..][i] == clients[i + 1];
          }
        }
      }
      assert forall i :: FirstWithId(clients, id, i) ==> rest == clients[i].Name by {
        forall i | FirstWithId(clients, id, i) ensures rest == clients[i].Name {
          assert i > 0;
          assert clients[1..][..i - 1] == clients[..i][1..];
          assert FirstWithId(clients[1..], id, i - 1);
        }
      }
      rest
  }

  /** The toast shown when the submit callback throws. */
  function SaveFailureText(message: string): (t: string)
    ensures t != ""
    ensures message != "" ==> t == message
  {
    if message != "" then message else "Failed to save project. Please try again."
  }

  class ProjectModalState {
    var formData: ProjectForm
    var errors: map<ProjectField, string>
    var loading: bool

    constructor ()
      ensures formData == DefaultForm && errors == map[] && !loading
    {
      formData, errors, loading := DefaultForm, map[], false;
    }

    /** The effect that runs when the `project` prop changes. */
    method Populate(project: Option<ProjectInput>)
      modifies this`formData, this`errors
      ensures formData == FormFor(project) && errors == map[]
    {
      formData := FormFor(project);
      errors := map[];
    }

    /** `handleInputChange`: sets the named field, and blanks that field's
      error text when it had one; every other field and error stays. */
    method HandleInputChange(field: ProjectField, value: string)
      modifies this`formData, this`errors
      ensures formData == Set(old(formData), field, value)
      ensures field in old(errors) && old(errors)[field] != "" ==> errors == old(errors)[field := ""]
      ensures !(field in old(errors) && old(errors)[field] != "") ==> errors == old(errors)
    {
      formData := Set(formData, field, value);
      if field in errors && errors[field] != "" {
        errors := errors[field := ""];
      }
    }

    /** `validateForm`: records the errors of the current form and reports
      whether there are none. */
    method ValidateForm() returns (valid: bool)
      modifies this`errors
      ensures errors == FormErrors(formData)
      ensures valid <==> errors == map[]
    {
      errors := FormErrors(formData);
      valid := errors == map[];
    }

    /** `handleSubmit`, given how the `onSubmit` callback settles. An invalid
      form never reaches the callback; a valid one submits its data and the
      modal closes when the callback returns. */
    method HandleSubmit(onSubmit: Outcome<()>) returns (submitted: Option<ProjectData>, closed: bool, notices: seq<string>)
      modifies this`errors, this`loading
      ensures errors == FormErrors(formData)
      ensures submitted.Some? <==> FormErrors(formData) == map[]
      ensures submitted.Some? ==> submitted.value == ProjectDataOf(formData)
      ensures closed <==> submitted.Some? && onSubmit.Returned?
      ensures notices == if submitted.Some? && onSubmit.Threw? then [SaveFailureText(onSubmit.message)] else []
      ensures submitted.Some? ==> !loading
      ensures submitted.None? ==> loading == old(loading)
    {
      submitted, closed, notices := None, false, [];
      var valid := ValidateForm();
      if !valid {
        return;
      }
      loading := true;
      submitted := Some(ProjectDataOf(formData));
      match onSubmit {
        case Returned(_) => closed := true;
        case Threw(message) => notices := [SaveFailureText(message)];
      }
      loading := false;
    }
  }
}
