/** The invoice service: local validation before any backend call, payload
    building for the `app_invoice` table, the `clientId`/`projectId` aliases
    added to every invoice it returns, and the two status verbs. */
module InvoiceService {
  import opened Wrappers
  import opened JsNumbers
  import opened RecordAccess

  /** A stored invoice as the backend returns it (the selected fields). */
  datatype InvoiceRecord = InvoiceRecord(
    Id: int,
    Name: Option<string>,
    client_id: Option<int>,
    project_id: Option<int>,
    amount: Option<real>,
    status: Option<string>,
    dueDate: Option<string>,
    paymentDate: Option<string>,
    Tags: Option<string>)

  /** An invoice as the service returns it: the stored record, spread
      unchanged, plus the two aliases. */
  datatype Invoice = Invoice(record: InvoiceRecord, clientId: Option<int>, projectId: Option<int>)

  /** What the UI hands to `createInvoice`/`updateInvoice`; `amount` is a
      number or missing. */
  datatype InvoiceInput = InvoiceInput(
    clientId: Option<Scalar>,
    client_id: Option<Scalar>,
    projectId: Option<Scalar>,
    project_id: Option<Scalar>,
    amount: Option<real>,
    status: Option<string>,
    dueDate: Option<string>,
    paymentDate: Option<string>,
    Tags: Option<string>)

  /** The record `createInvoice` sends. */
  datatype NewInvoiceRecord = NewInvoiceRecord(
    Name: string,
    client_id: int,
    project_id: Option<int>,
    amount: real,
    status: string,
    dueDate: string,
    Tags: string)

  /** The record `updateInvoice` sends; a `None` number is `NaN`, and
      `paymentDate` is `None` when the key is not set at all. */
  datatype InvoiceUpdateRecord = InvoiceUpdateRecord(
    Id: int,
    client_id: Option<int>,
    project_id: Option<int>,
    amount: Option<real>,
    status: Option<string>,
    dueDate: Option<string>,
    Tags: string,
    paymentDate: Option<string>)

  /** Adds `clientId` = `client_id` and `projectId` = `project_id`. */
  function Normalize(r: InvoiceRecord): (v: Invoice)
    ensures v.record == r && v.clientId == r.client_id && v.projectId == r.project_id
  {
    Invoice(r, r.client_id, r.project_id)
  }

  function NormalizeAll(rs: seq<InvoiceRecord>): (vs: seq<Invoice>)
    ensures |vs| == |rs|
    ensures forall i :: 0 <= i < |rs| ==> vs[i] == Normalize(rs[i])
  {
    if rs == [] then [] else [Normalize(rs[0])] + NormalizeAll(rs[1..])
  }

  /** `getAllInvoices`: every stored invoice, in order, with its aliases. */
  function GetAllInvoices(env: Envelope<seq<InvoiceRecord>, InvoiceRecord>): (o: Outcome<seq<Invoice>>)
    ensures !env.success ==> o == Threw(ErrorText(env.message))
    ensures env.success ==> o.Returned? && |o.value| == |env.data.GetOr([])|
    ensures env.success ==> forall i :: 0 <= i < |o.value| ==>
      o.value[i].record == env.data.value[i] && o.value[i].clientId == env.data.value[i].client_id
      && o.value[i].projectId == env.data.value[i].project_id
  {
    FetchAll(env).Map(NormalizeAll)
  }

  /** `getInvoiceById`. */
  function GetInvoiceById(id: Scalar, env: Envelope<InvoiceRecord, InvoiceRecord>): (c: Call<Option<int>, Invoice>)
    ensures c.sent == Some(ParseIntOf(Some(id))) && c.reply.notices == []
    ensures !env.success ==> c.reply.outcome == Threw(ErrorText(env.message))
    ensures env.success && env.data.None? ==> c.reply.outcome == Threw("Invoice not found")
    ensures env.success && env.data.Some? ==> c.reply.outcome == Returned(Normalize(env.data.value))
  {
    Call(Some(ParseIntOf(Some(id))), Reply([], FetchOne(env, "Invoice not found").Map(Normalize)))
  }

  /** The checks `createInvoice` makes before reaching the backend, in this
      order; `None` when all pass. */
  function CreateInvoiceError(input: InvoiceInput): (e: Option<string>)
    ensures !Truthy(input.projectId) ==> e == Some("Project ID is required")
    ensures Truthy(input.projectId) && (input.amount.None? || input.amount.value <= 0.0) ==>
      e == Some("Amount must be greater than 0")
    ensures Truthy(input.projectId) && input.amount.Some? && input.amount.value > 0.0 && !TruthyText(input.dueDate) ==>
      e == Some("Due date is required")
    ensures e.None? <==> Truthy(input.projectId) && input.amount.Some? && input.amount.value > 0.0 && TruthyText(input.dueDate)
  {
    if !Truthy(input.projectId) then Some("Project ID is required")
    else if input.amount.None? || input.amount.value <= 0.0 then Some("Amount must be greater than 0")
    else if !TruthyText(input.dueDate) then Some("Due date is required")
    else None
  }

  /** The record `createInvoice` sends for a valid input: the name is
      "Invoice-" and the current time in milliseconds; `client_id` is the
      parsed id, or 1 when that is `NaN` or 0; `status` defaults to "draft"
      and `Tags` to "". */
  function NewInvoicePayload(input: InvoiceInput, nowMillis: int): (p: NewInvoiceRecord)
    requires CreateInvoiceError(input).None?
    ensures p.Name == "Invoice-" + DecimalText(nowMillis)
    ensures p.client_id != 0
    ensures ParseIntOf(OrScalar(input.clientId, input.client_id)) == Some(p.client_id) || p.client_id == 1
    ensures forall n :: n != 0 && ParseIntOf(OrScalar(input.clientId, input.client_id)) == Some(n) ==> p.client_id == n
    ensures p.project_id == ParseIntOf(input.projectId)
    ensures p.amount == input.amount.value && p.amount > 0.0
    ensures p.status == OrDefault(input.status, "draft") && p.dueDate == input.dueDate.value
    ensures p.Tags == input.Tags.GetOr("")
  {
    var client := ParseIntOf(OrScalar(input.clientId, input.client_id));
    NewInvoiceRecord(
      "Invoice-" + DecimalText(nowMillis),
      if client.Some? && client.value != 0 then client.value else 1,
      ParseIntOf(OrScalar(input.projectId, input.project_id)),
      input.amount.value,
      OrDefault(input.status, "draft"),
      input.dueDate.value,
      OrDefault(input.Tags, ""))
  }

  /** `createInvoice`: an invalid input throws its validation message and
      nothing is sent; otherwise the two-tier classification of the create
      path, with the aliases added to the written invoice. */
  function CreateInvoice(input: InvoiceInput, nowMillis: int, env: Envelope<InvoiceRecord, InvoiceRecord>): (c: Call<NewInvoiceRecord, Invoice>)
    ensures c.sent.None? <==> CreateInvoiceError(input).Some?
    ensures c.sent.None? ==> c.reply == Reply([], Threw(CreateInvoiceError(input).value))
    ensures c.sent.Some? ==> c.sent.value == NewInvoicePayload(input, nowMillis)
    ensures c.sent.Some? ==> c.reply.notices == ClassifyWrite(env, Create).notices
    ensures c.sent.Some? ==> c.reply.outcome == ClassifyWrite(env, Create).outcome.Map(Normalize)
    ensures c.reply.outcome.Returned? <==>
      c.sent.Some? && env.success && env.results.Some? && AnySucceeded(env.results.value)
  {
    match CreateInvoiceError(input)
    case Some(e) => Call(None, Reply([], Threw(e)))
    case None =>
      var w := ClassifyWrite(env, Create);
      Call(Some(NewInvoicePayload(input, nowMillis)), Reply(w.notices, w.outcome.Map(Normalize)))
  }

  /** The checks `updateInvoice` makes first: a non-numeric id, then an
      amount that is supplied and not positive. */
  function UpdateInvoiceError(id: Scalar, input: InvoiceInput): (e: Option<string>)
    ensures ParseIntOf(Some(id)).None? ==> e == Some("Invalid invoice ID")
    ensures ParseIntOf(Some(id)).Some? && input.amount.Some? && input.amount.value <= 0.0 ==>
      e == Some("Amount must be greater than 0")
    ensures e.None? <==> ParseIntOf(Some(id)).Some? && (input.amount.None? || input.amount.value > 0.0)
  {
    if ParseIntOf(Some(id)).None? then Some("Invalid invoice ID")
    else if input.amount.Some? && input.amount.value <= 0.0 then Some("Amount must be greater than 0")
    else None
  }

  /** The record `updateInvoice` sends: the full field set with no defaults
      except `Tags`; `paymentDate` is set only when one is supplied. */
  function InvoiceUpdatePayload(id: Scalar, input: InvoiceInput): (p: InvoiceUpdateRecord)
    requires UpdateInvoiceError(id, input).None?
    ensures Some(p.Id) == ParseIntOf(Some(id))
    ensures p.client_id == ParseIntOf(OrScalar(input.clientId, input.client_id))
    ensures p.project_id == ParseIntOf(OrScalar(input.projectId, input.project_id))
    ensures p.amount == input.amount && p.status == input.status && p.dueDate == input.dueDate
    ensures p.Tags == input.Tags.GetOr("")
    ensures p.paymentDate.Some? <==> TruthyText(input.paymentDate)
    ensures p.paymentDate.Some? ==> p.paymentDate == input.paymentDate
  {
    InvoiceUpdateRecord(
      ParseIntOf(Some(id)).value,
      ParseIntOf(OrScalar(input.clientId, input.client_id)),
      ParseIntOf(OrScalar(input.projectId, input.project_id)),
      input.amount,
      input.status,
      input.dueDate,
      OrDefault(input.Tags, ""),
      if TruthyText(input.paymentDate) then input.paymentDate else None)
  }

  /** `updateInvoice`. */
  function UpdateInvoice(id: Scalar, input: InvoiceInput, env: Envelope<InvoiceRecord, InvoiceRecord>): (c: Call<InvoiceUpdateRecord, Invoice>)
    ensures c.sent.None? <==> UpdateInvoiceError(id, input).Some?
    ensures c.sent.None? ==> c.reply == Reply([], Threw(UpdateInvoiceError(id, input).value))
    ensures c.sent.Some? ==> c.sent.value == InvoiceUpdatePayload(id, input)
    ensures c.sent.Some? ==> c.reply.notices == ClassifyWrite(env, Update).notices
    ensures c.sent.Some? ==> c.reply.outcome == ClassifyWrite(env, Update).outcome.Map(Normalize)
    ensures c.reply.outcome.Returned? <==>
      c.sent.Some? && env.success && env.results.Some? && AnySucceeded(env.results.value)
  {
    match UpdateInvoiceError(id, input)
    case Some(e) => Call(None, Reply([], Threw(e)))
    case None =>
      var w := ClassifyWrite(env, Update);
      Call(Some(InvoiceUpdatePayload(id, input)), Reply(w.notices, w.outcome.Map(Normalize)))
  }

  /** The input with only `status` (and maybe `paymentDate`) set. */
  function StatusChange(status: string, paymentDate: Option<string>): (i: InvoiceInput)
    ensures i.status == Some(status) && i.paymentDate == paymentDate
    ensures i.clientId.None? && i.client_id.None? && i.projectId.None? && i.project_id.None?
    ensures i.amount.None? && i.dueDate.None? && i.Tags.None?
  {
    InvoiceInput(None, None, None, None, None, Some(status), None, paymentDate, None)
  }

  /** `markInvoiceAsSent(id)` is `updateInvoice(id, { status: "sent" })`. */
  function MarkInvoiceAsSent(id: Scalar, env: Envelope<InvoiceRecord, InvoiceRecord>): (c: Call<InvoiceUpdateRecord, Invoice>)
    ensures c.sent.Some? <==> ParseIntOf(Some(id)).Some?
    ensures c.sent.Some? ==> c.sent.value.status == Some("sent") && c.sent.value.paymentDate.None?
    ensures c.sent.Some? ==> Some(c.sent.value.Id) == ParseIntOf(Some(id)) && c.sent.value.dueDate.None?
    ensures c.sent.None? ==> c.reply == Reply([], Threw("Invalid invoice ID"))
    ensures c.sent.Some? ==> c.reply.notices == ClassifyWrite(env, Update).notices
    ensures c.sent.Some? ==> c.reply.outcome == ClassifyWrite(env, Update).outcome.Map(Normalize)
    ensures c.reply.outcome.Returned? <==>
      c.sent.Some? && env.success && env.results.Some? && AnySucceeded(env.results.value)
  {
    UpdateInvoice(id, StatusChange("sent", None), env)
  }

  /** `markInvoiceAsPaid`: an empty payment date throws "Payment date is
      required" before `updateInvoice` is called (so before the id is even
      checked); otherwise status "paid" and the payment date are sent. */
  function MarkInvoiceAsPaid(id: Scalar, paymentDate: Option<string>, env: Envelope<InvoiceRecord, InvoiceRecord>): (c: Call<InvoiceUpdateRecord, Invoice>)
    ensures !TruthyText(paymentDate) ==> c == Call(None, Reply([], Threw("Payment date is required")))
    ensures TruthyText(paymentDate) ==> c == UpdateInvoice(id, StatusChange("paid", paymentDate), env)
    ensures c.sent.Some? <==> TruthyText(paymentDate) && ParseIntOf(Some(id)).Some?
    ensures c.sent.Some? ==> c.sent.value.status == Some("paid") && c.sent.value.paymentDate == paymentDate
  {
    if !TruthyText(paymentDate) then Call(None, Reply([], Threw("Payment date is required")))
    else UpdateInvoice(id, StatusChange("paid", paymentDate), env)
  }

  /** `deleteInvoice`: true exactly when some entry succeeded, false without
      `results`; throws only on top-level failure. */
  function DeleteInvoice(id: Scalar, env: Envelope<InvoiceRecord, InvoiceRecord>): (c: Call<seq<Option<int>>, bool>)
    ensures c.sent == Some([ParseIntOf(Some(id))])
    ensures c.reply == ClassifyDelete(env)
    ensures c.reply.outcome.Threw? <==> !env.success
    ensures env.success ==> c.reply.outcome.value == (env.results.Some? && AnySucceeded(env.results.value))
  {
    Call(Some([ParseIntOf(Some(id))]), ClassifyDelete(env))
  }

  /** The status verbs overwrite the invoice's other fields: the payload
      carries a `NaN` client, project and amount and empty `Tags`. */
  lemma StatusVerbsSendFullFieldSet(id: Scalar, env: Envelope<InvoiceRecord, InvoiceRecord>)
    requires ParseIntOf(Some(id)).Some?
    ensures var p := MarkInvoiceAsSent(id, env).sent.value;
      p.client_id.None? && p.project_id.None? && p.amount.None? && p.Tags == ""
  {
  }
}
