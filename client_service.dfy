/** The client service: payload building for the `client` table and the
    shared response handling applied to its envelopes. */
module ClientService {
  import opened Wrappers
  import opened JsNumbers
  import opened RecordAccess

  /** A stored client as the backend returns it (the selected fields). */
  datatype Client = Client(
    Id: int,
    Name: Option<string>,
    email: Option<string>,
    company: Option<string>,
    status: Option<string>,
    createdAt: Option<string>,
    notes: Option<string>,
    Tags: Option<string>)

  /** What the UI hands to `createClient`/`updateClient`; the name may come
      under either spelling. */
  datatype ClientInput = ClientInput(
    name: Option<string>,
    Name: Option<string>,
    email: Option<string>,
    company: Option<string>,
    status: Option<string>,
    notes: Option<string>,
    Tags: Option<string>)

  /** The updateable fields sent on a write. */
  datatype ClientFields = ClientFields(
    Name: Option<string>,
    email: Option<string>,
    company: Option<string>,
    status: Option<string>,
    notes: string,
    Tags: string)

  datatype NewClientRecord = NewClientRecord(fields: ClientFields, createdAt: string)

  /** `Id` is `parseInt(id)`; `None` stands for `NaN`. */
  datatype ClientUpdateRecord = ClientUpdateRecord(Id: Option<int>, fields: ClientFields)

  /** The fields common to both writes; `status` is whatever the caller
      decided to send. */
  function WriteFields(input: ClientInput, status: Option<string>): (f: ClientFields)
    ensures TruthyText(input.name) ==> f.Name == input.name
    ensures !TruthyText(input.name) ==> f.Name == input.Name
    ensures f.email == input.email && f.company == input.company && f.status == status
    ensures f.notes == input.notes.GetOr("") && f.Tags == input.Tags.GetOr("")
  {
    ClientFields(OrText(input.name, input.Name), input.email, input.company, status,
                 OrDefault(input.notes, ""), OrDefault(input.Tags, ""))
  }

  /** `getAllClients`. */
  function GetAllClients(env: Envelope<seq<Client>, Client>): (o: Outcome<seq<Client>>)
    ensures !env.success ==> o == Threw(ErrorText(env.message))
    ensures env.success ==> o == Returned(env.data.GetOr([]))
  {
    FetchAll(env)
  }

  /** `getClientById`: requests `parseInt(id)`. */
  function GetClientById(id: Scalar, env: Envelope<Client, Client>): (c: Call<Option<int>, Client>)
    ensures c.sent == Some(ParseIntOf(Some(id))) && c.reply.notices == []
    ensures !env.success ==> c.reply.outcome == Threw(ErrorText(env.message))
    ensures env.success && env.data.None? ==> c.reply.outcome == Threw("Client not found")
    ensures env.success && env.data.Some? ==> c.reply.outcome == Returned(env.data.value)
  {
    Call(Some(ParseIntOf(Some(id))), Reply([], FetchOne(env, "Client not found")))
  }

  /** The record `createClient` sends: `name` wins over `Name` when
      non-empty, `status` defaults to "active", `notes` and `Tags` to "",
      and `createdAt` is the current time (`now`). */
  function NewClientPayload(input: ClientInput, now: string): (p: NewClientRecord)
    ensures p.fields == WriteFields(input, p.fields.status)
    ensures TruthyText(p.fields.status)
    ensures TruthyText(input.status) ==> p.fields.status == input.status
    ensures !TruthyText(input.status) ==> p.fields.status == Some("active")
    ensures p.createdAt == now
  {
    NewClientRecord(WriteFields(input, Some(OrDefault(input.status, "active"))), now)
  }

  /** `createClient`: always reaches the backend (no local validation); then
      the two-tier classification of the create path. */
  function CreateClient(input: ClientInput, now: string, env: Envelope<Client, Client>): (c: Call<NewClientRecord, Client>)
    ensures c.sent == Some(NewClientPayload(input, now))
    ensures c.reply == ClassifyWrite(env, Create)
    ensures c.reply.outcome.Returned? <==> env.success && env.results.Some? && AnySucceeded(env.results.value)
    ensures env.success && c.reply.outcome.Threw? ==> c.reply.outcome.message == "No records were created successfully"
  {
    Call(Some(NewClientPayload(input, now)), ClassifyWrite(env, Create))
  }

  /** The record `updateClient` sends: `Id` is the coerced id and `status`
      is sent as given, without a default. */
  function ClientUpdatePayload(id: Scalar, input: ClientInput): (p: ClientUpdateRecord)
    ensures p.Id == ParseIntOf(Some(id))
    ensures p.fields == WriteFields(input, input.status)
  {
    ClientUpdateRecord(ParseIntOf(Some(id)), WriteFields(input, input.status))
  }

  /** `updateClient`. */
  function UpdateClient(id: Scalar, input: ClientInput, env: Envelope<Client, Client>): (c: Call<ClientUpdateRecord, Client>)
    ensures c.sent == Some(ClientUpdatePayload(id, input))
    ensures c.reply == ClassifyWrite(env, Update)
    ensures c.reply.outcome.Returned? <==> env.success && env.results.Some? && AnySucceeded(env.results.value)
    ensures env.success && c.reply.outcome.Threw? ==> c.reply.outcome.message == "No records were updated successfully"
  {
    Call(Some(ClientUpdatePayload(id, input)), ClassifyWrite(env, Update))
  }

  /** `deleteClient`: sends `[parseInt(id)]`; true exactly when some entry
      succeeded, false without `results`; throws only on top-level failure. */
  function DeleteClient(id: Scalar, env: Envelope<Client, Client>): (c: Call<seq<Option<int>>, bool>)
    ensures c.sent == Some([ParseIntOf(Some(id))])
    ensures c.reply == ClassifyDelete(env)
    ensures c.reply.outcome.Threw? <==> !env.success
    ensures env.success ==> c.reply.outcome.value == (env.results.Some? && AnySucceeded(env.results.value))
  {
    Call(Some([ParseIntOf(Some(id))]), ClassifyDelete(env))
  }

  /** The input that re-sends a created record's own fields. */
  function InputOf(f: ClientFields): ClientInput {
    ClientInput(None, f.Name, f.email, f.company, f.status, Some(f.notes), Some(f.Tags))
  }

  /** Building the create payload from the fields it produced gives the same
      payload: the defaults and the `name`/`Name` resolution are stable. */
  lemma NewClientPayloadStable(input: ClientInput, now: string)
    ensures var p := NewClientPayload(input, now); NewClientPayload(InputOf(p.fields), now) == p
  {
  }

  /** A missing status is defaulted on create but sent missing on update. */
  lemma StatusDefaultedOnlyOnCreate(id: Scalar, input: ClientInput, now: string)
    requires input.status.None?
    ensures NewClientPayload(input, now).fields.status == Some("active")
    ensures ClientUpdatePayload(id, input).fields.status.None?
  {
  }
}
