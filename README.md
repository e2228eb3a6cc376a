# Freelance workspace: data-access services and form state, in Dafny

This project models the core of a freelancer workspace web application
(clients, projects, tasks and invoices kept in a hosted record store).
It models two layers:

* **The data-access services** for clients, tasks and invoices. Each one:
  * builds the record it sends for a create or an update, including
    defaults and id coercion;
  * runs the local validation checks, which only invoices have;
  * classifies the backend's response envelope in two tiers. A top-level
    `success: false` throws the backend's message. Otherwise the per-record
    `results` are inspected: every failed record's field errors and message
    become error notifications, and the first written record is returned.
    When no record was written, the call throws "No records were
    created/updated successfully".
  * for deletes, returns true exactly when some record was deleted.
* **Three pieces of UI state:**
  * the project form (`ProjectModal`): population from an edited project,
    field edits, validation and the data it submits;
  * the client list page (`Clients`): load, append, replace, remove,
    search, menu toggle and the edit modal;
  * the task form (`TaskModal`): submit guards, the task it creates, field
    edits and the reset on close.

The backend is not modelled. Every service function takes the response
envelope (`RecordAccess.Envelope`) as an input and returns a `Call`, which
holds:
* the payload it would send, or `None` when local validation threw first;
* a `Reply`: the error notifications it shows, in order, and an `Outcome`
  that either returned a value or threw a message.

The stateful UI code is modelled as classes whose fields are the
component's state and whose methods are its handlers.

Some JavaScript semantics the code depends on are written out explicitly:
* truthiness and `||` defaulting (`JsNumbers.OrText`, `OrDefault`,
  `OrScalar`);
* decimal `parseInt`/`parseFloat`, where `None` stands for `NaN`;
* `String(n)`;
* white-space `trim`, ASCII `toLowerCase` and `includes` (module `JsText`).

Modules, one per file:

| file | module | models |
|---|---|---|
| wrappers.dfy | `Wrappers` | `Option`, and `Outcome` (returned or thrown) |
| js_text.dfy | `JsText` | string built-ins the core relies on |
| js_numbers.dfy | `JsNumbers` | loosely typed values, truthiness, `parseInt`, `parseFloat`, `String(n)` |
| record_access.dfy | `RecordAccess` | the response envelope and the two-tier classification shared by all services |
| client_service.dfy | `ClientService` | `src/services/api/clientService.js` |
| task_service.dfy | `TaskService` | `src/services/api/taskService.js` |
| invoice_service.dfy | `InvoiceService` | `src/services/api/invoiceService.js` |
| project_modal.dfy | `ProjectModal` | `src/components/molecules/ProjectModal.jsx` |
| clients_page.dfy | `ClientsPage` | `src/components/pages/Clients.jsx` |
| task_modal.dfy | `TaskModal` | `src/components/molecules/TaskModal.jsx` |

Two behaviours of the code shape the model:

* **Update payloads carry the full field set.** Every update sends the
  full field set of its table, not only the fields the caller supplied. A
  field left out goes out as `undefined` or `NaN`, or as its default
  (`Tags` as "", a task's `total_time` as 0). So `updateTaskStatus` and
  `markInvoiceAsSent` also send these values
  (`TaskService.StatusUpdatePayload`,
  `InvoiceService.StatusVerbsSendFullFieldSet`).
* **Only invoices are validated locally.** Creating a client or a task goes
  straight to the backend.

## Model

| member | source | states |
|---|---|---|
| JsText.TrimStart | src/components/molecules/TaskModal.jsx:43 | the result is a suffix of the input; everything dropped is white space, and the result does not start with white space |
| JsText.TrimEnd | src/components/molecules/TaskModal.jsx:43 | the result is a prefix of the input; everything dropped is white space, and the result does not end with white space |
| JsText.Trim | src/components/molecules/ProjectModal.jsx:76 | `trim` is `trimStart` followed by `trimEnd`, so it drops exactly the leading and trailing white space; the trimmed text is empty exactly when the input is blank, and otherwise starts and ends with a non-space character |
| JsText.TrimIdempotent | src/components/molecules/TaskModal.jsx:62 | trimming an already trimmed title changes nothing |
| JsText.Lower | src/components/pages/Clients.jsx:94-96 | lower-casing keeps the length and maps each character through the ASCII case mapping |
| JsText.Includes | src/components/pages/Clients.jsx:94-96 | the empty needle is always included; an included needle is no longer than the haystack; a prefix is included |
| JsText.IncludesAt | src/components/pages/Clients.jsx:94-96 | a needle occurring at any offset of the haystack is included |
| JsText.IncludesFound | src/components/pages/Clients.jsx:94-96 | conversely, an included needle occurs at some offset of the haystack |
| JsNumbers.OrText | src/services/api/clientService.js:89 | `a \|\| b` on optional text: `a` when it is non-empty, otherwise `b`; the result is non-empty exactly when one of the two is |
| JsNumbers.OrDefault | src/services/api/clientService.js:92-94 | `a \|\| "default"`: `a` when it is non-empty, otherwise the default; with a non-empty default the result is never empty |
| JsNumbers.OrScalar | src/services/api/taskService.js:119 | `a \|\| b` on loosely typed values: `a` when truthy, otherwise `b`; the result is truthy exactly when one of the two is |
| JsNumbers.ParseInt | src/services/api/clientService.js:61 | `parseInt(s)` is `NaN` exactly when no digit follows the leading white space and optional sign; a negative result needs a leading `-` |
| JsNumbers.ParseIntOf | src/services/api/taskService.js:118-119 | `parseInt` of a value: `undefined` and `NaN` give `NaN`; a whole number gives itself |
| JsNumbers.FromParsed | src/components/molecules/TaskModal.jsx:66-67 | a parse result put back into a value coerces to the same parse result |
| JsNumbers.ParseIntOfDecimalText | src/services/api/clientService.js:146 | `parseInt(String(n)) === n` for every whole number, negative ones included |
| JsNumbers.ParseIntOfDigits | src/services/api/clientService.js:202 | digit text, with or without a leading minus, parses to its decimal value |
| JsNumbers.NumericTextCoercesLikeNumber | src/services/api/clientService.js:61 | an id passed as numeric text is coerced to the same integer as the number itself |
| JsNumbers.BlankIsNotANumber | src/components/molecules/ProjectModal.jsx:84 | empty or all-white-space text is `NaN` to both `parseInt` and `parseFloat` |
| JsNumbers.ParseFloatOfNatText | src/components/molecules/ProjectModal.jsx:113 | `parseFloat(String(n)) === n` for every natural number |
| JsNumbers.FloatParts | src/components/molecules/ProjectModal.jsx:84 | after leading white space and a sign, the whole part is the longest digit run; the fraction is the longest digit run after a `.` that directly follows it, and empty when no `.` follows |
| JsNumbers.ParseFloat | src/components/molecules/ProjectModal.jsx:113 | `parseFloat(s)` is `NaN` exactly when neither a whole part nor a fraction is read; a negative result needs a leading `-` |
| JsNumbers.DecimalText | src/services/api/invoiceService.js:116 | `String(n)` is never empty |
| RecordAccess.SuccessfulData | src/services/api/clientService.js:110-125 | the data of the successful entries: empty exactly when none succeeded; its first element is the first successful entry's data; every element comes from a successful entry |
| RecordAccess.ErrorText | src/services/api/clientService.js:30 | the thrown text is the backend's message, or empty text when it is `undefined` |
| RecordAccess.FailureNotices | src/services/api/clientService.js:113-121 | one "fieldLabel: message" per field error, in order, then the record's message when it is non-empty |
| RecordAccess.WriteNotices | src/services/api/clientService.js:116-121 | the write-path toasts of all failed entries; a batch in which every entry was written shows none |
| RecordAccess.DeleteNotices | src/services/api/clientService.js:218-221 | every toast is the message of some failed entry; at most one toast per entry, never an empty one, and none when every entry was deleted |
| RecordAccess.DeleteNoticesAppend | src/services/api/clientService.js:218-221 | the delete toasts of a batch are those of its parts, in order |
| RecordAccess.SingleFailedDelete | src/services/api/clientService.js:207-227 | a one-record delete that fails with top-level success returns false after showing exactly that record's message when it is non-empty, and nothing otherwise; field errors are never shown |
| RecordAccess.FetchAll | src/services/api/clientService.js:28-33 | a top-level failure throws the backend's message; otherwise the records, or `[]` when `data` is absent |
| RecordAccess.FetchOne | src/services/api/clientService.js:63-72 | a top-level failure throws the backend's message; a missing `data` throws the not-found text; a value is returned exactly when `data` is present |
| RecordAccess.ClassifyWrite | src/services/api/clientService.js:104-129 | a top-level failure throws before `results` is read; a value is returned if and only if some entry succeeded, and it is the data of the first successful entry; otherwise "No records were created/updated successfully", even with top-level success; the notices are those of the failed entries |
| RecordAccess.ClassifyDelete | src/services/api/clientService.js:207-227 | a top-level failure throws; otherwise true exactly when some entry succeeded, false without `results`; the toasts are `DeleteNotices` of `results`: the non-empty messages of the failed entries, in order |
| RecordAccess.WriteNoticesAppend | src/services/api/clientService.js:116-121 | the notices of a batch are those of its parts, in order |
| RecordAccess.AllWrittenNoNotices | src/services/api/clientService.js:113-122 | a batch where every record was written shows no notification on the write or the delete path |
| RecordAccess.WriteNoticeOrigin | src/services/api/clientService.js:116-121 | every notification comes from a field error or a message of some failed entry |
| RecordAccess.SingleFailedWrite | src/services/api/clientService.js:104-129 | a one-record write that fails with top-level success shows that record's field errors, then its message, and throws "No records were …" |
| ClientService.WriteFields | src/services/api/clientService.js:145-153 | `Name` is `name` when non-empty, else `Name`; email and company pass through; `notes` and `Tags` default to "" |
| ClientService.GetAllClients | src/services/api/clientService.js:28-33 | throws the backend's message on failure; otherwise `data`, or `[]` |
| ClientService.GetClientById | src/services/api/clientService.js:61-72 | requests `parseInt(id)`; throws the backend's message, or "Client not found" without `data` |
| ClientService.NewClientPayload | src/services/api/clientService.js:88-96 | the create record: the common fields, `status` defaulted to "active" (always non-empty), `createdAt` the current time |
| ClientService.CreateClient | src/services/api/clientService.js:79-129 | sends the create record; a client is returned if and only if some record was written; otherwise "No records were created successfully" |
| ClientService.ClientUpdatePayload | src/services/api/clientService.js:145-153 | the update record: `Id` is `parseInt(id)`, `status` is not defaulted |
| ClientService.UpdateClient | src/services/api/clientService.js:136-186 | sends the update record; returns if and only if some record was written; otherwise "No records were updated successfully" |
| ClientService.DeleteClient | src/services/api/clientService.js:193-227 | sends `[parseInt(id)]`; the reply is the delete classification: throws only on top-level failure, true exactly when some record was deleted; the toasts are `DeleteNotices` of `results`: the non-empty messages of the failed entries, in order |
| ClientService.NewClientPayloadStable | src/services/api/clientService.js:88-96 | re-sending a create record's own fields yields the same record |
| ClientService.StatusDefaultedOnlyOnCreate | src/services/api/clientService.js:92 | a missing status becomes "active" on create but stays missing on update |
| TaskService.Normalize | src/services/api/taskService.js:86-94 | the stored task is kept, `projectId` is `project_id`, and the time block is `total_time \|\| 0` with no timer or logs |
| TaskService.NormalizeAll | src/services/api/taskService.js:35-43 | same length and order, each task normalised |
| TaskService.GetAllTasks | src/services/api/taskService.js:29-45 | throws on failure; otherwise every stored task, in order, with `projectId` added and the time block built from `total_time` |
| TaskService.GetTaskById | src/services/api/taskService.js:76-96 | throws the backend's message, or "Task not found" without `data`; otherwise the normalised task |
| TaskService.WriteFields | src/services/api/taskService.js:112-121 | `Name` is `title \|\| Name`; `total_time` is the parsed count or 0; `project_id` is `parseInt(projectId \|\| project_id)`; `Tags` defaults to "" |
| TaskService.NewTaskPayload | src/services/api/taskService.js:112-121 | priority defaults to "medium" and status to "todo", so both are always non-empty |
| TaskService.CreateTask | src/services/api/taskService.js:103-163 | sends the create record; the outcome is the write classification's, with the returned record normalised: a task is returned if and only if some record was written, and it is the first written record; otherwise the backend's message or "No records were created successfully" |
| TaskService.TaskUpdatePayload | src/services/api/taskService.js:179-189 | `Id` is `parseInt(id)`; priority and status are not defaulted |
| TaskService.StatusOnly | src/services/api/taskService.js:239 | the input of a status change carries the status and no other field |
| TaskService.UpdateTask | src/services/api/taskService.js:170-231 | sends the update record; the outcome is the write classification's, with the returned record normalised: the first written record, or the backend's message, or "No records were updated successfully" |
| TaskService.UpdateTaskStatus | src/services/api/taskService.js:238-240 | sends the new status under the coerced id, with no priority; its toasts and outcome are those of `updateTask`: the first written record normalised, the backend's message, or "No records were updated successfully" |
| TaskService.StatusUpdatePayload | src/services/api/taskService.js:238-240 | a status change also sends `total_time` 0, a `NaN` project and empty `Tags` |
| TaskService.DeleteTask | src/services/api/taskService.js:242-276 | sends `[parseInt(id)]`; the reply is the delete classification: throws only on top-level failure, true exactly when some record was deleted; the toasts are `DeleteNotices` of `results`: the non-empty messages of the failed entries, in order |
| InvoiceService.Normalize | src/services/api/invoiceService.js:82-86 | the stored invoice is kept, with `clientId` and `projectId` added |
| InvoiceService.NormalizeAll | src/services/api/invoiceService.js:35-39 | same length and order, each invoice normalised |
| InvoiceService.GetAllInvoices | src/services/api/invoiceService.js:29-41 | throws on failure; otherwise every stored invoice, in order, with its aliases |
| InvoiceService.GetInvoiceById | src/services/api/invoiceService.js:72-88 | throws the backend's message, or "Invoice not found"; otherwise the invoice with its aliases |
| InvoiceService.CreateInvoiceError | src/services/api/invoiceService.js:97-106 | checks in order: the project id, then a missing or non-positive amount, then the due date; none fails exactly when all three hold |
| InvoiceService.NewInvoicePayload | src/services/api/invoiceService.js:115-123 | name "Invoice-" and the current time; `client_id` is the parsed id, or 1 for `NaN` or 0; the positive amount; status defaults to "draft" |
| InvoiceService.CreateInvoice | src/services/api/invoiceService.js:95-161 | nothing is sent exactly when validation fails, and then its message is thrown; otherwise the outcome is the write classification's with the aliases added: the first written invoice, or the backend's message, or "No records were created successfully" |
| InvoiceService.UpdateInvoiceError | src/services/api/invoiceService.js:170-177 | "Invalid invoice ID" for a `NaN` id, then "Amount must be greater than 0" for a supplied non-positive amount; none fails exactly when neither applies |
| InvoiceService.InvoiceUpdatePayload | src/services/api/invoiceService.js:186-198 | the full field set under the parsed id; `paymentDate` is set exactly when one is supplied |
| InvoiceService.UpdateInvoice | src/services/api/invoiceService.js:168-236 | nothing is sent exactly when validation fails, and then its message is thrown; otherwise the outcome is the write classification's with the aliases added: the first written invoice, or the backend's message, or "No records were updated successfully" |
| InvoiceService.MarkInvoiceAsSent | src/services/api/invoiceService.js:243-245 | sends, exactly when the id parses, the parsed id as `Id` with status "sent", no due date and no payment date; otherwise throws "Invalid invoice ID"; once sent, its toasts and outcome are those of `updateInvoice`: the first written invoice with its aliases, the backend's message, or "No records were updated successfully" |
| InvoiceService.MarkInvoiceAsPaid | src/services/api/invoiceService.js:247-256 | an empty payment date throws "Payment date is required" before the id is checked; otherwise status "paid" and the date are sent exactly when the id parses |
| InvoiceService.DeleteInvoice | src/services/api/invoiceService.js:258-292 | sends `[parseInt(id)]`; the reply is the delete classification: throws only on top-level failure, true exactly when some record was deleted; the toasts are `DeleteNotices` of `results`: the non-empty messages of the failed entries, in order |
| InvoiceService.StatusVerbsSendFullFieldSet | src/services/api/invoiceService.js:186-194 | marking an invoice sent also sends a `NaN` client, project and amount and empty `Tags` |
| InvoiceService.StatusChange | src/services/api/invoiceService.js:243-255 | the input of a status verb carries the status and the given payment date, and no other field |
| ProjectModal.Set | src/components/molecules/ProjectModal.jsx:59-62 | the named field takes the value; every other field keeps its own |
| ProjectModal.DateKey | src/components/molecules/ProjectModal.jsx:89-91 | a date is valid exactly when the text has the shape "YYYY-MM-DD" with a month from 1 to 12 and a day from 1 to 31; its key is built from that year, month and day |
| ProjectModal.DayKeyOrder | src/components/molecules/ProjectModal.jsx:91 | date keys order dates by year, then month, then day |
| ProjectModal.DateKeyOrder | src/components/molecules/ProjectModal.jsx:89-91 | the end-date comparison of two valid dates is calendar order: by year, then month, then day |
| ProjectModal.FormErrors | src/components/molecules/ProjectModal.jsx:73-98 | each field has an error if and only if its check fails (blank name, no client, non-numeric budget, end not after start), and the error carries that check's message |
| ProjectModal.ProjectDataOf | src/components/molecules/ProjectModal.jsx:110-117 | name, status and dates pass through; budget is `null` when empty and parsed otherwise; the client id is `null` when empty and parsed otherwise |
| ProjectModal.ValidFormData | src/components/molecules/ProjectModal.jsx:103-117 | a form that passes validation submits a non-blank name and a parsed client id, and its budget is `null` exactly when the field was empty |
| ProjectModal.FormFor | src/components/molecules/ProjectModal.jsx:31-54 | with no project, the defaults; otherwise `Name \|\| name \|\| ''`, `client_id \|\| clientId \|\| ''`, `status \|\| 'planning'`, the other fields or ''. The status is never empty |
| ProjectModal.ClientName | src/components/molecules/ProjectModal.jsx:137-140 | the `Name` of the first client whose `Id` is the parsed id, or "Unknown Client" when there is none |
| ProjectModal.NameOfFirst | src/components/molecules/ProjectModal.jsx:138-139 | the `Name` of the first client with the given id, or "Unknown Client" when no client has it |
| ProjectModal.SaveFailureText | src/components/molecules/ProjectModal.jsx:124 | the failure toast is never empty: the thrown message when it has one, otherwise the fallback text |
| ProjectModal.ProjectModalState.constructor | src/components/molecules/ProjectModal.jsx:17-27 | the form starts as the defaults, with no errors and not loading |
| ProjectModal.ProjectModalState.Populate | src/components/molecules/ProjectModal.jsx:31-54 | the form becomes the population of the project and the errors are cleared |
| ProjectModal.ProjectModalState.HandleInputChange | src/components/molecules/ProjectModal.jsx:57-71 | only the named field changes; its error is blanked only when it was set, and other errors stay |
| ProjectModal.ProjectModalState.ValidateForm | src/components/molecules/ProjectModal.jsx:73-98 | the errors become those of the current form; valid exactly when there are none |
| ProjectModal.ProjectModalState.HandleSubmit | src/components/molecules/ProjectModal.jsx:100-128 | data is submitted exactly when the form is valid, and it is the form's data; the modal closes exactly when the callback returns; a thrown error shows its message or the fallback text; loading ends false |
| ClientsPage.Keep | src/components/pages/Clients.jsx:61 | the kept elements are exactly the input's elements that satisfy the predicate, in their order, each as many times as in the input; nothing is lost exactly when all satisfy it |
| ClientsPage.ReplaceById | src/components/pages/Clients.jsx:44-48 | same length; clients with the updated `Id` are replaced in place and every other one is kept |
| ClientsPage.RemoveById | src/components/pages/Clients.jsx:61 | exactly the clients with a different `Id` remain, in order and with their multiplicity |
| ClientsPage.Filtered | src/components/pages/Clients.jsx:93-97 | corrected behaviour (see Findings): a client is shown if and only if its name, email or company contains the term, case-insensitively; order and multiplicity are kept |
| ClientsPage.FieldMatches | src/components/pages/Clients.jsx:94-96 | an empty term matches every field; a matching term is no longer than the field |
| ClientsPage.MatchesSearchAsWritten | src/components/pages/Clients.jsx:94-96 | as written, for a non-empty term only the email and the company can match; the name plays no part |
| ClientsPage.MatchesSearch | src/components/pages/Clients.jsx:94-96 | corrected behaviour (see Findings): an empty term matches every client, a name match is enough, and every as-written match is still a match |
| ClientsPage.EmptySearchKeepsAll | src/components/pages/Clients.jsx:93-97 | an empty search shows every client, in order |
| ClientsPage.KeepAll | src/components/pages/Clients.jsx:93-97 | filtering by a predicate every element meets returns the list unchanged |
| ClientsPage.SearchAsWrittenMissesName | src/components/pages/Clients.jsx:94 | the search as written misses a client found only by its name |
| ClientsPage.AfterDelete | src/components/pages/Clients.jsx:56-68 | corrected behaviour (see Findings): when the delete reports a deleted record, the list is `RemoveById` of the old one; otherwise it is unchanged |
| ClientsPage.AfterDeleteAsWritten | src/components/pages/Clients.jsx:60-61 | as written, any delete that does not throw removes every client with that `Id`; a thrown delete leaves the list unchanged |
| ClientsPage.DeleteToastAsWritten | src/components/pages/Clients.jsx:58-65 | as written, the success toast is shown exactly when the delete did not throw |
| ClientsPage.DeleteToast | src/components/pages/Clients.jsx:58-65 | corrected behaviour (see Findings): the success toast is shown exactly when the delete reports a deleted record |
| ClientsPage.DeleteAsWrittenDropsUndeletedClient | src/components/pages/Clients.jsx:60-62 | as written, a delete that returns `false` still removes the row and toasts success; the corrected handler keeps the row and toasts failure |
| ClientsPage.ToggleMenu | src/components/pages/Clients.jsx:70-73 | the row's menu ends open if and only if it was not the open one; otherwise no menu is open |
| ClientsPage.ClientsPageState.constructor | src/components/pages/Clients.jsx:18-24 | the initial state: no clients, loading, no error, empty search, modal closed, no menu open |
| ClientsPage.ClientsPageState.LoadClients | src/components/pages/Clients.jsx:26-38 | the clients become the fetched list; on failure, the error text and a toast, with the list kept; loading ends false |
| ClientsPage.ClientsPageState.HandleClientCreated | src/components/pages/Clients.jsx:40-42 | the new client is appended and the others are kept in order |
| ClientsPage.ClientsPageState.HandleClientUpdated | src/components/pages/Clients.jsx:44-48 | the list becomes `ReplaceById` of the old list |
| ClientsPage.ClientsPageState.HandleEditClient | src/components/pages/Clients.jsx:50-54 | the client is being edited, the modal opens and the menu closes |
| ClientsPage.ClientsPageState.HandleDeleteClient | src/components/pages/Clients.jsx:56-68 | corrected behaviour (see Findings): without confirmation nothing changes; otherwise the list is updated by `AfterDelete` and the toasts are the service's followed by `DeleteToast`; the menu always closes |
| ClientsPage.ClientsPageState.HandleMenuToggle | src/components/pages/Clients.jsx:70-73 | the open menu becomes `ToggleMenu` of the old one |
| ClientsPage.ClientsPageState.OpenModal | src/components/pages/Clients.jsx:142 | the modal opens |
| ClientsPage.ClientsPageState.CloseModal | src/components/pages/Clients.jsx:324-327 | the modal closes and no client is being edited |
| ClientsPage.ClientsPageState.SetSearchTerm | src/components/pages/Clients.jsx:158 | the search term becomes the typed text |
| ClientsPage.ClientsPageState.FilteredClients | src/components/pages/Clients.jsx:93-97 | corrected behaviour (see Findings): the shown clients are exactly the matching ones, in order and with their multiplicity; all of them when the term is empty |
| TaskModal.Set | src/components/molecules/TaskModal.jsx:93-99 | the named field takes the value; every other field keeps its own |
| TaskModal.SubmitGuard | src/components/molecules/TaskModal.jsx:43-56 | a blank title, then a missing project, then a missing due date, each named by its own message; none fails exactly when all three are present |
| TaskModal.TaskDataOf | src/components/molecules/TaskModal.jsx:61-68 | the title is trimmed; `projectId` and `project_id` are both `parseInt` of the form's project id |
| TaskModal.SubmittedRecord | src/components/molecules/TaskModal.jsx:61-70 | the record a submitted form sends has `Name` and `title` equal to the trimmed title, the parsed project, no time and no tags |
| TaskModal.TaskModalState.constructor | src/components/molecules/TaskModal.jsx:11-18 | the form starts empty, with priority "medium" and status "todo" |
| TaskModal.TaskModalState.HandleChange | src/components/molecules/TaskModal.jsx:93-99 | only the named field changes |
| TaskModal.TaskModalState.HandleClose | src/components/molecules/TaskModal.jsx:82-91 | the form returns to its initial values |
| TaskModal.TaskModalState.HandleSubmit | src/components/molecules/TaskModal.jsx:40-80 | a failing guard shows its message and changes nothing; otherwise the task record is sent, the service's toasts come first, and success or failure is toasted; on success the form resets, on failure it is kept; loading ends false |

## Left out

- The backend SDK and the network. The response envelope is an input of every service function, and the request parameters (selected fields, table names, credentials) are not modelled.
- Toasts and console output as I/O. Notifications are the returned `notices` sequences, and console logging is dropped.
- The current time (`Date.now()`, `new Date().toISOString()`) is a parameter.
- `window.confirm` is the `confirmed` parameter of `HandleDeleteClient`. The submit callback of the project form is its `Outcome` parameter.
- Asynchrony. Each handler runs to completion, and the interleaving of React state updates is not modelled.
- The task service's timer stubs (`startTaskTimer`, `stopTaskTimer`, `getTaskTimeLogs`) are mocks built on timers, so there is nothing to model.
- `TaskModal`'s `loadProjects` and the project list it fills only feed the select box.
- The document click listener that closes the client menu, row navigation, the `mailto:` action, rendering and animation.
- Records of other services used only for display (`getAllProjects`) are not part of this model.
- `JsNumbers.ParseInt` reads decimal digits only. It does not model hexadecimal `0x` text or numbers beyond safe-integer precision.
- `JsNumbers.ParseFloat` does not model exponents or `Infinity`.
- Loosely typed values are whole numbers or text (`JsNumbers.Scalar`). Fractional numbers passed as ids, and a string `amount` for invoices, are not modelled.
- `JsText.Lower` folds ASCII letters only, not full Unicode case mapping.
- `ProjectModal.DateKey` accepts days 1–31 in every month and does not model calendar roll-over (`2024-02-31`) or date-time text.
- InvoiceService.MarkInvoiceAsPaid: `new Date(paymentDate).toISOString()` (src/services/api/invoiceService.js:254) runs before `updateInvoice` checks the id, and it throws a `RangeError` for a payment date that is not a valid date. The model passes the text through and does not model that exception.
- `InvoiceService.InvoiceUpdatePayload`: the payment date is sent as given. Its `toISOString` normalisation is not modelled, nor the exception an invalid date raises there.
- `RecordAccess.ErrorText`: a `null` backend message, for which `new Error(null).message` is "null", is not modelled. `None` stands for an `undefined` message.
- `InvoiceService.UpdateInvoiceError`: a `null` amount, which fails `amount <= 0`, is not modelled. `None` stands for `undefined`.
- `ProjectModal.FormFor`: numeric `budget` and `client_id` values from the backend are taken as their text, so a numeric 0 is not distinguished from "0".
- `ProjectModal.ProjectDataOf`: a client id that parses to `NaN` and an empty one are both `None`, where the code yields `NaN` and `null`. Validation rules out the empty case before submit.
- ClientsPage.ClientsPageState.HandleDeleteClient: models the corrected handler of the second finding (`AfterDelete`, `DeleteToast`). The code as written removes the row and toasts success whenever the delete does not throw; that behaviour is `AfterDeleteAsWritten` and `DeleteToastAsWritten`.
- ClientsPage.ClientsPageState.FilteredClients: models the corrected search of the first finding, over `Name`. The code as written reads `client.name`; that behaviour is `MatchesSearchAsWritten`.
- `TaskService.CreateTask` and the other writes: a successful result without `data` is not modelled. Every `Succeeded` entry carries its record.

## Findings

| source | as written | input that shows it | evidently intended | confidence | as-written member | corrected member |
|---|---|---|---|---|---|---|
| src/components/pages/Clients.jsx:94 | the search reads `client.name`, but stored clients carry `Name`, so the name part of the search never matches | a client named "Acme" with no email or company, searched for "acme", is not shown | search the name the page displays (`Name`) | high; not executed | ClientsPage.SearchAsWrittenMissesName | ClientsPage.Filtered |
| src/components/pages/Clients.jsx:60-62 | `handleDeleteClient` ignores the boolean `deleteClient` returns, so a delete that removed nothing still removes the row and toasts success | top-level success with one failed result (`Record is locked`): `deleteClient` returns `false`, the row disappears and "Client deleted successfully" is shown | remove the row and toast success only when the delete reports `true`; otherwise toast "Failed to delete client" | high; not executed | ClientsPage.DeleteAsWrittenDropsUndeletedClient | ClientsPage.AfterDelete |
