# Task board client: forms, validation, search, task list and auth store

A Dafny model of the sequential logic of a browser task board (React, zod,
zustand). The model covers these parts:

- **The task schema** and its single-field `validateField` helper. The schema accepts a name of 3 to 100 characters, a description of 5 to 500, one of the statuses `TODO`, `IN_PROGRESS` and `DONE`, and a due date that is non-empty and parses as a date. The same schema text appears three times in the repository. The model defines it once (`ValidationSchemas`), and both forms use that definition.
- **The task form hook and the create-task modal.** Each keeps form values, a field→message error map and a submitting flag. Typing validates the field live. Submitting validates the whole form, sends the request and then handles the outcome. Reset restores the initial values. The modal also has a rule that disables its submit button.
- **The register page's submit handler.** It checks that all fields are filled in and that the passwords match. It then makes two requests, shows the caught message on failure, manages the loading flag and calls the auth store's `login`.
- **The search hook.** It keeps the raw search term and the list of matches, with a debounced search that holds only the latest query.
- **The task list hook.** It covers how each fetch outcome affects the list, the status-change request, and which push events trigger a refetch.
- **The auth store.** This is a two-field login/logout state machine.

Every async handler is split at its first `await`:
- `BeginSubmit` is the synchronous part, up to the request it sends.
- `CompleteSubmit` is the rest, which runs once the response arrives.

Network replies are modelled as datatypes (`Response<T> = Ok | Unauthorized | Failed`, and the register page's own reply types). Stateful hooks and stores are classes whose methods state the whole new state. The pure logic is made of functions and lemmas.

The whole-form submit keeps the last message reported for a field. Live validation shows the first one. So an empty due date reads "Due date is required" while the user types, and "Invalid date format" after a submit (`EmptyDueDateLiveMessage`, `EmptyDueDateSubmitMessage`). This happens because both zod refinements on `due_date` run and both fail on `""`.

The code has no guard against stale responses, does not cancel a pending search when the box is cleared, and has no drag-and-drop reordering. The model follows the code:
- A fetch response that arrives late still replaces the list.
- Clearing the search box leaves an already scheduled search in place, and its response fills the matches again (`ClearingKeepsPendingSearch`).
- The auth store keeps no `user`, although its declared type lists one. `login` drops the user its caller passes.

## Model

| member | source | states |
|---|---|---|
| Types.StatusNamed | src/types/index.ts:6 | a string names a status only if it is that status's key; any other string names none |
| Types.StatusKeyRoundTrip | src/types/index.ts:6 | every status is recovered from its key string |
| ValidationSchemas.FieldNamed | src/utils/validationSchemas.ts:21 | `shape[name]` selects a field exactly when `name` is that field's key; any other name selects nothing |
| ValidationSchemas.WithField | src/hooks/useTaskForm.ts:91 | `{...prev, [name]: value}` sets the named field to the value and leaves the other three unchanged |
| ValidationSchemas.InvalidEnumMessage | src/utils/validationSchemas.ts:6 | zod's message for a status outside the enum is non-empty and ends with the received value in single quotes |
| ValidationSchemas.FieldIssues | src/utils/validationSchemas.ts:4-13 | a field reports no issue iff its rule accepts the value (name 3..100, description 5..500, status in the enum, due date non-empty and parseable); each issue message is non-empty; a value that is too short or too long gets the min or max message; a bad status gets the enum message; an empty due date gets "Due date is required" then "Invalid date format"; an unparseable non-empty due date gets "Invalid date format" |
| ValidationSchemas.FieldParseIssues | src/utils/validationSchemas.ts:21-22 | a single-field parse reports issues iff the rule rejects the value, and every issue names a schema field and has a message |
| ValidationSchemas.FormIssues | src/utils/validationSchemas.ts:3-14 | a whole-form parse reports no issue iff all four fields are accepted; every issue names a schema field and has a message |
| ValidationSchemas.FormIssuesAtField | src/utils/validationSchemas.ts:3-14 | the issues a whole-form parse reports at a field are exactly that field's own issues, in order |
| ValidationSchemas.Find | src/utils/validationSchemas.ts:26 | `find` on the path yields nothing iff no issue is at that path; otherwise it yields the message of an issue at that path with none at that path before it |
| ValidationSchemas.FindIsFirst | src/utils/validationSchemas.ts:26 | `find` on the path yields the first message reported at that path, or nothing if there is none |
| ValidationSchemas.LastIssueFor | src/hooks/useTaskForm.ts:74-80 | the overwriting loop leaves nothing at a key iff no issue is at that key; otherwise it leaves the message of an issue at that key with none at that key after it |
| ValidationSchemas.LastIssueForIsLast | src/hooks/useTaskForm.ts:74-80 | the overwriting loop leaves at a key the last message reported at that key |
| ValidationSchemas.ParseTask | src/hooks/useTaskForm.ts:52 | parsing succeeds iff every field is accepted; on success, the body carries the form's values with status as an enum value; on failure, it carries the non-empty whole-form issue list |
| ValidationSchemas.ValidateField | src/utils/validationSchemas.ts:19-33 | returns "" iff the name selects a field whose rule accepts the value; returns the field's first issue message on rejection; returns "Invalid input" for a name that selects no field |
| ValidationSchemas.EmptyDueDateLiveMessage | src/utils/validationSchemas.ts:7-13 | live validation of an empty due date shows "Due date is required" |
| ValidationSchemas.EmptyDueDateSubmitMessage | src/hooks/useTaskForm.ts:74-80 | after a whole-form submit with an empty due date, the error map holds "Invalid date format" for it, because the last issue wins |
| UseTaskForm.LiveErrors | src/hooks/useTaskForm.ts:30-45 | live validation sets only the validated entry: "" iff the value is accepted, otherwise the message. Every other entry is unchanged. A name that selects no field leaves the map as it was |
| UseTaskForm.LiveErrorsAgreesWithHelper | src/hooks/useTaskForm.ts:32-40 | the entry the hook writes equals what the shared `validateField` helper returns |
| UseTaskForm.CollectErrors | src/hooks/useTaskForm.ts:74-80 | the `forEach` builds a map with a key for every reported path, holding the last message reported there |
| UseTaskForm.TaskForm.constructor | src/hooks/useTaskForm.ts:21-28 | initial state: name, description and due date empty; status TODO; no errors; not submitting |
| UseTaskForm.TaskForm.ValidateField | src/hooks/useTaskForm.ts:30-45 | returns true iff the field accepts the value; the error map moves as LiveErrors says |
| UseTaskForm.TaskForm.HandleChange | src/hooks/useTaskForm.ts:89-93 | only the named field of the form changes, then that field is live-validated |
| UseTaskForm.TaskForm.BeginSubmit | src/hooks/useTaskForm.ts:47-86 | a request is sent iff the whole form is accepted, and then the flag stays set and the errors are unchanged; otherwise nothing is sent, the flag is cleared and the errors are replaced wholesale by the overwriting loop's map |
| UseTaskForm.TaskForm.CompleteSubmit | src/hooks/useTaskForm.ts:65-86 | an ok response resets the form, clears the errors and asks for onSuccess; a 401 or other failure leaves form and errors unchanged; the flag is false on every path |
| UseTaskForm.TaskForm.ResetForm | src/hooks/useTaskForm.ts:95-103 | the form returns to its initial values and the errors are emptied |
| CreateTaskForm.SubmitDisabled | src/components/dashboard/CreateTaskForm.tsx:211 | the button is disabled iff a submit is in flight or some error entry is non-empty; "" entries do not disable it |
| CreateTaskForm.RejectedSubmitDisables | src/components/dashboard/CreateTaskForm.tsx:96-103 | after a submit the schema rejected, the rebuilt error map disables the button |
| CreateTaskForm.CreateTaskForm.constructor | src/components/dashboard/CreateTaskForm.tsx:31-39 | same initial state as the hook |
| CreateTaskForm.CreateTaskForm.ValidateField | src/components/dashboard/CreateTaskForm.tsx:41-57 | returns true iff the field accepts the value; the error map moves as LiveErrors says |
| CreateTaskForm.CreateTaskForm.HandleChange | src/components/dashboard/CreateTaskForm.tsx:112-121 | only the named field changes, then it is live-validated, with other error entries left alone |
| CreateTaskForm.CreateTaskForm.BeginSubmit | src/components/dashboard/CreateTaskForm.tsx:59-109 | a request is sent iff the form is accepted; a rejection sends nothing and replaces the errors with the overwriting loop's map |
| CreateTaskForm.CreateTaskForm.CompleteSubmit | src/components/dashboard/CreateTaskForm.tsx:79-109 | an ok response resets the form and the errors, then calls onClose and then onTaskCreated; a 401 or other failure calls nothing and changes neither form nor errors; the flag is false on every path |
| AuthStore.AuthState.constructor | src/store/authStore.ts:8-9 | initially not authenticated and no token |
| AuthStore.AuthState.Login | src/store/authStore.ts:10 | authenticated, holding the given token; the last action is now this login |
| AuthStore.AuthState.Logout | src/store/authStore.ts:11 | not authenticated and no token, from any state; the last action is now logout |
| AuthStore.LoginLogoutRoundTrip | src/store/authStore.ts:8-11 | login then logout gives back the initial fields, and a second logout changes nothing |
| Register.PreCheck | src/components/page/Register.tsx:21-29 | "All fields are required" iff some field is empty. "Passwords do not match" iff all are filled but the passwords differ. No error iff all are filled and equal. The empty-field check takes precedence |
| Register.Shown | src/components/page/Register.tsx:77 | the caught message is shown if non-empty; an empty one shows "An error occurred during registration"; the result is never empty |
| Register.Submitted | src/components/page/Register.tsx:33-78 | login happens iff both the register and the user responses are ok, with the register response's token. A refused registration shows the server's message, or "Registration failed". A refused user fetch shows "Failed to fetch user data". A thrown error on either request (a network failure or a body that is not JSON) shows that error's message through the fallback rule. Every caught message is non-empty |
| Register.RegisterForm.constructor | src/components/page/Register.tsx:7-12 | all fields and the error empty; not loading |
| Register.RegisterForm.BeginSubmit | src/components/page/Register.tsx:19-31 | the error is cleared first; a request is sent iff both checks pass, and only then does loading start; a failed check shows its message |
| Register.RegisterForm.CompleteSubmit | src/components/page/Register.tsx:52-81 | on success the store is logged in with the token, the error is kept and the page navigates home; on failure the error is the caught message and the store is untouched; loading is false on every path |
| UseTaskSearch.TrimStart | src/hooks/useTaskSearch.ts:40 | removing leading white space leaves a suffix of the string after a blank prefix, and that suffix does not start with white space |
| UseTaskSearch.TrimEnd | src/hooks/useTaskSearch.ts:40 | removing trailing white space leaves a prefix of the string before a blank suffix, and that prefix does not end with white space |
| UseTaskSearch.Trim | src/hooks/useTaskSearch.ts:40 | `query.trim()` is a stretch of the query with only white space on either side, and it neither starts nor ends with white space |
| UseTaskSearch.TrimEmptyIffBlank | src/hooks/useTaskSearch.ts:40 | `query.trim()` is empty exactly when the query consists only of JavaScript white space |
| UseTaskSearch.TaskSearch.constructor | src/hooks/useTaskSearch.ts:7-8 | empty term, no matches, nothing pending |
| UseTaskSearch.TaskSearch.HandleSearch | src/hooks/useTaskSearch.ts:37-45 | the term is always the raw input. A blank query empties the matches at once and leaves any pending search in place. Any other query, untrimmed, becomes the one pending search |
| UseTaskSearch.TaskSearch.DebounceElapsed | src/hooks/useTaskSearch.ts:30-35 | when the delay passes, the pending query (if any) is searched and the slot empties |
| UseTaskSearch.TaskSearch.SearchCompleted | src/hooks/useTaskSearch.ts:10-28 | an ok response replaces the matches wholesale; any other outcome leaves them unchanged |
| UseTaskSearch.TypingCoalesces | src/hooks/useTaskSearch.ts:30-41 | typing "m", "mi", "mil", "milk" before the delay passes leads to exactly one search, for "milk" |
| UseTaskSearch.ClearingKeepsPendingSearch | src/hooks/useTaskSearch.ts:37-45 | clearing after typing does not cancel the pending search, whose response fills the matches again while the term is empty |
| UseTasks.Refetches | src/hooks/useTasks.ts:56-58 | a push message triggers fetchTasks iff it is task.updated, task.created or task.deleted on channel "tasks" |
| UseTasks.TaskBoard.constructor | src/hooks/useTasks.ts:8 | the task list starts empty |
| UseTasks.TaskBoard.FetchCompleted | src/hooks/useTasks.ts:11-31 | an ok response replaces the list wholesale; a 401 asks for /login and keeps the list; any other failure keeps it |
| UseTasks.TaskBoard.StatusChange | src/hooks/useTasks.ts:33-53 | the request body holds only `status`, as the status's key; the list is not modified whatever the outcome |

## Left out

- HTTP details are not modelled: URLs, headers, the bearer token read from the store, `credentials`, JSON encoding and `console.error` logging. Each call's result is a reply datatype.
- `new Date(val)` is a parameter of type `DateParser`. It is any predicate that rejects `""`, as the JavaScript engine does.
- The enum failure text is zod 3's default message. The zod version is not part of this model.
- Zod features beyond the rules listed above are not modelled.
- String length is modelled as sequence length. JavaScript counts UTF-16 code units, so a character outside the Basic Multilingual Plane counts as one here and as two there.
- ValidationSchemas.ValidateField: the helper takes a schema argument. The model fixes it to the task schema, the only schema in the repository.
- The lodash debounce timer is modelled as a pending slot that each call overwrites. `DebounceElapsed` stands for the 300 ms passing. No clock is modelled.
- Push subscription and unsubscription (Pusher) are not modelled. Only the table of events bound to a refetch is.
- The persist middleware and localStorage behind the auth store are not modelled.
- React rendering, batching and closures are not modelled. Handlers run one at a time on the current state. So the modal's `{...formData}` spread and the hook's functional update behave the same here.
- The modal's `isOpen` early return is markup only.
- The register page's input setters are not modelled as methods. They assign the page's fields directly.
- Navigation is a returned flag: `toLogin`, or `navigateHome`.
- Overlapping requests are not modelled. Responses are applied in the order the caller completes them, and no generation counter exists, because the code has none.
- Drag-and-drop reordering, due-date sorting and optimistic updates are not modelled, because the code has none of them.
- UseTasks.TaskBoard.StatusChange ignores the response it is given, since the code only logs a failure.
- Date display (`toLocaleDateString`), fixture data and presentational components are not modelled.
