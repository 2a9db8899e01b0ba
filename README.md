# Appointment lifecycle of the CarePulse clinic booking app

This project models the part of the clinic booking application that has
rules: the appointment status lifecycle and its bookkeeping.

- **Server actions** (`AppointmentActions`, `appointment_actions.dfy`):
  - `getRecentAppointmentsList`: a loop that counts the listed appointment
    documents by status literal (`scheduled`, `pending`, `cancelled`). It
    returns the counts with the store's own total and the documents unchanged.
  - `createAppointment`, `getAppointment` and `sendSmsNotification`: wrappers
    that turn a store or messaging error into `undefined`.
  - `updateAppointment`: writes the patch, then sends either a scheduling
    confirmation or a cancellation notice by SMS. A failed SMS does not undo
    the write.
- **Appointment form** (`AppointmentForms`, `appointment_form.dfy`):
  - derives the status from the way the form was opened (`create`,
    `schedule` or `cancel`);
  - builds either a create request or an update request;
  - computes default values and the button label;
  - keeps its state in a class. On submit it sets the submit button's
    `isLoading` flag, the surrounding dialog's `open` flag, the field values
    and the page it navigates to.
- `Wrappers` (`wrappers.dfy`) holds `Option`. `None` stands for `undefined`
  or any falsy value.

The hosted document store and the SMS service are oracles. Each call's
outcome is a parameter, `Reply<T> = Threw | Returned(Option<T>)`, so a falsy
reply is `Returned(None)`. Each action also reports the calls it issued:
`SendSmsNotification` returns the single `Call` it made, and the other
actions return the list of `Call`s. Contracts can therefore say what was
sent to the store and whether an SMS was attempted. `OnSubmit` has one more
parameter, `Delivery`. It says whether the client-side promise of the
server-action call resolved or rejected.

Behaviour of the code worth knowing, as the model states it:

- **The loading flag.** `setIsLoading(false)` runs only in the `catch` of
  `onSubmit` (components/forms/AppointmentForm.tsx:110-112). Both actions
  swallow store errors and return `undefined`, so a failed save leaves
  `isLoading` raised. Only a rejected server-action call lowers it.
  `OnSubmit` states `isLoading <==> delivery == Delivered`.
- **The dashboard total.** `totalCount` is copied from the store's `total`
  (lib/actions/appointment.actions.ts:51); it is not computed from the
  documents. `CountersMatchTotalIff` shows that, when every status is known,
  the counters add up to `totalCount` exactly when the store's total equals
  the number of documents returned.
- **The cancellation reason.** `updateAppointment` does not check that a
  cancellation reason is present. The template literal renders an absent
  reason as the text `undefined` (`Render`).
- **A create form without a patient id.** Such a form takes the update path.
  It writes status `pending` and sends the cancellation text
  (`UpdateNoticeMatchesStatus`).

## Model

| member | source | states |
|---|---|---|
| `AppointmentActions.Status.Literal` | lib/actions/appointment.actions.ts:39-45 | every status the app writes is one of the three literals the dashboard counts |
| `AppointmentActions.CountWithStatus` | lib/actions/appointment.actions.ts:38-47 | the number of documents with a given status never exceeds the number of documents, and is zero exactly when no document has that status |
| `AppointmentActions.TallyBound` | lib/actions/appointment.actions.ts:38-47 | the three counters add up to at most the number of documents, with equality exactly when every status is one of the three literals |
| `AppointmentActions.TallyAppend` | lib/actions/appointment.actions.ts:39-46 | one more document raises only the counter its status names, by one; an unrecognised status raises none |
| `AppointmentActions.CountStatuses` | lib/actions/appointment.actions.ts:32-47 | the counting loop: counters start at zero, and the result equals the per-literal counts of the documents, bounded by their number |
| `AppointmentActions.Summary` | lib/actions/appointment.actions.ts:49-53 | `totalCount` is the store's total and `documents` is the store's list, untouched; the counters' sum is bounded by the document count |
| `AppointmentActions.CountersMatchTotalIff` | lib/actions/appointment.actions.ts:49-53 | with all statuses known, the counters add up to `totalCount` exactly when the store's total equals the number of documents returned |
| `AppointmentActions.GetRecentAppointmentsList` | lib/actions/appointment.actions.ts:28-60 | issues one listing ordered by `$createdAt` descending; a thrown or falsy listing gives undefined; otherwise it gives the summary, with the documents in the store's order |
| `AppointmentActions.CreateAppointment` | lib/actions/appointment.actions.ts:11-19 | passes the data to the store unchanged; a store error gives undefined, otherwise the created record |
| `AppointmentActions.GetAppointment` | lib/actions/appointment.actions.ts:21-26 | asks the store for the given id; a store error gives undefined, otherwise the record |
| `AppointmentActions.SendSmsNotification` | lib/actions/appointment.actions.ts:86-94 | sends the content to exactly the given user, with no topics; a messaging error is swallowed and gives undefined |
| `AppointmentActions.SmsMessage` | lib/actions/appointment.actions.ts:68-75 | the body opens with the greeting; it is the scheduling confirmation exactly when the kind is `schedule` and the cancellation notice exactly when it is not |
| `AppointmentActions.SmsMessageNames` | lib/actions/appointment.actions.ts:68-75 | the confirmation has the formatted date-time right after its lead and names "Dr." plus the physician; every other body has the cancellation reason right after the cancellation lead (rendered as "undefined" when absent) |
| `AppointmentActions.UpdateAppointment` | lib/actions/appointment.actions.ts:62-84 | the store update is always issued first; a thrown or falsy update gives undefined and no SMS; otherwise exactly one SMS goes to the user and the updated record is returned whatever the SMS outcome |
| `AppointmentForms.DeriveStatus` | components/forms/AppointmentForm.tsx:52-66 | `schedule` maps to `scheduled` and `cancel` to `cancelled`, each both ways; every other kind maps to `pending` |
| `AppointmentForms.BuildRequest` | components/forms/AppointmentForm.tsx:70-101 | creates exactly when the kind is `create` and the patient id is non-empty; a create request copies the inputs and has status `pending`; an update request carries the derived status, the edited appointment's `$id` and the kind |
| `AppointmentForms.DefaultValues` | components/forms/AppointmentForm.tsx:40-46 | defaults come from the edited appointment when there is one, otherwise empty strings and the current time; note and cancellation reason are never undefined |
| `AppointmentForms.ButtonLabel` | components/forms/AppointmentForm.tsx:116-130 | each kind has its own label, "Cancel", "Create" or "Schedule" followed by " Appointment" |
| `AppointmentForms.WrittenStatusesAreCounted` | components/forms/AppointmentForm.tsx:52-66 | documents whose statuses were derived by the form are all counted, so the counters add up to the number of documents |
| `AppointmentForms.UpdateNoticeMatchesStatus` | components/forms/AppointmentForm.tsx:90-101 | for an update the form sends, the SMS is the scheduling confirmation exactly when the written status is `scheduled`, and otherwise quotes the entered cancellation reason |
| `AppointmentForms.AppointmentForm.constructor` | components/forms/AppointmentForm.tsx:34-47 | a new form starts with its default values and `isLoading` false |
| `AppointmentForms.AppointmentForm.Fill` | components/forms/AppointmentForm.tsx:144-207 | editing the fields replaces the form values and nothing else |
| `AppointmentForms.AppointmentForm.OnSubmit` | components/forms/AppointmentForm.tsx:49-114 | the request built is the one `BuildRequest` describes, and when the call is delivered the first store call carries exactly that payload (so the stored status is the derived one), followed by the SMS for an update the store saved; `isLoading` ends true unless the call rejected; a saved update closes the dialog; a saved booking navigates to the success page; either resets the fields; nothing else changes |

## Left out

- The store's and the messaging service's own behaviour (`createDocument`,
  `getDocument`, `updateDocument`, `listDocuments`, `createSms`) is not
  modelled. Each reply is a parameter, so the model does not say what the
  store holds.
- `GetAppointment` does not state that two reads with no update in between
  are equal. That depends on the store's state, which is an oracle here.
- `GetRecentAppointmentsList` does not sort. The store does the ordering by
  `$createdAt`. The model records the query and proves that the documents
  are passed through unchanged.
- `ID.unique()` is not modelled. New document and message ids come from the
  store.
- `parseStringify` is taken as the identity.
- `formatDateTime(...).dateTime` is a function parameter (`dateTime`).
  lib/utils is not part of this model.
- `Date.now()` and `new Date(...)` are not modelled. The time is the
  parameter `now`, and schedules are an abstract `Timestamp` with no
  conversion.
- `revalidatePath('/admin')` and `console.log` / `console.error` are
  framework side effects and diagnostics.
- The validation schemas (`CreateAppointmentSchema`) are not part of this
  model. lib/validation is not shown, so submitted values are taken as they
  come.
- `OnSubmit`: when the server-action call rejects, the model does not say
  whether the server side ran. Its `calls` are stated only for a delivered
  call; for a rejected one only the client's state is stated.
- `setOpen && setOpen(false)`: the model treats the dialog's `open` flag as
  always present.
- `form.reset()` is modelled as restoring the default values.
  `router.push` is modelled as setting `location`.
- Rendering is not modelled. This covers which fields each kind shows,
  button styling, and the registration, patient, table, modal and admin page
  components. They only pass values through.
