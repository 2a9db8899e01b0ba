/**
 * The appointment form: the status it derives from the way it was opened,
 * the request it sends on submit (create or update), its default values, its
 * button label, and the two UI flags the submit changes.
 */
module AppointmentForms {
  import opened Wrappers
  import opened AppointmentActions

  /** The form's field values (a submission carries no status of its own). */
  datatype FormValues = FormValues(
    primaryPhysician: string,
    schedule: Timestamp,
    reason: string,
    note: Option<string>,
    cancellationReason: Option<string>)

  /** What a submit hands to the server actions. */
  datatype Request =
    | CreateRequest(data: CreateAppointmentParams)
    | UpdateRequest(params: UpdateAppointmentParams)

  /** Whether the server-action invocation resolved on the client or rejected. */
  datatype Delivery = Delivered | Rejected

  /** `schedule` becomes `scheduled`, `cancel` becomes `cancelled`, anything else `pending`. */
  function DeriveStatus(kind: FormType): (s: Status)
    ensures s == Scheduled <==> kind == Schedule
    ensures s == Cancelled <==> kind == Cancel
    ensures s == Pending <==> kind != Schedule && kind != Cancel
  {
    match kind
    case Schedule => Scheduled
    case Cancel => Cancelled
    case _ => Pending
  }

  /**
   * The request a submit builds. Only `create` with a non-empty patient id
   * creates; every other combination updates the appointment being edited.
   * The status written is always the derived one.
   */
  function BuildRequest(
    kind: FormType,
    userId: string,
    patientId: string,
    appointment: Option<Appointment>,
    values: FormValues): (r: Request)
    ensures r.CreateRequest? <==> kind == Create && patientId != ""
    ensures r.CreateRequest? ==> r.data == CreateAppointmentParams(
      userId, patientId, values.primaryPhysician, values.schedule, values.reason, values.note, Pending)
    ensures r.UpdateRequest? ==>
      && r.params.userId == userId
      && r.params.kind == kind
      && r.params.appointmentId == (if appointment.Some? then Some(appointment.value.id) else None)
      && r.params.appointment.status == DeriveStatus(kind)
      && r.params.appointment.primaryPhysician == values.primaryPhysician
      && r.params.appointment.schedule == values.schedule
      && r.params.appointment.cancellationReason == values.cancellationReason
  {
    var status := DeriveStatus(kind);
    if kind == Create && patientId != "" then
      CreateRequest(CreateAppointmentParams(
        userId, patientId, values.primaryPhysician, values.schedule, values.reason, values.note, status))
    else
      var appointmentId := match appointment case Some(a) => Some(a.id) case None => None;
      UpdateRequest(UpdateAppointmentParams(
        userId,
        appointmentId,
        AppointmentPatch(values.primaryPhysician, values.schedule, status, values.cancellationReason),
        kind))
  }

  /**
   * The form's initial values: the edited appointment's when there is one,
   * otherwise empty strings and the current time `now`. The note and the
   * cancellation reason are never left undefined.
   */
  function DefaultValues(appointment: Option<Appointment>, now: Timestamp): (v: FormValues)
    ensures v.note.Some? && v.cancellationReason.Some?
    ensures appointment.None? ==> v == FormValues("", now, "", Some(""), Some(""))
    ensures appointment.Some? ==>
      && v.primaryPhysician == appointment.value.primaryPhysician
      && v.schedule == appointment.value.schedule
      && v.reason == appointment.value.reason
      && v.note == Some(appointment.value.note.GetOr(""))
      && v.cancellationReason == Some(appointment.value.cancellationReason.GetOr(""))
  {
    match appointment
    case Some(a) =>
      FormValues(a.primaryPhysician, a.schedule, a.reason, Some(a.note.GetOr("")), Some(a.cancellationReason.GetOr("")))
    case None =>
      FormValues("", now, "", Some(""), Some(""))
  }

  const AppointmentSuffix: string := " Appointment"

  /** Each way of opening the form has its own label, naming the action it performs. */
  function ButtonLabel(kind: FormType): (caption: string)
    ensures |caption| > |AppointmentSuffix| && caption[|caption| - |AppointmentSuffix|..] == AppointmentSuffix
    ensures kind == Cancel <==> caption[..|caption| - |AppointmentSuffix|] == "Cancel"
    ensures kind == Create <==> caption[..|caption| - |AppointmentSuffix|] == "Create"
    ensures kind == Schedule <==> caption[..|caption| - |AppointmentSuffix|] == "Schedule"
  {
    var verb := match kind case Cancel => "Cancel" case Create => "Create" case Schedule => "Schedule";
    assert (verb + AppointmentSuffix)[..|verb|] == verb;
    verb + AppointmentSuffix
  }

  /** The page a successful booking navigates to. */
  function SuccessPath(userId: string, appointmentId: string): string {
    "/patients/" + userId + "/new-appointment/success?appointmentId=" + appointmentId
  }

  /**
   * Every status the form can write is one the dashboard counts, so a store
   * holding only documents written through this form has counters that add
   * up to the number of documents listed.
   */
  lemma {:induction false} WrittenStatusesAreCounted(docs: seq<Appointment>, kinds: seq<FormType>)
    requires |kinds| == |docs|
    requires forall i :: 0 <= i < |docs| ==> docs[i].status == DeriveStatus(kinds[i]).Literal()
    ensures Total(Tally(docs)) == |docs|
  {
    forall i | 0 <= i < |docs| ensures IsKnownStatus(docs[i].status) {
      assert IsKnownStatus(DeriveStatus(kinds[i]).Literal());
    }
    TallyBound(docs);
  }

  /**
   * For an update the form sends, the SMS is the scheduling confirmation
   * exactly when the written status is `scheduled`; otherwise it is the
   * cancellation notice quoting the reason entered, even when the status
   * written is `pending` (a `create` form without a patient id).
   */
  lemma UpdateNoticeMatchesStatus(
    kind: FormType,
    userId: string,
    patientId: string,
    appointment: Option<Appointment>,
    values: FormValues,
    dateTime: Timestamp -> string)
    requires BuildRequest(kind, userId, patientId, appointment, values).UpdateRequest?
    ensures var params := BuildRequest(kind, userId, patientId, appointment, values).params;
      var body := SmsMessage(params.kind, params.appointment, dateTime);
      && (AnnouncesSchedule(body) <==> params.appointment.status == Scheduled)
      && (params.appointment.status != Scheduled ==> Mentions(body, Render(values.cancellationReason)))
      && (params.appointment.status == Scheduled ==> Mentions(body, "Dr." + values.primaryPhysician))
  {
    var params := BuildRequest(kind, userId, patientId, appointment, values).params;
    SmsMessageNames(params.kind, params.appointment, dateTime);
  }

  /**
   * The form as mounted: how it was opened and for whom are fixed; its
   * field values, the loading flag of its submit button, the open flag of
   * the dialog around it and the page it navigated to change.
   */
  class AppointmentForm {
    const kind: FormType
    const userId: string
    const patientId: string
    const appointment: Option<Appointment>
    const defaults: FormValues

    var values: FormValues
    var isLoading: bool
    var open: bool
    var location: Option<string>

    constructor (kind: FormType, userId: string, patientId: string, appointment: Option<Appointment>, now: Timestamp, open: bool)
      ensures this.kind == kind && this.userId == userId && this.patientId == patientId
      ensures this.appointment == appointment
      ensures defaults == DefaultValues(appointment, now) && values == defaults
      ensures !isLoading && this.open == open && location.None?
    {
      this.kind := kind;
      this.userId := userId;
      this.patientId := patientId;
      this.appointment := appointment;
      defaults := DefaultValues(appointment, now);
      values := DefaultValues(appointment, now);
      isLoading := false;
      this.open := open;
      location := None;
    }

    /** The user edits the fields. */
    method Fill(v: FormValues)
      modifies this`values
      ensures values == v
    {
      values := v;
    }

    /**
     * Submits the current values. The loading flag is raised and is lowered
     * again only if the action call itself rejects; the actions swallow store
     * failures, so a failed save leaves it raised. A saved update closes the
     * dialog; a saved booking navigates to the success page; either resets
     * the fields. `calls` are the store and messaging calls the action made
     * for this submit.
     */
    method OnSubmit(
      delivery: Delivery,
      store: Reply<Appointment>,
      messaging: Reply<Message>,
      dateTime: Timestamp -> string)
      returns (sent: Request, calls: seq<Call>)
      modifies this`values, this`isLoading, this`open, this`location
      ensures sent == BuildRequest(kind, userId, patientId, appointment, old(values))
      ensures delivery == Delivered ==>
        && |calls| >= 1
        && calls[0] == (if sent.CreateRequest? then CreateDocument(sent.data)
                        else UpdateDocument(sent.params.appointmentId, sent.params.appointment))
        && (sent.CreateRequest? ==> |calls| == 1)
        && (sent.UpdateRequest? ==>
              calls[1..] == (if Persisted(store).Some?
                             then [CreateSms(SmsMessage(kind, sent.params.appointment, dateTime), [], [userId])]
                             else []))
      ensures isLoading <==> delivery == Delivered
      ensures var saved := delivery == Delivered && Persisted(store).Some?;
        && values == (if saved then defaults else old(values))
        && open == (if saved && sent.UpdateRequest? then false else old(open))
        && location == (if saved && sent.CreateRequest? then Some(SuccessPath(userId, Persisted(store).value.id)) else old(location))
    {
      isLoading := true;
      var status := DeriveStatus(kind);
      if kind == Create && patientId != "" {
        var appointmentData := CreateAppointmentParams(
          userId, patientId, values.primaryPhysician, values.schedule, values.reason, values.note, status);
        sent := CreateRequest(appointmentData);
        var created;
        created, calls := CreateAppointment(appointmentData, store);
        if delivery == Rejected {
          isLoading := false;
          return;
        }
        if created.Some? {
          values := defaults;
          location := Some(SuccessPath(userId, created.value.id));
        }
      } else {
        var appointmentId := match appointment case Some(a) => Some(a.id) case None => None;
        var appointmentToUpdate := UpdateAppointmentParams(
          userId,
          appointmentId,
          AppointmentPatch(values.primaryPhysician, values.schedule, status, values.cancellationReason),
          kind);
        sent := UpdateRequest(appointmentToUpdate);
        var updated;
        updated, calls := UpdateAppointment(appointmentToUpdate, store, messaging, dateTime);
        if delivery == Rejected {
          isLoading := false;
          return;
        }
        if updated.Some? {
          open := false;
          values := defaults;
        }
      }
    }
  }
}
