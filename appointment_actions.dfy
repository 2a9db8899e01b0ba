/**
 * The appointment server actions: the status summary shown on the admin
 * dashboard, and the create / get / update / notify wrappers around the
 * hosted document store and SMS service.
 *
 * The store and the messaging service are oracles: each call's outcome is a
 * parameter (`Reply`), and every action also returns the calls it issued
 * (`Call`: the single call for SendSmsNotification, a list for the others),
 * so that "no SMS is sent" is something a contract can say.
 */
module AppointmentActions {
  import opened Wrappers

  /** An abstract date-time; formatting and parsing are not modelled. */
  type Timestamp = int

  const ScheduledLiteral: string := "scheduled"
  const PendingLiteral: string := "pending"
  const CancelledLiteral: string := "cancelled"

  /** The attribute the recent-appointments query orders by, descending. */
  const CreatedAtAttribute: string := "$createdAt"

  /** The three statuses the application itself ever writes. */
  datatype Status = Scheduled | Pending | Cancelled {

    /** The string literal stored in a document's `status` attribute. */
    function Literal(): (lit: string)
      ensures IsKnownStatus(lit)
    {
      match this
      case Scheduled => ScheduledLiteral
      case Pending => PendingLiteral
      case Cancelled => CancelledLiteral
    }
  }

  predicate IsKnownStatus(lit: string) {
    lit == ScheduledLiteral || lit == PendingLiteral || lit == CancelledLiteral
  }

  /** The three ways the appointment form is opened. */
  datatype FormType = Create | Cancel | Schedule

  /**
   * An appointment document as the store returns it (`$id` and `$createdAt`
   * are the store's own attributes). The store may hold any string as status.
   */
  datatype Appointment = Appointment(
    id: string,
    createdAt: Timestamp,
    userId: string,
    patient: string,
    primaryPhysician: string,
    schedule: Timestamp,
    status: string,
    reason: string,
    note: Option<string>,
    cancellationReason: Option<string>)

  /** The data a new appointment document is created from. */
  datatype CreateAppointmentParams = CreateAppointmentParams(
    userId: string,
    patient: string,
    primaryPhysician: string,
    schedule: Timestamp,
    reason: string,
    note: Option<string>,
    status: Status)

  /** The attributes an update writes into an existing document. */
  datatype AppointmentPatch = AppointmentPatch(
    primaryPhysician: string,
    schedule: Timestamp,
    status: Status,
    cancellationReason: Option<string>)

  /** `appointmentId` is None when the form had no appointment to update. */
  datatype UpdateAppointmentParams = UpdateAppointmentParams(
    userId: string,
    appointmentId: Option<string>,
    appointment: AppointmentPatch,
    kind: FormType)

  /** What `listDocuments` answers: one page of documents and the store's own total. */
  datatype DocumentList = DocumentList(documents: seq<Appointment>, total: nat)

  datatype Message = Message(id: string)

  /** An oracle call's outcome: it threw, or it returned a value (None for a falsy one). */
  datatype Reply<T> = Threw | Returned(value: Option<T>)

  /** A call issued to the document store or to the messaging service. */
  datatype Call =
    | CreateDocument(data: CreateAppointmentParams)
    | GetDocument(documentId: string)
    | ListDocuments(orderDesc: string)
    | UpdateDocument(targetId: Option<string>, patch: AppointmentPatch)
    | CreateSms(content: string, topics: seq<string>, users: seq<string>)

  /** What a swallow-and-log wrapper hands back: a thrown error becomes undefined. */
  function Persisted<T>(reply: Reply<T>): Option<T> {
    match reply
    case Threw => None
    case Returned(v) => v
  }

  // ---------------------------------------------------------------------------
  // Status summary

  datatype StatusCounts = StatusCounts(scheduledCount: nat, pendingCount: nat, cancelledCount: nat)

  datatype AppointmentsSummary = AppointmentsSummary(
    scheduledCount: nat,
    pendingCount: nat,
    cancelledCount: nat,
    totalCount: nat,
    documents: seq<Appointment>)

  function Total(c: StatusCounts): nat {
    c.scheduledCount + c.pendingCount + c.cancelledCount
  }

  /** The number of documents whose status attribute is exactly `literal`. */
  function CountWithStatus(docs: seq<Appointment>, literal: string): (n: nat)
    ensures n <= |docs|
    ensures n == 0 <==> forall i :: 0 <= i < |docs| ==> docs[i].status != literal
  {
    if docs == [] then 0
    else
      CountWithStatus(docs[..|docs| - 1], literal)
        + (if docs[|docs| - 1].status == literal then 1 else 0)
  }

  /** The per-status counts of a list of documents: the reference for the counting loop. */
  function Tally(docs: seq<Appointment>): StatusCounts {
    StatusCounts(
      CountWithStatus(docs, ScheduledLiteral),
      CountWithStatus(docs, PendingLiteral),
      CountWithStatus(docs, CancelledLiteral))
  }

  /**
   * The counters can only account for documents whose status is one of the
   * three literals: their sum never exceeds the number of documents, and
   * reaches it exactly when every status is recognised.
   */
  lemma {:induction false} TallyBound(docs: seq<Appointment>)
    ensures Total(Tally(docs)) <= |docs|
    ensures Total(Tally(docs)) == |docs| <==> forall i :: 0 <= i < |docs| ==> IsKnownStatus(docs[i].status)
  {
    if docs != [] {
      var init, last := docs[..|docs| - 1], docs[|docs| - 1];
      TallyBound(init);
      assert init + [last] == docs;
      TallyAppend(init, last);
      AllKnownSplit(init, last);
    }
  }

  lemma AllKnownSplit(init: seq<Appointment>, last: Appointment)
    ensures (forall i :: 0 <= i < |init + [last]| ==> IsKnownStatus((init + [last])[i].status))
        <==> (forall i :: 0 <= i < |init| ==> IsKnownStatus(init[i].status)) && IsKnownStatus(last.status)
  {
    var docs := init + [last];
    if forall i :: 0 <= i < |docs| ==> IsKnownStatus(docs[i].status) {
      assert docs[|init|] == last;
      forall i | 0 <= i < |init| ensures IsKnownStatus(init[i].status) {
        assert docs[i] == init[i];
      }
    }
  }

  /**
   * Appending one document increments at most one counter: the one whose
   * literal equals its status, and none when the status is unrecognised.
   */
  lemma TallyAppend(docs: seq<Appointment>, d: Appointment)
    ensures var before, after := Tally(docs), Tally(docs + [d]);
      && after.scheduledCount == before.scheduledCount + (if d.status == ScheduledLiteral then 1 else 0)
      && after.pendingCount == before.pendingCount + (if d.status == PendingLiteral then 1 else 0)
      && after.cancelledCount == before.cancelledCount + (if d.status == CancelledLiteral then 1 else 0)
      && Total(after) == Total(before) + (if IsKnownStatus(d.status) then 1 else 0)
  {
  }

  /**
   * The reducer over the listed documents: three counters start at zero and
   * each document bumps the counter its status selects, if any.
   */
  method CountStatuses(docs: seq<Appointment>) returns (counts: StatusCounts)
    ensures counts == Tally(docs)
    ensures Total(counts) <= |docs|
  {
    var scheduledCount, pendingCount, cancelledCount := 0, 0, 0;
    for i := 0 to |docs|
      invariant StatusCounts(scheduledCount, pendingCount, cancelledCount) == Tally(docs[..i])
    {
      TallyAppend(docs[..i], docs[i]);
      assert docs[..i] + [docs[i]] == docs[..i + 1];
      var appointment := docs[i];
      if appointment.status == ScheduledLiteral {
        scheduledCount := scheduledCount + 1;
      } else if appointment.status == PendingLiteral {
        pendingCount := pendingCount + 1;
      } else if appointment.status == CancelledLiteral {
        cancelledCount := cancelledCount + 1;
      }
    }
    assert docs[..|docs|] == docs;
    counts := StatusCounts(scheduledCount, pendingCount, cancelledCount);
    TallyBound(docs);
  }

  /** The dashboard data built from one store listing. */
  function Summary(list: DocumentList): (s: AppointmentsSummary)
    ensures s.totalCount == list.total
    ensures s.documents == list.documents
    ensures s.scheduledCount + s.pendingCount + s.cancelledCount <= |list.documents|
  {
    var c := Tally(list.documents);
    TallyBound(list.documents);
    AppointmentsSummary(c.scheduledCount, c.pendingCount, c.cancelledCount, list.total, list.documents)
  }

  /**
   * `totalCount` is the store's figure, not a count of the documents: when
   * every status is recognised, the counters add up to `totalCount` exactly
   * when the store's total equals the number of documents it returned.
   */
  lemma CountersMatchTotalIff(list: DocumentList)
    requires forall i :: 0 <= i < |list.documents| ==> IsKnownStatus(list.documents[i].status)
    ensures var s := Summary(list);
      s.scheduledCount + s.pendingCount + s.cancelledCount == s.totalCount <==> list.total == |list.documents|
  {
    TallyBound(list.documents);
  }

  /**
   * Lists the appointments newest first and summarises them. Any failure,
   * including a falsy listing, yields undefined.
   */
  method GetRecentAppointmentsList(store: Reply<DocumentList>)
    returns (r: Option<AppointmentsSummary>, calls: seq<Call>)
    ensures calls == [ListDocuments(CreatedAtAttribute)]
    ensures r.Some? <==> Persisted(store).Some?
    ensures r.Some? ==> r.value == Summary(Persisted(store).value)
  {
    calls := [ListDocuments(CreatedAtAttribute)];
    match store {
      case Threw =>
        r := None;
      case Returned(None) =>
        r := None;
      case Returned(Some(appointments)) =>
        var counts := CountStatuses(appointments.documents);
        r := Some(AppointmentsSummary(
          counts.scheduledCount, counts.pendingCount, counts.cancelledCount,
          appointments.total, appointments.documents));
    }
  }

  // ---------------------------------------------------------------------------
  // Create, get, notify, update

  method CreateAppointment(data: CreateAppointmentParams, store: Reply<Appointment>)
    returns (r: Option<Appointment>, calls: seq<Call>)
    ensures calls == [CreateDocument(data)]
    ensures store.Threw? ==> r.None?
    ensures store.Returned? ==> r == store.value
  {
    calls := [CreateDocument(data)];
    match store {
      case Threw => r := None;
      case Returned(created) => r := created;
    }
  }

  method GetAppointment(appointmentId: string, store: Reply<Appointment>)
    returns (r: Option<Appointment>, calls: seq<Call>)
    ensures calls == [GetDocument(appointmentId)]
    ensures store.Threw? ==> r.None?
    ensures store.Returned? ==> r == store.value
  {
    calls := [GetDocument(appointmentId)];
    match store {
      case Threw => r := None;
      case Returned(found) => r := found;
    }
  }

  /** Sends `content` to one user, by user id only; a failure is swallowed. */
  method SendSmsNotification(userId: string, content: string, messaging: Reply<Message>)
    returns (r: Option<Message>, call: Call)
    ensures call == CreateSms(content, [], [userId])
    ensures messaging.Threw? ==> r.None?
    ensures messaging.Returned? ==> r == messaging.value
  {
    call := CreateSms(content, [], [userId]);
    match messaging {
      case Threw => r := None;
      case Returned(message) => r := message;
    }
  }

  const Greeting: string := "\n      Hi this is CarePulse,\n      "
  const Closing: string := "\n    "
  const ScheduledLead: string := "your appointment has been scheduled "
  // One sentence of the template, joined from three literals only so that the verifier can index into it.
  const CancelledLead: string :=
    "We regret to inform you that " + "your appointment has been " + "cancelled for the following reason: "

  /** How a template literal renders an optional string: an absent one prints as "undefined". */
  function Render(s: Option<string>): string {
    s.GetOr("undefined")
  }

  /** `s` occurs somewhere in `body`. */
  ghost predicate Mentions(body: string, s: string) {
    exists k :: 0 <= k <= |body| - |s| && body[k..][..|s|] == s
  }

  /** The message is the scheduling confirmation (its text after the greeting opens with ScheduledLead). */
  predicate AnnouncesSchedule(body: string) {
    |Greeting| + |ScheduledLead| <= |body| && body[|Greeting|..][..|ScheduledLead|] == ScheduledLead
  }

  /** The message is the cancellation notice (its text after the greeting opens with CancelledLead). */
  predicate AnnouncesCancellation(body: string) {
    |Greeting| + |CancelledLead| <= |body| && body[|Greeting|..][..|CancelledLead|] == CancelledLead
  }

  /**
   * The SMS body an update sends: the scheduling confirmation for `schedule`,
   * the cancellation notice for every other kind. `dateTime` stands for the
   * date-time formatter.
   */
  function SmsMessage(kind: FormType, patch: AppointmentPatch, dateTime: Timestamp -> string): (body: string)
    ensures |Greeting| <= |body| && body[..|Greeting|] == Greeting
    ensures AnnouncesSchedule(body) <==> kind == Schedule
    ensures AnnouncesCancellation(body) <==> kind != Schedule
  {
    var notice :=
      if kind == Schedule then
        ScheduledLead + dateTime(patch.schedule) + " with Dr." + patch.primaryPhysician
      else
        CancelledLead + Render(patch.cancellationReason);
    assert (Greeting + notice + Closing)[|Greeting|..] == notice + Closing;
    assert kind != Schedule ==> (notice + Closing)[0] == 'W' != ScheduledLead[0];
    assert kind == Schedule ==> (notice + Closing)[0] == 'y' != CancelledLead[0];
    assert kind != Schedule ==> (notice + Closing)[..|CancelledLead|] == CancelledLead;
    Greeting + notice + Closing
  }

  /**
   * The scheduling confirmation names the formatted date-time right after
   * its lead, and the physician; every other message is the cancellation
   * notice, with the cancellation reason right after its lead.
   */
  lemma SmsMessageNames(kind: FormType, patch: AppointmentPatch, dateTime: Timestamp -> string)
    ensures kind == Schedule ==>
      var body, when := SmsMessage(kind, patch, dateTime), dateTime(patch.schedule);
      && |Greeting| + |ScheduledLead| + |when| <= |body|
      && body[|Greeting| + |ScheduledLead|..][..|when|] == when
      && Mentions(body, when)
      && Mentions(body, "Dr." + patch.primaryPhysician)
    ensures kind != Schedule ==>
      var body, reason := SmsMessage(kind, patch, dateTime), Render(patch.cancellationReason);
      && |Greeting| + |CancelledLead| + |reason| <= |body|
      && body[|Greeting| + |CancelledLead|..][..|reason|] == reason
      && Mentions(body, reason)
  {
    var body := SmsMessage(kind, patch, dateTime);
    if kind == Schedule {
      var when := dateTime(patch.schedule);
      var doctor := "Dr." + patch.primaryPhysician;
      var k := |Greeting| + |ScheduledLead|;
      assert body == Greeting + ScheduledLead + when + " with " + doctor + Closing;
      assert body[k..][..|when|] == when;
      var m := k + |when| + |" with "|;
      assert body[m..][..|doctor|] == doctor;
    } else {
      var reason := Render(patch.cancellationReason);
      var k := |Greeting| + |CancelledLead|;
      assert body == Greeting + CancelledLead + reason + Closing;
      assert body[k..][..|reason|] == reason;
    }
  }

  /**
   * Writes the patch, then notifies the requesting user. A thrown or falsy
   * update yields undefined and sends nothing; a failed SMS is swallowed and
   * the updated record is returned all the same, with no rollback.
   */
  method UpdateAppointment(
    params: UpdateAppointmentParams,
    store: Reply<Appointment>,
    messaging: Reply<Message>,
    dateTime: Timestamp -> string)
    returns (r: Option<Appointment>, calls: seq<Call>)
    ensures r == Persisted(store)
    ensures |calls| >= 1 && calls[0] == UpdateDocument(params.appointmentId, params.appointment)
    ensures r.None? ==> |calls| == 1
    ensures r.Some? ==> calls == [
      UpdateDocument(params.appointmentId, params.appointment),
      CreateSms(SmsMessage(params.kind, params.appointment, dateTime), [], [params.userId])]
  {
    calls := [UpdateDocument(params.appointmentId, params.appointment)];
    if store.Threw? || store.value.None? {
      r := None;
      return;
    }
    var updatedAppointment := store.value.value;
    var smsMessage := SmsMessage(params.kind, params.appointment, dateTime);
    var _, call := SendSmsNotification(params.userId, smsMessage, messaging);
    calls := calls + [call];
    r := Some(updatedAppointment);
  }
}
