/** The consultations component: the status badge colours, the booking
    dialog's validation and submission, and the grouping of consultations
    into pending, active and completed tabs. */
module ConsultationsContent {
  import opened Wrappers
  import opened Strings
  import opened SeqUtil

  const PENDING_COLOR := "bg-amber-500/10 text-amber-500"
  const ACCEPTED_COLOR := "bg-blue-500/10 text-blue-500"
  const IN_PROGRESS_COLOR := "bg-green-500/10 text-green-500"
  const CANCELLED_COLOR := "bg-red-500/10 text-red-500"
  /** The grey class of completed consultations, also the default. */
  const GREY := "bg-gray-500/10 text-gray-500"

  /** The five statuses the backend defines. */
  predicate KnownStatus(status: string) {
    status == "pending" || status == "accepted" || status == "in_progress"
    || status == "completed" || status == "cancelled"
  }

  /** `getStatusColor`: grey exactly for completed and unknown statuses, and a
      colour of its own for each other status. */
  function StatusColor(status: string): (r: string)
    ensures r == GREY <==> status == "completed" || !KnownStatus(status)
    ensures status == "pending" ==> r == PENDING_COLOR
    ensures status == "accepted" ==> r == ACCEPTED_COLOR
    ensures status == "in_progress" ==> r == IN_PROGRESS_COLOR
    ensures status == "cancelled" ==> r == CANCELLED_COLOR
  {
    if status == "pending" then PENDING_COLOR
    else if status == "accepted" then ACCEPTED_COLOR
    else if status == "in_progress" then IN_PROGRESS_COLOR
    else if status == "completed" then GREY
    else if status == "cancelled" then CANCELLED_COLOR
    else GREY
  }

  /** The colours of different statuses differ, completed and unknown ones apart. */
  lemma ColorsDistinguishStatuses(a: string, b: string)
    requires KnownStatus(a) && KnownStatus(b) && a != b
    ensures StatusColor(a) != StatusColor(b)
  {
    if a == "completed" || b == "completed" {
      assert StatusColor(a) != StatusColor(b);
    }
  }

  /** The booking dialog's state. */
  datatype BookingForm = BookingForm(open: bool, provider: string, consultationType: string, symptoms: string)

  /** The body `consultationsApi.create` receives. */
  datatype BookingRequest = BookingRequest(providerId: string, consultationType: string, symptoms: string)

  /** The outcome of pressing "book": the request sent, if any, the toast
      shown and the dialog's new state. */
  datatype Booking = Booking(request: Option<BookingRequest>, toast: string, form: BookingForm)

  const NO_PROVIDER := "Please select a provider"
  const NO_SYMPTOMS := "Please describe your symptoms"
  const BOOKED := "Consultation request sent successfully"
  const BOOKING_FAILED := "Failed to book consultation. Please try again."

  /** `handleBookConsultation`. The provider is checked first, then the
      symptoms, which must not be blank once trimmed; `created` says whether
      the request succeeded. */
  function BookConsultation(form: BookingForm, created: BookingRequest -> bool): (r: Booking)
    ensures r.request.Some? <==> form.provider != "" && Trim(form.symptoms) != ""
    ensures form.provider == "" ==> r == Booking(None, NO_PROVIDER, form)
    ensures form.provider != "" && Trim(form.symptoms) == "" ==> r == Booking(None, NO_SYMPTOMS, form)
    ensures r.request.Some? ==>
              r.request.value == BookingRequest(form.provider, form.consultationType, form.symptoms)
    ensures r.request.Some? && created(r.request.value) ==>
              r.toast == BOOKED && r.form == form.(open := false, provider := "", symptoms := "")
    ensures r.request.Some? && !created(r.request.value) ==> r.toast == BOOKING_FAILED && r.form == form
  {
    if form.provider == "" then Booking(None, NO_PROVIDER, form)
    else if Trim(form.symptoms) == "" then Booking(None, NO_SYMPTOMS, form)
    else
      var request := BookingRequest(form.provider, form.consultationType, form.symptoms);
      if created(request) then Booking(Some(request), BOOKED, form.(open := false, provider := "", symptoms := ""))
      else Booking(Some(request), BOOKING_FAILED, form)
  }

  /** Symptoms made only of whitespace are refused like empty ones. */
  lemma BlankSymptomsRefused(form: BookingForm, created: BookingRequest -> bool)
    requires form.provider != ""
    requires forall i :: 0 <= i < |form.symptoms| ==> IsSpace(form.symptoms[i])
    ensures BookConsultation(form, created) == Booking(None, NO_SYMPTOMS, form)
  {
    BlankTrimsEmpty(form.symptoms);
  }

  lemma {:induction false} BlankTrimsEmpty(s: string)
    requires forall i :: 0 <= i < |s| ==> IsSpace(s[i])
    ensures Trim(s) == ""
  {
    if |s| > 0 {
      BlankTrimsEmpty(s[1..]);
    }
  }

  /** A consultation as the component lists it. */
  datatype ConsultationCard = ConsultationCard(id: string, status: string)

  predicate IsPending(c: ConsultationCard) {
    c.status == "pending"
  }

  predicate IsActive(c: ConsultationCard) {
    c.status == "accepted" || c.status == "in_progress"
  }

  predicate IsClosed(c: ConsultationCard) {
    c.status == "completed" || c.status == "cancelled"
  }

  predicate IsUnlisted(c: ConsultationCard) {
    !KnownStatus(c.status)
  }

  function PendingGroup(cs: seq<ConsultationCard>): seq<ConsultationCard> {
    Filter(cs, IsPending)
  }

  function ActiveGroup(cs: seq<ConsultationCard>): seq<ConsultationCard> {
    Filter(cs, IsActive)
  }

  function CompletedGroup(cs: seq<ConsultationCard>): seq<ConsultationCard> {
    Filter(cs, IsClosed)
  }

  /** No consultation is in two groups, and each group keeps the input order. */
  lemma GroupsArePartition(cs: seq<ConsultationCard>)
    ensures forall c :: c in PendingGroup(cs) ==> c !in ActiveGroup(cs) && c !in CompletedGroup(cs)
    ensures forall c :: c in ActiveGroup(cs) ==> c !in CompletedGroup(cs)
    ensures IsSubseq(PendingGroup(cs), cs) && IsSubseq(ActiveGroup(cs), cs) && IsSubseq(CompletedGroup(cs), cs)
  {
    FilterIsSubseq(cs, IsPending);
    FilterIsSubseq(cs, IsActive);
    FilterIsSubseq(cs, IsClosed);
  }

  /** A consultation with an unknown status is in no group; every other one
      is in exactly one. */
  lemma UnknownStatusListedNowhere(cs: seq<ConsultationCard>, c: ConsultationCard)
    requires c in cs
    ensures !KnownStatus(c.status) <==> c !in PendingGroup(cs) && c !in ActiveGroup(cs) && c !in CompletedGroup(cs)
  {
  }

  /** The three groups and the unlisted consultations together account for
      every consultation exactly once. */
  lemma {:induction false} GroupSizes(cs: seq<ConsultationCard>)
    ensures |PendingGroup(cs)| + |ActiveGroup(cs)| + |CompletedGroup(cs)| + |Filter(cs, IsUnlisted)| == |cs|
  {
    if |cs| > 0 {
      GroupSizes(cs[1..]);
    }
  }
}
