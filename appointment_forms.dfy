/** Validation of the appointment booking form (`AppointmentForm`): the date may
    not lie in the past, patient and psychologist must differ, and a psychologist
    holds at most one appointment per date and time.

    Parties are identified by their account primary key; `today` stands for
    `timezone.now().date()`. */
module AppointmentForms {
  import opened Wrappers
  import opened Temporal
  import opened Choices

  const PastDateMessage: string := "Appointment date cannot be in the past."
  const SamePersonMessage: string := "Patient and psychologist cannot be the same person."
  const ConflictPrefix: string := "This psychologist already has an appointment at "

  /** `clean_date`: a missing date passes; a date before today is refused; the
      date is returned unchanged otherwise. */
  function CleanDate(date: Option<Date>, today: Date): (r: Result<Option<Date>>)
    ensures r.Err? <==> date.Some? && Before(date.value, today)
    ensures r.Err? ==> r.message == PastDateMessage
    ensures r.Ok? ==> r.value == date
  {
    if date.Some? && Before(date.value, today) then Err(PastDateMessage) else Ok(date)
  }

  /** A stored appointment, as the conflict query sees it. */
  datatype Booking = Booking(pk: int, psychologist: int, date: Date, time: Time)

  /** The form's cleaned fields that `clean` reads; `None` is a field that is
      missing or failed its own validation. */
  datatype Cleaned = Cleaned(patient: Option<int>, psychologist: Option<int>, date: Option<Date>, time: Option<Time>)

  /** One row of `Appointment.objects.filter(psychologist=…, date=…, time=…)
      .exclude(pk=instancePk)`. Excluding `pk=None` excludes nothing, so a new
      appointment (no primary key yet) is compared with every stored one. */
  function Clashes(b: Booking, psychologist: int, date: Date, time: Time, instancePk: Option<int>): (r: bool)
    ensures var sameSlot := b.psychologist == psychologist && b.date == date && b.time == time;
      && (instancePk.None? ==> (r <==> sameSlot))
      && (instancePk == Some(b.pk) ==> !r)
      && (instancePk.Some? && instancePk.value != b.pk ==> (r <==> sameSlot))
  {
    b.psychologist == psychologist && b.date == date && b.time == time
    && !(instancePk.Some? && b.pk == instancePk.value)
  }

  /** `.exists()` over the stored appointments. */
  function HasConflict(bookings: seq<Booking>, psychologist: int, date: Date, time: Time, instancePk: Option<int>): (r: bool)
    ensures r <==> exists i :: 0 <= i < |bookings| && Clashes(bookings[i], psychologist, date, time, instancePk)
  {
    if bookings == [] then false
    else (Clashes(bookings[0], psychologist, date, time, instancePk)
          || HasConflict(bookings[1..], psychologist, date, time, instancePk))
  }

  /** The conflict message, with the time and date in their `str()` form. */
  function ConflictMessage(date: Date, time: Time): (m: string)
    ensures var p, n := |ConflictPrefix|, |m|;
      && n == p + |IsoTime(time)| + 15
      && m[..p] == ConflictPrefix && m[p..n - 15] == IsoTime(time)
      && m[n - 15..n - 11] == " on " && m[n - 11..n - 1] == IsoDate(date) && m[n - 1] == '.'
  {
    ConflictPrefix + IsoTime(time) + " on " + IsoDate(date) + "."
  }

  /** The conflict message names the slot: different slots give different messages. */
  lemma ConflictMessageNamesSlot(d1: Date, t1: Time, d2: Date, t2: Time)
    ensures ConflictMessage(d1, t1) == ConflictMessage(d2, t2) ==> d1 == d2 && t1 == t2
  {
    var m1, m2 := ConflictMessage(d1, t1), ConflictMessage(d2, t2);
    if m1 == m2 {
      IsoTimeInjective(t1, t2);
      IsoDateInjective(d1, d2);
    }
  }

  predicate SamePerson(data: Cleaned) {
    data.patient.Some? && data.psychologist.Some? && data.patient.value == data.psychologist.value
  }

  /** The slot check runs only when psychologist, date and time are all present. */
  predicate SlotTaken(data: Cleaned, bookings: seq<Booking>, instancePk: Option<int>) {
    data.psychologist.Some? && data.date.Some? && data.time.Some?
    && HasConflict(bookings, data.psychologist.value, data.date.value, data.time.value, instancePk)
  }

  /** `AppointmentForm.clean`: the same-person error takes precedence over a slot
      conflict; a form that passes keeps its cleaned data unchanged. */
  function Clean(data: Cleaned, bookings: seq<Booking>, instancePk: Option<int>): (r: Result<Cleaned>)
    ensures r.Err? <==> SamePerson(data) || SlotTaken(data, bookings, instancePk)
    ensures SamePerson(data) ==> r == Err(SamePersonMessage)
    ensures !SamePerson(data) && SlotTaken(data, bookings, instancePk) ==>
      r == Err(ConflictMessage(data.date.value, data.time.value))
    ensures r.Ok? ==> r.value == data
  {
    if SamePerson(data) then Err(SamePersonMessage)
    else if data.psychologist.Some? && data.date.Some? && data.time.Some?
         && HasConflict(bookings, data.psychologist.value, data.date.value, data.time.value, instancePk)
    then Err(ConflictMessage(data.date.value, data.time.value))
    else Ok(data)
  }

  /** The two refusals are told apart by their message. */
  lemma CleanMessagesDistinct(d: Date, t: Time)
    ensures ConflictMessage(d, t) != SamePersonMessage
  {
    assert |SamePersonMessage| < |ConflictPrefix| + 8 + 15 <= |ConflictMessage(d, t)|;
  }

  /** `unique_together = ['psychologist', 'date', 'time']`: no two stored
      appointments share a psychologist's slot. */
  predicate UniqueSlots(bookings: seq<Booking>) {
    forall i, j :: 0 <= i < j < |bookings| ==>
      !(bookings[i].psychologist == bookings[j].psychologist
        && bookings[i].date == bookings[j].date && bookings[i].time == bookings[j].time)
  }

  /** Editing a stored appointment without moving it does not clash with itself. */
  lemma EditKeepsOwnSlot(bookings: seq<Booking>, k: nat, patient: Option<int>)
    requires UniqueSlots(bookings) && k < |bookings|
    requires patient != Some(bookings[k].psychologist)
    ensures var b := bookings[k];
      Clean(Cleaned(patient, Some(b.psychologist), Some(b.date), Some(b.time)), bookings, Some(b.pk)).Ok?
  {
    var b := bookings[k];
    forall i | 0 <= i < |bookings|
      ensures !Clashes(bookings[i], b.psychologist, b.date, b.time, Some(b.pk))
    {
      if i < k {
        assert !(bookings[i].psychologist == b.psychologist && bookings[i].date == b.date && bookings[i].time == b.time);
      } else if k < i {
        assert !(b.psychologist == bookings[i].psychologist && b.date == bookings[i].date && b.time == bookings[i].time);
      }
    }
  }

  /** Booking a new appointment that the form accepted keeps every slot unique. */
  lemma AcceptedBookingKeepsSlotsUnique(bookings: seq<Booking>, data: Cleaned, pk: int)
    requires UniqueSlots(bookings)
    requires data.psychologist.Some? && data.date.Some? && data.time.Some?
    requires Clean(data, bookings, None).Ok?
    ensures UniqueSlots(bookings + [Booking(pk, data.psychologist.value, data.date.value, data.time.value)])
  {
    var nb := Booking(pk, data.psychologist.value, data.date.value, data.time.value);
    var all := bookings + [nb];
    forall i, j | 0 <= i < j < |all|
      ensures !(all[i].psychologist == all[j].psychologist && all[i].date == all[j].date && all[i].time == all[j].time)
    {
      if j == |bookings| {
        assert !Clashes(bookings[i], nb.psychologist, nb.date, nb.time, None);
      } else {
        assert all[i] == bookings[i] && all[j] == bookings[j];
      }
    }
  }

  /** Who the patient is never changes whether the slot is free. */
  lemma ConflictIgnoresPatient(data: Cleaned, bookings: seq<Booking>, instancePk: Option<int>, other: Option<int>)
    requires !SamePerson(data) && !SamePerson(data.(patient := other))
    ensures Clean(data, bookings, instancePk).Ok? <==> Clean(data.(patient := other), bookings, instancePk).Ok?
  {
  }

  /** A new appointment's status starts as `scheduled`, which is one of the statuses. */
  lemma InitialStatusIsListed()
    ensures InitialStatus in StatusChoices && Display(StatusChoices, InitialStatus) == "Scheduled"
  {
  }
}
