/** The document mapper: an account or appointment snapshot becomes the key/value
    document the secondary store keeps (`AccountSerializer`, `AppointmentSerializer`). */
module Serializers {
  import opened Wrappers
  import opened Choices
  import opened Temporal
  import F = Fields

  /** A BSON value as the documents use it; `Stamp` is an opaque `datetime`. */
  datatype Value = Null | Bool(b: bool) | Int(i: int) | Str(s: string) | Stamp(t: int) | Doc(fields: map<F.Field, Value>)

  type Document = map<F.Field, Value>

  // ---- snapshots of the relational records ----

  datatype Office = Office(id: int, name: string, address: string, phone: string)

  datatype DoctorProfile = DoctorProfile(id: int, specialty: string, office: Office)

  /** An account; `doctorProfile` is `None` when following the reverse one-to-one
      relation `doctor_profile` raises. The role is its string code. */
  datatype Account = Account(
    id: int, name: string, lastName: string, email: string, age: int,
    gender: string, phone: string, role: string, doctorProfile: Option<DoctorProfile>)

  /** An appointment with its two linked accounts. The relational model declares no
      `notes` column, so `notes` is `None` when the attribute does not exist. */
  datatype Appointment = Appointment(
    id: int, patient: Account, psychologist: Account, date: Date, time: Time,
    status: string, notes: Option<string>)

  /** `Account.get_full_name()`: the first name, one space, the last name. */
  function GetFullName(a: Account): (r: string)
    ensures |r| == |a.name| + 1 + |a.lastName|
    ensures r[..|a.name|] == a.name && r[|a.name|] == ' ' && r[|a.name| + 1..] == a.lastName
  {
    a.name + " " + a.lastName
  }

  const AccountKeys: set<F.Field> :=
    {F.DjangoId, F.Name, F.LastName, F.FullName, F.Email, F.Age, F.Gender, F.GenderDisplay,
     F.Phone, F.Role, F.RoleDisplay, F.UpdatedAt, F.SyncVersion}

  const AppointmentKeys: set<F.Field> :=
    {F.DjangoId, F.Patient, F.Psychologist, F.Date, F.Time, F.Status, F.StatusDisplay,
     F.Notes, F.UpdatedAt, F.SyncVersion}

  const PartyKeys: set<F.Field> := {F.DjangoId, F.Name, F.Email}

  /** The nested `office`: its id, name, address and phone; nothing else. */
  function OfficeDocument(o: Office): (d: Document)
    ensures d.Keys == {F.DjangoOfficeId, F.Name, F.Address, F.Phone}
  {
    map[F.DjangoOfficeId := Int(o.id), F.Name := Str(o.name), F.Address := Str(o.address),
        F.Phone := Str(o.phone)]
  }

  /** The nested `doctor_profile`: the doctor's id, the specialty with its label,
      and the office; nothing else. */
  function ProfileDocument(p: DoctorProfile): (d: Document)
    ensures d.Keys == {F.DjangoDoctorId, F.Specialty, F.SpecialtyDisplay, F.Office}
  {
    map[F.DjangoDoctorId := Int(p.id), F.Specialty := Str(p.specialty),
        F.SpecialtyDisplay := Str(Display(SpecialtyChoices, p.specialty)),
        F.Office := Doc(OfficeDocument(p.office))]
  }

  /** The keys a psychologist's document adds to the common ones. */
  function ProfileKeys(a: Account): set<F.Field> {
    if a.role != Psychologist then {}
    else if a.doctorProfile.Some? then {F.DoctorProfile}
    else {F.DoctorProfile, F.DoctorProfileIncomplete}
  }

  /** The keys every account document has, before the psychologist branch. */
  function AccountBase(a: Account, now: int): Document {
    map[
      F.DjangoId := Int(a.id), F.Name := Str(a.name), F.LastName := Str(a.lastName),
      F.FullName := Str(GetFullName(a)), F.Email := Str(a.email), F.Age := Int(a.age),
      F.Gender := Str(a.gender), F.GenderDisplay := Str(Display(GenderChoices, a.gender)),
      F.Phone := Str(a.phone), F.Role := Str(a.role),
      F.RoleDisplay := Str(Display(RoleChoices, a.role)),
      F.UpdatedAt := Stamp(now), F.SyncVersion := Int(1)]
  }

  /** What the psychologist branch adds: the nested profile when the lookup
      succeeds, the `None` profile and the incompleteness marker when it raises. */
  function ProfileFields(a: Account): Document {
    if a.role != Psychologist then map[]
    else match a.doctorProfile
      case Some(p) => map[F.DoctorProfile := Doc(ProfileDocument(p))]
      case None => map[F.DoctorProfile := Null, F.DoctorProfileIncomplete := Bool(true)]
  }

  /** `AccountSerializer.serialize`; `now` stands for `datetime.utcnow()`. The
      document's shape depends on the role and on whether the profile lookup succeeds. */
  function SerializeAccount(a: Account, now: int): Document {
    AccountBase(a, now) + ProfileFields(a)
  }

  /** The keys of an account document: the common ones, plus `doctor_profile` for a
      psychologist, plus `doctor_profile_incomplete` when the profile lookup raised. */
  lemma AccountShape(a: Account, now: int)
    ensures SerializeAccount(a, now).Keys == AccountKeys + ProfileKeys(a)
  {
  }

  /** Every account document carries `sync_version = 1` and the time of the call. */
  lemma AccountSyncStamp(a: Account, now: int)
    ensures SerializeAccount(a, now)[F.SyncVersion] == Int(1)
    ensures SerializeAccount(a, now)[F.UpdatedAt] == Stamp(now)
  {
    assert F.SyncVersion !in ProfileFields(a) && F.UpdatedAt !in ProfileFields(a);
  }

  /** The psychologist branch: a nested profile and no marker when the lookup
      succeeds, a `None` profile and `doctor_profile_incomplete = True` when it
      raises; other roles get neither key. */
  lemma AccountProfileShape(a: Account, now: int)
    ensures a.role != Psychologist ==>
      F.DoctorProfile !in SerializeAccount(a, now) && F.DoctorProfileIncomplete !in SerializeAccount(a, now)
    ensures a.role == Psychologist && a.doctorProfile.Some? ==>
      && SerializeAccount(a, now)[F.DoctorProfile] == Doc(ProfileDocument(a.doctorProfile.value))
      && F.DoctorProfileIncomplete !in SerializeAccount(a, now)
    ensures a.role == Psychologist && a.doctorProfile.None? ==>
      && SerializeAccount(a, now)[F.DoctorProfile] == Null
      && SerializeAccount(a, now)[F.DoctorProfileIncomplete] == Bool(true)
  {
    var base := AccountBase(a, now);
    assert F.DoctorProfile !in base && F.DoctorProfileIncomplete !in base;
    assert SerializeAccount(a, now) == base + ProfileFields(a);
  }

  /** The base fields survive the psychologist branch. */
  lemma BaseFieldsKept(a: Account, now: int, k: F.Field)
    requires k in AccountKeys
    ensures k in SerializeAccount(a, now) && SerializeAccount(a, now)[k] == AccountBase(a, now)[k]
  {
    assert k !in ProfileFields(a);
  }

  // ---- reading a document back ----

  function GetStr(d: Document, k: F.Field): Option<string> {
    if k in d && d[k].Str? then Some(d[k].s) else None
  }

  function GetInt(d: Document, k: F.Field): Option<int> {
    if k in d && d[k].Int? then Some(d[k].i) else None
  }

  function GetDoc(d: Document, k: F.Field): Option<Document> {
    if k in d && d[k].Doc? then Some(d[k].fields) else None
  }

  function OfficeFromDocument(d: Document): Option<Office> {
    var id, name, address, phone := GetInt(d, F.DjangoOfficeId), GetStr(d, F.Name), GetStr(d, F.Address), GetStr(d, F.Phone);
    if id.Some? && name.Some? && address.Some? && phone.Some?
    then Some(Office(id.value, name.value, address.value, phone.value))
    else None
  }

  function ProfileFromDocument(d: Document): Option<DoctorProfile> {
    var id, specialty, office := GetInt(d, F.DjangoDoctorId), GetStr(d, F.Specialty), GetDoc(d, F.Office);
    if id.Some? && specialty.Some? && office.Some? && OfficeFromDocument(office.value).Some?
    then Some(DoctorProfile(id.value, specialty.value, OfficeFromDocument(office.value).value))
    else None
  }

  /** Rebuilds the account snapshot a document was made from. */
  function AccountFromDocument(d: Document): Option<Account> {
    var id, name, lastName, email := GetInt(d, F.DjangoId), GetStr(d, F.Name), GetStr(d, F.LastName), GetStr(d, F.Email);
    var age, gender, phone, role := GetInt(d, F.Age), GetStr(d, F.Gender), GetStr(d, F.Phone), GetStr(d, F.Role);
    var profile := GetDoc(d, F.DoctorProfile);
    if id.Some? && name.Some? && lastName.Some? && email.Some? && age.Some? && gender.Some? && phone.Some? && role.Some?
    then Some(Account(id.value, name.value, lastName.value, email.value, age.value, gender.value,
                      phone.value, role.value,
                      if profile.Some? then ProfileFromDocument(profile.value) else None))
    else None
  }

  /** What the document keeps of an account: everything but a profile of a
      non-psychologist, which the serializer ignores. */
  function Mirrored(a: Account): Account {
    if a.role == Psychologist then a else a.(doctorProfile := None)
  }

  lemma AccountBaseValues(a: Account, now: int)
    ensures var b := AccountBase(a, now);
      && b[F.DjangoId] == Int(a.id) && b[F.Name] == Str(a.name) && b[F.LastName] == Str(a.lastName)
      && b[F.Email] == Str(a.email) && b[F.Age] == Int(a.age) && b[F.Gender] == Str(a.gender)
      && b[F.Phone] == Str(a.phone) && b[F.Role] == Str(a.role)
  {
  }

  lemma IdentityReadBack(a: Account, now: int)
    ensures var d := SerializeAccount(a, now);
      && GetInt(d, F.DjangoId) == Some(a.id) && GetStr(d, F.Name) == Some(a.name)
      && GetStr(d, F.LastName) == Some(a.lastName) && GetStr(d, F.Email) == Some(a.email)
  {
    AccountBaseValues(a, now);
    BaseFieldsKept(a, now, F.DjangoId);
    BaseFieldsKept(a, now, F.Name);
    BaseFieldsKept(a, now, F.LastName);
    BaseFieldsKept(a, now, F.Email);
  }

  lemma DetailsReadBack(a: Account, now: int)
    ensures var d := SerializeAccount(a, now);
      && GetInt(d, F.Age) == Some(a.age) && GetStr(d, F.Gender) == Some(a.gender)
      && GetStr(d, F.Phone) == Some(a.phone) && GetStr(d, F.Role) == Some(a.role)
  {
    AccountBaseValues(a, now);
    BaseFieldsKept(a, now, F.Age);
    BaseFieldsKept(a, now, F.Gender);
    BaseFieldsKept(a, now, F.Phone);
    BaseFieldsKept(a, now, F.Role);
  }

  lemma ProfileDocumentRoundTrip(p: DoctorProfile)
    ensures ProfileFromDocument(ProfileDocument(p)) == Some(p)
  {
    var pd := ProfileDocument(p);
    assert GetDoc(pd, F.Office) == Some(OfficeDocument(p.office));
    assert OfficeFromDocument(OfficeDocument(p.office)) == Some(p.office);
  }

  lemma ProfileReadBack(a: Account, now: int)
    ensures var d := SerializeAccount(a, now);
      (if GetDoc(d, F.DoctorProfile).Some? then ProfileFromDocument(GetDoc(d, F.DoctorProfile).value) else None)
      == Mirrored(a).doctorProfile
  {
    var d := SerializeAccount(a, now);
    assert F.DoctorProfile !in AccountBase(a, now);
    if a.role == Psychologist && a.doctorProfile.Some? {
      var p := a.doctorProfile.value;
      assert d[F.DoctorProfile] == Doc(ProfileDocument(p));
      ProfileDocumentRoundTrip(p);
    } else if a.role == Psychologist {
      assert d[F.DoctorProfile] == Null;
    } else {
      assert F.DoctorProfile !in d;
    }
  }

  /** The document loses nothing the serializer looks at: identity, contact, age,
      gender, role and the doctor profile with its office are all read back. */
  lemma AccountRoundTrip(a: Account, now: int)
    ensures AccountFromDocument(SerializeAccount(a, now)) == Some(Mirrored(a))
  {
    IdentityReadBack(a, now);
    DetailsReadBack(a, now);
    ProfileReadBack(a, now);
  }

  /** A document that holds at least the fields of `s`, with the same values,
      decodes to the same account, except that it may carry a profile where `s`
      names none. */
  lemma AccountDecodeExtends(s: Document, d: Document)
    requires forall f :: f in s ==> f in d && d[f] == s[f]
    requires AccountFromDocument(s).Some?
    ensures AccountFromDocument(d).Some?
    ensures AccountFromDocument(d).value.(doctorProfile := None) == AccountFromDocument(s).value.(doctorProfile := None)
    ensures F.DoctorProfile in s ==> AccountFromDocument(d) == AccountFromDocument(s)
  {
    assert GetInt(d, F.DjangoId) == GetInt(s, F.DjangoId);
    assert GetStr(d, F.Name) == GetStr(s, F.Name);
    assert GetStr(d, F.LastName) == GetStr(s, F.LastName);
    assert GetStr(d, F.Email) == GetStr(s, F.Email);
    assert GetInt(d, F.Age) == GetInt(s, F.Age);
    assert GetStr(d, F.Gender) == GetStr(s, F.Gender);
    assert GetStr(d, F.Phone) == GetStr(s, F.Phone);
    assert GetStr(d, F.Role) == GetStr(s, F.Role);
    if F.DoctorProfile in s {
      assert GetDoc(d, F.DoctorProfile) == GetDoc(s, F.DoctorProfile);
    }
  }

  /** `full_name` and the display fields. */
  lemma AccountDerivedFields(a: Account, now: int)
    ensures SerializeAccount(a, now)[F.FullName] == Str(a.name + " " + a.lastName)
    ensures SerializeAccount(a, now)[F.GenderDisplay] == Str(Display(GenderChoices, a.gender))
    ensures SerializeAccount(a, now)[F.RoleDisplay] == Str(Display(RoleChoices, a.role))
  {
    BaseFieldsKept(a, now, F.FullName);
    BaseFieldsKept(a, now, F.GenderDisplay);
    BaseFieldsKept(a, now, F.RoleDisplay);
  }

  /** For instance `'M'` shows as `Male` and the psychologist role as `Psychologist`. */
  lemma AccountLabels(a: Account, now: int)
    ensures a.gender == "M" ==> SerializeAccount(a, now)[F.GenderDisplay] == Str("Male")
    ensures a.role == Psychologist ==> SerializeAccount(a, now)[F.RoleDisplay] == Str("Psychologist")
  {
    AccountDerivedFields(a, now);
    GenderLabels();
    RoleLabels();
  }

  /** One embedded party of an appointment: id, full name and email, nothing else. */
  function PartyDocument(a: Account): (d: Document)
    ensures d.Keys == PartyKeys
  {
    map[F.DjangoId := Int(a.id), F.Name := Str(GetFullName(a)), F.Email := Str(a.email)]
  }

  const MissingNotes: string := "'Appointment' object has no attribute 'notes'"

  function AppointmentFields(ap: Appointment, notes: string, now: int): Document {
    map[
      F.DjangoId := Int(ap.id),
      F.Patient := Doc(PartyDocument(ap.patient)),
      F.Psychologist := Doc(PartyDocument(ap.psychologist)),
      F.Date := Str(IsoDate(ap.date)), F.Time := Str(IsoTime(ap.time)),
      F.Status := Str(ap.status), F.StatusDisplay := Str(Display(StatusChoices, ap.status)),
      F.Notes := Str(notes), F.UpdatedAt := Stamp(now), F.SyncVersion := Int(1)]
  }

  /** `AppointmentSerializer.serialize`; it raises `AttributeError` when the
      appointment has no `notes` attribute. */
  function SerializeAppointment(ap: Appointment, now: int): (r: Result<Document>)
    ensures r.Err? <==> ap.notes.None?
    ensures r.Ok? ==> r.value.Keys == AppointmentKeys
  {
    match ap.notes
    case None => Err(MissingNotes)
    case Some(notes) => Ok(AppointmentFields(ap, notes, now))
  }

  lemma AppointmentValues(ap: Appointment, notes: string, now: int)
    ensures var d := AppointmentFields(ap, notes, now);
      && d[F.DjangoId] == Int(ap.id)
      && d[F.Patient] == Doc(PartyDocument(ap.patient))
      && d[F.Psychologist] == Doc(PartyDocument(ap.psychologist))
      && d[F.Date] == Str(IsoDate(ap.date)) && d[F.Time] == Str(IsoTime(ap.time))
      && d[F.Status] == Str(ap.status) && d[F.Notes] == Str(notes)
  {
  }

  /** Every appointment document carries `sync_version = 1` and the time of the call. */
  lemma AppointmentSyncStamp(ap: Appointment, now: int)
    requires ap.notes.Some?
    ensures SerializeAppointment(ap, now).value[F.SyncVersion] == Int(1)
    ensures SerializeAppointment(ap, now).value[F.UpdatedAt] == Stamp(now)
    ensures SerializeAppointment(ap, now).value[F.DjangoId] == Int(ap.id)
  {
  }

  /** The identity, schedule and status an appointment document records. */
  datatype AppointmentSummary = AppointmentSummary(
    id: int, patient: (int, string, string), psychologist: (int, string, string),
    date: Date, time: Time, status: string, notes: string)

  function PartyFromDocument(d: Document): Option<(int, string, string)> {
    var id, name, email := GetInt(d, F.DjangoId), GetStr(d, F.Name), GetStr(d, F.Email);
    if id.Some? && name.Some? && email.Some? then Some((id.value, name.value, email.value)) else None
  }

  function AppointmentFromDocument(d: Document): Option<AppointmentSummary> {
    var id, patient, psychologist := GetInt(d, F.DjangoId), GetDoc(d, F.Patient), GetDoc(d, F.Psychologist);
    var date, time, status, notes := GetStr(d, F.Date), GetStr(d, F.Time), GetStr(d, F.Status), GetStr(d, F.Notes);
    if id.Some? && patient.Some? && psychologist.Some? && date.Some? && time.Some? && status.Some? && notes.Some?
       && PartyFromDocument(patient.value).Some? && PartyFromDocument(psychologist.value).Some?
       && ParseIsoDate(date.value).Some? && ParseIsoTime(time.value).Some?
    then Some(AppointmentSummary(id.value, PartyFromDocument(patient.value).value,
                                 PartyFromDocument(psychologist.value).value,
                                 ParseIsoDate(date.value).value, ParseIsoTime(time.value).value,
                                 status.value, notes.value))
    else None
  }

  lemma PartyRoundTrip(a: Account)
    ensures PartyFromDocument(PartyDocument(a)) == Some((a.id, GetFullName(a), a.email))
  {
    var d := PartyDocument(a);
    assert GetInt(d, F.DjangoId) == Some(a.id);
    assert GetStr(d, F.Name) == Some(GetFullName(a));
  }

  lemma AppointmentReads(ap: Appointment, notes: string, now: int)
    ensures var d := AppointmentFields(ap, notes, now);
      && GetInt(d, F.DjangoId) == Some(ap.id)
      && GetDoc(d, F.Patient) == Some(PartyDocument(ap.patient))
      && GetDoc(d, F.Psychologist) == Some(PartyDocument(ap.psychologist))
      && GetStr(d, F.Date) == Some(IsoDate(ap.date)) && GetStr(d, F.Time) == Some(IsoTime(ap.time))
      && GetStr(d, F.Status) == Some(ap.status) && GetStr(d, F.Notes) == Some(notes)
  {
    AppointmentValues(ap, notes, now);
  }

  /** Each party is embedded as exactly its id, full name and email, and the date and
      time strings read back as the appointment's own date and time. */
  lemma AppointmentRoundTrip(ap: Appointment, now: int)
    requires ap.notes.Some?
    ensures SerializeAppointment(ap, now).Ok?
    ensures AppointmentFromDocument(SerializeAppointment(ap, now).value) ==
      Some(AppointmentSummary(
        ap.id, (ap.patient.id, GetFullName(ap.patient), ap.patient.email),
        (ap.psychologist.id, GetFullName(ap.psychologist), ap.psychologist.email),
        ap.date, ap.time, ap.status, ap.notes.value))
  {
    IsoDateRoundTrip(ap.date);
    IsoTimeRoundTrip(ap.time);
    PartyRoundTrip(ap.patient);
    PartyRoundTrip(ap.psychologist);
    AppointmentReads(ap, ap.notes.value, now);
  }

  /** The status label, e.g. `no_show` shows as `No Show`. */
  lemma AppointmentStatusLabel(ap: Appointment, now: int)
    requires ap.notes.Some?
    ensures SerializeAppointment(ap, now).value[F.StatusDisplay] == Str(Display(StatusChoices, ap.status))
    ensures ap.status == "no_show" ==> SerializeAppointment(ap, now).value[F.StatusDisplay] == Str("No Show")
  {
    assert SerializeAppointment(ap, now).value[F.StatusDisplay] == Str(Display(StatusChoices, ap.status));
    StatusLabels();
  }
}
