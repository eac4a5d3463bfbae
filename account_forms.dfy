/** Validation of the account and role forms (`AccountForm`, `RoleForm`): a unique
    email, a plausible age, the psychologist's office and specialty, and a role
    name unique without regard to case.

    The per-field checks return the value or raise a validation error, so they are
    functions to a `Result`. The form-level `clean` records its errors on the form
    with `add_error`, so it is a method of a form object. */
module AccountForms {
  import opened Wrappers
  import opened Text
  import opened Choices

  const EmailTakenMessage: string := "An account with this email already exists."
  const AgeRangeMessage: string := "Please enter a valid age between 1 and 120."
  const RoleNameTakenMessage: string := "A role with this name already exists."
  const OfficeRequiredMessage: string := "Doctor's office is required for psychologists."
  const SpecialtyRequiredMessage: string := "Specialty is required for psychologists."

  const MinAge: int := 1
  const MaxAge: int := 120

  /** `clean_email`: an email is refused exactly when a stored account already has
      that very email; a missing email matches no account. */
  function CleanEmail(email: Option<string>, existing: set<string>): (r: Result<Option<string>>)
    ensures r.Err? <==> email.Some? && email.value in existing
    ensures r.Err? ==> r.message == EmailTakenMessage
    ensures r.Ok? ==> r.value == email
  {
    if email.Some? && email.value in existing then Err(EmailTakenMessage) else Ok(email)
  }

  /** No two stored accounts share an email. */
  predicate UniqueEmails(emails: seq<string>) {
    forall i, j :: 0 <= i < j < |emails| ==> emails[i] != emails[j]
  }

  /** Storing an account whose email passed keeps every email unique. */
  lemma AcceptedEmailKeepsEmailsUnique(emails: seq<string>, email: string)
    requires UniqueEmails(emails)
    requires CleanEmail(Some(email), set e | e in emails).Ok?
    ensures UniqueEmails(emails + [email])
  {
    var all := emails + [email];
    forall i, j | 0 <= i < j < |all| ensures all[i] != all[j] {
      assert all[i] == emails[i];
      if j < |emails| {
        assert all[j] == emails[j];
      }
    }
  }

  /** `clean_age`: a falsy age (missing, or zero) is not checked; any other age
      outside 1..120 is refused. */
  function CleanAge(age: Option<int>): (r: Result<Option<int>>)
    ensures r.Err? <==> age.Some? && age.value != 0 && !(MinAge <= age.value <= MaxAge)
    ensures r.Err? ==> r.message == AgeRangeMessage
    ensures r.Ok? ==> r.value == age
  {
    if age.Some? && age.value != 0 && (age.value < MinAge || age.value > MaxAge) then Err(AgeRangeMessage)
    else Ok(age)
  }

  /** `RoleForm.clean_name`: a non-empty name is refused when an existing role has
      the same name up to case (`name__iexact`); an empty or missing name is not
      checked. */
  function CleanName(name: Option<string>, existing: seq<string>): (r: Result<Option<string>>)
    ensures r.Err? <==> name.Some? && name.value != ""
                        && exists i :: 0 <= i < |existing| && EqualsIgnoreCase(existing[i], name.value)
    ensures r.Err? ==> r.message == RoleNameTakenMessage
    ensures r.Ok? ==> r.value == name
  {
    if name.Some? && name.value != "" && NameTaken(name.value, existing) then Err(RoleNameTakenMessage)
    else Ok(name)
  }

  /** `Role.objects.filter(name__iexact=name).exists()` */
  function NameTaken(name: string, existing: seq<string>): (r: bool)
    ensures r <==> exists i :: 0 <= i < |existing| && EqualsIgnoreCase(existing[i], name)
  {
    if existing == [] then false
    else (EqualsIgnoreCase(existing[0], name) || NameTaken(name, existing[1..]))
  }

  lemma {:induction false} LowerIdempotent(s: string)
    ensures Lower(Lower(s)) == Lower(s)
  {
    forall i | 0 <= i < |s| ensures Lower(Lower(s))[i] == Lower(s)[i] {
      var c := s[i];
      if 'A' <= c <= 'Z' {
        assert Lower(s)[i] as int == c as int + 32;
      }
    }
  }

  /** Changing only the case of a name never changes whether it is refused. */
  lemma CleanNameIgnoresCase(name: string, existing: seq<string>)
    ensures CleanName(Some(name), existing).Err? <==> CleanName(Some(Lower(name)), existing).Err?
  {
    LowerIdempotent(name);
    assert (name == "") <==> (Lower(name) == "");
    assert forall n :: EqualsIgnoreCase(n, name) <==> EqualsIgnoreCase(n, Lower(name));
  }

  /** A value of the form's `cleaned_data`. `Empty` is `None`; `Record` is a
      chosen model instance (the office), always truthy. */
  datatype FieldValue = Empty | Text(s: string) | Number(n: int) | Record(pk: int)

  /** Python truthiness: `None`, `''` and `0` are falsy. */
  predicate Truthy(v: FieldValue) {
    match v
    case Empty => false
    case Text(s) => s != ""
    case Number(n) => n != 0
    case Record(_) => true
  }

  type CleanedData = map<string, FieldValue>
  type Errors = map<string, seq<string>>

  const RoleField: string := "role"
  const OfficeField: string := "doctors_office"
  const SpecialtyField: string := "specialty"

  /** `cleaned_data.get(field)` */
  function Get(data: CleanedData, field: string): FieldValue {
    if field in data then data[field] else Empty
  }

  /** `self.errors.get(field, [])` */
  function Messages(errors: Errors, field: string): seq<string> {
    if field in errors then errors[field] else []
  }

  /** The form's cleaned data and its errors, field by field. */
  datatype FormState = FormState(cleaned: CleanedData, errors: Errors)

  /** `add_error(field, message)`: the message joins the field's errors and the
      field leaves `cleaned_data`. */
  function AddErrorStep(st: FormState, field: string, message: string): (r: FormState)
    ensures r.cleaned.Keys == st.cleaned.Keys - {field}
    ensures forall f :: f in r.cleaned ==> r.cleaned[f] == st.cleaned[f]
    ensures r.errors.Keys == st.errors.Keys + {field}
    ensures r.errors[field] == Messages(st.errors, field) + [message]
    ensures forall f :: f in st.errors && f != field ==> r.errors[f] == st.errors[f]
  {
    FormState(st.cleaned - {field}, st.errors[field := Messages(st.errors, field) + [message]])
  }

  predicate IsPsychologist(data: CleanedData) {
    Get(data, RoleField) == Text(Psychologist)
  }

  /** The fields `clean` reports as missing. */
  function MissingFields(data: CleanedData): (r: set<string>)
    ensures r <= {OfficeField, SpecialtyField}
    ensures !IsPsychologist(data) ==> r == {}
    ensures IsPsychologist(data) ==>
      (OfficeField in r <==> !Truthy(Get(data, OfficeField))) && (SpecialtyField in r <==> !Truthy(Get(data, SpecialtyField)))
  {
    if IsPsychologist(data)
    then (if Truthy(Get(data, OfficeField)) then {} else {OfficeField})
       + (if Truthy(Get(data, SpecialtyField)) then {} else {SpecialtyField})
    else {}
  }

  /** The form after `AccountForm.clean`: the office error first, then the
      specialty error, each only for a psychologist missing that field. Exactly the
      missing fields gain their one message and leave `cleaned_data`; nothing else
      changes. */
  function CleanStep(st: FormState): (r: FormState)
    ensures var missing := MissingFields(st.cleaned);
      && r.cleaned.Keys == st.cleaned.Keys - missing
      && (forall f :: f in r.cleaned ==> r.cleaned[f] == st.cleaned[f])
      && r.errors.Keys == st.errors.Keys + missing
      && (OfficeField in missing ==> r.errors[OfficeField] == Messages(st.errors, OfficeField) + [OfficeRequiredMessage])
      && (SpecialtyField in missing ==> r.errors[SpecialtyField] == Messages(st.errors, SpecialtyField) + [SpecialtyRequiredMessage])
      && (forall f :: f in st.errors && f !in missing ==> r.errors[f] == st.errors[f])
  {
    var afterOffice :=
      if IsPsychologist(st.cleaned) && !Truthy(Get(st.cleaned, OfficeField))
      then AddErrorStep(st, OfficeField, OfficeRequiredMessage) else st;
    if IsPsychologist(st.cleaned) && !Truthy(Get(st.cleaned, SpecialtyField))
    then AddErrorStep(afterOffice, SpecialtyField, SpecialtyRequiredMessage) else afterOffice
  }

  /** A form without errors stays valid after `clean` exactly when it is not a
      psychologist's, or names both an office and a specialty. */
  lemma CleanValidIff(st: FormState)
    requires st.errors == map[]
    ensures CleanStep(st).errors == map[] <==>
      !IsPsychologist(st.cleaned) || (Truthy(Get(st.cleaned, OfficeField)) && Truthy(Get(st.cleaned, SpecialtyField)))
  {
    if IsPsychologist(st.cleaned) && !Truthy(Get(st.cleaned, OfficeField)) {
      assert OfficeField in CleanStep(st).errors;
    } else if IsPsychologist(st.cleaned) && !Truthy(Get(st.cleaned, SpecialtyField)) {
      assert SpecialtyField in CleanStep(st).errors;
    }
  }

  /** Any other role leaves the form exactly as it was. */
  lemma OtherRolesUntouched(st: FormState)
    requires !IsPsychologist(st.cleaned)
    ensures CleanStep(st) == st
  {
  }

  /** A psychologist's form missing both fields reports both. */
  lemma BothReported(st: FormState)
    requires IsPsychologist(st.cleaned)
    requires !Truthy(Get(st.cleaned, OfficeField)) && !Truthy(Get(st.cleaned, SpecialtyField))
    ensures OfficeRequiredMessage in CleanStep(st).errors[OfficeField]
    ensures SpecialtyRequiredMessage in CleanStep(st).errors[SpecialtyField]
  {
    assert |Messages(st.errors, OfficeField)| < |CleanStep(st).errors[OfficeField]|;
    assert CleanStep(st).errors[OfficeField][|Messages(st.errors, OfficeField)|] == OfficeRequiredMessage;
    assert CleanStep(st).errors[SpecialtyField][|Messages(st.errors, SpecialtyField)|] == SpecialtyRequiredMessage;
  }

  /** The bound form: its cleaned data and the errors recorded so far. */
  class AccountForm {
    var cleaned: CleanedData
    var errors: Errors

    function State(): FormState
      reads this
    {
      FormState(cleaned, errors)
    }

    constructor (data: CleanedData, fieldErrors: Errors)
      ensures State() == FormState(data, fieldErrors)
    {
      cleaned, errors := data, fieldErrors;
    }

    /** `add_error(field, message)` */
    method AddError(field: string, message: string)
      modifies this
      ensures State() == AddErrorStep(old(State()), field, message)
    {
      errors := errors[field := Messages(errors, field) + [message]];
      cleaned := cleaned - {field};
    }

    /** `clean`; it returns `cleaned_data`, from which `add_error` has removed the
        fields in error. */
    method Clean() returns (data: CleanedData)
      modifies this
      ensures State() == CleanStep(old(State()))
      ensures data == cleaned
    {
      var role := Get(cleaned, RoleField);
      var office := Get(cleaned, OfficeField);
      var specialty := Get(cleaned, SpecialtyField);
      if role == Text(Psychologist) {
        if !Truthy(office) {
          AddError(OfficeField, OfficeRequiredMessage);
        }
        if !Truthy(specialty) {
          AddError(SpecialtyField, SpecialtyRequiredMessage);
        }
      }
      data := cleaned;
    }
  }
}
