# Psychology practice: relational records mirrored into MongoDB

This project models the core of a Django application for a psychology practice.
The application keeps accounts (patients and psychologists) and appointments in its
relational database. It mirrors each saved record into a MongoDB document store
through a connection supervisor (`MongoDBClient`), two serializers and a sync service
(`MongoDBService`). It also validates the account, role and appointment forms before
anything is saved.

Modules, one per file:

- `Wrappers` (`wrappers.dfy`): `Option` and `Result`.
- `Text` (`text.dfy`): prefixes and substrings, `rstrip`, ASCII case folding, and
  zero-padded decimal fields with their parser.
- `Choices` (`choices.dfy`): the gender, role, status and specialty choice tables and
  Django's `get_<field>_display`.
- `Temporal` (`temporal.dfy`): dates and times, their `isoformat()` text and parsers.
- `Client` (`client.dfy`): the connection supervisor. It covers choosing the
  connection string, the lazy connection, the `db` property, `is_connected` with its
  one reconnection attempt, and `close`. The class `MongoDBClient` holds the two
  fields `_client` and `_database`. Its methods are specified by pure step functions
  over the pair.
- `Fields` (`fields.dfy`): the document keys the serializers write, as an enumeration.
- `Serializers` (`serializers.dfy`): the account and appointment documents. It also
  has decoders that read a document back, so that the round trips can be stated.
- `Services` (`services.dfy`): the `update_one` upsert on a collection and the sync
  service. The class `MongoDBService` holds the accounts and appointments collections.
  The service covers the upserting saves, point lookups, the capped case-insensitive
  search and the consistency check.
- `AppointmentForms` (`appointment_forms.dfy`): `clean_date` and the form-level
  `clean`, including the slot-conflict query.
- `AccountForms` (`account_forms.dfy`): `clean_email`, `clean_age`, the role form's
  `clean_name`, and the account form's `clean`. The form's `clean` records errors
  with `add_error`, so it is a method of the class `AccountForm`.

The environment is passed in as inputs:

- The network is a pair of booleans. `reachable` says whether every call in
  `_connect`'s `try` succeeds: creating the client, its first ping, and selecting the
  database by name. `pingOk` says whether a ping on a live client succeeds.
- The boolean `connected` is the answer of the first `is_connected()` of a service
  call. The boolean `fault` says that something after that check failed: the store
  operation raised, or, in `verify_data_consistency`, the second `is_connected()`
  made by `get_account` answered `False`; both make the call report failure.
- For a save, the boolean `written` says whether the store had already applied the
  write when `update_one` raised, as when its reply is lost. The save then reports
  `False` although the document is stored.
- `datetime.utcnow()` values are integers.
- `timezone.now().date()` is a `today` argument.
- The stored rows a query would consult are a `set`, a `seq` or a `map` argument.

Where the code and its documentation disagree, the model follows the code:

- Any URI that starts with `mongodb://` or `mongodb+srv://` is passed to `MongoClient`
  as it is (core/mongodb/client.py:60). That happens even when it holds no
  credentials, and a separately configured user and password are then ignored
  (`Client.SchemedUriIgnoresCredentials`). The authenticated and anonymous connection
  strings are built only for URIs without either scheme.
- The account serializer adds `doctor_profile_incomplete = True` when a
  psychologist's profile cannot be read (core/mongodb/serializers.py:69-72). No later
  save removes that key, because `$set` only overwrites the keys it names. A document
  keeps the marker after the profile exists (`Services.IncompleteMarkerSurvives`).
- The appointment serializer reads `notes` (core/mongodb/serializers.py:106), but the
  `Appointment` model declares no such field (appointments/models.py:18-41). The model
  gives an appointment an optional `notes`. A missing `notes` makes serialization
  fail, so `save_appointment` catches the error and reports `False`
  (`Services.MongoDBService.SaveAppointment`).
- The account form's `clean` returns `cleaned_data` (accounts/forms.py:228). By then,
  each `add_error` has removed its field from it (Django's `add_error` semantics). A
  psychologist's form that lacks an office therefore returns without a
  `doctors_office` entry (`AccountForms.CleanStep`).
- The account form reads `role.code` (accounts/forms.py:222). The account model and
  the serializer store the role as a plain code (accounts/models.py:26,
  core/mongodb/serializers.py:55). The model treats the role as that code everywhere.
- `clean_age` checks only a truthy age (accounts/forms.py:176), so an age of 0 passes
  (`AccountForms.CleanAge`).

## Model

| member | source | states |
|---|---|---|
| Text.RStrip | core/mongodb/client.py:71 | `rstrip('/')` gives the longest prefix that does not end in `/`; every character removed is `/` |
| Client.BaseString | core/mongodb/client.py:71 | the base string is the stripped URI, one `/`, then the database name, with that exact length |
| Client.ConnectionString | core/mongodb/client.py:60-86 | a schemed URI is used unchanged. Without a scheme it is the base string, and with credentials it is the base string plus `&authSource=admin` when the base string already contains `?`, else plus `?authSource=admin` |
| Client.ClientFor | core/mongodb/client.py:60-90 | the client gets the connection string; the CA bundle is passed iff the URI is used as is; credentials are passed iff user and password are both given and the URI has no scheme |
| Client.SchemedUriIgnoresCredentials | core/mongodb/client.py:60-67 | for a `mongodb://` or `mongodb+srv://` URI, the client is the same whatever user and password are configured |
| Client.AuthenticatedHasQuery | core/mongodb/client.py:72-76 | the authenticated connection string always contains a `?` |
| Client.ConnectStep | core/mongodb/client.py:52-109 | after `_connect`, both fields are set iff the settings exist and the server answers, and then they hold the client for those settings and its database. Otherwise both are `None` |
| Client.IsConnectedStep | core/mongodb/client.py:129-139 | with no client the answer is `False` and nothing changes; on a successful ping the answer is `True` and nothing changes; on a failed ping it reconnects once and answers whether a client exists now. The two fields stay consistent |
| Client.DbStep | core/mongodb/client.py:118-121 | `db` connects only when both fields are `None` and returns `_database` from the state it leaves |
| Client.CloseStep | core/mongodb/client.py:147-150 | `close` clears a connected state and leaves a disconnected one unchanged |
| Client.CloseIdempotent | core/mongodb/client.py:147-150 | closing twice leaves the same state as closing once |
| Client.ProbeAll | core/mongodb/client.py:129-139 | a series of `is_connected` calls gives one answer per call, keeps a consistent pair of fields consistent, and its last answer says whether a client is left |
| Client.DisconnectedStaysDisconnected | core/mongodb/client.py:129-130 | once `_client` is `None`, `is_connected` answers `False` forever and never reconnects, whatever the network does |
| Client.FailedStartupIsPermanent | core/mongodb/client.py:37-40 | after a failed first connection, every later `is_connected` answers `False` |
| Client.ReconnectsAfterFailedPing | core/mongodb/client.py:136-139 | a failed ping on a live client, followed by a successful reconnection, answers `True` with a fresh client and database |
| Client.MongoDBClient.constructor | core/mongodb/client.py:37-40 | a new instance has connected once, as `_connect` does |
| Client.MongoDBClient.Connect | core/mongodb/client.py:42-109 | the fields become exactly the `_connect` state, and they are consistent |
| Client.MongoDBClient.Db | core/mongodb/client.py:111-121 | the returned database and the new fields are those of the `db` step |
| Client.MongoDBClient.IsConnected | core/mongodb/client.py:123-139 | the answer and the new fields are those of the `is_connected` step; consistency is kept |
| Client.MongoDBClient.Close | core/mongodb/client.py:141-151 | the new fields are those of the `close` step; a consistent supervisor ends disconnected |
| Choices.Display | core/mongodb/serializers.py:46-49 | `get_<field>_display()` gives a listed code's label from its table and an unlisted code unchanged |
| Choices.GenderLabels | accounts/models.py:9-13 | the gender codes `M`, `F` and `O` show as `Male`, `Female` and `Other` |
| Choices.RoleLabels | accounts/models.py:15-18 | the role codes show as `Patient` and `Psychologist` |
| Choices.StatusLabels | appointments/models.py:10-16 | each of the five status codes shows as its label, `no_show` as `No Show` |
| Choices.SpecialtyLabels | doctors/models.py:9-16 | each of the six specialty codes shows as its label |
| Temporal.IsoDate | core/mongodb/serializers.py:102 | `date.isoformat()` is 10 characters with dashes at positions 4 and 7 |
| Temporal.IsoDateRoundTrip | core/mongodb/serializers.py:102 | the stored date string parses back to the same date |
| Temporal.IsoTime | core/mongodb/serializers.py:103 | `time.isoformat()` is `HH:MM:SS`, plus `.ffffff` only when the microsecond is not zero |
| Temporal.IsoTimeRoundTrip | core/mongodb/serializers.py:103 | the stored time string parses back to the same time |
| Temporal.BeforeTrichotomy | appointments/forms.py:33 | the order on dates used by `clean_date` is total: two dates are equal or one is strictly before the other |
| Serializers.GetFullName | accounts/models.py:42-44 | the full name is the first name, one space, then the last name |
| Serializers.OfficeDocument | core/mongodb/serializers.py:62-67 | the nested office document has exactly the office id, name, address and phone keys |
| Serializers.ProfileDocument | core/mongodb/serializers.py:58-68 | the doctor profile document has exactly the id, specialty, specialty label and office keys |
| Serializers.AccountShape | core/mongodb/serializers.py:38-72 | the keys of `serialize`'s account document: the 13 base keys, plus `doctor_profile` for a psychologist, plus `doctor_profile_incomplete` when the profile lookup raised |
| Serializers.AccountSyncStamp | core/mongodb/serializers.py:50-51 | every account document carries `sync_version = 1` and the `updated_at` time of the call |
| Serializers.AccountProfileShape | core/mongodb/serializers.py:54-72 | for other roles there is no profile key. A psychologist with a profile gets the embedded profile document and no incomplete marker. A psychologist without one gets `doctor_profile = None` and `doctor_profile_incomplete = True` |
| Serializers.AccountDerivedFields | core/mongodb/serializers.py:42-49 | `full_name` is the first name, a space and the last name; the gender and role labels come from the choice tables |
| Serializers.AccountLabels | core/mongodb/serializers.py:46-49 | gender `M` is labelled `Male`, and the psychologist role `Psychologist` |
| Serializers.ProfileDocumentRoundTrip | core/mongodb/serializers.py:58-68 | the embedded profile and office read back to the profile they came from |
| Serializers.AccountRoundTrip | core/mongodb/serializers.py:38-72 | an account document reads back to the account; only a non-psychologist's profile, which the serializer ignores, is lost |
| Serializers.AccountDecodeExtends | core/mongodb/serializers.py:38-72 | a document holding at least the serialized fields decodes to the same account, except that it may carry a profile the serialized document did not name |
| Serializers.PartyDocument | core/mongodb/serializers.py:92-101 | an embedded party has exactly the keys id, name and email |
| Serializers.SerializeAppointment | core/mongodb/serializers.py:90-110 | serialization fails iff `notes` is missing; otherwise the document has exactly the 10 appointment keys |
| Serializers.AppointmentSyncStamp | core/mongodb/serializers.py:91-108 | every appointment document carries `sync_version = 1`, the call's `updated_at` and the appointment's `django_id` |
| Serializers.AppointmentRoundTrip | core/mongodb/serializers.py:90-106 | an appointment document reads back to the appointment's id, each party's id, full name and email, its date, time, status and notes |
| Serializers.AppointmentStatusLabel | core/mongodb/serializers.py:105 | the status label comes from the status table, so `no_show` shows as `No Show` |
| Services.UpdateOne | core/mongodb/services.py:46-53 | the upsert fails iff `$set` names `created_at`; otherwise the collection's keys gain the saved key, and a new key goes to the end of the scan order |
| Services.UpdateOneSets | core/mongodb/services.py:46-53 | the saved document holds every `$set` field with its new value. An update keeps every other field it had; an insert holds just the `$set` fields, `django_id` and `created_at` |
| Services.UpdateOneOthers | core/mongodb/services.py:46-53 | no document under another key changes |
| Services.UpdateOneWellFormed | core/mongodb/services.py:46-53 | after an upsert every key is still scanned once, and each document's `django_id` is still its key |
| Services.UpdatedWellFormed | core/mongodb/services.py:46-53 | updating a stored document keeps the collection well formed |
| Services.InsertedWellFormed | core/mongodb/services.py:46-53 | inserting a new key at the end of the scan order keeps the collection well formed |
| Services.CreatedAtOnlyOnInsert | core/mongodb/services.py:50 | an update keeps the old `created_at`, or its absence; an insert stamps it |
| Services.UpdateOneTwice | core/mongodb/services.py:46-53 | two upserts of the same key, the second naming at least the fields of the first, equal one upsert of the second with the first `created_at` |
| Services.FieldMatchesIff | core/mongodb/services.py:120-123 | a field condition holds iff the field is a string in which the query occurs at some offset, both lower-cased |
| Services.MatchesIff | core/mongodb/services.py:118-125 | a document matches iff one of `name`, `last_name`, `email` and `full_name` matches |
| Services.Scan | core/mongodb/services.py:127 | the scan yields the stored documents in natural order, one per key, and never the same document twice |
| Services.Filter | core/mongodb/services.py:118-127 | the filtered documents are exactly the matching ones of the input, and there are no more of them than input documents |
| Services.FilterCounts | core/mongodb/services.py:118-127 | each matching document of the input is kept as many times as it occurs there, and no other document is kept |
| Services.FilterKeepsDistinct | core/mongodb/services.py:118-127 | an input without repeats gives a result without repeats |
| Services.FindMatching | core/mongodb/services.py:127 | at most 50 documents are returned, each stored and matching; all matches are returned when there are fewer than 50; no document is returned twice |
| Services.MongoDBService.SaveAccount | core/mongodb/services.py:37-68 | the save reports success iff connected and `update_one` did not raise. The accounts collection is the upsert of the serialized account when connected and the write reached the store (no fault, or a fault after the write); otherwise it is unchanged |
| Services.MongoDBService.SaveAppointment | core/mongodb/services.py:146-174 | the save reports success iff connected, the appointment has `notes` and `update_one` did not raise. The appointments collection is the upsert when connected, `notes` is present and the write reached the store (no fault, or a fault after the write); otherwise it is unchanged |
| Services.MongoDBService.GetAccount | core/mongodb/services.py:80-99 | a document is returned iff connected, nothing raised and the id is stored, and it is the stored document |
| Services.MongoDBService.GetAppointment | core/mongodb/services.py:186-198 | as for accounts, on the appointments collection |
| Services.MongoDBService.SearchAccounts | core/mongodb/services.py:111-134 | the result is empty when not connected or on a fault; otherwise it holds at most 50 stored accounts matching the query, and all of them when fewer than 50 match; no account appears twice |
| Services.SameIdentityIff | core/mongodb/services.py:224-228 | the identity comparison holds iff the stored `email`, `name` and `last_name` are strings equal to the account's |
| Services.MongoDBService.VerifyDataConsistency | core/mongodb/services.py:211-234 | true iff connected, nothing raised, the type is `account`, both stores hold the id, and email, first name and last name agree |
| Services.AccountSaveable | core/mongodb/services.py:43-53 | an account document is keyed by the account id and never names `created_at`, so its upsert cannot fail |
| Services.AppointmentSaveable | core/mongodb/services.py:152-161 | an appointment document with notes is keyed by the appointment id and never names `created_at` |
| Services.SaveAccountIdempotent | core/mongodb/services.py:37-68 | saving an account twice equals saving it once with the later timestamp and the first `created_at`; with equal timestamps the second save changes nothing |
| Services.SavedAccountIsStored | core/mongodb/services.py:46-53 | after a save exactly one document carries the account's id. It holds the account's identity fields, every other document is unchanged, and the collection stays well formed |
| Services.SaveAppointmentIdempotent | core/mongodb/services.py:146-174 | saving an appointment twice equals saving it once with the later timestamp and the first `created_at`; with equal timestamps the second save changes nothing |
| Services.SavedAppointmentIsStored | core/mongodb/services.py:152-161 | after a save exactly one document carries the appointment's id. It holds every serialized field, every other document is unchanged, and the collection stays well formed |
| Services.SavedAccountReadsBack | core/mongodb/services.py:80-92 | `get_account` after a save reads the account back. A psychologist reads back in full; for other roles the stored `doctor_profile` is the one stored before the save |
| Services.SavedAccountIsConsistent | core/mongodb/services.py:224-228 | after a save the consistency check's three identity fields agree with the account |
| Services.IncompleteMarkerSurvives | core/mongodb/serializers.py:69-72 | a psychologist first saved without a profile keeps `doctor_profile_incomplete = True` after a later save that has the profile |
| AppointmentForms.CleanDate | appointments/forms.py:30-35 | a date is refused iff it is before today (a missing one passes), with the past-date message; an accepted date is returned unchanged |
| AppointmentForms.Clashes | appointments/forms.py:51-55 | a stored appointment clashes iff it has the same psychologist, date and time and is not the form's own instance; with no instance (`pk=None`) nothing is excluded |
| AppointmentForms.HasConflict | appointments/forms.py:51-55 | the query finds a conflict iff some stored appointment has the same psychologist, date and time and is not the form's own instance |
| AppointmentForms.ConflictMessage | appointments/forms.py:58-60 | the conflict message is the fixed prefix, the time, ` on `, the date and a period |
| AppointmentForms.ConflictMessageNamesSlot | appointments/forms.py:58-60 | different slots give different conflict messages |
| AppointmentForms.Clean | appointments/forms.py:37-62 | the form is refused iff patient and psychologist are the same person, or psychologist, date and time are all present and the slot is taken. The same-person message wins; an accepted form keeps its data |
| AppointmentForms.CleanMessagesDistinct | appointments/forms.py:47-60 | the conflict message is never the same-person message |
| AppointmentForms.EditKeepsOwnSlot | appointments/forms.py:55 | re-validating a stored appointment in its own slot does not conflict with itself |
| AppointmentForms.AcceptedBookingKeepsSlotsUnique | appointments/forms.py:50-60 | adding a new appointment the form accepted keeps every psychologist slot unique |
| AppointmentForms.ConflictIgnoresPatient | appointments/forms.py:50-57 | whether the slot is free does not depend on the patient |
| AppointmentForms.InitialStatusIsListed | appointments/forms.py:28 | the form's initial status `scheduled` is a listed status, labelled `Scheduled` |
| AccountForms.CleanEmail | accounts/forms.py:147-150 | an email is refused iff an existing account has exactly that email, with the duplicate-email message; otherwise it is returned unchanged |
| AccountForms.AcceptedEmailKeepsEmailsUnique | accounts/forms.py:147-150 | storing an account whose email passed keeps every stored email distinct |
| AccountForms.CleanAge | accounts/forms.py:175-178 | an age is refused iff it is present, not zero and outside 1..120; otherwise it is returned unchanged |
| AccountForms.CleanName | accounts/forms.py:251-256 | a role name is refused iff it is non-empty and equals an existing role name up to case; otherwise it is returned unchanged |
| AccountForms.NameTaken | accounts/forms.py:254 | the `iexact` query finds a role iff some existing name equals the given one up to case |
| AccountForms.CleanNameIgnoresCase | accounts/forms.py:254 | changing only the case of a name does not change whether it is refused |
| AccountForms.AddErrorStep | accounts/forms.py:224-226 | `add_error` appends the message to the field's errors and removes the field from `cleaned_data`; nothing else changes |
| AccountForms.MissingFields | accounts/forms.py:222-226 | for a psychologist, the office is missing iff it is falsy and the specialty is missing iff it is falsy; for any other role nothing is missing |
| AccountForms.CleanStep | accounts/forms.py:216-228 | `clean` gives exactly the missing fields their required message and removes them from `cleaned_data`; every other field and error is unchanged |
| AccountForms.CleanValidIff | accounts/forms.py:216-228 | an error-free form stays error-free iff it is not a psychologist's, or it names both an office and a specialty |
| AccountForms.OtherRolesUntouched | accounts/forms.py:222 | a form with any other role is unchanged by `clean` |
| AccountForms.BothReported | accounts/forms.py:223-226 | a psychologist's form missing both fields reports both messages |
| AccountForms.AccountForm.AddError | accounts/forms.py:224-226 | the form's new state is the `add_error` step |
| AccountForms.AccountForm.Clean | accounts/forms.py:216-228 | the form's new state is the `clean` step, and the returned data is the form's new `cleaned_data` |

## Left out

- Network, TLS and timeouts: `MongoClient`, `certifi.where()`, the 5-second server
  selection timeout and the ping are boolean inputs. `ClientHandle` records only what
  the client was given.
- Logging: every `logger` call only writes a message.
- The clock: `datetime.utcnow()` and `timezone.now().date()` are inputs. Timestamps are
  integers.
- Regular expressions: a search query is taken as a literal substring. Queries with
  metacharacters are not modelled.
- Case folding covers ASCII letters only, for `$options: 'i'` and `name__iexact`.
- Concurrency and the singleton `__new__`: the model has one supervisor and one
  service, used by one caller at a time.
- MongoDB's `_id` field, the `find_one` projection and `result.matched_count`, which is
  used only for logging.
- Document keys are the serializer's fixed keys (`Fields.Field`), not arbitrary
  strings.
- Services.FindMatching: when 50 or more documents match, the contract does not say
  which 50 are returned. The body returns the first 50 in scan order.
- Client.ConnectStep: the driver's check of the database name is not modelled on its
  own. An empty name, or one holding `/`, `.`, `$` or a space, makes selecting the
  database raise inside the `try`; the model counts that as `reachable` being false.
- Services.MongoDBService.VerifyDataConsistency: the default `model_type='account'`
  is not modelled; every call passes the model type.
- Client.MongoDBClient.Close: `self._client.close()` raising is not modelled.
- Django's `_post_clean`: the model-level `unique_together` validation and
  `Appointment.clean`, the `unique=True` check on email, and field coercion before
  the `clean_*` methods. Only their results, the cleaned values, are inputs.
- Day-of-month validity: a `Date` allows any day from 1 to 31.
- Views, URL routing, admin, the API views, migrations, and the offices, polls and
  doctors forms: none of these is part of this model. Of the Django models, only the
  choice tables and `get_full_name` are modelled.
