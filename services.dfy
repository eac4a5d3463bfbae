/** The sync service (`MongoDBService`): upsert of serialized documents keyed by
    `django_id`, point lookups, the capped case-insensitive search and the
    consistency check against the relational record.

    `connected` is the answer of the first `is_connected()` of the call; `fault` says
    that something after that check failed (the `except Exception` paths, or the
    second `is_connected()` inside `get_account` answering `False`). */
module Services {
  import opened Wrappers
  import opened Text
  import opened Choices
  import opened Serializers
  import F = Fields

  /** One collection: its documents by `django_id`, and the natural order in which
      a query scans them (the order of insertion; updates keep a document's place). */
  datatype Collection = Collection(docs: map<int, Document>, order: seq<int>)

  const EmptyCollection: Collection := Collection(map[], [])

  /** Every key is scanned exactly once, and a document's `django_id` field is its key,
      so the filter `{'django_id': k}` matches exactly `docs[k]`. */
  ghost predicate WellFormed(c: Collection) {
    && (forall i, j :: 0 <= i < j < |c.order| ==> c.order[i] != c.order[j])
    && (forall i :: 0 <= i < |c.order| ==> c.order[i] in c.docs)
    && (forall k :: k in c.docs ==> k in c.order)
    && (forall k :: k in c.docs ==> F.DjangoId in c.docs[k] && c.docs[k][F.DjangoId] == Int(k))
  }

  /** `fields` may set `django_id` only to the key it is saved under. */
  predicate KeyedBy(fields: Document, key: int) {
    F.DjangoId in fields ==> fields[F.DjangoId] == Int(key)
  }

  const SetOnInsertConflict: string := "Updating the path 'created_at' would create a conflict at 'created_at'"

  /** The document an upsert inserts: the filter's equality field, the `$set`
      fields, and the `$setOnInsert` field. */
  function Inserted(key: int, fields: Document, createdAt: int): Document {
    map[F.DjangoId := Int(key)] + fields + map[F.CreatedAt := Stamp(createdAt)]
  }

  /** `update_one({'django_id': key}, {'$set': fields, '$setOnInsert': {'created_at':
      createdAt}}, upsert=True)`. The store refuses an update whose `$set` and
      `$setOnInsert` name the same path. */
  function UpdateOne(c: Collection, key: int, fields: Document, createdAt: int): (r: Result<Collection>)
    requires KeyedBy(fields, key)
    ensures r.Err? <==> F.CreatedAt in fields
    ensures r.Ok? ==> r.value.docs.Keys == c.docs.Keys + {key}
    ensures r.Ok? ==> r.value.order == if key in c.docs then c.order else c.order + [key]
  {
    if F.CreatedAt in fields then Err(SetOnInsertConflict)
    else if key in c.docs then Ok(Collection(c.docs[key := c.docs[key] + fields], c.order))
    else Ok(Collection(c.docs[key := Inserted(key, fields, createdAt)], c.order + [key]))
  }

  /** The upserted document holds every `$set` field with its new value. On an
      update it keeps every other field it had; on an insert it holds just the
      `$set` fields, `django_id` and `created_at`, stamped with the insert time. */
  lemma UpdateOneSets(c: Collection, key: int, fields: Document, createdAt: int)
    requires KeyedBy(fields, key) && F.CreatedAt !in fields
    ensures var d := UpdateOne(c, key, fields, createdAt).value.docs[key];
      && (forall f :: f in fields ==> f in d && d[f] == fields[f])
      && (key in c.docs ==> d.Keys == c.docs[key].Keys + fields.Keys)
      && (key in c.docs ==> forall f :: f in c.docs[key] && f !in fields ==> d[f] == c.docs[key][f])
      && (key !in c.docs ==> d.Keys == fields.Keys + {F.DjangoId, F.CreatedAt})
      && (key !in c.docs ==> d[F.CreatedAt] == Stamp(createdAt) && d[F.DjangoId] == Int(key))
  {
  }

  /** No document under another key changes. */
  lemma UpdateOneOthers(c: Collection, key: int, fields: Document, createdAt: int)
    requires KeyedBy(fields, key) && F.CreatedAt !in fields
    ensures forall k :: k in c.docs && k != key ==> UpdateOne(c, key, fields, createdAt).value.docs[k] == c.docs[k]
  {
  }

  /** An upsert keeps every key scanned once and every `django_id` equal to its key. */
  lemma UpdateOneWellFormed(c: Collection, key: int, fields: Document, createdAt: int)
    requires KeyedBy(fields, key) && F.CreatedAt !in fields && WellFormed(c)
    ensures WellFormed(UpdateOne(c, key, fields, createdAt).value)
  {
    if key in c.docs {
      UpdatedWellFormed(c, key, fields);
    } else {
      InsertedWellFormed(c, key, fields, createdAt);
    }
  }

  /** Updating a stored document keeps the scan order and the document's `django_id`. */
  lemma UpdatedWellFormed(c: Collection, key: int, fields: Document)
    requires KeyedBy(fields, key) && WellFormed(c) && key in c.docs
    ensures WellFormed(Collection(c.docs[key := c.docs[key] + fields], c.order))
  {
    var docs := c.docs[key := c.docs[key] + fields];
    assert docs.Keys == c.docs.Keys;
    assert forall k :: k in docs && k != key ==> docs[k] == c.docs[k];
    assert F.DjangoId in docs[key] && docs[key][F.DjangoId] == Int(key);
  }

  /** Inserting appends the new key, which no scanned key equals. */
  lemma InsertedWellFormed(c: Collection, key: int, fields: Document, createdAt: int)
    requires KeyedBy(fields, key) && F.CreatedAt !in fields && WellFormed(c) && key !in c.docs
    ensures WellFormed(Collection(c.docs[key := Inserted(key, fields, createdAt)], c.order + [key]))
  {
    var docs := c.docs[key := Inserted(key, fields, createdAt)];
    var order := c.order + [key];
    assert forall i :: 0 <= i < |c.order| ==> order[i] == c.order[i] && order[i] != key;
    assert forall k :: k in docs && k != key ==> docs[k] == c.docs[k];
    assert F.DjangoId in docs[key] && docs[key][F.DjangoId] == Int(key);
  }

  /** An update never rewrites `created_at`; an insert stamps it. */
  lemma CreatedAtOnlyOnInsert(c: Collection, key: int, fields: Document, createdAt: int)
    requires KeyedBy(fields, key) && F.CreatedAt !in fields
    ensures key in c.docs && F.CreatedAt in c.docs[key] ==>
      UpdateOne(c, key, fields, createdAt).value.docs[key][F.CreatedAt] == c.docs[key][F.CreatedAt]
    ensures key in c.docs && F.CreatedAt !in c.docs[key] ==>
      F.CreatedAt !in UpdateOne(c, key, fields, createdAt).value.docs[key]
    ensures key !in c.docs ==>
      UpdateOne(c, key, fields, createdAt).value.docs[key][F.CreatedAt] == Stamp(createdAt)
  {
  }

  /** Overwriting with `first` and then with `second` is overwriting with `second`
      alone when `second` names every key of `first`. */
  lemma OverwriteTwice<K, V>(m: map<K, V>, first: map<K, V>, second: map<K, V>)
    requires first.Keys <= second.Keys
    ensures (m + first) + second == m + second
  {
  }

  lemma InsertedThenSet(key: int, first: Document, second: Document, createdAt: int)
    requires F.CreatedAt !in second && first.Keys <= second.Keys
    ensures Inserted(key, first, createdAt) + second == Inserted(key, second, createdAt)
  {
    var lhs := Inserted(key, first, createdAt) + second;
    var rhs := Inserted(key, second, createdAt);
    assert lhs.Keys == rhs.Keys;
    forall f | f in lhs ensures lhs[f] == rhs[f] {
      if f in second {
      } else if f == F.CreatedAt {
      } else {
        assert f !in first;
      }
    }
  }

  /** Upserting twice under one key, the second time with at least the fields of
      the first, leaves what one upsert of the second document would: the first
      document's fields are all overwritten and the first `created_at` stays. */
  lemma {:induction false} UpdateOneTwice(c: Collection, key: int, first: Document, second: Document, t1: int, t2: int)
    requires KeyedBy(first, key) && KeyedBy(second, key)
    requires F.CreatedAt !in first && F.CreatedAt !in second && first.Keys <= second.Keys
    ensures UpdateOne(UpdateOne(c, key, first, t1).value, key, second, t2) == UpdateOne(c, key, second, t1)
  {
    if key in c.docs {
      OverwriteTwice(c.docs[key], first, second);
      assert c.docs[key := c.docs[key] + first][key := (c.docs[key] + first) + second]
          == c.docs[key := c.docs[key] + second];
    } else {
      InsertedThenSet(key, first, second, t1);
      assert c.docs[key := Inserted(key, first, t1)][key := Inserted(key, first, t1) + second]
          == c.docs[key := Inserted(key, second, t1)];
    }
  }

  // ---- search ----

  /** The four fields the search looks in, OR-ed. */
  const SearchFields: seq<F.Field> := [F.Name, F.LastName, F.Email, F.FullName]

  /** The most documents one search returns (`limit(50)`). */
  const SearchLimit: nat := 50

  /** `{field: {'$regex': query, '$options': 'i'}}` for a query without regular
      expression metacharacters: the field holds a string that contains the query,
      ignoring ASCII case. A missing or non-string field does not match. */
  predicate FieldMatches(d: Document, field: F.Field, query: string) {
    field in d && d[field].Str? && ContainsIgnoreCase(d[field].s, query)
  }

  predicate Matches(d: Document, query: string) {
    exists i :: 0 <= i < |SearchFields| && FieldMatches(d, SearchFields[i], query)
  }

  /** A field matches when it holds a string in which the query occurs at some
      offset, both folded to lower case. */
  lemma FieldMatchesIff(d: Document, field: F.Field, query: string)
    ensures FieldMatches(d, field, query) <==>
      GetStr(d, field).Some? && exists i :: OccursAt(Lower(GetStr(d, field).value), Lower(query), i)
  {
    if GetStr(d, field).Some? {
      ContainsIff(Lower(d[field].s), Lower(query));
    }
  }

  /** The `$or` of the four field conditions. */
  lemma MatchesIff(d: Document, query: string)
    ensures Matches(d, query) <==>
      FieldMatches(d, F.Name, query) || FieldMatches(d, F.LastName, query)
      || FieldMatches(d, F.Email, query) || FieldMatches(d, F.FullName, query)
  {
    if FieldMatches(d, F.Name, query) {
      assert SearchFields[0] == F.Name;
    } else if FieldMatches(d, F.LastName, query) {
      assert SearchFields[1] == F.LastName;
    } else if FieldMatches(d, F.Email, query) {
      assert SearchFields[2] == F.Email;
    } else if FieldMatches(d, F.FullName, query) {
      assert SearchFields[3] == F.FullName;
    }
  }

  /** No element occurs twice. */
  predicate Distinct<T(==)>(s: seq<T>) {
    forall i, j :: 0 <= i < j < |s| ==> s[i] != s[j]
  }

  /** The documents of a collection in natural order; no document is met twice,
      since each carries its own key as `django_id`. */
  function Scan(c: Collection): (r: seq<Document>)
    requires WellFormed(c)
    ensures |r| == |c.order|
    ensures forall i :: 0 <= i < |r| ==> r[i] == c.docs[c.order[i]]
    ensures Distinct(r)
  {
    var r := seq(|c.order|, i requires 0 <= i < |c.order| && WellFormed(c) => c.docs[c.order[i]]);
    assert Distinct(r) by {
      forall i, j | 0 <= i < j < |r| ensures r[i] != r[j] {
        assert c.order[i] in c.docs && c.order[j] in c.docs;
        assert r[i][F.DjangoId] == Int(c.order[i]) && r[j][F.DjangoId] == Int(c.order[j]);
      }
    }
    r
  }

  /** The matching documents of `ds`, in order. */
  function Filter(ds: seq<Document>, query: string): (r: seq<Document>)
    ensures |r| <= |ds|
    ensures forall d :: d in r ==> d in ds && Matches(d, query)
    ensures forall d :: d in ds && Matches(d, query) ==> d in r
    decreases |ds|
  {
    if ds == [] then []
    else if Matches(ds[0], query) then [ds[0]] + Filter(ds[1..], query)
    else Filter(ds[1..], query)
  }

  /** Each matching document is kept as often as it occurs, and no other is kept. */
  lemma {:induction false} FilterCounts(ds: seq<Document>, query: string)
    ensures forall d :: multiset(Filter(ds, query))[d] == if Matches(d, query) then multiset(ds)[d] else 0
    decreases |ds|
  {
    if ds != [] {
      FilterCounts(ds[1..], query);
      assert ds == [ds[0]] + ds[1..];
    }
  }

  /** Filtering an input without repeats gives a result without repeats. */
  lemma {:induction false} FilterKeepsDistinct(ds: seq<Document>, query: string)
    requires Distinct(ds)
    ensures Distinct(Filter(ds, query))
    decreases |ds|
  {
    if ds != [] {
      assert Distinct(ds[1..]) by {
        forall i, j | 0 <= i < j < |ds[1..]| ensures ds[1..][i] != ds[1..][j] {
          assert ds[1..][i] == ds[i + 1] && ds[1..][j] == ds[j + 1];
        }
      }
      FilterKeepsDistinct(ds[1..], query);
      if Matches(ds[0], query) {
        var rest := Filter(ds[1..], query);
        var r := [ds[0]] + rest;
        assert ds[0] !in ds[1..];
        forall i, j | 0 <= i < j < |r| ensures r[i] != r[j] {
          if i > 0 {
            assert r[i] == rest[i - 1];
          }
          assert r[j] == rest[j - 1];
        }
      }
    }
  }

  /** `list(collection.find(filter).limit(50))` */
  function FindMatching(c: Collection, query: string): (r: seq<Document>)
    requires WellFormed(c)
    ensures |r| <= SearchLimit
    ensures forall d :: d in r ==> Matches(d, query) && d in c.docs.Values
    ensures |r| < SearchLimit ==> forall k :: k in c.docs && Matches(c.docs[k], query) ==> c.docs[k] in r
    ensures Distinct(r)
  {
    var all := Filter(Scan(c), query);
    FilterKeepsDistinct(Scan(c), query);
    var r := if |all| <= SearchLimit then all else all[..SearchLimit];
    assert Distinct(r) by {
      forall i, j | 0 <= i < j < |r| ensures r[i] != r[j] {
        assert r[i] == all[i] && r[j] == all[j];
      }
    }
    assert forall d :: d in r ==> d in all;
    assert forall d :: d in Scan(c) ==> d in c.docs.Values by {
      forall d | d in Scan(c) ensures d in c.docs.Values {
        var i :| 0 <= i < |Scan(c)| && Scan(c)[i] == d;
        assert c.order[i] in c.docs;
      }
    }
    assert forall k :: k in c.docs ==> c.docs[k] in Scan(c) by {
      forall k | k in c.docs ensures c.docs[k] in Scan(c) {
        var i :| 0 <= i < |c.order| && c.order[i] == k;
        assert Scan(c)[i] == c.docs[k];
      }
    }
    r
  }

  /** The identity fields the consistency check compares, as Python's `==` between
      a stored value and a string: a stored non-string never equals. A missing field
      raises `KeyError`, which the check turns into `False`. */
  predicate SameIdentity(d: Document, a: Account) {
    && F.Email in d && d[F.Email] == Str(a.email)
    && F.Name in d && d[F.Name] == Str(a.name)
    && F.LastName in d && d[F.LastName] == Str(a.lastName)
  }

  /** The identity comparison reads each of the three fields as a string. */
  lemma SameIdentityIff(d: Document, a: Account)
    ensures SameIdentity(d, a) <==>
      GetStr(d, F.Email) == Some(a.email) && GetStr(d, F.Name) == Some(a.name)
      && GetStr(d, F.LastName) == Some(a.lastName)
  {
  }

  /** The service over its two collections. */
  class MongoDBService {
    var accounts: Collection
    var appointments: Collection

    ghost predicate Valid()
      reads this
    {
      WellFormed(accounts) && WellFormed(appointments)
    }

    constructor ()
      ensures Valid()
      ensures accounts == EmptyCollection && appointments == EmptyCollection
    {
      accounts, appointments := EmptyCollection, EmptyCollection;
    }

    /** `save_account`: `now` and `createdAt` stand for the two `utcnow()` calls.
        A `fault` is `update_one` raising; `written` says whether the store had
        already applied the write when it did (a lost reply), in which case the save
        reports failure although the document is stored. */
    method SaveAccount(connected: bool, fault: bool, written: bool, a: Account, now: int, createdAt: int)
      returns (ok: bool)
      requires Valid()
      modifies this`accounts
      ensures Valid()
      ensures ok <==> connected && !fault
      ensures accounts ==
        if connected && (!fault || written) then SavedAccount(old(accounts), a, now, createdAt) else old(accounts)
    {
      if !connected {
        return false;
      }
      if fault && !written {
        return false;
      }
      SavedAccountIsStored(accounts, a, now, createdAt);
      accounts := SavedAccount(accounts, a, now, createdAt);
      ok := !fault;
    }

    /** `save_appointment`; serializing an appointment without `notes` raises inside
        the `try` before any write, so the save reports failure and stores nothing.
        `fault` and `written` are as for `save_account`. */
    method SaveAppointment(connected: bool, fault: bool, written: bool, ap: Appointment, now: int, createdAt: int)
      returns (ok: bool)
      requires Valid()
      modifies this`appointments
      ensures Valid()
      ensures ok <==> connected && !fault && ap.notes.Some?
      ensures connected && ap.notes.Some? && (!fault || written) ==>
        appointments == SavedAppointment(old(appointments), ap, now, createdAt)
      ensures !(connected && ap.notes.Some? && (!fault || written)) ==> appointments == old(appointments)
    {
      if !connected {
        return false;
      }
      var data := SerializeAppointment(ap, now);
      if data.Err? {
        return false;
      }
      if fault && !written {
        return false;
      }
      SavedAppointmentIsStored(appointments, ap, now, createdAt);
      appointments := SavedAppointment(appointments, ap, now, createdAt);
      ok := !fault;
    }

    /** `get_account` */
    function GetAccount(connected: bool, fault: bool, id: int): (r: Option<Document>)
      reads this
      ensures r.Some? <==> connected && !fault && id in accounts.docs
      ensures r.Some? ==> r.value == accounts.docs[id]
    {
      if !connected || fault then None
      else if id in accounts.docs then Some(accounts.docs[id])
      else None
    }

    /** `get_appointment` */
    function GetAppointment(connected: bool, fault: bool, id: int): (r: Option<Document>)
      reads this
      ensures r.Some? <==> connected && !fault && id in appointments.docs
      ensures r.Some? ==> r.value == appointments.docs[id]
    {
      if !connected || fault then None
      else if id in appointments.docs then Some(appointments.docs[id])
      else None
    }

    /** `search_accounts`: at most 50 stored accounts, each matching the query in one
        of the four fields; all of the matches when there are fewer than 50. */
    function SearchAccounts(connected: bool, fault: bool, query: string): (r: seq<Document>)
      reads this
      requires Valid()
      ensures |r| <= SearchLimit
      ensures forall d :: d in r ==> Matches(d, query) && d in accounts.docs.Values
      ensures !connected || fault ==> r == []
      ensures connected && !fault && |r| < SearchLimit ==>
        forall k :: k in accounts.docs && Matches(accounts.docs[k], query) ==> accounts.docs[k] in r
      ensures Distinct(r)
    {
      if !connected || fault then [] else FindMatching(accounts, query)
    }

    /** `verify_data_consistency(django_id, model_type)`; `primary` is the relational
        `Account` table, where a missing id raises `DoesNotExist`. */
    function VerifyDataConsistency(connected: bool, fault: bool, primary: map<int, Account>, id: int, modelType: string): (r: bool)
      reads this
      requires Valid()
      ensures r <==> connected && !fault && modelType == "account" && id in primary
                     && id in accounts.docs && SameIdentity(accounts.docs[id], primary[id])
    {
      if !connected || fault then false
      else if modelType != "account" then false
      else if id !in primary then false
      else match GetAccount(connected, fault, id)
        case None => false
        case Some(doc) => doc != map[] && SameIdentity(doc, primary[id])
    }
  }

  // ---- what saving a snapshot does to a collection ----

  /** Account documents are keyed by the account's id and never set `created_at`. */
  lemma AccountSaveable(a: Account, now: int)
    ensures KeyedBy(SerializeAccount(a, now), a.id)
    ensures F.CreatedAt !in SerializeAccount(a, now)
  {
    BaseFieldsKept(a, now, F.DjangoId);
    assert F.CreatedAt !in AccountBase(a, now) && F.CreatedAt !in ProfileFields(a);
  }

  lemma AppointmentSaveable(ap: Appointment, now: int)
    requires ap.notes.Some?
    ensures KeyedBy(SerializeAppointment(ap, now).value, ap.id)
    ensures F.CreatedAt !in SerializeAppointment(ap, now).value
  {
    AppointmentSyncStamp(ap, now);
  }

  /** The collection after a successful `save_account`. */
  function SavedAccount(c: Collection, a: Account, now: int, createdAt: int): Collection {
    AccountSaveable(a, now);
    UpdateOne(c, a.id, SerializeAccount(a, now), createdAt).value
  }

  /** The collection after a successful `save_appointment`. */
  function SavedAppointment(c: Collection, ap: Appointment, now: int, createdAt: int): Collection
    requires ap.notes.Some?
  {
    AppointmentSaveable(ap, now);
    UpdateOne(c, ap.id, SerializeAppointment(ap, now).value, createdAt).value
  }

  /** Saving the same snapshot twice leaves the collection as saving it once with
      the later timestamp and the first `created_at`; with equal timestamps the
      second save changes nothing. */
  lemma SaveAccountIdempotent(c: Collection, a: Account, now1: int, now2: int, t1: int, t2: int)
    ensures SavedAccount(SavedAccount(c, a, now1, t1), a, now2, t2) == SavedAccount(c, a, now2, t1)
    ensures SavedAccount(SavedAccount(c, a, now1, t1), a, now1, t2) == SavedAccount(c, a, now1, t1)
  {
    AccountSaveable(a, now1);
    AccountSaveable(a, now2);
    AccountShape(a, now1);
    AccountShape(a, now2);
    UpdateOneTwice(c, a.id, SerializeAccount(a, now1), SerializeAccount(a, now2), t1, t2);
    UpdateOneTwice(c, a.id, SerializeAccount(a, now1), SerializeAccount(a, now1), t1, t2);
  }

  /** After a save exactly one document carries the account's `django_id`; it holds
      the snapshot's identity fields, and every other document is as it was. */
  lemma SavedAccountIsStored(c: Collection, a: Account, now: int, createdAt: int)
    requires WellFormed(c)
    ensures var c' := SavedAccount(c, a, now, createdAt);
      && WellFormed(c')
      && a.id in c'.docs
      && (forall k :: k in c'.docs && c'.docs[k][F.DjangoId] == Int(a.id) ==> k == a.id)
      && (forall k :: k in c.docs && k != a.id ==> c'.docs[k] == c.docs[k])
      && SameIdentity(c'.docs[a.id], a)
  {
    AccountSaveable(a, now);
    IdentityReadBack(a, now);
    UpdateOneWellFormed(c, a.id, SerializeAccount(a, now), createdAt);
    UpdateOneOthers(c, a.id, SerializeAccount(a, now), createdAt);
    UpdateOneSets(c, a.id, SerializeAccount(a, now), createdAt);
  }

  /** Saving the same appointment twice leaves the collection as saving it once with
      the later timestamp and the first `created_at`. */
  lemma SaveAppointmentIdempotent(c: Collection, ap: Appointment, now1: int, now2: int, t1: int, t2: int)
    requires ap.notes.Some?
    ensures SavedAppointment(SavedAppointment(c, ap, now1, t1), ap, now2, t2) == SavedAppointment(c, ap, now2, t1)
    ensures SavedAppointment(SavedAppointment(c, ap, now1, t1), ap, now1, t2) == SavedAppointment(c, ap, now1, t1)
  {
    AppointmentSaveable(ap, now1);
    AppointmentSaveable(ap, now2);
    var s1, s2 := SerializeAppointment(ap, now1).value, SerializeAppointment(ap, now2).value;
    assert s1.Keys == AppointmentKeys == s2.Keys;
    UpdateOneTwice(c, ap.id, s1, s2, t1, t2);
    UpdateOneTwice(c, ap.id, s1, s1, t1, t2);
  }

  /** After a save exactly one document carries the appointment's `django_id`; it
      holds every serialized field, and every other document is as it was. */
  lemma SavedAppointmentIsStored(c: Collection, ap: Appointment, now: int, createdAt: int)
    requires WellFormed(c) && ap.notes.Some?
    ensures var c' := SavedAppointment(c, ap, now, createdAt); var s := SerializeAppointment(ap, now).value;
      && WellFormed(c')
      && ap.id in c'.docs
      && (forall k :: k in c'.docs && c'.docs[k][F.DjangoId] == Int(ap.id) ==> k == ap.id)
      && (forall k :: k in c.docs && k != ap.id ==> c'.docs[k] == c.docs[k])
      && (forall f :: f in s ==> f in c'.docs[ap.id] && c'.docs[ap.id][f] == s[f])
  {
    var s := SerializeAppointment(ap, now).value;
    AppointmentSaveable(ap, now);
    UpdateOneWellFormed(c, ap.id, s, createdAt);
    UpdateOneOthers(c, ap.id, s, createdAt);
    UpdateOneSets(c, ap.id, s, createdAt);
  }

  /** `get_account` after a save reads the snapshot back in full, except that a
      profile stored earlier is not removed when the account stops being a psychologist. */
  lemma SavedAccountReadsBack(c: Collection, a: Account, now: int, createdAt: int)
    ensures var d := SavedAccount(c, a, now, createdAt).docs[a.id];
      && AccountFromDocument(d).Some?
      && AccountFromDocument(d).value.(doctorProfile := None) == a.(doctorProfile := None)
      && (a.role == Psychologist ==> AccountFromDocument(d) == Some(a))
      && (a.role != Psychologist && a.id in c.docs ==>
            GetDoc(d, F.DoctorProfile) == GetDoc(c.docs[a.id], F.DoctorProfile))
  {
    var s := SerializeAccount(a, now);
    AccountSaveable(a, now);
    AccountRoundTrip(a, now);
    AccountProfileShape(a, now);
    UpdateOneSets(c, a.id, s, createdAt);
    AccountDecodeExtends(s, SavedAccount(c, a, now, createdAt).docs[a.id]);
  }

  /** A successful save makes the consistency check agree with the snapshot. */
  lemma SavedAccountIsConsistent(c: Collection, a: Account, now: int, createdAt: int)
    ensures SameIdentity(SavedAccount(c, a, now, createdAt).docs[a.id], a)
  {
    AccountSaveable(a, now);
    IdentityReadBack(a, now);
    UpdateOneSets(c, a.id, SerializeAccount(a, now), createdAt);
  }

  /** `$set` never removes a key: a psychologist first saved while the profile lookup
      failed keeps `doctor_profile_incomplete = True` after a later save that
      includes the profile. */
  lemma IncompleteMarkerSurvives(c: Collection, a: Account, p: DoctorProfile, now1: int, now2: int, t1: int, t2: int)
    requires a.role == Psychologist && a.doctorProfile.None?
    ensures var later := SavedAccount(SavedAccount(c, a, now1, t1), a.(doctorProfile := Some(p)), now2, t2);
      && later.docs[a.id][F.DoctorProfileIncomplete] == Bool(true)
      && later.docs[a.id][F.DoctorProfile] == Doc(ProfileDocument(p))
  {
    var b := a.(doctorProfile := Some(p));
    AccountSaveable(a, now1);
    AccountSaveable(b, now2);
    AccountProfileShape(a, now1);
    AccountProfileShape(b, now2);
    UpdateOneSets(c, a.id, SerializeAccount(a, now1), t1);
    UpdateOneSets(SavedAccount(c, a, now1, t1), a.id, SerializeAccount(b, now2), t2);
  }
}
