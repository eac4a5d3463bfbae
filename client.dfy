/** The connection supervisor (`MongoDBClient`): connection-string selection, lazy
    connection, ping-based health check with one reconnection, and `close`.

    The network is an oracle: `reachable` says whether every call inside
    `_connect`'s `try` succeeds (building the client, the first `ping`, and selecting
    the database, which the driver refuses for an invalid database name);
    `pingOk` whether the `ping` on an existing client does. */
module Client {
  import opened Wrappers
  import opened Text

  /** `MONGODB_URI`, `MONGODB_USER`, `MONGODB_PASSWORD`, `MONGODB_DATABASE`; a user or
      password that is `None` behaves as `""` (both are falsy). */
  datatype Settings = Settings(uri: string, user: string, password: string, database: string)

  datatype Credentials = Credentials(username: string, password: string)

  /** The three ways `_connect` builds a client. */
  datatype Mode = UriAsIs | Authenticated | Anonymous

  /** What `MongoClient(...)` was given: the connection string, the separate
      credentials if any, and whether the CA bundle was passed for TLS. */
  datatype ClientHandle = ClientHandle(target: string, credentials: Option<Credentials>, caBundle: bool)

  /** `client[database]` */
  datatype DatabaseHandle = DatabaseHandle(client: ClientHandle, name: string)

  const SrvScheme: string := "mongodb+srv://"
  const PlainScheme: string := "mongodb://"
  const AuthSource: string := "authSource=admin"

  predicate HasScheme(uri: string) {
    StartsWith(uri, SrvScheme) || StartsWith(uri, PlainScheme)
  }

  /** Truthiness of the user and password strings. */
  predicate HasCredentials(s: Settings) {
    s.user != "" && s.password != ""
  }

  function ModeOf(s: Settings): Mode {
    if HasScheme(s.uri) then UriAsIs
    else if HasCredentials(s) then Authenticated
    else Anonymous
  }

  /** `f"{uri.rstrip('/')}/{database}"` */
  function BaseString(s: Settings): (b: string)
    ensures |b| == |RStrip(s.uri, '/')| + 1 + |s.database|
    ensures StartsWith(b, RStrip(s.uri, '/'))
    ensures b[|RStrip(s.uri, '/')|] == '/'
    ensures b[|RStrip(s.uri, '/')| + 1..] == s.database
  {
    RStrip(s.uri, '/') + "/" + s.database
  }

  /** The connection string `_connect` hands to `MongoClient`. */
  function ConnectionString(s: Settings): (r: string)
    ensures ModeOf(s) == UriAsIs ==> r == s.uri
    ensures ModeOf(s) == Anonymous ==> r == BaseString(s)
    ensures ModeOf(s) == Authenticated ==>
      var b := BaseString(s);
      && |r| == |b| + 1 + |AuthSource|
      && StartsWith(r, b)
      && r[|b|] == (if Contains(b, "?") then '&' else '?')
      && r[|b| + 1..] == AuthSource
  {
    match ModeOf(s)
    case UriAsIs => s.uri
    case Authenticated =>
      var b := BaseString(s);
      if Contains(b, "?") then b + "&" + AuthSource else b + "?" + AuthSource
    case Anonymous => BaseString(s)
  }

  function ClientFor(s: Settings): (c: ClientHandle)
    ensures c.target == ConnectionString(s)
    ensures c.caBundle <==> ModeOf(s) == UriAsIs
    ensures c.credentials.Some? <==> ModeOf(s) == Authenticated
    ensures c.credentials.Some? ==> c.credentials.value == Credentials(s.user, s.password)
  {
    match ModeOf(s)
    case UriAsIs => ClientHandle(s.uri, None, true)
    case Authenticated => ClientHandle(ConnectionString(s), Some(Credentials(s.user, s.password)), false)
    case Anonymous => ClientHandle(ConnectionString(s), None, false)
  }

  /** A `mongodb://` or `mongodb+srv://` URI is used as it is, whatever the user and
      password settings say; they are not passed on. */
  lemma {:induction false} SchemedUriIgnoresCredentials(s: Settings, user: string, password: string)
    requires HasScheme(s.uri)
    ensures ClientFor(s.(user := user, password := password)) == ClientHandle(s.uri, None, true)
  {
  }

  /** With separate credentials the connection string always carries a query part. */
  lemma {:induction false} AuthenticatedHasQuery(s: Settings)
    requires ModeOf(s) == Authenticated
    ensures Contains(ConnectionString(s), "?")
  {
    var b := BaseString(s);
    var r := ConnectionString(s);
    var i: int;
    if Contains(b, "?") {
      ContainsIff(b, "?");
      i :| OccursAt(b, "?", i);
      assert b[i] == b[i..i + 1][0] == '?';
      assert r[..|b|] == b;
      assert r[i] == r[..|b|][i];
    } else {
      i := |b|;
    }
    assert r[i] == '?';
    assert r[i..i + 1] == [r[i]];
    assert OccursAt(r, "?", i);
    ContainsIff(r, "?");
  }

  // ---- connection state ----

  /** The pair of fields `_client` and `_database`. */
  datatype ConnState = ConnState(client: Option<ClientHandle>, database: Option<DatabaseHandle>)

  const Disconnected: ConnState := ConnState(None, None)

  /** `_client is None` exactly when `_database is None`, and the database handle
      belongs to the client. */
  predicate Consistent(st: ConnState) {
    && (st.client.None? <==> st.database.None?)
    && (st.database.Some? ==> st.database.value.client == st.client.value)
  }

  /** The state `_connect` leaves, whatever the state before: both fields set after a
      successful ping, both cleared when the settings are missing (`AttributeError`)
      or building the client or the ping raises. */
  function ConnectStep(settings: Option<Settings>, reachable: bool): (st: ConnState)
    ensures Consistent(st)
    ensures st.client.Some? <==> settings.Some? && reachable
    ensures st.client.Some? ==>
      st.client.value == ClientFor(settings.value) && st.database.value.name == settings.value.database
  {
    if settings.Some? && reachable then
      var c := ClientFor(settings.value);
      ConnState(Some(c), Some(DatabaseHandle(c, settings.value.database)))
    else Disconnected
  }

  /** The answer of `is_connected` and the state it leaves. */
  datatype Probe = Probe(alive: bool, after: ConnState)

  function IsConnectedStep(st: ConnState, settings: Option<Settings>, pingOk: bool, reachable: bool): (p: Probe)
    ensures p.alive <==> p.after.client.Some?
    ensures Consistent(st) ==> Consistent(p.after)
    ensures st.client.None? ==> p.after == st
    ensures st.client.Some? && pingOk ==> p.after == st
    ensures st.client.Some? && !pingOk ==> p.after == ConnectStep(settings, reachable)
  {
    if st.client.None? then Probe(false, st)
    else if pingOk then Probe(true, st)
    else
      var st' := ConnectStep(settings, reachable);
      Probe(st'.client.Some?, st')
  }

  /** The result of the `db` property and the state it leaves. */
  datatype DbAccess = DbAccess(db: Option<DatabaseHandle>, after: ConnState)

  function DbStep(st: ConnState, settings: Option<Settings>, reachable: bool): (a: DbAccess)
    ensures a.db == a.after.database
    ensures st.client.None? && st.database.None? ==> a.after == ConnectStep(settings, reachable)
    ensures Consistent(st) && st.client.Some? ==> a.after == st
    ensures Consistent(st) ==> Consistent(a.after)
  {
    var st' := if st.database.None? && st.client.None? then ConnectStep(settings, reachable) else st;
    DbAccess(st'.database, st')
  }

  function CloseStep(st: ConnState): (r: ConnState)
    ensures Consistent(st) ==> r == Disconnected
    ensures st.client.None? ==> r == st
  {
    if st.client.Some? then Disconnected else st
  }

  /** Closing twice is closing once. */
  lemma CloseIdempotent(st: ConnState)
    ensures CloseStep(CloseStep(st)) == CloseStep(st)
  {
  }

  /** Runs `is_connected` once per oracle pair and collects the answers. */
  function ProbeAll(st: ConnState, settings: Option<Settings>, outcomes: seq<(bool, bool)>): (r: (seq<bool>, ConnState))
    ensures |r.0| == |outcomes|
    ensures Consistent(st) ==> Consistent(r.1)
    ensures outcomes != [] ==> (r.0[|outcomes| - 1] <==> r.1.client.Some?)
    decreases |outcomes|
  {
    if outcomes == [] then ([], st)
    else
      var p := IsConnectedStep(st, settings, outcomes[0].0, outcomes[0].1);
      var rest := ProbeAll(p.after, settings, outcomes[1..]);
      ([p.alive] + rest.0, rest.1)
  }

  /** Once `_client` is `None`, `is_connected` never connects again: every later
      answer is false and the state stays as it is, whatever the network does. */
  lemma {:induction false} DisconnectedStaysDisconnected(
    st: ConnState, settings: Option<Settings>, outcomes: seq<(bool, bool)>)
    requires st.client.None?
    ensures ProbeAll(st, settings, outcomes).1 == st
    ensures forall i :: 0 <= i < |outcomes| ==> !ProbeAll(st, settings, outcomes).0[i]
    decreases |outcomes|
  {
    if outcomes != [] {
      DisconnectedStaysDisconnected(st, settings, outcomes[1..]);
    }
  }

  /** A failed first connection is therefore permanent for every caller that only
      asks `is_connected` (the sync service does). */
  lemma {:induction false} FailedStartupIsPermanent(settings: Option<Settings>, outcomes: seq<(bool, bool)>)
    ensures ProbeAll(ConnectStep(settings, false), settings, outcomes).1 == Disconnected
    ensures forall i :: 0 <= i < |outcomes| ==> !ProbeAll(ConnectStep(settings, false), settings, outcomes).0[i]
  {
    DisconnectedStaysDisconnected(ConnectStep(settings, false), settings, outcomes);
  }

  /** A failed ping on a live client recovers transparently when the server answers again. */
  lemma {:induction false} ReconnectsAfterFailedPing(st: ConnState, s: Settings)
    requires st.client.Some?
    ensures IsConnectedStep(st, Some(s), false, true) ==
      Probe(true, ConnState(Some(ClientFor(s)), Some(DatabaseHandle(ClientFor(s), s.database))))
  {
  }

  /** The connection supervisor itself. */
  class MongoDBClient {
    var client: Option<ClientHandle>
    var database: Option<DatabaseHandle>

    function State(): ConnState
      reads this
    {
      ConnState(client, database)
    }

    ghost predicate Valid()
      reads this
    {
      Consistent(State())
    }

    /** Creating the instance connects at once, since `_client` starts as `None`. */
    constructor (settings: Option<Settings>, reachable: bool)
      ensures Valid()
      ensures State() == ConnectStep(settings, reachable)
    {
      client, database := None, None;
      new;
      Connect(settings, reachable);
    }

    /** `_connect` */
    method Connect(settings: Option<Settings>, reachable: bool)
      modifies this
      ensures Valid()
      ensures State() == ConnectStep(settings, reachable)
    {
      if settings.None? {
        client, database := None, None;
        return;
      }
      var s := settings.value;
      client := Some(ClientFor(s));
      if !reachable {
        client, database := None, None;
        return;
      }
      database := Some(DatabaseHandle(client.value, s.database));
    }

    /** The `db` property: connects only when both fields are `None`, and returns
        `_database`, which is `None` when that attempt failed. */
    method Db(settings: Option<Settings>, reachable: bool) returns (db: Option<DatabaseHandle>)
      modifies this
      ensures DbStep(old(State()), settings, reachable) == DbAccess(db, State())
    {
      if database.None? && client.None? {
        Connect(settings, reachable);
      }
      db := database;
    }

    /** `is_connected` */
    method IsConnected(settings: Option<Settings>, pingOk: bool, reachable: bool) returns (alive: bool)
      modifies this
      ensures IsConnectedStep(old(State()), settings, pingOk, reachable) == Probe(alive, State())
      ensures old(Valid()) ==> Valid()
    {
      if client.None? {
        return false;
      }
      if pingOk {
        return true;
      }
      Connect(settings, reachable);
      alive := client.Some?;
    }

    /** `close` */
    method Close()
      modifies this
      ensures State() == CloseStep(old(State()))
      ensures old(Valid()) ==> State() == Disconnected
    {
      if client.Some? {
        client, database := None, None;
      }
    }
  }
}
