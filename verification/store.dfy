/**
 * The document store as the two handlers see it: the `users` collection in
 * natural order, the singleton `config` document, and the FindOne / UpdateOne
 * / InsertOne operations they issue. Whether a write fails is decided by the
 * caller's `fails` argument; a failed write changes nothing.
 */
module Store {
  import opened Options
  import opened ConsoleTypes

  /** A document of the `users` collection; fields the handlers never set read as "". */
  datatype User = User(
    username: string,
    pid: nat,
    consoleType: ConsoleType,
    guid: string,
    createdByMachineID: nat,
    stationURL: string,
    intStationURL: string,
    sids: string,
    usids: string)

  /** The `config` document, and the process-wide copy of its counters. */
  datatype Config = Config(
    lastPID: nat,
    lastMachineID: nat,
    lastBandID: nat,
    lastSetlistID: nat,
    lastCharacterID: nat)

  const ZeroConfig := Config(0, 0, 0, 0, 0)

  /** The query filters the handlers use: `{"username": ...}` and `{"pid": ...}`. */
  datatype Filter = ByUsername(name: string) | ByPid(pid: int)

  predicate Matches(u: User, f: Filter) {
    match f
    case ByUsername(name) => u.username == name
    case ByPid(pid) => u.pid == pid
  }

  /** The `$set` updates the handlers issue. */
  datatype Update =
    | SetStationURLs(stationURL: string, intStationURL: string)
    | SetSongs(sids: string, usids: string)

  /** The document after `$set`; identity fields are never touched. */
  function Apply(u: User, upd: Update): (r: User)
    ensures r.username == u.username && r.pid == u.pid && r.consoleType == u.consoleType
    ensures r.guid == u.guid && r.createdByMachineID == u.createdByMachineID
  {
    match upd
    case SetStationURLs(url, intURL) => u.(stationURL := url, intStationURL := intURL)
    case SetSongs(sids, usids) => u.(sids := sids, usids := usids)
  }

  /** FindOne: the position of the first document in natural order that matches `f`. */
  function FindOne(users: seq<User>, f: Filter): (r: Option<nat>)
    ensures r.Some? ==> r.value < |users| && Matches(users[r.value], f)
    ensures r.Some? ==> forall j :: 0 <= j < r.value ==> !Matches(users[j], f)
    ensures r.None? <==> forall j :: 0 <= j < |users| ==> !Matches(users[j], f)
    decreases |users|
  {
    if |users| == 0 then None
    else if Matches(users[0], f) then Some(0)
    else match FindOne(users[1..], f)
      case None => None
      case Some(i) => Some(i + 1)
  }

  /**
   * UpdateOne: the first document in natural order that matches `f` gets
   * `upd`; every other document, and the order, stay as they were.
   */
  function UpdateOne(users: seq<User>, f: Filter, upd: Update): (r: seq<User>)
    ensures |r| == |users|
    ensures forall k :: 0 <= k < |users| ==> r[k].username == users[k].username && r[k].pid == users[k].pid
    ensures forall k :: (0 <= k < |users| && Matches(users[k], f) && (forall j :: 0 <= j < k ==> !Matches(users[j], f))
                         ==> r[k] == Apply(users[k], upd))
    ensures forall k :: (0 <= k < |users| && r[k] != users[k]
                         ==> Matches(users[k], f) && forall j :: 0 <= j < k ==> !Matches(users[j], f))
  {
    match FindOne(users, f)
    case None => users
    case Some(i) => users[i := Apply(users[i], upd)]
  }

  /**
   * The `{"$set": {"last_pid": pid}}` update of the config document: only
   * `last_pid` changes, and without a document it matches nothing.
   */
  function WithLastPID(config: Option<Config>, pid: nat): (r: Option<Config>)
    ensures r.Some? <==> config.Some?
    ensures r.Some? ==> r.value.lastPID == pid && r.value.(lastPID := config.value.lastPID) == config.value
  {
    match config
    case None => None
    case Some(c) => Some(c.(lastPID := pid))
  }

  /** Two positions that are both "the first match" are the same position. */
  lemma FirstMatchUnique(s: seq<User>, f: Filter, i: nat)
    requires i < |s| && Matches(s[i], f)
    requires forall j :: 0 <= j < i ==> !Matches(s[j], f)
    ensures FindOne(s, f) == Some(i)
  {
  }

  /** Documents appended after position `|users|` do not change where the first match lies. */
  lemma FindOneAppend(users: seq<User>, u: User, f: Filter)
    ensures FindOne(users, f).Some? ==> FindOne(users + [u], f) == FindOne(users, f)
    ensures FindOne(users, f).None? && Matches(u, f) ==> FindOne(users + [u], f) == Some(|users|)
  {
    var s := users + [u];
    match FindOne(users, f)
    case Some(i) =>
      assert forall j :: 0 <= j < i ==> s[j] == users[j];
      FirstMatchUnique(s, f, i);
    case None =>
      if Matches(u, f) {
        assert forall j :: 0 <= j < |users| ==> s[j] == users[j];
        FirstMatchUnique(s, f, |users|);
      }
  }

  /** Since UpdateOne keeps every document's place and identity, any lookup by username or PID finds the same position. */
  lemma UpdateOneKeepsIdentity(users: seq<User>, f: Filter, upd: Update, g: Filter)
    ensures FindOne(UpdateOne(users, f, upd), g) == FindOne(users, g)
  {
    var r := UpdateOne(users, f, upd);
    assert forall k :: 0 <= k < |users| ==> (Matches(r[k], g) <==> Matches(users[k], g));
    match FindOne(users, g)
    case Some(i) =>
      FirstMatchUnique(r, g, i);
    case None =>
      assert forall j :: 0 <= j < |r| ==> !Matches(r[j], g);
  }

  class Database {
    var users: seq<User>
    var config: Option<Config>

    constructor (users: seq<User>, config: Option<Config>)
      ensures this.users == users && this.config == config
    {
      this.users := users;
      this.config := config;
    }

    /** `users.InsertOne`: appends the document unless the write fails. */
    method InsertOne(u: User, fails: bool) returns (ok: bool)
      modifies this
      ensures ok == !fails
      ensures users == if ok then old(users) + [u] else old(users)
      ensures config == old(config)
    {
      ok := !fails;
      if ok {
        users := users + [u];
      }
    }

    /** `users.UpdateOne`: updates the first match unless the write fails. */
    method UpdateOneUser(f: Filter, upd: Update, fails: bool) returns (ok: bool)
      modifies this
      ensures ok == !fails
      ensures users == if ok then UpdateOne(old(users), f, upd) else old(users)
      ensures config == old(config)
    {
      ok := !fails;
      if ok {
        users := UpdateOne(users, f, upd);
      }
    }

    /** `configCollection.UpdateOne` with `{"$set": {"last_pid": pid}}`, unless the write fails. */
    method SetLastPID(pid: nat, fails: bool) returns (ok: bool)
      modifies this
      ensures ok == !fails
      ensures config == if ok then WithLastPID(old(config), pid) else old(config)
      ensures users == old(users)
    {
      ok := !fails;
      if ok {
        config := WithLastPID(config, pid);
      }
    }
  }
}
