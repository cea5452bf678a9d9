/**
 * `NintendoCreateAccount` (servers/nintendocreateaccount.go:18-147): resolves
 * or creates the account for a username, allocates its PID from the config
 * counter, gives the session a fresh connection id and station URL, stores
 * the URL, and answers with the PID.
 *
 * `Provision` states the whole effect of one call on a snapshot of the state;
 * the method performs the same steps on the objects and is proved to match it.
 */
module CreateAccount {
  import opened Options
  import opened Decimal
  import opened StationUrl
  import opened ConsoleTypes
  import opened Wire
  import opened Store
  import opened Nex

  /** The store operations of one call, any of which the store may fail. */
  datatype Op = ReadConfig | FindUser | InsertUser | UpdateConfig | RereadUser | UpdateStationURL

  /** The caller's arguments and observed endpoint. */
  datatype Request = Request(callID: nat, username: string, email: string, guid: string, ip: string, port: nat)

  /** The session fields the handler sets. */
  datatype Session = Session(username: string, playerID: nat, stationURL: string, connectionID: nat)

  /** Everything one call can read or change. */
  datatype State = State(
    users: seq<User>,
    storedConfig: Option<Config>,
    cachedConfig: Config,
    connectionCounter: nat,
    session: Session)

  datatype Outcome = Outcome(state: State, reply: Reply)

  function Snapshot(server: Server, db: Database, client: Client): State
    reads server, db, client
  {
    State(db.users, db.config, server.config, server.connectionIDCounter,
          Session(client.username, client.playerID, client.externalStationURL, client.connectionID))
  }

  /** The config the handler works with: the stored one, or the zero value when it cannot be read. */
  function LoadedConfig(stored: Option<Config>, faults: set<Op>): Config
  {
    if ReadConfig !in faults && stored.Some? then stored.value else ZeroConfig
  }

  /** The document inserted for a new username (lines 48-54). */
  function NewUser(username: string, pid: nat, ctype: ConsoleType, guid: string, machine: nat): User
  {
    User(username, pid, ctype, guid, machine, "", "", "", "")
  }

  /** The state after the insert at lines 48-54. */
  function Inserted(s: State, req: Request, faults: set<Op>): State
  {
    var pid := LoadedConfig(s.storedConfig, faults).lastPID + 1;
    s.(users := s.users + [NewUser(req.username, pid, Classify(req.email), req.guid, s.session.playerID)])
  }

  /**
   * The state after lines 62-82: stored last_pid and the in-process counters
   * advanced, and the player id set from the still-undecoded record, whose PID is zero.
   */
  function Counted(s: State, req: Request, faults: set<Op>): State
  {
    var config := LoadedConfig(s.storedConfig, faults);
    var pid := config.lastPID + 1;
    var s1 := Inserted(s, req, faults);
    s1.(storedConfig := WithLastPID(s1.storedConfig, pid),
        cachedConfig := config.(lastPID := pid),
        session := s1.session.(playerID := 0))
  }

  /**
   * One call, from the console-type test to the reply. The reply answers the
   * caller's call id and is a success exactly when the station-URL write
   * succeeds and, on the new-account path, so do the insert, the config update
   * and the re-read; a failed config read or lookup alone never fails the call.
   * A successful call takes one connection id; at most one record is added and
   * the config document is never created or removed.
   */
  function Provision(s: State, req: Request, faults: set<Op>): (r: Outcome)
    ensures r.reply.OperationError? ==> r.reply.callID == req.callID
    ensures r.reply.Success? ==> r.reply.packet.payload.callID == req.callID
    ensures r.reply.Success? <==>
              UpdateStationURL !in faults
              && (!TakesNewPath(s, req, faults)
                  || (InsertUser !in faults && UpdateConfig !in faults && RereadUser !in faults))
    ensures r.reply.Success? ==> r.state.connectionCounter == s.connectionCounter + 1
    ensures |s.users| <= |r.state.users| <= |s.users| + 1
    ensures r.state.storedConfig.Some? <==> s.storedConfig.Some?
  {
    var found := if FindUser in faults then None else FindOne(s.users, ByUsername(req.username));
    match found
    case Some(i) => Finish(s, req, s.users[i], faults)
    case None =>
      if InsertUser in faults then Outcome(s, OperationError(req.callID))
      else if UpdateConfig in faults then Outcome(Inserted(s, req, faults), OperationError(req.callID))
      else
        var s2 := Counted(s, req, faults);
        assert s2.users == s.users + [s2.users[|s.users|]];
        FindOneAppend(s.users, s2.users[|s.users|], ByUsername(req.username));
        var reread := if RereadUser in faults then None else FindOne(s2.users, ByUsername(req.username));
        match reread
        case None => Outcome(s2, OperationError(req.callID))
        case Some(j) => Finish(s2, req, s2.users[j], faults)
  }

  /**
   * Lines 96-146: the session takes the next connection id, truncated to a
   * uint32, the player's PID and a station URL from which the caller's address,
   * port, PID and connection id read back; the configs stay; the reply answers
   * the call, carrying the PID, exactly when the URL write succeeds, and a
   * failed write leaves the records as they were.
   */
  function Finish(s: State, req: Request, user: User, faults: set<Op>): (r: Outcome)
    ensures r.state.connectionCounter == s.connectionCounter + 1
    ensures r.state.session.username == req.username && r.state.session.playerID == user.pid
    ensures r.state.session.connectionID == U32(s.connectionCounter + 1)
    ensures ';' !in req.ip ==>
              Parse(r.state.session.stationURL)
                == Some(Station(req.ip, req.port, user.pid, r.state.session.connectionID))
    ensures r.state.storedConfig == s.storedConfig && r.state.cachedConfig == s.cachedConfig
    ensures |r.state.users| == |s.users|
    ensures r.reply.Success? <==> UpdateStationURL !in faults
    ensures r.reply.OperationError? ==> r.reply.callID == req.callID && r.state.users == s.users
    ensures r.reply.Success? ==>
              r.reply.packet.payload.callID == req.callID
              && |r.reply.packet.payload.body| == 4
              && DecodeU32LE(r.reply.packet.payload.body) == U32(user.pid)
  {
    var rvcid := U32(s.connectionCounter + 1);
    var url := Render(req.ip, req.port, user.pid, rvcid);
    var s1 := s.(connectionCounter := s.connectionCounter + 1,
                 session := Session(req.username, user.pid, url, rvcid));
    var out :=
      if UpdateStationURL in faults then Outcome(s1, OperationError(req.callID))
      else
        Outcome(s1.(users := UpdateOne(s1.users, ByUsername(req.username), SetStationURLs(url, ""))),
                Success(CreateAccountPacket(req.callID, user.pid)));
    if ';' in req.ip then out
    else
      ParseRender(req.ip, req.port, user.pid, rvcid);
      out
  }

  method NintendoCreateAccount(
    server: Server, db: Database, client: Client,
    callID: nat, username: string, email: string, guid: string, faults: set<Op>)
    returns (reply: Reply)
    modifies server, db, client
    ensures Outcome(Snapshot(server, db, client), reply)
         == Provision(old(Snapshot(server, db, client)),
                      Request(callID, username, email, guid, client.ip, client.port), faults)
  {
    ghost var s := Snapshot(server, db, client);
    var req := Request(callID, username, email, guid, client.ip, client.port);
    var ctype := Classify(email);

    var config := ZeroConfig;
    if ReadConfig !in faults && db.config.Some? {
      config := db.config.value;
    }
    assert config == LoadedConfig(s.storedConfig, faults);

    var user: User := NewUser("", 0, Xbox360, "", 0);
    var found := if FindUser in faults then None else FindOne(db.users, ByUsername(username));
    if found.Some? {
      user := db.users[found.value];
      reply := FinishLogin(server, db, client, req, user, faults);
      return;
    }

    var pid := config.lastPID + 1;
    var ok := db.InsertOne(NewUser(username, pid, ctype, guid, client.playerID), InsertUser in faults);
    if !ok {
      return OperationError(callID);
    }
    assert Snapshot(server, db, client) == Inserted(s, req, faults);
    ok := db.SetLastPID(pid, UpdateConfig in faults);
    if !ok {
      return OperationError(callID);
    }
    server.config := config.(lastPID := pid);
    client.playerID := user.pid;
    assert Snapshot(server, db, client) == Counted(s, req, faults);
    var reread := if RereadUser in faults then None else FindOne(db.users, ByUsername(username));
    if reread.None? {
      return OperationError(callID);
    }
    user := db.users[reread.value];
    reply := FinishLogin(server, db, client, req, user, faults);
  }

  /** Lines 96-146, on the objects. */
  method FinishLogin(server: Server, db: Database, client: Client, req: Request, user: User, faults: set<Op>)
    returns (reply: Reply)
    requires req.ip == client.ip && req.port == client.port
    modifies server, db, client
    ensures Outcome(Snapshot(server, db, client), reply) == Finish(old(Snapshot(server, db, client)), req, user, faults)
  {
    ghost var s := Snapshot(server, db, client);
    FinishEffect(s, req, user, faults);
    client.username := req.username;
    var counter := server.NextConnectionID();
    var newRVCID := U32(counter);
    var stationURL := Render(client.ip, client.port, user.pid, newRVCID);
    client.externalStationURL := stationURL;
    client.connectionID := newRVCID;
    client.playerID := user.pid;

    var ok := db.UpdateOneUser(ByUsername(client.username), SetStationURLs(stationURL, ""), UpdateStationURL in faults);
    if !ok {
      return OperationError(req.callID);
    }
    reply := Success(CreateAccountPacket(req.callID, user.pid));
  }

  /** A call whose lookup finds the username goes straight to the login steps. */
  lemma FoundPath(s: State, req: Request, faults: set<Op>, i: nat)
    requires FindUser !in faults && FindOne(s.users, ByUsername(req.username)) == Some(i)
    ensures Provision(s, req, faults) == Finish(s, req, s.users[i], faults)
  {
  }

  /** A call that creates the account and re-reads it goes on to the login steps with the first record of that name. */
  lemma CreatedPath(s: State, req: Request, faults: set<Op>)
    requires FindUser in faults || FindOne(s.users, ByUsername(req.username)).None?
    requires InsertUser !in faults && UpdateConfig !in faults && RereadUser !in faults
    ensures FindOne(Counted(s, req, faults).users, ByUsername(req.username)).Some?
    ensures var s2 := Counted(s, req, faults);
            Provision(s, req, faults)
              == Finish(s2, req, s2.users[FindOne(s2.users, ByUsername(req.username)).value], faults)
  {
    var s2 := Counted(s, req, faults);
    var u := s2.users[|s.users|];
    assert s2.users == s.users + [u];
    FindOneAppend(s.users, u, ByUsername(req.username));
  }

  /** The URL the login steps store for the session, and the one write they make to the records. */
  lemma FinishEffect(s: State, req: Request, user: User, faults: set<Op>)
    ensures var o := Finish(s, req, user, faults);
            && o.state.session.stationURL == Render(req.ip, req.port, user.pid, U32(s.connectionCounter + 1))
            && o.state.users == (if UpdateStationURL in faults then s.users
                                 else UpdateOne(s.users, ByUsername(req.username), SetStationURLs(o.state.session.stationURL, "")))
  {
  }

  /** The lookup by username misses (or fails), so the call takes the new-account path. */
  predicate TakesNewPath(s: State, req: Request, faults: set<Op>) {
    FindUser in faults || FindOne(s.users, ByUsername(req.username)).None?
  }

  /**
   * Lines 43-79: an unknown username gets exactly one new record, with PID
   * `lastPID + 1` of the loaded config and the classified console type; the
   * stored `last_pid` and the in-process `LastPID` both become that PID and the
   * other four in-process counters are those of the loaded config.
   */
  lemma NewAccountAllocatesNextPid(s: State, req: Request, faults: set<Op>)
    requires FindOne(s.users, ByUsername(req.username)).None?
    requires FindUser !in faults && InsertUser !in faults && UpdateConfig !in faults
    ensures var r := Provision(s, req, faults).state;
            var c := LoadedConfig(s.storedConfig, faults);
            var n := |s.users|;
            && |r.users| == n + 1
            && r.users[..n] == s.users
            && r.users[n].username == req.username
            && r.users[n].pid == c.lastPID + 1
            && r.users[n].consoleType == Classify(req.email)
            && r.users[n].guid == req.guid
            && r.users[n].createdByMachineID == s.session.playerID
            && (s.storedConfig.None? ==> r.storedConfig.None?)
            && (s.storedConfig.Some? ==> r.storedConfig == Some(s.storedConfig.value.(lastPID := c.lastPID + 1)))
            && r.cachedConfig.lastPID == c.lastPID + 1
            && r.cachedConfig.lastMachineID == c.lastMachineID
            && r.cachedConfig.lastBandID == c.lastBandID
            && r.cachedConfig.lastSetlistID == c.lastSetlistID
            && r.cachedConfig.lastCharacterID == c.lastCharacterID
  {
    var n := |s.users|;
    var name := ByUsername(req.username);
    var s2 := Counted(s, req, faults);
    var u := s2.users[n];
    assert s2.users == s.users + [u];
    assert s2.users[..n] == s.users;
    var r := Provision(s, req, faults);
    if RereadUser !in faults {
      CreatedPath(s, req, faults);
      FindOneAppend(s.users, u, name);
      FinishEffect(s2, req, u, faults);
      if UpdateStationURL !in faults {
        var after := s2.users[n := Apply(u, SetStationURLs(r.state.session.stationURL, ""))];
        assert r.state.users == after;
        assert after[..n] == s.users;
      }
    }
  }

  /**
   * Lines 36-40 and 50: when the config cannot be read the call goes on with
   * the zero config, so a new account gets PID 1 and the in-process counters
   * become 1, 0, 0, 0, 0.
   */
  lemma UnreadableConfigAllocatesPidOne(s: State, req: Request, faults: set<Op>)
    requires ReadConfig in faults || s.storedConfig.None?
    requires FindOne(s.users, ByUsername(req.username)).None?
    requires FindUser !in faults && InsertUser !in faults
    ensures var r := Provision(s, req, faults).state;
            && |r.users| == |s.users| + 1
            && r.users[|s.users|].pid == 1
            && (UpdateConfig !in faults ==> r.cachedConfig == Config(1, 0, 0, 0, 0))
  {
    if UpdateConfig !in faults {
      NewAccountAllocatesNextPid(s, req, faults);
    }
  }

  /**
   * Lines 43 and 108-115: a known username gets no new record and leaves both
   * configs alone; only its own record changes, and only in station_url, set
   * to the session's new URL, and int_station_url, cleared.
   */
  lemma KnownAccountKeepsIdentity(s: State, req: Request, faults: set<Op>, i: nat)
    requires FindUser !in faults
    requires FindOne(s.users, ByUsername(req.username)) == Some(i)
    ensures var r := Provision(s, req, faults);
            && |r.state.users| == |s.users|
            && (forall k :: 0 <= k < |s.users| && k != i ==> r.state.users[k] == s.users[k])
            && r.state.users[i] == (if UpdateStationURL in faults then s.users[i]
                                    else s.users[i].(stationURL := r.state.session.stationURL, intStationURL := ""))
            && r.state.storedConfig == s.storedConfig
            && r.state.cachedConfig == s.cachedConfig
            && r.state.session.playerID == s.users[i].pid
  {
  }

  /**
   * Lines 96-105: a call that gets as far as the station URL takes exactly one
   * connection id from the counter; the session then carries the request's
   * username, that id (as a uint32), the PID of the record the username
   * resolves to, and a station URL built from those, from which the address,
   * port, PID and id can be read back. A successful call always gets there.
   */
  lemma SessionAfterLogin(s: State, req: Request, faults: set<Op>)
    ensures var r := Provision(s, req, faults).state;
            r.connectionCounter == s.connectionCounter || r.connectionCounter == s.connectionCounter + 1
    ensures Provision(s, req, faults).reply.Success? ==>
            Provision(s, req, faults).state.connectionCounter == s.connectionCounter + 1
    ensures var r := Provision(s, req, faults).state;
            var found := FindOne(r.users, ByUsername(req.username));
            r.connectionCounter == s.connectionCounter + 1 ==>
              && r.session.username == req.username
              && r.session.connectionID == U32(r.connectionCounter)
              && r.session.stationURL == Render(req.ip, req.port, r.session.playerID, r.session.connectionID)
              && found.Some?
              && r.users[found.value].pid == r.session.playerID
              && (';' !in req.ip ==>
                   Parse(r.session.stationURL) == Some(Station(req.ip, req.port, r.session.playerID, r.session.connectionID)))
  {
    var o := Provision(s, req, faults);
    var r := o.state;
    var name := ByUsername(req.username);
    var found := if FindUser in faults then None else FindOne(s.users, name);
    if found.Some? {
      FoundPath(s, req, faults, found.value);
      FinishLogsIn(s, req, s.users[found.value], faults, found.value);
    } else if InsertUser !in faults && UpdateConfig !in faults && RereadUser !in faults {
      var s2 := Counted(s, req, faults);
      CreatedPath(s, req, faults);
      var j := FindOne(s2.users, name).value;
      FinishLogsIn(s2, req, s2.users[j], faults, j);
    }
  }

  /** What Finish guarantees when the user it logs in is the username's first match. */
  lemma FinishLogsIn(s: State, req: Request, user: User, faults: set<Op>, i: nat)
    requires FindOne(s.users, ByUsername(req.username)) == Some(i) && user == s.users[i]
    ensures var o := Finish(s, req, user, faults);
            var r := o.state;
            var found := FindOne(r.users, ByUsername(req.username));
            && r.connectionCounter == s.connectionCounter + 1
            && r.session.username == req.username
            && r.session.connectionID == U32(r.connectionCounter)
            && r.session.playerID == user.pid
            && r.session.stationURL == Render(req.ip, req.port, r.session.playerID, r.session.connectionID)
            && found == Some(i)
            && r.users[i].pid == user.pid
            && (';' !in req.ip ==>
                 Parse(r.session.stationURL) == Some(Station(req.ip, req.port, r.session.playerID, r.session.connectionID)))
  {
    var o := Finish(s, req, user, faults);
    var name := ByUsername(req.username);
    UpdateOneKeepsIdentity(s.users, name, SetStationURLs(o.state.session.stationURL, ""), name);
    if ';' !in req.ip {
      ParseRender(req.ip, req.port, o.state.session.playerID, o.state.session.connectionID);
    }
  }

  /** Lines 56-59: a failed insert answers with an error and changes nothing at all. */
  lemma InsertFailureChangesNothing(s: State, req: Request, faults: set<Op>)
    requires TakesNewPath(s, req, faults) && InsertUser in faults
    ensures Provision(s, req, faults) == Outcome(s, OperationError(req.callID))
  {
  }

  /**
   * Lines 69-72: when the config update fails the inserted record stays (no
   * rollback) while both configs, the counter and the session are untouched.
   */
  lemma ConfigUpdateFailureKeepsInsert(s: State, req: Request, faults: set<Op>)
    requires TakesNewPath(s, req, faults) && InsertUser !in faults && UpdateConfig in faults
    ensures var r := Provision(s, req, faults);
            var c := LoadedConfig(s.storedConfig, faults);
            && r.reply == OperationError(req.callID)
            && r.state == s.(users := s.users + [NewUser(req.username, c.lastPID + 1, Classify(req.email), req.guid, s.session.playerID)])
  {
  }

  /**
   * Lines 84-90: when the re-read fails the counters are already advanced, but
   * no connection id is taken and the session keeps the zero PID set at line 82.
   */
  lemma RereadFailureSkipsLogin(s: State, req: Request, faults: set<Op>)
    requires TakesNewPath(s, req, faults) && InsertUser !in faults && UpdateConfig !in faults && RereadUser in faults
    ensures var r := Provision(s, req, faults);
            && r.reply == OperationError(req.callID)
            && r.state.connectionCounter == s.connectionCounter
            && r.state.session == s.session.(playerID := 0)
            && r.state.cachedConfig.lastPID == LoadedConfig(s.storedConfig, faults).lastPID + 1
  {
  }

  /**
   * Lines 117-121: when the station URL write fails the answer is an error and
   * no record that existed before the call changes; if the call got as far as
   * that write, the session changes made just before it stay.
   */
  lemma StationWriteFailureKeepsRecords(s: State, req: Request, faults: set<Op>)
    requires UpdateStationURL in faults
    ensures var r := Provision(s, req, faults);
            && r.reply == OperationError(req.callID)
            && |s.users| <= |r.state.users|
            && r.state.users[..|s.users|] == s.users
    ensures var r := Provision(s, req, faults).state;
            (!TakesNewPath(s, req, faults) || (InsertUser !in faults && UpdateConfig !in faults && RereadUser !in faults))
            ==> && r.connectionCounter == s.connectionCounter + 1
                && r.session.username == req.username
                && r.session.connectionID == U32(s.connectionCounter + 1)
  {
    if !TakesNewPath(s, req, faults) {
      FoundPath(s, req, faults, FindOne(s.users, ByUsername(req.username)).value);
    } else if InsertUser !in faults && UpdateConfig !in faults && RereadUser !in faults {
      CreatedPath(s, req, faults);
    }
    var r := Provision(s, req, faults);
    if |r.state.users| > |s.users| {
      assert r.state.users[..|s.users|] == s.users;
    }
  }

  /**
   * Lines 125-144: a successful call answers the same call id with a data
   * packet (version 0, source 0x31, destination 0x3F, flags NeedsAck and
   * Reliable) whose body decodes to the session's new PID as a uint32.
   */
  lemma SuccessReplyCarriesPid(s: State, req: Request, faults: set<Op>)
    requires Provision(s, req, faults).reply.Success?
    ensures var r := Provision(s, req, faults);
            var p := r.reply.packet;
            && p.version == 0 && p.source == 0x31 && p.destination == 0x3F
            && p.packetType == DataPacket
            && p.flags == {FlagNeedsAck, FlagReliable}
            && p.payload.callID == req.callID
            && |p.payload.body| == 4
            && DecodeU32LE(p.payload.body) == U32(r.state.session.playerID)
  {
    var r := Provision(s, req, faults);
  }

  /**
   * The counter discipline that makes PIDs unique when calls run one after
   * another: a config document exists, no record's PID exceeds its last_pid,
   * and no two records share a PID.
   */
  ghost predicate PidsAllocated(users: seq<User>, config: Option<Config>) {
    && config.Some?
    && (forall k :: 0 <= k < |users| ==> users[k].pid <= config.value.lastPID)
    && (forall a, b :: 0 <= a < b < |users| ==> users[a].pid != users[b].pid)
  }

  lemma UpdateOneKeepsPidsAllocated(users: seq<User>, config: Option<Config>, f: Filter, upd: Update)
    requires PidsAllocated(users, config)
    ensures PidsAllocated(UpdateOne(users, f, upd), config)
  {
    UpdateOneKeepsIdentity(users, f, upd, f);
  }

  /**
   * Sequential calls keep PIDs unique as long as the config can be read and
   * its update succeeds: the new PID lies above every existing one and
   * becomes the new last_pid.
   */
  lemma SequentialCallsKeepPidsUnique(s: State, req: Request, faults: set<Op>)
    requires PidsAllocated(s.users, s.storedConfig)
    requires ReadConfig !in faults && UpdateConfig !in faults
    ensures PidsAllocated(Provision(s, req, faults).state.users, Provision(s, req, faults).state.storedConfig)
  {
    var o := Provision(s, req, faults);
    var name := ByUsername(req.username);
    var found := if FindUser in faults then None else FindOne(s.users, name);
    if found.Some? {
      var user := s.users[found.value];
      FoundPath(s, req, faults, found.value);
      FinishEffect(s, req, user, faults);
      if UpdateStationURL !in faults {
        UpdateOneKeepsPidsAllocated(s.users, s.storedConfig, name, SetStationURLs(o.state.session.stationURL, ""));
      }
    } else if InsertUser !in faults {
      var s2 := Counted(s, req, faults);
      var u := s2.users[|s.users|];
      assert s2.users == s.users + [u];
      assert u.pid == s.storedConfig.value.lastPID + 1;
      assert PidsAllocated(s2.users, s2.storedConfig) by {
        assert forall k :: 0 <= k < |s.users| ==> s2.users[k] == s.users[k];
      }
      if RereadUser !in faults {
        CreatedPath(s, req, faults);
        var j := FindOne(s2.users, name).value;
        FinishEffect(s2, req, s2.users[j], faults);
        if UpdateStationURL !in faults {
          UpdateOneKeepsPidsAllocated(s2.users, s2.storedConfig, name, SetStationURLs(o.state.session.stationURL, ""));
        }
      }
    }
  }

  /**
   * Lines 62-73 without rollback: after a call whose config update failed, the
   * next new account is given the PID the failed call already stored, so two
   * records share it.
   */
  lemma ConfigUpdateFailureReusesPid(s: State, a: Request, b: Request)
    requires s.storedConfig.Some?
    requires FindOne(s.users, ByUsername(a.username)).None?
    requires FindOne(s.users, ByUsername(b.username)).None?
    requires a.username != b.username
    ensures var first := Provision(s, a, {UpdateConfig});
            var second := Provision(first.state, b, {});
            var n := |s.users|;
            && first.reply.OperationError?
            && |second.state.users| == n + 2
            && second.state.users[n].username == a.username
            && second.state.users[n + 1].username == b.username
            && second.state.users[n].pid == second.state.users[n + 1].pid
  {
    var first := Provision(s, a, {UpdateConfig});
    var u := NewUser(a.username, s.storedConfig.value.lastPID + 1, Classify(a.email), a.guid, s.session.playerID);
    assert first.state == s.(users := s.users + [u]);
    FindOneAppend(s.users, u, ByUsername(b.username));
    NewAccountAllocatesNextPid(first.state, b, {});
    var second := Provision(first.state, b, {});
    assert second.state.users[..|s.users| + 1][|s.users|] == u;
  }

  /**
   * Line 43 treats every lookup error as "never connected": if the lookup of a
   * known username fails, a second record with a fresh PID is inserted, yet the
   * re-read at line 84 finds the old record first, so the session is given the
   * old PID and the new record never gets a station URL.
   */
  lemma FailedLookupDuplicatesAccount(s: State, req: Request, faults: set<Op>, i: nat)
    requires FindOne(s.users, ByUsername(req.username)) == Some(i)
    requires FindUser in faults
    requires InsertUser !in faults && UpdateConfig !in faults && RereadUser !in faults
    ensures var r := Provision(s, req, faults).state;
            var n := |s.users|;
            && |r.users| == n + 1
            && r.users[n].username == req.username
            && r.users[n].pid == LoadedConfig(s.storedConfig, faults).lastPID + 1
            && r.users[n].stationURL == ""
            && r.session.playerID == s.users[i].pid
  {
    var n := |s.users|;
    var name := ByUsername(req.username);
    var s2 := Counted(s, req, faults);
    var u := s2.users[n];
    assert s2.users == s.users + [u];
    FindOneAppend(s.users, u, name);
    assert s2.users[i] == s.users[i];
    CreatedPath(s, req, faults);
    var o := Provision(s, req, faults);
    FinishEffect(s2, req, s.users[i], faults);
    if UpdateStationURL !in faults {
      assert o.state.users == s2.users[i := Apply(s2.users[i], SetStationURLs(o.state.session.stationURL, ""))];
    }
  }
}
