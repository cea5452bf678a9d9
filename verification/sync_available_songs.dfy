/**
 * `MiscSyncAvailableSongsService` (protocols/jsonproto/services/misc/sync_available_songs.go):
 * writes the caller's song-availability strings into the records of a list of
 * PIDs, after checking only the first PID against the session's.
 *
 * `Sync` states the effect of one call; `Handle` runs the loop on the
 * database and is proved to match it.
 */
module SyncAvailableSongs {
  import opened Options
  import opened Store
  import opened ConsoleTypes
  import opened Nex

  /** The request fields the handler uses. */
  datatype SyncRequest = SyncRequest(pids: seq<int>, sids: string, usids: string)

  /** What unmarshalling the JSON body gave: a request, or an error. */
  datatype Parsed = Parsed(req: SyncRequest) | Malformed(err: string)

  /** The marshalled response, or the empty string. */
  datatype Body = Empty | Response(path: string, retCode: int)

  /** The handler's `(string, error)` result, or the panic of indexing an empty list. */
  datatype HandleResult = Returned(body: Body, err: Option<string>) | Panicked

  datatype SyncOutcome = SyncOutcome(users: seq<User>, result: HandleResult)

  /** The fixed path the service answers on, lines 29-31. */
  function Path(): (p: string)
    ensures p == "misc/sync_available_songs"
  {
    "misc/sync_available_songs"
  }

  /**
   * The records after updating `pids` one after another, in list order: no
   * record is added, removed or moved, and only the two song fields change.
   */
  function ApplySongs(users: seq<User>, pids: seq<int>, sids: string, usids: string): (r: seq<User>)
    ensures |r| == |users|
    ensures forall k :: 0 <= k < |users| ==> r[k] == users[k].(sids := r[k].sids, usids := r[k].usids)
    decreases |pids|
  {
    if |pids| == 0 then users
    else
      var prev := ApplySongs(users, pids[..|pids| - 1], sids, usids);
      var r := UpdateOne(prev, ByPid(pids[|pids| - 1]), SetSongs(sids, usids));
      assert forall k :: 0 <= k < |prev| ==> r[k] == prev[k].(sids := r[k].sids, usids := r[k].usids);
      r
  }

  /** The position of the first update that fails, or `n` when none of the `n` fails. */
  function FirstFailure(n: nat, failAt: set<nat>, from: nat): (k: nat)
    requires from <= n
    ensures from <= k <= n
    ensures forall j :: from <= j < k ==> j !in failAt
    ensures k < n ==> k in failAt
    decreases n - from
  {
    if from == n || from in failAt then from else FirstFailure(n, failAt, from + 1)
  }

  /**
   * One call; `failAt` holds the loop positions whose update the store fails.
   * An empty PID list panics; a malformed body returns the unmarshalling error;
   * the records change only when the first listed PID is the session's; and a
   * response always carries the service path, with return code 1 exactly when
   * no update failed and 0 otherwise.
   */
  function Sync(users: seq<User>, sessionPID: nat, parsed: Parsed, failAt: set<nat>): (r: SyncOutcome)
    ensures |r.users| == |users|
    ensures r.result == Panicked <==> parsed.Parsed? && |parsed.req.pids| == 0
    ensures parsed.Malformed? ==> r.result == Returned(Empty, Some(parsed.err))
    ensures r.users != users ==> parsed.Parsed? && |parsed.req.pids| > 0 && parsed.req.pids[0] == sessionPID
    ensures r.result.Returned? && r.result.body.Response? ==>
              && parsed.Parsed?
              && r.result.err.None?
              && r.result.body.path == Path()
              && (r.result.body.retCode == 0 || r.result.body.retCode == 1)
              && (r.result.body.retCode == 1 <==> forall j :: 0 <= j < |parsed.req.pids| ==> j !in failAt)
  {
    match parsed
    case Malformed(err) => SyncOutcome(users, Returned(Empty, Some(err)))
    case Parsed(req) =>
      if |req.pids| == 0 then SyncOutcome(users, Panicked)
      else if req.pids[0] != sessionPID then SyncOutcome(users, Returned(Empty, None))
      else
        var k := FirstFailure(|req.pids|, failAt, 0);
        SyncOutcome(ApplySongs(users, req.pids[..k], req.sids, req.usids),
                    Returned(Response(Path(), if k == |req.pids| then 1 else 0), None))
  }

  method Handle(db: Database, client: Client, parsed: Parsed, failAt: set<nat>) returns (result: HandleResult)
    modifies db
    ensures SyncOutcome(db.users, result) == Sync(old(db.users), client.playerID, parsed, failAt)
    ensures db.config == old(db.config)
  {
    if parsed.Malformed? {
      return Returned(Empty, Some(parsed.err));
    }
    var req := parsed.req;
    if |req.pids| == 0 {
      return Panicked;
    }
    if req.pids[0] != client.playerID {
      return Returned(Empty, None);
    }
    var i := 0;
    while i < |req.pids|
      invariant 0 <= i <= |req.pids|
      invariant forall j :: 0 <= j < i ==> j !in failAt
      invariant db.users == ApplySongs(old(db.users), req.pids[..i], req.sids, req.usids)
      invariant db.config == old(db.config)
    {
      var ok := db.UpdateOneUser(ByPid(req.pids[i]), SetSongs(req.sids, req.usids), i in failAt);
      if !ok {
        assert FirstFailure(|req.pids|, failAt, 0) == i;
        return Returned(Response(Path(), 0), None);
      }
      assert req.pids[..i + 1][..i] == req.pids[..i];
      i := i + 1;
    }
    assert req.pids[..i] == req.pids;
    assert FirstFailure(|req.pids|, failAt, 0) == i;
    result := Returned(Response(Path(), 1), None);
  }

  /** The record at `k` is the first in natural order carrying its PID, and that PID is listed. */
  predicate Targeted(users: seq<User>, pids: seq<int>, k: nat)
    requires k < |users|
  {
    users[k].pid in pids && FindOne(users, ByPid(users[k].pid)) == Some(k)
  }

  /**
   * Lines 47-50: after the updates, exactly the first record of each listed PID
   * has `sids`/`usids` set to the request's values; every other field of every
   * record, and every other record, is unchanged; no record moves, so every
   * lookup finds what it found before.
   */
  lemma {:induction false} ApplySongsExact(users: seq<User>, pids: seq<int>, sids: string, usids: string)
    ensures |ApplySongs(users, pids, sids, usids)| == |users|
    ensures forall k :: 0 <= k < |users| ==>
      ApplySongs(users, pids, sids, usids)[k]
        == if Targeted(users, pids, k) then users[k].(sids := sids, usids := usids) else users[k]
    ensures forall g :: FindOne(ApplySongs(users, pids, sids, usids), g) == FindOne(users, g)
    decreases |pids|
  {
    if |pids| > 0 {
      var init := pids[..|pids| - 1];
      var p := pids[|pids| - 1];
      var upd := SetSongs(sids, usids);
      var prev := ApplySongs(users, init, sids, usids);
      var r := ApplySongs(users, pids, sids, usids);
      ApplySongsExact(users, init, sids, usids);
      assert r == UpdateOne(prev, ByPid(p), upd);
      forall g ensures FindOne(r, g) == FindOne(users, g) {
        UpdateOneKeepsIdentity(prev, ByPid(p), upd, g);
      }
      assert forall q :: q in pids <==> q in init || q == p by {
        assert pids == init + [p];
      }
      forall k | 0 <= k < |users|
        ensures r[k] == if Targeted(users, pids, k) then users[k].(sids := sids, usids := usids) else users[k]
      {
        if FindOne(users, ByPid(p)) == Some(k) {
          assert r[k] == Apply(prev[k], upd);
        } else {
          assert r[k] == prev[k];
        }
      }
    }
  }

  /**
   * Lines 34-43: a malformed body, an empty list or a first PID other than the
   * session's writes nothing; the first returns ("", err), the empty list
   * panics, and the mismatch returns ("", nil).
   */
  lemma RejectionsWriteNothing(users: seq<User>, sessionPID: nat, parsed: Parsed, failAt: set<nat>)
    requires parsed.Malformed? || |parsed.req.pids| == 0 || parsed.req.pids[0] != sessionPID
    ensures var o := Sync(users, sessionPID, parsed, failAt);
            && o.users == users
            && (parsed.Malformed? ==> o.result == Returned(Empty, Some(parsed.err)))
            && (parsed.Parsed? && |parsed.req.pids| == 0 ==> o.result == Panicked)
            && (parsed.Parsed? && |parsed.req.pids| > 0 ==> o.result == Returned(Empty, None))
  {
  }

  /**
   * Lines 47-57: once the first PID matches the session, the updates run in
   * list order up to the first failing one. A record changes exactly when it
   * is targeted by a PID before that point, and then only in `sids`/`usids`;
   * the answer is ret_code 1 when no update failed and 0 otherwise, under the
   * service path.
   */
  lemma AuthorisedSyncStopsAtFirstFailure(users: seq<User>, sessionPID: nat, req: SyncRequest, failAt: set<nat>)
    requires |req.pids| > 0 && req.pids[0] == sessionPID
    ensures var o := Sync(users, sessionPID, Parsed(req), failAt);
            var k := FirstFailure(|req.pids|, failAt, 0);
            && |o.users| == |users|
            && (forall i :: 0 <= i < |users| ==>
                 o.users[i] == if Targeted(users, req.pids[..k], i)
                               then users[i].(sids := req.sids, usids := req.usids) else users[i])
            && o.result.Returned? && o.result.err.None?
            && o.result.body == Response(Path(), o.result.body.retCode)
            && (o.result.body.retCode == 1 <==> forall j :: 0 <= j < |req.pids| ==> j !in failAt)
            && (o.result.body.retCode == 0 <==> exists j :: 0 <= j < |req.pids| && j in failAt)
  {
    var k := FirstFailure(|req.pids|, failAt, 0);
    ApplySongsExact(users, req.pids[..k], req.sids, req.usids);
  }

  /**
   * Line 40 checks only the first PID: when it matches and no update fails,
   * the first record of every listed PID is written, whoever owns it.
   */
  lemma EveryListedPidIsWritten(users: seq<User>, sessionPID: nat, req: SyncRequest, failAt: set<nat>, q: int, i: nat)
    requires |req.pids| > 0 && req.pids[0] == sessionPID
    requires forall j :: 0 <= j < |req.pids| ==> j !in failAt
    requires q in req.pids && FindOne(users, ByPid(q)) == Some(i)
    ensures var o := Sync(users, sessionPID, Parsed(req), failAt);
            |o.users| == |users| && o.users[i].sids == req.sids && o.users[i].usids == req.usids
  {
    var k := FirstFailure(|req.pids|, failAt, 0);
    assert k == |req.pids|;
    assert req.pids[..k] == req.pids;
    ApplySongsExact(users, req.pids, req.sids, req.usids);
  }

  function Player(name: string, pid: nat): User
  {
    User(name, pid, Xbox360, "", 0, "", "", "", "")
  }

  /** Caller 5 lists [5, 6]: the call succeeds and also writes the record of PID 6. */
  lemma SecondPidIsNotChecked()
    ensures var o := Sync([Player("five", 5), Player("six", 6)], 5, Parsed(SyncRequest([5, 6], "A", "B")), {});
            && o.result == Returned(Response(Path(), 1), None)
            && |o.users| == 2
            && o.users[1] == Player("six", 6).(sids := "A", usids := "B")
  {
    var users := [Player("five", 5), Player("six", 6)];
    assert FindOne(users, ByPid(6)) == Some(1) by {
      assert !Matches(users[0], ByPid(6)) && Matches(users[1], ByPid(6));
      FirstMatchUnique(users, ByPid(6), 1);
    }
    assert FirstFailure(2, {}, 0) == 2;
    assert [5, 6][..2] == [5, 6];
    ApplySongsExact(users, [5, 6], "A", "B");
    assert Targeted(users, [5, 6], 1);
  }

  /** Caller 5 lists [6, 5]: the call is turned away and no record changes. */
  lemma MismatchedFirstPidIsRejected()
    ensures var users := [Player("five", 5), Player("six", 6)];
            Sync(users, 5, Parsed(SyncRequest([6, 5], "A", "B")), {}) == SyncOutcome(users, Returned(Empty, None))
  {
  }
}
