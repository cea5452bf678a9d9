# GoCentral account provisioning and song-list sync, modelled in Dafny

This project models two request handlers of the GoCentral game backend, and proves properties about them.

**`NintendoCreateAccount`** (`servers/nintendocreateaccount.go`) does the following:

- It classifies the caller's console from its email string.
- It looks up the username in the `users` collection.
- For an unknown username, it inserts a record with PID `last_pid + 1` and advances the stored and in-process counters. It then re-reads the record.
- It takes a fresh connection id from the server's counter.
- It builds the station URL `prudp:/address=…;port=…;PID=…;sid=15;type=3;RVCID=…`.
- It updates the session's username, station URL, connection id and PID.
- It stores the URL and clears `int_station_url`.
- It answers with a data packet whose body is the PID as a little-endian uint32.

A failure of the insert (lines 56-59), the config update (lines 69-72), the re-read (lines 84-90) or the station-URL write (lines 117-121) ends the call with an operational-error reply, and nothing is rolled back. A failed config read (lines 37-40) is only logged: the call goes on with the zero config. A failed lookup (line 43) takes the new-account path.

**`MiscSyncAvailableSongsService.Handle`** (`protocols/jsonproto/services/misc/sync_available_songs.go`) works like this:

- It compares only the first listed PID with the session's PID.
- It then sets `sids`/`usids` on the record of each listed PID, in list order.
- It stops at the first failed update with `ret_code` 0, keeping the earlier updates. Otherwise it returns `ret_code` 1.

## Layout

| file | module | what it holds |
|---|---|---|
| `options.dfy` | `Options` | the `Option` type |
| `decimal.dfy` | `Decimal` | decimal rendering of naturals (`fmt.Sprint`) and its inverse |
| `station_url.dfy` | `StationUrl` | the station URL, its field-by-field parser, the round trip |
| `console_type.dfy` | `ConsoleTypes` | console types and the `DummyNintendo` classifier |
| `wire.dfy` | `Wire` | uint32 conversion, little-endian encoding, packet and reply records |
| `store.dfy` | `Store` | account and config documents, FindOne/UpdateOne/InsertOne, the `Database` class |
| `nex.dfy` | `Nex` | the session (`Client`) and server (`Server`) classes |
| `create_account.dfy` | `CreateAccount` | `Provision` (one call as a function), the imperative handler, its lemmas |
| `sync_available_songs.dfy` | `SyncAvailableSongs` | `Sync` (one call as a function), the imperative `Handle` loop, its lemmas |

Modelling choices:

- **Collections.** A collection is a sequence in natural order. FindOne and UpdateOne act on the first matching document, as MongoDB does. InsertOne places the new document after every existing one. MongoDB does not promise that order; `FailedLookupDuplicatesAccount` depends on it. Uniqueness of usernames and PIDs is therefore something the model proves or refutes, not something it assumes.
- **The config document.** It is an `Option<Config>`. A missing document reads as a failed read. Updating it when it is missing changes nothing and reports no error.
- **Store failures.** They are oracle parameters:
  - provisioning takes `faults: set<Op>`, the store steps that fail;
  - song sync takes `failAt: set<nat>`, the loop positions whose update fails.
- **The handlers.** Each one is an imperative method over the `Database`, `Client` and `Server` objects. Each is proved to produce exactly the state and reply of its specification function (`Provision`, `Sync`). The properties are lemmas about those functions.
- **Line 82.** `client.SetPlayerID(user.PID)` runs while `user` is still the zero record, so the session PID becomes 0. That value is what remains when the re-read at line 84 fails (`RereadFailureSkipsLogin`).
- **Unmarshal failure.** JSON unmarshalling is an oracle: `Parsed` carries either the request or the error message. `Path()` is the constant `"misc/sync_available_songs"`. The marshalled response is kept symbolic, as `Response(Path(), retCode)`.
- **Integer widths.** PIDs and counters are unbounded naturals. The one explicit uint32 conversion, `newRVCID` at line 100, is written out as reduction modulo 2^32. `user.PID` is already a uint32 in the source: `WriteUInt32LE(user.PID)` at line 125 and `SetPlayerID(user.PID)` at lines 82 and 105 compile only because of that. The model keeps PIDs unbounded and reduces only the payload modulo 2^32, so for every PID the source can hold it writes the same four bytes.

Behaviour of the code that the model keeps as written (line numbers are in servers/nintendocreateaccount.go unless another file is named):

- **Empty PID list.** `req.PIDs[0]` is indexed without a length check (sync_available_songs.go line 40), so an empty list panics. The model returns `Panicked` and writes nothing.
- **PID mismatch.** The rejection at sync_available_songs.go line 42 returns `err`, which is still nil after the successful unmarshal, so the caller gets `("", nil)` and no response body.
- **Failed config update.** The error return at lines 69-72 leaves the record inserted at line 48 in place. `ConfigUpdateFailureReusesPid` shows that the next new account then receives the same PID.
- **Failed lookup.** Any error from the lookup at line 43 is read as "never connected", so a known username gets a duplicate record. The re-read at line 84 then finds the old record, and the session receives the old PID (`FailedLookupDuplicatesAccount`).
- **Counter update.** `last_pid` is read at line 37 and written at line 66 as two separate operations, not an atomic increment. PID uniqueness is proved only for calls that run one after another (`SequentialCallsKeepPidsUnique`).

## Model

| member | source | states |
|---|---|---|
| ConsoleTypes.Classify | servers/nintendocreateaccount.go:26-34 | Wii exactly when the email contains `DummyNintendo`, Xbox 360 otherwise; never PS3 |
| ConsoleTypes.Search | servers/nintendocreateaccount.go:29-32 | the left-to-right search succeeds exactly when the marker occurs somewhere in the string |
| Decimal.NatToString | servers/nintendocreateaccount.go:101 | the rendering of a number is a non-empty string of digits with no leading zero; 0 renders as the single digit "0" |
| Decimal.ParseNatToString | servers/nintendocreateaccount.go:101 | parsing the rendered decimal gives back the number |
| Decimal.NatToStringInjective | servers/nintendocreateaccount.go:101 | distinct numbers render differently |
| StationUrl.Render | servers/nintendocreateaccount.go:101 | the URL is exactly the fields address, port, PID, sid=15, type=3, RVCID joined by ';' in that order |
| StationUrl.RenderFields | servers/nintendocreateaccount.go:101 | splitting the URL at ';' yields exactly those six fields |
| StationUrl.ParseRender | servers/nintendocreateaccount.go:101 | address, port, PID and RVCID can all be read back from the URL when the address holds no ';' |
| StationUrl.RenderExample | servers/nintendocreateaccount.go:101 | 10.0.0.5, 1234, 42, 7 give `prudp:/address=10.0.0.5;port=1234;PID=42;sid=15;type=3;RVCID=7` |
| StationUrl.SplitJoin | servers/nintendocreateaccount.go:101 | splitting undoes joining when no field holds the separator |
| Wire.U32 | servers/nintendocreateaccount.go:100 | the uint32 conversion keeps the low 32 bits: the result is below 2^32 and differs from the input by a multiple of 2^32, so values already below 2^32 are kept |
| Wire.U32LE | servers/nintendocreateaccount.go:125 | the payload is four bytes, and read back little-endian they give the PID as a uint32 |
| Wire.CreateAccountPacket | servers/nintendocreateaccount.go:125-144 | the reply is a version 0 data packet from 0x31 to 0x3F with flags NeedsAck and Reliable, answering the call id, whose four-byte body decodes to the PID as a uint32 |
| Store.FindOne | servers/nintendocreateaccount.go:43 | the result is the first matching document in natural order, and None exactly when nothing matches |
| Store.Apply | servers/nintendocreateaccount.go:108-115 | a `$set` update never changes username, pid, console type, guid or creator |
| Store.UpdateOne | servers/nintendocreateaccount.go:108-115 | only the first document matching the filter receives the `$set`; no document is added, removed or moved, and username and PID stay |
| Store.UpdateOneKeepsIdentity | servers/nintendocreateaccount.go:108-115 | since UpdateOne moves no document and keeps identity fields, every later lookup finds the same document |
| Store.WithLastPID | servers/nintendocreateaccount.go:62-68 | the config update sets `last_pid` and no other field; with no config document it matches nothing |
| Store.FindOneAppend | servers/nintendocreateaccount.go:84 | after an insert, a name that was already present still resolves to the old record, and a new name resolves to the new one |
| Store.Database.InsertOne | servers/nintendocreateaccount.go:48-60 | appends the document unless the write fails, and then changes nothing |
| Store.Database.UpdateOneUser | servers/nintendocreateaccount.go:108-121 | updates the first match unless the write fails, and then changes nothing |
| Store.Database.SetLastPID | servers/nintendocreateaccount.go:62-73 | sets the stored `last_pid` unless the write fails; a missing config document stays missing |
| Nex.Server.NextConnectionID | servers/nintendocreateaccount.go:100 | bumps the counter by one and returns its new value |
| CreateAccount.NintendoCreateAccount | servers/nintendocreateaccount.go:18-147 | the handler leaves store, configs, counter and session, and gives the reply, exactly as `Provision` describes |
| CreateAccount.FinishLogin | servers/nintendocreateaccount.go:96-146 | the login steps on the objects match `Finish` |
| CreateAccount.Provision | servers/nintendocreateaccount.go:18-147 | the reply answers the call id; it is a success exactly when the URL write succeeds and, on the new-account path, so do the insert, config update and re-read, so a failed config read or lookup never fails the call; a success takes one connection id; at most one record is added; the config document is never created or removed |
| CreateAccount.Finish | servers/nintendocreateaccount.go:96-146 | one connection id is taken; the session gets the username, the record's PID, that id as a uint32, and a URL from which address, port, PID and id read back; the configs stay; the reply succeeds exactly when the URL write does, carrying the call id and the PID as a uint32; a failed write leaves the records alone |
| CreateAccount.FoundPath | servers/nintendocreateaccount.go:43 | a username that is found goes straight to the login steps with its record |
| CreateAccount.CreatedPath | servers/nintendocreateaccount.go:84-91 | after a successful insert and counter update, the re-read always finds the username |
| CreateAccount.FinishEffect | servers/nintendocreateaccount.go:101-121 | the session's URL is the one built from the caller's address, the record's PID and the new id, and it is written to the first record of the username only when that write succeeds |
| CreateAccount.NewAccountAllocatesNextPid | servers/nintendocreateaccount.go:43-79 | an unknown username gets exactly one new record with PID `last_pid + 1`, the classified console type, the GUID and the creator; the stored and in-process `LastPID` become that PID, and the other four counters are copied |
| CreateAccount.UnreadableConfigAllocatesPidOne | servers/nintendocreateaccount.go:36-50 | when the config cannot be read, the call continues; the new account gets PID 1 and the in-process counters become 1, 0, 0, 0, 0 |
| CreateAccount.KnownAccountKeepsIdentity | servers/nintendocreateaccount.go:43-115 | a known username gets no insert and no counter change; only its record changes, in `station_url` (the session's URL) and `int_station_url` (""); the session gets its PID |
| CreateAccount.SessionAfterLogin | servers/nintendocreateaccount.go:96-105 | at most one connection id is taken, and always one on success; the session then has the request's username, that id, the PID of the record the username resolves to, and a URL built from them that parses back |
| CreateAccount.FinishLogsIn | servers/nintendocreateaccount.go:96-115 | the login steps leave the username resolving to the same record, whose PID the session now carries |
| CreateAccount.InsertFailureChangesNothing | servers/nintendocreateaccount.go:56-59 | a failed insert returns an error and leaves the whole state unchanged |
| CreateAccount.ConfigUpdateFailureKeepsInsert | servers/nintendocreateaccount.go:62-73 | a failed config update returns an error; the inserted record stays, and the configs, counter and session are unchanged |
| CreateAccount.RereadFailureSkipsLogin | servers/nintendocreateaccount.go:75-90 | a failed re-read returns an error after the counters have advanced; no connection id is taken and the session keeps PID 0 |
| CreateAccount.StationWriteFailureKeepsRecords | servers/nintendocreateaccount.go:96-121 | a failed URL write returns an error and leaves every pre-existing record unchanged; when the call got as far as that write, the connection id taken and the session's username and id stay |
| CreateAccount.SuccessReplyCarriesPid | servers/nintendocreateaccount.go:125-144 | a success reply is a version 0 data packet, 0x31 to 0x3F, with flags NeedsAck and Reliable, for the same call id, and its body decodes to the session's PID |
| CreateAccount.UpdateOneKeepsPidsAllocated | servers/nintendocreateaccount.go:108-115 | the URL write keeps PIDs unique and at most `last_pid` |
| CreateAccount.SequentialCallsKeepPidsUnique | servers/nintendocreateaccount.go:43-79 | with a readable config and a successful counter update, a call keeps every PID unique and at most `last_pid` |
| CreateAccount.ConfigUpdateFailureReusesPid | servers/nintendocreateaccount.go:62-73 | after a failed config update, the next new account gets the same PID as the record already inserted |
| CreateAccount.FailedLookupDuplicatesAccount | servers/nintendocreateaccount.go:43-91 | a failed lookup of a known name inserts a second record with a new PID, but the session gets the old PID and the new record never gets a URL |
| SyncAvailableSongs.Path | protocols/jsonproto/services/misc/sync_available_songs.go:29-31 | the service answers on the fixed path `misc/sync_available_songs` |
| SyncAvailableSongs.ApplySongs | protocols/jsonproto/services/misc/sync_available_songs.go:47-50 | the updates add, remove and move no record, and change only `sids` and `usids` |
| SyncAvailableSongs.Sync | protocols/jsonproto/services/misc/sync_available_songs.go:33-58 | an empty PID list, and only that, panics; a malformed body returns the unmarshalling error; records change only when the first PID is the session's; a response carries the service path and ret_code 1 exactly when no update failed, 0 otherwise |
| SyncAvailableSongs.Handle | protocols/jsonproto/services/misc/sync_available_songs.go:33-58 | the handler's loop leaves the records and returns exactly what `Sync` describes |
| SyncAvailableSongs.FirstFailure | protocols/jsonproto/services/misc/sync_available_songs.go:47-55 | the loop stops at the first failing position, or runs to the end when none fails |
| SyncAvailableSongs.ApplySongsExact | protocols/jsonproto/services/misc/sync_available_songs.go:47-50 | after the updates, exactly the first record of each listed PID has `sids`/`usids` set; nothing else changes and no record moves |
| SyncAvailableSongs.RejectionsWriteNothing | protocols/jsonproto/services/misc/sync_available_songs.go:34-43 | a malformed body returns ("", err), an empty list panics, and a first-PID mismatch returns ("", nil); none of them writes anything |
| SyncAvailableSongs.AuthorisedSyncStopsAtFirstFailure | protocols/jsonproto/services/misc/sync_available_songs.go:47-57 | once authorised, only records targeted before the first failure change; ret_code is 1 exactly when no update failed and 0 exactly when one did |
| SyncAvailableSongs.EveryListedPidIsWritten | protocols/jsonproto/services/misc/sync_available_songs.go:40-50 | only the first PID is checked, so when nothing fails, the record of every listed PID is written |
| SyncAvailableSongs.SecondPidIsNotChecked | protocols/jsonproto/services/misc/sync_available_songs.go:40-57 | caller 5 with list [5, 6] gets ret_code 1, and PID 6's record gets sids "A" and usids "B" |
| SyncAvailableSongs.MismatchedFirstPidIsRejected | protocols/jsonproto/services/misc/sync_available_songs.go:40-43 | caller 5 with list [6, 5] gets ("", nil), and no record changes |

## Left out

- MongoDB driver calls, `context` and BSON document construction: they are replaced by the sequence-based store and its failure oracle.
- The write-concern and result values of MongoDB writes (`ModifiedCount`) are not modelled; they are only logged.
- The `nex` transport is not modelled: RMC envelope serialisation (protocol and method ids), `NewPacketV0`, `Send` and `SendErrorCode`. The reply is a record of the header fields, the flags, the call id and the payload bytes.
- JSON unmarshalling (`marshaler.UnmarshalRequest`) is an oracle parameter. A failure of `marshaler.MarshalResponse` is not modelled.
- `generateGUID` is an opaque parameter; its ignored error is not modelled.
- `IP.String()` is an opaque string. The round trip `StationUrl.ParseRender` assumes that it contains no ';'.
- InsertOne appends: the model puts a new document after every existing one in natural order. MongoDB does not guarantee that order. `CreateAccount.FailedLookupDuplicatesAccount` relies on it: with another order, the re-read could find the new record instead.
- Concurrency is not modelled: racing read-then-write on `last_pid` and the shared connection-id counter. Calls are modelled one after another.
- Logging is not modelled.
- The request fields `Region`, `SystemMS`, `MachineID` and `SessionGUID` are not used by the handler and are not modelled.
- `key`, `groups` and the incoming `err` argument of `NintendoCreateAccount` are unused and not modelled.
- Decoding a stored document into `models.User` is taken to succeed whenever the document is found. A decode error is modelled as a failure of that store operation.
- The update at lines 108-115 repeats the `$set` key. The model applies both assignments, as the code evidently intends.
- Nex.Server.NextConnectionID: the counter is an unbounded natural, because its own width is not visible. Only the `uint32` conversion of its value at line 100 is modelled.
- CreateAccount.Provision: `user.PID` is a uint32 in the source, but the model keeps PIDs unbounded, so `last_pid + 1` never wraps. PIDs of 2^32 or more, which that field cannot hold, are outside the model. Only the uint32 payload encoding reduces modulo 2^32.
