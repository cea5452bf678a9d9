/**
 * The transport-owned state the handlers read and change: the caller's live
 * session and the process-wide server state (its connection-id counter and
 * the in-process copy of the config counters).
 */
module Nex {
  import opened Store

  /** A connected client's session. */
  class Client {
    var username: string
    var playerID: nat
    var externalStationURL: string
    var connectionID: nat
    /** The observed UDP endpoint the client connects from. */
    const ip: string
    const port: nat

    constructor (ip: string, port: nat, playerID: nat)
      ensures this.ip == ip && this.port == port && this.playerID == playerID
      ensures username == "" && externalStationURL == "" && connectionID == 0
    {
      this.ip := ip;
      this.port := port;
      this.playerID := playerID;
      username := "";
      externalStationURL := "";
      connectionID := 0;
    }
  }

  /** The secure server and the package-level `Config` it keeps beside it. */
  class Server {
    var connectionIDCounter: nat
    var config: Config

    constructor (counter: nat, config: Config)
      ensures connectionIDCounter == counter && this.config == config
    {
      connectionIDCounter := counter;
      this.config := config;
    }

    /** `ConnectionIDCounter().Increment()`: bumps the counter and returns its new value. */
    method NextConnectionID() returns (id: nat)
      modifies this
      ensures connectionIDCounter == old(connectionIDCounter) + 1 && id == connectionIDCounter
      ensures config == old(config)
    {
      connectionIDCounter := connectionIDCounter + 1;
      id := connectionIDCounter;
    }
  }
}
