/**
 * What the provisioning handler puts on the wire: the fixed-width encoding of
 * its payload, the RMC reply it wraps, and the PRUDP packet header fields.
 */
module Wire {

  newtype uint8 = x: int | 0 <= x < 256

  const TwoTo32: nat := 0x1_0000_0000

  /** Conversion to Go's uint32: keeps the low 32 bits, that is, reduces modulo 2^32. */
  function U32(x: nat): (r: nat)
    ensures r < TwoTo32
    ensures (x - r) % TwoTo32 == 0
    ensures x < TwoTo32 ==> r == x
  {
    x % TwoTo32
  }

  /**
   * `WriteUInt32LE`: the four bytes of `x` as a uint32, least significant
   * first; reading them back gives the value modulo 2^32.
   */
  function U32LE(x: nat): (b: seq<uint8>)
    ensures |b| == 4
    ensures DecodeU32LE(b) == U32(x)
  {
    var a0 := U32(x);
    var a1 := a0 / 256;
    var a2 := a1 / 256;
    var a3 := a2 / 256;
    Base256(a0, TwoTo32 / 256);
    Base256(a1, TwoTo32 / 65536);
    Base256(a2, 256);
    [(a0 % 256) as uint8, (a1 % 256) as uint8, (a2 % 256) as uint8, (a3 % 256) as uint8]
  }

  /** One base-256 digit split off a number below `256 * bound`. */
  lemma Base256(a: nat, bound: nat)
    requires a < 256 * bound
    ensures a == a % 256 + 256 * (a / 256)
    ensures a / 256 < bound
  {
  }

  /** Reads four little-endian bytes back as an unsigned number. */
  function DecodeU32LE(b: seq<uint8>): (x: nat)
    requires |b| == 4
  {
    b[0] as nat + 256 * (b[1] as nat + 256 * (b[2] as nat + 256 * b[3] as nat))
  }

  /** PRUDP packet types. */
  datatype PacketType = SynPacket | ConnectPacket | DataPacket | DisconnectPacket | PingPacket

  /** PRUDP packet flags. */
  datatype Flag = FlagAck | FlagReliable | FlagNeedsAck | FlagHasSize | FlagMultiAck

  /** A successful RMC reply of the account-management protocol: the call it answers and its body. */
  datatype RmcResponse = RmcSuccess(callID: nat, body: seq<uint8>)

  datatype Packet = Packet(
    version: nat,
    source: nat,
    destination: nat,
    packetType: PacketType,
    flags: set<Flag>,
    payload: RmcResponse)

  /** What the transport sends back for a provisioning call. */
  datatype Reply = OperationError(callID: nat) | Success(packet: Packet)

  /**
   * servers/nintendocreateaccount.go:125-144: the reply to a successful
   * provisioning call, a reliable data packet from port 0x31 to 0x3F that
   * asks to be acknowledged and answers `callID` with the PID as a uint32.
   */
  function CreateAccountPacket(callID: nat, pid: nat): (p: Packet)
    ensures p.packetType == DataPacket && p.version == 0
    ensures p.source == 0x31 && p.destination == 0x3F
    ensures p.flags == {FlagReliable, FlagNeedsAck}
    ensures p.payload.callID == callID
    ensures |p.payload.body| == 4 && DecodeU32LE(p.payload.body) == U32(pid)
  {
    Packet(0, 0x31, 0x3F, DataPacket, {FlagNeedsAck, FlagReliable}, RmcSuccess(callID, U32LE(pid)))
  }
}
