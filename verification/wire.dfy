/** Fixed-width identifiers, reason codes, and one datatype per message of the wire protocol. */
module Wire {
  import opened Numbers
  import opened Wrappers

  type byte = n: int | 0 <= n < 0x100

  type u32 = n: int | 0 <= n <= 0xFFFF_FFFF

  type Bytes = seq<byte>

  /** Compressed public key, 33 bytes: a peer's identity. */
  type PubKey = b: Bytes | |b| == 33 witness seq(33, _ => 0)

  type ChannelId = b: Bytes | |b| == 32 witness seq(32, _ => 0)

  type Signature = b: Bytes | |b| == 64 witness seq(64, _ => 0)

  /** A string, as the bytes that encode it. */
  type Text = b: Bytes | ValidUtf8(b)

  predicate Continuation(b: byte) {
    0x80 <= b < 0xC0
  }

  /** UTF-8, section 4 of RFC 3629: no overlong form, no surrogate, nothing past U+10FFFF. */
  predicate ValidUtf8(b: Bytes) {
    |b| == 0 ||
    if b[0] < 0x80 then ValidUtf8(b[1..])
    else if 0xC2 <= b[0] < 0xE0 then
      |b| >= 2 && Continuation(b[1]) && ValidUtf8(b[2..])
    else if 0xE0 <= b[0] < 0xF0 then
      |b| >= 3 && Continuation(b[1]) && Continuation(b[2]) &&
      (b[0] == 0xE0 ==> b[1] >= 0xA0) && (b[0] == 0xED ==> b[1] < 0xA0) && ValidUtf8(b[3..])
    else
      0xF0 <= b[0] < 0xF5 && |b| >= 4 && Continuation(b[1]) && Continuation(b[2]) && Continuation(b[3]) &&
      (b[0] == 0xF0 ==> b[1] >= 0x90) && (b[0] == 0xF4 ==> b[1] < 0x90) && ValidUtf8(b[4..])
  }

  const MAX_CHANNEL_UPDATES: nat := 8

  const PROTOCOL_VERSION: byte := 1

  datatype ReasonCode =
    | FromPayerWeightUnacceptable
    | MintNotAccepted
    | UnitNotAccepted
    | OutOfRange
    | FundingInvalid
    | GrantInvalid
    | RateExceedsCapacity
    | GrantExceedsChannel
    | VersionUnsupported
    | TooSoon
    | Other
  {
    function ToByte(): byte {
      match this
      case FromPayerWeightUnacceptable => 0x01
      case MintNotAccepted => 0x02
      case UnitNotAccepted => 0x03
      case OutOfRange => 0x04
      case FundingInvalid => 0x05
      case GrantInvalid => 0x06
      case RateExceedsCapacity => 0x07
      case GrantExceedsChannel => 0x08
      case VersionUnsupported => 0x09
      case TooSoon => 0x0A
      case Other => 0xFF
    }

    static function FromByte(v: byte): ReasonCode {
      match v
      case 0x01 => FromPayerWeightUnacceptable
      case 0x02 => MintNotAccepted
      case 0x03 => UnitNotAccepted
      case 0x04 => OutOfRange
      case 0x05 => FundingInvalid
      case 0x06 => GrantInvalid
      case 0x07 => RateExceedsCapacity
      case 0x08 => GrantExceedsChannel
      case 0x09 => VersionUnsupported
      case 0x0A => TooSoon
      case _ => Other
    }
  }

  datatype CloseReason = Normal | PriceRejected | PeerLeaving {
    function ToByte(): byte {
      match this
      case Normal => 0
      case PriceRejected => 1
      case PeerLeaving => 2
    }

    static function FromByte(v: byte): CloseReason {
      match v
      case 1 => PriceRejected
      case 2 => PeerLeaving
      case _ => Normal
    }
  }

  datatype Announce = Announce(version: byte, pubkey: PubKey, unit: Text, capabilities: u32)

  datatype Offer = Offer(acceptedMints: seq<Text>, unit: Text, minWindowMs: u64, maxWindowMs: u64,
                         fromPayerWeight: u16, noCharge: bool, minReservedRate: u64, minTopupGapMs: u64)

  datatype ChannelUpdate = ChannelUpdate(channelId: ChannelId, cumulative: u64, signature: Signature)

  datatype TopUp = TopUp(updates: seq<ChannelUpdate>, windowMs: u64, reservedRate: u64)

  datatype RefusedUpdate = RefusedUpdate(channelId: ChannelId, cumulative: u64)

  datatype TopUpReject = TopUpReject(refused: seq<RefusedUpdate>, maxReservedRate: u64, reason: ReasonCode)

  datatype Balance = Balance(remaining: u64, expiresInMs: u64, reservedRate: u64)

  datatype Message =
    | MAnnounce(announce: Announce)
    | MOffer(offer: Offer)
    | MAccept(funding: Bytes)
    | MChannelReady(channelId: ChannelId)
    | MTopUp(topup: TopUp)
    | MTopUpReject(topupReject: TopUpReject)
    | MRolloverInit(oldChannelId: ChannelId, funding: Bytes)
    | MRolloverReady(oldChannelId: ChannelId, newChannelId: ChannelId)
    | MChannelClose(channelId: ChannelId, finalBalance: u64, finalSignature: Signature, closeReason: CloseReason)
    | MCloseAck(channelId: ChannelId, acceptedBalance: u64)
    | MReject(rejectedType: byte, reason: ReasonCode, text: Option<Text>)
    | MDisconnect(reason: ReasonCode)
    | MBalance(balance: Balance)

  const ANNOUNCE: byte := 0x00
  const OFFER: byte := 0x01
  const TOPUP: byte := 0x04
}
