/**
 * Shared vocabulary of the contracts: optional values and results, the
 * error kinds a handler can abort with, blocks, `Expiration` and `Duration`
 * (the `cw_utils` types every handler compares), and the integer widths.
 */
module Common {

  /** Largest value of a `Uint128`. */
  const MAX_U128: nat := 0xFFFF_FFFF_FFFF_FFFF_FFFF_FFFF_FFFF_FFFF
  /** Largest value of a `u64`. */
  const MAX_U64: nat := 0xFFFF_FFFF_FFFF_FFFF
  /** Nanoseconds in a second: block time is a nanosecond timestamp. */
  const NANOS_PER_SECOND: nat := 1_000_000_000

  /** A `Uint128` amount. */
  type U128 = x: nat | x <= MAX_U128

  /** Panic messages of the Rust runtime. */
  const UNWRAP_NONE := "called `Option::unwrap()` on a `None` value"
  const ADD_OVERFLOW := "attempt to add with overflow"
  const SUB_OVERFLOW := "attempt to subtract with overflow"
  const MUL_OVERFLOW := "attempt to multiply with overflow"

  /** Addresses are opaque strings; validation is not modelled. */
  type Addr = string

  datatype Option<T> = None | Some(value: T)

  /**
   * Why a handler aborted. `Panic` is a Rust panic (unchecked arithmetic
   * overflow, `unwrap` of `None`); `Overflow` is an `OverflowError` from a
   * checked operation. Both abort the transaction.
   */
  datatype Error =
    | Std(msg: string)
    | NotFound(what: string)
    | Overflow
    | Panic(reason: string)
    | Unauthorized
    | NotOwner
    | NonPayable
    | Claimed
    | MissingRole
    | ParseReply
    | ParseMsg
    | UnknownReplyId
    | DenomNotAllowed
    | BidIsLowerStrikePrice
    | OptionAlreadySettled(optionId: nat)
    | OptionIsExpired
    | OptionNotExpired(optionId: nat)
    | NoWinningBidder
    | OnlyOptionOwner(sender: Addr)
    | AssetNotFound(assetId: string)
    | HasActiveEntitlement
    | WithdrawalFailed
    | InvalidNft(received: Addr, expected: Addr)

  datatype Result<T> = Ok(value: T) | Err(error: Error)

  /** The part of `env.block` the handlers read; `time` is in nanoseconds. */
  datatype Block = Block(height: nat, time: nat)

  /** `cw_utils::Expiration`. */
  datatype Expiration = AtHeight(height: nat) | AtTime(time: nat) | Never

  /** `Expiration::is_expired`: a height or a time is expired once the block reaches it. */
  predicate IsExpired(e: Expiration, b: Block)
  {
    match e
    case AtHeight(h) => b.height >= h
    case AtTime(t) => b.time >= t
    case Never => false
  }

  /** The same block with its time advanced by `seconds` (`Timestamp::plus_seconds`). */
  function PlusSeconds(b: Block, seconds: nat): (r: Block)
    ensures r.height == b.height && r.time == b.time + seconds * NANOS_PER_SECOND
  {
    b.(time := b.time + seconds * NANOS_PER_SECOND)
  }

  /** `cw_utils::Duration`: a number of blocks or of seconds. */
  datatype Duration = Height(blocks: nat) | Time(seconds: nat)

  /** `Duration::after`: the expiration that lies the duration past the given block. */
  function After(d: Duration, b: Block): (e: Expiration)
    ensures d.Height? ==> e == AtHeight(b.height + d.blocks)
    ensures d.Time? ==> e == AtTime(PlusSeconds(b, d.seconds).time)
  {
    match d
    case Height(n) => AtHeight(b.height + n)
    case Time(s) => AtTime(PlusSeconds(b, s).time)
  }

  /**
   * A moment is expired for every later block: expiry is monotone in both
   * height and time.
   */
  lemma ExpiredStaysExpired(e: Expiration, b: Block, later: Block)
    requires later.height >= b.height && later.time >= b.time
    requires IsExpired(e, b)
    ensures IsExpired(e, later)
  {
  }

  /**
   * An expiration `d` past the block is not yet expired at that block, unless
   * the duration is zero.
   */
  lemma AfterNotYetExpired(d: Duration, b: Block)
    ensures IsExpired(After(d, b), b) <==> (d.Height? && d.blocks == 0) || (d.Time? && d.seconds == 0)
  {
  }

  /** The owner chosen at instantiation: the message's owner when given, else the sender. */
  function InitialOwner(msgOwner: Option<Addr>, sender: Addr): (owner: Addr)
    ensures msgOwner.Some? ==> owner == msgOwner.value
    ensures msgOwner.None? ==> owner == sender
  {
    if msgOwner.Some? then msgOwner.value else sender
  }
}
