/**
 * The call factory: the registry of call-option instruments, one per NFT
 * collection. Making an instrument records the collection in a single
 * pending slot and returns an instantiate submessage built from the
 * factory's defaults; the instrument is registered when the reply arrives.
 */
module CallFactory {
  import opened Common

  /** Reply id of the instrument instantiate submessage. */
  const INSTRUMENT_REPLY_ID: nat := 10

  const INSTRUMENT_EXISTS := "make_call_instrument - instrument already exist"
  const INSTRUMENT_LABEL := "Interchainnft-options call option nft"

  /** The factory's settings, including the defaults every instrument gets. */
  datatype Config = Config(
    protocol: Addr,
    callCodeId: nat,
    nftSymbol: string,
    nftName: string,
    minimumOptionDuration: nat,
    allowedDenom: string,
    minBidIncrementBps: nat,
    vaultFactory: Addr)

  /** The call instrument's instantiate message. */
  datatype InstrumentInit = InstrumentInit(
    name: string,
    symbol: string,
    protocol: Addr,
    allowedUnderlyingNft: Addr,
    vaultFactory: Addr,
    minimumOptionDuration: nat,
    allowedDenom: string,
    minBidIncBips: nat)

  /** An instantiate submessage that replies on success under `replyId`. */
  datatype SubMsg = InstantiateInstrument(codeId: nat, init: InstrumentInit, instrumentLabel: string, replyId: nat)

  datatype ExecuteMsg = MakeCallInstrument(nftAddr: Addr)

  /**
   * `call_instrument_instantiate_wasm_msg` as the factory calls it: every
   * setting comes from the factory's defaults, and the collection becomes
   * the allowed underlying NFT.
   */
  function InstrumentInstantiate(config: Config, nftAddr: Addr): (m: SubMsg)
    ensures m.codeId == config.callCodeId && m.replyId == INSTRUMENT_REPLY_ID
    ensures m.init.allowedUnderlyingNft == nftAddr
    ensures m.init.name == config.nftName && m.init.symbol == config.nftSymbol
    ensures m.init.protocol == config.protocol && m.init.vaultFactory == config.vaultFactory
    ensures m.init.minimumOptionDuration == config.minimumOptionDuration
    ensures m.init.allowedDenom == config.allowedDenom && m.init.minBidIncBips == config.minBidIncrementBps
  {
    InstantiateInstrument(
      config.callCodeId,
      InstrumentInit(config.nftName, config.nftSymbol, config.protocol, nftAddr, config.vaultFactory,
                     config.minimumOptionDuration, config.allowedDenom, config.minBidIncrementBps),
      INSTRUMENT_LABEL,
      INSTRUMENT_REPLY_ID)
  }

  class Factory {
    /** The `cw_ownable` owner; no handler of the factory changes it. */
    const owner: Addr
    const config: Config
    /** `CALL_INSTRUMENTS`, keyed by collection. */
    var instruments: map<Addr, Addr>
    /** `TMP_INSTRUMENT`: absent until the first make call. */
    var tmp: Option<Addr>

    /** `instantiate`: the message's owner when given, else the sender, owns the factory. */
    constructor (sender: Addr, msgOwner: Option<Addr>, config: Config)
      ensures owner == InitialOwner(msgOwner, sender) && this.config == config
      ensures instruments == map[] && tmp == None
    {
      owner := InitialOwner(msgOwner, sender);
      this.config := config;
      instruments := map[];
      tmp := None;
    }

    /**
     * `make_call_instrument`: owner only, refused when the collection already
     * has an instrument. It writes only the pending slot.
     */
    method MakeCallInstrument(sender: Addr, nftAddr: Addr) returns (r: Result<seq<SubMsg>>)
      modifies this`tmp
      ensures sender != owner ==> r == Err(NotOwner)
      ensures sender == owner && nftAddr in instruments ==> r == Err(Std(INSTRUMENT_EXISTS))
      ensures r.Ok? <==> sender == owner && nftAddr !in instruments
      ensures r.Err? ==> unchanged(this)
      ensures r.Ok? ==> tmp == Some(nftAddr) && r.value == [InstrumentInstantiate(config, nftAddr)]
    {
      if sender != owner {
        return Err(NotOwner);
      }
      var instantiate := InstrumentInstantiate(config, nftAddr);
      if nftAddr in instruments {
        return Err(Std(INSTRUMENT_EXISTS));
      }
      tmp := Some(nftAddr);
      r := Ok([instantiate]);
    }

    /**
     * `reply`: registers the instrument for the pending collection. `created`
     * is the address parsed from the instantiation result, `None` when it does
     * not parse. The pending slot is left in place.
     */
    method Reply(id: nat, created: Option<Addr>) returns (r: Result<()>)
      modifies this`instruments
      ensures r.Err? ==> unchanged(this)
      ensures id != INSTRUMENT_REPLY_ID ==> r == Err(UnknownReplyId)
      ensures id == INSTRUMENT_REPLY_ID && tmp.None? ==> r == Err(NotFound("TmpInstrumentInfo"))
      ensures id == INSTRUMENT_REPLY_ID && tmp.Some? && tmp.value in old(instruments) ==> r == Err(Std(INSTRUMENT_EXISTS))
      ensures r.Ok? <==> id == INSTRUMENT_REPLY_ID && tmp.Some? && tmp.value !in old(instruments) && created.Some?
      ensures id == INSTRUMENT_REPLY_ID && tmp.Some? && tmp.value !in old(instruments) && created.None? ==> r == Err(ParseReply)
      ensures r.Ok? ==> instruments == old(instruments)[tmp.value := created.value]
    {
      if id != INSTRUMENT_REPLY_ID {
        return Err(UnknownReplyId);
      }
      if tmp.None? {
        return Err(NotFound("TmpInstrumentInfo"));
      }
      var nftAddr := tmp.value;
      if nftAddr in instruments {
        return Err(Std(INSTRUMENT_EXISTS));
      }
      if created.None? {
        return Err(ParseReply);
      }
      instruments := instruments[nftAddr := created.value];
      r := Ok(());
    }

    /** `execute`: the only message goes to `make_call_instrument`. */
    method Execute(sender: Addr, msg: ExecuteMsg) returns (r: Result<seq<SubMsg>>)
      modifies this`tmp
      ensures sender != owner ==> r == Err(NotOwner)
      ensures sender == owner && msg.nftAddr in instruments ==> r == Err(Std(INSTRUMENT_EXISTS))
      ensures r.Ok? <==> sender == owner && msg.nftAddr !in instruments
      ensures r.Err? ==> unchanged(this)
      ensures r.Ok? ==> tmp == Some(msg.nftAddr) && r.value == [InstrumentInstantiate(config, msg.nftAddr)]
    {
      match msg
      case MakeCallInstrument(nftAddr) =>
        r := MakeCallInstrument(sender, nftAddr);
    }

    /** `get_call_instrument`: the collection's instrument, if registered. */
    function GetCallInstrument(nftAddr: Addr): (r: Option<Addr>)
      reads this
      ensures r.Some? <==> nftAddr in instruments
      ensures r.Some? ==> r.value == instruments[nftAddr]
    {
      if nftAddr in instruments then Some(instruments[nftAddr]) else None
    }
  }

  /**
   * The make-then-reply handshake: the owner's request for a collection
   * without an instrument, answered by a successful instantiation, leaves
   * that instrument registered; a second request for it is then refused.
   */
  method MakeThenReply(f: Factory, sender: Addr, nftAddr: Addr, created: Addr)
    returns (made: Result<seq<SubMsg>>, replied: Result<()>, again: Result<seq<SubMsg>>)
    modifies f
    ensures made.Ok? <==> sender == f.owner && nftAddr !in old(f.instruments)
    ensures made.Ok? ==> replied.Ok? && f.instruments == old(f.instruments)[nftAddr := created]
    ensures made.Ok? ==> f.GetCallInstrument(nftAddr) == Some(created)
    ensures made.Ok? ==> again == Err(Std(INSTRUMENT_EXISTS))
  {
    made := f.MakeCallInstrument(sender, nftAddr);
    if made.Err? {
      return made, Err(made.error), made;
    }
    replied := f.Reply(made.value[0].replyId, Some(created));
    again := f.MakeCallInstrument(sender, nftAddr);
  }
}
