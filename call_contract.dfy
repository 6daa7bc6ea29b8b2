/**
 * The call instrument's entry points: `execute` routes each extension
 * message to its handler, refuses direct minting of option tokens, and hands
 * the cw721 transfer, send and burn messages to the option-token registry;
 * `query` answers the extension queries from the option store.
 */
module CallContract {
  import opened Common
  import opened Denom
  import opened Msgs
  import opened OptionStore
  import CallEngine
  import Ledger
  import Vault
  import VaultFactory

  const DIRECT_MINT := "direct minting is forbidden"

  /** The instrument's own execute messages. */
  datatype InstrumentMsg =
    | MintWithNft(nftAddr: Addr, nftId: string, strike: U128, expiration: Expiration)
    | MintWithVault(vaultAddr: Addr, assetId: string, strike: U128, expiration: Expiration)
    | MintWithEntitledVault(vaultAddr: Addr, assetId: string, strike: U128, expiration: Expiration)
    | Bid(optionId: nat)
    | ReclaimAsset(optionId: nat, withdraw: bool)
    | SettleOption(optionId: nat)
    | BurnExpiredOption(optionId: nat)
    | ClaimOptionProceeds(optionId: nat)
    | ForTest

  /**
   * The execute messages of the contract: its extension, the cw721 mint it
   * refuses, and the cw721 messages on option tokens it passes on. A token
   * is named by its option id.
   */
  datatype ExecuteMsg =
    | Extension(msg: InstrumentMsg)
    | Mint(tokenId: string, owner: Addr)
    | TransferNft(recipient: Addr, token: nat)
    | SendNft(contract: Addr, token: nat, payload: string)
    | Burn(token: nat)

  datatype QueryMsg =
    | CurrentBid(optionId: nat)
    | CurrentBidder(optionId: nat)
    | GetVaultAddress(optionId: nat)
    | GetOptionIdForAsset(vault: Addr, assetId: string)
    | GetAssetId(optionId: nat)
    | GetStrikePrice(optionId: nat)
    | GetExpiration(optionId: nat)

  /** A query answer, one variant per query. */
  datatype Answer =
    | BidAnswer(bid: U128)
    | BidderAnswer(bidder: Option<Addr>)
    | VaultAnswer(vault: Addr)
    | OptionIdAnswer(id: nat)
    | AssetIdAnswer(assetId: string)
    | StrikeAnswer(strike: U128)
    | ExpirationAnswer(expiration: Expiration)

  /** Whether `msg` names the vault contract `v` when it is a vault mint. */
  predicate NamesVault(msg: ExecuteMsg, v: Vault.Vault)
  {
    msg.Extension? && (msg.msg.MintWithVault? || msg.msg.MintWithEntitledVault?) ==> msg.msg.vaultAddr == v.address
  }

  /**
   * The outcome of a cw721 transfer, send or burn of an option token: only
   * its owner may act; a transfer or a send hands the token, and with it
   * the option's proceeds, to a new holder, a send also telling the
   * receiving contract; a burn destroys it. The option store is untouched.
   */
  twostate predicate TokenOutcome(inst: CallEngine.Instrument, sender: Addr, msg: ExecuteMsg,
                                  new r: Result<seq<CosmosMsg>>)
    requires msg.TransferNft? || msg.SendNft? || msg.Burn?
    reads inst, inst.store, inst.tokens
  {
    var id := msg.token;
    var owners := old(inst.tokens.owners);
    inst.Atomic(r)
    && unchanged(inst.store)
    && (id !in owners ==> r == Err(NotFound("token")))
    && (id in owners && owners[id] != sender ==> r == Err(NotOwner))
    && (old(inst.Valid()) ==> (r.Ok? <==> id in owners && owners[id] == sender))
    && (r.Ok? && msg.TransferNft? ==>
          r.value == [] && inst.tokens.owners == owners[id := msg.recipient] && inst.tokens.count == old(inst.tokens.count))
    && (r.Ok? && msg.SendNft? ==>
          r.value == [ReceiveNft(msg.contract, sender, id, msg.payload)]
          && inst.tokens.owners == owners[id := msg.contract] && inst.tokens.count == old(inst.tokens.count))
    && (r.Ok? && msg.Burn? ==>
          r.value == [] && inst.tokens.owners == owners - {id} && inst.tokens.count == old(inst.tokens.count) - 1)
  }

  /**
   * `execute`. The collaborators a handler queries are arguments: `nft` is
   * what the collection reports for the NFT of a `MintWithNft`, `factory` is
   * the vault factory, `v` is the vault a vault mint names and `nftOwner`
   * the owner the collection reports for that vault's asset. Every message
   * has exactly the outcome its handler promises.
   */
  method Execute(inst: CallEngine.Instrument, b: Block, sender: Addr, funds: seq<Coin>, msg: ExecuteMsg,
                 nft: CallEngine.NftView, factory: VaultFactory.Factory, v: Vault.Vault, nftOwner: Addr)
    returns (r: Result<seq<CosmosMsg>>)
    requires NamesVault(msg, v)
    modifies inst.store, inst.tokens
    ensures old(inst.Valid()) ==> inst.Valid()
    ensures r.Err? ==> inst.Snap() == old(inst.Snap())
    ensures msg.Mint? ==> r == Err(Std(DIRECT_MINT))
    ensures msg == Extension(ForTest) ==> r == Ok([]) && inst.Snap() == old(inst.Snap())
    ensures msg.TransferNft? || msg.SendNft? || msg.Burn? ==> TokenOutcome(inst, sender, msg, r)
    ensures msg.Extension? && msg.msg.MintWithNft? ==>
              var m := msg.msg;
              inst.MintWithNftOutcome(b, sender, m.nftAddr, m.nftId, m.strike, m.expiration, nft, factory, r)
    ensures msg.Extension? && msg.msg.MintWithVault? ==>
              var m := msg.msg;
              inst.MintWithVaultOutcome(b, sender, v, nftOwner, m.assetId, m.strike, m.expiration, r)
    ensures msg.Extension? && msg.msg.MintWithEntitledVault? ==>
              var m := msg.msg;
              inst.MintWithEntitledVaultOutcome(b, sender, v, nftOwner, m.assetId, m.strike, m.expiration, r)
    ensures msg.Extension? && msg.msg.Bid? ==> inst.BidOutcome(sender, funds, msg.msg.optionId, r)
    ensures msg.Extension? && msg.msg.ReclaimAsset? ==>
              inst.ReclaimOutcome(b, sender, funds, msg.msg.optionId, msg.msg.withdraw, r)
    ensures msg.Extension? && msg.msg.SettleOption? ==> inst.SettleOutcome(b, sender, msg.msg.optionId, r)
    ensures msg.Extension? && msg.msg.BurnExpiredOption? ==> inst.BurnOutcome(b, sender, msg.msg.optionId, r)
    ensures msg.Extension? && msg.msg.ClaimOptionProceeds? ==> inst.ClaimOutcome(sender, msg.msg.optionId, r)
  {
    match msg
    case Mint(_, _) =>
      r := Err(Std(DIRECT_MINT));
    case TransferNft(_, _) =>
      r := ExecuteToken(inst, sender, msg);
    case SendNft(_, _, _) =>
      r := ExecuteToken(inst, sender, msg);
    case Burn(_) =>
      r := ExecuteToken(inst, sender, msg);
    case Extension(m) =>
      if m.MintWithNft? || m.MintWithVault? || m.MintWithEntitledVault? {
        r := ExecuteMint(inst, b, sender, m, nft, factory, v, nftOwner);
      } else if m.Bid? || m.ReclaimAsset? {
        r := ExecuteAuction(inst, b, sender, funds, m);
      } else if m.ForTest? {
        r := Ok([]);
      } else {
        r := ExecuteSettlement(inst, b, sender, m);
      }
  }

  /** The three mint messages of `execute`, each answered with the messages of its handler's outcome. */
  method ExecuteMint(inst: CallEngine.Instrument, b: Block, sender: Addr, m: InstrumentMsg,
                     nft: CallEngine.NftView, factory: VaultFactory.Factory, v: Vault.Vault, nftOwner: Addr)
    returns (r: Result<seq<CosmosMsg>>)
    requires m.MintWithNft? || m.MintWithVault? || m.MintWithEntitledVault?
    requires m.MintWithNft? || m.vaultAddr == v.address
    modifies inst.store, inst.tokens
    ensures m.MintWithNft? ==>
              inst.MintWithNftOutcome(b, sender, m.nftAddr, m.nftId, m.strike, m.expiration, nft, factory, r)
    ensures m.MintWithVault? ==>
              inst.MintWithVaultOutcome(b, sender, v, nftOwner, m.assetId, m.strike, m.expiration, r)
    ensures m.MintWithEntitledVault? ==>
              inst.MintWithEntitledVaultOutcome(b, sender, v, nftOwner, m.assetId, m.strike, m.expiration, r)
  {
    var minted;
    match m {
      case MintWithNft(nftAddr, nftId, strike, expiration) =>
        minted := inst.MintWithNft(b, sender, nftAddr, nftId, strike, expiration, nft, factory);
      case MintWithVault(_, assetId, strike, expiration) =>
        minted := inst.MintWithVault(b, sender, v, nftOwner, assetId, strike, expiration);
      case MintWithEntitledVault(_, assetId, strike, expiration) =>
        minted := inst.MintWithEntitledVault(b, sender, v, nftOwner, assetId, strike, expiration);
    }
    r := CallEngine.MintResponse(minted);
  }

  /** The bid and reclaim messages of `execute`, each with its handler's outcome. */
  method ExecuteAuction(inst: CallEngine.Instrument, b: Block, sender: Addr, funds: seq<Coin>, m: InstrumentMsg)
    returns (r: Result<seq<CosmosMsg>>)
    requires m.Bid? || m.ReclaimAsset?
    modifies inst.store, inst.tokens
    ensures m.Bid? ==> inst.BidOutcome(sender, funds, m.optionId, r)
    ensures m.ReclaimAsset? ==> inst.ReclaimOutcome(b, sender, funds, m.optionId, m.withdraw, r)
  {
    match m
    case Bid(id) =>
      r := inst.Bid(sender, funds, id);
    case ReclaimAsset(id, withdraw) =>
      r := inst.ReclaimAsset(b, sender, funds, id, withdraw);
  }

  /** The settle, burn and claim messages of `execute`, each answered with the messages of its handler's outcome. */
  method ExecuteSettlement(inst: CallEngine.Instrument, b: Block, sender: Addr, m: InstrumentMsg)
    returns (r: Result<seq<CosmosMsg>>)
    requires m.SettleOption? || m.BurnExpiredOption? || m.ClaimOptionProceeds?
    modifies inst.store, inst.tokens
    ensures m.SettleOption? ==> inst.SettleOutcome(b, sender, m.optionId, r)
    ensures m.BurnExpiredOption? ==> inst.BurnOutcome(b, sender, m.optionId, r)
    ensures m.ClaimOptionProceeds? ==> inst.ClaimOutcome(sender, m.optionId, r)
  {
    match m
    case SettleOption(id) =>
      var settled := inst.SettleOption(b, sender, id);
      r := CallEngine.SettleResponse(settled);
    case BurnExpiredOption(id) =>
      var burned := inst.BurnExpiredOption(b, sender, id);
      r := CallEngine.BurnResponse(burned);
    case ClaimOptionProceeds(id) =>
      r := inst.ClaimOptionProceeds(sender, id);
  }

  /** The cw721 transfer, send and burn messages of `execute`, with the outcome `TokenOutcome` describes. */
  method ExecuteToken(inst: CallEngine.Instrument, sender: Addr, msg: ExecuteMsg) returns (r: Result<seq<CosmosMsg>>)
    requires msg.TransferNft? || msg.SendNft? || msg.Burn?
    modifies inst.tokens
    ensures TokenOutcome(inst, sender, msg, r)
  {
    ghost var before := inst.Snap();
    var id := msg.token;
    if msg.Burn? {
      var burned := inst.tokens.Burn(sender, id);
      if burned.Err? {
        return Err(burned.error);
      }
      if Ledger.Consistent(before) {
        Ledger.BurnKeepsConsistent(before, id);
      }
      return Ok([]);
    }
    var recipient := if msg.TransferNft? then msg.recipient else msg.contract;
    var moved := inst.tokens.Transfer(sender, recipient, id);
    if moved.Err? {
      return Err(moved.error);
    }
    if Ledger.Consistent(before) {
      Ledger.TransferKeepsConsistent(before, id, recipient);
    }
    r := if msg.TransferNft? then Ok([]) else Ok([ReceiveNft(msg.contract, sender, id, msg.payload)]);
  }

  /**
   * A claim outlives its token: after a settlement by someone other than the
   * holder stores the holder's claim, the holder may still burn the option
   * token through cw721, and from then on every attempt to collect the
   * claim is refused for the missing token, while the claim stays stored.
   */
  method BurnStrandsClaim(inst: CallEngine.Instrument, b: Block, settler: Addr, claimant: Addr, id: nat)
    returns (settled: Result<seq<CosmosMsg>>, burned: Result<seq<CosmosMsg>>, claimed: Result<seq<CosmosMsg>>)
    modifies inst.store, inst.tokens
    ensures old(inst.Valid()) && settled.Ok? && id in old(inst.tokens.owners) && settler != old(inst.tokens.owners)[id] ==>
              burned.Ok? && claimed == Err(NotFound("token")) && id in inst.store.claims && inst.Valid()
  {
    var holder := if id in inst.tokens.owners then inst.tokens.owners[id] else settler;
    settled := ExecuteSettlement(inst, b, settler, SettleOption(id));
    burned := ExecuteToken(inst, holder, Burn(id));
    claimed := ExecuteSettlement(inst, b, claimant, ClaimOptionProceeds(id));
  }

  /**
   * The option travels with its token: once the writer transfers the token
   * to a buyer, a settlement by the buyer pays the buyer the spread and
   * burns the token.
   */
  method TransferThenSettle(inst: CallEngine.Instrument, b: Block, buyer: Addr, id: nat)
    returns (transferred: Result<seq<CosmosMsg>>, settled: Result<seq<CosmosMsg>>)
    modifies inst.store, inst.tokens
    ensures old(inst.Valid()) && transferred.Ok? && settled.Ok? ==>
              id in old(inst.store.options) && id in old(inst.tokens.owners) && id !in inst.tokens.owners
              && var call := old(inst.store.options)[id];
              call.strike <= call.bid && |settled.value| > 0
              && settled.value[|settled.value| - 1] == BankSend(buyer, Coins(inst.config.allowedDenom, call.bid - call.strike))
  {
    var seller := if id in inst.store.options then inst.store.options[id].writer else buyer;
    transferred := ExecuteToken(inst, seller, TransferNft(buyer, id));
    settled := ExecuteSettlement(inst, b, buyer, SettleOption(id));
  }

  /** `query`: each extension query reads one field of the option store. */
  function Query(inst: CallEngine.Instrument, msg: QueryMsg): (r: Result<Answer>)
    reads inst, inst.store
    ensures msg.GetOptionIdForAsset? ==>
              (r.Ok? <==> (msg.vault, msg.assetId) in inst.store.index)
              && (r.Ok? ==> r.value == OptionIdAnswer(inst.store.index[(msg.vault, msg.assetId)]))
    ensures !msg.GetOptionIdForAsset? ==>
              (r.Ok? <==> msg.optionId in inst.store.options)
              && (r.Err? ==> r.error == NotFound("call option"))
    ensures r.Ok? && !msg.GetOptionIdForAsset? ==>
              var o := inst.store.options[msg.optionId];
              (msg.CurrentBid? ==> r.value == BidAnswer(o.bid))
              && (msg.CurrentBidder? ==> r.value == BidderAnswer(o.bidder))
              && (msg.GetVaultAddress? ==> r.value == VaultAnswer(o.vault))
              && (msg.GetAssetId? ==> r.value == AssetIdAnswer(o.assetId))
              && (msg.GetStrikePrice? ==> r.value == StrikeAnswer(o.strike))
              && (msg.GetExpiration? ==> r.value == ExpirationAnswer(o.expiration))
  {
    match msg
    case CurrentBid(id) =>
      var a := inst.CurrentBid(id);
      if a.Ok? then Ok(BidAnswer(a.value)) else Err(a.error)
    case CurrentBidder(id) =>
      var a := inst.CurrentBidder(id);
      if a.Ok? then Ok(BidderAnswer(a.value)) else Err(a.error)
    case GetVaultAddress(id) =>
      var a := inst.GetVaultAddress(id);
      if a.Ok? then Ok(VaultAnswer(a.value)) else Err(a.error)
    case GetOptionIdForAsset(vault, assetId) =>
      var a := inst.GetOptionIdForAsset(vault, assetId);
      if a.Ok? then Ok(OptionIdAnswer(a.value)) else Err(a.error)
    case GetAssetId(id) =>
      var a := inst.GetAssetId(id);
      if a.Ok? then Ok(AssetIdAnswer(a.value)) else Err(a.error)
    case GetStrikePrice(id) =>
      var a := inst.GetStrikePrice(id);
      if a.Ok? then Ok(StrikeAnswer(a.value)) else Err(a.error)
    case GetExpiration(id) =>
      var a := inst.GetExpiration(id);
      if a.Ok? then Ok(ExpirationAnswer(a.value)) else Err(a.error)
  }
}
