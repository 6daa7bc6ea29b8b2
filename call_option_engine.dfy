/**
 * The older call-option instrument: the same ledger and the same handlers as
 * the call instrument, with different checks, and with three of its record
 * changes made on a local copy only. `bid` never saves the new high bid,
 * while `reclaim_asset` and `settle_option` never save the settled flag. No
 * handler therefore ever writes a bid, a bidder or a settlement, and every
 * state the instrument reaches is `Untouched`: there settlement is always
 * refused for want of a winning bidder, and no claim ever exists.
 *
 * As in the call instrument, an aborted handler keeps none of its writes,
 * and outgoing messages are returned, never applied.
 */
module CallOptionEngine {
  import opened Common
  import opened Denom
  import opened Msgs
  import opened OptionStore
  import opened Tokens
  import opened Ledger
  import CallEngine
  import Vault
  import VaultFactory

  const NFT_NOT_ALLOWED := "mint_with_nft - nft not allowes"
  const NFT_CALLER := "mint_with_nft - caller not owner or operator"
  const NFT_CALLER_OR_APPROVAL := "mint_with_nft - caller not owner or operator or has approval"
  const NFT_CONTRACT := "mint_with_nft - call option contract not operator or has approval"
  const NFT_NO_VAULT := "mint_with_nft - appropriate vault not found"
  const VAULT_NFT_NOT_ALLOWED := "mint_with_vault - nft not allowes"
  const VAULT_NOT_HELD := "mint_with_vault - asset not in vault"
  const VAULT_CALLER := "mint_with_vault - called by someone other than the owner or operator"
  const VAULT_OWNER_NOT_SET := "mint_with_vault - beneficial owner not set"
  const ENTITLED_NOT_OPERATOR := "mint_with_entitled_vault - call contract not operator"
  const ENTITLED_EXPIRATION := "mint_with_entitled_vault - entitlement expiration different"
  const ENTITLED_CALLER := "mint_with_entitled_vault - only owner or operator may mint"
  const ENTITLED_OWNER_NOT_SET := "mint_with_entitled_vault - beneficial owner not set"
  const BID_DENOM := "bid - not allowed denom"
  const BID_INCREMENT := "bid - must overbid by minBidIncrementBips"
  const BID_BELOW_STRIKE := "bid - bid is lower than the strike price"
  const RECLAIM_SETTLED := "reclaim_asset - option already settled"
  const RECLAIM_NOT_OWNER := "reclaim_asset - writer must own option"
  const RECLAIM_EXPIRED := "reclaim_asset - option expired"
  const NO_WINNER := "bid must be won by someone"
  const NOT_EXPIRED := "option must be expired"
  const ALREADY_SETTLED := "the call is already settled"
  const HAS_BIDS := "option has bids"
  const BURN_SETTLED := "option is already settled"
  const OWNER_ONLY := "owner only"
  const CLAIM_ZERO := "claim is zero"

  /** No option carries a bid, a bidder or the settled flag, and no claim is stored. */
  ghost predicate Untouched(s: Snapshot)
  {
    s.claims == map[]
    && forall id :: id in s.options ==> s.options[id].bid == 0 && s.options[id].bidder.None? && !s.options[id].settled
  }

  /** Minting a record without a bid keeps the state untouched. */
  lemma MintKeepsUntouched(s: Snapshot, o: CallOption)
    requires Untouched(s) && o.bid == 0 && o.bidder.None? && !o.settled
    ensures Untouched(Minted(s, o))
  {
  }

  /**
   * The caller check of `mint_with_nft` as written: it refuses unless the
   * caller is the NFT's owner AND one of the owner's operators AND approved
   * for the token.
   */
  predicate CallerAccepted(nft: CallEngine.NftView, sender: Addr)
  {
    nft.owner == sender && sender in nft.operators && sender in nft.approvals
  }

  /**
   * The check accepts only callers the call instrument accepts too, and
   * refuses the owner itself unless it is also its own operator and approved.
   */
  lemma CallerCheckStricter(nft: CallEngine.NftView, sender: Addr)
    ensures CallerAccepted(nft, sender) ==> nft.owner == sender || sender in nft.operators || sender in nft.approvals
    ensures nft.owner == sender && (sender !in nft.operators || sender !in nft.approvals) ==> !CallerAccepted(nft, sender)
    ensures nft.owner != sender ==> !CallerAccepted(nft, sender)
  {
  }

  /**
   * The first check of `bid` that refuses `amount` for `call`, in the
   * source's order, or `None`: the writer's unchecked `+=`, the checked
   * product, the checked sum, the minimum raise, the strike, and the checked
   * subtraction whose result is discarded. Unlike the call instrument there
   * is no multiple-of-10000 guard, and the product is checked.
   */
  function BidRefusal(call: CallOption, amount: nat, bps: nat): (e: Option<Error>)
    ensures e.None? <==> amount <= MAX_U128 && call.bid * bps <= MAX_U128
                         && call.bid + CallEngine.Increment(call.bid, bps) <= MAX_U128
                         && call.bid + CallEngine.Increment(call.bid, bps) <= amount && call.strike <= amount
                         && !(call.bidder == Some(call.writer) && call.bid < call.strike)
    ensures amount > MAX_U128 ==> e == Some(Panic(ADD_OVERFLOW))
    ensures amount <= MAX_U128 && call.bid * bps > MAX_U128 ==> e == Some(Overflow)
  {
    if amount > MAX_U128 then Some(Panic(ADD_OVERFLOW))
    else if call.bid * bps > MAX_U128 then Some(Overflow)
    else if call.bid + CallEngine.Increment(call.bid, bps) > MAX_U128 then Some(Overflow)
    else if amount < call.bid + CallEngine.Increment(call.bid, bps) then Some(Std(BID_INCREMENT))
    else if amount < call.strike then Some(Std(BID_BELOW_STRIKE))
    else if call.bidder.Some? && call.bidder.value == call.writer && call.bid < call.strike then Some(Overflow)
    else None
  }

  /** On an option without bids a bid is accepted exactly when it covers the strike and fits a `u128`. */
  lemma UntouchedBidAccepted(call: CallOption, amount: nat, bps: nat)
    requires call.bid == 0 && call.bidder.None?
    ensures BidRefusal(call, amount, bps).None? <==> call.strike <= amount <= MAX_U128
  {
  }

  /**
   * Without the multiple-of-10000 guard a bid may equal the standing bid:
   * whenever the standing bid times the rate stays below 10000 basis points
   * the required raise rounds to 0, so the same amount is accepted again
   * here, while the call instrument refuses any such non-zero standing bid
   * as too small.
   */
  lemma {:induction false} EqualBidAccepted(call: CallOption, bps: nat)
    requires call.bid * bps < CallEngine.BPS && call.strike <= call.bid <= MAX_U128
    ensures BidRefusal(call, call.bid, bps).None?
    ensures 0 < call.bid && 0 < bps ==> CallEngine.BidRefusal(call, call.bid, bps) == Some(Std(CallEngine.BID_TOO_SMALL))
  {
    assert CallEngine.Increment(call.bid, bps) == 0;
    if 0 < call.bid && 0 < bps {
      assert call.bid <= call.bid * bps;
      assert call.bid / CallEngine.BPS == 0;
    }
  }

  class Instrument {
    /** The instrument's own contract address. */
    const address: Addr
    const config: CallEngine.Config
    const store: Store
    const tokens: Registry

    /** The ledger is consistent and untouched. */
    ghost predicate Valid()
      reads this, store, tokens
    {
      Consistent(Snap()) && Untouched(Snap())
    }

    /** The contents of the option store and the option tokens. */
    function Snap(): Snapshot
      reads this, store, tokens
    {
      SnapOf(store, tokens)
    }

    /** `instantiate`: stores the config, with an empty ledger. */
    constructor (address: Addr, config: CallEngine.Config)
      ensures this.address == address && this.config == config
      ensures fresh(store) && fresh(tokens)
      ensures store.counter == None && store.options == map[] && store.claims == map[] && store.index == map[]
      ensures tokens.owners == map[] && tokens.count == 0
      ensures Valid()
    {
      this.address := address;
      this.config := config;
      store := new Store();
      tokens := new Registry();
    }

    /**
     * `mint_option`: the shared `mint_call` writes, which also keep the
     * ledger untouched.
     */
    method MintOption(b: Block, writer: Addr, vault: Addr, assetId: string, strike: U128, expiration: Expiration)
      returns (r: Result<nat>)
      modifies store, tokens
      ensures old(Valid()) ==> Valid()
      ensures old(Valid()) ==> TermsKept(old(store.options), store.options)
      ensures r.Err? ==> Snap() == old(Snap())
      ensures old(MintRefusal(store, config.minimumOptionDuration, b, vault, assetId, expiration)).Some? ==>
                r == Err(old(MintRefusal(store, config.minimumOptionDuration, b, vault, assetId, expiration)).value)
      ensures old(Valid()) ==> (r.Ok? <==> old(MintAllowed(store, config.minimumOptionDuration, b, vault, assetId, expiration)))
      ensures r.Ok? ==> MintedAs(store, tokens, r.value, NewOption(assetId, writer, expiration, vault, strike))
    {
      ghost var before := Snap();
      r := MintCall(store, tokens, config.minimumOptionDuration, b, writer, vault, assetId, strike, expiration);
      if r.Ok? && Untouched(before) {
        MintKeepsUntouched(before, NewOption(assetId, writer, expiration, vault, strike));
      }
    }

    /**
     * `mint_with_nft`: for the allowed collection only (compared as the raw
     * string), the caller must pass `CallerAccepted`; the check after it,
     * which accepts the owner, can then never refuse. This contract must be
     * an operator or approved, and the vault comes from the vault factory's
     * lookup. The NFT's owner becomes the writer, and the NFT is transferred
     * into the vault without an entitlement.
     */
    method MintWithNft(b: Block, sender: Addr, nftAddr: Addr, nftId: string, strike: U128, expiration: Expiration,
                       nft: CallEngine.NftView, factory: VaultFactory.Factory)
      returns (r: Result<CallEngine.Minted>)
      modifies store, tokens
      ensures old(Valid()) ==> Valid()
      ensures old(Valid()) ==> TermsKept(old(store.options), store.options)
      ensures r.Err? ==> Snap() == old(Snap())
      ensures config.allowedNft != nftAddr ==> r == Err(Std(NFT_NOT_ALLOWED))
      ensures config.allowedNft == nftAddr && !CallerAccepted(nft, sender) ==> r == Err(Std(NFT_CALLER))
      ensures config.allowedNft == nftAddr && CallerAccepted(nft, sender)
              && !(address in nft.operators || address in nft.approvals) ==>
                r == Err(Std(NFT_CONTRACT))
      ensures config.allowedNft == nftAddr && CallerAccepted(nft, sender)
              && (address in nft.operators || address in nft.approvals)
              && factory.GetMultiOrSoloVaultQuery(nftAddr, Some(nftId)).None? ==>
                r == Err(Std(NFT_NO_VAULT))
      ensures config.allowedNft == nftAddr && CallerAccepted(nft, sender)
              && (address in nft.operators || address in nft.approvals)
              && factory.GetMultiOrSoloVaultQuery(nftAddr, Some(nftId)).Some?
              && old(MintRefusal(store, config.minimumOptionDuration, b,
                                 factory.GetMultiOrSoloVaultQuery(nftAddr, Some(nftId)).value, nftId, expiration)).Some? ==>
                r == Err(old(MintRefusal(store, config.minimumOptionDuration, b,
                                         factory.GetMultiOrSoloVaultQuery(nftAddr, Some(nftId)).value, nftId, expiration)).value)
      ensures r.Ok? ==>
                var vault := factory.GetMultiOrSoloVaultQuery(nftAddr, Some(nftId));
                config.allowedNft == nftAddr && CallerAccepted(nft, sender)
                && (address in nft.operators || address in nft.approvals) && vault.Some?
                && MintedAs(store, tokens, r.value.optionId, NewOption(nftId, sender, expiration, vault.value, strike))
                && r.value.msgs == [NftTransfer(nftAddr, nftId, vault.value)]
      ensures old(Valid()) && config.allowedNft == nftAddr && CallerAccepted(nft, sender)
              && (address in nft.operators || address in nft.approvals)
              && factory.GetMultiOrSoloVaultQuery(nftAddr, Some(nftId)).Some? ==>
                (r.Ok? <==> old(MintAllowed(store, config.minimumOptionDuration, b,
                                            factory.GetMultiOrSoloVaultQuery(nftAddr, Some(nftId)).value, nftId, expiration)))
    {
      if config.allowedNft != nftAddr {
        return Err(Std(NFT_NOT_ALLOWED));
      }
      var senderIsOperator := sender in nft.operators;
      var senderIsApproved := sender in nft.approvals;
      var contractIsOperator := address in nft.operators;
      var contractIsApproved := address in nft.approvals;
      if nft.owner != sender || !senderIsOperator || !senderIsApproved {
        return Err(Std(NFT_CALLER));
      }
      if !(nft.owner == sender || contractIsApproved || contractIsOperator) {
        return Err(Std(NFT_CALLER_OR_APPROVAL));
      }
      if !(contractIsOperator || contractIsApproved) {
        return Err(Std(NFT_CONTRACT));
      }
      var found := factory.GetMultiOrSoloVaultQuery(nftAddr, Some(nftId));
      if found.None? {
        return Err(Std(NFT_NO_VAULT));
      }
      var vault := found.value;
      var minted := MintOption(b, nft.owner, vault, nftId, strike, expiration);
      if minted.Err? {
        return Err(minted.error);
      }
      r := Ok(CallEngine.Minted(minted.value, [NftTransfer(nftAddr, nftId, vault)]));
    }

    /**
     * `mint_with_vault`: the vault `v` must cover the allowed collection and
     * hold the asset (`nftOwner` is the owner the collection reports for it),
     * and the caller must be the asset's beneficial owner or approved
     * operator. The beneficial owner becomes the writer, and the vault is
     * asked to impose an entitlement for this contract until the expiration.
     */
    method MintWithVault(b: Block, sender: Addr, v: Vault.Vault, nftOwner: Addr, assetId: string, strike: U128,
                         expiration: Expiration)
      returns (r: Result<CallEngine.Minted>)
      modifies store, tokens
      ensures old(Valid()) ==> Valid()
      ensures old(Valid()) ==> TermsKept(old(store.options), store.options)
      ensures r.Err? ==> Snap() == old(Snap())
      ensures config.allowedNft != v.config.nftAddr ==> r == Err(Std(VAULT_NFT_NOT_ALLOWED))
      ensures config.allowedNft == v.config.nftAddr && nftOwner != v.address ==> r == Err(Std(VAULT_NOT_HELD))
      ensures config.allowedNft == v.config.nftAddr && nftOwner == v.address && assetId !in v.assets ==>
                r == Err(NotFound("asset"))
      ensures config.allowedNft == v.config.nftAddr && nftOwner == v.address && assetId in v.assets
              && !CallEngine.BeneficialOwnerOrOperator(v, assetId, sender).value.0 ==>
                r == Err(Std(VAULT_CALLER))
      ensures config.allowedNft == v.config.nftAddr && nftOwner == v.address && assetId in v.assets
              && CallEngine.BeneficialOwnerOrOperator(v, assetId, sender).value.0
              && v.assets[assetId].beneficialOwner.None? ==>
                r == Err(Std(VAULT_OWNER_NOT_SET))
      ensures config.allowedNft == v.config.nftAddr && nftOwner == v.address && assetId in v.assets
              && CallEngine.BeneficialOwnerOrOperator(v, assetId, sender).value.0
              && v.assets[assetId].beneficialOwner.Some?
              && old(MintRefusal(store, config.minimumOptionDuration, b, v.address, assetId, expiration)).Some? ==>
                r == Err(old(MintRefusal(store, config.minimumOptionDuration, b, v.address, assetId, expiration)).value)
      ensures r.Ok? ==>
                config.allowedNft == v.config.nftAddr && nftOwner == v.address && assetId in v.assets
                && CallEngine.BeneficialOwnerOrOperator(v, assetId, sender).value.0
                && v.assets[assetId].beneficialOwner.Some?
                && MintedAs(store, tokens, r.value.optionId,
                            NewOption(assetId, v.assets[assetId].beneficialOwner.value, expiration, v.address, strike))
                && r.value.msgs == [VaultExecute(v.address, ImposeEntitlement(assetId, address, expiration), [])]
      ensures old(Valid()) && config.allowedNft == v.config.nftAddr && nftOwner == v.address && assetId in v.assets
              && CallEngine.BeneficialOwnerOrOperator(v, assetId, sender).value.0
              && v.assets[assetId].beneficialOwner.Some? ==>
                (r.Ok? <==> old(MintAllowed(store, config.minimumOptionDuration, b, v.address, assetId, expiration)))
    {
      if config.allowedNft != v.AssetAddress() {
        return Err(Std(VAULT_NFT_NOT_ALLOWED));
      }
      if !v.HoldsAsset(nftOwner) {
        return Err(Std(VAULT_NOT_HELD));
      }
      var check := CallEngine.BeneficialOwnerOrOperator(v, assetId, sender);
      if check.Err? {
        return Err(check.error);
      }
      var (ok, writer) := check.value;
      if !ok {
        return Err(Std(VAULT_CALLER));
      }
      if writer.None? {
        return Err(Std(VAULT_OWNER_NOT_SET));
      }
      var minted := MintOption(b, writer.value, v.address, assetId, strike, expiration);
      if minted.Err? {
        return Err(minted.error);
      }
      r := Ok(CallEngine.Minted(minted.value, [VaultExecute(v.address, ImposeEntitlement(assetId, address, expiration), [])]));
    }

    /**
     * `mint_with_entitled_vault`: as `mint_with_vault`, but the asset must
     * already carry an entitlement. The operator check refuses only an
     * inactive entitlement whose operator is not this contract; the
     * entitlement's expiration, which the vault reports only while it is
     * active, must equal the requested one. No message is sent.
     */
    method MintWithEntitledVault(b: Block, sender: Addr, v: Vault.Vault, nftOwner: Addr, assetId: string, strike: U128,
                                 expiration: Expiration)
      returns (r: Result<CallEngine.Minted>)
      modifies store, tokens
      ensures old(Valid()) ==> Valid()
      ensures old(Valid()) ==> TermsKept(old(store.options), store.options)
      ensures r.Err? ==> Snap() == old(Snap())
      ensures config.allowedNft != v.config.nftAddr ==> r == Err(Std(VAULT_NFT_NOT_ALLOWED))
      ensures config.allowedNft == v.config.nftAddr && nftOwner != v.address ==> r == Err(Std(VAULT_NOT_HELD))
      ensures config.allowedNft == v.config.nftAddr && nftOwner == v.address && assetId !in v.assets ==>
                r == Err(NotFound("asset"))
      ensures config.allowedNft == v.config.nftAddr && nftOwner == v.address && assetId in v.assets
              && !Vault.EntitlementActive(v.assets[assetId], b) && v.assets[assetId].operator != Some(address) ==>
                r == Err(Std(ENTITLED_NOT_OPERATOR))
      ensures config.allowedNft == v.config.nftAddr && nftOwner == v.address && assetId in v.assets
              && (Vault.EntitlementActive(v.assets[assetId], b) || v.assets[assetId].operator == Some(address))
              && !(Vault.EntitlementActive(v.assets[assetId], b) && v.assets[assetId].expiry == Some(expiration)) ==>
                r == Err(Std(ENTITLED_EXPIRATION))
      ensures config.allowedNft == v.config.nftAddr && nftOwner == v.address && assetId in v.assets
              && Vault.EntitlementActive(v.assets[assetId], b) && v.assets[assetId].expiry == Some(expiration)
              && !CallEngine.BeneficialOwnerOrOperator(v, assetId, sender).value.0 ==>
                r == Err(Std(ENTITLED_CALLER))
      ensures config.allowedNft == v.config.nftAddr && nftOwner == v.address && assetId in v.assets
              && Vault.EntitlementActive(v.assets[assetId], b) && v.assets[assetId].expiry == Some(expiration)
              && CallEngine.BeneficialOwnerOrOperator(v, assetId, sender).value.0
              && v.assets[assetId].beneficialOwner.None? ==>
                r == Err(Std(ENTITLED_OWNER_NOT_SET))
      ensures config.allowedNft == v.config.nftAddr && nftOwner == v.address && assetId in v.assets
              && Vault.EntitlementActive(v.assets[assetId], b) && v.assets[assetId].expiry == Some(expiration)
              && CallEngine.BeneficialOwnerOrOperator(v, assetId, sender).value.0
              && v.assets[assetId].beneficialOwner.Some?
              && old(MintRefusal(store, config.minimumOptionDuration, b, v.address, assetId, expiration)).Some? ==>
                r == Err(old(MintRefusal(store, config.minimumOptionDuration, b, v.address, assetId, expiration)).value)
      ensures r.Ok? ==>
                config.allowedNft == v.config.nftAddr && nftOwner == v.address && assetId in v.assets
                && Vault.EntitlementActive(v.assets[assetId], b) && v.assets[assetId].expiry == Some(expiration)
                && CallEngine.BeneficialOwnerOrOperator(v, assetId, sender).value.0
                && v.assets[assetId].beneficialOwner.Some?
                && MintedAs(store, tokens, r.value.optionId,
                            NewOption(assetId, v.assets[assetId].beneficialOwner.value, expiration, v.address, strike))
                && r.value.msgs == []
      ensures old(Valid()) && config.allowedNft == v.config.nftAddr && nftOwner == v.address && assetId in v.assets
              && Vault.EntitlementActive(v.assets[assetId], b) && v.assets[assetId].expiry == Some(expiration)
              && CallEngine.BeneficialOwnerOrOperator(v, assetId, sender).value.0
              && v.assets[assetId].beneficialOwner.Some? ==>
                (r.Ok? <==> old(MintAllowed(store, config.minimumOptionDuration, b, v.address, assetId, expiration)))
    {
      if config.allowedNft != v.AssetAddress() {
        return Err(Std(VAULT_NFT_NOT_ALLOWED));
      }
      if !v.HoldsAsset(nftOwner) {
        return Err(Std(VAULT_NOT_HELD));
      }
      var current := v.CurrentEntitlementOperator(b, assetId);
      if current.Err? {
        return Err(current.error);
      }
      var info := current.value;
      if !info.isActive && (info.operator.None? || info.operator.value != address) {
        return Err(Std(ENTITLED_NOT_OPERATOR));
      }
      // The asset exists here, so neither query below can fail.
      var entitlementExpiration := v.EntitlementExpiration(b, assetId);
      if entitlementExpiration != Ok(Some(expiration)) {
        return Err(Std(ENTITLED_EXPIRATION));
      }
      var check := CallEngine.BeneficialOwnerOrOperator(v, assetId, sender);
      if !(check.Ok? && check.value.0) {
        return Err(Std(ENTITLED_CALLER));
      }
      var writer := check.value.1;
      if writer.None? {
        return Err(Std(ENTITLED_OWNER_NOT_SET));
      }
      var minted := MintOption(b, writer.value, v.address, assetId, strike, expiration);
      if minted.Err? {
        return Err(minted.error);
      }
      r := Ok(CallEngine.Minted(minted.value, []));
    }

    /**
     * `bid`: the checks of `BidRefusal` on the first attached coin of the
     * allowed denomination, raised by the strike when the writer bids. The
     * standing bid is refunded and the vault told that the caller is the
     * asset's beneficial owner, but the new high bid is never saved: the
     * handler writes nothing. On an untouched ledger there is no standing bid
     * to refund.
     */
    method Bid(sender: Addr, funds: seq<Coin>, id: nat) returns (r: Result<seq<CosmosMsg>>)
      ensures FindAllowedCoin(funds, config.allowedDenom).None? ==> r == Err(Std(BID_DENOM))
      ensures FindAllowedCoin(funds, config.allowedDenom).Some? && id !in store.options ==> r == Err(NotFound("call option"))
      ensures FindAllowedCoin(funds, config.allowedDenom).Some? && id in store.options ==>
                var call := store.options[id];
                var amount := CallEngine.Offered(call, FindAllowedCoin(funds, config.allowedDenom).value, sender);
                (r.Ok? <==> BidRefusal(call, amount, config.minBidIncrementBps).None?)
                && (r.Err? ==> r.error == BidRefusal(call, amount, config.minBidIncrementBps).value)
      ensures r.Ok? ==>
                var call := store.options[id];
                r.value == CallEngine.Refund(call, config.allowedDenom) + [Vault.SetBeneficialOwnerMsg(call.vault, call.assetId, sender)]
      ensures r.Ok? && Untouched(Snap()) ==>
                r.value == [Vault.SetBeneficialOwnerMsg(store.options[id].vault, store.options[id].assetId, sender)]
    {
      var coin := FindAllowedCoin(funds, config.allowedDenom);
      if coin.None? {
        return Err(Std(BID_DENOM));
      }
      var loaded := store.Load(id);
      if loaded.Err? {
        return Err(loaded.error);
      }
      var call := loaded.value;
      var amount := CallEngine.Offered(call, coin.value, sender);
      var refusal := BidRefusal(call, amount, config.minBidIncrementBps);
      if refusal.Some? {
        return Err(refusal.value);
      }
      r := Ok(CallEngine.Refund(call, config.allowedDenom) + [Vault.SetBeneficialOwnerMsg(call.vault, call.assetId, sender)]);
    }

    /**
     * The checks of `reclaim_asset` before it writes, in the source's order,
     * or `None`: the option must exist, the caller must be its writer, it
     * must be unsettled, the writer must hold its option token, and it must
     * BE expired. Funds are not refused.
     */
    function ReclaimRefusal(b: Block, sender: Addr, id: nat): (e: Option<Error>)
      reads this, store, tokens
      ensures id !in store.options ==> e == Some(NotFound("call option"))
      ensures id in store.options ==>
                var call := store.options[id];
                (call.writer != sender ==> e == Some(Unauthorized))
                && (call.writer == sender && call.settled ==> e == Some(Std(RECLAIM_SETTLED)))
                && ((call.writer == sender && !call.settled && id in tokens.owners && tokens.owners[id] == sender
                     && !IsExpired(call.expiration, b)) ==> e == Some(Std(RECLAIM_EXPIRED)))
      ensures e.None? <==> id in store.options && store.options[id].writer == sender && !store.options[id].settled
                           && tokens.OwnerOf(id) == Ok(sender) && IsExpired(store.options[id].expiration, b)
    {
      var loaded := store.Load(id);
      if loaded.Err? then Some(loaded.error)
      else
        var call := loaded.value;
        if call.writer != sender then Some(Unauthorized)
        else if call.settled then Some(Std(RECLAIM_SETTLED))
        else
          var owner := tokens.OwnerOf(id);
          if owner.Err? then Some(owner.error)
          else if call.writer != owner.value then Some(Std(RECLAIM_NOT_OWNER))
          else if !IsExpired(call.expiration, b) then Some(Std(RECLAIM_EXPIRED))
          else None
    }

    /**
     * `reclaim_asset`: the writer of an expired, unsettled option, holding
     * its option token, has the token burned. The settled flag is set on a
     * copy that is never saved, so the record stays unsettled. The high
     * bidder, if any, is refunded as in the call instrument; the beneficial
     * owner is reset to the writer and the entitlement cleared, handing the
     * asset to the writer when `withdraw` is set.
     */
    method ReclaimAsset(b: Block, sender: Addr, id: nat, withdraw: bool) returns (r: Result<seq<CosmosMsg>>)
      modifies store, tokens
      ensures old(Valid()) ==> Valid()
      ensures r.Err? ==> Snap() == old(Snap())
      ensures old(ReclaimRefusal(b, sender, id)).Some? ==> r == Err(old(ReclaimRefusal(b, sender, id)).value)
      ensures old(Valid()) ==> (r.Ok? <==> old(ReclaimRefusal(b, sender, id)).None?)
      ensures r.Ok? ==>
                id in old(store.options)
                && var call := old(store.options)[id];
                old(ReclaimRefusal(b, sender, id)).None?
                && store.options == old(store.options) && store.claims == old(store.claims)
                && store.counter == old(store.counter) && store.index == old(store.index)
                && tokens.owners == old(tokens.owners) - {id} && tokens.count == old(tokens.count) - 1
                && (call.bidder.None? ==> r.value == CallEngine.ReclaimTail(call, withdraw))
                && (call.bidder.Some? ==>
                      CallEngine.ReclaimRefund(call).Some?
                      && r.value == [BankSend(call.bidder.value, Coins(config.allowedDenom, CallEngine.ReclaimRefund(call).value))]
                                    + CallEngine.ReclaimTail(call, withdraw))
    {
      var refusal := ReclaimRefusal(b, sender, id);
      if refusal.Some? {
        return Err(refusal.value);
      }
      var call := store.options[id];
      var before := Snap();
      var burned := tokens.Burn(sender, id);
      if burned.Err? {
        return Err(burned.error);
      }
      var refund: seq<CosmosMsg> := [];
      if call.bidder.Some? {
        var returned := CallEngine.ReclaimRefund(call);
        if returned.None? {
          // The writer's own bid below the strike: the checked subtraction fails.
          Rollback(store, tokens, before);
          return Err(Overflow);
        }
        refund := [BankSend(call.bidder.value, Coins(config.allowedDenom, returned.value))];
      }
      assert Snap() == before.(owners := before.owners - {id}, count := before.count - 1);
      if Consistent(before) {
        BurnKeepsConsistent(before, id);
      }
      r := Ok(refund + CallEngine.ReclaimTail(call, withdraw));
    }

    /**
     * The checks of `settle_option` before it writes, in the source's order,
     * or `None`: the option must exist, have a high bidder, be expired and be
     * unsettled; the spread must not underflow; and its option token must
     * exist. On an untouched ledger no option has a high bidder.
     */
    function SettleRefusal(b: Block, id: nat): (e: Option<Error>)
      reads this, store, tokens
      ensures id !in store.options ==> e == Some(NotFound("call option"))
      ensures id in store.options ==>
                var call := store.options[id];
                (call.bidder.None? ==> e == Some(Std(NO_WINNER)))
                && (call.bidder.Some? && !IsExpired(call.expiration, b) ==> e == Some(Std(NOT_EXPIRED)))
                && (call.bidder.Some? && IsExpired(call.expiration, b) && call.settled ==> e == Some(Std(ALREADY_SETTLED)))
      ensures e.None? <==> id in store.options && store.options[id].bidder.Some?
                           && IsExpired(store.options[id].expiration, b) && !store.options[id].settled
                           && store.options[id].strike <= store.options[id].bid && id in tokens.owners
      ensures Untouched(Snap()) && id in store.options ==> e == Some(Std(NO_WINNER))
    {
      var loaded := store.Load(id);
      if loaded.Err? then Some(loaded.error)
      else
        var call := loaded.value;
        if call.bidder.None? then Some(Std(NO_WINNER))
        else if !IsExpired(call.expiration, b) then Some(Std(NOT_EXPIRED))
        else if call.settled then Some(Std(ALREADY_SETTLED))
        else if call.bid < call.strike then Some(Overflow)
        else
          var owner := tokens.OwnerOf(id);
          if owner.Err? then Some(owner.error) else None
    }

    /**
     * `settle_option`: after the checks of `SettleRefusal`, the writer is
     * paid the strike unless it is the high bidder; a caller holding the
     * option token is paid the spread and the token is burned, otherwise the
     * spread is stored as a claim. The settled flag is never saved. On an
     * untouched ledger settlement is always refused.
     */
    method SettleOption(b: Block, sender: Addr, id: nat) returns (r: Result<CallEngine.Settlement>)
      modifies store, tokens
      ensures old(Valid()) ==> Valid()
      ensures r.Err? ==> Snap() == old(Snap())
      ensures old(SettleRefusal(b, id)).Some? ==> r == Err(old(SettleRefusal(b, id)).value)
      ensures old(Valid()) ==> r == Err(if id in old(store.options) then Std(NO_WINNER) else NotFound("call option"))
      ensures r.Ok? ==>
                old(SettleRefusal(b, id)).None?
                && var call := old(store.options)[id];
                var holder := old(tokens.owners)[id];
                var writerPay := if call.bidder.value != call.writer
                                 then [BankSend(call.writer, Coins(config.allowedDenom, call.strike))] else [];
                store.options == old(store.options)
                && store.counter == old(store.counter) && store.index == old(store.index)
                && (sender == holder ==>
                      !r.value.claimable
                      && r.value.msgs == writerPay + [BankSend(holder, Coins(config.allowedDenom, call.bid - call.strike))]
                      && tokens.owners == old(tokens.owners) - {id} && tokens.count == old(tokens.count) - 1 && store.claims == old(store.claims))
                && (sender != holder ==>
                      r.value.claimable && r.value.msgs == writerPay
                      && store.claims == old(store.claims)[id := call.bid - call.strike]
                      && tokens.owners == old(tokens.owners) && tokens.count == old(tokens.count))
    {
      var refusal := SettleRefusal(b, id);
      if refusal.Some? {
        return Err(refusal.value);
      }
      var call := store.options[id];
      var spread: U128 := call.bid - call.strike;
      var holder := tokens.owners[id];
      var msgs: seq<CosmosMsg> := [];
      if call.bidder.value != call.writer {
        msgs := [BankSend(call.writer, Coins(config.allowedDenom, call.strike))];
      }
      if sender == holder {
        var burned := tokens.Burn(sender, id);
        if burned.Err? {
          return Err(burned.error);
        }
        r := Ok(CallEngine.Settlement(msgs + [BankSend(holder, Coins(config.allowedDenom, spread))], false));
      } else {
        store.SaveClaim(id, spread);
        r := Ok(CallEngine.Settlement(msgs, true));
      }
    }

    /**
     * The checks of `burn_expired_option`, in the source's order, or `None`:
     * the option must exist, have no bids, be expired and be unsettled.
     */
    function BurnRefusal(b: Block, id: nat): (e: Option<Error>)
      reads this, store
      ensures id !in store.options ==> e == Some(NotFound("call option"))
      ensures id in store.options ==>
                var call := store.options[id];
                (call.bidder.Some? ==> e == Some(Std(HAS_BIDS)))
                && (call.bidder.None? && !IsExpired(call.expiration, b) ==> e == Some(Std(NOT_EXPIRED)))
                && (call.bidder.None? && IsExpired(call.expiration, b) && call.settled ==> e == Some(Std(BURN_SETTLED)))
      ensures e.None? <==> id in store.options && store.options[id].bidder.None?
                           && IsExpired(store.options[id].expiration, b) && !store.options[id].settled
    {
      var loaded := store.Load(id);
      if loaded.Err? then Some(loaded.error)
      else
        var call := loaded.value;
        if call.bidder.Some? then Some(Std(HAS_BIDS))
        else if !IsExpired(call.expiration, b) then Some(Std(NOT_EXPIRED))
        else if call.settled then Some(Std(BURN_SETTLED))
        else None
    }

    /**
     * `burn_expired_option`: an expired, unsettled option without bids has
     * its record rewritten unchanged and its token burned. The burn runs with
     * the caller's own authority, so although the handler is documented as
     * open to anyone, only the token's holder gets past it.
     */
    method BurnExpiredOption(b: Block, sender: Addr, id: nat) returns (r: Result<()>)
      modifies store, tokens
      ensures old(Valid()) ==> Valid()
      ensures r.Err? ==> Snap() == old(Snap())
      ensures old(BurnRefusal(b, id)).Some? ==> r == Err(old(BurnRefusal(b, id)).value)
      ensures old(BurnRefusal(b, id)).None? && id !in old(tokens.owners) ==> r == Err(NotFound("token"))
      ensures old(BurnRefusal(b, id)).None? && id in old(tokens.owners) && old(tokens.owners)[id] != sender ==>
                r == Err(NotOwner)
      ensures old(Valid()) ==> (r.Ok? <==> old(BurnRefusal(b, id)).None? && old(tokens.OwnerOf(id)) == Ok(sender))
      ensures r.Ok? ==>
                old(BurnRefusal(b, id)).None? && id in old(tokens.owners) && old(tokens.owners)[id] == sender
                && store.options == old(store.options) && store.claims == old(store.claims)
                && store.counter == old(store.counter) && store.index == old(store.index)
                && tokens.owners == old(tokens.owners) - {id} && tokens.count == old(tokens.count) - 1
    {
      var refusal := BurnRefusal(b, id);
      if refusal.Some? {
        return Err(refusal.value);
      }
      var call := store.options[id];
      var before := Snap();
      var updated := store.Update(id, call);
      assert updated.Ok? && Snap() == before;
      var burned := tokens.Burn(sender, id);
      if burned.Err? {
        return Err(burned.error);
      }
      assert Snap() == before.(owners := before.owners - {id}, count := before.count - 1);
      if Consistent(before) {
        BurnKeepsConsistent(before, id);
      }
      r := Ok(());
    }

    /**
     * The checks of `claim_option_proceeds` before it writes, in the
     * source's order, or `None`: the caller must hold the option token, and
     * a claim must be stored for the option. On an untouched ledger there is
     * no claim.
     */
    function ClaimRefusal(sender: Addr, id: nat): (e: Option<Error>)
      reads this, store, tokens
      ensures id !in tokens.owners ==> e == Some(NotFound("token"))
      ensures id in tokens.owners && tokens.owners[id] != sender ==> e == Some(Std(OWNER_ONLY))
      ensures e.None? <==> tokens.OwnerOf(id) == Ok(sender) && id in store.claims
      ensures Untouched(Snap()) && tokens.OwnerOf(id) == Ok(sender) ==> e == Some(NotFound("option claim"))
    {
      var owner := tokens.OwnerOf(id);
      if owner.Err? then Some(owner.error)
      else if sender != owner.value then Some(Std(OWNER_ONLY))
      else
        var claim := store.LoadClaim(id);
        if claim.Err? then Some(claim.error) else None
    }

    /**
     * `claim_option_proceeds`: the option token's holder collects a stored,
     * non-zero claim; the claim is removed and the token burned. A zero
     * claim is refused after its removal, which the refusal discards. On an
     * untouched ledger every claim is refused.
     */
    method ClaimOptionProceeds(sender: Addr, id: nat) returns (r: Result<seq<CosmosMsg>>)
      modifies store, tokens
      ensures old(Valid()) ==> Valid()
      ensures r.Err? ==> Snap() == old(Snap())
      ensures old(ClaimRefusal(sender, id)).Some? ==> r == Err(old(ClaimRefusal(sender, id)).value)
      ensures old(ClaimRefusal(sender, id)).None? && old(store.claims)[id] == 0 ==> r == Err(Std(CLAIM_ZERO))
      ensures old(Valid()) ==> r.Err?
      ensures r.Ok? ==>
                old(ClaimRefusal(sender, id)).None? && old(store.claims)[id] > 0
                && store.claims == old(store.claims) - {id} && tokens.owners == old(tokens.owners) - {id} && tokens.count == old(tokens.count) - 1
                && store.options == old(store.options) && store.counter == old(store.counter) && store.index == old(store.index)
                && r.value == [BankSend(sender, Coins(config.allowedDenom, old(store.claims)[id]))]
    {
      var refusal := ClaimRefusal(sender, id);
      if refusal.Some? {
        return Err(refusal.value);
      }
      var claim := store.claims[id];
      var before := Snap();
      store.RemoveClaim(id);
      if claim == 0 {
        Rollback(store, tokens, before);
        return Err(Std(CLAIM_ZERO));
      }
      var burned := tokens.Burn(sender, id);
      if burned.Err? {
        Rollback(store, tokens, before);
        return Err(burned.error);
      }
      r := Ok([BankSend(sender, Coins(config.allowedDenom, claim))]);
    }
  }

  /**
   * An accepted bid leaves no trace in the ledger: settling the option
   * afterwards is still refused for want of a winning bidder.
   */
  method BidThenSettle(inst: Instrument, b: Block, bidder: Addr, funds: seq<Coin>, settler: Addr, id: nat)
    returns (bid: Result<seq<CosmosMsg>>, settled: Result<CallEngine.Settlement>)
    modifies inst.store, inst.tokens
    ensures old(inst.Valid()) && id in old(inst.store.options) ==> settled == Err(Std(NO_WINNER))
    ensures old(inst.Valid()) ==> inst.Valid() && inst.Snap() == old(inst.Snap())
  {
    bid := inst.Bid(bidder, funds, id);
    settled := inst.SettleOption(b, settler, id);
  }
}
