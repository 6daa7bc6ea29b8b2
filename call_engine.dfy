/**
 * The call instrument: covered call options written on NFTs held in vaults.
 * Minting records an option and creates the option token for its writer;
 * during the settlement auction bidders escrow funds, the high bidder
 * becoming the asset's beneficial owner; after expiry the option settles,
 * paying the strike to the writer and the spread to the option holder, who
 * collects it at once or later as a claim. The writer may instead reclaim
 * the asset while holding the option token.
 *
 * Handlers run as one transaction each. Where the source writes to storage
 * and a later step can still fail, the model performs the writes in the same
 * order and, on that failure, restores the state it started from: an
 * aborted transaction keeps none of its writes. Outgoing messages are
 * returned, never applied.
 */
module CallEngine {
  import opened Common
  import opened Denom
  import opened Msgs
  import opened OptionStore
  import opened Tokens
  import opened Ledger
  import Vault
  import VaultFactory

  const NFT_NOT_ALLOWED := "mint_with_nft - nft not allowed"
  const NFT_CALLER := "mint_with_nft - caller not owner or operator"
  const NFT_CONTRACT := "mint_with_nft - call option contract not operator or has approval"
  const NFT_NO_VAULT := "mint_with_nft - appropriate vault not found"
  const VAULT_NFT_NOT_ALLOWED := "mint_with_vault - nft not allowes"
  const VAULT_NOT_HELD := "mint_with_vault - asset not in vault"
  const VAULT_CALLER := "mint_with_vault - called by someone other than the beneficial owner or operator"
  const OWNER_NOT_SET := "mint_with_entitled_vault - beneficial owner not set"
  const ENTITLED_NOT_OPERATOR := "mint_with_entitled_vault - call contract not operator"
  const ENTITLED_EXPIRATION := "mint_with_entitled_vault - entitlement expiration different"
  const ENTITLED_CALLER := "mint_with_entitled_vault - only owner or operator may mint"
  const BID_TOO_SMALL := "bid - bid amount too small"
  const BID_INCREMENT := "bid - must overbid by minBidIncrementBips"
  const RECLAIM_NOT_OWNER := "reclaim_asset - writer must own option"
  const HAS_BIDS := "option has bids"
  const CLAIM_ZERO := "claim is zero"

  /** Basis points in a whole. */
  const BPS: nat := 10_000

  /** The instrument's settings, as its instantiate message gives them. */
  datatype Config = Config(
    protocol: Addr,
    allowedNft: Addr,
    vaultFactory: Addr,
    minimumOptionDuration: nat,
    allowedDenom: string,
    minBidIncrementBps: U128)

  /**
   * What the underlying collection reports for one NFT: its owner, the
   * owner's operators and the token's approved spenders.
   */
  datatype NftView = NftView(owner: Addr, operators: seq<Addr>, approvals: seq<Addr>)

  /** A successful mint: the new option id and the messages to dispatch. */
  datatype Minted = Minted(optionId: nat, msgs: seq<CosmosMsg>)

  /** A successful settlement: the messages, and whether the spread was stored as a claim. */
  datatype Settlement = Settlement(msgs: seq<CosmosMsg>, claimable: bool)

  /** Replacing a bid by one that covers the strike keeps the state consistent. */
  lemma BidKeepsConsistent(s: Snapshot, id: nat, amount: U128, bidder: Addr)
    requires Consistent(s) && id in s.options && s.options[id].strike <= amount
    ensures Consistent(s.(options := s.options[id := s.options[id].(bid := amount, bidder := Some(bidder))]))
  {
  }

  /** The contents after option `id` is settled and its token burned. */
  function SettledAndBurned(s: Snapshot, id: nat): Snapshot
    requires id in s.options && s.count > 0
  {
    s.(options := s.options[id := s.options[id].(settled := true)], owners := s.owners - {id}, count := s.count - 1)
  }

  /** Settling an unsettled option and burning its token keeps the state consistent. */
  lemma {:induction false} SettleAndBurnKeepsConsistent(s: Snapshot, id: nat)
    requires Consistent(s) && id in s.options && id in s.owners && !s.options[id].settled && s.count > 0
    ensures Consistent(SettledAndBurned(s, id))
  {
    assert Counted(SettledAndBurned(s, id)) by {
      assert |s.owners - {id}| == |s.owners| - 1;
    }
    SettleAndBurnKeepsIndex(s, id);
    SettleAndBurnKeepsClaims(s, id);
  }

  /** Settling a stored option and burning its token keeps ids, index entries and standing bids as they were. */
  lemma SettleAndBurnKeepsIndex(s: Snapshot, id: nat)
    requires IdsCounted(s) && IndexSound(s) && BidsCover(s) && id in s.options && s.count > 0
    ensures IdsCounted(SettledAndBurned(s, id)) && IndexSound(SettledAndBurned(s, id)) && BidsCover(SettledAndBurned(s, id))
  {
  }

  /** Settling an unsettled option and burning its token leaves claims and tokens matched. */
  lemma SettleAndBurnKeepsClaims(s: Snapshot, id: nat)
    requires TokensStored(s) && ClaimsMatch(s) && id in s.options && id in s.owners && !s.options[id].settled
    requires s.count > 0
    ensures TokensStored(SettledAndBurned(s, id)) && ClaimsMatch(SettledAndBurned(s, id))
  {
  }

  /** Settling an unsettled option whose token stays and storing its claim keeps the state consistent. */
  lemma SettleForClaimKeepsConsistent(s: Snapshot, id: nat, amount: U128)
    requires Consistent(s) && id in s.options && id in s.owners && !s.options[id].settled
    ensures Consistent(s.(options := s.options[id := s.options[id].(settled := true)],
                          claims := s.claims[id := amount]))
  {
  }

  /** Collecting a claim, which removes it and burns the token, keeps the state consistent. */
  lemma {:induction false} CollectKeepsConsistent(s: Snapshot, id: nat)
    requires Consistent(s) && id in s.claims && id in s.owners
    ensures Consistent(s.(claims := s.claims - {id}, owners := s.owners - {id}, count := s.count - 1))
  {
    assert |s.owners - {id}| == |s.owners| - 1;
  }

  /** What `execute` answers a mint with: the mint's messages, or its error. */
  function MintResponse(r: Result<Minted>): Result<seq<CosmosMsg>>
  {
    if r.Ok? then Ok(r.value.msgs) else Err(r.error)
  }

  /** What `execute` answers a settlement with: its messages, or its error. */
  function SettleResponse(r: Result<Settlement>): Result<seq<CosmosMsg>>
  {
    if r.Ok? then Ok(r.value.msgs) else Err(r.error)
  }

  /** What `execute` answers a burn with: no messages, or its error. */
  function BurnResponse(r: Result<()>): Result<seq<CosmosMsg>>
  {
    if r.Ok? then Ok([]) else Err(r.error)
  }

  /**
   * `is_beneficial_owner_or_operator`: whether `sender` is the asset's
   * beneficial owner or the vault's approved operator for it, together with
   * the beneficial owner. The beneficial-owner query fails for an asset the
   * vault has no record of.
   */
  function BeneficialOwnerOrOperator(v: Vault.Vault, assetId: string, sender: Addr): (r: Result<(bool, Option<Addr>)>)
    reads v
    ensures r.Ok? <==> assetId in v.assets
    ensures r.Ok? ==> r.value.1 == v.assets[assetId].beneficialOwner
    ensures r.Ok? ==> (r.value.0 <==> v.assets[assetId].beneficialOwner == Some(sender)
                                      || (assetId in v.approvals && v.approvals[assetId] == sender))
  {
    var owner := v.BeneficialOwnerQuery(assetId);
    if owner.Err? then Err(owner.error)
    else if owner.value.Some? && owner.value.value == sender then Ok((true, owner.value))
    else
      var operator := v.ApprovedOperator(assetId);
      if operator.Some? && operator.value == sender then Ok((true, owner.value))
      else Ok((false, owner.value))
  }

  /** The amount a bid offers: the attached coin, plus the strike when the writer bids. */
  function Offered(call: CallOption, coin: Coin, sender: Addr): (amount: nat)
    ensures sender == call.writer ==> amount == coin.amount + call.strike
    ensures sender != call.writer ==> amount == coin.amount
  {
    if sender == call.writer then coin.amount + call.strike else coin.amount
  }

  /** The required raise over the standing bid: `bps` basis points of it, rounded down. */
  function Increment(bid: nat, bps: nat): (inc: nat)
    ensures inc * BPS <= bid * bps < (inc + 1) * BPS
  {
    bid * bps / BPS
  }

  /**
   * The first check of `bid` that refuses `amount` for `call`, in the
   * source's order, or `None` when the bid is accepted: the writer's
   * unchecked `+=`, the multiple-of-10000 guard, the unchecked `u128`
   * product, the checked sum, the minimum raise, the strike, and the
   * checked subtraction whose result is discarded.
   */
  function BidRefusal(call: CallOption, amount: nat, bps: nat): (e: Option<Error>)
    ensures e.None? <==> amount <= MAX_U128 && call.bid % BPS == 0 && call.bid * bps <= MAX_U128
                         && call.bid + Increment(call.bid, bps) <= amount && call.strike <= amount
                         && !(call.bidder == Some(call.writer) && call.bid < call.strike)
  {
    if amount > MAX_U128 then Some(Panic(ADD_OVERFLOW))
    else if call.bid / BPS * BPS != call.bid then Some(Std(BID_TOO_SMALL))
    else if call.bid * bps > MAX_U128 then Some(Panic(MUL_OVERFLOW))
    else if call.bid + Increment(call.bid, bps) > MAX_U128 then Some(Overflow)
    else if amount < call.bid + Increment(call.bid, bps) then Some(Std(BID_INCREMENT))
    else if amount < call.strike then Some(BidIsLowerStrikePrice)
    else if call.bidder.Some? && call.bidder.value == call.writer && call.bid < call.strike then Some(Overflow)
    else None
  }

  /** An accepted bid never lowers the standing bid. */
  lemma AcceptedBidNeverLowers(call: CallOption, amount: nat, bps: nat)
    requires BidRefusal(call, amount, bps).None?
    ensures call.bid <= amount && call.strike <= amount
  {
  }

  /**
   * With a positive increment rate, an accepted bid over a standing non-zero
   * bid is strictly larger: the standing bid is a multiple of 10000, so the
   * required raise is at least one.
   */
  lemma {:induction false} AcceptedBidRaises(call: CallOption, amount: nat, bps: nat)
    requires BidRefusal(call, amount, bps).None? && bps > 0 && call.bid > 0
    ensures amount > call.bid
  {
    assert call.bid >= BPS;
    assert call.bid * bps >= BPS * 1 by {
      MulMonotone(call.bid, bps, BPS, 1);
    }
    assert Increment(call.bid, bps) >= 1;
  }

  /** `a * b` grows with both factors. */
  lemma {:induction false} MulMonotone(a: nat, b: nat, c: nat, d: nat)
    requires c <= a && d <= b
    ensures c * d <= a * b
  {
    assert c * d <= a * d;
    assert a * d <= a * b;
  }

  /**
   * The minimum raise is exact: when the other checks pass, the standing
   * bid plus the increment is accepted, and one unit less is refused for
   * being too small a raise.
   */
  lemma ExactMinimumAccepted(call: CallOption, bps: nat)
    requires call.bid % BPS == 0 && call.bid * bps <= MAX_U128 && call.bid + Increment(call.bid, bps) <= MAX_U128
    requires call.strike <= call.bid + Increment(call.bid, bps)
    requires !(call.bidder == Some(call.writer) && call.bid < call.strike)
    ensures BidRefusal(call, call.bid + Increment(call.bid, bps), bps).None?
    ensures call.bid + Increment(call.bid, bps) > 0 ==>
              BidRefusal(call, call.bid + Increment(call.bid, bps) - 1, bps) == Some(Std(BID_INCREMENT))
  {
  }

  /** On an option without bids, a bid is accepted exactly when it covers the strike and fits a `u128`. */
  lemma FirstBidCoversStrike(call: CallOption, amount: nat, bps: nat)
    requires call.bid == 0 && call.bidder.None?
    ensures BidRefusal(call, amount, bps).None? <==> call.strike <= amount <= MAX_U128
  {
  }

  /** The refund of the standing bid: its full amount to the previous bidder, when there is one and it is not zero. */
  function Refund(call: CallOption, denom: string): (msgs: seq<CosmosMsg>)
    ensures call.bidder.Some? && call.bid > 0 ==> msgs == [BankSend(call.bidder.value, Coins(denom, call.bid))]
    ensures !(call.bidder.Some? && call.bid > 0) ==> msgs == []
  {
    if call.bidder.Some? && call.bid > 0 then [BankSend(call.bidder.value, Coins(denom, call.bid))] else []
  }

  /**
   * What reclaiming returns to the high bidder: the bid less the strike
   * when the writer is the bidder, else the whole bid; `None` when that
   * subtraction underflows.
   */
  function ReclaimRefund(call: CallOption): (amount: Option<U128>)
    requires call.bidder.Some?
    ensures call.bidder.value != call.writer ==> amount == Some(call.bid)
    ensures call.bidder.value == call.writer && call.bid >= call.strike ==> amount == Some(call.bid - call.strike)
    ensures call.bidder.value == call.writer && call.bid < call.strike ==> amount == None
  {
    if call.bidder.value != call.writer then Some(call.bid)
    else if call.bid >= call.strike then Some(call.bid - call.strike)
    else None
  }

  /**
   * The messages every successful reclaim ends with: the beneficial owner
   * reset to the writer, then the entitlement cleared, with the asset sent
   * to the writer when `withdraw` is set.
   */
  function ReclaimTail(call: CallOption, withdraw: bool): (msgs: seq<CosmosMsg>)
    ensures |msgs| == 2 && msgs[0] == Vault.SetBeneficialOwnerMsg(call.vault, call.assetId, call.writer)
    ensures withdraw ==> msgs[1] == Vault.ClearEntitlementAndDistributeMsg(call.vault, call.assetId, call.writer)
    ensures !withdraw ==> msgs[1] == Vault.ClearEntitlementMsg(call.vault, call.assetId)
  {
    [Vault.SetBeneficialOwnerMsg(call.vault, call.assetId, call.writer),
     if withdraw then Vault.ClearEntitlementAndDistributeMsg(call.vault, call.assetId, call.writer)
     else Vault.ClearEntitlementMsg(call.vault, call.assetId)]
  }

  class Instrument {
    /** The instrument's own contract address. */
    const address: Addr
    const config: Config
    /** The minter of the option tokens. */
    const minter: Addr
    const store: Store
    const tokens: Registry

    /** The instrument's state is `Consistent`. */
    ghost predicate Valid()
      reads this, store, tokens
    {
      Consistent(Snap())
    }

    /** The contents of the option store and the option tokens. */
    function Snap(): Snapshot
      reads this, store, tokens
    {
      SnapOf(store, tokens)
    }

    /** `instantiate`: stores the config; the contract itself mints the option tokens. */
    constructor (address: Addr, config: Config)
      ensures this.address == address && this.config == config && minter == address
      ensures fresh(store) && fresh(tokens)
      ensures store.counter == None && store.options == map[] && store.claims == map[] && store.index == map[]
      ensures tokens.owners == map[] && tokens.count == 0
      ensures Valid()
    {
      this.address := address;
      this.config := config;
      minter := address;
      store := new Store();
      tokens := new Registry();
    }

    /**
     * What every handler keeps: the invariant, the terms of every option,
     * and, when it refuses, the whole state.
     */
    twostate predicate Atomic<T>(new r: Result<T>)
      reads this, store, tokens
    {
      (old(Valid()) ==> Valid() && TermsKept(old(store.options), store.options))
      && (r.Err? ==> Snap() == old(Snap()))
    }

    /**
     * The shared `mint_call` step of a mint whose own checks passed: its
     * refusal is the mint's error; under the invariant the mint succeeds
     * exactly when it is allowed; and a successful mint records `record`
     * under the counter plus one and answers with `msgs`.
     */
    twostate predicate MintStep(b: Block, record: CallOption, msgs: seq<CosmosMsg>, new r: Result<seq<CosmosMsg>>)
      reads this, store, tokens
    {
      var allowed := old(MintAllowed(store, config.minimumOptionDuration, b, record.vault, record.assetId, record.expiration));
      var refusal := old(MintRefusal(store, config.minimumOptionDuration, b, record.vault, record.assetId, record.expiration));
      (refusal.Some? ==> r == Err(refusal.value))
      && (old(Valid()) ==> (r.Ok? <==> allowed))
      && (r.Ok? ==> allowed && MintedAs(store, tokens, old(store.Count()) + 1, record) && r.value == msgs)
    }

    /**
     * The outcome of `mint_with_nft`, each refusal in the source's order:
     * the allowed collection; the caller is the NFT's owner, an operator of
     * the owner or approved for the token; this contract is an operator or
     * approved; the vault factory knows a vault for the NFT; then the mint
     * step, with the NFT's owner as writer, answered by sending the NFT into
     * the vault with an entitlement naming the caller as beneficial owner and
     * this contract as operator until the expiration.
     */
    twostate predicate MintWithNftOutcome(b: Block, sender: Addr, nftAddr: Addr, nftId: string, strike: U128,
                                          expiration: Expiration, nft: NftView, factory: VaultFactory.Factory,
                                          new r: Result<seq<CosmosMsg>>)
      reads this, store, tokens, factory
    {
      var callerOk := nft.owner == sender || sender in nft.operators || sender in nft.approvals;
      var contractOk := address in nft.operators || address in nft.approvals;
      var vault := factory.GetMultiOrSoloVaultQuery(nftAddr, Some(nftId));
      Atomic(r)
      && (config.allowedNft != nftAddr ==> r == Err(Std(NFT_NOT_ALLOWED)))
      && (config.allowedNft == nftAddr && !callerOk ==> r == Err(Std(NFT_CALLER)))
      && (config.allowedNft == nftAddr && callerOk && !contractOk ==> r == Err(Std(NFT_CONTRACT)))
      && (config.allowedNft == nftAddr && callerOk && contractOk && vault.None? ==> r == Err(Std(NFT_NO_VAULT)))
      && (config.allowedNft == nftAddr && callerOk && contractOk && vault.Some? ==>
            MintStep(b, NewOption(nftId, nft.owner, expiration, vault.value, strike),
                     [NftSend(nftAddr, nftId, vault.value, Some(SetEntitlement(sender, address, None, expiration)))], r))
    }

    /** `mint_with_nft`, with the outcome `MintWithNftOutcome` describes. */
    method MintWithNft(b: Block, sender: Addr, nftAddr: Addr, nftId: string, strike: U128, expiration: Expiration,
                       nft: NftView, factory: VaultFactory.Factory)
      returns (r: Result<Minted>)
      modifies store, tokens
      ensures MintWithNftOutcome(b, sender, nftAddr, nftId, strike, expiration, nft, factory, MintResponse(r))
      ensures r.Ok? ==> r.value.optionId == old(store.Count()) + 1
    {
      if config.allowedNft != nftAddr {
        return Err(Std(NFT_NOT_ALLOWED));
      }
      var senderIsOperator := sender in nft.operators;
      var senderIsApproved := sender in nft.approvals;
      var contractIsOperator := address in nft.operators;
      var contractIsApproved := address in nft.approvals;
      if !(nft.owner == sender || senderIsOperator || senderIsApproved) {
        return Err(Std(NFT_CALLER));
      }
      if !(contractIsOperator || contractIsApproved) {
        return Err(Std(NFT_CONTRACT));
      }
      var found := factory.GetMultiOrSoloVaultQuery(nftAddr, Some(nftId));
      if found.None? {
        return Err(Std(NFT_NO_VAULT));
      }
      var vault := found.value;
      var minted := MintCall(store, tokens, config.minimumOptionDuration, b, nft.owner, vault, nftId, strike, expiration);
      if minted.Err? {
        return Err(minted.error);
      }
      var entitlement := SetEntitlement(sender, address, None, expiration);
      r := Ok(Minted(minted.value, [NftSend(nftAddr, nftId, vault, Some(entitlement))]));
    }

    /**
     * The outcome of `mint_with_vault`, each refusal in the source's order:
     * the vault `v` covers the allowed collection; it holds the asset
     * (`nftOwner` is the owner the collection reports for it); the vault has
     * a record of the asset; the caller is its beneficial owner or approved
     * operator; a beneficial owner is set; then the mint step, with the
     * beneficial owner as writer, answered by asking the vault to impose an
     * entitlement for this contract until the expiration.
     */
    twostate predicate MintWithVaultOutcome(b: Block, sender: Addr, v: Vault.Vault, nftOwner: Addr, assetId: string,
                                            strike: U128, expiration: Expiration, new r: Result<seq<CosmosMsg>>)
      reads this, store, tokens, v
    {
      var held := config.allowedNft == v.config.nftAddr && nftOwner == v.address;
      Atomic(r)
      && (config.allowedNft != v.config.nftAddr ==> r == Err(Std(VAULT_NFT_NOT_ALLOWED)))
      && (config.allowedNft == v.config.nftAddr && nftOwner != v.address ==> r == Err(Std(VAULT_NOT_HELD)))
      && (held && assetId !in v.assets ==> r == Err(NotFound("asset")))
      && (held && assetId in v.assets ==>
            var callerOk := BeneficialOwnerOrOperator(v, assetId, sender).value.0;
            var owner := v.assets[assetId].beneficialOwner;
            (!callerOk ==> r == Err(Std(VAULT_CALLER)))
            && (callerOk && owner.None? ==> r == Err(Std(OWNER_NOT_SET)))
            && (callerOk && owner.Some? ==>
                  MintStep(b, NewOption(assetId, owner.value, expiration, v.address, strike),
                           [VaultExecute(v.address, ImposeEntitlement(assetId, address, expiration), [])], r)))
    }

    /** `mint_with_vault`, with the outcome `MintWithVaultOutcome` describes. */
    method MintWithVault(b: Block, sender: Addr, v: Vault.Vault, nftOwner: Addr, assetId: string, strike: U128,
                         expiration: Expiration)
      returns (r: Result<Minted>)
      modifies store, tokens
      ensures MintWithVaultOutcome(b, sender, v, nftOwner, assetId, strike, expiration, MintResponse(r))
      ensures r.Ok? ==> r.value.optionId == old(store.Count()) + 1
    {
      if config.allowedNft != v.AssetAddress() {
        return Err(Std(VAULT_NFT_NOT_ALLOWED));
      }
      if !v.HoldsAsset(nftOwner) {
        return Err(Std(VAULT_NOT_HELD));
      }
      var check := BeneficialOwnerOrOperator(v, assetId, sender);
      if check.Err? {
        return Err(check.error);
      }
      var (ok, beneficialOwner) := check.value;
      if !ok {
        return Err(Std(VAULT_CALLER));
      }
      if beneficialOwner.None? {
        return Err(Std(OWNER_NOT_SET));
      }
      var minted := MintCall(store, tokens, config.minimumOptionDuration, b, beneficialOwner.value, v.address, assetId, strike, expiration);
      if minted.Err? {
        return Err(minted.error);
      }
      r := Ok(Minted(minted.value, [VaultExecute(v.address, ImposeEntitlement(assetId, address, expiration), [])]));
    }

    /**
     * The outcome of `mint_with_entitled_vault`: as `mint_with_vault` up to
     * the vault's record of the asset, which must already carry an
     * entitlement. The operator check refuses only an inactive entitlement
     * whose operator is not this contract, so any active entitlement passes
     * it; the entitlement's expiration, which the vault reports only while it
     * is active, must equal the requested one; then come the caller check,
     * the beneficial owner, and the mint step, answered with no message.
     */
    twostate predicate MintWithEntitledVaultOutcome(b: Block, sender: Addr, v: Vault.Vault, nftOwner: Addr,
                                                    assetId: string, strike: U128, expiration: Expiration,
                                                    new r: Result<seq<CosmosMsg>>)
      reads this, store, tokens, v
    {
      var held := config.allowedNft == v.config.nftAddr && nftOwner == v.address;
      Atomic(r)
      && (config.allowedNft != v.config.nftAddr ==> r == Err(Std(VAULT_NFT_NOT_ALLOWED)))
      && (config.allowedNft == v.config.nftAddr && nftOwner != v.address ==> r == Err(Std(VAULT_NOT_HELD)))
      && (held && assetId !in v.assets ==> r == Err(NotFound("asset")))
      && (held && assetId in v.assets ==>
            var a := v.assets[assetId];
            var operatorOk := Vault.EntitlementActive(a, b) || a.operator == Some(address);
            var expiryOk := Vault.EntitlementActive(a, b) && a.expiry == Some(expiration);
            var callerOk := BeneficialOwnerOrOperator(v, assetId, sender).value.0;
            (!operatorOk ==> r == Err(Std(ENTITLED_NOT_OPERATOR)))
            && (operatorOk && !expiryOk ==> r == Err(Std(ENTITLED_EXPIRATION)))
            && (expiryOk && !callerOk ==> r == Err(Std(ENTITLED_CALLER)))
            && (expiryOk && callerOk && a.beneficialOwner.None? ==> r == Err(Std(OWNER_NOT_SET)))
            && (expiryOk && callerOk && a.beneficialOwner.Some? ==>
                  MintStep(b, NewOption(assetId, a.beneficialOwner.value, expiration, v.address, strike), [], r)))
    }

    /** `mint_with_entitled_vault`, with the outcome `MintWithEntitledVaultOutcome` describes. */
    method MintWithEntitledVault(b: Block, sender: Addr, v: Vault.Vault, nftOwner: Addr, assetId: string, strike: U128,
                                 expiration: Expiration)
      returns (r: Result<Minted>)
      modifies store, tokens
      ensures MintWithEntitledVaultOutcome(b, sender, v, nftOwner, assetId, strike, expiration, MintResponse(r))
      ensures r.Ok? ==> r.value.optionId == old(store.Count()) + 1
    {
      if config.allowedNft != v.AssetAddress() {
        return Err(Std(VAULT_NFT_NOT_ALLOWED));
      }
      if !v.HoldsAsset(nftOwner) {
        return Err(Std(VAULT_NOT_HELD));
      }
      var current := v.CurrentEntitlementOperator(b, assetId);
      if current.Err? {
        return Err(current.error);
      }
      var info := current.value;
      if !info.isActive && (info.operator.None? || info.operator.value != address) {
        return Err(Std(ENTITLED_NOT_OPERATOR));
      }
      // The asset exists here, so neither query below can fail.
      var entitlementExpiration := v.EntitlementExpiration(b, assetId);
      if entitlementExpiration != Ok(Some(expiration)) {
        return Err(Std(ENTITLED_EXPIRATION));
      }
      var check := BeneficialOwnerOrOperator(v, assetId, sender);
      if !(check.Ok? && check.value.0) {
        return Err(Std(ENTITLED_CALLER));
      }
      var writer := check.value.1;
      if writer.None? {
        return Err(Std(OWNER_NOT_SET));
      }
      var minted := MintCall(store, tokens, config.minimumOptionDuration, b, writer.value, v.address, assetId, strike, expiration);
      if minted.Err? {
        return Err(minted.error);
      }
      r := Ok(Minted(minted.value, []));
    }

    /**
     * The outcome of `bid`: the bid is the first attached coin of the
     * allowed denomination, raised by the strike when the writer bids, and
     * the option must exist and pass the checks of `BidRefusal`. The standing
     * bid is refunded, the caller becomes the high bidder with the offered
     * amount, and the vault is told that the caller is the asset's
     * beneficial owner. Only that record changes. Neither settlement nor
     * expiry is checked.
     */
    twostate predicate BidOutcome(sender: Addr, funds: seq<Coin>, id: nat, new r: Result<seq<CosmosMsg>>)
      reads this, store, tokens
    {
      var coin := FindAllowedCoin(funds, config.allowedDenom);
      Atomic(r)
      && (coin.None? ==> r == Err(DenomNotAllowed))
      && (coin.Some? && id !in old(store.options) ==> r == Err(NotFound("call option")))
      && (coin.Some? && id in old(store.options) ==>
            var call := old(store.options)[id];
            var amount := Offered(call, coin.value, sender);
            var refusal := BidRefusal(call, amount, config.minBidIncrementBps);
            (refusal.Some? ==> r == Err(refusal.value))
            && (refusal.None? ==>
                  r == Ok(Refund(call, config.allowedDenom) + [Vault.SetBeneficialOwnerMsg(call.vault, call.assetId, sender)])
                  && store.options == old(store.options)[id := call.(bid := amount, bidder := Some(sender))]
                  && store.counter == old(store.counter) && store.claims == old(store.claims)
                  && store.index == old(store.index)
                  && tokens.owners == old(tokens.owners) && tokens.count == old(tokens.count)))
    }

    /** `bid`, with the outcome `BidOutcome` describes. */
    method Bid(sender: Addr, funds: seq<Coin>, id: nat) returns (r: Result<seq<CosmosMsg>>)
      modifies store
      ensures BidOutcome(sender, funds, id, r)
    {
      var coin := FindAllowedCoin(funds, config.allowedDenom);
      if coin.None? {
        return Err(DenomNotAllowed);
      }
      var loaded := store.Load(id);
      if loaded.Err? {
        return Err(loaded.error);
      }
      var call := loaded.value;
      var amount := Offered(call, coin.value, sender);
      var refusal := BidRefusal(call, amount, config.minBidIncrementBps);
      if refusal.Some? {
        return Err(refusal.value);
      }
      ghost var before := Snap();
      store.Save(id, call.(bid := amount, bidder := Some(sender)));
      assert Snap() == before.(options := before.options[id := before.options[id].(bid := amount, bidder := Some(sender))]);
      if Consistent(before) {
        BidKeepsConsistent(before, id, amount, sender);
      }
      r := Ok(Refund(call, config.allowedDenom) + [Vault.SetBeneficialOwnerMsg(call.vault, call.assetId, sender)]);
    }

    /**
     * The checks of `reclaim_asset` before it writes, in the source's order,
     * or `None`: no funds may be attached; the option must exist, the caller
     * must be its writer, and it must be unsettled and NOT yet expired; the
     * writer must hold its option token.
     */
    function ReclaimRefusal(b: Block, sender: Addr, funds: seq<Coin>, id: nat): (e: Option<Error>)
      reads this, store, tokens
      ensures |funds| > 0 ==> e == Some(NonPayable)
      ensures |funds| == 0 && id !in store.options ==> e == Some(NotFound("call option"))
      ensures |funds| == 0 && id in store.options ==>
                var call := store.options[id];
                (call.writer != sender ==> e == Some(Unauthorized))
                && (call.writer == sender && call.settled ==> e == Some(OptionAlreadySettled(id)))
                && (call.writer == sender && !call.settled && IsExpired(call.expiration, b) ==> e == Some(OptionIsExpired))
      ensures e.None? <==> |funds| == 0 && id in store.options && store.options[id].writer == sender
                           && !store.options[id].settled && !IsExpired(store.options[id].expiration, b)
                           && tokens.OwnerOf(id) == Ok(sender)
    {
      if |funds| > 0 then Some(NonPayable)
      else
        var loaded := store.Load(id);
        if loaded.Err? then Some(loaded.error)
        else
          var call := loaded.value;
          if call.writer != sender then Some(Unauthorized)
          else if call.settled then Some(OptionAlreadySettled(id))
          else if IsExpired(call.expiration, b) then Some(OptionIsExpired)
          else
            var owner := tokens.OwnerOf(id);
            if owner.Err? then Some(owner.error)
            else if call.writer != owner.value then Some(Std(RECLAIM_NOT_OWNER))
            else None
    }

    /**
     * The outcome of `reclaim_asset`: after the checks of `ReclaimRefusal`,
     * the writer's option is settled and its token burned. The high bidder,
     * if any, is refunded (less the strike when it is the writer, the whole
     * bid otherwise, even when zero); the beneficial owner is reset to the
     * writer, and the entitlement is cleared, handing the asset to the writer
     * when `withdraw` is set.
     */
    twostate predicate ReclaimOutcome(b: Block, sender: Addr, funds: seq<Coin>, id: nat, withdraw: bool,
                                      new r: Result<seq<CosmosMsg>>)
      reads this, store, tokens
    {
      var refusal := old(ReclaimRefusal(b, sender, funds, id));
      Atomic(r)
      && (refusal.Some? ==> r == Err(refusal.value))
      && (old(Valid()) ==> (r.Ok? <==> refusal.None?))
      && (r.Ok? ==>
            refusal.None? && id in old(store.options)
            && var call := old(store.options)[id];
            store.options == old(store.options)[id := call.(settled := true)]
            && tokens.owners == old(tokens.owners) - {id} && tokens.count == old(tokens.count) - 1
            && store.counter == old(store.counter) && store.claims == old(store.claims) && store.index == old(store.index)
            && (call.bidder.None? ==> r.value == ReclaimTail(call, withdraw))
            && (call.bidder.Some? ==>
                  ReclaimRefund(call).Some?
                  && r.value == [BankSend(call.bidder.value, Coins(config.allowedDenom, ReclaimRefund(call).value))]
                                + ReclaimTail(call, withdraw)))
    }

    /** `reclaim_asset`, with the outcome `ReclaimOutcome` describes. */
    method ReclaimAsset(b: Block, sender: Addr, funds: seq<Coin>, id: nat, withdraw: bool)
      returns (r: Result<seq<CosmosMsg>>)
      modifies store, tokens
      ensures ReclaimOutcome(b, sender, funds, id, withdraw, r)
    {
      var refusal := ReclaimRefusal(b, sender, funds, id);
      if refusal.Some? {
        return Err(refusal.value);
      }
      var call := store.options[id];
      var before := Snap();
      store.Save(id, call.(settled := true));
      var burned := tokens.Burn(sender, id);
      if burned.Err? {
        Rollback(store, tokens, before);
        return Err(burned.error);
      }
      var refund: seq<CosmosMsg> := [];
      if call.bidder.Some? {
        var returned := ReclaimRefund(call);
        if returned.None? {
          // The writer's own bid below the strike: the checked subtraction fails.
          Rollback(store, tokens, before);
          return Err(Overflow);
        }
        refund := [BankSend(call.bidder.value, Coins(config.allowedDenom, returned.value))];
      }
      assert Snap() == SettledAndBurned(before, id);
      if Consistent(before) {
        SettleAndBurnKeepsConsistent(before, id);
      }
      r := Ok(refund + ReclaimTail(call, withdraw));
    }

    /**
     * The checks of `settle_option` before it writes, in the source's order,
     * or `None`: the option must exist, have a high bidder, be expired and be
     * unsettled; the spread (bid less strike) must not underflow; and its
     * option token must exist.
     */
    function SettleRefusal(b: Block, id: nat): (e: Option<Error>)
      reads this, store, tokens
      ensures id !in store.options ==> e == Some(NotFound("call option"))
      ensures id in store.options ==>
                var call := store.options[id];
                (call.bidder.None? ==> e == Some(NoWinningBidder))
                && (call.bidder.Some? && !IsExpired(call.expiration, b) ==> e == Some(OptionNotExpired(id)))
                && (call.bidder.Some? && IsExpired(call.expiration, b) && call.settled ==> e == Some(OptionAlreadySettled(id)))
      ensures e.None? <==> id in store.options && store.options[id].bidder.Some?
                           && IsExpired(store.options[id].expiration, b) && !store.options[id].settled
                           && store.options[id].strike <= store.options[id].bid && id in tokens.owners
    {
      var loaded := store.Load(id);
      if loaded.Err? then Some(loaded.error)
      else
        var call := loaded.value;
        if call.bidder.None? then Some(NoWinningBidder)
        else if !IsExpired(call.expiration, b) then Some(OptionNotExpired(id))
        else if call.settled then Some(OptionAlreadySettled(id))
        else if call.bid < call.strike then Some(Overflow)
        else
          var owner := tokens.OwnerOf(id);
          if owner.Err? then Some(owner.error) else None
    }

    /**
     * The outcome of `settle_option`: anyone may settle an option that passes
     * `SettleRefusal`. It is marked settled, so it settles at most once. The
     * writer receives the strike unless it is the high bidder; a caller
     * holding the option token receives the spread and the token is burned,
     * otherwise the spread is stored as the token holder's claim.
     */
    twostate predicate SettleOutcome(b: Block, sender: Addr, id: nat, new r: Result<seq<CosmosMsg>>)
      reads this, store, tokens
    {
      var refusal := old(SettleRefusal(b, id));
      Atomic(r)
      && (refusal.Some? ==> r == Err(refusal.value))
      && (old(Valid()) ==> (r.Ok? <==> refusal.None?))
      && (r.Ok? ==>
            refusal.None?
            && var call := old(store.options)[id];
            var holder := old(tokens.owners)[id];
            var writerPay := if call.bidder.value != call.writer
                             then [BankSend(call.writer, Coins(config.allowedDenom, call.strike))] else [];
            store.options == old(store.options)[id := call.(settled := true)]
            && store.counter == old(store.counter) && store.index == old(store.index)
            && (sender == holder ==>
                  r.value == writerPay + [BankSend(holder, Coins(config.allowedDenom, call.bid - call.strike))]
                  && tokens.owners == old(tokens.owners) - {id} && tokens.count == old(tokens.count) - 1 && store.claims == old(store.claims))
            && (sender != holder ==>
                  r.value == writerPay
                  && store.claims == old(store.claims)[id := call.bid - call.strike]
                  && tokens.owners == old(tokens.owners) && tokens.count == old(tokens.count)))
    }

    /** `settle_option`, with the outcome `SettleOutcome` describes; `claimable` tells whether a claim was stored. */
    method SettleOption(b: Block, sender: Addr, id: nat) returns (r: Result<Settlement>)
      modifies store, tokens
      ensures SettleOutcome(b, sender, id, SettleResponse(r))
      ensures r.Ok? ==> (r.value.claimable <==> sender != old(tokens.owners)[id])
    {
      var refusal := SettleRefusal(b, id);
      if refusal.Some? {
        return Err(refusal.value);
      }
      var call := store.options[id];
      var spread: U128 := call.bid - call.strike;
      var holder := tokens.owners[id];
      var before := Snap();
      store.Save(id, call.(settled := true));
      UpdateKeepsTerms(before.options, id, call.(settled := true));
      var msgs: seq<CosmosMsg> := [];
      if call.bidder.value != call.writer {
        msgs := [BankSend(call.writer, Coins(config.allowedDenom, call.strike))];
      }
      if sender == holder {
        var burned := tokens.Burn(sender, id);
        if burned.Err? {
          Rollback(store, tokens, before);
          return Err(burned.error);
        }
        assert Snap() == SettledAndBurned(before, id);
        if Consistent(before) {
          SettleAndBurnKeepsConsistent(before, id);
        }
        r := Ok(Settlement(msgs + [BankSend(holder, Coins(config.allowedDenom, spread))], false));
      } else {
        store.SaveClaim(id, spread);
        assert Snap() == before.(options := before.options[id := before.options[id].(settled := true)],
                                 claims := before.claims[id := spread]);
        if Consistent(before) {
          SettleForClaimKeepsConsistent(before, id, spread);
        }
        r := Ok(Settlement(msgs, true));
      }
    }

    /**
     * The checks of `burn_expired_option` before it burns, in the source's
     * order, or `None`: the option must exist, have no bids, be expired and
     * be unsettled.
     */
    function BurnRefusal(b: Block, id: nat): (e: Option<Error>)
      reads this, store
      ensures id !in store.options ==> e == Some(NotFound("call option"))
      ensures id in store.options ==>
                var call := store.options[id];
                (call.bidder.Some? ==> e == Some(Std(HAS_BIDS)))
                && (call.bidder.None? && !IsExpired(call.expiration, b) ==> e == Some(OptionNotExpired(id)))
      ensures e.None? <==> id in store.options && store.options[id].bidder.None?
                           && IsExpired(store.options[id].expiration, b) && !store.options[id].settled
    {
      var loaded := store.Load(id);
      if loaded.Err? then Some(loaded.error)
      else
        var call := loaded.value;
        if call.bidder.Some? then Some(Std(HAS_BIDS))
        else if !IsExpired(call.expiration, b) then Some(OptionNotExpired(id))
        else if call.settled then Some(OptionAlreadySettled(id))
        else None
    }

    /**
     * The outcome of `burn_expired_option`: after the checks of
     * `BurnRefusal` the record is rewritten unchanged and the token burned.
     * The burn runs with the caller's credentials, so although the handler
     * is documented as open to anyone, only the token's holder gets past it.
     */
    twostate predicate BurnOutcome(b: Block, sender: Addr, id: nat, new r: Result<seq<CosmosMsg>>)
      reads this, store, tokens
    {
      var refusal := old(BurnRefusal(b, id));
      Atomic(r)
      && (refusal.Some? ==> r == Err(refusal.value))
      && (refusal.None? && id !in old(tokens.owners) ==> r == Err(NotFound("token")))
      && (refusal.None? && id in old(tokens.owners) && old(tokens.owners)[id] != sender ==> r == Err(NotOwner))
      && (old(Valid()) ==> (r.Ok? <==> refusal.None? && old(tokens.OwnerOf(id)) == Ok(sender)))
      && (r.Ok? ==>
            refusal.None? && old(tokens.OwnerOf(id)) == Ok(sender) && r.value == []
            && store.options == old(store.options) && store.claims == old(store.claims)
            && store.counter == old(store.counter) && store.index == old(store.index)
            && tokens.owners == old(tokens.owners) - {id} && tokens.count == old(tokens.count) - 1)
    }

    /** `burn_expired_option`, with the outcome `BurnOutcome` describes. */
    method BurnExpiredOption(b: Block, sender: Addr, id: nat) returns (r: Result<()>)
      modifies store, tokens
      ensures BurnOutcome(b, sender, id, BurnResponse(r))
    {
      var refusal := BurnRefusal(b, id);
      if refusal.Some? {
        return Err(refusal.value);
      }
      var call := store.options[id];
      var before := Snap();
      var updated := store.Update(id, call);
      assert updated.Ok? && Snap() == before;
      var burned := tokens.Burn(sender, id);
      if burned.Err? {
        Rollback(store, tokens, before);
        return Err(burned.error);
      }
      assert Snap() == before.(owners := before.owners - {id}, count := before.count - 1);
      if Consistent(before) {
        BurnKeepsConsistent(before, id);
      }
      r := Ok(());
    }

    /**
     * The checks of `claim_option_proceeds` before it writes, in the
     * source's order, or `None`: the caller must hold the option token, and
     * a claim must be stored for the option.
     */
    function ClaimRefusal(sender: Addr, id: nat): (e: Option<Error>)
      reads this, store, tokens
      ensures id !in tokens.owners ==> e == Some(NotFound("token"))
      ensures id in tokens.owners && tokens.owners[id] != sender ==> e == Some(OnlyOptionOwner(sender))
      ensures e.None? <==> tokens.OwnerOf(id) == Ok(sender) && id in store.claims
    {
      var owner := tokens.OwnerOf(id);
      if owner.Err? then Some(owner.error)
      else if sender != owner.value then Some(OnlyOptionOwner(sender))
      else
        var claim := store.LoadClaim(id);
        if claim.Err? then Some(claim.error) else None
    }

    /**
     * The outcome of `claim_option_proceeds`: the option token's holder
     * collects a stored, non-zero claim; the claim is removed and the token
     * burned, so it can be collected once. A zero claim is refused after its
     * removal, which the refusal discards.
     */
    twostate predicate ClaimOutcome(sender: Addr, id: nat, new r: Result<seq<CosmosMsg>>)
      reads this, store, tokens
    {
      var refusal := old(ClaimRefusal(sender, id));
      Atomic(r)
      && (refusal.Some? ==> r == Err(refusal.value))
      && (refusal.None? && old(store.claims)[id] == 0 ==> r == Err(Std(CLAIM_ZERO)))
      && (old(Valid()) ==> (r.Ok? <==> refusal.None? && old(store.claims)[id] > 0))
      && (r.Ok? ==>
            refusal.None? && old(store.claims)[id] > 0
            && store.claims == old(store.claims) - {id} && tokens.owners == old(tokens.owners) - {id} && tokens.count == old(tokens.count) - 1
            && store.options == old(store.options) && store.counter == old(store.counter) && store.index == old(store.index)
            && r.value == [BankSend(sender, Coins(config.allowedDenom, old(store.claims)[id]))])
    }

    /** `claim_option_proceeds`, with the outcome `ClaimOutcome` describes. */
    method ClaimOptionProceeds(sender: Addr, id: nat) returns (r: Result<seq<CosmosMsg>>)
      modifies store, tokens
      ensures ClaimOutcome(sender, id, r)
    {
      var refusal := ClaimRefusal(sender, id);
      if refusal.Some? {
        return Err(refusal.value);
      }
      var claim := store.claims[id];
      var before := Snap();
      store.RemoveClaim(id);
      if claim == 0 {
        Rollback(store, tokens, before);
        return Err(Std(CLAIM_ZERO));
      }
      var burned := tokens.Burn(sender, id);
      if burned.Err? {
        Rollback(store, tokens, before);
        return Err(burned.error);
      }
      assert Snap() == before.(claims := before.claims - {id}, owners := before.owners - {id}, count := before.count - 1);
      if Consistent(before) {
        CollectKeepsConsistent(before, id);
      }
      r := Ok([BankSend(sender, Coins(config.allowedDenom, claim))]);
    }

    /** `current_bid`. */
    function CurrentBid(id: nat): (r: Result<U128>)
      reads this, store
      ensures r.Ok? <==> id in store.options
      ensures r.Ok? ==> r.value == store.options[id].bid
    {
      var call := store.Load(id);
      if call.Err? then Err(call.error) else Ok(call.value.bid)
    }

    /** `current_bidder`. */
    function CurrentBidder(id: nat): (r: Result<Option<Addr>>)
      reads this, store
      ensures r.Ok? <==> id in store.options
      ensures r.Ok? ==> r.value == store.options[id].bidder
    {
      var call := store.Load(id);
      if call.Err? then Err(call.error) else Ok(call.value.bidder)
    }

    /** `get_vault_address`. */
    function GetVaultAddress(id: nat): (r: Result<Addr>)
      reads this, store
      ensures r.Ok? <==> id in store.options
      ensures r.Ok? ==> r.value == store.options[id].vault
    {
      var call := store.Load(id);
      if call.Err? then Err(call.error) else Ok(call.value.vault)
    }

    /** `get_option_id_for_asset`: the latest option minted on the asset. */
    function GetOptionIdForAsset(vault: Addr, assetId: string): (r: Result<nat>)
      reads this, store
      ensures r.Ok? <==> (vault, assetId) in store.index
      ensures r.Ok? ==> r.value == store.index[(vault, assetId)]
      ensures r.Err? ==> r.error == NotFound("option id")
    {
      if (vault, assetId) in store.index then Ok(store.index[(vault, assetId)]) else Err(NotFound("option id"))
    }

    /** `get_asset_id`. */
    function GetAssetId(id: nat): (r: Result<string>)
      reads this, store
      ensures r.Ok? <==> id in store.options
      ensures r.Ok? ==> r.value == store.options[id].assetId
    {
      var call := store.Load(id);
      if call.Err? then Err(call.error) else Ok(call.value.assetId)
    }

    /** `get_strike_price`. */
    function GetStrikePrice(id: nat): (r: Result<U128>)
      reads this, store
      ensures r.Ok? <==> id in store.options
      ensures r.Ok? ==> r.value == store.options[id].strike
    {
      var call := store.Load(id);
      if call.Err? then Err(call.error) else Ok(call.value.strike)
    }

    /** `get_expiration`. */
    function GetExpiration(id: nat): (r: Result<Expiration>)
      reads this, store
      ensures r.Ok? <==> id in store.options
      ensures r.Ok? ==> r.value == store.options[id].expiration
    {
      var call := store.Load(id);
      if call.Err? then Err(call.error) else Ok(call.value.expiration)
    }
  }

  /**
   * A mint is visible to every query: the asset's index points at the new
   * option, which carries the requested terms, no bid and no bidder, and
   * whose token belongs to the writer.
   */
  method MintThenQuery(inst: Instrument, b: Block, writer: Addr, vault: Addr, assetId: string, strike: U128,
                       expiration: Expiration)
    returns (r: Result<nat>)
    modifies inst.store, inst.tokens
    ensures r.Ok? ==>
              inst.GetOptionIdForAsset(vault, assetId) == Ok(r.value)
              && inst.GetAssetId(r.value) == Ok(assetId) && inst.GetVaultAddress(r.value) == Ok(vault)
              && inst.GetStrikePrice(r.value) == Ok(strike) && inst.GetExpiration(r.value) == Ok(expiration)
              && inst.CurrentBid(r.value) == Ok(0) && inst.CurrentBidder(r.value) == Ok(None)
              && inst.tokens.OwnerOf(r.value) == Ok(writer)
  {
    r := MintCall(inst.store, inst.tokens, inst.config.minimumOptionDuration, b, writer, vault, assetId, strike, expiration);
  }

  /** An option settles at most once: settling it again is refused as already settled. */
  method SettleOnlyOnce(inst: Instrument, b: Block, sender: Addr, id: nat)
    returns (first: Result<Settlement>, second: Result<Settlement>)
    modifies inst.store, inst.tokens
    ensures first.Ok? ==> second == Err(OptionAlreadySettled(id))
  {
    first := inst.SettleOption(b, sender, id);
    second := inst.SettleOption(b, sender, id);
  }

  /** Proceeds are collected at most once: the token is gone after the first collection. */
  method ClaimOnlyOnce(inst: Instrument, sender: Addr, id: nat)
    returns (first: Result<seq<CosmosMsg>>, second: Result<seq<CosmosMsg>>)
    modifies inst.store, inst.tokens
    ensures first.Ok? ==> second == Err(NotFound("token"))
  {
    first := inst.ClaimOptionProceeds(sender, id);
    second := inst.ClaimOptionProceeds(sender, id);
  }

  /**
   * A settlement by someone other than the token holder leaves the holder
   * a claim of exactly the spread, which the holder can then collect.
   */
  method SettleThenClaim(inst: Instrument, b: Block, settler: Addr, id: nat)
    returns (settled: Result<Settlement>, claimed: Result<seq<CosmosMsg>>)
    modifies inst.store, inst.tokens
    ensures old(inst.Valid()) && settled.Ok? && id in old(inst.store.options) && id in old(inst.tokens.owners)
            && settler != old(inst.tokens.owners)[id]
            && old(inst.store.options)[id].bid > old(inst.store.options)[id].strike ==>
              var call := old(inst.store.options)[id];
              claimed == Ok([BankSend(old(inst.tokens.owners)[id], Coins(inst.config.allowedDenom, call.bid - call.strike))])
  {
    settled := inst.SettleOption(b, settler, id);
    if settled.Err? || id !in inst.tokens.owners {
      return settled, Err(NotFound("token"));
    }
    claimed := inst.ClaimOptionProceeds(inst.tokens.owners[id], id);
  }
}
