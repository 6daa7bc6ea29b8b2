/**
 * The vault: it holds NFTs and records, per asset, a beneficial owner and at
 * most one entitlement (an operator and an expiry). While an entitlement is
 * active only its operator may move the beneficial ownership, and the asset
 * cannot be withdrawn.
 */
module Vault {
  import opened Common
  import opened Msgs

  // Messages of the vault's generic errors.
  const NO_ACTIVE_ENTITLEMENT := "an active entitlement must exist"
  const CLEAR_NOT_ENTITLED := "clear_entitlement - only the entitled address can clear the entitlement"
  const DISTRIBUTE_NOT_OWNER := "clear_entitlement_and_distribute - only the beneficial owner can receive the asset"
  const GRANT_NOT_OWNER_OR_APPROVED := "grant_entitlement - only the beneficial owner or approved operator can grant an entitlement"
  const IMPOSE_OWNER_NOT_SET := "impose_entitlement - beneficial owner must be set to impose an entitlement"
  const EXPIRY_NOT_IN_FUTURE := "register_entitlement - entitlement must expire in the future"
  const SET_OWNER_NOT_OPERATOR := "set_beneficial_owner - only the contract with the active entitlement can update the beneficial owner"
  const SET_OWNER_NOT_OWNER := "set_beneficial_owner - only the current owner can update the beneficial owner"

  /** The record kept per asset id. */
  datatype Asset = Asset(
    beneficialOwner: Option<Addr>,
    operator: Option<Addr>,
    expiry: Option<Expiration>)

  /** The collection the vault covers; `nftId` is `None` for a multi vault. */
  datatype Config = Config(nftAddr: Addr, nftId: Option<string>, protocol: Addr)

  /** An entitlement is active when it has an unexpired expiry and an operator. */
  predicate EntitlementActive(a: Asset, b: Block)
  {
    a.expiry.Some? && !IsExpired(a.expiry.value, b) && a.operator.Some?
  }

  /** `Option::or`: the preferred value when present, else the fallback. */
  function Or<T>(preferred: Option<T>, fallback: Option<T>): Option<T>
  {
    if preferred.Some? then preferred else fallback
  }

  /**
   * The field-wise update `update_or_create_asset` applies to an existing
   * record: a field given in `update` replaces the stored one, a `None`
   * keeps it.
   */
  function Merge(current: Asset, update: Asset): (m: Asset)
    ensures m.beneficialOwner == (if update.beneficialOwner.Some? then update.beneficialOwner else current.beneficialOwner)
    ensures m.operator == (if update.operator.Some? then update.operator else current.operator)
    ensures m.expiry == (if update.expiry.Some? then update.expiry else current.expiry)
  {
    Asset(Or(update.beneficialOwner, current.beneficialOwner),
          Or(update.operator, current.operator),
          Or(update.expiry, current.expiry))
  }

  /** The asset map after `update_or_create_asset(id, update)`. */
  function Upserted(assets: map<string, Asset>, id: string, update: Asset): (r: map<string, Asset>)
    ensures id in r
    ensures id !in assets ==> r[id] == update
    ensures id in assets ==> r[id] == Merge(assets[id], update)
    ensures forall k :: k != id ==> (k in r <==> k in assets)
    ensures forall k :: k != id && k in assets ==> r[k] == assets[k]
  {
    if id in assets then assets[id := Merge(assets[id], update)] else assets[id := update]
  }

  /** The merge never turns a present field into `None`. */
  lemma MergeNeverClears(current: Asset, update: Asset)
    ensures current.beneficialOwner.Some? ==> Merge(current, update).beneficialOwner.Some?
    ensures current.operator.Some? ==> Merge(current, update).operator.Some?
    ensures current.expiry.Some? ==> Merge(current, update).expiry.Some?
  {
  }

  /** Applying the same update twice is the same as applying it once. */
  lemma MergeIdempotent(current: Asset, update: Asset)
    ensures Merge(Merge(current, update), update) == Merge(current, update)
  {
  }

  /** Upserting the same update twice equals upserting it once. */
  lemma UpsertIdempotent(assets: map<string, Asset>, id: string, update: Asset)
    ensures Upserted(Upserted(assets, id, update), id, update) == Upserted(assets, id, update)
  {
    MergeIdempotent(if id in assets then assets[id] else update, update);
    if id !in assets {
      assert Merge(update, update) == update;
    }
  }

  /** `set_beneficial_owner_wasm_msg`: a fund-less execute message to the vault. */
  function SetBeneficialOwnerMsg(vault: Addr, assetId: string, newOwner: Addr): (m: CosmosMsg)
    ensures m.VaultExecute? && m.contract == vault && m.funds == []
    ensures m.msg == SetBeneficialOwner(assetId, newOwner)
  {
    VaultExecute(vault, SetBeneficialOwner(assetId, newOwner), [])
  }

  /** `clear_entitlement_wasm_msg`: a fund-less execute message to the vault. */
  function ClearEntitlementMsg(vault: Addr, assetId: string): (m: CosmosMsg)
    ensures m.VaultExecute? && m.contract == vault && m.funds == []
    ensures m.msg == ClearEntitlement(assetId)
  {
    VaultExecute(vault, ClearEntitlement(assetId), [])
  }

  /** `clear_entitlement_and_distribute_wasm_msg`: a fund-less execute message to the vault. */
  function ClearEntitlementAndDistributeMsg(vault: Addr, assetId: string, receiver: Addr): (m: CosmosMsg)
    ensures m.VaultExecute? && m.contract == vault && m.funds == []
    ensures m.msg == ClearEntitlementAndDistribute(assetId, receiver)
  {
    VaultExecute(vault, ClearEntitlementAndDistribute(assetId, receiver), [])
  }

  /** The reply to the current-entitlement-operator query. */
  datatype OperatorInfo = OperatorInfo(isActive: bool, operator: Option<Addr>)

  class Vault {
    /** The vault's own contract address. */
    const address: Addr
    const config: Config
    /** `ASSETS`. */
    var assets: map<string, Asset>
    /** `APPROVALS`: no handler of the vault writes it. */
    var approvals: map<string, Addr>

    /**
     * Every stored asset has a beneficial owner, and it has an operator
     * exactly when it has an expiry.
     */
    ghost predicate Valid()
      reads this
    {
      forall id :: id in assets ==>
        assets[id].beneficialOwner.Some? && (assets[id].operator.Some? <==> assets[id].expiry.Some?)
    }

    constructor (address: Addr, config: Config)
      ensures this.address == address && this.config == config
      ensures assets == map[] && approvals == map[] && Valid()
    {
      this.address := address;
      this.config := config;
      assets := map[];
      approvals := map[];
    }

    /** `update_or_create_asset`. */
    method UpdateOrCreateAsset(id: string, update: Asset)
      modifies this`assets
      ensures assets == Upserted(old(assets), id, update)
    {
      if id in assets {
        var current := assets[id];
        var merged := current.(beneficialOwner := Or(update.beneficialOwner, current.beneficialOwner));
        merged := merged.(operator := Or(update.operator, current.operator));
        merged := merged.(expiry := Or(update.expiry, current.expiry));
        assets := assets[id := merged];
      } else {
        assets := assets[id := update];
      }
    }

    /**
     * `register_entitlement`: refuses while the previous record (when one is
     * given) is active, requires the new expiry to be set and in the future,
     * then upserts the new record.
     */
    method RegisterEntitlement(b: Block, id: string, prev: Option<Asset>, update: Asset) returns (r: Result<()>)
      modifies this`assets
      ensures prev.Some? && EntitlementActive(prev.value, b) ==> r == Err(HasActiveEntitlement)
      ensures !(prev.Some? && EntitlementActive(prev.value, b)) && update.expiry.None? ==>
                r == Err(Panic(UNWRAP_NONE))
      ensures !(prev.Some? && EntitlementActive(prev.value, b)) && update.expiry.Some? && IsExpired(update.expiry.value, b) ==>
                r == Err(Std(EXPIRY_NOT_IN_FUTURE))
      ensures r.Ok? <==> !(prev.Some? && EntitlementActive(prev.value, b))
                         && update.expiry.Some? && !IsExpired(update.expiry.value, b)
      ensures r.Err? ==> unchanged(this)
      ensures r.Ok? ==> assets == Upserted(old(assets), id, update)
      ensures r.Ok? && update.operator.Some? ==> EntitlementActive(assets[id], b)
    {
      if prev.Some? && EntitlementActive(prev.value, b) {
        return Err(HasActiveEntitlement);
      }
      if update.expiry.None? {
        return Err(Panic(UNWRAP_NONE));
      }
      if IsExpired(update.expiry.value, b) {
        return Err(Std(EXPIRY_NOT_IN_FUTURE));
      }
      UpdateOrCreateAsset(id, update);
      r := Ok(());
    }

    /**
     * `impose_entitlement`: any caller may impose an entitlement for
     * `operator` until `expiry` on an asset that has a beneficial owner and no
     * active entitlement.
     */
    method ImposeEntitlement(b: Block, sender: Addr, id: string, operator: Addr, expiry: Expiration) returns (r: Result<()>)
      modifies this`assets
      ensures old(Valid()) ==> Valid()
      ensures r.Err? ==> unchanged(this)
      ensures id !in old(assets) ==> r == Err(AssetNotFound(id))
      ensures id in old(assets) && old(assets)[id].beneficialOwner.None? ==>
                r == Err(Std(IMPOSE_OWNER_NOT_SET))
      ensures id in old(assets) && old(assets)[id].beneficialOwner.Some? && EntitlementActive(old(assets)[id], b) ==>
                r == Err(HasActiveEntitlement)
      ensures id in old(assets) && old(assets)[id].beneficialOwner.Some? && !EntitlementActive(old(assets)[id], b)
              && IsExpired(expiry, b) ==>
                r == Err(Std(EXPIRY_NOT_IN_FUTURE))
      ensures r.Ok? <==> id in old(assets) && old(assets)[id].beneficialOwner.Some?
                         && !EntitlementActive(old(assets)[id], b) && !IsExpired(expiry, b)
      ensures r.Ok? ==> assets == old(assets)[id := Asset(old(assets)[id].beneficialOwner, Some(operator), Some(expiry))]
      ensures r.Ok? ==> EntitlementActive(assets[id], b)
    {
      if id !in assets {
        return Err(AssetNotFound(id));
      }
      var asset := assets[id];
      if asset.beneficialOwner.None? {
        return Err(Std(IMPOSE_OWNER_NOT_SET));
      }
      r := RegisterEntitlement(b, id, Some(asset), Asset(asset.beneficialOwner, Some(operator), Some(expiry)));
    }

    /**
     * `grant_entitlement`: the beneficial owner, or the address approved for
     * the asset, registers a new beneficial owner and an entitlement.
     */
    method GrantEntitlement(b: Block, sender: Addr, id: string, newOwner: Addr, operator: Addr, expiry: Expiration)
      returns (r: Result<()>)
      modifies this`assets
      ensures old(Valid()) ==> Valid()
      ensures r.Err? ==> unchanged(this)
      ensures id !in old(assets) ==> r == Err(AssetNotFound(id))
      ensures id in old(assets) && old(assets)[id].beneficialOwner != Some(sender)
              && !(id in approvals && approvals[id] == sender) ==>
                r == Err(Std(GRANT_NOT_OWNER_OR_APPROVED))
      ensures id in old(assets)
              && (old(assets)[id].beneficialOwner == Some(sender) || (id in approvals && approvals[id] == sender))
              && EntitlementActive(old(assets)[id], b) ==>
                r == Err(HasActiveEntitlement)
      ensures id in old(assets)
              && (old(assets)[id].beneficialOwner == Some(sender) || (id in approvals && approvals[id] == sender))
              && !EntitlementActive(old(assets)[id], b) && IsExpired(expiry, b) ==>
                r == Err(Std(EXPIRY_NOT_IN_FUTURE))
      ensures r.Ok? <==> id in old(assets)
                         && (old(assets)[id].beneficialOwner == Some(sender) || (id in approvals && approvals[id] == sender))
                         && !EntitlementActive(old(assets)[id], b) && !IsExpired(expiry, b)
      ensures r.Ok? ==> assets == old(assets)[id := Asset(Some(newOwner), Some(operator), Some(expiry))]
    {
      if id !in assets {
        return Err(AssetNotFound(id));
      }
      var asset := assets[id];
      if asset.beneficialOwner != Some(sender) {
        var approval := if id in approvals then Some(approvals[id]) else None;
        if approval != Some(sender) {
          return Err(Std(GRANT_NOT_OWNER_OR_APPROVED));
        }
      }
      r := RegisterEntitlement(b, id, Some(asset), Asset(Some(newOwner), Some(operator), Some(expiry)));
    }

    /**
     * `withdrawal_asset`: the beneficial owner takes an asset without an
     * active entitlement out of the vault; its record is removed.
     */
    method WithdrawalAsset(b: Block, sender: Addr, id: string) returns (r: Result<seq<CosmosMsg>>)
      modifies this`assets
      ensures old(Valid()) ==> Valid()
      ensures r.Err? ==> unchanged(this)
      ensures id !in old(assets) ==> r == Err(AssetNotFound(id))
      ensures id in old(assets) && old(assets)[id].beneficialOwner != Some(sender) ==> r == Err(Unauthorized)
      ensures id in old(assets) && old(assets)[id].beneficialOwner == Some(sender) && EntitlementActive(old(assets)[id], b) ==>
                r == Err(WithdrawalFailed)
      ensures r.Ok? <==> id in old(assets) && old(assets)[id].beneficialOwner == Some(sender)
                         && !EntitlementActive(old(assets)[id], b)
      ensures r.Ok? ==> assets == old(assets) - {id} && r.value == [NftTransfer(config.nftAddr, id, sender)]
    {
      if id !in assets {
        return Err(AssetNotFound(id));
      }
      var asset := assets[id];
      if asset.beneficialOwner.None? {
        return Err(Unauthorized);
      }
      var owner := asset.beneficialOwner.value;
      if owner != sender {
        return Err(Unauthorized);
      }
      if EntitlementActive(asset, b) {
        return Err(WithdrawalFailed);
      }
      assets := assets - {id};
      r := Ok([NftTransfer(config.nftAddr, id, owner)]);
    }

    /**
     * `set_beneficial_owner`: while an entitlement is active only its
     * operator may move the beneficial ownership, otherwise only the current
     * beneficial owner; operator and expiry are kept.
     */
    method SetBeneficialOwner(b: Block, sender: Addr, id: string, newOwner: Addr) returns (r: Result<()>)
      modifies this`assets
      ensures old(Valid()) ==> Valid()
      ensures r.Err? ==> unchanged(this)
      ensures id !in old(assets) ==> r == Err(AssetNotFound(id))
      ensures id in old(assets) && EntitlementActive(old(assets)[id], b) && old(assets)[id].operator != Some(sender) ==>
                r == Err(Std(SET_OWNER_NOT_OPERATOR))
      ensures id in old(assets) && !EntitlementActive(old(assets)[id], b) && old(assets)[id].beneficialOwner != Some(sender) ==>
                r == Err(Std(SET_OWNER_NOT_OWNER))
      ensures r.Ok? <==> id in old(assets)
                         && (if EntitlementActive(old(assets)[id], b)
                             then old(assets)[id].operator == Some(sender)
                             else old(assets)[id].beneficialOwner == Some(sender))
      ensures r.Ok? ==> assets == old(assets)[id := old(assets)[id].(beneficialOwner := Some(newOwner))]
    {
      if id !in assets {
        return Err(AssetNotFound(id));
      }
      var asset := assets[id];
      if EntitlementActive(asset, b) {
        if asset.operator != Some(sender) {
          return Err(Std(SET_OWNER_NOT_OPERATOR));
        }
      } else if asset.beneficialOwner != Some(sender) {
        return Err(Std(SET_OWNER_NOT_OWNER));
      }
      UpdateOrCreateAsset(id, Asset(Some(newOwner), None, None));
      r := Ok(());
    }

    /**
     * `clear_entitlement`: removes an active entitlement. The caller check
     * passes only for a caller that is NOT the operator, so the entitled
     * operator itself can never clear.
     */
    method ClearEntitlement(b: Block, sender: Addr, id: string) returns (r: Result<()>)
      modifies this`assets
      ensures old(Valid()) ==> Valid()
      ensures r.Err? ==> unchanged(this)
      ensures id !in old(assets) ==> r == Err(AssetNotFound(id))
      ensures id in old(assets) && !EntitlementActive(old(assets)[id], b) ==>
                r == Err(Std(NO_ACTIVE_ENTITLEMENT))
      ensures id in old(assets) && EntitlementActive(old(assets)[id], b) && old(assets)[id].operator == Some(sender) ==>
                r == Err(Std(CLEAR_NOT_ENTITLED))
      ensures r.Ok? <==> id in old(assets) && EntitlementActive(old(assets)[id], b)
                         && old(assets)[id].operator != Some(sender)
      ensures r.Ok? ==> assets == old(assets)[id := old(assets)[id].(operator := None, expiry := None)]
      ensures r.Ok? ==> !EntitlementActive(assets[id], b)
    {
      if id !in assets {
        return Err(AssetNotFound(id));
      }
      var asset := assets[id];
      if !EntitlementActive(asset, b) {
        return Err(Std(NO_ACTIVE_ENTITLEMENT));
      }
      if !(asset.operator.Some? && asset.operator.value != sender) {
        return Err(Std(CLEAR_NOT_ENTITLED));
      }
      asset := asset.(expiry := None);
      asset := asset.(operator := None);
      assets := assets[id := asset];
      r := Ok(());
    }

    /**
     * `clear_entitlement_and_distribute`: requires `receiver` to be the
     * beneficial owner, sends the NFT to the address spelled by the asset id
     * itself, and clears the entitlement with the same caller.
     */
    method ClearEntitlementAndDistribute(b: Block, sender: Addr, id: string, receiver: Addr)
      returns (r: Result<seq<CosmosMsg>>)
      modifies this`assets
      ensures old(Valid()) ==> Valid()
      ensures r.Err? ==> unchanged(this)
      ensures id !in old(assets) ==> r == Err(AssetNotFound(id))
      ensures id in old(assets) && old(assets)[id].beneficialOwner != Some(receiver) ==>
                r == Err(Std(DISTRIBUTE_NOT_OWNER))
      ensures id in old(assets) && old(assets)[id].beneficialOwner == Some(receiver) && !EntitlementActive(old(assets)[id], b) ==>
                r == Err(Std(NO_ACTIVE_ENTITLEMENT))
      ensures id in old(assets) && old(assets)[id].beneficialOwner == Some(receiver) && EntitlementActive(old(assets)[id], b)
              && old(assets)[id].operator == Some(sender) ==>
                r == Err(Std(CLEAR_NOT_ENTITLED))
      ensures r.Ok? <==> id in old(assets) && old(assets)[id].beneficialOwner == Some(receiver)
                         && EntitlementActive(old(assets)[id], b) && old(assets)[id].operator != Some(sender)
      ensures r.Ok? ==> r.value == [NftTransfer(config.nftAddr, id, id)]
      ensures r.Ok? ==> assets == old(assets)[id := old(assets)[id].(operator := None, expiry := None)]
    {
      var receiverAddr := id;
      if id !in assets {
        return Err(AssetNotFound(id));
      }
      var asset := assets[id];
      if asset.beneficialOwner != Some(receiver) {
        return Err(Std(DISTRIBUTE_NOT_OWNER));
      }
      var transfer := NftTransfer(config.nftAddr, id, receiverAddr);
      var cleared := ClearEntitlement(b, sender, id);
      if cleared.Err? {
        return Err(cleared.error);
      }
      r := Ok([transfer]);
    }

    /**
     * `receive_cw721`: an NFT arriving from the configured collection is
     * registered with its sender as beneficial owner and the decoded
     * operator and expiry. No previous record is passed, so an existing
     * active entitlement does not block it. `decoded` is the operator and
     * expiry read from the message payload, `None` when it does not decode.
     */
    method ReceiveCw721(b: Block, nftContract: Addr, from: Addr, tokenId: string, decoded: Option<(Addr, Expiration)>)
      returns (r: Result<()>)
      modifies this`assets
      ensures old(Valid()) ==> Valid()
      ensures r.Err? ==> unchanged(this)
      ensures nftContract != config.nftAddr ==> r == Err(InvalidNft(nftContract, config.nftAddr))
      ensures nftContract == config.nftAddr && decoded.None? ==> r == Err(ParseMsg)
      ensures nftContract == config.nftAddr && decoded.Some? && IsExpired(decoded.value.1, b) ==>
                r == Err(Std(EXPIRY_NOT_IN_FUTURE))
      ensures r.Ok? <==> nftContract == config.nftAddr && decoded.Some? && !IsExpired(decoded.value.1, b)
      ensures r.Ok? ==> assets == Upserted(old(assets), tokenId, Asset(Some(from), Some(decoded.value.0), Some(decoded.value.1)))
      ensures r.Ok? ==> assets[tokenId].beneficialOwner == Some(from) && EntitlementActive(assets[tokenId], b)
    {
      if nftContract != config.nftAddr {
        return Err(InvalidNft(nftContract, config.nftAddr));
      }
      if decoded.None? {
        return Err(ParseMsg);
      }
      var (operator, expiry) := decoded.value;
      r := RegisterEntitlement(b, tokenId, None, Asset(Some(from), Some(operator), Some(expiry)));
    }

    /** `beneficial_owner` query: fails for an unknown asset. */
    function BeneficialOwnerQuery(id: string): (r: Result<Option<Addr>>)
      reads this
      ensures r.Ok? <==> id in assets
      ensures r.Ok? ==> r.value == assets[id].beneficialOwner
      ensures Valid() && r.Ok? ==> r.value.Some?
    {
      if id in assets then Ok(assets[id].beneficialOwner) else Err(NotFound("asset"))
    }

    /** `holds_asset` query, given the owner the NFT contract reports for the asset. */
    function HoldsAsset(nftOwner: Addr): (r: bool)
      reads this
      ensures r <==> nftOwner == address
    {
      nftOwner == address
    }

    /** `asset_address` query: the covered collection. */
    function AssetAddress(): (r: Addr)
      reads this
      ensures r == config.nftAddr
    {
      config.nftAddr
    }

    /** `approved_operator` query: needs no asset record. */
    function ApprovedOperator(id: string): (r: Option<Addr>)
      reads this
      ensures r.Some? <==> id in approvals
      ensures r.Some? ==> r.value == approvals[id]
    {
      if id in approvals then Some(approvals[id]) else None
    }

    /** `entitlement_expiration` query: the expiry of an active entitlement, else `None`. */
    function EntitlementExpiration(b: Block, id: string): (r: Result<Option<Expiration>>)
      reads this
      ensures r.Ok? <==> id in assets
      ensures r.Ok? ==> (r.value.Some? <==> EntitlementActive(assets[id], b))
      ensures r.Ok? && r.value.Some? ==> assets[id].expiry == r.value
    {
      if id !in assets then Err(NotFound("asset"))
      else if !EntitlementActive(assets[id], b) then Ok(None)
      else Ok(Some(assets[id].expiry.value))
    }

    /**
     * `current_entitlement_operator` query: whether the entitlement is
     * active, with the stored operator even when it is not.
     */
    function CurrentEntitlementOperator(b: Block, id: string): (r: Result<OperatorInfo>)
      reads this
      ensures r.Ok? <==> id in assets
      ensures r.Ok? ==> r.value.isActive == EntitlementActive(assets[id], b)
      ensures r.Ok? ==> r.value.operator == assets[id].operator
    {
      if id in assets then Ok(OperatorInfo(EntitlementActive(assets[id], b), assets[id].operator))
      else Err(NotFound("asset"))
    }
  }
}
