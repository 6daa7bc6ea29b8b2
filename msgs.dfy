/**
 * The outgoing messages a handler returns. CosmWasm dispatches them after the
 * handler has returned, each in its own step, so the handlers only record
 * them: nothing here applies a message to another contract's state.
 */
module Msgs {
  import opened Common
  import opened Denom

  /** The vault execute messages the option engine sends. */
  datatype VaultExecuteMsg =
    | SetBeneficialOwner(assetId: string, newBeneficialOwner: Addr)
    | ClearEntitlement(assetId: string)
    | ClearEntitlementAndDistribute(assetId: string, receiver: Addr)
    | ImposeEntitlement(assetId: string, operator: Addr, expiry: Expiration)

  /** The entitlement `mint_with_nft` attaches to the NFT it sends into a vault. */
  datatype SetEntitlement = SetEntitlement(
    beneficialOwner: Addr,
    entitledOperator: Addr,
    approvedOperator: Option<Addr>,
    expiry: Expiration)

  datatype CosmosMsg =
    | BankSend(to: Addr, amount: seq<Coin>)
    | VaultExecute(contract: Addr, msg: VaultExecuteMsg, funds: seq<Coin>)
    | NftTransfer(nft: Addr, tokenId: string, recipient: Addr)
    | NftSend(nft: Addr, tokenId: string, contract: Addr, payload: Option<SetEntitlement>)
    /** cw721 `ReceiveNft`, telling `contract` that `sender` sent it the option token `optionId`. */
    | ReceiveNft(contract: Addr, sender: Addr, optionId: nat, data: string)
}
