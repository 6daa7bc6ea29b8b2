# Covered call options on vaulted NFTs — a Dafny model

This project models the CosmWasm contracts of an NFT call-option protocol:

- **Vault.** A vault holds NFTs. For each asset it records a beneficial owner and at most one entitlement: an operator and an expiry. While an entitlement is active, only its operator can move the beneficial ownership, and the asset cannot be withdrawn.
- **Call instrument.** The call instrument (`contracts/call`) writes covered call options on vaulted assets:
  - minting records the option and creates an option token for the writer;
  - bidders escrow funds in a settlement auction, and the high bidder becomes the asset's beneficial owner;
  - after expiry the option settles: the writer gets the strike and the option holder gets the spread, either at once or later as a claim;
  - the writer may instead reclaim the asset.
- **Older call-option instrument.** `contracts/call-option` has the same handlers with different checks. It never saves the bid, the high bidder or the settled flag.
- **Factories and protocol.** The vault factory and the call factory register vaults and instruments through a make-then-reply handshake. The protocol contract holds the two factory addresses and a pause deadline.

Each contract entity whose storage the handlers update is a Dafny `class`. Its storage items are `map` and `Option` fields, and its handlers are methods.

- **Whole new state.** Every handler states its whole new state.
- **Refusals.** Every refusal is stated in the source's order, with the source's error.
- **Routing.** The call instrument's `execute` is proved to give each message exactly the outcome its handler's contract describes, stated once as a two-state predicate per handler.
- **Rollback.** A handler that fails leaves the state exactly as it found it. This mirrors CosmWasm, which discards the writes of a failed transaction. Where the source writes and a later step can still fail, the model writes in the same order and rolls back on the failure.
- **Outgoing messages.** Messages to other contracts are returned as values, and their effect on the recipient is never applied inline. As in the source, they run later.
- **Invariant of both option contracts.** Both option contracts keep `Ledger.Consistent`:
  - the token count equals the number of tokens;
  - every id is at most the counter;
  - every token has a record;
  - every index entry names a stored option of that asset;
  - every claim belongs to a settled option, and a settled option whose token still exists has a claim (a holder may burn the token with a claim stored, stranding it);
  - a standing bid covers the strike.
- **Invariant of the vault.** Every vault handler keeps `Vault.Vault.Valid`: every stored asset has a beneficial owner, and it has an operator exactly when it has an expiry. The beneficial-owner query relies on it.
- **Invariant of the older instrument.** The older instrument also keeps `CallOptionEngine.Untouched`: no record ever carries a bid, a bidder or the settled flag, and no claim exists. This is proved. As a consequence, in that contract settlement and claiming are always refused, and the model proves this.

Integer widths are explicit:
- `Uint128` amounts are naturals bounded by `MAX_U128`.
- The option counter is a `u64`.
- Unchecked arithmetic that overflows aborts (`Error.Panic`), as it does with overflow checks on.
- Checked arithmetic fails with `Error.Overflow`.

Time is a block height plus a time in nanoseconds. `Expiration` and `Duration` follow `cw_utils`.

Inputs the contracts obtain from other contracts are parameters of the handlers:
- NFT owner, operators and approvals;
- the vault-factory lookup;
- the vault's query answers, read from a `Vault.Vault` object.

## Model

| member | source | states |
|---|---|---|
| Common.PlusSeconds | contracts/call/src/utils.rs:36-37 | the block with the same height and its time advanced by the seconds in nanoseconds |
| Common.After | contracts/protocol/src/execute.rs:55-57 | a height duration expires that many blocks later, a time duration that many seconds later |
| Common.ExpiredStaysExpired | contracts/call/src/utils.rs:40-43 | an expiration reached at a block stays reached at every later block |
| Common.AfterNotYetExpired | contracts/protocol/src/execute.rs:55-57 | the expiration a duration past the block is already expired at that block iff the duration is zero |
| Common.InitialOwner | contracts/vault-factory/src/contract.rs:28-33 | the message's owner when given, else the sender |
| Denom.FindAllowedCoin | packages/common/src/denom.rs:70-72 | `None` iff no coin has the denomination; otherwise the coin at the first index with it, which has that denomination |
| Denom.HasAllowedDenoms | packages/common/src/denom.rs:64-68 | true iff every coin's denomination is in the allowed list |
| Denom.Coins | packages/common/src/denom.rs:12-14 | exactly one coin, with the given denomination and amount |
| Denom.SoleDenomPicksFirst | packages/common/src/denom.rs:64-72 | when every coin passes and the denomination is the only one allowed, the first coin is the one found |
| Tokens.Registry.constructor | contracts/call/src/contract.rs:40 | an empty registry whose count matches |
| Tokens.Registry.OwnerOf | contracts/call/src/utils.rs:135-146 | the owner of an existing token; a missing token is `NotFound` |
| Tokens.Registry.Create | contracts/call/src/utils.rs:94-101 | fails with `Claimed` iff the id is taken (and then changes nothing); otherwise adds the token for the owner and increments the count |
| Tokens.Registry.Burn | contracts/call/src/utils.rs:148-163 | a missing token is `NotFound`, a caller other than the holder `NotOwner`, and both change nothing; otherwise removes exactly that token and decrements the count |
| Tokens.Registry.Transfer | contracts/call/src/contract.rs:124-127 | a missing token is `NotFound`, a caller other than the holder `NotOwner`, and both change nothing; otherwise only that token's holder becomes the recipient |
| OptionStore.Store.constructor | contracts/call-option/src/state.rs:71-149 | no counter, no options, no claims, no index entries |
| OptionStore.CountOf | contracts/call-option/src/state.rs:124-126 | 0 when the counter was never stored, else the stored value; the store's `count` reads it |
| OptionStore.Store.Load | contracts/call-option/src/state.rs:108-110 | the saved record iff one exists, else `NotFound` |
| OptionStore.Store.LoadClaim | contracts/call-option/src/state.rs:142 | the stored claim iff one exists, else `NotFound` |
| OptionStore.Store.Inc | contracts/call-option/src/state.rs:128-132 | stores and returns the count plus one; at the `u64` maximum it aborts and changes nothing |
| OptionStore.Store.Dec | contracts/call-option/src/state.rs:134-138 | stores and returns the count minus one; at zero it aborts and changes nothing |
| OptionStore.Store.Save | contracts/call-option/src/state.rs:112-114 | inserts or overwrites the record, and loading it afterwards returns it |
| OptionStore.Store.Update | contracts/call-option/src/state.rs:116-122 | replaces an existing record only; an absent one fails with "updated option not found" and changes nothing |
| OptionStore.Store.UpdateVaultAssetOption | contracts/call-option/src/state.rs:151-158 | unconditionally points the (vault, asset) entry at the id and returns the id |
| OptionStore.Store.SaveClaim | contracts/call/src/execute.rs:516 | the claims map with the claim for the id set |
| OptionStore.Store.RemoveClaim | contracts/call/src/execute.rs:570 | the claims map without the id |
| OptionStore.IncThenDecRestores | contracts/call-option/src/state.rs:128-138 | `inc` then `dec` returns the original count and restores the counter |
| Ledger.EmptyConsistent | contracts/call/src/contract.rs:29-40 | the freshly instantiated contract satisfies the invariant |
| Ledger.BurnKeepsConsistent | contracts/call/src/contract.rs:124-127 | burning any existing token keeps the invariant, whatever the state of its option |
| Ledger.TransferKeepsConsistent | contracts/call/src/contract.rs:124-127 | moving an existing token to another holder keeps the invariant |
| Ledger.NextIdFree | contracts/call/src/utils.rs:66-99 | under the invariant the counter plus one is neither a stored option nor an existing token, so the token creation never fails with `Claimed` |
| Ledger.MintKeepsConsistent | contracts/call/src/utils.rs:55-101 | minting a record without a bidder that is not settled keeps the invariant, keeps every earlier option and its terms, and every earlier id is below the new one |
| Ledger.UpdateKeepsTerms | contracts/call/src/execute.rs:494-495 | rewriting a record with the same terms keeps every option's terms |
| Ledger.NewOption | contracts/call/src/utils.rs:56-65 | the record carries the given asset, writer, expiration, vault and strike, with bid 0, no bidder and not settled |
| Ledger.Rollback | contracts/call/src/execute.rs:386-460 | the state after rollback is the saved snapshot |
| Ledger.MintRefusal | contracts/call/src/utils.rs:36-53 | refuses an expiration already reached once the minimum duration is added to the block time, then a settled previous option on the asset (an unsettled one does not block); accepts iff neither applies and the indexed option loads |
| Ledger.Record | contracts/call/src/utils.rs:66-101 | succeeds iff the counter has room and the new id has no token; then the new id is the count plus one, the record is saved under it, the index points at it and the writer owns its token; on failure nothing changes |
| Ledger.MintCall | contracts/call/src/utils.rs:22-104 | refuses with the first `MintRefusal` reason; under the invariant succeeds iff the mint is allowed; on success the state is the minted one with the id the count plus one; the invariant and all earlier terms are kept; on failure nothing changes |
| CallEngine.BidKeepsConsistent | contracts/call/src/execute.rs:336-369 | replacing the bid and bidder by a bid that covers the strike keeps the invariant |
| CallEngine.SettleAndBurnKeepsConsistent | contracts/call/src/execute.rs:494-514 | settling an unsettled option and burning its token keeps the invariant |
| CallEngine.SettleForClaimKeepsConsistent | contracts/call/src/execute.rs:494-517 | settling an unsettled option whose token stays and storing its claim keeps the invariant |
| CallEngine.CollectKeepsConsistent | contracts/call/src/execute.rs:569-573 | removing an existing claim and burning its existing token keeps the invariant |
| CallEngine.BeneficialOwnerOrOperator | contracts/call/src/utils.rs:106-133 | fails iff the vault has no record for the asset; otherwise true iff the sender is the beneficial owner or the approved operator, always with the beneficial owner |
| CallEngine.Offered | contracts/call/src/execute.rs:300-310 | the attached amount, plus the strike when the writer bids |
| CallEngine.Increment | contracts/call/src/execute.rs:316-317 | the floor of bid times basis points over 10000 |
| CallEngine.BidRefusal | contracts/call/src/execute.rs:305-351 | accepted iff the amount fits a `u128`, the standing bid is a multiple of 10000, the product and the sum do not overflow, the amount reaches both the raised bid and the strike, and a writer's own standing bid covers the strike |
| CallEngine.AcceptedBidNeverLowers | contracts/call/src/execute.rs:331-339 | an accepted bid is at least the standing bid and the strike |
| CallEngine.AcceptedBidRaises | contracts/call/src/execute.rs:312-334 | with a positive rate, an accepted bid over a non-zero standing bid is strictly larger |
| CallEngine.ExactMinimumAccepted | contracts/call/src/execute.rs:316-334 | the standing bid plus the increment is accepted, and one unit less is refused for too small a raise |
| CallEngine.FirstBidCoversStrike | contracts/call/src/execute.rs:312-339 | on an option without bids, a bid is accepted iff it covers the strike and fits a `u128` |
| CallEngine.Refund | contracts/call/src/execute.rs:345-364 | the full standing bid back to the previous bidder when there is one and the bid is not zero, else nothing |
| CallEngine.ReclaimRefund | contracts/call/src/execute.rs:427-432 | the bid less the strike for a writer-bidder (none on underflow), else the whole bid |
| CallEngine.ReclaimTail | contracts/call/src/execute.rs:439-457 | the beneficial owner reset to the writer, then clear-and-distribute to the writer if withdrawing, else clear |
| CallEngine.Instrument.constructor | contracts/call/src/contract.rs:21-46 | the config stored, the contract itself as minter, an empty consistent ledger |
| CallEngine.Instrument.MintWithNft | contracts/call/src/execute.rs:35-116 | `MintWithNftOutcome`: refuses a foreign collection, a caller that is neither owner nor operator nor approved, a contract that is neither operator nor approved, and a missing vault, in that order; then relays the first `MintRefusal` reason; under the invariant succeeds iff the mint is allowed; on success the NFT's owner is the writer, the option is minted under the counter plus one at the looked-up vault, and the only message sends the NFT there with an entitlement for the caller and this contract until the expiration; on failure nothing changes |
| CallEngine.Instrument.MintWithVault | contracts/call/src/execute.rs:120-193 | `MintWithVaultOutcome`: refuses a foreign collection, an asset not held by the vault, a missing asset record, a caller that is neither beneficial owner nor approved operator, and an unset beneficial owner, in that order; then relays the first `MintRefusal` reason; under the invariant succeeds iff the mint is allowed; on success the beneficial owner is the writer and the only message asks the vault to impose an entitlement for this contract until the expiration |
| CallEngine.Instrument.MintWithEntitledVault | contracts/call/src/execute.rs:198-285 | `MintWithEntitledVaultOutcome`: the refusals of `mint_with_vault` up to the asset record; then an inactive entitlement whose operator is not this contract, an expiration other than the active entitlement's, the caller check and an unset beneficial owner, in that order; then relays the first `MintRefusal` reason; under the invariant succeeds iff the mint is allowed; on success no message is sent |
| CallEngine.Instrument.Bid | contracts/call/src/execute.rs:287-382 | `BidOutcome`: refuses a missing denomination, a missing option and each `BidRefusal` reason; on success only that record changes, to the offered bid with the caller as bidder; counter, claims, index and tokens are unchanged; the previous bidder is refunded and the caller made beneficial owner |
| CallEngine.Instrument.ReclaimRefusal | contracts/call/src/execute.rs:394-415 | refuses attached funds, a missing option, a caller other than the writer, a settled option, an expired option, and a writer not holding the token; accepts iff none applies |
| CallEngine.Instrument.ReclaimAsset | contracts/call/src/execute.rs:386-460 | `ReclaimOutcome`: refuses with `ReclaimRefusal`, and under the invariant succeeds otherwise; on success the option is settled, its token burned, the bidder refunded and the reclaim messages returned; nothing else changes |
| CallEngine.Instrument.SettleRefusal | contracts/call/src/execute.rs:474-491 | refuses a missing option, no high bidder, not expired, already settled, a spread underflow and a missing token; accepts iff none applies |
| CallEngine.Instrument.SettleOption | contracts/call/src/execute.rs:467-524 | `SettleOutcome`: refuses with `SettleRefusal`, and under the invariant succeeds otherwise; on success the option is settled, the writer paid unless it is the bidder, and the holder paid with the token burned, or the spread stored as a claim; `claimable` is true iff a claim was stored |
| CallEngine.Instrument.BurnRefusal | contracts/call/src/execute.rs:533-546 | refuses a missing option, a bidder, not expired and already settled; accepts iff none applies |
| CallEngine.Instrument.BurnExpiredOption | contracts/call/src/execute.rs:527-553 | `BurnOutcome`: refuses with `BurnRefusal`, then a missing token and a caller other than its holder; under the invariant succeeds iff none applies; on success the records are unchanged, the token burned and no message sent |
| CallEngine.Instrument.ClaimRefusal | contracts/call/src/execute.rs:564-569 | refuses a missing token, a caller other than its holder, and a missing claim; accepts iff none applies |
| CallEngine.Instrument.ClaimOptionProceeds | contracts/call/src/execute.rs:557-579 | `ClaimOutcome`: refuses with `ClaimRefusal` or a zero claim, and under the invariant succeeds otherwise; on success the claim is removed, the token burned and the claim paid to the holder |
| CallEngine.Instrument.CurrentBid | contracts/call/src/query.rs:6-10 | the stored bid, failing for a missing option |
| CallEngine.Instrument.CurrentBidder | contracts/call/src/query.rs:12-16 | the stored bidder, failing for a missing option |
| CallEngine.Instrument.GetVaultAddress | contracts/call/src/query.rs:18-22 | the stored vault, failing for a missing option |
| CallEngine.Instrument.GetOptionIdForAsset | contracts/call/src/query.rs:24-29 | the index entry for the asset, failing when absent |
| CallEngine.Instrument.GetAssetId | contracts/call/src/query.rs:31-35 | the stored asset id, failing for a missing option |
| CallEngine.Instrument.GetStrikePrice | contracts/call/src/query.rs:37-41 | the stored strike, failing for a missing option |
| CallEngine.Instrument.GetExpiration | contracts/call/src/query.rs:43-47 | the stored expiration, failing for a missing option |
| CallEngine.MintThenQuery | contracts/call/src/query.rs:6-47 | after a mint every getter answers with the minted terms, no bid and no bidder, and the index names the new option |
| CallEngine.SettleOnlyOnce | contracts/call/src/execute.rs:484-495 | a second settlement of a settled option is refused as already settled |
| CallEngine.ClaimOnlyOnce | contracts/call/src/execute.rs:569-573 | a second claim is refused because the token is gone |
| CallEngine.SettleThenClaim | contracts/call/src/execute.rs:515-575 | a settlement by someone other than the holder leaves a claim of exactly the spread, which the holder then collects |
| CallContract.Execute | contracts/call/src/contract.rs:50-129 | every extension message has exactly its handler's outcome predicate; a direct token mint is always refused; transfer, send and burn of an option token have `TokenOutcome`; `ForTest` succeeds and changes nothing; the invariant is kept and a failure changes nothing |
| CallContract.ExecuteMint | contracts/call/src/contract.rs:60-93 | each mint message has exactly its handler's outcome predicate, answered with the mint's messages |
| CallContract.ExecuteAuction | contracts/call/src/contract.rs:95-102 | a bid has `BidOutcome` and a reclaim `ReclaimOutcome` |
| CallContract.ExecuteSettlement | contracts/call/src/contract.rs:104-114 | settle, burn and claim have `SettleOutcome`, `BurnOutcome` and `ClaimOutcome`, answered with their messages |
| CallContract.ExecuteToken | contracts/call/src/contract.rs:124-127 | `TokenOutcome`: a missing token is `NotFound`, a caller other than its holder `NotOwner`, and under the invariant nothing else fails; the option records never change; a transfer or a send moves the token to the recipient (a send also notifies the recipient contract), a burn removes it; the invariant is kept |
| CallContract.BurnStrandsClaim | contracts/call/src/contract.rs:124-127 | when someone other than the holder settles, the holder may then burn the option token, after which the stored claim can never be collected (the claim is refused for a missing token and stays stored) |
| CallContract.TransferThenSettle | contracts/call/src/contract.rs:124-127 | a buyer who receives the option token and then settles is paid the spread, and the token is gone |
| CallContract.Query | contracts/call/src/contract.rs:132-169 | each query is answered by its getter |
| CallOptionEngine.MintKeepsUntouched | contracts/call-option/src/utils.rs:55-68 | minting a record without a bid keeps the ledger untouched |
| CallOptionEngine.CallerCheckStricter | contracts/call-option/src/execute.rs:62-68 | the caller check accepts only owners who are also operator and approved, so the check after it can never refuse |
| CallOptionEngine.BidRefusal | contracts/call-option/src/execute.rs:296-336 | accepted iff the amount fits, the checked product and sum do not overflow, the amount reaches the raised bid and the strike, and a writer's own standing bid covers the strike; an overflowing product is `Overflow` |
| CallOptionEngine.UntouchedBidAccepted | contracts/call-option/src/execute.rs:308-322 | on an option without bids, a bid is accepted iff it covers the strike and fits a `u128` |
| CallOptionEngine.EqualBidAccepted | contracts/call-option/src/execute.rs:308-317 | whenever the standing bid times the rate stays below 10000 basis points, re-bidding the standing bid is accepted here, while the call instrument refuses any such non-zero bid as too small |
| CallOptionEngine.Instrument.constructor | contracts/call-option/src/contract.rs:23-47 | the config stored and an empty ledger that is consistent and untouched |
| CallOptionEngine.Instrument.MintOption | contracts/call-option/src/utils.rs:20-84 | the shared mint, which also keeps the ledger untouched |
| CallOptionEngine.Instrument.MintWithNft | contracts/call-option/src/execute.rs:36-109 | the raw collection compare, the owner-and-operator-and-approved caller check, the contract check and the vault lookup in order, then the first `MintRefusal` reason; under the invariant succeeds iff the mint is allowed; on success the NFT is transferred into the vault with no entitlement |
| CallOptionEngine.Instrument.MintWithVault | contracts/call-option/src/execute.rs:113-188 | each vault, asset, caller and beneficial-owner refusal in order, then the first `MintRefusal` reason; under the invariant succeeds iff the mint is allowed; on success the beneficial owner is the writer and an entitlement for this contract is imposed |
| CallOptionEngine.Instrument.MintWithEntitledVault | contracts/call-option/src/execute.rs:193-281 | each refusal in order: collection, custody, asset, an inactive entitlement whose operator is not this contract, a differing or inactive expiration, the caller, the beneficial owner, then the first `MintRefusal` reason; under the invariant succeeds iff the mint is allowed; on success no message is sent |
| CallOptionEngine.Instrument.Bid | contracts/call-option/src/execute.rs:283-369 | refusals as in `BidRefusal`; writes nothing; returns the refund of the standing bid and the beneficial-owner change, and on an untouched ledger no refund |
| CallOptionEngine.Instrument.ReclaimRefusal | contracts/call-option/src/execute.rs:381-402 | refuses a missing option, a caller other than the writer, a settled option, a writer not holding the token, and an option NOT yet expired; accepts iff none applies |
| CallOptionEngine.Instrument.ReclaimAsset | contracts/call-option/src/execute.rs:373-447 | refuses with `ReclaimRefusal`; on success only the token is burned (the record stays unsettled) and the refund and reclaim messages are returned |
| CallOptionEngine.Instrument.SettleRefusal | contracts/call-option/src/execute.rs:458-474 | refuses a missing option, no high bidder, not expired, already settled, a spread underflow and a missing token; on an untouched ledger always refuses for want of a winner |
| CallOptionEngine.Instrument.SettleOption | contracts/call-option/src/execute.rs:451-506 | refuses with `SettleRefusal`, so on a valid ledger always fails; on success the record is never marked settled |
| CallOptionEngine.Instrument.BurnRefusal | contracts/call-option/src/execute.rs:515-528 | refuses a missing option, bids, not expired and already settled; accepts iff none applies |
| CallOptionEngine.Instrument.BurnExpiredOption | contracts/call-option/src/execute.rs:509-535 | refuses with `BurnRefusal`, then a missing token and a caller other than its holder; under the invariant succeeds iff none applies; on success the records are unchanged and the token burned |
| CallOptionEngine.Instrument.ClaimRefusal | contracts/call-option/src/execute.rs:544-551 | refuses a missing token, a caller other than its holder and a missing claim; on an untouched ledger the claim is always missing |
| CallOptionEngine.Instrument.ClaimOptionProceeds | contracts/call-option/src/execute.rs:539-561 | refuses with `ClaimRefusal` or a zero claim, so on a valid ledger always fails; on success the claim is removed, the token burned and the claim paid |
| CallOptionEngine.BidThenSettle | contracts/call-option/src/execute.rs:351-352 | an accepted bid leaves the ledger as it was, so settling afterwards is still refused for want of a winner |
| Vault.Merge | contracts/vault/src/state.rs:64-70 | each field is the update's when given, else the stored one |
| Vault.Upserted | contracts/vault/src/state.rs:57-76 | an absent asset gets the update verbatim, an existing one the merge; no other key changes |
| Vault.MergeNeverClears | contracts/vault/src/state.rs:64-70 | the merge never turns a present field into `None` |
| Vault.MergeIdempotent | contracts/vault/src/state.rs:64-70 | merging the same update twice equals merging it once |
| Vault.UpsertIdempotent | contracts/vault/src/state.rs:57-76 | upserting the same update twice equals upserting it once |
| Vault.SetBeneficialOwnerMsg | contracts/vault/src/utils.rs:37-50 | a fund-less execute to the vault carrying exactly the given arguments |
| Vault.ClearEntitlementMsg | contracts/vault/src/utils.rs:52-60 | a fund-less execute to the vault carrying exactly the given asset |
| Vault.ClearEntitlementAndDistributeMsg | contracts/vault/src/utils.rs:62-75 | a fund-less execute to the vault carrying exactly the given arguments |
| Vault.Vault.constructor | contracts/vault/src/contract.rs:18-40 | the config stored, no assets, no approvals |
| Vault.Vault.UpdateOrCreateAsset | contracts/vault/src/state.rs:57-76 | the asset map becomes `Upserted` |
| Vault.Vault.RegisterEntitlement | contracts/vault/src/utils.rs:92-116 | refuses an active previous record, a missing expiry and an expired one; otherwise upserts the record |
| Vault.Vault.ImposeEntitlement | contracts/vault/src/execute.rs:13-52 | any caller; refuses a missing asset, a missing beneficial owner, an active entitlement and an expiry already reached, in that order; on success the asset keeps its owner and gets the operator and expiry, now active |
| Vault.Vault.GrantEntitlement | contracts/vault/src/execute.rs:55-102 | refuses a missing asset, a caller that is neither beneficial owner nor the approved address, an active entitlement and an expiry already reached, in that order; on success the new owner, operator and expiry are stored |
| Vault.Vault.WithdrawalAsset | contracts/vault/src/execute.rs:106-141 | only the beneficial owner and only without an active entitlement; on success the record is removed and the NFT sent to the owner |
| Vault.Vault.SetBeneficialOwner | contracts/vault/src/execute.rs:144-185 | while active only the operator, otherwise only the owner; on success only the beneficial owner changes |
| Vault.Vault.ClearEntitlement | contracts/vault/src/execute.rs:188-219 | requires an active entitlement and a caller other than its operator; on success operator and expiry are cleared |
| Vault.Vault.ClearEntitlementAndDistribute | contracts/vault/src/execute.rs:225-255 | refuses a missing asset, a receiver other than the beneficial owner, no active entitlement and a caller that is the operator, in that order; on success sends the NFT to the address the asset id spells and clears operator and expiry |
| Vault.Vault.ReceiveCw721 | contracts/vault/src/execute.rs:257-305 | refuses another collection, an undecodable payload and an expiry already reached, in that order; registers the sender as beneficial owner without checking a previous entitlement |
| Vault.Vault.BeneficialOwnerQuery | contracts/vault/src/query.rs:13-16 | the stored beneficial owner, failing for a missing asset; under the vault's invariant it is always set |
| Vault.Vault.HoldsAsset | contracts/vault/src/query.rs:19-27 | true iff the collection reports the vault itself as owner |
| Vault.Vault.AssetAddress | contracts/vault/src/query.rs:30-32 | the covered collection |
| Vault.Vault.ApprovedOperator | contracts/vault/src/query.rs:36-39 | the approvals entry or `None`, needing no asset record |
| Vault.Vault.EntitlementExpiration | contracts/vault/src/query.rs:42-48 | the stored expiry while the entitlement is active, else `None`; fails for a missing asset |
| Vault.Vault.CurrentEntitlementOperator | contracts/vault/src/query.rs:51-63 | whether the entitlement is active, with the stored operator even when not |
| VaultFactory.Factory.constructor | contracts/vault-factory/src/contract.rs:20-42 | the message's owner or the sender owns an empty factory |
| VaultFactory.Factory.MakeMultiVault | contracts/vault-factory/src/execute.rs:12-50 | owner only, refused for a registered collection; on success only the pending slot is written and one reply-on-success submessage with id 1 returned |
| VaultFactory.Factory.MakeSoloVault | contracts/vault-factory/src/execute.rs:52-91 | owner only, refused for a registered (collection, id); on success only the pending slot is written and reply id 2 used |
| VaultFactory.Factory.Reply | contracts/vault-factory/src/contract.rs:81-121 | registers the pending collection's multi vault (id 1) or solo vault (id 2), refusing unknown reply ids, a missing slot, duplicates, a missing id and an unparsable address with their errors |
| VaultFactory.Factory.Execute | contracts/vault-factory/src/contract.rs:45-62 | each make message refuses a non-owner with `NotOwner` and a registered key as existing, succeeds otherwise, writes only the pending slot and returns exactly the handler's instantiate submessage |
| VaultFactory.Factory.GetVaultQuery | contracts/vault-factory/src/query.rs:8-12 | the solo map entry or `None` |
| VaultFactory.Factory.GetMultiVaultQuery | contracts/vault-factory/src/query.rs:15-19 | the multi map entry or `None` |
| VaultFactory.Factory.GetMultiOrSoloVaultQuery | contracts/vault-factory/src/query.rs:22-33 | the multi vault whenever registered, else the solo vault when an id is given, else `None` |
| VaultFactory.Factory.Query | contracts/vault-factory/src/contract.rs:65-77 | each query is answered by its lookup |
| VaultFactory.MakeMultiThenReply | contracts/vault-factory/src/contract.rs:81-96 | the owner's request answered by a successful reply registers the vault, which the combined lookup then finds |
| VaultFactory.MakeSoloThenReply | contracts/vault-factory/src/contract.rs:98-117 | the same for a solo vault, still shadowed by a multi vault in the combined lookup |
| CallFactory.InstrumentInstantiate | contracts/call-factory/src/execute.rs:20-31 | every setting copied from the factory's defaults, the collection as the allowed NFT, reply id 10 |
| CallFactory.Factory.constructor | contracts/call-factory/src/contract.rs:20-42 | the message's owner or the sender owns an empty factory |
| CallFactory.Factory.MakeCallInstrument | contracts/call-factory/src/execute.rs:12-49 | owner only, refused for a registered collection; on success only the pending slot is written and the instantiate submessage returned |
| CallFactory.Factory.Reply | contracts/call-factory/src/contract.rs:71-90 | registers the pending collection's instrument, refusing unknown reply ids, a missing slot, duplicates and an unparsable address with their errors |
| CallFactory.Factory.Execute | contracts/call-factory/src/contract.rs:45-58 | refuses a non-owner with `NotOwner` and a registered collection as existing, succeeds otherwise, writes only the pending slot and returns the instantiate submessage |
| CallFactory.Factory.GetCallInstrument | contracts/call-factory/src/query.rs:6-10 | the collection's instrument or `None` |
| CallFactory.MakeThenReply | contracts/call-factory/src/contract.rs:71-86 | request plus reply registers the instrument, and a second request is refused |
| Protocol.Updated | contracts/protocol/src/state.rs:42-55 | a given address replaces its field, a missing one keeps it |
| Protocol.UpdatesAreIndependent | contracts/protocol/src/state.rs:47-54 | the two addresses update independently and in either order |
| Protocol.ProtocolContract.constructor | contracts/protocol/src/contract.rs:18-43 | default config, the message's owner or the sender as owner and only admin, no pause |
| Protocol.ProtocolContract.UpdateConfig | contracts/protocol/src/state.rs:42-55 | the stored config becomes `Updated` |
| Protocol.ProtocolContract.SetVaultFactory | contracts/protocol/src/execute.rs:8-24 | owner only; changes only the vault factory |
| Protocol.ProtocolContract.SetCallFactory | contracts/protocol/src/execute.rs:26-42 | owner only; changes only the option factory |
| Protocol.ProtocolContract.PauseFor | contracts/protocol/src/execute.rs:44-63 | the contract itself or a pauser; sets the unpause moment past the block, replacing any earlier one |
| Protocol.ProtocolContract.Execute | contracts/protocol/src/contract.rs:46-63 | a pause succeeds iff the caller is the contract or a pauser, else `MissingRole`; a factory update iff the caller is the owner, else `NotOwner`; each changes only its own field |
| Protocol.ProtocolContract.QueryConfig | contracts/protocol/src/query.rs:5-9 | the stored config |
| Protocol.SetBothFactories | contracts/protocol/src/execute.rs:8-42 | the owner setting both factories leaves exactly those two addresses |

The message builders (`Vault.SetBeneficialOwnerMsg` and the like, `CallFactory.InstrumentInstantiate`) and the getters of both instruments only construct or read values, so their rows describe a value, not a proved property. The properties are in the handlers' outcomes and in the lemmas.

## Left out

- The option-token registry is modelled as an owner map with a count. Approvals, operators, the minter check and the metadata are not modelled, so a transfer, send or burn by an approved spender or operator is refused as `NotOwner` in the model. The cw721 `Approve`, `Revoke`, `ApproveAll` and `RevokeAll` messages of `execute` are left out with them, and so are the cw721 queries.
- Address validation is not modelled (`assert_valid_addr`, `into_addr`, `addr_validate`, and the recipient check in `clear_entitlement_and_distribute`). Addresses are opaque strings.
- Cross-contract queries are not executed. Their answers are parameters: the NFT's owner, operators and approvals, the vault-factory lookup, and the vault object. A query that fails (for example an unknown token in `owner_of`) is not modelled.
- Outgoing messages are recorded as abstract values and never executed. This covers bank sends, vault executes, NFT transfers and submessages, along with their serialisation.
- `cw_ownable`, `rbac` and cw2 version bookkeeping are reduced to an owner field and role sets. No handler grants the pauser role.
- The older instrument's `contracts/call-option/src/contract.rs` dispatch, including its cw721 arms, is routing only and is not modelled; its handlers are.
- The dead, commented-out reply code is not modelled.
- `contracts/call/src/state.rs` is not part of this model. The call instrument's record and storage follow `contracts/call-option/src/state.rs`.
- Arithmetic overflow is modelled as an abort, on the assumption that the contracts are built with overflow checks enabled. No build profile is part of this model.
- Overflow of the block time in `plus_seconds` is not modelled. Times are unbounded naturals.
- Storage errors from the key-value store itself are not modelled. These are serialisation and key-encoding failures. A missing record is modelled, as `NotFound` with the record's kind.
- `CallOptionEngine.Instrument.MintWithNft`: the unreachable "caller not owner or operator or has approval" check is not a separate postcondition. The other postconditions show that every path past the caller check either fails with a later reason or succeeds.
- `CallOptionEngine.Instrument.MintWithEntitledVault` and `CallEngine.Instrument.MintWithEntitledVault`: once the asset is known to exist, a failing expiration query cannot happen, so it is not told apart from a differing expiration.
