/**
 * What an option contract writes: its option store and its option tokens,
 * seen together. This module holds the invariant both option contracts keep,
 * the rollback of an aborted transaction, and `mint_call` (`mint_option` in
 * the older instrument), which both contracts share unchanged.
 */
module Ledger {
  import opened Common
  import opened OptionStore
  import opened Tokens

  const MIN_DURATION := "mint_option_with_vault - expires sooner than min duration"
  const PREV_NOT_SETTLED := "mint_option_with_vault - previous option must be settled"

  /** Everything a handler may write: the option store and the option tokens. */
  datatype Snapshot = Snapshot(
    counter: Option<nat>,
    options: map<nat, CallOption>,
    claims: map<nat, U128>,
    index: map<(Addr, string), nat>,
    owners: map<nat, Addr>,
    count: nat)

  /** The token count matches the tokens. */
  ghost predicate Counted(s: Snapshot)
  {
    s.count == |s.owners|
  }

  /** Option ids lie between 1 and the counter. */
  ghost predicate IdsCounted(s: Snapshot)
  {
    forall id :: id in s.options ==> 1 <= id <= CountOf(s.counter)
  }

  /** Every token belongs to a stored option. */
  ghost predicate TokensStored(s: Snapshot)
  {
    forall id :: id in s.owners ==> id in s.options
  }

  /** Every index entry names a stored option on that very asset. */
  ghost predicate IndexSound(s: Snapshot)
  {
    forall k :: k in s.index ==>
      s.index[k] in s.options && s.options[s.index[k]].vault == k.0 && s.options[s.index[k]].assetId == k.1
  }

  /**
   * A claim exists only for a settled option, and every settled option whose
   * token still exists has one. The claim can outlive the token: its holder
   * may burn it through cw721.
   */
  ghost predicate ClaimsMatch(s: Snapshot)
  {
    (forall id :: id in s.claims ==> id in s.options && s.options[id].settled)
    && (forall id :: id in s.options && s.options[id].settled && id in s.owners ==> id in s.claims)
  }

  /** A standing bid covers the strike. */
  ghost predicate BidsCover(s: Snapshot)
  {
    forall id :: id in s.options && s.options[id].bidder.Some? ==> s.options[id].strike <= s.options[id].bid
  }

  /** The invariant of an option contract. */
  ghost predicate Consistent(s: Snapshot)
  {
    Counted(s) && IdsCounted(s) && TokensStored(s) && IndexSound(s) && ClaimsMatch(s) && BidsCover(s)
  }

  /** The empty contract is consistent. */
  lemma EmptyConsistent()
    ensures Consistent(Snapshot(None, map[], map[], map[], map[], 0))
  {
  }

  /** Burning any existing token keeps the state consistent. */
  lemma {:induction false} BurnKeepsConsistent(s: Snapshot, id: nat)
    requires Consistent(s) && id in s.owners
    ensures Consistent(s.(owners := s.owners - {id}, count := s.count - 1))
  {
    assert |s.owners - {id}| == |s.owners| - 1;
  }

  /** Handing an existing token to another owner keeps the state consistent. */
  lemma {:induction false} TransferKeepsConsistent(s: Snapshot, id: nat, recipient: Addr)
    requires Consistent(s) && id in s.owners
    ensures Consistent(s.(owners := s.owners[id := recipient]))
  {
    assert s.owners[id := recipient].Keys == s.owners.Keys;
  }

  /** In a consistent state the next id is free: no record and no token carries it. */
  lemma NextIdFree(s: Snapshot)
    requires Consistent(s)
    ensures CountOf(s.counter) + 1 !in s.options && CountOf(s.counter) + 1 !in s.owners
  {
  }

  /**
   * The contents after a mint of `o`: the counter moves to the next id, the
   * record is stored under it and indexed for its asset, and its writer owns
   * the new token.
   */
  function Minted(s: Snapshot, o: CallOption): Snapshot
  {
    var id := CountOf(s.counter) + 1;
    Snapshot(Some(id), s.options[id := o], s.claims, s.index[(o.vault, o.assetId) := id],
             s.owners[id := o.writer], s.count + 1)
  }

  /**
   * Minting a record without bids keeps a consistent state consistent, keeps
   * every earlier option's terms, and gives the new option an id above all
   * earlier ones.
   */
  lemma {:induction false} MintKeepsConsistent(s: Snapshot, o: CallOption)
    requires Consistent(s)
    requires o.bidder.None? && !o.settled
    ensures Consistent(Minted(s, o))
    ensures TermsKept(s.options, Minted(s, o).options)
    ensures forall id :: id in s.options ==> id < CountOf(s.counter) + 1
  {
    MintKeepsCounted(s, o);
    MintKeepsIds(s, o);
    MintKeepsIndex(s, o);
    MintKeepsClaims(s, o);
    MintKeepsBids(s, o);
  }

  /**
   * A mint under the next id keeps ids within the counter and every token on
   * a stored option, and leaves every earlier option in place and below the
   * new id.
   */
  lemma MintKeepsIds(s: Snapshot, o: CallOption)
    requires IdsCounted(s) && TokensStored(s)
    ensures IdsCounted(Minted(s, o)) && TokensStored(Minted(s, o))
    ensures TermsKept(s.options, Minted(s, o).options)
    ensures forall id :: id in s.options ==> id < CountOf(s.counter) + 1
  {
    var id := CountOf(s.counter) + 1;
    assert id !in s.options;
  }

  /** A mint of an option without a bidder keeps every standing bid above its strike. */
  lemma MintKeepsBids(s: Snapshot, o: CallOption)
    requires BidsCover(s) && o.bidder.None?
    ensures BidsCover(Minted(s, o))
  {
  }

  /** A mint under the next id adds one token to the count. */
  lemma MintKeepsCounted(s: Snapshot, o: CallOption)
    requires Counted(s) && TokensStored(s) && IdsCounted(s)
    ensures Counted(Minted(s, o))
  {
    var id := CountOf(s.counter) + 1;
    assert id !in s.owners;
    assert |s.owners[id := o.writer]| == |s.owners| + 1;
  }

  /** A mint of an unsettled option under the next id leaves claims and settled options matched. */
  lemma MintKeepsClaims(s: Snapshot, o: CallOption)
    requires IdsCounted(s) && TokensStored(s) && ClaimsMatch(s)
    requires !o.settled
    ensures ClaimsMatch(Minted(s, o))
  {
    var id := CountOf(s.counter) + 1;
    assert id !in s.claims;
  }

  /** A mint under the next id leaves every index entry naming an option on its asset. */
  lemma MintKeepsIndex(s: Snapshot, o: CallOption)
    requires IdsCounted(s) && IndexSound(s)
    ensures IndexSound(Minted(s, o))
  {
    var id := CountOf(s.counter) + 1;
    var t := Minted(s, o);
    forall k | k in t.index
      ensures t.index[k] in t.options && t.options[t.index[k]].vault == k.0 && t.options[t.index[k]].assetId == k.1
    {
      if k != (o.vault, o.assetId) {
        assert k in s.index && t.index[k] == s.index[k] != id;
      }
    }
  }

  /** The fields fixed at mint are the same in both records. */
  predicate SameTerms(a: CallOption, b: CallOption)
  {
    a.assetId == b.assetId && a.writer == b.writer && a.expiration == b.expiration
    && a.vault == b.vault && a.strike == b.strike
  }

  /** No option disappears and none changes the terms it was minted with. */
  predicate TermsKept(before: map<nat, CallOption>, after: map<nat, CallOption>)
  {
    forall id :: id in before ==> id in after && SameTerms(before[id], after[id])
  }

  /** Replacing a stored option by a record with the same terms keeps every option's terms. */
  lemma UpdateKeepsTerms(m: map<nat, CallOption>, id: nat, o: CallOption)
    requires id in m && SameTerms(m[id], o)
    ensures TermsKept(m, m[id := o])
  {
  }

  /** The option a mint records: no bid, no bidder, not settled. */
  function NewOption(assetId: string, writer: Addr, expiration: Expiration, vault: Addr, strike: U128): (o: CallOption)
    ensures o.assetId == assetId && o.writer == writer && o.expiration == expiration
    ensures o.vault == vault && o.strike == strike
    ensures o.bid == 0 && o.bidder == None && !o.settled
  {
    CallOption(assetId, writer, expiration, vault, strike, 0, None, false)
  }

  /** The current contents of `store` and `tokens`. */
  function SnapOf(store: Store, tokens: Registry): Snapshot
    reads store, tokens
  {
    Snapshot(store.counter, store.options, store.claims, store.index, tokens.owners, tokens.count)
  }

  /** Discards the writes of an aborted transaction. */
  method Rollback(store: Store, tokens: Registry, s: Snapshot)
    modifies store, tokens
    ensures SnapOf(store, tokens) == s
  {
    store.counter, store.options, store.claims, store.index := s.counter, s.options, s.claims, s.index;
    tokens.owners, tokens.count := s.owners, s.count;
  }

  /** The option the index holds for the asset exists and is settled. */
  predicate PrevSettled(store: Store, vault: Addr, assetId: string)
    reads store
  {
    (vault, assetId) in store.index && store.index[(vault, assetId)] in store.options
    && store.options[store.index[(vault, assetId)]].settled
  }

  /**
   * The first check of `mint_call` that refuses the mint, in the source's
   * order, or `None`: an expiration already reached once the minimum
   * duration is added to the block time (the height is kept), an index
   * entry for the asset whose option cannot be loaded, and a previous
   * option on the asset that is settled (an unsettled one does not block).
   */
  function MintRefusal(store: Store, minDuration: nat, b: Block, vault: Addr, assetId: string, expiration: Expiration)
    : (e: Option<Error>)
    reads store
    ensures IsExpired(expiration, PlusSeconds(b, minDuration)) ==> e == Some(Std(MIN_DURATION))
    ensures !IsExpired(expiration, PlusSeconds(b, minDuration)) && PrevSettled(store, vault, assetId) ==>
              e == Some(Std(PREV_NOT_SETTLED))
    ensures e.None? <==> !IsExpired(expiration, PlusSeconds(b, minDuration)) && !PrevSettled(store, vault, assetId)
                         && ((vault, assetId) in store.index ==> store.index[(vault, assetId)] in store.options)
  {
    if IsExpired(expiration, PlusSeconds(b, minDuration)) then Some(Std(MIN_DURATION))
    else if (vault, assetId) !in store.index then None
    else
      var prev := store.Load(store.index[(vault, assetId)]);
      if prev.Err? then Some(prev.error)
      else if prev.value.settled then Some(Std(PREV_NOT_SETTLED))
      else None
  }

  /** Whether a mint is accepted: `MintRefusal` finds nothing and the `u64` counter has room. */
  predicate MintAllowed(store: Store, minDuration: nat, b: Block, vault: Addr, assetId: string, expiration: Expiration)
    reads store
  {
    MintRefusal(store, minDuration, b, vault, assetId, expiration).None? && store.Count() < MAX_U64
  }

  /**
   * The state after a mint of `record` under `id`: `id` is the counter plus
   * one, and the contents are those `Minted` describes.
   */
  twostate predicate MintedAs(store: Store, tokens: Registry, id: nat, record: CallOption)
    reads store, tokens
  {
    id == old(store.Count()) + 1 && SnapOf(store, tokens) == Minted(old(SnapOf(store, tokens)), record)
  }

  /**
   * The writes of `mint_call`: the counter is incremented, the record saved
   * under the new id, the asset's index entry overwritten with it, and an
   * option token for it created for the writer.
   */
  method Record(store: Store, tokens: Registry, record: CallOption) returns (r: Result<nat>)
    modifies store, tokens
    ensures r.Err? ==> SnapOf(store, tokens) == old(SnapOf(store, tokens))
    ensures r.Ok? <==> old(store.Count()) < MAX_U64 && old(store.Count()) + 1 !in old(tokens.owners)
    ensures r.Ok? ==> MintedAs(store, tokens, r.value, record)
  {
    var before := SnapOf(store, tokens);
    var next := store.Inc();
    if next.Err? {
      return Err(next.error);
    }
    var id := next.value;
    store.Save(id, record);
    var _ := store.UpdateVaultAssetOption(record.vault, record.assetId, id);
    var created := tokens.Create(id, record.writer);
    if created.Err? {
      Rollback(store, tokens, before);
      return Err(created.error);
    }
    r := Ok(id);
  }

  /**
   * `mint_call`: after the checks of `MintRefusal`, records a new option
   * without bids under the counter plus one.
   */
  method MintCall(store: Store, tokens: Registry, minDuration: nat, b: Block, writer: Addr, vault: Addr,
                  assetId: string, strike: U128, expiration: Expiration)
    returns (r: Result<nat>)
    modifies store, tokens
    ensures old(Consistent(SnapOf(store, tokens))) ==> Consistent(SnapOf(store, tokens))
    ensures old(Consistent(SnapOf(store, tokens))) ==> TermsKept(old(store.options), store.options)
    ensures r.Err? ==> SnapOf(store, tokens) == old(SnapOf(store, tokens))
    ensures old(MintRefusal(store, minDuration, b, vault, assetId, expiration)).Some? ==>
              r == Err(old(MintRefusal(store, minDuration, b, vault, assetId, expiration)).value)
    ensures r.Ok? <==> old(MintAllowed(store, minDuration, b, vault, assetId, expiration))
                       && old(store.Count()) + 1 !in old(tokens.owners)
    ensures old(Consistent(SnapOf(store, tokens))) ==>
              (r.Ok? <==> old(MintAllowed(store, minDuration, b, vault, assetId, expiration)))
    ensures r.Ok? ==> MintedAs(store, tokens, r.value, NewOption(assetId, writer, expiration, vault, strike))
    ensures r.Ok? && old(Consistent(SnapOf(store, tokens))) ==> forall id :: id in old(store.options) ==> id < r.value
  {
    ghost var before := SnapOf(store, tokens);
    var refusal := MintRefusal(store, minDuration, b, vault, assetId, expiration);
    if refusal.Some? {
      return Err(refusal.value);
    }
    var record := NewOption(assetId, writer, expiration, vault, strike);
    r := Record(store, tokens, record);
    if Consistent(before) {
      NextIdFree(before);
      if r.Ok? {
        MintKeepsConsistent(before, record);
      }
    }
  }
}
