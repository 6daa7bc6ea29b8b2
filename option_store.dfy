/**
 * Storage of the option contracts: the option-id counter, the option records,
 * the claims a holder can collect after someone else settled, and the index
 * from a vaulted asset to the latest option written on it, with the
 * load, save, update, count, inc, dec and index-update accessors.
 */
module OptionStore {
  import opened Common

  /** One covered call option. `bidder` is the current high bidder. */
  datatype CallOption = CallOption(
    assetId: string,
    writer: Addr,
    expiration: Expiration,
    vault: Addr,
    strike: U128,
    bid: U128,
    bidder: Option<Addr>,
    settled: bool)

  /** The value `count` reads from the counter: 0 when it was never stored. */
  function CountOf(counter: Option<nat>): (n: nat)
    ensures counter.None? ==> n == 0
    ensures counter.Some? ==> n == counter.value
  {
    if counter.Some? then counter.value else 0
  }

  class Store {
    /** `CALL_OPTIONS_COUNT`: absent until the first `inc`. */
    var counter: Option<nat>
    /** `CALL_OPTIONS`. */
    var options: map<nat, CallOption>
    /** `OPTION_CLAIMS`. */
    var claims: map<nat, U128>
    /** `VAULT_ASSET_OPTION`, keyed by (vault, asset id). */
    var index: map<(Addr, string), nat>

    constructor ()
      ensures counter == None && options == map[] && claims == map[] && index == map[]
    {
      counter := None;
      options := map[];
      claims := map[];
      index := map[];
    }

    /** `count`: the stored counter, 0 when it was never stored. */
    function Count(): nat
      reads this
    {
      CountOf(counter)
    }

    /** `load`: the record saved under `id`; an absent record is an error. */
    function Load(id: nat): (r: Result<CallOption>)
      reads this
      ensures r.Ok? <==> id in options
      ensures r.Ok? ==> r.value == options[id]
      ensures r.Err? ==> r.error == NotFound("call option")
    {
      if id in options then Ok(options[id]) else Err(NotFound("call option"))
    }

    /** The claim stored for `id`; an absent claim is an error. */
    function LoadClaim(id: nat): (r: Result<U128>)
      reads this
      ensures r.Ok? <==> id in claims
      ensures r.Ok? ==> r.value == claims[id]
      ensures r.Err? ==> r.error == NotFound("option claim")
    {
      if id in claims then Ok(claims[id]) else Err(NotFound("option claim"))
    }

    /**
     * `inc`: stores and returns the counter plus one. The counter is a `u64`,
     * so incrementing its largest value panics.
     */
    method Inc() returns (r: Result<nat>)
      modifies this`counter
      ensures old(Count()) < MAX_U64 ==> r == Ok(old(Count()) + 1) && counter == Some(old(Count()) + 1)
      ensures old(Count()) >= MAX_U64 ==> r.Err? && unchanged(this)
    {
      var n := Count();
      if n + 1 > MAX_U64 {
        return Err(Panic(ADD_OVERFLOW));
      }
      counter := Some(n + 1);
      r := Ok(n + 1);
    }

    /**
     * `dec`: stores and returns the counter minus one. Decrementing zero is
     * a `u64` underflow and panics.
     */
    method Dec() returns (r: Result<nat>)
      modifies this`counter
      ensures old(Count()) > 0 ==> r == Ok(old(Count()) - 1) && counter == Some(old(Count()) - 1)
      ensures old(Count()) == 0 ==> r.Err? && unchanged(this)
    {
      var n := Count();
      if n == 0 {
        return Err(Panic(SUB_OVERFLOW));
      }
      counter := Some(n - 1);
      r := Ok(n - 1);
    }

    /** `save`: inserts or overwrites the record under `id`. */
    method Save(id: nat, o: CallOption)
      modifies this`options
      ensures options == old(options)[id := o]
      ensures Load(id) == Ok(o)
    {
      options := options[id := o];
    }

    /** `update`: replaces an existing record; an absent one is an error. */
    method Update(id: nat, o: CallOption) returns (r: Result<()>)
      modifies this`options
      ensures r.Ok? <==> id in old(options)
      ensures r.Err? ==> r.error == Std("updated option not found") && unchanged(this)
      ensures r.Ok? ==> options == old(options)[id := o]
    {
      if id !in options {
        return Err(Std("updated option not found"));
      }
      options := options[id := o];
      r := Ok(());
    }

    /** `update_vault_asset_option`: points the asset's index entry at `id`. */
    method UpdateVaultAssetOption(vault: Addr, assetId: string, id: nat) returns (r: nat)
      modifies this`index
      ensures index == old(index)[(vault, assetId) := id]
      ensures r == id
    {
      index := index[(vault, assetId) := id];
      r := id;
    }

    /** Stores the amount the token holder may claim for `id`. */
    method SaveClaim(id: nat, amount: U128)
      modifies this`claims
      ensures claims == old(claims)[id := amount]
    {
      claims := claims[id := amount];
    }

    /** Removes the claim for `id`, if any. */
    method RemoveClaim(id: nat)
      modifies this`claims
      ensures claims == old(claims) - {id}
    {
      claims := claims - {id};
    }
  }

  /** `inc` followed by `dec` restores the counter value. */
  method IncThenDecRestores(s: Store) returns (up: Result<nat>, down: Result<nat>)
    modifies s`counter
    ensures old(s.Count()) < MAX_U64 ==> up.Ok? && down == Ok(old(s.Count())) && s.Count() == old(s.Count())
  {
    up := s.Inc();
    down := s.Dec();
  }
}
