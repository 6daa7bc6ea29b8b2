/**
 * The option-token registry (the cw721 state embedded in each option
 * contract): an owner per token id, a token count, creation, the owner
 * query, and the cw721 `burn` and `transfer_nft` that the option contract
 * both calls itself and exposes to token holders. A token id is the option
 * id. Burning and transferring are checked against the caller, who must own
 * the token; the registry's approvals and operators, which would let others
 * act for the owner, and its minter check are not part of this model.
 */
module Tokens {
  import opened Common

  class Registry {
    /** Owner of every existing token. */
    var owners: map<nat, Addr>
    /** `token_count`. */
    var count: nat

    ghost predicate Valid()
      reads this
    {
      count == |owners|
    }

    constructor ()
      ensures Valid() && owners == map[] && count == 0
    {
      owners := map[];
      count := 0;
    }

    /** `owner_of`: the owner of an existing token; a missing token is an error. */
    function OwnerOf(id: nat): (r: Result<Addr>)
      reads this
      ensures r.Ok? <==> id in owners
      ensures r.Ok? ==> r.value == owners[id]
      ensures r.Err? ==> r.error == NotFound("token")
    {
      if id in owners then Ok(owners[id]) else Err(NotFound("token"))
    }

    /**
     * Creates a token owned by `owner`, failing with `Claimed` when the id is
     * already taken, and increments the token count.
     */
    method Create(id: nat, owner: Addr) returns (r: Result<()>)
      modifies this
      ensures old(Valid()) ==> Valid()
      ensures r.Ok? <==> id !in old(owners)
      ensures r.Err? ==> r.error == Claimed && unchanged(this)
      ensures r.Ok? ==> owners == old(owners)[id := owner] && count == old(count) + 1
    {
      if id in owners {
        return Err(Claimed);
      }
      owners := owners[id := owner];
      count := count + 1;
      r := Ok(());
    }

    /**
     * `burn`: the token's owner burns an existing token, decrementing the
     * token count. A missing token and a caller other than the owner are
     * errors, and decrementing a zero count panics.
     */
    method Burn(sender: Addr, id: nat) returns (r: Result<()>)
      modifies this
      ensures old(Valid()) ==> Valid()
      ensures r.Ok? <==> id in old(owners) && old(owners)[id] == sender && old(count) > 0
      ensures old(Valid()) ==> (r.Ok? <==> id in old(owners) && old(owners)[id] == sender)
      ensures id !in old(owners) ==> r == Err(NotFound("token"))
      ensures id in old(owners) && old(owners)[id] != sender ==> r == Err(NotOwner)
      ensures r.Err? ==> unchanged(this)
      ensures r.Ok? ==> owners == old(owners) - {id} && count == old(count) - 1
    {
      if id !in owners {
        return Err(NotFound("token"));
      }
      if owners[id] != sender {
        return Err(NotOwner);
      }
      if count == 0 {
        return Err(Panic(SUB_OVERFLOW));
      }
      owners := owners - {id};
      count := count - 1;
      r := Ok(());
    }

    /**
     * `transfer_nft`: the token's owner hands an existing token to
     * `recipient`; the token count is unchanged.
     */
    method Transfer(sender: Addr, recipient: Addr, id: nat) returns (r: Result<()>)
      modifies this
      ensures old(Valid()) ==> Valid()
      ensures r.Ok? <==> id in old(owners) && old(owners)[id] == sender
      ensures id !in old(owners) ==> r == Err(NotFound("token"))
      ensures id in old(owners) && old(owners)[id] != sender ==> r == Err(NotOwner)
      ensures r.Err? ==> unchanged(this)
      ensures r.Ok? ==> owners == old(owners)[id := recipient] && count == old(count)
    {
      if id !in owners {
        return Err(NotFound("token"));
      }
      if owners[id] != sender {
        return Err(NotOwner);
      }
      owners := owners[id := recipient];
      r := Ok(());
    }
  }
}
