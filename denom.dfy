/**
 * Coins and the denomination helpers: picking the first attached coin of a
 * denomination, checking that every attached coin is of an allowed
 * denomination, and building the one-coin amount a bank send carries.
 */
module Denom {
  import opened Common

  /** `cosmwasm_std::Coin`. */
  datatype Coin = Coin(denom: string, amount: U128)

  /**
   * `find_allowed_coin`: the first coin whose denomination is `denom`, or
   * `None` when no coin has it.
   */
  function FindAllowedCoin(coins: seq<Coin>, denom: string): (r: Option<Coin>)
    ensures r.None? <==> forall i :: 0 <= i < |coins| ==> coins[i].denom != denom
    ensures r.Some? ==> exists k :: 0 <= k < |coins| && coins[k] == r.value
                                    && (forall i :: 0 <= i < k ==> coins[i].denom != denom)
    ensures r.Some? ==> r.value.denom == denom
  {
    if |coins| == 0 then None
    else if coins[0].denom == denom then Some(coins[0])
    else
      var rest := FindAllowedCoin(coins[1..], denom);
      assert rest.Some? ==> exists k :: 0 <= k < |coins[1..]| && coins[1..][k] == rest.value
                                        && (forall i :: 0 <= i < k ==> coins[1..][i].denom != denom);
      assert rest.Some? ==> exists k :: 0 <= k < |coins| && coins[k] == rest.value
                                        && (forall i :: 0 <= i < k ==> coins[i].denom != denom) by {
        if rest.Some? {
          var k :| 0 <= k < |coins[1..]| && coins[1..][k] == rest.value
                   && (forall i :: 0 <= i < k ==> coins[1..][i].denom != denom);
          assert coins[k + 1] == rest.value;
          assert forall i :: 0 <= i < k + 1 ==> coins[i].denom != denom by {
            forall i | 0 <= i < k + 1 ensures coins[i].denom != denom {
              if i > 0 { assert coins[i] == coins[1..][i - 1]; }
            }
          }
        }
      }
      rest
  }

  /**
   * `has_allowed_denoms`: every coin's denomination is one of `denoms`
   * (so an empty coin list passes).
   */
  function HasAllowedDenoms(coins: seq<Coin>, denoms: seq<string>): (r: bool)
    ensures r <==> forall i :: 0 <= i < |coins| ==> coins[i].denom in denoms
  {
    if |coins| == 0 then true
    else
      var rest := HasAllowedDenoms(coins[1..], denoms);
      assert rest <==> forall i :: 1 <= i < |coins| ==> coins[i].denom in denoms by {
        assert forall i :: 1 <= i < |coins| ==> coins[i] == coins[1..][i - 1];
      }
      coins[0].denom in denoms && rest
  }

  /** `Denom::coins`: the single coin of this denomination and amount. */
  function Coins(denom: string, amount: U128): (r: seq<Coin>)
    ensures |r| == 1 && r[0].denom == denom && r[0].amount == amount
  {
    [Coin(denom, amount)]
  }

  /**
   * When every coin has an allowed denomination and `denom` is the only one
   * allowed, the coin `find_allowed_coin` picks is the first coin.
   */
  lemma {:induction false} SoleDenomPicksFirst(coins: seq<Coin>, denom: string)
    requires |coins| > 0
    requires HasAllowedDenoms(coins, [denom])
    ensures FindAllowedCoin(coins, denom) == Some(coins[0])
  {
    assert coins[0].denom in [denom];
  }
}
