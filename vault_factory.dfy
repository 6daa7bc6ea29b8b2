/**
 * The vault factory: the registry of multi-asset vaults (one per NFT
 * collection) and solo vaults (one per collection and token id). Making a
 * vault only records the pending request in a single slot and returns an
 * instantiate submessage; the vault is registered when the instantiation's
 * reply arrives.
 */
module VaultFactory {
  import opened Common

  /** Reply ids of the two instantiate submessages. */
  const MULTI_VAULT_REPLY_ID: nat := 1
  const SOLO_VAULT_REPLY_ID: nat := 2

  const MULTI_EXISTS := "make_multi_vault - vault already exist"
  const SOLO_EXISTS := "make_solo_vault - vault already exist"
  const SOLO_NEEDS_ID := "make_solo_vault - nft_id must be Some"
  const MULTI_LABEL := "Interchainnft-options multi vault"
  const SOLO_LABEL := "Interchainnft-options solo vault"

  datatype Config = Config(protocol: Addr, vaultCodeId: nat)

  /** `TmpVaultInfo`: the collection (and token, for a solo vault) awaiting its reply. */
  datatype TmpVault = TmpVault(nftAddr: Addr, nftId: Option<string>)

  /**
   * A vault instantiate message sent as a submessage that replies on
   * success under `replyId`.
   */
  datatype SubMsg = InstantiateVault(
    codeId: nat, nftAddr: Addr, nftId: Option<string>, protocol: Addr, vaultLabel: string, replyId: nat)

  datatype ExecuteMsg =
    | MakeMultiVault(nftAddr: Addr)
    | MakeSoloVault(nftAddr: Addr, nftId: string)

  datatype QueryMsg =
    | GetVault(nftAddr: Addr, nftId: string)
    | GetMultiVault(nftAddr: Addr)
    | GetMultiOrSoloVault(nftAddr: Addr, maybeId: Option<string>)

  class Factory {
    /** The `cw_ownable` owner; no handler of the factory changes it. */
    const owner: Addr
    const config: Config
    /** `MULTI_VAULTS`, keyed by collection. */
    var multi: map<Addr, Addr>
    /** `SOLO_VAULTS`, keyed by collection and token id. */
    var solo: map<(Addr, string), Addr>
    /** `TMP_VAULT`: absent until the first make call. */
    var tmp: Option<TmpVault>

    /** `instantiate`: the message's owner when given, else the sender, owns the factory. */
    constructor (sender: Addr, msgOwner: Option<Addr>, config: Config)
      ensures owner == InitialOwner(msgOwner, sender) && this.config == config
      ensures multi == map[] && solo == map[] && tmp == None
    {
      owner := InitialOwner(msgOwner, sender);
      this.config := config;
      multi := map[];
      solo := map[];
      tmp := None;
    }

    /**
     * `make_multi_vault`: owner only, refused when the collection already has
     * a multi vault. It writes only the pending slot.
     */
    method MakeMultiVault(sender: Addr, nftAddr: Addr) returns (r: Result<seq<SubMsg>>)
      modifies this`tmp
      ensures sender != owner ==> r == Err(NotOwner)
      ensures sender == owner && nftAddr in multi ==> r == Err(Std(MULTI_EXISTS))
      ensures r.Ok? <==> sender == owner && nftAddr !in multi
      ensures r.Err? ==> unchanged(this)
      ensures r.Ok? ==> tmp == Some(TmpVault(nftAddr, None))
      ensures r.Ok? ==> r.value == [InstantiateVault(config.vaultCodeId, nftAddr, None, config.protocol, MULTI_LABEL, MULTI_VAULT_REPLY_ID)]
    {
      if sender != owner {
        return Err(NotOwner);
      }
      var instantiate := InstantiateVault(config.vaultCodeId, nftAddr, None, config.protocol, MULTI_LABEL, MULTI_VAULT_REPLY_ID);
      if nftAddr in multi {
        return Err(Std(MULTI_EXISTS));
      }
      tmp := Some(TmpVault(nftAddr, None));
      r := Ok([instantiate]);
    }

    /**
     * `make_solo_vault`: owner only, refused when the collection and token
     * already have a solo vault. It writes only the pending slot.
     */
    method MakeSoloVault(sender: Addr, nftAddr: Addr, nftId: string) returns (r: Result<seq<SubMsg>>)
      modifies this`tmp
      ensures sender != owner ==> r == Err(NotOwner)
      ensures sender == owner && (nftAddr, nftId) in solo ==> r == Err(Std(SOLO_EXISTS))
      ensures r.Ok? <==> sender == owner && (nftAddr, nftId) !in solo
      ensures r.Err? ==> unchanged(this)
      ensures r.Ok? ==> tmp == Some(TmpVault(nftAddr, Some(nftId)))
      ensures r.Ok? ==> r.value == [InstantiateVault(config.vaultCodeId, nftAddr, Some(nftId), config.protocol, SOLO_LABEL, SOLO_VAULT_REPLY_ID)]
    {
      if sender != owner {
        return Err(NotOwner);
      }
      var instantiate := InstantiateVault(config.vaultCodeId, nftAddr, Some(nftId), config.protocol, SOLO_LABEL, SOLO_VAULT_REPLY_ID);
      if (nftAddr, nftId) in solo {
        return Err(Std(SOLO_EXISTS));
      }
      tmp := Some(TmpVault(nftAddr, Some(nftId)));
      r := Ok([instantiate]);
    }

    /**
     * `reply`: registers the vault the pending slot asked for. `created` is
     * the address parsed from the instantiation result, `None` when it does
     * not parse. The pending slot is left in place.
     */
    method Reply(id: nat, created: Option<Addr>) returns (r: Result<()>)
      modifies this`multi, this`solo
      ensures r.Err? ==> unchanged(this)
      ensures id != MULTI_VAULT_REPLY_ID && id != SOLO_VAULT_REPLY_ID ==> r == Err(UnknownReplyId)
      ensures (id == MULTI_VAULT_REPLY_ID || id == SOLO_VAULT_REPLY_ID) && tmp.None? ==> r == Err(NotFound("TmpVaultInfo"))
      ensures id == MULTI_VAULT_REPLY_ID && tmp.Some? && tmp.value.nftAddr in old(multi) ==> r == Err(Std(MULTI_EXISTS))
      ensures id == SOLO_VAULT_REPLY_ID && tmp.Some? && tmp.value.nftId.None? ==> r == Err(Std(SOLO_NEEDS_ID))
      ensures (id == SOLO_VAULT_REPLY_ID && tmp.Some? && tmp.value.nftId.Some?
               && (tmp.value.nftAddr, tmp.value.nftId.value) in old(solo)) ==> r == Err(Std(SOLO_EXISTS))
      ensures created.None? ==> r.Err?
      ensures id == MULTI_VAULT_REPLY_ID && tmp.Some? && tmp.value.nftAddr !in old(multi) && created.None? ==>
                r == Err(ParseReply)
      ensures (id == SOLO_VAULT_REPLY_ID && tmp.Some? && tmp.value.nftId.Some?
               && (tmp.value.nftAddr, tmp.value.nftId.value) !in old(solo) && created.None?) ==> r == Err(ParseReply)
      ensures r.Ok? <==> tmp.Some? && created.Some? &&
                         ((id == MULTI_VAULT_REPLY_ID && tmp.value.nftAddr !in old(multi)) ||
                          (id == SOLO_VAULT_REPLY_ID && tmp.value.nftId.Some?
                           && (tmp.value.nftAddr, tmp.value.nftId.value) !in old(solo)))
      ensures r.Ok? && id == MULTI_VAULT_REPLY_ID ==>
                multi == old(multi)[tmp.value.nftAddr := created.value] && solo == old(solo)
      ensures r.Ok? && id == SOLO_VAULT_REPLY_ID ==>
                solo == old(solo)[(tmp.value.nftAddr, tmp.value.nftId.value) := created.value] && multi == old(multi)
    {
      if id == MULTI_VAULT_REPLY_ID {
        if tmp.None? {
          return Err(NotFound("TmpVaultInfo"));
        }
        var pending := tmp.value;
        if pending.nftAddr in multi {
          return Err(Std(MULTI_EXISTS));
        }
        if created.None? {
          return Err(ParseReply);
        }
        multi := multi[pending.nftAddr := created.value];
        r := Ok(());
      } else if id == SOLO_VAULT_REPLY_ID {
        if tmp.None? {
          return Err(NotFound("TmpVaultInfo"));
        }
        var pending := tmp.value;
        match pending.nftId {
          case Some(nftId) =>
            if (pending.nftAddr, nftId) in solo {
              return Err(Std(SOLO_EXISTS));
            }
            if created.None? {
              return Err(ParseReply);
            }
            solo := solo[(pending.nftAddr, nftId) := created.value];
            r := Ok(());
          case None =>
            r := Err(Std(SOLO_NEEDS_ID));
        }
      } else {
        r := Err(UnknownReplyId);
      }
    }

    /** `execute`: each message goes to its make handler. */
    method Execute(sender: Addr, msg: ExecuteMsg) returns (r: Result<seq<SubMsg>>)
      modifies this`tmp
      ensures r.Err? ==> unchanged(this)
      ensures msg.MakeMultiVault? ==>
                (sender != owner ==> r == Err(NotOwner))
                && (sender == owner && msg.nftAddr in multi ==> r == Err(Std(MULTI_EXISTS)))
                && (r.Ok? <==> sender == owner && msg.nftAddr !in multi)
                && (r.Ok? ==> tmp == Some(TmpVault(msg.nftAddr, None))
                              && r.value == [InstantiateVault(config.vaultCodeId, msg.nftAddr, None, config.protocol,
                                                              MULTI_LABEL, MULTI_VAULT_REPLY_ID)])
      ensures msg.MakeSoloVault? ==>
                (sender != owner ==> r == Err(NotOwner))
                && (sender == owner && (msg.nftAddr, msg.nftId) in solo ==> r == Err(Std(SOLO_EXISTS)))
                && (r.Ok? <==> sender == owner && (msg.nftAddr, msg.nftId) !in solo)
                && (r.Ok? ==> tmp == Some(TmpVault(msg.nftAddr, Some(msg.nftId)))
                              && r.value == [InstantiateVault(config.vaultCodeId, msg.nftAddr, Some(msg.nftId), config.protocol,
                                                              SOLO_LABEL, SOLO_VAULT_REPLY_ID)])
    {
      match msg
      case MakeMultiVault(nftAddr) =>
        r := MakeMultiVault(sender, nftAddr);
      case MakeSoloVault(nftAddr, nftId) =>
        r := MakeSoloVault(sender, nftAddr, nftId);
    }

    /** `get_vault`: the solo vault of a collection's token, if registered. */
    function GetVaultQuery(nftAddr: Addr, nftId: string): (r: Option<Addr>)
      reads this
      ensures r.Some? <==> (nftAddr, nftId) in solo
      ensures r.Some? ==> r.value == solo[(nftAddr, nftId)]
    {
      if (nftAddr, nftId) in solo then Some(solo[(nftAddr, nftId)]) else None
    }

    /** `get_multi_vault`: the collection's multi vault, if registered. */
    function GetMultiVaultQuery(nftAddr: Addr): (r: Option<Addr>)
      reads this
      ensures r.Some? <==> nftAddr in multi
      ensures r.Some? ==> r.value == multi[nftAddr]
    {
      if nftAddr in multi then Some(multi[nftAddr]) else None
    }

    /**
     * `get_multi_or_solo_vault`: a registered multi vault wins; the solo
     * vault is consulted only without one and only when a token id is given.
     */
    function GetMultiOrSoloVaultQuery(nftAddr: Addr, maybeId: Option<string>): (r: Option<Addr>)
      reads this
      ensures nftAddr in multi ==> r == Some(multi[nftAddr])
      ensures nftAddr !in multi && maybeId.None? ==> r == None
      ensures nftAddr !in multi && maybeId.Some? ==>
                (r.Some? <==> (nftAddr, maybeId.value) in solo) &&
                (r.Some? ==> r.value == solo[(nftAddr, maybeId.value)])
    {
      var found := GetMultiVaultQuery(nftAddr);
      if found.None? && maybeId.Some? then GetVaultQuery(nftAddr, maybeId.value) else found
    }

    /** `query`: each message is answered by its lookup. */
    function Query(q: QueryMsg): (r: Option<Addr>)
      reads this
      ensures q.GetVault? ==> (r.Some? <==> (q.nftAddr, q.nftId) in solo)
      ensures q.GetMultiVault? ==> (r.Some? <==> q.nftAddr in multi)
      ensures q.GetMultiOrSoloVault? && q.nftAddr in multi ==> r == Some(multi[q.nftAddr])
      ensures q.GetMultiOrSoloVault? && q.nftAddr !in multi ==>
                (r.Some? <==> q.maybeId.Some? && (q.nftAddr, q.maybeId.value) in solo)
    {
      match q
      case GetVault(nftAddr, nftId) => GetVaultQuery(nftAddr, nftId)
      case GetMultiVault(nftAddr) => GetMultiVaultQuery(nftAddr)
      case GetMultiOrSoloVault(nftAddr, maybeId) => GetMultiOrSoloVaultQuery(nftAddr, maybeId)
    }
  }

  /**
   * The make-then-reply handshake: the owner's request for a collection
   * without a multi vault, answered by a successful instantiation, leaves
   * that vault registered and found by the combined lookup.
   */
  method MakeMultiThenReply(f: Factory, sender: Addr, nftAddr: Addr, created: Addr)
    returns (made: Result<seq<SubMsg>>, replied: Result<()>)
    modifies f
    ensures made.Ok? <==> sender == f.owner && nftAddr !in old(f.multi)
    ensures made.Ok? ==> replied.Ok? && f.multi == old(f.multi)[nftAddr := created]
    ensures made.Ok? ==> f.GetMultiOrSoloVaultQuery(nftAddr, None) == Some(created)
  {
    made := f.MakeMultiVault(sender, nftAddr);
    if made.Err? {
      return made, Err(made.error);
    }
    replied := f.Reply(made.value[0].replyId, Some(created));
  }

  /**
   * The same handshake for a solo vault; a multi vault registered for the
   * collection still shadows it in the combined lookup.
   */
  method MakeSoloThenReply(f: Factory, sender: Addr, nftAddr: Addr, nftId: string, created: Addr)
    returns (made: Result<seq<SubMsg>>, replied: Result<()>)
    modifies f
    ensures made.Ok? <==> sender == f.owner && (nftAddr, nftId) !in old(f.solo)
    ensures made.Ok? ==> replied.Ok? && f.solo == old(f.solo)[(nftAddr, nftId) := created]
    ensures made.Ok? && nftAddr !in f.multi ==> f.GetMultiOrSoloVaultQuery(nftAddr, Some(nftId)) == Some(created)
    ensures made.Ok? && nftAddr in f.multi ==> f.GetMultiOrSoloVaultQuery(nftAddr, Some(nftId)) == Some(f.multi[nftAddr])
  {
    made := f.MakeSoloVault(sender, nftAddr, nftId);
    if made.Err? {
      return made, Err(made.error);
    }
    replied := f.Reply(made.value[0].replyId, Some(created));
  }
}
