/**
 * The protocol contract: it holds the addresses of the vault factory and the
 * call factory, which only its owner may change, and a pause deadline that
 * the contract itself or a holder of the pauser role may set.
 */
module Protocol {
  import opened Common

  datatype Config = Config(vaultFactory: Addr, optionFactory: Addr)

  /**
   * `Config::update`: a field given as `Some` replaces the stored one, a
   * `None` keeps it.
   */
  function Updated(c: Config, newVaultFactory: Option<Addr>, newOptionFactory: Option<Addr>): (u: Config)
    ensures newVaultFactory.Some? ==> u.vaultFactory == newVaultFactory.value
    ensures newVaultFactory.None? ==> u.vaultFactory == c.vaultFactory
    ensures newOptionFactory.Some? ==> u.optionFactory == newOptionFactory.value
    ensures newOptionFactory.None? ==> u.optionFactory == c.optionFactory
  {
    Config(if newVaultFactory.Some? then newVaultFactory.value else c.vaultFactory,
           if newOptionFactory.Some? then newOptionFactory.value else c.optionFactory)
  }

  /** The two addresses update independently of each other. */
  lemma UpdatesAreIndependent(c: Config, v: Option<Addr>, o: Option<Addr>)
    ensures Updated(c, v, o).vaultFactory == Updated(c, v, None).vaultFactory
    ensures Updated(c, v, o).optionFactory == Updated(c, None, o).optionFactory
    ensures Updated(Updated(c, v, None), None, o) == Updated(c, v, o)
    ensures Updated(Updated(c, None, o), v, None) == Updated(c, v, o)
  {
  }

  datatype ExecuteMsg =
    | Pause(duration: Duration)
    | SetVaultFactory(contractAddr: Addr)
    | SetCallFactory(contractAddr: Addr)

  class ProtocolContract {
    /** The contract's own address. */
    const address: Addr
    /** The `cw_ownable` owner; no handler changes it. */
    const owner: Addr
    /** `CONFIG`. */
    var config: Config
    /** Holders of the `admins` role. */
    var admins: set<Addr>
    /** Holders of the `pausers` role; no handler of the contract grants it. */
    var pausers: set<Addr>
    /** `PAUSED`: when the protocol unpauses, absent until the first pause. */
    var paused: Option<Expiration>

    /**
     * `instantiate`: a default config (both addresses empty), the message's
     * owner or else the sender as owner, and that owner as the only admin.
     */
    constructor (address: Addr, sender: Addr, msgOwner: Option<Addr>)
      ensures this.address == address && owner == InitialOwner(msgOwner, sender)
      ensures config == Config("", "") && admins == {owner} && pausers == {} && paused == None
    {
      this.address := address;
      owner := InitialOwner(msgOwner, sender);
      config := Config("", "");
      admins := {InitialOwner(msgOwner, sender)};
      pausers := {};
      paused := None;
    }

    /** `Config::update` on the stored config: the option factory first, then the vault factory. */
    method UpdateConfig(newVaultFactory: Option<Addr>, newOptionFactory: Option<Addr>)
      modifies this`config
      ensures config == Updated(old(config), newVaultFactory, newOptionFactory)
    {
      var c := config;
      c := c.(optionFactory := if newOptionFactory.Some? then newOptionFactory.value else c.optionFactory);
      c := c.(vaultFactory := if newVaultFactory.Some? then newVaultFactory.value else c.vaultFactory);
      config := c;
    }

    /** `set_vault_factory`: owner only; changes the vault factory address alone. */
    method SetVaultFactory(sender: Addr, contractAddr: Addr) returns (r: Result<()>)
      modifies this`config
      ensures r.Ok? <==> sender == owner
      ensures r.Err? ==> r.error == NotOwner && unchanged(this)
      ensures r.Ok? ==> config == old(config).(vaultFactory := contractAddr)
    {
      if sender != owner {
        return Err(NotOwner);
      }
      UpdateConfig(Some(contractAddr), None);
      r := Ok(());
    }

    /** `set_call_factory`: owner only; changes the call factory address alone. */
    method SetCallFactory(sender: Addr, contractAddr: Addr) returns (r: Result<()>)
      modifies this`config
      ensures r.Ok? <==> sender == owner
      ensures r.Err? ==> r.error == NotOwner && unchanged(this)
      ensures r.Ok? ==> config == old(config).(optionFactory := contractAddr)
    {
      if sender != owner {
        return Err(NotOwner);
      }
      UpdateConfig(None, Some(contractAddr));
      r := Ok(());
    }

    /**
     * `pause`: the contract itself, or else a pauser, sets the unpause moment
     * to the duration past the current block, replacing any earlier one.
     */
    method PauseFor(b: Block, sender: Addr, duration: Duration) returns (r: Result<()>)
      modifies this`paused
      ensures r.Ok? <==> sender == address || sender in pausers
      ensures r.Err? ==> r.error == MissingRole && unchanged(this)
      ensures r.Ok? ==> paused == Some(After(duration, b))
    {
      if sender != address && sender !in pausers {
        return Err(MissingRole);
      }
      var until := After(duration, b);
      paused := Some(until);
      r := Ok(());
    }

    /** `execute`: each message goes to its handler. */
    method Execute(b: Block, sender: Addr, msg: ExecuteMsg) returns (r: Result<()>)
      modifies this`config, this`paused
      ensures r.Err? ==> unchanged(this)
      ensures msg.Pause? ==> (r.Ok? <==> sender == address || sender in pausers) && config == old(config)
      ensures msg.Pause? && r.Ok? ==> paused == Some(After(msg.duration, b))
      ensures msg.Pause? && r.Err? ==> r.error == MissingRole
      ensures !msg.Pause? && r.Err? ==> r.error == NotOwner
      ensures !msg.Pause? ==> (r.Ok? <==> sender == owner) && paused == old(paused)
      ensures msg.SetVaultFactory? && r.Ok? ==> config == old(config).(vaultFactory := msg.contractAddr)
      ensures msg.SetCallFactory? && r.Ok? ==> config == old(config).(optionFactory := msg.contractAddr)
    {
      match msg
      case Pause(duration) =>
        r := PauseFor(b, sender, duration);
      case SetVaultFactory(contractAddr) =>
        r := SetVaultFactory(sender, contractAddr);
      case SetCallFactory(contractAddr) =>
        r := SetCallFactory(sender, contractAddr);
    }

    /** `query` `Config`: the stored config. */
    function QueryConfig(): (c: Config)
      reads this
      ensures c == config
    {
      config
    }
  }

  /**
   * Setting the call factory and then the vault factory, both by the owner,
   * leaves exactly those two addresses in the config.
   */
  method SetBothFactories(p: ProtocolContract, callFactory: Addr, vaultFactory: Addr)
    returns (first: Result<()>, second: Result<()>)
    modifies p
    ensures first.Ok? && second.Ok?
    ensures p.config == Config(vaultFactory, callFactory)
  {
    first := p.SetCallFactory(p.owner, callFactory);
    second := p.SetVaultFactory(p.owner, vaultFactory);
  }
}
