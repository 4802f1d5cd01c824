/**
 * mobile/graviton.go: the node configuration of the mobile bindings, its
 * defaults, and the defaulting and Sophon service settings NewNode derives
 * from it.
 *
 * The bootstrap node list (an *Enodes) is held by value; a nil list is
 * None. The JSON genesis decoder is a parameter, and so are the testnet
 * genesis text, the testnet chain configuration and sof.DefaultConfig.
 */
module MobileGraviton {
  import opened Wrappers
  import opened CoreTypes
  import opened SofConfig

  /** Go's int64. */
  const Int64Bound: int := 0x8000_0000_0000_0000
  type Int64 = x: int | -Int64Bound <= x < Int64Bound

  /** The conversion uint64(x) of an int64: two's complement reinterpretation. */
  function Uint64OfInt64(x: Int64): (r: Uint64)
    ensures x >= 0 ==> r == x
    ensures x < 0 ==> r == x + Uint64Bound
    ensures r == x % Uint64Bound
  {
    if x >= 0 then x else x + Uint64Bound
  }

  /** The defaults of defaultNodeConfig besides the bootstrap nodes. */
  const DefaultMaxPeers: int := 25
  const DefaultNetworkId: Int64 := 1
  const DefaultDatabaseCache: int := 16
  /** The network ID NewNode substitutes on the testnet. */
  const TestnetNetworkId: Int64 := 3

  class NodeConfig {
    var bootstrapNodes: Option<seq<string>>
    var maxPeers: int
    var sophonEnabled: bool
    var sophonNetworkId: Int64
    var sophonGenesis: string
    var sophonDatabaseCache: int
    var sophonNetStats: string
    var whisperEnabled: bool
    var pprofAddress: string

    /** defaultNodeConfig: the foundation bootnodes, 25 peers, Sophon on network 1 with a 16 MB cache. */
    constructor Default(foundationBootnodes: seq<string>)
      ensures bootstrapNodes == Some(foundationBootnodes) && maxPeers == DefaultMaxPeers
      ensures sophonEnabled && sophonNetworkId == DefaultNetworkId && sophonDatabaseCache == DefaultDatabaseCache
      ensures sophonGenesis == "" && sophonNetStats == "" && !whisperEnabled && pprofAddress == ""
    {
      bootstrapNodes := Some(foundationBootnodes);
      maxPeers := DefaultMaxPeers;
      sophonEnabled := true;
      sophonNetworkId := DefaultNetworkId;
      sophonGenesis := "";
      sophonDatabaseCache := DefaultDatabaseCache;
      sophonNetStats := "";
      whisperEnabled := false;
      pprofAddress := "";
    }

    /** A copy of another config, field for field. */
    constructor Copy(other: NodeConfig)
      ensures SameAs(other)
    {
      bootstrapNodes := other.bootstrapNodes;
      maxPeers := other.maxPeers;
      sophonEnabled := other.sophonEnabled;
      sophonNetworkId := other.sophonNetworkId;
      sophonGenesis := other.sophonGenesis;
      sophonDatabaseCache := other.sophonDatabaseCache;
      sophonNetStats := other.sophonNetStats;
      whisperEnabled := other.whisperEnabled;
      pprofAddress := other.pprofAddress;
    }

    /** Every field agrees with another config's. */
    predicate SameAs(other: NodeConfig)
      reads this, other
    {
      bootstrapNodes == other.bootstrapNodes && maxPeers == other.maxPeers &&
      sophonEnabled == other.sophonEnabled && sophonNetworkId == other.sophonNetworkId &&
      sophonGenesis == other.sophonGenesis && sophonDatabaseCache == other.sophonDatabaseCache &&
      sophonNetStats == other.sophonNetStats && whisperEnabled == other.whisperEnabled &&
      pprofAddress == other.pprofAddress
    }

    /**
     * The defaulting at the top of NewNode: a zero peer limit takes the
     * default one, and a nil or empty bootstrap list the default list.
     */
    method ApplyDefaults(defaults: NodeConfig)
      requires defaults != this
      modifies this`maxPeers, this`bootstrapNodes
      ensures maxPeers == (if old(maxPeers) == 0 then defaults.maxPeers else old(maxPeers))
      ensures bootstrapNodes == (if old(bootstrapNodes).None? || old(bootstrapNodes).value == []
                                 then defaults.bootstrapNodes else old(bootstrapNodes))
    {
      if maxPeers == 0 {
        maxPeers := defaults.maxPeers;
      }
      if bootstrapNodes.None? || |bootstrapNodes.value| == 0 {
        bootstrapNodes := defaults.bootstrapNodes;
      }
    }
  }

  /** NewNodeConfig: a fresh copy of the defaults, so changing it leaves the defaults alone. */
  method NewNodeConfig(defaults: NodeConfig) returns (config: NodeConfig)
    ensures fresh(config) && config.SameAs(defaults)
  {
    config := new NodeConfig.Copy(defaults);
  }

  /**
   * The service configuration NewNode registers: sof.DefaultConfig with the
   * parsed genesis, light sync, the node's network ID reinterpreted as a
   * uint64, and its database cache.
   */
  function ServiceConfig(sofDefaults: Config, genesis: Option<Genesis>, networkId: Int64, databaseCache: int): (c: Config)
    ensures c.syncMode == LightSync && c.genesis == genesis && c.databaseCache == databaseCache
    ensures c.networkId == Uint64OfInt64(networkId)
    ensures c.(genesis := sofDefaults.genesis, syncMode := sofDefaults.syncMode, networkId := sofDefaults.networkId,
               databaseCache := sofDefaults.databaseCache) == sofDefaults
  {
    sofDefaults.(genesis := genesis, syncMode := LightSync, networkId := Uint64OfInt64(networkId),
                 databaseCache := databaseCache)
  }

  /**
   * The genesis NewNode hands to the service: none for an empty genesis
   * text, else the decoded one; the testnet text gets the testnet chain
   * configuration. A decoding error is reported.
   */
  function ResolveGenesis(text: string, parseGenesis: string -> Result<Genesis, string>,
                          testnetGenesis: string, testnetConfig: ChainConfig): (r: Result<Option<Genesis>, string>)
    ensures text == "" ==> r == Ok(None)
    ensures r.Err? <==> text != "" && parseGenesis(text).Err?
    ensures r.Err? ==> r.error == "invalid genesis spec: " + parseGenesis(text).error
    ensures r.Ok? && text != "" ==> r.value.Some?
    ensures r.Ok? && text != "" && text == testnetGenesis ==> r.value.value.config == testnetConfig
    ensures r.Ok? && text != "" && text != testnetGenesis ==> r.value == Some(parseGenesis(text).value)
  {
    if text == "" then Ok(None)
    else match parseGenesis(text)
      case Err(e) => Err("invalid genesis spec: " + e)
      case Ok(g) => if text == testnetGenesis then Ok(Some(g.(config := testnetConfig))) else Ok(Some(g))
  }

  /**
   * The configuration steps of NewNode. A nil config is replaced by a new
   * default one; the defaults are applied; the genesis is resolved; on the
   * testnet a network ID of 1 becomes 3; with Sophon enabled the service
   * configuration is derived. Node creation, pprof and netstats are not
   * part of this model.
   */
  method NewNode(config: NodeConfig?, defaults: NodeConfig, parseGenesis: string -> Result<Genesis, string>,
                 testnetGenesis: string, testnetConfig: ChainConfig, sofDefaults: Config)
    returns (used: NodeConfig, service: Option<Config>, err: Option<string>)
    requires config != defaults
    modifies config
    ensures config == null ==> fresh(used)
    ensures config != null ==> used == config
    ensures config != null ==>
              used.maxPeers == (if old(config.maxPeers) == 0 then defaults.maxPeers else old(config.maxPeers))
    ensures config == null ==> used.maxPeers == defaults.maxPeers && used.bootstrapNodes == defaults.bootstrapNodes
    ensures config != null && old(config.bootstrapNodes).Some? && old(config.bootstrapNodes).value != [] ==>
              used.bootstrapNodes == old(config.bootstrapNodes)
    ensures config != null && (old(config.bootstrapNodes).None? || old(config.bootstrapNodes).value == []) ==>
              used.bootstrapNodes == defaults.bootstrapNodes
    ensures var genesis := ResolveGenesis(used.sophonGenesis, parseGenesis, testnetGenesis, testnetConfig);
            && (genesis.Err? ==> err == Some(genesis.error) && service == None)
            && (genesis.Ok? && !used.sophonEnabled ==> err == None && service == None)
            && (genesis.Ok? && used.sophonEnabled ==>
                  err == None &&
                  service == Some(ServiceConfig(sofDefaults, genesis.value, used.sophonNetworkId, used.sophonDatabaseCache)))
    ensures config != null ==>
              used.sophonEnabled == old(config.sophonEnabled) && used.sophonGenesis == old(config.sophonGenesis) &&
              used.sophonDatabaseCache == old(config.sophonDatabaseCache) &&
              used.sophonNetStats == old(config.sophonNetStats) && used.whisperEnabled == old(config.whisperEnabled) &&
              used.pprofAddress == old(config.pprofAddress)
    ensures config == null ==>
              used.sophonEnabled == defaults.sophonEnabled && used.sophonGenesis == defaults.sophonGenesis &&
              used.sophonDatabaseCache == defaults.sophonDatabaseCache &&
              used.sophonNetStats == defaults.sophonNetStats && used.whisperEnabled == defaults.whisperEnabled &&
              used.pprofAddress == defaults.pprofAddress
    ensures var networkId := if config == null then defaults.sophonNetworkId else old(config.sophonNetworkId);
            used.sophonNetworkId ==
              if used.sophonGenesis != "" && used.sophonGenesis == testnetGenesis &&
                 parseGenesis(used.sophonGenesis).Ok? && networkId == 1
              then TestnetNetworkId else networkId
  {
    if config == null {
      used := NewNodeConfig(defaults);
    } else {
      used := config;
    }
    used.ApplyDefaults(defaults);
    var genesis := ResolveGenesis(used.sophonGenesis, parseGenesis, testnetGenesis, testnetConfig);
    if genesis.Err? {
      return used, None, Some(genesis.error);
    }
    if used.sophonGenesis != "" && used.sophonGenesis == testnetGenesis && used.sophonNetworkId == 1 {
      used.sophonNetworkId := TestnetNetworkId;
    }
    if !used.sophonEnabled {
      return used, None, None;
    }
    service := Some(ServiceConfig(sofDefaults, genesis.value, used.sophonNetworkId, used.sophonDatabaseCache));
    err := None;
  }
}
