/**
 * sof/backend.go: the deterministic rules of the full-node service. These
 * are the configuration sanity checks at the start of New, the miner's
 * extra-data bound, the choice of consensus engine, the sophybase lookup,
 * the local-block and preserve rules used during reorgs, and the peer
 * budget computed by Start.
 *
 * Foreign calls become parameters: the RLP-encoded default extra data,
 * ctx.ResolvePath, engine.Author's outcome and the account manager's
 * wallets.
 */
module SofBackend {
  import opened Wrappers
  import opened CoreTypes
  import opened Params
  import opened SofConfig

  /** The two errors New's sanity checks can return. */
  datatype NewError = LightSyncUnsupported | InvalidSyncMode(mode: int)

  /** DefaultConfig.Miner.GasPrice: one GWei; the package initialiser never changes it. */
  const DefaultGasPrice: int := GWei as int

  /** A miner gas price New accepts as is: non-nil and positive. */
  predicate SaneGasPrice(price: Option<int>)
  {
    price.Some? && price.value > 0
  }

  /** The gas price New keeps: the configured one when sane, else the default. */
  function SanitizedGasPrice(price: Option<int>): (r: Option<int>)
    ensures SaneGasPrice(r)
    ensures SaneGasPrice(price) ==> r == price
    ensures !SaneGasPrice(price) ==> r == Some(DefaultGasPrice)
  {
    if price.None? || price.value <= 0 then Some(DefaultGasPrice) else price
  }

  /**
   * The trie cache allowances (clean, dirty) New keeps: with pruning off a
   * positive dirty allowance is moved into the clean one.
   */
  function SanitizedTrieCaches(noPruning: bool, clean: int, dirty: int): (r: (int, int))
    ensures r.0 + r.1 == clean + dirty
    ensures noPruning ==> r.1 <= 0
    ensures !noPruning ==> r == (clean, dirty)
    ensures dirty <= 0 ==> r == (clean, dirty)
  {
    if noPruning && dirty > 0 then (clean + dirty, 0) else (clean, dirty)
  }

  /**
   * The config New goes on with, or the error it returns. The sync mode is
   * checked first and an error leaves the config untouched. Then the gas
   * price and the trie caches are sanitised; no other field moves.
   */
  function Sanitize(c: Config): (r: Result<Config, NewError>)
    ensures r.Err? <==> c.syncMode == LightSync || !IsValidSyncMode(c.syncMode)
    ensures c.syncMode == LightSync ==> r == Err(LightSyncUnsupported)
    ensures c.syncMode != LightSync && !IsValidSyncMode(c.syncMode) ==> r == Err(InvalidSyncMode(c.syncMode))
  {
    if c.syncMode == LightSync then Err(LightSyncUnsupported)
    else if !IsValidSyncMode(c.syncMode) then Err(InvalidSyncMode(c.syncMode))
    else
      var caches := SanitizedTrieCaches(c.noPruning, c.trieCleanCache, c.trieDirtyCache);
      Ok(c.(miner := c.miner.(gasPrice := SanitizedGasPrice(c.miner.gasPrice)),
            trieCleanCache := caches.0, trieDirtyCache := caches.1))
  }

  /**
   * The sanity checks of New (the part before the database is opened): the
   * config's gas price and cache fields are overwritten in turn.
   */
  method SanitizeConfig(c: Config) returns (r: Result<Config, NewError>)
    ensures r == Sanitize(c)
  {
    if c.syncMode == LightSync {
      return Err(LightSyncUnsupported);
    }
    if !IsValidSyncMode(c.syncMode) {
      return Err(InvalidSyncMode(c.syncMode));
    }
    var gasPrice := c.miner.gasPrice;
    if gasPrice.None? || gasPrice.value <= 0 {
      gasPrice := Some(DefaultGasPrice);
    }
    var clean, dirty := c.trieCleanCache, c.trieDirtyCache;
    if c.noPruning && dirty > 0 {
      clean := clean + dirty;
      dirty := 0;
    }
    return Ok(c.(miner := c.miner.(gasPrice := gasPrice), trieCleanCache := clean, trieDirtyCache := dirty));
  }

  /** The defaults pass the checks unchanged. */
  lemma DefaultConfigSane(txPoolDefaults: TxPoolConfig)
    ensures Sanitize(DefaultConfig(txPoolDefaults)) == Ok(DefaultConfig(txPoolDefaults))
  {
  }

  /** A config that passed the checks passes them again unchanged. */
  lemma SanitizeIdempotent(c: Config)
    requires Sanitize(c).Ok?
    ensures Sanitize(Sanitize(c).value) == Sanitize(c)
  {
  }

  /**
   * makeExtraData. An empty input is replaced by `defaultExtra`, the RLP
   * encoding of the client version, which is computed outside this model.
   * Anything longer than MaximumExtraDataSize becomes nil (the empty
   * sequence here).
   */
  function MakeExtraData(extra: seq<Byte>, defaultExtra: seq<Byte>): (r: seq<Byte>)
    ensures |r| <= MaximumExtraDataSize
    ensures 0 < |extra| <= MaximumExtraDataSize ==> r == extra
    ensures |extra| > MaximumExtraDataSize ==> r == []
    ensures |extra| == 0 && |defaultExtra| <= MaximumExtraDataSize ==> r == defaultExtra
    ensures |extra| == 0 && |defaultExtra| > MaximumExtraDataSize ==> r == []
    ensures r == [] || r == extra || r == defaultExtra
  {
    var candidate := if |extra| == 0 then defaultExtra else extra;
    if |candidate| > MaximumExtraDataSize then [] else candidate
  }

  /** The bound makes the function idempotent on its own output once the input is non-empty. */
  lemma MakeExtraDataIdempotent(extra: seq<Byte>, defaultExtra: seq<Byte>)
    requires MakeExtraData(extra, defaultExtra) != []
    ensures MakeExtraData(MakeExtraData(extra, defaultExtra), defaultExtra) == MakeExtraData(extra, defaultExtra)
  {
  }

  /**
   * The consensus engine CreateConsensusEngine builds. The full sofash
   * engine carries the fields of its config (PowMode is not among them)
   * and the thread count it is left with: -1, CPU mining disabled.
   */
  datatype Engine =
    | Clique
    | SofashFake
    | SofashTester(noverify: bool)
    | SofashShared
    | SofashFull(config: SofashConfig, notify: seq<string>, noverify: bool, threads: int)

  /** The mode an engine runs in, as far as PowMode chose it. */
  function EngineMode(e: Engine): int
  {
    match e
    case SofashFake => ModeFake
    case SofashTester(_) => ModeTest
    case SofashShared => ModeShared
    case _ => ModeNormal
  }

  /**
   * CreateConsensusEngine. A clique configuration wins whatever PowMode
   * says; otherwise PowMode picks the fake, test or shared engine, and any
   * other mode the full engine. The full engine's cache directory goes
   * through `resolvePath` (ctx.ResolvePath), the rest is copied.
   */
  function CreateConsensusEngine(chainConfig: ChainConfig, config: SofashConfig, notify: seq<string>,
                                 noverify: bool, resolvePath: string -> string): (e: Engine)
    ensures chainConfig.clique <==> e.Clique?
    ensures !chainConfig.clique && config.powMode in {ModeFake, ModeTest, ModeShared} ==> EngineMode(e) == config.powMode
    ensures !chainConfig.clique && config.powMode !in {ModeFake, ModeTest, ModeShared} ==> e.SofashFull?
    ensures e.SofashTester? ==> e.noverify == noverify
    ensures e.SofashFull? ==> e == SofashFull(config.(cacheDir := resolvePath(config.cacheDir), powMode := ModeNormal),
                                              notify, noverify, -1)
  {
    if chainConfig.clique then Clique
    else if config.powMode == ModeFake then SofashFake
    else if config.powMode == ModeTest then SofashTester(noverify)
    else if config.powMode == ModeShared then SofashShared
    else SofashFull(SofashConfig(resolvePath(config.cacheDir), config.cachesInMem, config.cachesOnDisk,
                                 config.datasetDir, config.datasetsInMem, config.datasetsOnDisk, ModeNormal),
                    notify, noverify, -1)
  }

  /** Without clique, the engine's mode is PowMode whenever PowMode names a known mode. */
  lemma EngineFollowsPowMode(chainConfig: ChainConfig, config: SofashConfig, notify: seq<string>,
                             noverify: bool, resolvePath: string -> string)
    requires !chainConfig.clique && ModeNormal <= config.powMode <= ModeFake
    ensures EngineMode(CreateConsensusEngine(chainConfig, config, notify, noverify, resolvePath)) == config.powMode
  {
  }

  /** The address Sophybase reports: the stored one, else the first account of the first wallet. */
  function ResolveSophybase(stored: Address, wallets: seq<seq<Address>>): (r: Result<Address, string>)
    ensures stored != ZeroAddress() ==> r == Ok(stored)
    ensures r.Err? <==> stored == ZeroAddress() && (|wallets| == 0 || |wallets[0]| == 0)
    ensures stored == ZeroAddress() && r.Ok? ==> r.value == wallets[0][0]
  {
    if stored != ZeroAddress() then Ok(stored)
    else if |wallets| > 0 && |wallets[0]| > 0 then Ok(wallets[0][0])
    else Err("sophybase must be explicitly specified")
  }

  /**
   * Once resolved to a non-zero address and cached, the sophybase no longer
   * depends on the wallets.
   */
  lemma SophybaseSticky(stored: Address, wallets: seq<seq<Address>>, later: seq<seq<Address>>)
    requires ResolveSophybase(stored, wallets).Ok?
    requires ResolveSophybase(stored, wallets).value != ZeroAddress()
    ensures ResolveSophybase(ResolveSophybase(stored, wallets).value, later) == ResolveSophybase(stored, wallets)
  {
  }

  /** Start's peer budget: the light peers come out of the server's limit, which they must stay below. */
  function PeerBudget(lightServ: int, lightPeers: int, serverMaxPeers: int): (r: Result<int, string>)
    ensures r.Err? <==> lightServ > 0 && lightPeers >= serverMaxPeers
    ensures r.Ok? && lightServ > 0 ==> r.value == serverMaxPeers - lightPeers && r.value > 0
    ensures r.Ok? && lightServ <= 0 ==> r.value == serverMaxPeers
  {
    if lightServ > 0 then
      if lightPeers >= serverMaxPeers then Err("invalid peer config: light peer count >= total peer count")
      else Ok(serverMaxPeers - lightPeers)
    else Ok(serverMaxPeers)
  }

  /**
   * The parts of the Sophon service these rules touch: its config, its
   * consensus engine and the cached sophybase.
   */
  class Sophon {
    var config: Config
    var engine: Engine
    var sophybase: Address

    /** The assembly in New: the sophybase starts as the miner's configured one. */
    constructor (config: Config, engine: Engine)
      ensures this.config == config && this.engine == engine
      ensures sophybase == config.miner.sophybase
    {
      this.config := config;
      this.engine := engine;
      sophybase := config.miner.sophybase;
    }

    /**
     * Sophybase: the stored address if set; else the first account of the
     * first wallet, which is cached; else an error and the zero address.
     */
    method Sophybase(wallets: seq<seq<Address>>) returns (eb: Address, err: Option<string>)
      modifies this`sophybase
      ensures ResolveSophybase(old(sophybase), wallets).Ok? ==>
                eb == ResolveSophybase(old(sophybase), wallets).value && err == None
      ensures ResolveSophybase(old(sophybase), wallets).Err? ==>
                eb == ZeroAddress() && err == Some(ResolveSophybase(old(sophybase), wallets).error)
      ensures sophybase == (if ResolveSophybase(old(sophybase), wallets).Ok? then eb else old(sophybase))
    {
      var current := sophybase;
      if current != ZeroAddress() {
        return current, None;
      }
      if |wallets| > 0 {
        var accounts := wallets[0];
        if |accounts| > 0 {
          var first := accounts[0];
          sophybase := first;
          return first, None;
        }
      }
      return ZeroAddress(), Some("sophybase must be explicitly specified");
    }

    /**
     * isLocalBlock: the block's author, as engine.Author reported it, is
     * the sophybase or one of the transaction pool's local accounts. A
     * failed author lookup makes the block non-local.
     */
    method IsLocalBlock(author: Result<Address, string>) returns (local: bool)
      ensures local <==> author.Ok? && (author.value == sophybase || author.value in config.txPool.locals)
    {
      if author.Err? {
        return false;
      }
      if author.value == sophybase {
        return true;
      }
      var locals := config.txPool.locals;
      var i := 0;
      while i < |locals|
        invariant 0 <= i <= |locals|
        invariant author.value !in locals[..i]
      {
        if locals[i] == author.value {
          return true;
        }
        i := i + 1;
      }
      assert locals[..i] == locals;
      return false;
    }

    /** shouldPreserve: never under clique, otherwise exactly the local blocks. */
    method ShouldPreserve(author: Result<Address, string>) returns (preserve: bool)
      ensures engine.Clique? ==> !preserve
      ensures preserve <==> !engine.Clique? && author.Ok? &&
                            (author.value == sophybase || author.value in config.txPool.locals)
    {
      if engine.Clique? {
        return false;
      }
      preserve := IsLocalBlock(author);
    }

    /** The peer-budget part of Start. */
    method Start(serverMaxPeers: int) returns (maxPeers: int, err: Option<string>)
      ensures err.Some? <==> PeerBudget(config.lightServ, config.lightPeers, serverMaxPeers).Err?
      ensures err.None? ==> maxPeers == PeerBudget(config.lightServ, config.lightPeers, serverMaxPeers).value
    {
      maxPeers := serverMaxPeers;
      if config.lightServ > 0 {
        if config.lightPeers >= serverMaxPeers {
          return maxPeers, Some("invalid peer config: light peer count >= total peer count");
        }
        maxPeers := maxPeers - config.lightPeers;
      }
      err := None;
    }
  }
}
