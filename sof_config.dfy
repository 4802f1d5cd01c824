/**
 * sof/config.go: the configuration record of the Sophon service, its
 * main-net defaults and the package initialiser that picks the default
 * dataset directory for the operating system.
 *
 * Durations are nanoseconds (time.Duration); a *big.Int is an Option<int>,
 * None standing for nil.
 */
module SofConfig {
  import opened Wrappers
  import opened CoreTypes
  import opened Params

  /** downloader.SyncMode values. */
  const FullSync: int := 0
  const FastSync: int := 1
  const LightSync: int := 2

  /** downloader.SyncMode.IsValid: one of the three modes. */
  predicate IsValidSyncMode(mode: int)
  {
    FullSync <= mode <= LightSync
  }

  /** sofash.Mode values. */
  const ModeNormal: int := 0
  const ModeShared: int := 1
  const ModeTest: int := 2
  const ModeFake: int := 3

  const Nanosecond: nat := 1
  const Second: nat := 1_000_000_000
  const Minute: nat := 60 * Second

  /** miner.Config. */
  datatype MinerConfig = MinerConfig(
    sophybase: Address,
    notify: seq<string>,
    extraData: seq<Byte>,
    gasFloor: Uint64,
    gasCeil: Uint64,
    gasPrice: Option<int>,
    recommit: int,
    noverify: bool
  )

  /** sofash.Config. */
  datatype SofashConfig = SofashConfig(
    cacheDir: string,
    cachesInMem: int,
    cachesOnDisk: int,
    datasetDir: string,
    datasetsInMem: int,
    datasetsOnDisk: int,
    powMode: int
  )

  /** core.TxPoolConfig; its default values live in core/tx_pool.go, which is not part of this model. */
  datatype TxPoolConfig = TxPoolConfig(
    locals: seq<Address>,
    noLocals: bool,
    journal: string,
    rejournal: int,
    priceLimit: Uint64,
    priceBump: Uint64,
    accountSlots: Uint64,
    globalSlots: Uint64,
    accountQueue: Uint64,
    globalQueue: Uint64,
    lifetime: int
  )

  /** gasprice.Config. */
  datatype GpoConfig = GpoConfig(blocks: int, percentile: int, default: Option<int>)

  /** sof.ULCConfig: the ultra-light client's trusted servers. */
  datatype ULCConfig = ULCConfig(trustedServers: seq<string>, minTrustedFraction: int)

  /** sof.Config, field for field. */
  datatype Config = Config(
    genesis: Option<Genesis>,
    networkId: Uint64,
    syncMode: int,
    noPruning: bool,
    noPrefetch: bool,
    whitelist: Option<map<Uint64, Hash>>,
    lightServ: int,
    lightBandwidthIn: int,
    lightBandwidthOut: int,
    lightPeers: int,
    onlyAnnounce: bool,
    ulc: Option<ULCConfig>,
    skipBcVersionCheck: bool,
    databaseHandles: int,
    databaseCache: int,
    databaseFreezer: string,
    trieCleanCache: int,
    trieDirtyCache: int,
    trieTimeout: int,
    miner: MinerConfig,
    sofash: SofashConfig,
    txPool: TxPoolConfig,
    gpo: GpoConfig,
    enablePreimageRecording: bool,
    docRoot: string,
    ewasmInterpreter: string,
    svmInterpreter: string,
    constantinopleOverride: Option<int>,
    rpcGasCap: Option<int>
  )

  /**
   * DefaultConfig before the package initialiser runs: the main-net
   * settings; every field the literal does not name is Go's zero value.
   * The transaction-pool defaults are a parameter.
   */
  function DefaultConfig(txPoolDefaults: TxPoolConfig): (c: Config)
    ensures c.syncMode == FastSync && c.networkId == 1 && c.lightPeers == 100
    ensures c.miner.gasFloor == 8000000 && c.miner.gasCeil == 8000000 && c.miner.gasPrice == Some(GWei as int)
    ensures c.trieCleanCache == 256 && c.trieDirtyCache == 256 && !c.noPruning
    ensures c.txPool == txPoolDefaults && c.sofash.datasetDir == ""
  {
    Config(
      genesis := None,
      networkId := 1,
      syncMode := FastSync,
      noPruning := false,
      noPrefetch := false,
      whitelist := None,
      lightServ := 0,
      lightBandwidthIn := 0,
      lightBandwidthOut := 0,
      lightPeers := 100,
      onlyAnnounce := false,
      ulc := None,
      skipBcVersionCheck := false,
      databaseHandles := 0,
      databaseCache := 512,
      databaseFreezer := "",
      trieCleanCache := 256,
      trieDirtyCache := 256,
      trieTimeout := 60 * Minute,
      miner := MinerConfig(ZeroAddress(), [], [], 8000000, 8000000, Some(GWei as int), 3 * Second, false),
      sofash := SofashConfig("sofash", 2, 3, "", 1, 2, ModeNormal),
      txPool := txPoolDefaults,
      gpo := GpoConfig(20, 60, None),
      enablePreimageRecording := false,
      docRoot := "",
      ewasmInterpreter := "",
      svmInterpreter := "",
      constantinopleOverride := None,
      rpcGasCap := None
    )
  }

  /** The defaults pass the service's sync-mode check. */
  lemma DefaultSyncModeValid(txPoolDefaults: TxPoolConfig)
    ensures IsValidSyncMode(DefaultConfig(txPoolDefaults).syncMode)
    ensures DefaultConfig(txPoolDefaults).syncMode != LightSync
  {
  }

  /** runtime.GOOS as far as the initialiser distinguishes it. */
  datatype Os = Darwin | Windows | OtherOs

  /** The path separator filepath.Join uses on each system. */
  function Separator(os: Os): char
  {
    if os == Windows then '\\' else '/'
  }

  /**
   * filepath.Join without the final Clean: the non-empty parts joined by
   * the separator, "" when every part is empty.
   */
  function Join(sep: char, parts: seq<string>): (r: string)
    ensures r == "" <==> forall i :: 0 <= i < |parts| ==> parts[i] == ""
  {
    if parts == [] then ""
    else
      var rest := Join(sep, parts[1..]);
      if parts[0] == "" then rest
      else if rest == "" then parts[0]
      else parts[0] + [sep] + rest
  }

  /** Joining a prefix onto a joined tail: the prefix and the separator, unless the prefix is empty. */
  lemma {:induction false} JoinCons(sep: char, head: string, tail: seq<string>)
    requires Join(sep, tail) != ""
    ensures Join(sep, [head] + tail) == (if head == "" then "" else head + [sep]) + Join(sep, tail)
  {
    assert ([head] + tail)[1..] == tail;
  }

  /** Joining two non-empty names puts one separator between them. */
  lemma JoinTwo(sep: char, a: string, b: string)
    requires a != "" && b != ""
    ensures Join(sep, [b]) == b
    ensures Join(sep, [a, b]) == a + [sep] + b
  {
    assert [a, b][1..] == [b];
  }

  /** Joining three non-empty names puts a separator between each pair. */
  lemma JoinThree(sep: char, a: string, b: string, c: string)
    requires a != "" && b != "" && c != ""
    ensures Join(sep, [a, b, c]) == a + [sep] + b + [sep] + c
  {
    assert [a, b, c][1..] == [b, c];
    JoinTwo(sep, b, c);
  }

  /**
   * The home directory the initialiser uses: $HOME when non-empty, else the
   * current user's home directory when that lookup succeeds, else "".
   */
  function HomeDir(homeEnv: string, currentUserHome: Option<string>): string
  {
    if homeEnv != "" then homeEnv
    else if currentUserHome.Some? then currentUserHome.value
    else ""
  }

  /** The default dataset directory for each system. */
  function DefaultDatasetDir(os: Os, home: string, localAppData: string): string
  {
    var sep := Separator(os);
    match os
    case Darwin => Join(sep, [home, "Library", "Sofash"])
    case Windows =>
      if localAppData != "" then Join(sep, [localAppData, "Sofash"])
      else Join(sep, [home, "AppData", "Local", "Sofash"])
    case OtherOs => Join(sep, [home, ".sofash"])
  }

  /** On darwin: Library/Sofash under the home directory (a relative path when home is unknown). */
  lemma {:induction false} DarwinDatasetDir(home: string, localAppData: string)
    ensures DefaultDatasetDir(Darwin, home, localAppData) == (if home == "" then "" else home + "/") + "Library/Sofash"
  {
    JoinTwo('/', "Library", "Sofash");
    JoinCons('/', home, ["Library", "Sofash"]);
    assert [home] + ["Library", "Sofash"] == [home, "Library", "Sofash"];
  }

  /** On windows with LOCALAPPDATA set: Sofash under it. */
  lemma {:induction false} WindowsLocalAppDataDatasetDir(home: string, localAppData: string)
    requires localAppData != ""
    ensures DefaultDatasetDir(Windows, home, localAppData) == localAppData + "\\Sofash"
  {
    JoinTwo('\\', localAppData, "Sofash");
  }

  /** On windows without LOCALAPPDATA: AppData\Local\Sofash under the home directory. */
  lemma {:induction false} WindowsHomeDatasetDir(home: string)
    ensures DefaultDatasetDir(Windows, home, "") == (if home == "" then "" else home + "\\") + "AppData\\Local\\Sofash"
  {
    JoinThree('\\', "AppData", "Local", "Sofash");
    assert "AppData" + ['\\'] + "Local" + ['\\'] + "Sofash" == "AppData\\Local\\Sofash";
    JoinCons('\\', home, ["AppData", "Local", "Sofash"]);
    assert [home] + ["AppData", "Local", "Sofash"] == [home, "AppData", "Local", "Sofash"];
  }

  /** Elsewhere: .sofash under the home directory. */
  lemma {:induction false} UnixDatasetDir(home: string, localAppData: string)
    ensures DefaultDatasetDir(OtherOs, home, localAppData) == (if home == "" then "" else home + "/") + ".sofash"
  {
    assert Join('/', [".sofash"]) == ".sofash" by {
      assert [".sofash"][1..] == [];
    }
    JoinCons('/', home, [".sofash"]);
    assert [home] + [".sofash"] == [home, ".sofash"];
  }

  /** The package-level state of sof: the DefaultConfig variable. */
  class SofPackage {
    var defaultConfig: Config

    constructor (txPoolDefaults: TxPoolConfig)
      ensures defaultConfig == DefaultConfig(txPoolDefaults)
    {
      defaultConfig := DefaultConfig(txPoolDefaults);
    }

    /**
     * init: resolve the home directory, then set the default dataset
     * directory for the system. Nothing else in DefaultConfig changes.
     * The environment and the user lookup are parameters.
     */
    method Init(os: Os, homeEnv: string, currentUserHome: Option<string>, localAppData: string)
      modifies this
      ensures defaultConfig == old(defaultConfig).(sofash := old(defaultConfig).sofash.(
        datasetDir := DefaultDatasetDir(os, HomeDir(homeEnv, currentUserHome), localAppData)))
    {
      var home := homeEnv;
      if home == "" {
        if currentUserHome.Some? {
          home := currentUserHome.value;
        }
      }
      var sep := Separator(os);
      var dir: string;
      if os == Darwin {
        dir := Join(sep, [home, "Library", "Sofash"]);
      } else if os == Windows {
        if localAppData != "" {
          dir := Join(sep, [localAppData, "Sofash"]);
        } else {
          dir := Join(sep, [home, "AppData", "Local", "Sofash"]);
        }
      } else {
        dir := Join(sep, [home, ".sofash"]);
      }
      defaultConfig := defaultConfig.(sofash := defaultConfig.sofash.(datasetDir := dir));
    }
  }
}
