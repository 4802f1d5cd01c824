/**
 * sof/gen_config.go: the generated TOML codec of sof.Config. Marshalling
 * copies every listed field into a mirror record; unmarshalling decodes a
 * record whose fields are all optional and overwrites exactly the fields
 * that were present. DatabaseFreezer is in neither list.
 *
 * The TOML decoder itself is a parameter: its outcome is given as a
 * Result holding the decoded record or the decoder's error.
 */
module SofGenConfig {
  import opened Wrappers
  import opened CoreTypes
  import opened SofConfig

  /** The record MarshalTOML returns: sof.Config without DatabaseFreezer. */
  datatype EncodedConfig = EncodedConfig(
    genesis: Option<Genesis>,
    networkId: Uint64,
    syncMode: int,
    noPruning: bool,
    noPrefetch: bool,
    whitelist: Option<map<Uint64, Hash>>,
    lightServ: int,
    lightBandwidthIn: int,
    lightBandwidthOut: int,
    lightPeers: int,
    onlyAnnounce: bool,
    ulc: Option<ULCConfig>,
    skipBcVersionCheck: bool,
    databaseHandles: int,
    databaseCache: int,
    trieCleanCache: int,
    trieDirtyCache: int,
    trieTimeout: int,
    miner: MinerConfig,
    sofash: SofashConfig,
    txPool: TxPoolConfig,
    gpo: GpoConfig,
    enablePreimageRecording: bool,
    docRoot: string,
    ewasmInterpreter: string,
    svmInterpreter: string,
    constantinopleOverride: Option<int>,
    rpcGasCap: Option<int>
  )

  /**
   * The record UnmarshalTOML decodes into: every field optional, None for a
   * nil pointer (or nil map) the decoder did not fill.
   */
  datatype DecodedConfig = DecodedConfig(
    genesis: Option<Genesis>,
    networkId: Option<Uint64>,
    syncMode: Option<int>,
    noPruning: Option<bool>,
    noPrefetch: Option<bool>,
    whitelist: Option<map<Uint64, Hash>>,
    lightServ: Option<int>,
    lightBandwidthIn: Option<int>,
    lightBandwidthOut: Option<int>,
    lightPeers: Option<int>,
    onlyAnnounce: Option<bool>,
    ulc: Option<ULCConfig>,
    skipBcVersionCheck: Option<bool>,
    databaseHandles: Option<int>,
    databaseCache: Option<int>,
    trieCleanCache: Option<int>,
    trieDirtyCache: Option<int>,
    trieTimeout: Option<int>,
    miner: Option<MinerConfig>,
    sofash: Option<SofashConfig>,
    txPool: Option<TxPoolConfig>,
    gpo: Option<GpoConfig>,
    enablePreimageRecording: Option<bool>,
    docRoot: Option<string>,
    ewasmInterpreter: Option<string>,
    svmInterpreter: Option<string>,
    constantinopleOverride: Option<int>,
    rpcGasCap: Option<int>
  )

  /** MarshalTOML: a copy of every listed field; it never fails. */
  function MarshalTOML(c: Config): (r: Result<EncodedConfig, string>)
    ensures r.Ok?
  {
    Ok(EncodedConfig(
      c.genesis, c.networkId, c.syncMode, c.noPruning, c.noPrefetch, c.whitelist,
      c.lightServ, c.lightBandwidthIn, c.lightBandwidthOut, c.lightPeers, c.onlyAnnounce,
      c.ulc, c.skipBcVersionCheck, c.databaseHandles, c.databaseCache,
      c.trieCleanCache, c.trieDirtyCache, c.trieTimeout, c.miner, c.sofash, c.txPool, c.gpo,
      c.enablePreimageRecording, c.docRoot, c.ewasmInterpreter, c.svmInterpreter,
      c.constantinopleOverride, c.rpcGasCap))
  }

  /** A decoded record with no field present. */
  function NothingDecoded(): DecodedConfig
  {
    DecodedConfig(None, None, None, None, None, None, None, None, None, None, None, None, None, None,
                  None, None, None, None, None, None, None, None, None, None, None, None, None, None)
  }

  /**
   * The decoded record with every field set from e, pointers as they were.
   * Decoding a TOML document never yields all of it: Whitelist,
   * SkipBcVersionCheck, DatabaseHandles and DocRoot are tagged `toml:"-"`.
   */
  function Present(e: EncodedConfig): DecodedConfig
  {
    DecodedConfig(
      e.genesis, Some(e.networkId), Some(e.syncMode), Some(e.noPruning), Some(e.noPrefetch), e.whitelist,
      Some(e.lightServ), Some(e.lightBandwidthIn), Some(e.lightBandwidthOut), Some(e.lightPeers),
      Some(e.onlyAnnounce), e.ulc, Some(e.skipBcVersionCheck), Some(e.databaseHandles),
      Some(e.databaseCache), Some(e.trieCleanCache), Some(e.trieDirtyCache), Some(e.trieTimeout),
      Some(e.miner), Some(e.sofash), Some(e.txPool), Some(e.gpo), Some(e.enablePreimageRecording),
      Some(e.docRoot), Some(e.ewasmInterpreter), Some(e.svmInterpreter),
      e.constantinopleOverride, e.rpcGasCap)
  }

  /** A decoded field when present, else the current value. */
  function Pick<T>(decoded: Option<T>, current: T): T
  {
    if decoded.Some? then decoded.value else current
  }

  /** A decoded pointer field when non-nil, else the current pointer. */
  function PickPointer<T>(decoded: Option<T>, current: Option<T>): Option<T>
  {
    if decoded.Some? then decoded else current
  }

  /** The field-wise overwrite UnmarshalTOML performs on a successful decode. */
  function Overlay(c: Config, d: DecodedConfig): Config
  {
    Config(
      genesis := PickPointer(d.genesis, c.genesis),
      networkId := Pick(d.networkId, c.networkId),
      syncMode := Pick(d.syncMode, c.syncMode),
      noPruning := Pick(d.noPruning, c.noPruning),
      noPrefetch := Pick(d.noPrefetch, c.noPrefetch),
      whitelist := PickPointer(d.whitelist, c.whitelist),
      lightServ := Pick(d.lightServ, c.lightServ),
      lightBandwidthIn := Pick(d.lightBandwidthIn, c.lightBandwidthIn),
      lightBandwidthOut := Pick(d.lightBandwidthOut, c.lightBandwidthOut),
      lightPeers := Pick(d.lightPeers, c.lightPeers),
      onlyAnnounce := Pick(d.onlyAnnounce, c.onlyAnnounce),
      ulc := PickPointer(d.ulc, c.ulc),
      skipBcVersionCheck := Pick(d.skipBcVersionCheck, c.skipBcVersionCheck),
      databaseHandles := Pick(d.databaseHandles, c.databaseHandles),
      databaseCache := Pick(d.databaseCache, c.databaseCache),
      databaseFreezer := c.databaseFreezer,
      trieCleanCache := Pick(d.trieCleanCache, c.trieCleanCache),
      trieDirtyCache := Pick(d.trieDirtyCache, c.trieDirtyCache),
      trieTimeout := Pick(d.trieTimeout, c.trieTimeout),
      miner := Pick(d.miner, c.miner),
      sofash := Pick(d.sofash, c.sofash),
      txPool := Pick(d.txPool, c.txPool),
      gpo := Pick(d.gpo, c.gpo),
      enablePreimageRecording := Pick(d.enablePreimageRecording, c.enablePreimageRecording),
      docRoot := Pick(d.docRoot, c.docRoot),
      ewasmInterpreter := Pick(d.ewasmInterpreter, c.ewasmInterpreter),
      svmInterpreter := Pick(d.svmInterpreter, c.svmInterpreter),
      constantinopleOverride := PickPointer(d.constantinopleOverride, c.constantinopleOverride),
      rpcGasCap := PickPointer(d.rpcGasCap, c.rpcGasCap))
  }

  /** One generated assignment: a present decoded field overwrites the current value. */
  method Assign<T>(current: T, decoded: Option<T>) returns (v: T)
    ensures v == Pick(decoded, current)
  {
    v := current;
    if decoded.Some? {
      v := decoded.value;
    }
  }

  /** One generated pointer assignment: a non-nil decoded pointer replaces the current one. */
  method AssignPointer<T>(current: Option<T>, decoded: Option<T>) returns (v: Option<T>)
    ensures v == PickPointer(decoded, current)
  {
    v := current;
    if decoded.Some? {
      v := decoded;
    }
  }

  /**
   * UnmarshalTOML. A decoder error is returned as is and the config is left
   * unchanged; otherwise each field present in the decoded record
   * overwrites the config's field and the rest stay. Go assigns the fields
   * of the receiver one by one; here each field's new value is settled by
   * one generated assignment and the record is rebuilt once.
   */
  method UnmarshalTOML(c: Config, decoded: Result<DecodedConfig, string>) returns (r: Config, err: Option<string>)
    ensures decoded.Err? ==> err == Some(decoded.error) && r == c
    ensures decoded.Ok? ==> err == None && r == Overlay(c, decoded.value)
  {
    if decoded.Err? {
      return c, Some(decoded.error);
    }
    var dec := decoded.value;
    var genesis := AssignPointer(c.genesis, dec.genesis);
    var networkId := Assign(c.networkId, dec.networkId);
    var syncMode := Assign(c.syncMode, dec.syncMode);
    var noPruning := Assign(c.noPruning, dec.noPruning);
    var noPrefetch := Assign(c.noPrefetch, dec.noPrefetch);
    var whitelist := AssignPointer(c.whitelist, dec.whitelist);
    var lightServ := Assign(c.lightServ, dec.lightServ);
    var lightBandwidthIn := Assign(c.lightBandwidthIn, dec.lightBandwidthIn);
    var lightBandwidthOut := Assign(c.lightBandwidthOut, dec.lightBandwidthOut);
    var lightPeers := Assign(c.lightPeers, dec.lightPeers);
    var onlyAnnounce := Assign(c.onlyAnnounce, dec.onlyAnnounce);
    var ulc := AssignPointer(c.ulc, dec.ulc);
    var skipBcVersionCheck := Assign(c.skipBcVersionCheck, dec.skipBcVersionCheck);
    var databaseHandles := Assign(c.databaseHandles, dec.databaseHandles);
    var databaseCache := Assign(c.databaseCache, dec.databaseCache);
    var trieCleanCache := Assign(c.trieCleanCache, dec.trieCleanCache);
    var trieDirtyCache := Assign(c.trieDirtyCache, dec.trieDirtyCache);
    var trieTimeout := Assign(c.trieTimeout, dec.trieTimeout);
    var miner := Assign(c.miner, dec.miner);
    var sofash := Assign(c.sofash, dec.sofash);
    var txPool := Assign(c.txPool, dec.txPool);
    var gpo := Assign(c.gpo, dec.gpo);
    var enablePreimageRecording := Assign(c.enablePreimageRecording, dec.enablePreimageRecording);
    var docRoot := Assign(c.docRoot, dec.docRoot);
    var ewasmInterpreter := Assign(c.ewasmInterpreter, dec.ewasmInterpreter);
    var svmInterpreter := Assign(c.svmInterpreter, dec.svmInterpreter);
    var constantinopleOverride := AssignPointer(c.constantinopleOverride, dec.constantinopleOverride);
    var rpcGasCap := AssignPointer(c.rpcGasCap, dec.rpcGasCap);
    r := Config(genesis, networkId, syncMode, noPruning, noPrefetch, whitelist,
                lightServ, lightBandwidthIn, lightBandwidthOut, lightPeers, onlyAnnounce, ulc,
                skipBcVersionCheck, databaseHandles, databaseCache, c.databaseFreezer,
                trieCleanCache, trieDirtyCache, trieTimeout, miner, sofash, txPool, gpo,
                enablePreimageRecording, docRoot, ewasmInterpreter, svmInterpreter,
                constantinopleOverride, rpcGasCap);
    err := None;
  }

  /** Decoding a document with no fields changes nothing. */
  lemma OverlayNothing(c: Config)
    ensures Overlay(c, NothingDecoded()) == c
  {
  }

  /** DatabaseFreezer is never altered by unmarshalling. */
  lemma OverlayKeepsFreezer(c: Config, d: DecodedConfig)
    ensures Overlay(c, d).databaseFreezer == c.databaseFreezer
  {
  }

  /** Applying the same decoded record twice is the same as applying it once. */
  lemma OverlayIdempotent(c: Config, d: DecodedConfig)
    ensures Overlay(Overlay(c, d), d) == Overlay(c, d)
  {
  }

  /** Unmarshalling what MarshalTOML(c) wrote back into c leaves c unchanged. */
  lemma MarshalRoundTrip(c: Config)
    ensures Overlay(c, Present(MarshalTOML(c).value)) == c
  {
  }

  /** Every pointer (and map) field of a marshalled record is non-nil. */
  predicate PointersSet(e: EncodedConfig)
  {
    e.genesis.Some? && e.whitelist.Some? && e.ulc.Some? && e.constantinopleOverride.Some? && e.rpcGasCap.Some?
  }

  /**
   * A record with every field present decides every field but the freezer:
   * two configs overwritten with it differ at most in DatabaseFreezer, and
   * the result marshals back to the same record. A nil pointer in the
   * record is absent, so it does not decide its field.
   */
  lemma OverlayPresentDecides(a: Config, b: Config, e: EncodedConfig)
    requires PointersSet(e)
    ensures Overlay(a, Present(e)) == Overlay(b, Present(e)).(databaseFreezer := a.databaseFreezer)
    ensures MarshalTOML(Overlay(a, Present(e))).value == e
  {
  }

  /** MarshalTOML loses exactly DatabaseFreezer: configs agreeing elsewhere marshal alike, and only those. */
  lemma MarshalForgetsOnlyFreezer(a: Config, b: Config)
    ensures MarshalTOML(a) == MarshalTOML(b) <==> a.(databaseFreezer := "") == b.(databaseFreezer := "")
  {
  }
}
