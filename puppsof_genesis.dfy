/**
 * cmd/puppsof/genesis.go: conversion of a genesis record into the chain
 * specification formats of three other clients (Alsof, Susy, PySophon).
 *
 * The two map-based specs are objects that the converters fill field by
 * field and that the set* methods update in place. Go allocates the
 * Accounts map lazily (`if spec.Accounts == nil { make(...) }`); here the
 * map is a value that starts empty, which reads the same.
 */
module PuppsofGenesis {
  import opened Wrappers
  import opened CoreTypes
  import opened Encoding
  import opened Params

  const UnsupportedEngine: string := "unsupported consensus engine"

  /** common.BytesToAddress([]byte{k}): nineteen zero bytes, then k. */
  function PrecompileAddress(k: Byte): (a: Address)
    ensures a[19] == k && a[..19] == ZeroAddress()[..19]
  {
    ZeroAddress()[19 := k]
  }

  /** The addresses 1..n as precompile addresses. */
  function PrecompileAddresses(n: nat): set<Address>
  {
    set k: Byte | 1 <= k as nat <= n :: PrecompileAddress(k)
  }

  /** An address is one of the first n precompile addresses. */
  predicate IsPrecompile(a: Address, n: nat)
  {
    a[..19] == ZeroAddress()[..19] && 1 <= a[19] as nat <= n
  }

  lemma PrecompileAddressesMembership(a: Address, n: nat)
    ensures a in PrecompileAddresses(n) <==> IsPrecompile(a, n)
  {
    if IsPrecompile(a, n) {
      assert a == PrecompileAddress(a[19]);
    }
  }

  /** The first n precompiles are the first n - 1 and the n-th. */
  lemma IsPrecompileStep(x: Address, n: nat)
    requires 1 <= n <= 8
    ensures IsPrecompile(x, n) <==> IsPrecompile(x, n - 1) || x == PrecompileAddress(n as Byte)
  {
    if IsPrecompile(x, n) && x[19] as nat == n {
      assert x == PrecompileAddress(x[19]);
    }
  }

  /** How many precompiles a chain gets: 8 from Byzantium on, 4 before. */
  function PrecompileCount(config: ChainConfig): nat
  {
    if config.byzantiumBlock.Some? then 8 else 4
  }

  /** The Byzantium block truncated to 64 bits, 0 when unset. */
  function ByzantiumStart(config: ChainConfig): nat
  {
    if config.byzantiumBlock.Some? then Low64(config.byzantiumBlock.value) else 0
  }

  /** Lower-case an ASCII letter; other characters are kept. */
  function LowerChar(c: char): char
  {
    if 'A' <= c <= 'Z' then (c as int + 32) as char else c
  }

  /** strings.ToLower restricted to ASCII letters. */
  function ToLower(s: string): (r: string)
    ensures |r| == |s|
    ensures forall i :: 0 <= i < |s| ==> r[i] == LowerChar(s[i])
  {
    seq(|s|, i requires 0 <= i < |s| => LowerChar(s[i]))
  }

  /** A lower-cased name has no upper-case ASCII letter, and lowering it again changes nothing. */
  lemma ToLowerIdempotent(s: string)
    ensures forall i :: 0 <= i < |s| ==> !('A' <= ToLower(s)[i] <= 'Z')
    ensures ToLower(ToLower(s)) == ToLower(s)
  {
  }

  // ---------------------------------------------------------------------
  // Alsof (C++ client) genesis specification
  // ---------------------------------------------------------------------

  datatype AlsofLinearPricing = AlsofLinearPricing(base: nat, word: nat)

  datatype AlsofBuiltin = AlsofBuiltin(name: string, startingBlock: nat, linear: Option<AlsofLinearPricing>)

  /** A prefunded account and/or precompile; `balance` is None for a nil pointer. */
  datatype AlsofAccount = AlsofAccount(balance: Option<nat>, nonce: nat, precompiled: Option<AlsofBuiltin>)

  datatype AlsofParams = AlsofParams(
    accountStartNonce: nat,
    maximumExtraDataSize: nat,
    homesteadForkBlock: nat,
    daoHardforkBlock: nat,
    sip150ForkBlock: nat,
    sip158ForkBlock: nat,
    byzantiumForkBlock: nat,
    constantinopleForkBlock: nat,
    minGasLimit: nat,
    maxGasLimit: nat,
    tieBreakingGas: bool,
    gasLimitBoundDivisor: nat,
    minimumDifficulty: nat,
    difficultyBoundDivisor: nat,
    durationLimit: nat,
    blockReward: nat,
    networkId: nat,
    chainId: nat,
    allowFutureBlocks: bool
  )

  datatype AlsofGenesis = AlsofGenesis(
    nonce: seq<Byte>,
    difficulty: nat,
    mixHash: Hash,
    author: Address,
    timestamp: nat,
    parentHash: Hash,
    extraData: seq<Byte>,
    gasLimit: nat
  )

  function ZeroAlsofParams(): AlsofParams
  {
    AlsofParams(0, 0, 0, 0, 0, 0, 0, 0, 0, 0, false, 0, 0, 0, 0, 0, 0, 0, false)
  }

  function ZeroAlsofGenesis(): AlsofGenesis
  {
    AlsofGenesis([], 0, ZeroHash(), ZeroAddress(), 0, ZeroHash(), [], 0)
  }

  /** The Alsof precompile table; 5..8 start at the given Byzantium block. */
  function AlsofPrecompile(k: Byte, byzantium: nat): AlsofBuiltin
    requires 1 <= k <= 8
  {
    match k
    case 1 => AlsofBuiltin("ecrecover", 0, Some(AlsofLinearPricing(3000, 0)))
    case 2 => AlsofBuiltin("sha256", 0, Some(AlsofLinearPricing(60, 12)))
    case 3 => AlsofBuiltin("ripemd160", 0, Some(AlsofLinearPricing(600, 120)))
    case 4 => AlsofBuiltin("identity", 0, Some(AlsofLinearPricing(15, 3)))
    case 5 => AlsofBuiltin("modexp", byzantium, None)
    case 6 => AlsofBuiltin("alt_bn128_G1_add", byzantium, Some(AlsofLinearPricing(500, 0)))
    case 7 => AlsofBuiltin("alt_bn128_G1_mul", byzantium, Some(AlsofLinearPricing(40000, 0)))
    case _ => AlsofBuiltin("alt_bn128_pairing_product", byzantium, None)
  }

  /** The accounts made from the genesis allocations alone. */
  function AlsofAllocAccounts(alloc: map<Address, GenesisAccount>, keys: set<Address>): map<Address, AlsofAccount>
  {
    map a | a in keys && a in alloc :: AlsofAccount(Some(alloc[a].balance), alloc[a].nonce, None)
  }

  /**
   * The allocation accounts with the first n precompiles installed: a
   * precompile address gets its builtin; an allocation at that address
   * keeps its balance and nonce; a precompile without allocation gets a
   * nil balance and nonce 0.
   */
  function AlsofWithPrecompiles(base: map<Address, AlsofAccount>, n: nat, byzantium: nat): map<Address, AlsofAccount>
    requires n <= 8
  {
    map a | a in base.Keys + PrecompileAddresses(n) ::
      var builtin := if IsPrecompile(a, n) then Some(AlsofPrecompile(a[19], byzantium)) else None;
      if a in base then
        (if builtin.Some? then base[a].(precompiled := builtin) else base[a])
      else AlsofAccount(None, 0, builtin)
  }

  /** The accounts section of the Alsof spec for a genesis. */
  function AlsofAccounts(g: Genesis): map<Address, AlsofAccount>
  {
    AlsofWithPrecompiles(AlsofAllocAccounts(g.alloc, g.alloc.Keys), PrecompileCount(g.config), ByzantiumStart(g.config))
  }

  /** setPrecompile on a map: create an empty account if absent, then set only the builtin. */
  lemma {:induction false} AlsofPrecompileStep(base: map<Address, AlsofAccount>, n: nat, byzantium: nat)
    requires 1 <= n <= 8
    requires forall a :: a in base ==> base[a].precompiled == None
    ensures var prev := AlsofWithPrecompiles(base, n - 1, byzantium);
      var a := PrecompileAddress(n as Byte);
      var data := AlsofPrecompile(n as Byte, byzantium);
      AlsofWithPrecompiles(base, n, byzantium) ==
        prev[a := if a in prev then prev[a].(precompiled := Some(data)) else AlsofAccount(None, 0, Some(data))]
  {
    var prev := AlsofWithPrecompiles(base, n - 1, byzantium);
    var a := PrecompileAddress(n as Byte);
    var data := AlsofPrecompile(n as Byte, byzantium);
    var next := prev[a := if a in prev then prev[a].(precompiled := Some(data)) else AlsofAccount(None, 0, Some(data))];
    var want := AlsofWithPrecompiles(base, n, byzantium);
    forall x
      ensures x in want <==> x in next
    {
      PrecompileAddressesMembership(x, n);
      PrecompileAddressesMembership(x, n - 1);
    }
    forall x | x in want
      ensures want[x] == next[x]
    {
      IsPrecompileStep(x, n);
      if x != a {
        PrecompileAddressesMembership(x, n);
        PrecompileAddressesMembership(x, n - 1);
      }
    }
  }

  /** Precompiles 1..4 are always installed with their builtin. */
  lemma {:induction false} AlsofBasePrecompiles(g: Genesis, k: Byte)
    requires 1 <= k <= 4
    ensures PrecompileAddress(k) in AlsofAccounts(g)
    ensures AlsofAccounts(g)[PrecompileAddress(k)].precompiled == Some(AlsofPrecompile(k, ByzantiumStart(g.config)))
  {
    PrecompileAddressesMembership(PrecompileAddress(k), PrecompileCount(g.config));
  }

  /**
   * Precompiles 5..8 carry a builtin exactly when Byzantium is set, and it
   * starts at the Byzantium block; without Byzantium the address is
   * present only if the genesis allocates it.
   */
  lemma {:induction false} AlsofByzantiumPrecompiles(g: Genesis, k: Byte)
    requires 5 <= k <= 8
    ensures var a := PrecompileAddress(k);
      (a in AlsofAccounts(g) <==> g.config.byzantiumBlock.Some? || a in g.alloc)
      && (a in AlsofAccounts(g) ==>
            (AlsofAccounts(g)[a].precompiled.Some? <==> g.config.byzantiumBlock.Some?))
      && (g.config.byzantiumBlock.Some? ==>
            AlsofAccounts(g)[a].precompiled.value.startingBlock == Low64(g.config.byzantiumBlock.value))
  {
    PrecompileAddressesMembership(PrecompileAddress(k), PrecompileCount(g.config));
  }

  /** Every allocation keeps its balance and nonce in the Alsof accounts. */
  lemma {:induction false} AlsofKeepsAllocations(g: Genesis, a: Address)
    requires a in g.alloc
    ensures a in AlsofAccounts(g)
    ensures AlsofAccounts(g)[a].balance == Some(g.alloc[a].balance)
    ensures AlsofAccounts(g)[a].nonce == g.alloc[a].nonce
  {
  }

  class AlsofGenesisSpec {
    var sealEngine: string
    var params: AlsofParams
    var genesis: AlsofGenesis
    var accounts: map<Address, AlsofAccount>

    constructor (sealEngine: string)
      ensures this.sealEngine == sealEngine
      ensures params == ZeroAlsofParams() && genesis == ZeroAlsofGenesis() && accounts == map[]
    {
      this.sealEngine := sealEngine;
      params := ZeroAlsofParams();
      genesis := ZeroAlsofGenesis();
      accounts := map[];
    }

    /**
     * setPrecompile: creates an empty account at the precompile address if
     * none exists, then overwrites only its Precompiled field.
     */
    method SetPrecompile(address: Byte, data: AlsofBuiltin)
      modifies this`accounts
      ensures var a := PrecompileAddress(address);
        accounts == old(accounts)[a := if a in old(accounts)
          then old(accounts)[a].(precompiled := Some(data))
          else AlsofAccount(None, 0, Some(data))]
    {
      var a := PrecompileAddress(address);
      if a !in accounts {
        accounts := accounts[a := AlsofAccount(None, 0, None)];
      }
      accounts := accounts[a := accounts[a].(precompiled := Some(data))];
    }

    /**
     * setAccount: creates the account if absent, then overwrites only its
     * Balance and Nonce; a precompile already there stays.
     */
    method SetAccount(address: Address, account: GenesisAccount)
      modifies this`accounts
      ensures accounts == old(accounts)[address := if address in old(accounts)
        then old(accounts)[address].(balance := Some(account.balance), nonce := account.nonce)
        else AlsofAccount(Some(account.balance), account.nonce, None)]
    {
      var a := if address in accounts then accounts[address] else AlsofAccount(None, 0, None);
      accounts := accounts[address := a];
      accounts := accounts[address := accounts[address].(balance := Some(account.balance), nonce := account.nonce)];
    }

    /** The allocation loop of newAlsofGenesisSpec, on an empty accounts map. */
    method AddAllocations(alloc: map<Address, GenesisAccount>)
      requires accounts == map[]
      modifies this`accounts
      ensures accounts == AlsofAllocAccounts(alloc, alloc.Keys)
    {
      var remaining := alloc.Keys;
      while remaining != {}
        invariant remaining <= alloc.Keys
        invariant accounts == AlsofAllocAccounts(alloc, alloc.Keys - remaining)
        decreases |remaining|
      {
        var address :| address in remaining;
        SetAccount(address, alloc[address]);
        remaining := remaining - {address};
      }
      assert alloc.Keys - {} == alloc.Keys;
    }

    /** The setPrecompile calls of newAlsofGenesisSpec: 1..4, and 5..8 when n is 8. */
    method InstallPrecompiles(n: nat, byzantium: nat)
      requires n == 4 || n == 8
      requires forall a :: a in accounts ==> accounts[a].precompiled == None
      modifies this`accounts
      ensures accounts == AlsofWithPrecompiles(old(accounts), n, byzantium)
    {
      ghost var base := accounts;
      assert base == AlsofWithPrecompiles(base, 0, byzantium);
      InstallPrecompile(base, 1, byzantium);
      InstallPrecompile(base, 2, byzantium);
      InstallPrecompile(base, 3, byzantium);
      InstallPrecompile(base, 4, byzantium);
      if n == 8 {
        InstallPrecompile(base, 5, byzantium);
        InstallPrecompile(base, 6, byzantium);
        InstallPrecompile(base, 7, byzantium);
        InstallPrecompile(base, 8, byzantium);
      }
    }

    /** One setPrecompile call of the sequence: precompile k joins the first k - 1. */
    method InstallPrecompile(ghost base: map<Address, AlsofAccount>, k: Byte, byzantium: nat)
      requires 1 <= k <= 8
      requires forall a :: a in base ==> base[a].precompiled == None
      requires accounts == AlsofWithPrecompiles(base, k as nat - 1, byzantium)
      modifies this`accounts
      ensures accounts == AlsofWithPrecompiles(base, k as nat, byzantium)
    {
      AlsofPrecompileStep(base, k as nat, byzantium);
      SetPrecompile(k, AlsofPrecompile(k, byzantium));
    }

    method SetByzantium(num: nat)
      modifies this`params
      ensures params == old(params).(byzantiumForkBlock := Low64(num))
    {
      params := params.(byzantiumForkBlock := Low64(num));
    }

    method SetConstantinople(num: nat)
      modifies this`params
      ensures params == old(params).(constantinopleForkBlock := Low64(num))
    {
      params := params.(constantinopleForkBlock := Low64(num));
    }
  }

  /** The fork blocks the Alsof converter dereferences unconditionally. */
  predicate AlsofForksSet(config: ChainConfig)
  {
    config.homesteadBlock.Some? && config.sip150Block.Some? && config.sip158Block.Some? && config.chainId.Some?
  }

  /**
   * What newAlsofGenesisSpec puts outside the accounts section: the Sofash
   * seal engine; the fork blocks and the chain id truncated to 64 bits,
   * NetworkID and ChainID both being the chain id; the protocol constants;
   * and the header fields with the nonce as eight little-endian bytes.
   */
  predicate AlsofHeaderOf(spec: AlsofGenesisSpec, g: Genesis)
    requires AlsofForksSet(g.config)
    reads spec`sealEngine, spec`params, spec`genesis
  {
    var c := g.config;
    && spec.sealEngine == "Sofash"
    && spec.params.accountStartNonce == 0 && spec.params.daoHardforkBlock == 0
    && !spec.params.tieBreakingGas && !spec.params.allowFutureBlocks
    && spec.params.homesteadForkBlock == Low64(c.homesteadBlock.value)
    && spec.params.sip150ForkBlock == Low64(c.sip150Block.value)
    && spec.params.sip158ForkBlock == Low64(c.sip158Block.value)
    && spec.params.byzantiumForkBlock == ByzantiumStart(c)
    && spec.params.constantinopleForkBlock == (if c.constantinopleBlock.Some? then Low64(c.constantinopleBlock.value) else 0)
    && spec.params.networkId == Low64(c.chainId.value)
    && spec.params.chainId == Low64(c.chainId.value)
    && spec.params.maximumExtraDataSize == MaximumExtraDataSize
    && spec.params.minGasLimit == MinGasLimit && spec.params.maxGasLimit == MaxInt64
    && spec.params.minimumDifficulty == MinimumDifficulty
    && spec.params.difficultyBoundDivisor == DifficultyBoundDivisor
    && spec.params.gasLimitBoundDivisor == GasLimitBoundDivisor
    && spec.params.durationLimit == DurationLimit
    && spec.params.blockReward == FrontierBlockReward
    && spec.genesis == AlsofGenesis(PutUint64(g.nonce), g.difficulty, g.mixhash, g.coinbase,
                                    g.timestamp, g.parentHash, g.extraData, g.gasLimit)
  }

  /**
   * newAlsofGenesisSpec. Only sofash chains convert; otherwise no spec and
   * the "unsupported consensus engine" error. The fork blocks and the chain
   * id are copied truncated to 64 bits, NetworkID and ChainID both being the
   * chain id; the nonce becomes eight little-endian bytes; every allocation
   * keeps balance and nonce; and the precompile table is installed.
   */
  method NewAlsofGenesisSpec(network: string, g: Genesis) returns (spec: AlsofGenesisSpec?, err: Option<string>)
    requires g.config.sofash ==> AlsofForksSet(g.config)
    ensures !g.config.sofash ==> spec == null && err == Some(UnsupportedEngine)
    ensures g.config.sofash ==> spec != null && fresh(spec) && err == None
    ensures spec != null ==> AlsofHeaderOf(spec, g) && spec.accounts == AlsofAccounts(g)
  {
    if !g.config.sofash {
      return null, Some(UnsupportedEngine);
    }
    spec := new AlsofGenesisSpec("Sofash");
    var c := g.config;
    spec.params := spec.params.(accountStartNonce := 0, tieBreakingGas := false,
                                allowFutureBlocks := false, daoHardforkBlock := 0);
    spec.params := spec.params.(homesteadForkBlock := Low64(c.homesteadBlock.value),
                                sip150ForkBlock := Low64(c.sip150Block.value),
                                sip158ForkBlock := Low64(c.sip158Block.value));
    if c.byzantiumBlock.Some? {
      spec.SetByzantium(c.byzantiumBlock.value);
    }
    if c.constantinopleBlock.Some? {
      spec.SetConstantinople(c.constantinopleBlock.value);
    }
    spec.params := spec.params.(networkId := Low64(c.chainId.value), chainId := Low64(c.chainId.value),
                                maximumExtraDataSize := MaximumExtraDataSize, minGasLimit := MinGasLimit,
                                maxGasLimit := MaxInt64, minimumDifficulty := MinimumDifficulty,
                                difficultyBoundDivisor := DifficultyBoundDivisor,
                                gasLimitBoundDivisor := GasLimitBoundDivisor,
                                durationLimit := DurationLimit, blockReward := FrontierBlockReward);
    spec.genesis := spec.genesis.(nonce := PutUint64(g.nonce));
    spec.genesis := spec.genesis.(mixHash := g.mixhash, difficulty := g.difficulty, author := g.coinbase,
                                  timestamp := g.timestamp, parentHash := g.parentHash,
                                  extraData := g.extraData, gasLimit := g.gasLimit);

    spec.AddAllocations(g.alloc);
    spec.InstallPrecompiles(PrecompileCount(c), ByzantiumStart(c));
    err := None;
  }

  // ---------------------------------------------------------------------
  // Susy (Rust client) chain specification
  // ---------------------------------------------------------------------

  /** The pricing of a Susy builtin; exactly one of Go's three pointers is set. */
  datatype SusyPricing =
    | Linear(base: nat, word: nat)
    | ModExp(divisor: nat)
    | AltBnPairing(base: nat, pair: nat)

  datatype SusyBuiltin = SusyBuiltin(name: string, activateAt: nat, pricing: SusyPricing)

  datatype SusyAccount = SusyAccount(balance: nat, nonce: nat, builtin: Option<SusyBuiltin>)

  /** Engine.Sofash.Params; the two maps are keyed by hex block numbers. */
  datatype SusyEngineParams = SusyEngineParams(
    minimumDifficulty: nat,
    difficultyBoundDivisor: nat,
    durationLimit: nat,
    blockReward: map<string, string>,
    difficultyBombDelays: map<string, string>,
    homesteadTransition: nat,
    sip100bTransition: nat
  )

  datatype SusyParams = SusyParams(
    accountStartNonce: nat,
    maximumExtraDataSize: nat,
    minGasLimit: nat,
    gasLimitBoundDivisor: nat,
    networkId: nat,
    chainId: nat,
    maxCodeSize: nat,
    maxCodeSizeTransition: nat,
    sip98Transition: nat,
    sip150Transition: nat,
    sip160Transition: nat,
    sip161abcTransition: nat,
    sip161dTransition: nat,
    sip155Transition: nat,
    sip140Transition: nat,
    sip211Transition: nat,
    sip214Transition: nat,
    sip658Transition: nat,
    sip145Transition: nat,
    sip1014Transition: nat,
    sip1052Transition: nat,
    sip1283Transition: nat,
    sip1283DisableTransition: nat
  )

  datatype SusyGenesis = SusyGenesis(
    nonce: seq<Byte>,
    mixHash: seq<Byte>,
    difficulty: nat,
    author: Address,
    timestamp: nat,
    parentHash: Hash,
    extraData: seq<Byte>,
    gasLimit: nat
  )

  function ZeroSusyEngineParams(): SusyEngineParams
  {
    SusyEngineParams(0, 0, 0, map[], map[], 0, 0)
  }

  function ZeroSusyParams(): SusyParams
  {
    SusyParams(0, 0, 0, 0, 0, 0, 0, 0, 0, 0, 0, 0, 0, 0, 0, 0, 0, 0, 0, 0, 0, 0, 0)
  }

  function ZeroSusyGenesis(): SusyGenesis
  {
    SusyGenesis([], [], 0, ZeroAddress(), 0, ZeroHash(), [], 0)
  }

  /** Difficulty bomb delays of the two forks (hexutil.EncodeUint64 prints like EncodeBig). */
  const ByzantiumBombDelay: nat := 3000000
  const ConstantinopleBombDelay: nat := 2000000

  /** The hexutil.EncodeBig texts of the block rewards and bomb delays, as the Susy spec stores them. */
  const FrontierRewardHex: string := EncodeBig(FrontierBlockReward)
  const ByzantiumRewardHex: string := EncodeBig(ByzantiumBlockReward)
  const ConstantinopleRewardHex: string := EncodeBig(ConstantinopleBlockReward)
  const ByzantiumDelayHex: string := EncodeBig(ByzantiumBombDelay)
  const ConstantinopleDelayHex: string := EncodeBig(ConstantinopleBombDelay)

  /** The Susy precompile table; 5..8 activate at the given Byzantium block. */
  function SusyPrecompile(k: Byte, byzantium: nat): SusyBuiltin
    requires 1 <= k <= 8
  {
    match k
    case 1 => SusyBuiltin("ecrecover", 0, Linear(3000, 0))
    case 2 => SusyBuiltin("sha256", 0, Linear(60, 12))
    case 3 => SusyBuiltin("ripemd160", 0, Linear(600, 120))
    case 4 => SusyBuiltin("identity", 0, Linear(15, 3))
    case 5 => SusyBuiltin("modexp", byzantium, ModExp(20))
    case 6 => SusyBuiltin("alt_bn128_add", byzantium, Linear(500, 0))
    case 7 => SusyBuiltin("alt_bn128_mul", byzantium, Linear(40000, 0))
    case _ => SusyBuiltin("alt_bn128_pairing", byzantium, AltBnPairing(100000, 80000))
  }

  /** The accounts made from the genesis allocations alone. */
  function SusyAllocAccounts(alloc: map<Address, GenesisAccount>, keys: set<Address>): map<Address, SusyAccount>
  {
    map a | a in keys && a in alloc :: SusyAccount(alloc[a].balance, alloc[a].nonce, None)
  }

  /** The allocation accounts with the first n precompiles installed. */
  function SusyWithPrecompiles(base: map<Address, SusyAccount>, n: nat, byzantium: nat): map<Address, SusyAccount>
    requires n <= 8
  {
    map a | a in base.Keys + PrecompileAddresses(n) ::
      var builtin := if IsPrecompile(a, n) then Some(SusyPrecompile(a[19], byzantium)) else None;
      if a in base then
        (if builtin.Some? then base[a].(builtin := builtin) else base[a])
      else SusyAccount(0, 0, builtin)
  }

  /** The accounts section of the Susy spec for a genesis. */
  function SusyAccounts(g: Genesis): map<Address, SusyAccount>
  {
    SusyWithPrecompiles(SusyAllocAccounts(g.alloc, g.alloc.Keys), PrecompileCount(g.config), ByzantiumStart(g.config))
  }

  lemma {:induction false} SusyPrecompileStep(base: map<Address, SusyAccount>, n: nat, byzantium: nat)
    requires 1 <= n <= 8
    requires forall a :: a in base ==> base[a].builtin == None
    ensures var prev := SusyWithPrecompiles(base, n - 1, byzantium);
      var a := PrecompileAddress(n as Byte);
      var data := SusyPrecompile(n as Byte, byzantium);
      SusyWithPrecompiles(base, n, byzantium) ==
        prev[a := if a in prev then prev[a].(builtin := Some(data)) else SusyAccount(0, 0, Some(data))]
  {
    var prev := SusyWithPrecompiles(base, n - 1, byzantium);
    var a := PrecompileAddress(n as Byte);
    var data := SusyPrecompile(n as Byte, byzantium);
    var next := prev[a := if a in prev then prev[a].(builtin := Some(data)) else SusyAccount(0, 0, Some(data))];
    var want := SusyWithPrecompiles(base, n, byzantium);
    forall x
      ensures x in want <==> x in next
    {
      PrecompileAddressesMembership(x, n);
      PrecompileAddressesMembership(x, n - 1);
    }
    forall x | x in want
      ensures want[x] == next[x]
    {
      IsPrecompileStep(x, n);
      if x != a {
        PrecompileAddressesMembership(x, n);
        PrecompileAddressesMembership(x, n - 1);
      }
    }
  }

  /**
   * Which precompiles the Susy spec carries: 1..4 always, 5..8 exactly when
   * Byzantium is set, activating at the Byzantium block; an address is in
   * the accounts only if it is one of those or is allocated.
   */
  lemma {:induction false} SusyPrecompiles(g: Genesis, k: Byte)
    requires 1 <= k <= 8
    ensures var a := PrecompileAddress(k);
      (a in SusyAccounts(g) <==> k <= 4 || g.config.byzantiumBlock.Some? || a in g.alloc)
      && (a in SusyAccounts(g) ==>
            (SusyAccounts(g)[a].builtin.Some? <==> k <= 4 || g.config.byzantiumBlock.Some?))
      && (a in SusyAccounts(g) && SusyAccounts(g)[a].builtin.Some? ==>
            SusyAccounts(g)[a].builtin.value == SusyPrecompile(k, ByzantiumStart(g.config)))
  {
    PrecompileAddressesMembership(PrecompileAddress(k), PrecompileCount(g.config));
  }

  /** Every allocation keeps its balance and nonce; no other address but a precompile appears. */
  lemma {:induction false} SusyAccountsDomain(g: Genesis, a: Address)
    ensures a in SusyAccounts(g) <==> a in g.alloc || IsPrecompile(a, PrecompileCount(g.config))
    ensures a in g.alloc ==>
      SusyAccounts(g)[a].balance == g.alloc[a].balance && SusyAccounts(g)[a].nonce == g.alloc[a].nonce
  {
    PrecompileAddressesMembership(a, PrecompileCount(g.config));
  }

  /** A map with an entry added when the key is present. */
  function Put<K, V>(m: map<K, V>, k: Option<K>, v: V): map<K, V>
  {
    if k.Some? then m[k.value := v] else m
  }

  /** Looking up x after a Put: the new entry if its key is x, the old map otherwise. */
  lemma PutLookup<K, V>(m: map<K, V>, k: Option<K>, v: V, x: K)
    ensures x in Put(m, k, v) <==> x in m || k == Some(x)
    ensures x in Put(m, k, v) ==> Put(m, k, v)[x] == if k == Some(x) then v else m[x]
  {
  }

  /** The hex key a fork block is filed under, hexutil.EncodeBig of the full number. */
  function KeyOf(block: Option<nat>): Option<string>
  {
    if block.Some? then Some(EncodeBig(block.value)) else None
  }

  lemma KeyOfMatches(block: Option<nat>, n: nat)
    ensures KeyOf(block) == Some(EncodeBig(n)) <==> block == Some(n)
  {
    if block.Some? {
      EncodeBigInjective(n, block.value);
    }
  }

  /**
   * The block reward schedule keyed by hex block number, as the converter
   * builds it: "0x0" (EncodeBig(0)) for Frontier, then Byzantium, then
   * Constantinople, a later entry overwriting an earlier one at the same key.
   */
  function SusyBlockRewards(config: ChainConfig): map<string, string>
  {
    var frontier := map[EncodeBig(0) := FrontierRewardHex];
    Put(Put(frontier, KeyOf(config.byzantiumBlock), ByzantiumRewardHex),
        KeyOf(config.constantinopleBlock), ConstantinopleRewardHex)
  }

  /** The difficulty bomb delays keyed by hex block number, as the converter builds them. */
  function SusyBombDelays(config: ChainConfig): map<string, string>
  {
    Put(Put(map[], KeyOf(config.byzantiumBlock), ByzantiumDelayHex),
        KeyOf(config.constantinopleBlock), ConstantinopleDelayHex)
  }

  /** The reward in force from block n on: the latest fork starting exactly at n. */
  function RewardFrom(config: ChainConfig, n: nat): nat
  {
    if config.constantinopleBlock == Some(n) then ConstantinopleBlockReward
    else if config.byzantiumBlock == Some(n) then ByzantiumBlockReward
    else FrontierBlockReward
  }

  lemma EncodeBigZero()
    ensures EncodeBig(0) == "0x0"
  {
  }

  /**
   * The reward schedule has an entry for block n exactly when n is 0 or a
   * fork block, holding the reward of the latest fork starting there
   * (Constantinople overrides Byzantium at the same block, and a fork at 0
   * overrides the Frontier reward).
   */
  lemma {:induction false} SusyBlockRewardsSchedule(config: ChainConfig, n: nat)
    ensures EncodeBig(n) in SusyBlockRewards(config) <==>
      n == 0 || config.byzantiumBlock == Some(n) || config.constantinopleBlock == Some(n)
    ensures EncodeBig(n) in SusyBlockRewards(config) ==>
      SusyBlockRewards(config)[EncodeBig(n)] == EncodeBig(RewardFrom(config, n))
  {
    EncodeBigInjective(n, 0);
    KeyOfMatches(config.byzantiumBlock, n);
    KeyOfMatches(config.constantinopleBlock, n);
    var frontier := map[EncodeBig(0) := FrontierRewardHex];
    var byzantium := Put(frontier, KeyOf(config.byzantiumBlock), ByzantiumRewardHex);
    PutLookup(frontier, KeyOf(config.byzantiumBlock), ByzantiumRewardHex, EncodeBig(n));
    PutLookup(byzantium, KeyOf(config.constantinopleBlock), ConstantinopleRewardHex, EncodeBig(n));
  }

  /** The reward schedule has no key but "0x0" and the fork blocks' keys. */
  lemma SusyBlockRewardsKeys(config: ChainConfig, key: string)
    requires key in SusyBlockRewards(config)
    ensures key == "0x0" || Some(key) == KeyOf(config.byzantiumBlock) || Some(key) == KeyOf(config.constantinopleBlock)
  {
    EncodeBigZero();
    var frontier := map[EncodeBig(0) := FrontierRewardHex];
    var byzantium := Put(frontier, KeyOf(config.byzantiumBlock), ByzantiumRewardHex);
    PutLookup(frontier, KeyOf(config.byzantiumBlock), ByzantiumRewardHex, key);
    PutLookup(byzantium, KeyOf(config.constantinopleBlock), ConstantinopleRewardHex, key);
  }

  /**
   * The bomb delays have an entry exactly at the fork blocks; Constantinople's
   * delay wins when both forks share a block.
   */
  lemma {:induction false} SusyBombDelaysSchedule(config: ChainConfig, n: nat)
    ensures EncodeBig(n) in SusyBombDelays(config) <==>
      config.byzantiumBlock == Some(n) || config.constantinopleBlock == Some(n)
    ensures config.constantinopleBlock == Some(n) ==>
      SusyBombDelays(config)[EncodeBig(n)] == ConstantinopleDelayHex
    ensures config.byzantiumBlock == Some(n) && config.constantinopleBlock != Some(n) ==>
      SusyBombDelays(config)[EncodeBig(n)] == ByzantiumDelayHex
  {
    KeyOfMatches(config.byzantiumBlock, n);
    KeyOfMatches(config.constantinopleBlock, n);
    var byzantium := Put(map[], KeyOf(config.byzantiumBlock), ByzantiumDelayHex);
    PutLookup(map[], KeyOf(config.byzantiumBlock), ByzantiumDelayHex, EncodeBig(n));
    PutLookup(byzantium, KeyOf(config.constantinopleBlock), ConstantinopleDelayHex, EncodeBig(n));
  }

  class SusyChainSpec {
    var name: string
    var datadir: string
    var engine: SusyEngineParams
    var params: SusyParams
    var genesis: SusyGenesis
    var nodes: seq<string>
    var accounts: map<Address, SusyAccount>

    constructor (name: string, nodes: seq<string>, datadir: string)
      ensures this.name == name && this.nodes == nodes && this.datadir == datadir
      ensures engine == ZeroSusyEngineParams() && params == ZeroSusyParams()
      ensures genesis == ZeroSusyGenesis() && accounts == map[]
    {
      this.name := name;
      this.nodes := nodes;
      this.datadir := datadir;
      engine := ZeroSusyEngineParams();
      params := ZeroSusyParams();
      genesis := ZeroSusyGenesis();
      accounts := map[];
    }

    /** setPrecompile: creates an empty account if absent, then sets only its builtin. */
    method SetPrecompile(address: Byte, data: SusyBuiltin)
      modifies this`accounts
      ensures var a := PrecompileAddress(address);
        accounts == old(accounts)[a := if a in old(accounts)
          then old(accounts)[a].(builtin := Some(data))
          else SusyAccount(0, 0, Some(data))]
    {
      var a := PrecompileAddress(address);
      if a !in accounts {
        accounts := accounts[a := SusyAccount(0, 0, None)];
      }
      accounts := accounts[a := accounts[a].(builtin := Some(data))];
    }

    /**
     * setByzantium: the reward and bomb delay keyed by the full block number,
     * and the Byzantium transitions set to its low 64 bits.
     */
    method SetByzantium(num: nat)
      modifies this`engine, this`params
      ensures engine == old(engine).(
        blockReward := old(engine.blockReward)[EncodeBig(num) := ByzantiumRewardHex],
        difficultyBombDelays := old(engine.difficultyBombDelays)[EncodeBig(num) := ByzantiumDelayHex],
        sip100bTransition := Low64(num))
      ensures params == old(params).(sip140Transition := Low64(num), sip211Transition := Low64(num),
                                     sip214Transition := Low64(num), sip658Transition := Low64(num))
    {
      engine := engine.(blockReward := engine.blockReward[EncodeBig(num) := ByzantiumRewardHex]);
      engine := engine.(difficultyBombDelays := engine.difficultyBombDelays[EncodeBig(num) := ByzantiumDelayHex]);
      var n := Low64(num);
      engine := engine.(sip100bTransition := n);
      params := params.(sip140Transition := n, sip211Transition := n, sip214Transition := n, sip658Transition := n);
    }

    /** setConstantinople: as setByzantium with the Constantinople values and transitions. */
    method SetConstantinople(num: nat)
      modifies this`engine, this`params
      ensures engine == old(engine).(
        blockReward := old(engine.blockReward)[EncodeBig(num) := ConstantinopleRewardHex],
        difficultyBombDelays := old(engine.difficultyBombDelays)[EncodeBig(num) := ConstantinopleDelayHex])
      ensures params == old(params).(sip145Transition := Low64(num), sip1014Transition := Low64(num),
                                     sip1052Transition := Low64(num), sip1283Transition := Low64(num))
    {
      engine := engine.(blockReward := engine.blockReward[EncodeBig(num) := ConstantinopleRewardHex]);
      engine := engine.(difficultyBombDelays := engine.difficultyBombDelays[EncodeBig(num) := ConstantinopleDelayHex]);
      var n := Low64(num);
      params := params.(sip145Transition := n, sip1014Transition := n, sip1052Transition := n, sip1283Transition := n);
    }

    /** setConstantinopleFix: only the SIP-1283 disable transition. */
    method SetConstantinopleFix(num: nat)
      modifies this`params
      ensures params == old(params).(sip1283DisableTransition := Low64(num))
    {
      params := params.(sip1283DisableTransition := Low64(num));
    }

    /**
     * The engine and chain parameters of newSusyChainSpec, on a freshly made
     * spec: the reward and delay schedules come out as SusyBlockRewards and
     * SusyBombDelays, every fork transition is its block truncated to 64 bits
     * (0 when unset), and the remaining parameters are the protocol constants.
     */
    method SetParams(c: ChainConfig)
      requires SusyForksSet(c)
      requires engine == ZeroSusyEngineParams() && params == ZeroSusyParams()
      modifies this`engine, this`params
      ensures engine == SusyEngineParams(MinimumDifficulty, DifficultyBoundDivisor, DurationLimit,
                                         SusyBlockRewards(c), SusyBombDelays(c),
                                         Low64(c.homesteadBlock.value), Transition(c.byzantiumBlock))
      ensures params == SusyParams(
        0, MaximumExtraDataSize, MinGasLimit, GasLimitBoundDivisor,
        Low64(c.chainId.value), Low64(c.chainId.value), MaxCodeSize, 0, MaxInt64,
        Low64(c.sip150Block.value), Low64(c.sip155Block.value),
        Low64(c.sip158Block.value), Low64(c.sip158Block.value), Low64(c.sip155Block.value),
        Transition(c.byzantiumBlock), Transition(c.byzantiumBlock),
        Transition(c.byzantiumBlock), Transition(c.byzantiumBlock),
        Transition(c.constantinopleBlock), Transition(c.constantinopleBlock),
        Transition(c.constantinopleBlock), Transition(c.constantinopleBlock),
        Transition(c.petersburgBlock))
    {
      engine := engine.(minimumDifficulty := MinimumDifficulty,
                        difficultyBoundDivisor := DifficultyBoundDivisor,
                        durationLimit := DurationLimit);
      EncodeBigZero();
      engine := engine.(blockReward := engine.blockReward["0x0" := FrontierRewardHex]);
      engine := engine.(homesteadTransition := Low64(c.homesteadBlock.value));
      params := params.(sip150Transition := Low64(c.sip150Block.value));
      params := params.(sip155Transition := Low64(c.sip155Block.value),
                        sip160Transition := Low64(c.sip155Block.value),
                        sip161abcTransition := Low64(c.sip158Block.value),
                        sip161dTransition := Low64(c.sip158Block.value));
      if c.byzantiumBlock.Some? {
        SetByzantium(c.byzantiumBlock.value);
      }
      if c.constantinopleBlock.Some? {
        SetConstantinople(c.constantinopleBlock.value);
      }
      if c.petersburgBlock.Some? {
        SetConstantinopleFix(c.petersburgBlock.value);
      }
      params := params.(maximumExtraDataSize := MaximumExtraDataSize, minGasLimit := MinGasLimit,
                        gasLimitBoundDivisor := GasLimitBoundDivisor,
                        networkId := Low64(c.chainId.value), chainId := Low64(c.chainId.value),
                        maxCodeSize := MaxCodeSize, maxCodeSizeTransition := 0,
                        sip98Transition := MaxInt64);
    }

    /** The genesis header fields of newSusyChainSpec, the nonce as eight little-endian bytes. */
    method SetGenesis(g: Genesis)
      modifies this`genesis
      ensures genesis == SusyGenesis(PutUint64(g.nonce), g.mixhash, g.difficulty, g.coinbase,
                                     g.timestamp, g.parentHash, g.extraData, g.gasLimit)
    {
      genesis := genesis.(nonce := PutUint64(g.nonce));
      genesis := genesis.(mixHash := g.mixhash, difficulty := g.difficulty, author := g.coinbase,
                          timestamp := g.timestamp, parentHash := g.parentHash,
                          extraData := g.extraData, gasLimit := g.gasLimit);
    }

    /** The allocation loop of newSusyChainSpec, into a fresh accounts map. */
    method AddAllocations(alloc: map<Address, GenesisAccount>)
      modifies this`accounts
      ensures accounts == SusyAllocAccounts(alloc, alloc.Keys)
    {
      accounts := map[];
      var remaining := alloc.Keys;
      while remaining != {}
        invariant remaining <= alloc.Keys
        invariant accounts == SusyAllocAccounts(alloc, alloc.Keys - remaining)
        decreases |remaining|
      {
        var address :| address in remaining;
        accounts := accounts[address := SusyAccount(alloc[address].balance, alloc[address].nonce, None)];
        remaining := remaining - {address};
      }
      assert alloc.Keys - {} == alloc.Keys;
    }

    /** The setPrecompile calls of newSusyChainSpec: 1..4, and 5..8 when n is 8. */
    method InstallPrecompiles(n: nat, byzantium: nat)
      requires n == 4 || n == 8
      requires forall a :: a in accounts ==> accounts[a].builtin == None
      modifies this`accounts
      ensures accounts == SusyWithPrecompiles(old(accounts), n, byzantium)
    {
      ghost var base := accounts;
      assert base == SusyWithPrecompiles(base, 0, byzantium);
      InstallPrecompile(base, 1, byzantium);
      InstallPrecompile(base, 2, byzantium);
      InstallPrecompile(base, 3, byzantium);
      InstallPrecompile(base, 4, byzantium);
      if n == 8 {
        InstallPrecompile(base, 5, byzantium);
        InstallPrecompile(base, 6, byzantium);
        InstallPrecompile(base, 7, byzantium);
        InstallPrecompile(base, 8, byzantium);
      }
    }

    /** One setPrecompile call of the sequence: precompile k joins the first k - 1. */
    method InstallPrecompile(ghost base: map<Address, SusyAccount>, k: Byte, byzantium: nat)
      requires 1 <= k <= 8
      requires forall a :: a in base ==> base[a].builtin == None
      requires accounts == SusyWithPrecompiles(base, k as nat - 1, byzantium)
      modifies this`accounts
      ensures accounts == SusyWithPrecompiles(base, k as nat, byzantium)
    {
      SusyPrecompileStep(base, k as nat, byzantium);
      SetPrecompile(k, SusyPrecompile(k, byzantium));
    }
  }

  /** The fork blocks and chain id the Susy converter dereferences unconditionally. */
  predicate SusyForksSet(config: ChainConfig)
  {
    config.homesteadBlock.Some? && config.sip150Block.Some? && config.sip155Block.Some?
      && config.sip158Block.Some? && config.chainId.Some?
  }

  /** A transition copied from an optional fork block, 0 when the block is unset. */
  function Transition(block: Option<nat>): nat
  {
    if block.Some? then Low64(block.value) else 0
  }

  /**
   * What newSusyChainSpec puts outside the accounts section: the name and
   * nodes copied, the data directory the lower-cased name, the reward and
   * bomb-delay schedules of SusyBlockRewards and SusyBombDelays, every
   * transition its fork block truncated to 64 bits (SIP-160 from SIP-155,
   * SIP-161abc/d from SIP-158, 0 for an unset fork), SIP-98 disabled with
   * MaxInt64, and the nonce as eight little-endian bytes.
   */
  predicate SusyHeaderOf(spec: SusyChainSpec, network: string, g: Genesis, bootnodes: seq<string>)
    requires SusyForksSet(g.config)
    reads spec`name, spec`nodes, spec`datadir, spec`engine, spec`params, spec`genesis
  {
    var c := g.config;
    && spec.name == network && spec.nodes == bootnodes && spec.datadir == ToLower(network)
    && spec.engine == SusyEngineParams(MinimumDifficulty, DifficultyBoundDivisor, DurationLimit,
                                       SusyBlockRewards(c), SusyBombDelays(c),
                                       Low64(c.homesteadBlock.value), Transition(c.byzantiumBlock))
    && spec.params == SusyParams(
         0, MaximumExtraDataSize, MinGasLimit, GasLimitBoundDivisor,
         Low64(c.chainId.value), Low64(c.chainId.value), MaxCodeSize, 0, MaxInt64,
         Low64(c.sip150Block.value), Low64(c.sip155Block.value),
         Low64(c.sip158Block.value), Low64(c.sip158Block.value), Low64(c.sip155Block.value),
         Transition(c.byzantiumBlock), Transition(c.byzantiumBlock),
         Transition(c.byzantiumBlock), Transition(c.byzantiumBlock),
         Transition(c.constantinopleBlock), Transition(c.constantinopleBlock),
         Transition(c.constantinopleBlock), Transition(c.constantinopleBlock),
         Transition(c.petersburgBlock))
    && spec.genesis == SusyGenesis(PutUint64(g.nonce), g.mixhash, g.difficulty, g.coinbase,
                                   g.timestamp, g.parentHash, g.extraData, g.gasLimit)
  }

  /**
   * newSusyChainSpec. Only sofash chains convert; otherwise no spec and the
   * "unsupported consensus engine" error. A converted spec satisfies
   * SusyHeaderOf and its accounts are SusyAccounts.
   */
  method NewSusyChainSpec(network: string, g: Genesis, bootnodes: seq<string>) returns (spec: SusyChainSpec?, err: Option<string>)
    requires g.config.sofash ==> SusyForksSet(g.config)
    ensures !g.config.sofash ==> spec == null && err == Some(UnsupportedEngine)
    ensures g.config.sofash ==> spec != null && fresh(spec) && err == None
    ensures spec != null ==> SusyHeaderOf(spec, network, g, bootnodes) && spec.accounts == SusyAccounts(g)
  {
    if !g.config.sofash {
      return null, Some(UnsupportedEngine);
    }
    var c := g.config;
    spec := new SusyChainSpec(network, bootnodes, ToLower(network));
    spec.AddAllocations(g.alloc);
    spec.InstallPrecompiles(PrecompileCount(c), ByzantiumStart(c));
    spec.SetParams(c);
    spec.SetGenesis(g);
    err := None;
  }

  // ---------------------------------------------------------------------
  // PySophon genesis specification
  // ---------------------------------------------------------------------

  datatype PySophonGenesisSpec = PySophonGenesisSpec(
    nonce: seq<Byte>,
    timestamp: nat,
    extraData: seq<Byte>,
    gasLimit: nat,
    difficulty: nat,
    mixhash: Hash,
    coinbase: Address,
    alloc: map<Address, GenesisAccount>,
    parentHash: Hash
  )

  /**
   * newPySophonGenesisSpec: only sofash chains convert; the header fields
   * and allocations are copied and the nonce is written as eight
   * little-endian bytes that read back as the genesis nonce.
   */
  function NewPySophonGenesisSpec(network: string, g: Genesis): (r: Result<PySophonGenesisSpec, string>)
    ensures r.Err? <==> !g.config.sofash
    ensures r.Err? ==> r.error == UnsupportedEngine
    ensures r.Ok? ==>
      && |r.value.nonce| == 8 && LittleEndianValue(r.value.nonce) == g.nonce
      && r.value.alloc == g.alloc
      && r.value.timestamp == g.timestamp && r.value.extraData == g.extraData
      && r.value.gasLimit == g.gasLimit && r.value.difficulty == g.difficulty
      && r.value.mixhash == g.mixhash && r.value.coinbase == g.coinbase
      && r.value.parentHash == g.parentHash
  {
    if !g.config.sofash then Err(UnsupportedEngine)
    else Ok(PySophonGenesisSpec(PutUint64(g.nonce), g.timestamp, g.extraData, g.gasLimit,
                                g.difficulty, g.mixhash, g.coinbase, g.alloc, g.parentHash))
  }

  /**
   * The three converters write the same genesis header: the same eight
   * nonce bytes, which read back as the genesis nonce, and the same
   * difficulty, mix hash, author, timestamp, parent hash, extra data and
   * gas limit.
   */
  lemma ConvertersAgreeOnHeader(network: string, g: Genesis, bootnodes: seq<string>,
                                alsof: AlsofGenesisSpec, susy: SusyChainSpec)
    requires g.config.sofash && AlsofForksSet(g.config) && SusyForksSet(g.config)
    requires AlsofHeaderOf(alsof, g) && SusyHeaderOf(susy, network, g, bootnodes)
    ensures var py := NewPySophonGenesisSpec(network, g).value;
            && alsof.genesis.nonce == susy.genesis.nonce == py.nonce
            && |py.nonce| == 8 && LittleEndianValue(py.nonce) == g.nonce
            && alsof.genesis.difficulty == susy.genesis.difficulty == py.difficulty
            && alsof.genesis.mixHash == susy.genesis.mixHash == py.mixhash
            && alsof.genesis.author == susy.genesis.author == py.coinbase
            && alsof.genesis.timestamp == susy.genesis.timestamp == py.timestamp
            && alsof.genesis.parentHash == susy.genesis.parentHash == py.parentHash
            && alsof.genesis.extraData == susy.genesis.extraData == py.extraData
            && alsof.genesis.gasLimit == susy.genesis.gasLimit == py.gasLimit
  {
  }
}
