/**
 * Value types shared by the modelled packages: bytes, 32-byte hashes,
 * 20-byte addresses, the chain configuration and the genesis record.
 */
module CoreTypes {
  import opened Wrappers

  /** An unsigned 8-bit value (Go `byte`, C `uint8_t`). */
  newtype Byte = b: int | 0 <= b < 256

  /** 2^64: Go's `uint64` range is [0, Uint64Bound). */
  const Uint64Bound: nat := 0x1_0000_0000_0000_0000

  /** Go's `uint64`. */
  type Uint64 = n: nat | n < Uint64Bound

  /** math.MaxInt64. */
  const MaxInt64: nat := 0x7FFF_FFFF_FFFF_FFFF

  type Hash = s: seq<Byte> | |s| == 32 witness ZeroHash()
  type Address = s: seq<Byte> | |s| == 20 witness ZeroAddress()

  function ZeroHash(): (h: seq<Byte>)
    ensures |h| == 32 && forall i :: 0 <= i < 32 ==> h[i] == 0
  {
    seq(32, _ => 0)
  }

  function ZeroAddress(): (a: seq<Byte>)
    ensures |a| == 20 && forall i :: 0 <= i < 20 ==> a[i] == 0
  {
    seq(20, _ => 0)
  }

  /**
   * big.Int.Uint64(): the low 64 bits of a non-negative big integer.
   */
  function Low64(n: nat): (r: nat)
    ensures r < Uint64Bound
    ensures n < Uint64Bound ==> r == n
  {
    n % Uint64Bound
  }

  /**
   * The fork schedule of params.ChainConfig. A fork block is None when the
   * Go pointer is nil. `sofash` and `clique` say whether the engine
   * configurations are set (non-nil).
   */
  datatype ChainConfig = ChainConfig(
    chainId: Option<nat>,
    homesteadBlock: Option<nat>,
    sip150Block: Option<nat>,
    sip150Hash: Hash,
    sip155Block: Option<nat>,
    sip158Block: Option<nat>,
    byzantiumBlock: Option<nat>,
    constantinopleBlock: Option<nat>,
    petersburgBlock: Option<nat>,
    sofash: bool,
    clique: bool
  )

  /** core.GenesisAccount: a prefunded genesis allocation. */
  datatype GenesisAccount = GenesisAccount(balance: nat, nonce: Uint64, code: seq<Byte>)

  /** core.Genesis: the genesis block and its allocations. */
  datatype Genesis = Genesis(
    config: ChainConfig,
    nonce: Uint64,
    timestamp: Uint64,
    extraData: seq<Byte>,
    gasLimit: Uint64,
    difficulty: nat,
    mixhash: Hash,
    coinbase: Address,
    alloc: map<Address, GenesisAccount>,
    parentHash: Hash
  )
}
