/**
 * Protocol constants of the params and consensus/sofash packages that the
 * modelled code reads. Their defining files (params/protocol_params.go,
 * params/denomination.go, consensus/sofash/consensus.go) are not part of
 * this model; the values are the protocol's published ones.
 */
module Params {

  const MaximumExtraDataSize: nat := 32
  const MinGasLimit: nat := 5000
  const GasLimitBoundDivisor: nat := 1024
  const MinimumDifficulty: nat := 131072
  const DifficultyBoundDivisor: nat := 2048
  const DurationLimit: nat := 13
  const MaxCodeSize: nat := 24576

  /** One GWei in wei. */
  const GWei: nat := 1_000_000_000

  /** Block rewards in wei per era (consensus/sofash). */
  const FrontierBlockReward: nat := 5_000_000_000_000_000_000
  const ByzantiumBlockReward: nat := 3_000_000_000_000_000_000
  const ConstantinopleBlockReward: nat := 2_000_000_000_000_000_000
}
