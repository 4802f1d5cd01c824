/**
 * consensus/misc/forks.go: the optional check that the block at the
 * SIP150 (homestead gas reprice) fork carries the configured hash.
 */
module Forks {
  import opened Wrappers
  import opened CoreTypes

  /** The header fields the rule looks at. */
  datatype Header = Header(number: nat)

  /** The error returned on a mismatch: the header's hash and the configured one. */
  datatype ForkHashError = HomesteadGasRepriceMismatch(have: Hash, want: Hash)

  /**
   * VerifyForkHashes. `headerHash` is header.Hash(), computed by a hash
   * function that is not part of this model. Uncles are never checked; a
   * header is rejected exactly when it is the configured SIP150 block, a
   * non-zero SIP150 hash is configured, and that hash differs from the
   * header's. The error reports both hashes.
   */
  function VerifyForkHashes(config: ChainConfig, header: Header, headerHash: Hash, uncle: bool)
    : (r: Option<ForkHashError>)
    ensures uncle ==> r == None
    ensures config.sip150Block == None ==> r == None
    ensures config.sip150Block.Some? && config.sip150Block.value != header.number ==> r == None
    ensures config.sip150Hash == ZeroHash() ==> r == None
    ensures r.Some? <==>
      (!uncle && config.sip150Block == Some(header.number)
       && config.sip150Hash != ZeroHash() && config.sip150Hash != headerHash)
    ensures r.Some? ==> r.value == HomesteadGasRepriceMismatch(headerHash, config.sip150Hash)
  {
    if uncle then None
    else if config.sip150Block.Some? && config.sip150Block.value == header.number then
      if config.sip150Hash != ZeroHash() && config.sip150Hash != headerHash then
        Some(HomesteadGasRepriceMismatch(headerHash, config.sip150Hash))
      else None
    else None
  }

  /** A header whose hash is the configured one always passes, uncle or not. */
  lemma MatchingHashAccepted(config: ChainConfig, header: Header, uncle: bool)
    ensures VerifyForkHashes(config, header, config.sip150Hash, uncle) == None
  {
  }
}
