# susy-graviton core rules in Dafny

This project models the small, deterministic rules of the susy-graviton client and proves properties about them. The client is a Go implementation of the Sophon protocol, and it includes a vendored C proof-of-work library. The project contains one Dafny module per source file:

- **SofashInternal** (`libsofash/internal.h`): the 32-byte hash accessors and the proof-of-work boundary check.
  - `sofash_check_difficulty` is a loop over a hash array.
  - It is proved to answer exactly "hash <= boundary", with both read as 256-bit big-endian numbers.
- **SofashIo** (`libsofash/io_posix.c`): bounded C-string concatenation into a character array, and the two path builders that use it.
  - The builders test `s[len] != '/'` on the string's own NUL terminator, so the test always holds. The model reproduces this: the `/` is always inserted.
- **Forks** (`consensus/misc/forks.go`): the SIP150 fork-hash check.
- **PuppsofGenesis** (`cmd/puppsof/genesis.go`): the three genesis converters into the Alsof, Susy and PySophon chain-spec formats.
  - The spec objects are classes whose `set*` methods update their maps and fields in place.
  - Their account maps are proved equal to the specification functions `AlsofAccounts` and `SusyAccounts`.
- **SofConfig** (`sof/config.go`): the default configuration and the choice of dataset directory for each operating system.
- **SofGenConfig** (`sof/gen_config.go`): the generated TOML marshalling.
  - Marshalling copies the listed fields.
  - Unmarshalling overwrites exactly the fields the decoder found.
- **SofBackend** (`sof/backend.go`), whose `Sophon` class holds the configuration, the consensus engine and the cached sophybase. It covers:
  - sanitising the configuration in `New`
  - `makeExtraData`
  - choosing the consensus engine
  - resolving the sophybase
  - the local-block and preserve rules
  - the peer budget in `Start`
- **SofMetrics** (`sof/metrics.go`): the metered message stream. It is a class over a registry of meter counters.
- **LesUlc** (`les/ulc.go`): the trusted-server set of the ultra light client.
- **LesBackend** (`les/backend.go`): the LES discovery topic and the dummy mining API.
- **MobileGraviton** (`mobile/graviton.go`): the mobile node configuration class, its defaults, and the configuration steps of `NewNode`.
- **AccountsUrl** (`accounts/url_test.go`): parsing, printing, JSON quoting and ordering of account URLs.
  - The URL implementation is not part of this model; only its tests are. The model is built to satisfy every assertion in the tests, and each test is a lemma.

Shared modules:

- **Wrappers**: `Option` and `Result`.
- **CoreTypes**: bytes, `uint64`, hashes, addresses, the chain configuration and the genesis record.
- **Encoding**: the `hexutil`/`binary` encoders the converters and topics use.
- **Params**: the protocol constants.

Foreign calls are parameters of the model. These are `header.Hash()`, `enode.ParseV4`, `engine.Author`, the RLP encoder, `ctx.ResolvePath`, the account manager's wallets, the JSON genesis decoder, the wrapped p2p stream, and `getenv`/`getpwuid`.

## Model

| member | source | states |
|---|---|---|
| SofashInternal.H256Get | vendor/github.com/sophyeum/sofash/src/libsofash/internal.h:34-37 | returns byte i of the 32-byte hash |
| SofashInternal.H256Set | vendor/github.com/sophyeum/sofash/src/libsofash/internal.h:39-42 | afterwards byte i reads v and the other 31 bytes are unchanged |
| SofashInternal.H256Reset | vendor/github.com/sophyeum/sofash/src/libsofash/internal.h:44-47 | afterwards all 32 bytes are zero, so the hash's big-endian value is 0 |
| SofashInternal.CheckDifficulty | vendor/github.com/sophyeum/sofash/src/libsofash/internal.h:49-63 | true exactly when the hash, read as a big-endian number, is <= the boundary (equal hashes pass) |
| SofashInternal.FirstDifferenceDecides | vendor/github.com/sophyeum/sofash/src/libsofash/internal.h:56-61 | for equal-length strings agreeing before index i and differing at i, the numeric order is the order of the bytes at i |
| SofashInternal.BigEndianBound | vendor/github.com/sophyeum/sofash/src/libsofash/internal.h:56-62 | a k-byte string denotes a number below 256^k |
| SofashInternal.CheckDifficultyAntisymmetric | vendor/github.com/sophyeum/sofash/src/libsofash/internal.h:56-62 | for distinct 32-byte hashes a and b, exactly one of check(a, b) and check(b, a) holds |
| SofashInternal.ResetHashPassesAnyBoundary | vendor/github.com/sophyeum/sofash/src/libsofash/internal.h:44-63 | an all-zero hash is <= every boundary, so a reset hash passes the check |
| SofashIo.StrLen | vendor/github.com/sophyeum/sofash/src/libsofash/io_posix.c:39 | strlen is the index of the first NUL |
| SofashIo.CStrLen | vendor/github.com/sophyeum/sofash/src/libsofash/io_posix.c:39 | the scan for the terminator returns strlen of the buffer |
| SofashIo.StrNCat | vendor/github.com/sophyeum/sofash/src/libsofash/io_posix.c:37-40 | refuses and leaves dest untouched exactly when strlen(dest) + count + 1 > dest_size, the sum taken without size_t wrap-around (see Left out); otherwise appends the first min(count, strlen(src)) characters, and the new length stays below dest_size |
| SofashIo.CreateFilename | vendor/github.com/sophyeum/sofash/src/libsofash/io_posix.c:53-76 | NULL exactly when allocation fails; otherwise a buffer of dirlen + filename_length + 2 holding dirname + "/" + the first filename_length characters of filename. The "/" is always inserted, and with the sizes as unbounded numbers none of the three appends is refused (the size_t wrap-around is left out) |
| SofashIo.GetDefaultDirname | vendor/github.com/sophyeum/sofash/src/libsofash/io_posix.c:89-111 | with the home directory given: succeeds exactly when len(home) + 11 <= buffsize, leaving home + "/" + ".sofash/"; on failure, the buffer holds what was appended before the refused step |
| Forks.VerifyForkHashes | consensus/misc/forks.go:30-43 | nil for uncles, without SIP150 block, off the SIP150 block, or with zero SIP150 hash; an error (reporting both hashes) exactly when a non-uncle at the SIP150 block has a non-zero configured hash different from its own |
| Forks.MatchingHashAccepted | consensus/misc/forks.go:36-40 | a header whose hash is the configured one is always accepted |
| Encoding.PutUint64 | cmd/puppsof/genesis.go:135-136 | the nonce bytes are exactly 8, little-endian, and read back as the nonce |
| Encoding.LittleEndianRoundTrip | cmd/puppsof/genesis.go:135-136 | little-endian encoding into k bytes reads back any n < 256^k |
| Encoding.EncodeBig | cmd/puppsof/genesis.go:430 | hexutil.EncodeBig gives "0x" followed by at least one hex digit |
| Encoding.HexNatRoundTrip | cmd/puppsof/genesis.go:430 | the hex digits of n read back as n |
| Encoding.EncodeBigInjective | cmd/puppsof/genesis.go:430-431 | two block numbers give the same map key exactly when they are equal |
| Encoding.Bytes2Hex | les/backend.go:161 | two lower-case hex digits per byte, high nibble first |
| Encoding.Bytes2HexInjective | les/backend.go:161 | equal hex text means equal bytes |
| CoreTypes.Low64 | cmd/puppsof/genesis.go:111 | big.Int.Uint64(): the value itself when it fits in 64 bits, and below 2^64 always |
| PuppsofGenesis.ToLower | cmd/puppsof/genesis.go:319 | same length; each ASCII capital becomes its small letter and every other character is kept (non-ASCII letters: see Left out) |
| PuppsofGenesis.ToLowerIdempotent | cmd/puppsof/genesis.go:319 | the data directory has no upper-case letter, and lower-casing again changes nothing |
| PuppsofGenesis.AlsofGenesisSpec.constructor | cmd/puppsof/genesis.go:102-104 | a spec with the seal engine set and every other field zero |
| PuppsofGenesis.AlsofGenesisSpec.SetPrecompile | cmd/puppsof/genesis.go:173-182 | creates an empty account when the address is absent; otherwise overwrites only the builtin, keeping balance and nonce |
| PuppsofGenesis.AlsofGenesisSpec.SetAccount | cmd/puppsof/genesis.go:184-197 | creates the account when absent and overwrites only balance and nonce, keeping the builtin |
| PuppsofGenesis.AlsofGenesisSpec.AddAllocations | cmd/puppsof/genesis.go:146-148 | after the loop over the allocation, the accounts are exactly the allocation's balances and nonces |
| PuppsofGenesis.AlsofGenesisSpec.InstallPrecompile | cmd/puppsof/genesis.go:150-168 | installing precompile k on the first k - 1 yields the first k |
| PuppsofGenesis.AlsofGenesisSpec.InstallPrecompiles | cmd/puppsof/genesis.go:150-169 | the accounts become the allocation with the first n precompiles installed |
| PuppsofGenesis.AlsofGenesisSpec.SetByzantium | cmd/puppsof/genesis.go:199-201 | sets only the Byzantium fork block |
| PuppsofGenesis.AlsofGenesisSpec.SetConstantinople | cmd/puppsof/genesis.go:203-205 | sets only the Constantinople fork block |
| PuppsofGenesis.AlsofPrecompileStep | cmd/puppsof/genesis.go:173-182 | the specification map for n precompiles is the one for n - 1 updated the way setPrecompile updates it |
| PuppsofGenesis.AlsofBasePrecompiles | cmd/puppsof/genesis.go:150-157 | addresses 1-4 are always present with their builtin |
| PuppsofGenesis.AlsofByzantiumPrecompiles | cmd/puppsof/genesis.go:158-169 | addresses 5-8 carry a builtin exactly when Byzantium is set, starting at the Byzantium block; without Byzantium they exist only as allocations |
| PuppsofGenesis.AlsofKeepsAllocations | cmd/puppsof/genesis.go:146-197 | every allocated account keeps its balance and nonce after the precompiles are installed |
| PuppsofGenesis.NewAlsofGenesisSpec | cmd/puppsof/genesis.go:96-171 | "unsupported consensus engine" and no spec without sofash; otherwise every parameter (fork blocks, network and chain ID both from the chain ID, protocol constants) is set, the nonce is 8 little-endian bytes, and the accounts are AlsofAccounts of the genesis |
| PuppsofGenesis.SusyChainSpec.constructor | cmd/puppsof/genesis.go:316-322 | a spec with name, nodes and data directory set and empty reward and delay maps |
| PuppsofGenesis.SusyChainSpec.SetPrecompile | cmd/puppsof/genesis.go:418-427 | creates an empty account when absent; otherwise overwrites only the builtin |
| PuppsofGenesis.SusyChainSpec.SetByzantium | cmd/puppsof/genesis.go:429-438 | adds the 3 ether reward and the 3000000 bomb delay under hex(block), and sets SIP100b, 140, 211, 214 and 658 to the block |
| PuppsofGenesis.SusyChainSpec.SetConstantinople | cmd/puppsof/genesis.go:440-448 | adds the 2 ether reward and the 2000000 bomb delay under hex(block), and sets SIP145, 1014, 1052 and 1283 to the block |
| PuppsofGenesis.SusyChainSpec.SetConstantinopleFix | cmd/puppsof/genesis.go:450-452 | sets only the SIP1283 disable transition |
| PuppsofGenesis.SusyChainSpec.SetParams | cmd/puppsof/genesis.go:321-366 | engine and chain parameters as converted: SIP160 = SIP155, SIP161abc/d = SIP158, SIP98 = MaxInt64, MaxCodeSizeTransition = 0, network and chain ID from the chain ID |
| PuppsofGenesis.SusyChainSpec.SetGenesis | cmd/puppsof/genesis.go:368-377 | the genesis seal and header fields, with the nonce as 8 little-endian bytes |
| PuppsofGenesis.SusyChainSpec.AddAllocations | cmd/puppsof/genesis.go:379-387 | the accounts are exactly the allocation's balances and nonces |
| PuppsofGenesis.SusyChainSpec.InstallPrecompile | cmd/puppsof/genesis.go:388-414 | installing precompile k on the first k - 1 yields the first k |
| PuppsofGenesis.SusyChainSpec.InstallPrecompiles | cmd/puppsof/genesis.go:388-414 | the accounts become the allocation with the first n precompiles installed |
| PuppsofGenesis.SusyPrecompileStep | cmd/puppsof/genesis.go:418-427 | the specification map for n precompiles is the one for n - 1 updated as setPrecompile does |
| PuppsofGenesis.SusyPrecompiles | cmd/puppsof/genesis.go:388-414 | addresses 1-4 always carry their builtin; 5-8 exactly when Byzantium is set, activating at the Byzantium block |
| PuppsofGenesis.SusyAccountsDomain | cmd/puppsof/genesis.go:379-414 | the accounts are the allocation plus the precompile addresses, and allocations keep balance and nonce |
| PuppsofGenesis.EncodeBigZero | cmd/puppsof/genesis.go:327 | the Frontier reward key "0x0" is hex(0) |
| PuppsofGenesis.SusyBlockRewardsSchedule | cmd/puppsof/genesis.go:344-350 | a reward exists under hex(n) exactly for 0 and the Byzantium and Constantinople blocks; Constantinople's reward wins when both forks share a block |
| PuppsofGenesis.SusyBlockRewardsKeys | cmd/puppsof/genesis.go:321-350 | every reward key is "0x0" or the hex of a configured fork block |
| PuppsofGenesis.SusyBombDelaysSchedule | cmd/puppsof/genesis.go:344-350 | a delay exists exactly at the Byzantium and Constantinople blocks: 3000000 for Byzantium, 2000000 for Constantinople, and Constantinople wins on a shared block |
| PuppsofGenesis.NewSusyChainSpec | cmd/puppsof/genesis.go:310-416 | "unsupported consensus engine" and no spec without sofash; otherwise name, nodes, lower-cased data directory, all parameters and the genesis as converted, with accounts equal to SusyAccounts of the genesis |
| PuppsofGenesis.NewPySophonGenesisSpec | cmd/puppsof/genesis.go:470-489 | the error exactly without sofash; otherwise the nonce is 8 little-endian bytes reading back as the genesis nonce, and the other fields and the allocation are copied |
| PuppsofGenesis.ConvertersAgreeOnHeader | cmd/puppsof/genesis.go:134-143 | a spec the Alsof converter builds, one the Susy converter builds and the PySophon spec of the same genesis carry the same nonce bytes (8, reading back as the genesis nonce), difficulty, mix hash, author, timestamp, parent hash, extra data and gas limit |
| SofConfig.DefaultConfig | sof/config.go:37-63 | fast sync, network 1, 100 light peers, gas floor and ceiling 8000000, gas price 1 GWei, trie caches 256 and 256 |
| SofConfig.DefaultSyncModeValid | sof/config.go:37-38 | the default sync mode is valid and is not light sync |
| SofConfig.Join | sof/config.go:73 | the join is empty exactly when every part is empty |
| SofConfig.DarwinDatasetDir | sof/config.go:72-73 | on darwin the dataset directory is home/Library/Sofash |
| SofConfig.WindowsLocalAppDataDatasetDir | sof/config.go:74-77 | on windows with LOCALAPPDATA set it is LOCALAPPDATA\Sofash |
| SofConfig.WindowsHomeDatasetDir | sof/config.go:78-79 | on windows without LOCALAPPDATA it is home\AppData\Local\Sofash |
| SofConfig.UnixDatasetDir | sof/config.go:81-82 | elsewhere it is home/.sofash |
| SofConfig.SofPackage.constructor | sof/config.go:37-63 | the package starts with the default configuration |
| SofConfig.SofPackage.Init | sof/config.go:65-84 | init changes only Sofash.DatasetDir, to the directory chosen for the OS and the home directory |
| SofGenConfig.MarshalTOML | sof/gen_config.go:18-79 | marshalling never fails |
| SofGenConfig.Assign | sof/gen_config.go:120-122 | a value field takes the decoded value when present, else keeps its value |
| SofGenConfig.AssignPointer | sof/gen_config.go:117-119 | a pointer field takes the decoded pointer when present, else keeps its value |
| SofGenConfig.UnmarshalTOML | sof/gen_config.go:82-202 | a decoder error is returned with the config unchanged; otherwise the config becomes Overlay of the decoded fields |
| SofGenConfig.OverlayNothing | sof/gen_config.go:117-200 | when nothing was decoded the config is unchanged |
| SofGenConfig.OverlayKeepsFreezer | sof/gen_config.go:83-112 | DatabaseFreezer is never altered, because it is in neither generated list |
| SofGenConfig.OverlayIdempotent | sof/gen_config.go:117-200 | applying the same decoded record twice equals applying it once |
| SofGenConfig.MarshalRoundTrip | sof/gen_config.go:117-200 | overlaying a config with every field of its own marshalled record leaves it unchanged |
| SofGenConfig.OverlayPresentDecides | sof/gen_config.go:117-200 | a fully present record fixes every listed field regardless of the prior config, and marshals back to itself |
| SofGenConfig.MarshalForgetsOnlyFreezer | sof/gen_config.go:19-48 | two configs marshal alike exactly when they differ at most in DatabaseFreezer |
| SofBackend.SanitizedGasPrice | sof/backend.go:112-115 | a nil or non-positive gas price becomes the default 1 GWei; a positive one is kept |
| SofBackend.SanitizedTrieCaches | sof/backend.go:116-119 | with NoPruning and a positive dirty cache, the dirty budget moves into the clean one; the total is always preserved |
| SofBackend.Sanitize | sof/backend.go:106-119 | rejects light sync and any invalid sync mode, with those two errors; otherwise sanitises gas price and caches |
| SofBackend.SanitizeConfig | sof/backend.go:106-119 | the field updates New makes compute Sanitize |
| SofBackend.DefaultConfigSane | sof/backend.go:106-119 | the default configuration passes sanitising unchanged |
| SofBackend.SanitizeIdempotent | sof/backend.go:106-119 | sanitising a sanitised configuration changes nothing |
| SofBackend.MakeExtraData | sof/backend.go:211-226 | the result is never longer than 32 bytes; non-empty input within the limit is kept, over-limit input becomes nil, and empty input takes the default if that fits |
| SofBackend.MakeExtraDataIdempotent | sof/backend.go:211-226 | bounding a non-empty result again changes nothing |
| SofBackend.CreateConsensusEngine | sof/backend.go:229-257 | clique exactly when the chain configures clique, whatever the PoW mode; otherwise fake, test (with noverify) or shared by mode, else a full sofash with the resolved cache directory and threads -1 |
| SofBackend.EngineFollowsPowMode | sof/backend.go:235-256 | without clique the engine's mode is the configured PoW mode |
| SofBackend.ResolveSophybase | sof/backend.go:324-345 | a non-zero stored address wins; else the first account of the first wallet; else an error |
| SofBackend.SophybaseSticky | sof/backend.go:329-338 | once a non-zero sophybase is resolved it is returned again whatever the wallets are |
| SofBackend.PeerBudget | sof/backend.go:504-510 | an error exactly when serving light clients with LightPeers >= MaxPeers; else MaxPeers - LightPeers (positive) when serving, MaxPeers otherwise |
| SofBackend.Sophon.constructor | sof/backend.go:133-145 | the service keeps the config and the engine, and caches the configured sophybase |
| SofBackend.Sophon.Sophybase | sof/backend.go:324-345 | returns ResolveSophybase of the cached address; on success the cache holds the result, on error the zero address is returned and the cache is unchanged |
| SofBackend.Sophon.IsLocalBlock | sof/backend.go:352-373 | true exactly when the author lookup succeeds and the author is the sophybase or one of TxPool.Locals |
| SofBackend.Sophon.ShouldPreserve | sof/backend.go:378-399 | false under clique; otherwise exactly isLocalBlock |
| SofBackend.Sophon.Start | sof/backend.go:496-517 | fails exactly when PeerBudget fails, and otherwise starts with PeerBudget's count |
| SofMetrics.Classify | sof/metrics.go:88-106 | each message selects exactly one counter pair: headers, bodies, hashes, blocks and transactions at every version; state and receipts only from sof63 on; misc otherwise |
| SofMetrics.StateAndReceiptsMiscBeforeSof63 | sof/metrics.go:95-98 | before sof63 node data and receipts count as misc |
| SofMetrics.Marked | sof/metrics.go:107-108 | marking raises one meter by n and leaves every other meter |
| SofMetrics.AccountMovesOnePair | sof/metrics.go:107-108 | a metered message moves its packets meter by 1, its traffic meter by its size, and nothing else |
| SofMetrics.Meters.Mark | sof/metrics.go:107-108 | Meter.Mark updates the registry as Marked |
| SofMetrics.MeteredMsgReadWriter.constructor | sof/metrics.go:72 | a wrapper with version 0 over the given meters |
| SofMetrics.MeteredMsgReadWriter.Init | sof/metrics.go:77-79 | sets only the version |
| SofMetrics.MeteredMsgReadWriter.ReadMsg | sof/metrics.go:81-111 | a failed read is returned as is and marks nothing; a successful one marks its inbound pair |
| SofMetrics.MeteredMsgReadWriter.WriteMsg | sof/metrics.go:113-139 | marks the outbound pair before forwarding, so counts move even when the write fails; returns the wrapped result |
| SofMetrics.NewMeteredMsgWriter | sof/metrics.go:68-73 | no wrapper when metrics are disabled; a fresh wrapper otherwise |
| LesUlc.TrustedKeySetSnoc | les/ulc.go:36-43 | each server adds its parsed ID, or nothing when it fails to parse |
| LesUlc.TrustedKeySetMembership | les/ulc.go:35-43 | the key set is exactly the IDs of the servers that parse |
| LesUlc.NewULC | les/ulc.go:31-45 | nil for a nil config; otherwise the key set of the trusted servers, with minTrustedFraction copied |
| LesUlc.IsTrusted | les/ulc.go:48-54 | false whenever the key set is nil |
| LesUlc.TrustedIffConfigured | les/ulc.go:48-54 | a peer is trusted exactly when some configured server parses to its ID |
| LesUlc.UnparsableServerSkipped | les/ulc.go:37-41 | an unparsable server leaves the key set unchanged |
| LesBackend.LesTopic | les/backend.go:151-162 | "LES@" for lpv1 and "LES2@" for lpv2, followed by the 16 hex digits of genesis bytes 0..7 |
| LesBackend.LesTopicDependsOnPrefix | les/backend.go:161 | two genesis hashes give the same topic exactly when their first 8 bytes agree |
| LesBackend.LesTopicVersionsDiffer | les/backend.go:153-157 | lpv1 and lpv2 topics never coincide |
| LesBackend.DummySophybase | les/backend.go:167-169 | the zero address and "not supported" |
| LesBackend.DummyCoinbase | les/backend.go:172-174 | the same answer as Sophybase |
| LesBackend.DummyHashrate | les/backend.go:177-179 | zero |
| LesBackend.DummyMining | les/backend.go:182-184 | false |
| MobileGraviton.Uint64OfInt64 | mobile/graviton.go:161 | uint64(x) of an int64: x itself when non-negative, else x + 2^64 |
| MobileGraviton.NodeConfig.Default | mobile/graviton.go:83-89 | the foundation bootnodes, 25 peers, Sophon enabled on network 1 with a 16 MB cache |
| MobileGraviton.NodeConfig.Copy | mobile/graviton.go:92-95 | a field-for-field copy |
| MobileGraviton.NodeConfig.ApplyDefaults | mobile/graviton.go:108-113 | MaxPeers 0 takes the default, a non-zero value is kept; nil or empty bootstrap nodes take the default list |
| MobileGraviton.NewNodeConfig | mobile/graviton.go:92-95 | a fresh object equal to the defaults, so changing it leaves the defaults alone |
| MobileGraviton.ServiceConfig | mobile/graviton.go:157-162 | the default sof config with the genesis, light sync, the node's network ID and database cache, and nothing else changed |
| MobileGraviton.ResolveGenesis | mobile/graviton.go:141-155 | no genesis for empty text; a decoding error is reported with "invalid genesis spec: "; the testnet text gets the testnet chain config |
| MobileGraviton.NewNode | mobile/graviton.go:103-162 | a nil config is replaced by a fresh default one; MaxPeers and BootstrapNodes are defaulted; a genesis error stops it; on the testnet a network ID of 1 becomes 3 (for a given or a default config); every other field keeps the given config's (or the default's) value; with Sophon enabled the service config is ServiceConfig |
| AccountsUrl.ParseURL | accounts/url_test.go:23-39 | success gives a non-empty scheme and a path around the only separator; text without "://" is rejected |
| AccountsUrl.String | accounts/url_test.go:41-51 | with a scheme: the scheme, then "://" right after it, then the path; without a scheme: the bare path |
| AccountsUrl.ParsePrintRoundTrip | accounts/url_test.go:23-51 | printing a URL with a scheme, then parsing, gives it back |
| AccountsUrl.PrintParseRoundTrip | accounts/url_test.go:23-51 | parsing, then printing, gives the text back |
| AccountsUrl.EscapeRoundTrip | accounts/url_test.go:53-76 | the JSON escape of any string decodes back to it |
| AccountsUrl.DecodeEscapeChar | accounts/url_test.go:53-76 | each escaped character decodes to itself in front of the rest |
| AccountsUrl.QuoteRoundTrip | accounts/url_test.go:53-76 | the JSON string of any text unquotes back to it |
| AccountsUrl.MarshalJSON | accounts/url_test.go:53-62 | never fails, and is a JSON string that unquotes to String() |
| AccountsUrl.UnmarshalJSON | accounts/url_test.go:64-76 | the decoded text is parsed into the receiver; a JSON or parsing error is returned and the receiver kept |
| AccountsUrl.TrimSpaceAround | accounts/url_test.go:64-76 | JSON white space before and after a value is removed, and nothing of the value |
| AccountsUrl.UnquoteSkipsSpace | accounts/url_test.go:64-76 | white space around a JSON value does not change what it decodes to |
| AccountsUrl.JSONRoundTrip | accounts/url_test.go:53-76 | unmarshalling a marshalled URL with a scheme restores it, whatever the receiver held |
| AccountsUrl.Compare | accounts/url_test.go:78-96 | -1, 0 or 1, and 0 exactly for equal strings |
| AccountsUrl.CompareAntisymmetric | accounts/url_test.go:78-96 | swapping the operands negates the result |
| AccountsUrl.PrefixSortsFirst | accounts/url_test.go:86 | a proper prefix sorts first ("sophon.org" before "sophon.org/a") |
| AccountsUrl.Cmp | accounts/url_test.go:78-96 | 0 exactly for equal URLs, and the scheme order decides when the schemes differ |
| AccountsUrl.CmpAntisymmetric | accounts/url_test.go:78-96 | swapping the URLs negates the result |
| AccountsUrl.TestedParsing | accounts/url_test.go:24-34 | "https://sophon.org" parses to scheme "https" and path "sophon.org" |
| AccountsUrl.TestedParsingNoScheme | accounts/url_test.go:35-38 | "sophon.org" is rejected |
| AccountsUrl.TestedString | accounts/url_test.go:41-51 | the two printing cases of the test |
| AccountsUrl.TestedMarshalJSON | accounts/url_test.go:53-62 | the URL marshals to "\"https://sophon.org\"" |
| AccountsUrl.TestedUnmarshalJSON | accounts/url_test.go:64-76 | that JSON string unmarshals into an empty receiver as scheme "https" and path "sophon.org" |
| AccountsUrl.UnmarshalJSONSkipsSpace | accounts/url_test.go:64-76 | the tested JSON string with a space before it and a newline after it unmarshals to the same URL |
| AccountsUrl.UnmarshalJSONNull | accounts/url_test.go:64-76 | JSON null decodes to the empty text, which has no scheme, so the receiver is kept and "protocol scheme missing" returned |
| AccountsUrl.TestedComparison | accounts/url_test.go:78-96 | the four comparisons of the test table |

## Left out

- I/O and the rest of the environment are parameters or absent:
  - files, `mkdir` and `fopen`
  - `getenv` and `getpwuid` (the home directory is an input)
  - database opening, goroutines, locks
  - `node.New` and service registration
  - pprof, netstats and logging
- SofashIo.StrNCat and CreateFilename: the sums `strlen(dest) + count + 1` and `dirlen + filename_length + 1` (+1) are `size_t` in C and wrap modulo 2^64 when a count lies within strlen + 2 of 2^64. Here they are unbounded, so for such counts StrNCat refuses where C's wrapped test passes and `strncat` writes past dest, and CreateFilename allocates dirlen + filename_length + 2 characters where C allocates the wrapped size and then refuses or overruns the appends.
- GetDefaultDirname: when neither HOME nor the password entry gives a home directory, the C code calls `strlen` on NULL. This case is not modelled; the home directory is always a string.
- The engines of CreateConsensusEngine are tags carrying their construction arguments, not the engines themselves. ShouldPreserve's type switch on `*clique.Clique` is a test of that tag.
- MakeExtraData: the default extra data (an RLP encoding of the version, "graviton", the Go version and the OS) is a parameter, because the RLP encoder and the runtime are not part of this model.
- `core.DefaultTxPoolConfig` is not part of this model, so DefaultConfig takes the transaction-pool defaults as a parameter. Fields of DefaultConfig not stated in its contract are the values at sof/config.go:37-63 held in its body.
- Join models `filepath.Join` as joining the non-empty parts with the OS separator. `filepath.Clean` (removing `..`, doubled separators and trailing separators) is not modelled.
- SofGenConfig.MarshalTOML: the contract states only that it never fails. That every listed field is copied unchanged is stated by MarshalRoundTrip and MarshalForgetsOnlyFreezer, since the encoded record is a plain copy.
- UnmarshalTOML and the sanitising in `New` change the caller's `Config` through a pointer in Go. Here they return the updated value, because the config is a plain record whose updates nobody else observes meanwhile.
- MobileGraviton.NodeConfig holds its bootstrap nodes by value. Go shares the `*Enodes` pointer with the default config, and that aliasing is not modelled.
- MobileGraviton.NewNode: the Whisper service and the errors of `node.New` and `Register` are not modelled.
- The account URL implementation (`accounts/url.go`) is not part of this model. ParseURL, String, MarshalJSON, UnmarshalJSON and Cmp are defined from the behaviour the tests assert:
  - parsing splits at "://" into exactly two parts with a non-empty scheme
  - Cmp compares the schemes first, then the paths, as `strings.Compare` does
- JSON strings are modelled as sequences of characters. The UTF-8 byte encoding and the decoding of `\u` surrogate pairs are not modelled; a surrogate escape is rejected.
- Big integers become `nat`. Arithmetic beyond comparison and hex encoding is not used. `Uint64()` truncation is made explicit by Low64.
- Genesis accounts always have a balance. Go's newSusyChainSpec dereferences `account.Balance`, which would panic on a nil balance; that case is not modelled.
- The protocol constants (params/protocol_params.go, params/denomination.go, consensus/sofash/consensus.go) are not part of this model. Their published values are used.
- LesTopic: the panic on a protocol version other than lpv1 and lpv2 is a precondition.
- NewAlsofGenesisSpec and NewSusyChainSpec: Go calls `Uint64()` on the Homestead, SIP150 and SIP158 blocks and the chain ID (the Susy converter also on the SIP155 block) without a nil check, which panics when one is unset (cmd/puppsof/genesis.go:111-113, 124-125, 330, 334, 338-341, 359-360). Here these fields being set is a precondition (AlsofForksSet, SusyForksSet); the panic is not modelled.
- PuppsofGenesis.ToLower: only the ASCII letters A-Z are lowered. Go's `strings.ToLower` also lowers other Unicode letters ("Ä" becomes "ä"); the Unicode case tables are not modelled, so the data directory of a network name with such letters differs.
