/**
 * les/backend.go: the discovery topic a light server advertises and the
 * mining API stubs of the light client.
 */
module LesBackend {
  import opened Wrappers
  import opened CoreTypes
  import opened Encoding

  /** Light protocol versions. */
  const Lpv1: nat := 1
  const Lpv2: nat := 2

  /**
   * lesTopic: the protocol's name, "@", and the hex of the first eight
   * bytes of the genesis hash. Any other version panics, so the model
   * requires one of the two.
   */
  function LesTopic(genesisHash: Hash, protocolVersion: nat): (topic: string)
    requires protocolVersion == Lpv1 || protocolVersion == Lpv2
    ensures protocolVersion == Lpv1 ==> |topic| == 4 + 16 && topic[..4] == "LES@"
    ensures protocolVersion == Lpv2 ==> |topic| == 5 + 16 && topic[..5] == "LES2@"
    ensures |topic| >= 16 && topic[|topic| - 16..] == Bytes2Hex(genesisHash[0..8])
  {
    var name := if protocolVersion == Lpv1 then "LES" else "LES2";
    name + "@" + Bytes2Hex(genesisHash[0..8])
  }

  /**
   * Two genesis hashes give the same topic under one version exactly when
   * their first eight bytes agree.
   */
  lemma LesTopicDependsOnPrefix(a: Hash, b: Hash, protocolVersion: nat)
    requires protocolVersion == Lpv1 || protocolVersion == Lpv2
    ensures LesTopic(a, protocolVersion) == LesTopic(b, protocolVersion) <==> a[..8] == b[..8]
  {
    var ta, tb := LesTopic(a, protocolVersion), LesTopic(b, protocolVersion);
    if ta == tb {
      assert ta[|ta| - 16..] == tb[|tb| - 16..];
      Bytes2HexInjective(a[0..8], b[0..8]);
    }
  }

  /** The two versions never share a topic. */
  lemma LesTopicVersionsDiffer(a: Hash, b: Hash)
    ensures LesTopic(a, Lpv1) != LesTopic(b, Lpv2)
  {
    assert LesTopic(a, Lpv1)[3] == '@';
    assert LesTopic(b, Lpv2)[3] == '2';
  }

  /** LightDummyAPI.Sophybase: the zero address and "not supported". */
  function DummySophybase(): (r: (Address, Option<string>))
    ensures r.0 == ZeroAddress() && r.1 == Some("not supported")
  {
    (ZeroAddress(), Some("not supported"))
  }

  /** LightDummyAPI.Coinbase, the alias: the same answer as Sophybase. */
  function DummyCoinbase(): (r: (Address, Option<string>))
    ensures r.0 == ZeroAddress() && r.1 == Some("not supported")
  {
    DummySophybase()
  }

  /** LightDummyAPI.Hashrate: zero. */
  function DummyHashrate(): (r: nat)
    ensures r == 0
  {
    0
  }

  /** LightDummyAPI.Mining: never. */
  function DummyMining(): (r: bool)
    ensures !r
  {
    false
  }
}
