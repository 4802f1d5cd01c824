/**
 * les/ulc.go: the ultra-light client's set of trusted servers. newULC
 * parses each configured enode URL and keeps the IDs that parse; isTrusted
 * is membership of a peer's ID in that set.
 *
 * enode.ParseV4 followed by ID().String() is foreign: `parse` gives the ID
 * string of a URL, or None when the URL does not parse. Peers are named
 * by their ID string.
 */
module LesUlc {
  import opened Wrappers
  import opened SofConfig

  /** The ulc record; a nil key map is None. */
  datatype Ulc = Ulc(trustedKeys: Option<set<string>>, minTrustedFraction: int)

  /** The IDs of the servers that parse; duplicates collapse. */
  function TrustedKeySet(servers: seq<string>, parse: string -> Option<string>): set<string>
  {
    set i | 0 <= i < |servers| && parse(servers[i]).Some? :: parse(servers[i]).value
  }

  /** The key set of a one-longer list: the new server's ID joins when it parses. */
  lemma TrustedKeySetSnoc(servers: seq<string>, next: string, parse: string -> Option<string>)
    ensures TrustedKeySet(servers + [next], parse) ==
            TrustedKeySet(servers, parse) + (if parse(next).Some? then {parse(next).value} else {})
  {
    var longer := servers + [next];
    assert forall i :: 0 <= i < |servers| ==> longer[i] == servers[i];
    assert longer[|servers|] == next;
  }

  /** A key is trusted exactly when some configured server parses to it. */
  lemma TrustedKeySetMembership(servers: seq<string>, parse: string -> Option<string>, key: string)
    ensures key in TrustedKeySet(servers, parse) <==> exists i :: 0 <= i < |servers| && parse(servers[i]) == Some(key)
  {
  }

  /**
   * newULC. A nil config gives a nil ulc; otherwise every server that
   * parses adds its ID to the key set, the others are skipped, and the
   * minimum trusted fraction is copied.
   */
  method NewULC(ulcConfig: Option<ULCConfig>, parse: string -> Option<string>) returns (u: Option<Ulc>)
    ensures ulcConfig.None? <==> u.None?
    ensures ulcConfig.Some? ==>
              u == Some(Ulc(Some(TrustedKeySet(ulcConfig.value.trustedServers, parse)),
                            ulcConfig.value.minTrustedFraction))
  {
    if ulcConfig.None? {
      return None;
    }
    var servers := ulcConfig.value.trustedServers;
    var m: set<string> := {};
    var i := 0;
    while i < |servers|
      invariant 0 <= i <= |servers|
      invariant m == TrustedKeySet(servers[..i], parse)
    {
      var id := parse(servers[i]);
      assert servers[..i + 1] == servers[..i] + [servers[i]];
      TrustedKeySetSnoc(servers[..i], servers[i], parse);
      if id.None? {
        i := i + 1;
        continue;
      }
      m := m + {id.value};
      i := i + 1;
    }
    assert servers[..i] == servers;
    return Some(Ulc(Some(m), ulcConfig.value.minTrustedFraction));
  }

  /** isTrusted: false without a key map, else membership of the peer's ID. */
  function IsTrusted(u: Ulc, peer: string): (trusted: bool)
    ensures u.trustedKeys.None? ==> !trusted
  {
    u.trustedKeys.Some? && peer in u.trustedKeys.value
  }

  /**
   * For a ulc built from a config, a peer is trusted exactly when one of
   * the configured servers parses to its ID.
   */
  lemma TrustedIffConfigured(config: ULCConfig, parse: string -> Option<string>, peer: string)
    ensures IsTrusted(Ulc(Some(TrustedKeySet(config.trustedServers, parse)), config.minTrustedFraction), peer) <==>
            exists i :: 0 <= i < |config.trustedServers| && parse(config.trustedServers[i]) == Some(peer)
  {
    TrustedKeySetMembership(config.trustedServers, parse, peer);
  }

  /** A server that does not parse changes nothing. */
  lemma UnparsableServerSkipped(servers: seq<string>, bad: string, parse: string -> Option<string>)
    requires parse(bad).None?
    ensures TrustedKeySet(servers + [bad], parse) == TrustedKeySet(servers, parse)
  {
    TrustedKeySetSnoc(servers, bad, parse);
  }
}
