/**
 * sof/metrics.go: a message stream wrapper that meters the sof protocol's
 * traffic. Every message read or written is counted in exactly one pair
 * of meters (packets and bytes), chosen by its code and, for the state and
 * receipt messages, by the protocol version.
 *
 * The meters are package-level counters, modelled as one registry object
 * holding every counter. The wrapped p2p stream is foreign: what its read
 * returns and what its write reports are parameters.
 */
module SofMetrics {
  import opened Wrappers

  /** The sof protocol version from which state and receipt messages are metered on their own. */
  const Sof63: int := 63

  /** Message codes of the sof protocol. */
  const NewBlockHashesMsg: nat := 0x01
  const TxMsg: nat := 0x02
  const BlockHeadersMsg: nat := 0x04
  const BlockBodiesMsg: nat := 0x06
  const NewBlockMsg: nat := 0x07
  const NodeDataMsg: nat := 0x0e
  const ReceiptsMsg: nat := 0x10

  /** A p2p message as far as metering looks at it: its code and payload size (a uint32). */
  datatype Msg = Msg(code: nat, size: nat)

  /** The eight meter groups. */
  datatype Category = PropTxn | PropHash | PropBlock | ReqHeader | ReqBody | ReqState | ReqReceipt | Misc

  datatype Direction = In | Out
  datatype Kind = Packets | Traffic

  /** One registered meter, e.g. sof/req/headers/in/packets. */
  datatype MeterId = MeterId(direction: Direction, category: Category, kind: Kind)

  /**
   * The switch shared by ReadMsg and WriteMsg. Headers and bodies are
   * recognised first, then node data and receipts from sof63 on, then the
   * propagation messages; everything else is misc.
   */
  function Classify(code: nat, version: int): (c: Category)
    ensures c == ReqHeader <==> code == BlockHeadersMsg
    ensures c == ReqBody <==> code == BlockBodiesMsg
    ensures c == ReqState <==> version >= Sof63 && code == NodeDataMsg
    ensures c == ReqReceipt <==> version >= Sof63 && code == ReceiptsMsg
    ensures c == PropHash <==> code == NewBlockHashesMsg
    ensures c == PropBlock <==> code == NewBlockMsg
    ensures c == PropTxn <==> code == TxMsg
  {
    if code == BlockHeadersMsg then ReqHeader
    else if code == BlockBodiesMsg then ReqBody
    else if version >= Sof63 && code == NodeDataMsg then ReqState
    else if version >= Sof63 && code == ReceiptsMsg then ReqReceipt
    else if code == NewBlockHashesMsg then PropHash
    else if code == NewBlockMsg then PropBlock
    else if code == TxMsg then PropTxn
    else Misc
  }

  /** Before sof63, node data and receipts are counted as misc. */
  lemma StateAndReceiptsMiscBeforeSof63(code: nat, version: int)
    requires version < Sof63 && (code == NodeDataMsg || code == ReceiptsMsg)
    ensures Classify(code, version) == Misc
  {
  }

  /** A meter's current count; an untouched meter reads zero. */
  function Tally(counts: map<MeterId, int>, id: MeterId): int
  {
    if id in counts then counts[id] else 0
  }

  /** Meter.Mark(n) on one meter. */
  function Marked(counts: map<MeterId, int>, id: MeterId, n: int): (r: map<MeterId, int>)
    ensures Tally(r, id) == Tally(counts, id) + n
    ensures forall other :: other != id ==> Tally(r, other) == Tally(counts, other)
  {
    counts[id := Tally(counts, id) + n]
  }

  /** The accounting of one message: its pair's packet meter by one and traffic meter by its size. */
  function Account(counts: map<MeterId, int>, direction: Direction, category: Category, size: nat): map<MeterId, int>
  {
    Marked(Marked(counts, MeterId(direction, category, Packets), 1), MeterId(direction, category, Traffic), size)
  }

  /** Accounting a message moves exactly the two meters of its pair. */
  lemma AccountMovesOnePair(counts: map<MeterId, int>, direction: Direction, category: Category, size: nat, id: MeterId)
    ensures Tally(Account(counts, direction, category, size), id) ==
            Tally(counts, id) + (if id == MeterId(direction, category, Packets) then 1
                                 else if id == MeterId(direction, category, Traffic) then size
                                 else 0)
  {
    var packets := MeterId(direction, category, Packets);
    var traffic := MeterId(direction, category, Traffic);
    var mid := Marked(counts, packets, 1);
    assert Tally(mid, id) == Tally(counts, id) + (if id == packets then 1 else 0);
  }

  /** The registered meters. */
  class Meters {
    var counts: map<MeterId, int>

    constructor ()
      ensures counts == map[]
    {
      counts := map[];
    }

    /** Mark: add n to one meter. */
    method Mark(id: MeterId, n: int)
      modifies this
      ensures counts == Marked(old(counts), id, n)
    {
      counts := counts[id := Tally(counts, id) + n];
    }
  }

  /**
   * meteredMsgReadWriter. `forwarded` is what the wrapped stream has been
   * given to write, oldest first.
   */
  class MeteredMsgReadWriter {
    var version: int
    var forwarded: seq<Msg>
    const meters: Meters

    /** The wrapper around a fresh stream: version zero, nothing forwarded yet. */
    constructor (meters: Meters)
      ensures version == 0 && forwarded == [] && this.meters == meters
    {
      version := 0;
      forwarded := [];
      this.meters := meters;
    }

    /** Init: record the negotiated protocol version and nothing else. */
    method Init(version: int)
      modifies this`version
      ensures this.version == version
    {
      this.version := version;
    }

    /**
     * ReadMsg. `read` is what the wrapped stream returned. An error is
     * passed through and nothing is metered; otherwise the message's pair
     * of inbound meters is marked.
     */
    method ReadMsg(read: (Msg, Option<string>)) returns (msg: Msg, err: Option<string>)
      modifies meters
      ensures (msg, err) == read
      ensures read.1.Some? ==> meters.counts == old(meters.counts)
      ensures read.1.None? ==>
                meters.counts == Account(old(meters.counts), In, Classify(read.0.code, version), read.0.size)
    {
      msg, err := read.0, read.1;
      if err.Some? {
        return;
      }
      var category := Misc;
      if msg.code == BlockHeadersMsg {
        category := ReqHeader;
      } else if msg.code == BlockBodiesMsg {
        category := ReqBody;
      } else if version >= Sof63 && msg.code == NodeDataMsg {
        category := ReqState;
      } else if version >= Sof63 && msg.code == ReceiptsMsg {
        category := ReqReceipt;
      } else if msg.code == NewBlockHashesMsg {
        category := PropHash;
      } else if msg.code == NewBlockMsg {
        category := PropBlock;
      } else if msg.code == TxMsg {
        category := PropTxn;
      }
      meters.Mark(MeterId(In, category, Packets), 1);
      meters.Mark(MeterId(In, category, Traffic), msg.size);
    }

    /**
     * WriteMsg. The message's pair of outbound meters is marked before it
     * is handed to the wrapped stream, so the counts move even when that
     * write fails; `writeResult` is the wrapped stream's answer, returned
     * as is.
     */
    method WriteMsg(msg: Msg, writeResult: Option<string>) returns (err: Option<string>)
      modifies meters, this`forwarded
      ensures meters.counts == Account(old(meters.counts), Out, Classify(msg.code, version), msg.size)
      ensures forwarded == old(forwarded) + [msg]
      ensures err == writeResult
    {
      var category := Misc;
      if msg.code == BlockHeadersMsg {
        category := ReqHeader;
      } else if msg.code == BlockBodiesMsg {
        category := ReqBody;
      } else if version >= Sof63 && msg.code == NodeDataMsg {
        category := ReqState;
      } else if version >= Sof63 && msg.code == ReceiptsMsg {
        category := ReqReceipt;
      } else if msg.code == NewBlockHashesMsg {
        category := PropHash;
      } else if msg.code == NewBlockMsg {
        category := PropBlock;
      } else if msg.code == TxMsg {
        category := PropTxn;
      }
      meters.Mark(MeterId(Out, category, Packets), 1);
      meters.Mark(MeterId(Out, category, Traffic), msg.size);
      forwarded := forwarded + [msg];
      err := writeResult;
    }
  }

  /**
   * newMeteredMsgWriter: with metrics disabled the original stream is
   * returned unwrapped (null here: no wrapper); otherwise a fresh wrapper.
   */
  method NewMeteredMsgWriter(enabled: bool, meters: Meters) returns (rw: MeteredMsgReadWriter?)
    ensures enabled <==> rw != null
    ensures rw != null ==> fresh(rw) && rw.version == 0 && rw.forwarded == [] && rw.meters == meters
  {
    if !enabled {
      return null;
    }
    rw := new MeteredMsgReadWriter(meters);
  }
}
