/**
 * The BTP engine as the transports see it: what is asked of it, what it answers, and the session
 * it is in. Its protocol is not part of this model.
 */
module BtpEngine {
  import opened Base

  /** One use of the engine by a pump. */
  datatype Call =
    | NoCall
    | Feed(mtu: Option<nat>, peer: nat, data: Bytes)
    | Poll(mtu: Option<nat>)
  {
    /** The bytes the engine is given. */
    function Carried(): Bytes {
      if Feed? then data else []
    }
  }

  /** What the engine answers when polled for a frame. */
  datatype Reply = Produced(frame: Bytes) | Nothing | EngineError {
    /** A frame fits the buffer the engine was given. */
    predicate Fits() {
      Produced? ==> 0 < |frame| <= MAX_MTU_SIZE
    }
  }

  /** The connection the engine was last reset for, whether it has data, and its wake-up bit. */
  datatype EngineState = EngineState(session: Option<nat>, hasData: bool, ready: bool) {
    /** The engine may change on its own, but comes to have data only with its bit raised. */
    predicate MayBecome(data: bool, bit: bool) {
      (data && !hasData ==> bit) && (ready ==> bit)
    }
  }

  /** A recorded use: the live connection, the engine's session, and where fed bytes came from. */
  datatype Use = Use(link: Option<nat>, engine: Option<nat>, origin: Option<nat>)

  /** Every use was within the session of the live connection, on bytes of that connection. */
  ghost predicate Isolated(uses: seq<Use>) {
    forall i | 0 <= i < |uses| ::
      && uses[i].link.Some?
      && uses[i].engine == uses[i].link
      && (uses[i].origin.Some? ==> uses[i].origin == uses[i].link)
  }

  datatype Entry = ResetEntry | CallEntry(call: Call)

  /** What a pass leaves in the engine's log: a reset comes before the call. */
  function Entries(reset: bool, call: Call): (r: seq<Entry>)
    ensures !call.NoCall? ==> r != [] && r[|r| - 1] == CallEntry(call)
    ensures reset ==> r != [] && r[0] == ResetEntry
  {
    (if reset then [ResetEntry] else []) + (if call.NoCall? then [] else [CallEntry(call)])
  }

  /** The engine object, reduced to the order in which it is used. */
  class Btp {
    var log: seq<Entry>

    constructor ()
      ensures log == []
    {
      log := [];
    }

    method Reset()
      modifies this
      ensures log == old(log) + [ResetEntry]
    {
      log := log + [ResetEntry];
    }

    method ProcessIncoming(mtu: Option<nat>, peer: nat, data: Bytes)
      modifies this
      ensures log == old(log) + [CallEntry(Feed(mtu, peer, data))]
    {
      log := log + [CallEntry(Feed(mtu, peer, data))];
    }

    method ProcessOutgoing(mtu: Option<nat>)
      modifies this
      ensures log == old(log) + [CallEntry(Poll(mtu))]
    {
      log := log + [CallEntry(Poll(mtu))];
    }
  }
}
