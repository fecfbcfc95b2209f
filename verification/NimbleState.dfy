/**
 * The shared state of the NimBLE GATT peripheral as a value, and what each critical section of
 * the two pumps and of the host hooks does to it. `NimbleContext` holds the mutable object whose
 * methods perform these sections, `NimblePeripheral` interleaves them.
 */
module NimbleState {
  import opened Base
  import opened BtpEngine

  datatype Connection = Connection(peer: nat, handle: nat, subscribed: bool, mtu: Option<nat>)

  datatype Context = Context(
    connection: Option<Connection>,
    connGen: nat,
    btpGen: Option<nat>,
    inData: Bytes,
    outData: Bytes,
    needAdvertise: bool,
    outNack: bool,             // an atomic: not protected by the lock of the fields above
    notifyIncoming: bool,      // the two latched wake-up signals
    notifyOutgoing: bool,
    c2Handle: nat              // a static atomic, 0 until `C2` is registered
  ) {
    predicate Valid() {
      connGen < USIZE_VALUES && |inData| <= MAX_MTU_SIZE && |outData| <= MAX_MTU_SIZE
    }

    predicate Subscribed() {
      connection.Some? && connection.value.subscribed
    }
  }

  const FRESH := Context(None, 0, None, [], [], false, false, false, false, 0)

  /** `BLE_HS_EDONE`: the peer confirmed the indication. */
  const EDONE: int := 14

  /** A completion after which the next indication may go out. */
  predicate Terminal(indication: bool, status: int) {
    indication && status != 0
  }

  datatype Outcome = Processed | NotProcessed | Failed | Send(handle: nat, attr: nat, data: Bytes)

  datatype Pass = Pass(ctx: Context, reset: bool, call: Call, outcome: Outcome)

  // ----- Critical sections of the host hooks ---------------------------------------------------

  function Reset(c: Context): Context {
    c.(connection := None, btpGen := None, inData := [], outData := [], outNack := false,
       notifyIncoming := false, notifyOutgoing := false)
  }

  function RequestAdvertising(c: Context): Context {
    c.(needAdvertise := true)
  }

  function ConnectLocked(c: Context, handle: nat, peer: nat, mtu: Option<nat>): Context {
    c.(connGen := (c.connGen + 1) % USIZE_VALUES, inData := [], outData := [],
       connection := Some(Connection(peer, handle, false, mtu)))
  }

  function DisconnectLocked(c: Context): Context {
    c.(connection := None, inData := [], outData := [], needAdvertise := true)
  }

  function MtuLocked(c: Context, handle: nat, value: nat): Context {
    if c.connection.Some? && c.connection.value.handle == handle then
      c.(connection := Some(c.connection.value.(mtu := Some(value))))
    else c
  }

  function SubscribeLocked(c: Context, handle: nat, on: bool): Context {
    if c.connection.Some? && c.connection.value.handle == handle then
      c.(connection := Some(c.connection.value.(subscribed := on)))
    else c
  }

  /** A write is taken only into an empty `in_data` ... */
  predicate WriteTaken(c: Context, read: Option<Bytes>) {
    c.inData == [] && read.Some?
  }

  /** ... and a failed read of it leaves the zeroed buffer behind. */
  function WriteLocked(c: Context, read: Option<Bytes>): Context {
    if c.inData != [] then c
    else if read.Some? then c.(inData := read.value)
    else c.(inData := Zeros(MAX_MTU_SIZE))
  }

  // ----- Critical sections of the pumps --------------------------------------------------------

  function SyncBtp(c: Context): (r: (Context, bool))
    ensures r.0.btpGen == Some(r.0.connGen)
  {
    if c.btpGen != Some(c.connGen) then (c.(btpGen := Some(c.connGen)), true) else (c, false)
  }

  function IncomingPass(c: Context, ok: bool): Pass {
    match c.connection
    case None => Pass(c, false, NoCall, NotProcessed)
    case Some(conn) =>
      var (s, reset) := SyncBtp(c);
      if s.inData == [] then Pass(s, reset, NoCall, NotProcessed)
      else
        var call := Feed(conn.mtu, conn.peer, s.inData);
        if ok then Pass(s.(inData := []), reset, call, Processed)
        else Pass(s, reset, call, Failed)
  }

  /** The outgoing section up to, not including, the `out_nack` store that precedes the send. */
  function OutgoingPass(c: Context, reply: Reply): (p: Pass)
    requires reply.Fits()
    ensures p.outcome.Send? ==> reply.Produced? && p.outcome.data == reply.frame
  {
    match c.connection
    case Some(conn) =>
      if !conn.subscribed then Pass(c, false, NoCall, NotProcessed)
      else
        var (s, reset) := SyncBtp(c);
        if s.outNack || s.c2Handle == 0 then Pass(s, reset, NoCall, NotProcessed)
        else
          var buffer := Resized(s.outData, MAX_MTU_SIZE);
          var call := Poll(conn.mtu);
          (match reply
           case EngineError => Pass(s.(outData := buffer), reset, call, Failed)
           case Nothing => Pass(s.(outData := buffer), reset, call, NotProcessed)
           case Produced(frame) =>
             var filled := frame + buffer[|frame|..];
             Pass(s.(outData := filled), reset, call, Send(conn.handle, s.c2Handle, filled[..|frame|])))
    case None => Pass(c, false, NoCall, NotProcessed)
  }

  /** Does the outgoing section get as far as asking the engine for a frame? */
  predicate MaySend(c: Context) {
    c.Subscribed() && !c.outNack && c.c2Handle != 0
  }

  /** The context after a send whose completion, if any, came before `indicate` returned: it wins. */
  function AfterSend(c: Context, accepted: bool, completion: Option<int>): Context {
    var completes := completion.Some? && Terminal(true, completion.value);
    c.(outNack := accepted && !completes, notifyOutgoing := c.notifyOutgoing || completes)
  }

  // ----- When does `sync_btp` notice a new connection? -----------------------------------------

  function Connects(c: Context, n: nat): Context {
    if n == 0 then c else ConnectLocked(Connects(c, n - 1), 0, 0, None)
  }

  lemma {:induction false} GenerationAfterConnects(c: Context, n: nat)
    requires c.Valid()
    ensures Connects(c, n).connGen == (c.connGen + n) % USIZE_VALUES
    ensures Connects(c, n).btpGen == c.btpGen
  {
    if n > 0 {
      GenerationAfterConnects(c, n - 1);
      assert ((c.connGen + n - 1) % USIZE_VALUES + 1) % USIZE_VALUES == (c.connGen + n) % USIZE_VALUES;
    }
  }

  /**
   * A section entered `n` connects after the last sync resets BTP exactly unless the wrapping
   * counter came back to where it was.
   */
  lemma SyncNoticesConnects(c: Context, n: nat)
    requires c.Valid() && c.btpGen == Some(c.connGen)
    ensures SyncBtp(Connects(c, n)).1 <==> n % USIZE_VALUES != 0
  {
    GenerationAfterConnects(c, n);
  }
}
