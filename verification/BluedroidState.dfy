/**
 * The shared state of the Bluedroid GATT peripheral as a value, and what each critical section of
 * the pumps and of the event handler does to it. Here every section, signals included, is under
 * one lock; only the answer to a CCCD write is sent after the lock is released.
 */
module BluedroidState {
  import opened Base
  import opened BtpEngine

  datatype Connection = Connection(peer: nat, connId: nat, subscribed: bool, mtu: Option<nat>)

  /** The interface, and the handles of the service and its attributes, as they get registered. */
  datatype Handles = Handles(
    gattIf: Option<nat>, service: Option<nat>, c1: Option<nat>, c2: Option<nat>, cccd: Option<nat>)

  const UNREGISTERED := Handles(None, None, None, None, None)

  datatype Context = Context(
    gatt: Handles,
    connection: Option<Connection>,
    connGen: nat,
    btpGen: Option<nat>,
    inData: Bytes,
    inTrans: nat,
    outData: Bytes,
    outNack: bool,
    notifyIncoming: bool,
    notifyOutgoing: bool
  ) {
    predicate Valid() {
      connGen < USIZE_VALUES && |inData| <= MAX_MTU_SIZE && |outData| <= MAX_MTU_SIZE
    }

    predicate Subscribed() {
      connection.Some? && connection.value.subscribed
    }

    predicate Serves(service: nat) {
      gatt.service == Some(service)
    }
  }

  const FRESH := Context(UNREGISTERED, None, 0, None, [], 0, [], false, false, false)

  datatype Characteristic = C1 | C2 | OtherCharacteristic

  /** A write request of the peer. */
  datatype Request = Request(connId: nat, trans: nat, handle: nat, offset: nat, value: Bytes)

  /** What the incoming section asks of the stack: an answer to transaction `trans`. */
  datatype Response = Response(gattIf: nat, connId: nat, trans: nat)

  datatype Indication = Indication(gattIf: nat, connId: nat, attr: nat, data: Bytes)

  datatype Outcome = Processed | NotProcessed | Failed

  datatype InPass = InPass(ctx: Context, reset: bool, call: Call, response: Option<Response>, outcome: Outcome)

  datatype OutPass = OutPass(ctx: Context, reset: bool, call: Call, sent: Option<Indication>, outcome: Outcome)

  // ----- Sections of the event handler ---------------------------------------------------------

  /** The context reset: unlike NimBLE's, it keeps `btp_gen` and `out_data`. */
  function Reset(c: Context): Context {
    c.(gatt := UNREGISTERED, connection := None, inData := [], inTrans := 0, outNack := false,
       notifyIncoming := false, notifyOutgoing := false)
  }

  function Characterised(c: Context, service: nat, attr: nat, which: Characteristic): Context {
    if !c.Serves(service) then c
    else if which.C1? then c.(gatt := c.gatt.(c1 := Some(attr)))
    else if which.C2? then c.(gatt := c.gatt.(c2 := Some(attr)))
    else c
  }

  function Described(c: Context, service: nat, attr: nat, isCccd: bool): Context {
    if isCccd && c.Serves(service) then c.(gatt := c.gatt.(cccd := Some(attr))) else c
  }

  function Deleted(c: Context, service: nat): Context {
    if c.Serves(service) then c.(gatt := c.gatt.(c1 := None, c2 := None, cccd := None)) else c
  }

  function Unregistered(c: Context, service: nat): Context {
    if c.Serves(service) then c.(gatt := c.gatt.(gattIf := None, service := None)) else c
  }

  function MtuSet(c: Context, connId: nat, mtu: nat): Context {
    if c.connection.Some? && c.connection.value.connId == connId then
      c.(connection := Some(c.connection.value.(mtu := Some(mtu))))
    else c
  }

  function NextGen(g: nat): nat {
    (g + 1) % USIZE_VALUES
  }

  /** Only the first of several peers is taken on. */
  function Connected(c: Context, connId: nat, peer: nat): Context {
    if c.connection.Some? then c
    else c.(connection := Some(Connection(peer, connId, false, None)), inData := [], outNack := false,
            connGen := NextGen(c.connGen), notifyIncoming := true)
  }

  predicate IsPeer(c: Context, peer: nat) {
    c.connection.Some? && c.connection.value.peer == peer
  }

  function Disconnected(c: Context, peer: nat): Context {
    if IsPeer(c, peer) then c.(connection := None, connGen := NextGen(c.connGen), notifyIncoming := true) else c
  }

  /** A little-endian CCCD value that asks for indications. */
  predicate AsksIndications(value: Bytes)
    requires |value| == 2
  {
    value[0] as int + 256 * value[1] as int == 2
  }

  predicate FromLink(c: Context, r: Request) {
    c.connection.Some? && c.connection.value.connId == r.connId
  }

  predicate IsCccdWrite(c: Context, r: Request) {
    FromLink(c, r) && c.gatt.cccd == Some(r.handle)
  }

  predicate IsC1Write(c: Context, r: Request) {
    FromLink(c, r) && c.gatt.cccd != Some(r.handle) && c.gatt.c1 == Some(r.handle) && r.offset == 0
  }

  /** A CCCD write that changes the subscription. */
  predicate Toggles(c: Context, r: Request) {
    && IsCccdWrite(c, r) && r.offset == 0 && |r.value| == 2
    && AsksIndications(r.value) != c.connection.value.subscribed
  }

  function Written(c: Context, r: Request): Context {
    if Toggles(c, r) then
      var on := AsksIndications(r.value);
      c.(connection := Some(c.connection.value.(subscribed := on)),
         notifyIncoming := true, notifyOutgoing := c.notifyOutgoing || on)
    else if IsC1Write(c, r) then
      c.(inTrans := r.trans, inData := if |r.value| <= MAX_MTU_SIZE then r.value else [], notifyIncoming := true)
    else c
  }

  /** An indication was confirmed; a failed confirmation never gets here. */
  function Confirmed(c: Context): Context {
    c.(outNack := false, notifyOutgoing := true)
  }

  // ----- Sections of the pumps -----------------------------------------------------------------

  function SyncBtp(c: Context): (r: (Context, bool))
    ensures r.0.btpGen == Some(r.0.connGen)
  {
    if c.btpGen != Some(c.connGen) then (c.(btpGen := Some(c.connGen)), true) else (c, false)
  }

  function IncomingPass(c: Context, fed: bool, answered: bool): InPass {
    match c.connection
    case None => InPass(c, false, NoCall, None, NotProcessed)
    case Some(conn) =>
      var (s, reset) := SyncBtp(c);
      if s.inData == [] then InPass(s, reset, NoCall, None, NotProcessed)
      else
        var call := Feed(conn.mtu, conn.peer, s.inData);
        if !fed then InPass(s, reset, call, None, Failed)
        else
          var response := Some(Response(s.gatt.gattIf.GetOr(0), conn.connId, s.inTrans));
          if !answered then InPass(s, reset, call, response, Failed)
          else InPass(s.(inData := []), reset, call, response, Processed)
  }

  // ----- When does `sync_btp` notice a change of connection? -----------------------------------

  /** `n` disconnects and connects, in turn. */
  function Turnovers(c: Context, n: nat): Context {
    if n == 0 then c
    else
      var before := Turnovers(c, n - 1);
      if before.connection.Some? then Disconnected(before, before.connection.value.peer) else Connected(before, 0, 0)
  }

  lemma NextGenCounts(n: nat)
    ensures NextGen(n % USIZE_VALUES) == (n + 1) % USIZE_VALUES
  {
  }

  lemma TurnoverStep(c: Context, n: nat)
    requires n > 0
    ensures
      var before, after := Turnovers(c, n - 1), Turnovers(c, n);
      && after.connGen == NextGen(before.connGen) && after.btpGen == before.btpGen
      && (after.connection.Some? <==> before.connection.None?)
  {
  }

  lemma {:induction false} GenerationAfterTurnovers(c: Context, n: nat)
    requires c.Valid()
    ensures Turnovers(c, n).connGen == (c.connGen + n) % USIZE_VALUES
    ensures Turnovers(c, n).btpGen == c.btpGen
  {
    if n > 0 {
      GenerationAfterTurnovers(c, n - 1);
      TurnoverStep(c, n);
      NextGenCounts(c.connGen + n - 1);
    }
  }

  lemma {:induction false} LinkAfterTurnovers(c: Context, n: nat)
    ensures Turnovers(c, n).connection.Some? <==> c.connection.Some? == (n % 2 == 0)
  {
    if n > 0 {
      LinkAfterTurnovers(c, n - 1);
      TurnoverStep(c, n);
    }
  }

  lemma WrapsExactly(g: nat, n: nat)
    requires g < USIZE_VALUES
    ensures (g + n) % USIZE_VALUES == g <==> n % USIZE_VALUES == 0
  {
  }

  lemma WrapIsEven(n: nat)
    requires n % USIZE_VALUES == 0
    ensures n % 2 == 0
  {
  }

  /**
   * A section entered `n` of them after the last sync resets BTP exactly if `n` is no multiple of 2^32;
   * if it is, there is a connection exactly if there was.
   */
  lemma SyncNoticesTurnovers(c: Context, n: nat)
    requires c.Valid() && c.btpGen == Some(c.connGen)
    ensures SyncBtp(Turnovers(c, n)).1 <==> n % USIZE_VALUES != 0
    ensures n % USIZE_VALUES == 0 ==> (Turnovers(c, n).connection.Some? <==> c.connection.Some?)
  {
    GenerationAfterTurnovers(c, n);
    WrapsExactly(c.connGen, n);
    if n % USIZE_VALUES == 0 {
      LinkAfterTurnovers(c, n);
      WrapIsEven(n);
    }
  }

  predicate MaySend(c: Context) {
    c.gatt.gattIf.Some? && c.gatt.c2.Some? && c.Subscribed() && !c.outNack
  }

  function OutgoingPass(c: Context, reply: Reply, accepted: bool): (p: OutPass)
    requires reply.Fits()
  {
    if c.gatt.gattIf.None? || c.gatt.c2.None? || !c.Subscribed() then OutPass(c, false, NoCall, None, NotProcessed)
    else
      var conn := c.connection.value;
      var (s, reset) := SyncBtp(c);
      if s.outNack then OutPass(s, reset, NoCall, None, NotProcessed)
      else
        var buffer := Resized(s.outData, MAX_MTU_SIZE);
        var call := Poll(conn.mtu);
        match reply
        case EngineError => OutPass(s.(outData := buffer), reset, call, None, Failed)
        case Nothing => OutPass(s.(outData := buffer), reset, call, None, NotProcessed)
        case Produced(frame) =>
          var filled := frame + buffer[|frame|..];
          var sent := Some(Indication(c.gatt.gattIf.value, conn.connId, c.gatt.c2.value, filled[..|frame|]));
          if accepted then OutPass(s.(outData := filled, outNack := true), reset, call, sent, Processed)
          else OutPass(s.(outData := filled), reset, call, sent, Failed)
  }
}
