/**
 * The Bluedroid peripheral as a labelled step system: every critical section is one step, parking
 * a pump is one, and so is the answer to a CCCD write, which is sent outside the lock.
 *
 * Assumptions on the environment, all in `Enabled`:
 * - the events of the host come one after the other;
 * - ATT is sequential: the peer of the live connection has one write request and one indication
 *   outstanding at most, and an indication is confirmed at most once, not after its disconnect;
 * - the engine raises its ready bit whenever it comes to have data, and a reset engine has none.
 */
module BluedroidPeripheral {
  import opened Base
  import opened BtpEngine
  import opened BluedroidState

  datatype Pc = Running | Idle | Parked | Stopped

  datatype HookPc = HookIdle | Answering(trans: nat)

  datatype Packet = Packet(trans: nat, data: Bytes)

  datatype Env = Env(
    pending: bool,               // an indication was sent and has not been confirmed
    confirmLost: bool,           // a confirmation of the latest connection failed
    request: Option<nat>,        // the transaction of the live peer's outstanding write request
    btp: EngineState
  )

  datatype Transcript = Transcript(
    links: nat,                  // connections taken on so far
    gens: nat,                   // ... plus those ended: what `conn_gen` counts
    syncedGen: nat,              // `gens` at the last sync
    origin: nat,                 // the connection during which `in_data` was written
    packets: seq<Packet>,        // `C1` write requests of 1 to 512 bytes, on the latest connection
    fed: seq<Bytes>,             // what BTP has consumed of them, and the pump has taken out
    answered: seq<nat>,          // the transactions the incoming pump has answered
    emitted: seq<Bytes>, completed: nat
  )

  datatype World = World(
    ctx: Context, inPc: Pc, outPc: Pc, hook: HookPc, env: Env, log: Transcript, uses: seq<Use>)

  datatype HostStep =
    | ServiceRegistered(gattIf: nat)
    | ServiceCreated(service: nat)
    | CharacteristicAdded(service: nat, attr: nat, which: Characteristic)
    | DescriptorAdded(service: nat, attr: nat, isCccd: bool)
    | ServiceDeleted(service: nat)
    | ServiceUnregistered(service: nat)
    | MtuChanged(connId: nat, mtu: nat)
    | PeerConnected(connId: nat, peer: nat)
    | PeerDisconnected(peer: nat)
    | Write(request: Request)
    | Answer
    | Confirm(ok: bool)

  datatype PumpStep =
    | InSection(fed: bool, answered: bool) | InPark | InWake
    | OutSection(reply: Reply, accepted: bool) | OutPark | OutWakeSignalled | OutWakeBtp

  datatype Step =
    | Host(h: HostStep)
    | Pump(p: PumpStep)
    | BtpChange(hasData: bool, ready: bool)
    | Restart                    // the task ends, and is started again on the reset context
    | Rerun                      // the task ends at a wait or with an error, and is run again as it is

  const START := World(
    FRESH, Running, Running, HookIdle, Env(false, false, None, EngineState(None, false, false)),
    Transcript(0, 0, 0, 0, [], [], [], [], 0), [])

  function Link(w: World): Option<nat> {
    if w.ctx.connection.Some? then Some(w.log.links) else None
  }

  function Synced(w: World): EngineState {
    if SyncBtp(w.ctx).1 then EngineState(Link(w), false, w.env.btp.ready) else w.env.btp
  }

  predicate HostEnabled(w: World, h: HostStep) {
    match h
    case Answer => w.hook.Answering?
    case Write(request) => w.hook.HookIdle? && (FromLink(w.ctx, request) ==> w.env.request.None?)
    case Confirm(_) => w.hook.HookIdle? && w.env.pending
    case _ => w.hook.HookIdle?
  }

  predicate PumpEnabled(w: World, p: PumpStep) {
    match p
    case InSection(_, _) => w.inPc.Running?
    case InPark => w.inPc.Idle?
    case InWake => w.inPc.Parked? && w.ctx.notifyIncoming
    case OutSection(reply, _) =>
      && w.outPc.Running? && reply.Fits()
      && (MaySend(w.ctx) ==> (reply.Nothing? ==> !Synced(w).hasData) && (reply.Produced? ==> Synced(w).hasData))
    case OutPark => w.outPc.Idle?
    case OutWakeSignalled => w.outPc.Parked? && w.ctx.notifyOutgoing
    case OutWakeBtp => w.outPc.Parked? && w.env.btp.ready
  }

  predicate Enabled(w: World, s: Step) {
    match s
    case Host(h) => HostEnabled(w, h)
    case Pump(p) => PumpEnabled(w, p)
    case BtpChange(hasData, ready) => w.env.btp.MayBecome(hasData, ready)
    case Restart => w.hook.HookIdle?
    case Rerun => true
  }

  /** A write of the live peer becomes its outstanding request. */
  function AfterWrite(w: World, r: Request): World {
    if !FromLink(w.ctx, r) then w
    else
      var stored := if IsC1Write(w.ctx, r) then Slot(Written(w.ctx, r).inData) else [];
      w.(ctx := Written(w.ctx, r),
         hook := if Toggles(w.ctx, r) then Answering(r.trans) else HookIdle,
         env := w.env.(request := Some(r.trans)),
         log := w.log.(origin := if IsC1Write(w.ctx, r) then w.log.links else w.log.origin,
                       packets := if stored == [] then w.log.packets else w.log.packets + [Packet(r.trans, r.value)]))
  }

  function HostNext(w: World, h: HostStep): World {
    match h
    case ServiceRegistered(gattIf) => w.(ctx := w.ctx.(gatt := w.ctx.gatt.(gattIf := Some(gattIf))))
    case ServiceCreated(service) => w.(ctx := w.ctx.(gatt := w.ctx.gatt.(service := Some(service))))
    case CharacteristicAdded(service, attr, which) => w.(ctx := Characterised(w.ctx, service, attr, which))
    case DescriptorAdded(service, attr, isCccd) => w.(ctx := Described(w.ctx, service, attr, isCccd))
    case ServiceDeleted(service) => w.(ctx := Deleted(w.ctx, service))
    case ServiceUnregistered(service) => w.(ctx := Unregistered(w.ctx, service))
    case MtuChanged(connId, mtu) => w.(ctx := MtuSet(w.ctx, connId, mtu))
    case PeerConnected(connId, peer) =>
      if w.ctx.connection.Some? then w
      else
        w.(ctx := Connected(w.ctx, connId, peer),
           env := w.env.(pending := false, confirmLost := false, request := None),
           log := w.log.(links := w.log.links + 1, gens := w.log.gens + 1, packets := [], fed := [],
                         answered := [], emitted := [], completed := 0))
    case PeerDisconnected(peer) =>
      if IsPeer(w.ctx, peer) then
        w.(ctx := Disconnected(w.ctx, peer), env := w.env.(pending := false, request := None),
           log := w.log.(gens := w.log.gens + 1))
      else w
    case Write(request) => AfterWrite(w, request)
    case Answer => w.(hook := HookIdle, env := w.env.(request := None))
    case Confirm(ok) =>
      if ok then
        w.(ctx := Confirmed(w.ctx), env := w.env.(pending := false),
           log := w.log.(completed := w.log.completed + 1))
      else w.(env := w.env.(pending := false, confirmLost := true))
  }

  function BtpAfter(w: World, reset: bool): EngineState {
    if reset then Synced(w) else w.env.btp
  }

  function UseOf(w: World, reset: bool, call: Call): seq<Use> {
    match call
    case NoCall => []
    case Feed(_, _, _) => [Use(Link(w), BtpAfter(w, reset).session, Some(w.log.origin))]
    case Poll(_) => [Use(Link(w), BtpAfter(w, reset).session, None)]
  }

  function AfterPc(outcome: Outcome): Pc {
    match outcome case Processed => Running case NotProcessed => Idle case Failed => Stopped
  }

  function AfterInPass(w: World, p: InPass): World {
    var done := p.outcome.Processed?;
    w.(ctx := p.ctx,
       inPc := AfterPc(p.outcome), outPc := if p.outcome.Failed? then Stopped else w.outPc,
       env := w.env.(btp := BtpAfter(w, p.reset), request := if done then None else w.env.request),
       log := w.log.(syncedGen := if p.reset then w.log.gens else w.log.syncedGen,
                     fed := if done then w.log.fed + [p.call.Carried()] else w.log.fed,
                     answered := if done then w.log.answered + [p.response.GetOr(Response(0, 0, 0)).trans]
                                 else w.log.answered),
       uses := w.uses + UseOf(w, p.reset, p.call))
  }

  function AfterOutPass(w: World, p: OutPass): World {
    var done := p.outcome.Processed? && p.sent.Some?;
    w.(ctx := p.ctx,
       inPc := if p.outcome.Failed? then Stopped else w.inPc, outPc := AfterPc(p.outcome),
       env := w.env.(btp := BtpAfter(w, p.reset), pending := w.env.pending || done),
       log := w.log.(syncedGen := if p.reset then w.log.gens else w.log.syncedGen,
                     emitted := if done then w.log.emitted + [p.sent.value.data] else w.log.emitted),
       uses := w.uses + UseOf(w, p.reset, p.call))
  }

  function PumpNext(w: World, p: PumpStep): World
    requires PumpEnabled(w, p)
  {
    match p
    case InSection(fed, answered) => AfterInPass(w, IncomingPass(w.ctx, fed, answered))
    case InPark => w.(inPc := Parked)
    case InWake => w.(ctx := w.ctx.(notifyIncoming := false), inPc := Running)
    case OutSection(reply, accepted) => AfterOutPass(w, OutgoingPass(w.ctx, reply, accepted))
    case OutPark => w.(outPc := Parked)
    case OutWakeSignalled => w.(ctx := w.ctx.(notifyOutgoing := false), outPc := Running)
    case OutWakeBtp => w.(env := w.env.(btp := w.env.btp.(ready := false)), outPc := Running)
  }

  function Next(w: World, s: Step): World
    requires Enabled(w, s)
  {
    match s
    case Host(h) => HostNext(w, h)
    case Pump(p) => PumpNext(w, p)
    case BtpChange(hasData, ready) =>
      w.(env := w.env.(btp := w.env.btp.(hasData := hasData, ready := ready)))
    case Restart =>
      w.(ctx := Reset(w.ctx), inPc := Running, outPc := Running,
         env := w.env.(pending := false, request := None))
    case Rerun => w.(inPc := Running, outPc := Running)
  }

  // ----- Invariants ----------------------------------------------------------------------------

  /** An engine whose generation is the current one was reset for the live connection. */
  ghost predicate Generations(w: World) {
    && w.ctx.Valid()
    && w.ctx.connGen == Wrapped(w.log.gens)
    && (w.ctx.btpGen.Some? ==>
          && w.log.syncedGen <= w.log.gens && w.ctx.btpGen.value == Wrapped(w.log.syncedGen)
          && (w.log.syncedGen == w.log.gens && w.ctx.connection.Some? ==> w.env.btp.session == Link(w)))
  }

  ghost predicate InWidth(w: World) {
    w.ctx.btpGen.Some? ==> w.log.gens - w.log.syncedGen < USIZE_VALUES
  }

  /** The flag is set while an indication awaits its confirmation, and for good if that failed. */
  ghost predicate Nack(w: World) {
    && (w.env.pending ==> w.ctx.connection.Some?)
    && (w.ctx.connection.Some? ==> w.ctx.outNack == (w.env.pending || w.env.confirmLost))
    && (w.env.pending ==> !w.env.confirmLost)
    && (w.ctx.connection.Some? ==> |w.log.emitted| == w.log.completed + (if w.ctx.outNack then 1 else 0))
  }

  /** The `C1` requests answered so far are the ones BTP has consumed; at most one more waits. */
  ghost predicate Pairing(w: World) {
    && |w.log.answered| == |w.log.fed| <= |w.log.packets| <= |w.log.fed| + 1
    && (forall k | 0 <= k < |w.log.fed| ::
          w.log.answered[k] == w.log.packets[k].trans && w.log.fed[k] == w.log.packets[k].data)
    && (forall k | 0 <= k < |w.log.packets| :: 0 < |w.log.packets[k].data| <= MAX_MTU_SIZE)
    && (w.ctx.connection.Some? ==>
          if w.ctx.inData == [] then |w.log.packets| == |w.log.fed|
          else
            && |w.log.packets| == |w.log.fed| + 1
            && w.log.packets[|w.log.fed|] == Packet(w.ctx.inTrans, w.ctx.inData)
            && w.env.request == Some(w.ctx.inTrans) && w.log.origin == w.log.links && w.hook.HookIdle?)
    && (w.hook.Answering? ==> w.env.request == Some(w.hook.trans))
  }

  predicate CanSend(w: World) {
    MaySend(w.ctx) && w.env.btp.hasData
  }

  predicate CanReceive(w: World) {
    w.ctx.connection.Some? && w.ctx.inData != []
  }

  /** The incoming pump never sleeps on a write. */
  ghost predicate Awake(w: World) {
    (w.inPc.Idle? || w.inPc.Parked?) && CanReceive(w) ==> w.ctx.notifyIncoming
  }

  /** The outgoing pump sleeps, or is about to, on something to send, and nothing will wake it. */
  predicate Asleep(w: World) {
    (w.outPc.Idle? || w.outPc.Parked?) && CanSend(w) && !w.ctx.notifyOutgoing && !w.env.btp.ready
  }

  /** The counters and the packets. */
  ghost predicate Books(w: World) {
    Generations(w) && Pairing(w)
  }

  /** The flag and the wake-ups. */
  ghost predicate Flow(w: World) {
    Nack(w) && Awake(w)
  }

  /** What holds however long the pumps are kept from syncing. */
  ghost predicate Steady(w: World) {
    Books(w) && Flow(w)
  }

  /** ... and with it, that every use of the engine is of the live connection's session. */
  ghost predicate Inv(w: World) {
    Steady(w) && Isolated(w.uses)
  }

  lemma StartInv()
    ensures Inv(START)
  {
  }

  lemma SyncedForLink(w: World)
    requires Generations(w) && InWidth(w) && w.ctx.connection.Some?
    ensures Synced(w).session == Link(w)
    ensures SyncBtp(w.ctx).0.btpGen == Some(Wrapped(w.log.gens))
    ensures !SyncBtp(w.ctx).1 ==> w.log.syncedGen == w.log.gens
  {
  }

  lemma SetupKeepsBooks(w: World, h: HostStep)
    requires Books(w) && HostEnabled(w, h) && !h.Write? && !h.PeerConnected? && !h.PeerDisconnected?
    ensures Books(HostNext(w, h))
  {
  }

  lemma LinkKeepsBooks(w: World, h: HostStep)
    requires Books(w) && HostEnabled(w, h) && (h.PeerConnected? || h.PeerDisconnected?)
    ensures Books(HostNext(w, h))
  {
    if HostNext(w, h) != w {
      assert HostNext(w, h).log.gens == w.log.gens + 1;
    }
  }

  lemma WriteKeepsPairing(w: World, r: Request)
    requires Books(w) && HostEnabled(w, Write(r))
    ensures Books(HostNext(w, Write(r)))
  {
    if IsC1Write(w.ctx, r) && 0 < |r.value| <= MAX_MTU_SIZE {
      assert Written(w.ctx, r).inData == r.value;
    }
  }

  lemma HostKeepsFlow(w: World, h: HostStep)
    requires Flow(w) && HostEnabled(w, h)
    ensures Flow(HostNext(w, h))
  {
    match h
    case PeerConnected(_, _) =>
    case PeerDisconnected(_) =>
    case Confirm(_) =>
    case _ =>
  }

  lemma HostKeepsSteady(w: World, h: HostStep)
    requires Steady(w) && HostEnabled(w, h)
    ensures Steady(HostNext(w, h))
  {
    if h.Write? {
      WriteKeepsPairing(w, h.request);
    } else if h.PeerConnected? || h.PeerDisconnected? {
      LinkKeepsBooks(w, h);
    } else {
      SetupKeepsBooks(w, h);
    }
    HostKeepsFlow(w, h);
  }

  /** What an incoming section may change, and what it answers when it has taken a write out. */
  ghost predicate InShape(c: Context, p: InPass) {
    && p.ctx == c.(btpGen := p.ctx.btpGen, inData := p.ctx.inData)
    && (if p.outcome.Processed? then
          && c.connection.Some? && c.inData != [] && p.ctx.inData == []
          && p.response.Some? && p.response.value.trans == c.inTrans && p.call.Feed?
        else p.ctx.inData == c.inData)
    && (if c.connection.Some? then p.reset == SyncBtp(c).1 && p.ctx.btpGen == Some(c.connGen)
        else !p.reset && p.ctx.btpGen == c.btpGen)
    && (p.outcome.NotProcessed? ==> c.connection.None? || c.inData == [])
    && (!p.call.NoCall? ==>
          && c.connection.Some? && c.inData != []
          && p.call == Feed(c.connection.value.mtu, c.connection.value.peer, c.inData))
  }

  lemma IncomingPassShape(c: Context, fed: bool, answered: bool)
    ensures InShape(c, IncomingPass(c, fed, answered))
  {
  }

  lemma InPassKeepsBooks(w: World, p: InPass)
    requires Books(w) && InShape(w.ctx, p)
    ensures Books(AfterInPass(w, p))
  {
  }

  lemma InPassKeepsFlow(w: World, p: InPass)
    requires Flow(w) && InShape(w.ctx, p)
    ensures Flow(AfterInPass(w, p))
  {
  }

  /** What an outgoing section may change, and when it sends or gives up. */
  ghost predicate OutShape(c: Context, p: OutPass, reply: Reply) {
    && p.ctx == c.(btpGen := p.ctx.btpGen, outData := p.ctx.outData, outNack := p.ctx.outNack)
    && (c.Valid() ==> |p.ctx.outData| <= MAX_MTU_SIZE)
    && (p.outcome.Processed? ==>
          && MaySend(c) && p.ctx.outNack && !p.call.NoCall?
          && p.sent.Some? && reply.Produced? && p.sent.value.data == reply.frame)
    && (!p.outcome.Processed? ==> p.ctx.outNack == c.outNack)
    && (p.outcome.NotProcessed? ==> !MaySend(c) || reply.Nothing?)
    && (p.reset ==> c.connection.Some?)
    && (MaySend(c) ==> p.reset == SyncBtp(c).1)
    && (if p.reset || !p.call.NoCall? then p.reset == SyncBtp(c).1 && p.ctx.btpGen == Some(c.connGen)
        else p.ctx.btpGen == c.btpGen)
    && (!p.call.NoCall? ==> c.connection.Some?)
    && !p.call.Feed?
  }

  lemma OutgoingPassShape(c: Context, reply: Reply, accepted: bool)
    requires reply.Fits()
    ensures OutShape(c, OutgoingPass(c, reply, accepted), reply)
  {
  }

  lemma OutPassKeepsBooks(w: World, p: OutPass, reply: Reply)
    requires Books(w) && OutShape(w.ctx, p, reply)
    ensures Books(AfterOutPass(w, p))
  {
  }

  lemma OutPassKeepsFlow(w: World, p: OutPass, reply: Reply)
    requires Flow(w) && OutShape(w.ctx, p, reply)
    ensures Flow(AfterOutPass(w, p))
  {
  }

  lemma InSectionKeepsSteady(w: World, fed: bool, answered: bool)
    requires Steady(w)
    ensures Steady(AfterInPass(w, IncomingPass(w.ctx, fed, answered)))
  {
    var pass := IncomingPass(w.ctx, fed, answered);
    IncomingPassShape(w.ctx, fed, answered);
    InPassKeepsBooks(w, pass);
    InPassKeepsFlow(w, pass);
  }

  lemma OutSectionKeepsSteady(w: World, reply: Reply, accepted: bool)
    requires Steady(w) && reply.Fits()
    ensures Steady(AfterOutPass(w, OutgoingPass(w.ctx, reply, accepted)))
  {
    var pass := OutgoingPass(w.ctx, reply, accepted);
    OutgoingPassShape(w.ctx, reply, accepted);
    OutPassKeepsBooks(w, pass, reply);
    OutPassKeepsFlow(w, pass, reply);
  }

  lemma WaitingKeepsSteady(w: World, p: PumpStep)
    requires Steady(w) && PumpEnabled(w, p) && !p.InSection? && !p.OutSection?
    ensures Steady(PumpNext(w, p))
  {
  }

  lemma PumpKeepsSteady(w: World, p: PumpStep)
    requires Steady(w) && PumpEnabled(w, p)
    ensures Steady(PumpNext(w, p))
  {
    match p
    case InSection(fed, answered) => InSectionKeepsSteady(w, fed, answered);
    case OutSection(reply, accepted) => OutSectionKeepsSteady(w, reply, accepted);
    case _ => WaitingKeepsSteady(w, p);
  }

  lemma TaskKeepsSteady(w: World, s: Step)
    requires Steady(w) && Enabled(w, s) && (s.BtpChange? || s.Restart? || s.Rerun?)
    ensures Steady(Next(w, s))
  {
  }

  /** Every event and every step of a pump keeps what needs no bound on the counter. */
  lemma SteadyPreserved(w: World, s: Step)
    requires Steady(w) && Enabled(w, s)
    ensures Steady(Next(w, s))
  {
    match s
    case Host(h) => HostKeepsSteady(w, h);
    case Pump(p) => PumpKeepsSteady(w, p);
    case _ => TaskKeepsSteady(w, s);
  }

  lemma FeedIsIsolated(w: World, p: InPass)
    requires Inv(w) && InWidth(w) && InShape(w.ctx, p)
    ensures Isolated(AfterInPass(w, p).uses)
  {
    if w.ctx.connection.Some? {
      SyncedForLink(w);
    }
  }

  lemma PollIsIsolated(w: World, p: OutPass, reply: Reply)
    requires Inv(w) && InWidth(w) && OutShape(w.ctx, p, reply)
    ensures Isolated(AfterOutPass(w, p).uses)
  {
    if w.ctx.connection.Some? {
      SyncedForLink(w);
    }
  }

  /** Within the width of the counter, the sessions stay apart as well. */
  lemma InvPreserved(w: World, s: Step)
    requires Inv(w) && InWidth(w) && Enabled(w, s)
    ensures Inv(Next(w, s))
  {
    SteadyPreserved(w, s);
    match s
    case Host(_) =>
    case Pump(InSection(fed, answered)) =>
      IncomingPassShape(w.ctx, fed, answered);
      FeedIsIsolated(w, IncomingPass(w.ctx, fed, answered));
    case Pump(OutSection(reply, accepted)) =>
      OutgoingPassShape(w.ctx, reply, accepted);
      PollIsIsolated(w, OutgoingPass(w.ctx, reply, accepted), reply);
    case _ =>
  }
}
