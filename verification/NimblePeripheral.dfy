/**
 * The NimBLE peripheral as a labelled step system. The two pumps run in one task, the hooks on the
 * host thread. A locked section is one step, except that the outgoing section is cut where the
 * lock-free completion hook may get in between: before the `out_nack` store, before `indicate`,
 * while `indicate` runs, and before it returns. A hook is its locked change, then its `out_nack`
 * store, then its signals, one step each. Parking a pump is a step of its own. A task may end and be
 * run again, with or without a reset of the context in between.
 *
 * Assumptions on the environment, all in `Enabled`:
 * - the hooks of the host run one after the other;
 * - an indication completes at most once, and not after the Disconnect of its connection began;
 *   no indication of an earlier connection is outstanding when a Connect hook starts;
 * - attribute handles are not zero;
 * - the engine raises its ready bit whenever it comes to have data, and a reset engine has none.
 */
module NimblePeripheral {
  import opened Base
  import opened BtpEngine
  import opened NimbleState

  datatype InPc = InRunning | InIdle | InParked | InStopped

  /** A frame on its way through the outgoing section, with the session of the engine it is from. */
  datatype Frame = Frame(handle: nat, attr: nat, data: Bytes, engine: Option<nat>)

  datatype OutPc =
    | AtTop | AtAdvertise | AtSection
    | Polled(frame: Frame)       // the engine produced a frame; `out_nack` not yet set
    | Marked(frame: Frame)       // `out_nack` set; `indicate` not yet called
    | Sending | SendingSignal    // `indicate` accepted the frame and has not returned
    | Refused | RefusedSignal    // `indicate` is about to return an error
    | OutIdle | OutParked | OutStopped

  datatype HookPc = HookIdle | ConnectNack | SignalIn | DisconnectNack | SignalBoth | SignalOut

  /** What the rest of the system does to the peripheral. */
  datatype Env = Env(
    synced: bool,                // the host is in sync with the controller
    advertising: bool,
    advLost: bool,               // the latest attempt to advertise failed
    pending: bool,               // an indication was accepted and has not completed
    btp: EngineState
  )

  /** The history of the latest connection. */
  datatype Transcript = Transcript(
    links: nat,                  // connections so far
    origin: nat,                 // the connection during which `in_data` was written
    readOk: bool,                // `in_data` was filled by a successful read
    clean: bool,                 // every read of the latest connection succeeded
    written: seq<Bytes>,         // non-empty writes of the latest connection answered with success, as read
    accepted: seq<Bytes>,        // what was stored in `in_data`
    fed: seq<Bytes>,             // what BTP was given and has taken
    emitted: seq<Bytes>,         // indications the host stack accepted
    completed: nat               // ... and how many of them completed
  )

  datatype World = World(
    ctx: Context, inPc: InPc, outPc: OutPc, hook: HookPc, env: Env, log: Transcript,
    uses: seq<Use>               // every call of either pump into the engine, over all connections
  )

  datatype HostStep =
    | HostSync | HostReset
    | ConnectFailed | Connect(handle: nat, peer: nat, mtu: Option<nat>) | Disconnect
    | MtuChanged(handle: nat, value: nat) | Register(attr: nat)
    | Write(read: Option<Bytes>)
    | SubscriptionChanged(handle: nat, attr: nat, indicate: bool)
    | NotifyComplete(indication: bool, status: int)
    | HookContinue

  datatype InStep = InPass(ok: bool) | InPark | InWake

  datatype OutStep =
    | OutTake | OutAdvertise(ok: bool) | OutPass(reply: Reply)
    | OutMark | OutIndicate(ok: bool) | OutReentrant(status: int) | OutReentrantSignal | OutReturn
    | OutPark | OutWakeSignalled | OutWakeBtp

  datatype Step =
    | Host(h: HostStep)
    | Incoming(i: InStep)
    | Outgoing(o: OutStep)
    | BtpChange(hasData: bool, ready: bool)
    | Restart                    // the task ends, and is started again on the reset context
    | Rerun                      // the task ends at a wait or with an error, and is run again as it is

  const START := World(
    FRESH, InRunning, AtTop, HookIdle, Env(false, false, false, false, EngineState(None, false, false)),
    Transcript(0, 0, true, true, [], [], [], [], 0), [])

  /** The outgoing pump is inside its locked section. */
  predicate Locked(w: World) {
    w.outPc.Polled? || w.outPc.Marked? || w.outPc.Sending? || w.outPc.SendingSignal? ||
    w.outPc.Refused? || w.outPc.RefusedSignal?
  }

  function Link(w: World): Option<nat> {
    if w.ctx.connection.Some? then Some(w.log.links) else None
  }

  predicate HostEnabled(w: World, h: HostStep) {
    match h
    case HookContinue => !w.hook.HookIdle?
    case HostReset => w.hook.HookIdle?
    case Register(attr) => w.hook.HookIdle? && attr != 0
    case NotifyComplete(indication, status) =>
      w.hook.HookIdle? && (Terminal(indication, status) ==> w.env.pending)
    case Connect(_, _, _) => w.hook.HookIdle? && !Locked(w) && !w.env.pending
    case Write(read) => w.hook.HookIdle? && !Locked(w) && (read.Some? ==> |read.value| <= MAX_MTU_SIZE)
    case SubscriptionChanged(_, attr, _) => w.hook.HookIdle? && !Locked(w) && attr != 0
    case _ => w.hook.HookIdle? && !Locked(w)
  }

  predicate InEnabled(w: World, i: InStep) {
    match i
    case InPass(_) => w.inPc.InRunning? && !Locked(w)
    case InPark => w.inPc.InIdle?
    case InWake => w.inPc.InParked? && w.ctx.notifyIncoming
  }

  /** The engine as `sync_btp` leaves it. */
  function Synced(w: World): EngineState {
    if SyncBtp(w.ctx).1 then EngineState(Link(w), false, w.env.btp.ready) else w.env.btp
  }

  predicate OutEnabled(w: World, o: OutStep) {
    match o
    case OutTake => w.outPc.AtTop?
    case OutAdvertise(_) => w.outPc.AtAdvertise?
    case OutPass(reply) =>
      && w.outPc.AtSection? && reply.Fits()
      && (MaySend(w.ctx) ==> (reply.Nothing? ==> !Synced(w).hasData) && (reply.Produced? ==> Synced(w).hasData))
    case OutMark => w.outPc.Polled?
    case OutIndicate(_) => w.outPc.Marked?
    case OutReentrant(status) =>
      Terminal(true, status) && ((w.outPc.Sending? && w.env.pending) || w.outPc.Refused?)
    case OutReentrantSignal => w.outPc.SendingSignal? || w.outPc.RefusedSignal?
    case OutReturn => w.outPc.Sending? || w.outPc.Refused?
    case OutPark => w.outPc.OutIdle?
    case OutWakeSignalled => w.outPc.OutParked? && w.ctx.notifyOutgoing
    case OutWakeBtp => w.outPc.OutParked? && w.env.btp.ready
  }

  predicate Enabled(w: World, s: Step) {
    match s
    case Host(h) => HostEnabled(w, h)
    case Incoming(i) => InEnabled(w, i)
    case Outgoing(o) => OutEnabled(w, o)
    case BtpChange(hasData, ready) => w.env.btp.MayBecome(hasData, ready)
    case Restart => w.hook.HookIdle? && !Locked(w)
    case Rerun => !Locked(w) && !w.outPc.AtAdvertise?
  }

  /** The engine after a pass, reset first if the pass found it stale. */
  function BtpAfter(w: World, p: Pass): EngineState {
    if p.reset then Synced(w) else w.env.btp
  }

  function UseOf(w: World, p: Pass): seq<Use> {
    match p.call
    case NoCall => []
    case Feed(_, _, _) => [Use(Link(w), BtpAfter(w, p).session, Some(w.log.origin))]
    case Poll(_) => [Use(Link(w), BtpAfter(w, p).session, None)]
  }

  function AfterWrite(w: World, read: Option<Bytes>): World {
    if w.ctx.inData != [] then w
    else
      var ctx := WriteLocked(w.ctx, read);
      var stored := if w.ctx.connection.Some? then Slot(ctx.inData) else [];
      w.(ctx := ctx,
         hook := if WriteTaken(w.ctx, read) then SignalIn else HookIdle,
         log := w.log.(origin := w.log.links, readOk := read.Some?, clean := w.log.clean && read.Some?,
                       written := w.log.written + (if w.ctx.connection.Some? then Slot(read.GetOr([])) else []),
                       accepted := w.log.accepted + stored))
  }

  /** A terminal completion clears the flag, on whichever thread it arrives. */
  function Completed(w: World, outPc: OutPc, hook: HookPc): World {
    w.(ctx := w.ctx.(outNack := false), env := w.env.(pending := false), outPc := outPc, hook := hook,
       log := w.log.(completed := w.log.completed + 1))
  }

  function AfterHook(w: World): World {
    var (ctx, hook) := match w.hook
      case HookIdle => (w.ctx, HookIdle)
      case ConnectNack => (w.ctx.(outNack := false), SignalIn)
      case DisconnectNack => (w.ctx.(outNack := false), SignalBoth)
      case SignalBoth => (w.ctx.(notifyIncoming := true), SignalOut)
      case SignalIn => (w.ctx.(notifyIncoming := true), HookIdle)
      case SignalOut => (w.ctx.(notifyOutgoing := true), HookIdle);
    w.(ctx := ctx, hook := hook)
  }

  function HostNext(w: World, h: HostStep): World {
    match h
    case HostSync =>
      w.(ctx := RequestAdvertising(w.ctx), env := w.env.(synced := true, advLost := false), hook := SignalOut)
    case HostReset => w.(env := w.env.(synced := false, advertising := false))
    case ConnectFailed =>
      w.(ctx := RequestAdvertising(w.ctx), env := w.env.(advertising := false, advLost := false), hook := SignalOut)
    case Connect(handle, peer, mtu) =>
      w.(ctx := ConnectLocked(w.ctx, handle, peer, mtu), env := w.env.(advertising := false), hook := ConnectNack,
         log := w.log.(links := w.log.links + 1, clean := true, written := [], accepted := [], fed := [],
                       emitted := [], completed := 0))
    case Disconnect =>
      w.(ctx := DisconnectLocked(w.ctx), env := w.env.(pending := false, advLost := false), hook := DisconnectNack)
    case MtuChanged(handle, value) => w.(ctx := MtuLocked(w.ctx, handle, value))
    case Register(attr) => w.(ctx := w.ctx.(c2Handle := attr))
    case Write(read) => AfterWrite(w, read)
    case SubscriptionChanged(handle, attr, indicate) =>
      if attr == w.ctx.c2Handle then w.(ctx := SubscribeLocked(w.ctx, handle, indicate), hook := SignalOut)
      else w
    case NotifyComplete(indication, status) =>
      if Terminal(indication, status) then Completed(w, w.outPc, SignalOut) else w
    case HookContinue => AfterHook(w)
  }

  function AfterInPass(w: World, p: Pass): World {
    w.(ctx := p.ctx,
       inPc := match p.outcome case Processed => InRunning case Failed => InStopped case _ => InIdle,
       outPc := if p.outcome.Failed? then OutStopped else w.outPc,
       env := w.env.(btp := BtpAfter(w, p)),
       log := if p.outcome.Processed? then w.log.(fed := w.log.fed + [p.call.Carried()]) else w.log,
       uses := w.uses + UseOf(w, p))
  }

  function InNext(w: World, i: InStep): World {
    match i
    case InPass(ok) => AfterInPass(w, IncomingPass(w.ctx, ok))
    case InPark => w.(inPc := InParked)
    case InWake => w.(ctx := w.ctx.(notifyIncoming := false), inPc := InRunning)
  }

  function AfterOutPass(w: World, p: Pass): World {
    w.(ctx := p.ctx,
       inPc := if p.outcome.Failed? then InStopped else w.inPc,
       outPc := match p.outcome
         case Send(handle, attr, data) => Polled(Frame(handle, attr, data, BtpAfter(w, p).session))
         case Failed => OutStopped
         case _ => OutIdle,
       env := w.env.(btp := BtpAfter(w, p)),
       uses := w.uses + UseOf(w, p))
  }

  function OutNext(w: World, o: OutStep): World
    requires OutEnabled(w, o)
  {
    match o
    case OutTake =>
      w.(ctx := w.ctx.(needAdvertise := false), outPc := if w.ctx.needAdvertise then AtAdvertise else AtSection)
    case OutAdvertise(ok) =>
      w.(env := w.env.(advertising := w.env.advertising || ok, advLost := !ok), outPc := AtSection)
    case OutPass(reply) => AfterOutPass(w, OutgoingPass(w.ctx, reply))
    case OutMark => w.(ctx := w.ctx.(outNack := true), outPc := Marked(w.outPc.frame))
    case OutIndicate(ok) =>
      if ok then
        w.(env := w.env.(pending := true), outPc := Sending,
           log := w.log.(emitted := w.log.emitted + [w.outPc.frame.data]))
      else w.(outPc := Refused)
    case OutReentrant(_) =>
      if w.outPc.Sending? then Completed(w, SendingSignal, w.hook)
      else w.(ctx := w.ctx.(outNack := false), outPc := RefusedSignal)
    case OutReentrantSignal =>
      w.(ctx := w.ctx.(notifyOutgoing := true), outPc := if w.outPc.SendingSignal? then Sending else Refused)
    case OutReturn =>
      if w.outPc.Sending? then w.(outPc := AtTop)
      else w.(ctx := w.ctx.(outNack := false), inPc := InStopped, outPc := OutStopped)
    case OutPark => w.(outPc := OutParked)
    case OutWakeSignalled => w.(ctx := w.ctx.(notifyOutgoing := false), outPc := AtTop)
    case OutWakeBtp => w.(env := w.env.(btp := w.env.btp.(ready := false)), outPc := AtTop)
  }

  function Next(w: World, s: Step): World
    requires Enabled(w, s)
  {
    match s
    case Host(h) => HostNext(w, h)
    case Incoming(i) => InNext(w, i)
    case Outgoing(o) => OutNext(w, o)
    case BtpChange(hasData, ready) =>
      w.(env := w.env.(btp := w.env.btp.(hasData := hasData, ready := ready)))
    case Restart =>
      w.(ctx := Reset(w.ctx), inPc := InRunning, outPc := AtTop,
         env := w.env.(synced := false, advertising := false, pending := false))
    case Rerun => w.(inPc := InRunning, outPc := AtTop)
  }

  // ----- Invariants ----------------------------------------------------------------------------

  /** The generation counters follow the true connection numbers, modulo their width. */
  ghost predicate Generations(w: World) {
    && w.ctx.Valid()
    && w.ctx.connGen == Wrapped(w.log.links)
    && (w.ctx.btpGen.Some? ==>
          && w.env.btp.session.Some? && w.env.btp.session.value <= w.log.links
          && w.ctx.btpGen.value == Wrapped(w.env.btp.session.value))
  }

  /** Fewer than `usize::MAX + 1` connects since the last sync. */
  ghost predicate InWidth(w: World) {
    w.ctx.btpGen.Some? && w.env.btp.session.Some? ==> w.log.links - w.env.btp.session.value < USIZE_VALUES
  }

  /** The frame inside the section is sent to the live, subscribed connection. */
  ghost predicate Section(w: World) {
    && (Locked(w) ==> w.ctx.Subscribed() && !w.hook.ConnectNack? && !w.hook.DisconnectNack?)
    && (w.outPc.Polled? || w.outPc.Marked? ==>
          && 0 < |w.outPc.frame.data| <= MAX_MTU_SIZE
          && w.outPc.frame.data <= w.ctx.outData
          && w.outPc.frame.handle == w.ctx.connection.value.handle
          && w.outPc.frame.attr != 0)
    && (w.ctx.Subscribed() ==> w.ctx.c2Handle != 0)
  }

  /** Stop and wait: outside the window of the send, the flag says what is in flight. */
  ghost predicate Nack(w: World) {
    && (w.env.pending ==> w.ctx.connection.Some?)
    && (w.hook.ConnectNack? ==> w.ctx.connection.Some? && !w.ctx.Subscribed() && !w.env.pending)
    && (w.hook.DisconnectNack? ==> w.ctx.connection.None?)
    && (w.outPc.Marked? ==> w.ctx.outNack)
    && (w.outPc.Polled? || w.outPc.Marked? || w.outPc.Refused? || w.outPc.RefusedSignal? ==> !w.env.pending)
    && (w.hook.ConnectNack? || w.hook.DisconnectNack? || w.outPc.Marked? || w.outPc.Refused? || w.outPc.RefusedSignal?
        || w.ctx.outNack == w.env.pending)
    && (w.ctx.connection.Some? ==> |w.log.emitted| == w.log.completed + (if w.env.pending then 1 else 0))
  }

  ghost predicate Inbox(w: World) {
    && (w.ctx.connection.Some? ==> w.log.accepted == w.log.fed + Slot(w.ctx.inData))
    && (w.ctx.connection.Some? && w.ctx.inData != [] ==> w.log.origin == w.log.links)
    && w.log.fed <= w.log.accepted
    && (w.log.clean ==> w.log.written == w.log.accepted)
    && (w.ctx.connection.Some? && !w.log.clean ==> |w.log.written| < |w.log.accepted|)
    && (forall i | 0 <= i < |w.log.accepted| :: 0 < |w.log.accepted[i]| <= MAX_MTU_SIZE)
  }

  /** Some hook still has its `notify_process_outgoing` signal to give. */
  predicate OutSignalDue(w: World) {
    w.hook.DisconnectNack? || w.hook.SignalBoth? || w.hook.SignalOut?
  }

  /** A subscribed connection has nothing in flight and the engine has data. */
  predicate CanSend(w: World) {
    w.ctx.Subscribed() && !w.ctx.outNack && w.env.btp.hasData
  }

  ghost predicate OutgoingAwake(w: World) {
    && (w.ctx.needAdvertise && !w.outPc.AtTop? && !w.outPc.OutStopped? ==> w.ctx.notifyOutgoing || OutSignalDue(w))
    && ((w.outPc.OutIdle? || w.outPc.OutParked?) && CanSend(w) ==>
          w.ctx.notifyOutgoing || w.env.btp.ready || OutSignalDue(w))
  }

  /** A stored write of a live connection the incoming pump has not seen. */
  predicate CanReceive(w: World) {
    w.ctx.connection.Some? && w.ctx.inData != []
  }

  ghost predicate IncomingAwake(w: World) {
    (w.inPc.InIdle? || w.inPc.InParked?) && CanReceive(w) && w.log.readOk ==>
      w.ctx.notifyIncoming || w.hook.SignalIn?
  }

  ghost predicate Discoverable(w: World) {
    w.env.synced && w.ctx.connection.None? ==>
      w.env.advertising || w.ctx.needAdvertise || w.outPc.AtAdvertise? || w.env.advLost
  }

  /** The counters and the packets. */
  ghost predicate Books(w: World) {
    Generations(w) && Inbox(w)
  }

  /** The send window, the flag, and the wake-ups. */
  ghost predicate Flow(w: World) {
    Section(w) && Nack(w) && OutgoingAwake(w) && IncomingAwake(w) && Discoverable(w)
  }

  /** What holds however long the pumps are kept from syncing. */
  ghost predicate Steady(w: World) {
    Books(w) && Flow(w)
  }

  /** Every use of the engine, and the frame inside the section, are of the live connection's session. */
  ghost predicate Tagged(w: World) {
    && Isolated(w.uses)
    && (w.outPc.Polled? || w.outPc.Marked? ==> w.outPc.frame.engine == Some(w.log.links))
  }

  ghost predicate Inv(w: World) {
    Steady(w) && Tagged(w)
  }

  lemma StartInv()
    ensures Inv(START)
  {
  }

  /** Within the width of the counter, a synced engine was reset for the latest connection. */
  lemma SyncedForLink(w: World)
    requires Generations(w) && InWidth(w) && w.ctx.connection.Some?
    ensures Synced(w).session == Link(w)
    ensures SyncBtp(w.ctx).0.btpGen == Some(Wrapped(w.log.links))
  {
  }

  // Preservation, thread by thread.

  lemma WriteKeepsBooks(w: World, read: Option<Bytes>)
    requires Books(w) && HostEnabled(w, Write(read))
    ensures Books(AfterWrite(w, read))
  {
  }

  lemma LinkKeepsBooks(w: World, h: HostStep)
    requires Books(w) && HostEnabled(w, h) && (h.Connect? || h.Disconnect?)
    ensures Books(HostNext(w, h))
  {
    match h
    case Connect(_, _, _) => assert HostNext(w, h).log.links == w.log.links + 1;
    case _ =>
  }

  lemma HostKeepsBooks(w: World, h: HostStep)
    requires Books(w) && HostEnabled(w, h)
    ensures Books(HostNext(w, h))
  {
    match h
    case Connect(_, _, _) => LinkKeepsBooks(w, h);
    case Disconnect => LinkKeepsBooks(w, h);
    case Write(read) => WriteKeepsBooks(w, read);
    case SubscriptionChanged(_, _, _) =>
    case NotifyComplete(_, _) =>
    case HookContinue =>
    case _ =>
  }

  lemma LinkKeepsFlow(w: World, h: HostStep)
    requires Flow(w) && HostEnabled(w, h) && (h.Connect? || h.Disconnect?)
    ensures Flow(HostNext(w, h))
  {
    match h
    case Connect(_, _, _) =>
    case _ =>
  }

  lemma WriteKeepsFlow(w: World, read: Option<Bytes>)
    requires Flow(w) && HostEnabled(w, Write(read))
    ensures Flow(AfterWrite(w, read))
  {
  }

  lemma TailKeepsFlow(w: World)
    requires Flow(w) && HostEnabled(w, HookContinue)
    ensures Flow(AfterHook(w))
  {
    match w.hook
    case ConnectNack =>
    case DisconnectNack =>
    case _ =>
  }

  lemma HostKeepsFlow(w: World, h: HostStep)
    requires Flow(w) && HostEnabled(w, h)
    ensures Flow(HostNext(w, h))
  {
    match h
    case Connect(_, _, _) => LinkKeepsFlow(w, h);
    case Disconnect => LinkKeepsFlow(w, h);
    case Write(read) => WriteKeepsFlow(w, read);
    case HookContinue => TailKeepsFlow(w);
    case SubscriptionChanged(_, _, _) =>
    case NotifyComplete(_, _) =>
    case _ =>
  }

  lemma InPassKeepsBooks(w: World, ok: bool)
    requires Books(w) && InEnabled(w, InPass(ok))
    ensures Books(InNext(w, InPass(ok)))
  {
    match IncomingPass(w.ctx, ok).outcome
    case Processed =>
    case Failed =>
    case _ =>
  }

  lemma InPassKeepsFlow(w: World, ok: bool)
    requires Flow(w) && InEnabled(w, InPass(ok))
    ensures Flow(InNext(w, InPass(ok)))
  {
    match IncomingPass(w.ctx, ok).outcome
    case Processed =>
    case Failed =>
    case _ =>
  }

  lemma InKeepsFlow(w: World, i: InStep)
    requires Flow(w) && InEnabled(w, i)
    ensures Flow(InNext(w, i))
  {
    if i.InPass? {
      InPassKeepsFlow(w, i.ok);
    }
  }

  /** What the outgoing section may change before it sends, and when it resets and polls. */
  ghost predicate OutShape(c: Context, p: Pass) {
    && p.ctx == c.(btpGen := p.ctx.btpGen, outData := p.ctx.outData)
    && (c.Valid() ==> |p.ctx.outData| <= MAX_MTU_SIZE)
    && (c.connection.None? ==> !p.reset && p.call.NoCall?)
    && (if p.reset || !p.call.NoCall? then p.reset == SyncBtp(c).1 && p.ctx.btpGen == Some(c.connGen)
        else p.ctx.btpGen == c.btpGen)
    && !p.call.Feed?
  }

  lemma OutgoingPassShape(c: Context, reply: Reply)
    requires reply.Fits()
    ensures OutShape(c, OutgoingPass(c, reply))
  {
  }

  lemma OutPassKeepsBooks(w: World, p: Pass)
    requires Books(w) && OutShape(w.ctx, p)
    ensures Books(AfterOutPass(w, p))
  {
  }

  lemma OutPassKeepsFlow(w: World, reply: Reply)
    requires Flow(w) && OutEnabled(w, OutPass(reply))
    ensures Flow(OutNext(w, OutPass(reply)))
  {
    match OutgoingPass(w.ctx, reply).outcome
    case Send(_, _, _) =>
    case Failed =>
    case _ =>
  }

  lemma SendKeepsBooks(w: World, o: OutStep)
    requires Books(w) && OutEnabled(w, o) && !o.OutPass?
    ensures Books(OutNext(w, o))
  {
  }

  lemma SendKeepsFlow(w: World, o: OutStep)
    requires Flow(w) && OutEnabled(w, o) && !o.OutPass?
    ensures Flow(OutNext(w, o))
  {
  }

  lemma InKeepsSteady(w: World, i: InStep)
    requires Steady(w) && InEnabled(w, i)
    ensures Steady(InNext(w, i))
  {
    if i.InPass? {
      InPassKeepsBooks(w, i.ok);
    }
    InKeepsFlow(w, i);
  }

  lemma OutKeepsSteady(w: World, o: OutStep)
    requires Steady(w) && OutEnabled(w, o)
    ensures Steady(OutNext(w, o))
  {
    if o.OutPass? {
      OutgoingPassShape(w.ctx, o.reply);
      OutPassKeepsBooks(w, OutgoingPass(w.ctx, o.reply));
      OutPassKeepsFlow(w, o.reply);
    } else {
      SendKeepsBooks(w, o);
      SendKeepsFlow(w, o);
    }
  }

  lemma TaskKeepsSteady(w: World, s: Step)
    requires Steady(w) && Enabled(w, s) && (s.BtpChange? || s.Restart? || s.Rerun?)
    ensures Steady(Next(w, s))
  {
  }

  /** Every step of every thread keeps what needs no bound on the counter. */
  lemma SteadyPreserved(w: World, s: Step)
    requires Steady(w) && Enabled(w, s)
    ensures Steady(Next(w, s))
  {
    match s
    case Host(h) =>
      HostKeepsBooks(w, h);
      HostKeepsFlow(w, h);
    case Incoming(i) => InKeepsSteady(w, i);
    case Outgoing(o) => OutKeepsSteady(w, o);
    case _ => TaskKeepsSteady(w, s);
  }

  // The sessions of the engine.

  lemma InPassKeepsTags(w: World, ok: bool)
    requires Steady(w) && Tagged(w) && InWidth(w) && InEnabled(w, InPass(ok))
    ensures Tagged(InNext(w, InPass(ok)))
  {
    if w.ctx.connection.Some? {
      SyncedForLink(w);
    }
  }

  lemma OutPassKeepsTags(w: World, reply: Reply)
    requires Steady(w) && Tagged(w) && InWidth(w) && OutEnabled(w, OutPass(reply))
    ensures Tagged(OutNext(w, OutPass(reply)))
  {
    OutgoingPassShape(w.ctx, reply);
    if w.ctx.connection.Some? {
      SyncedForLink(w);
    }
  }

  lemma HostKeepsTags(w: World, h: HostStep)
    requires Tagged(w) && HostEnabled(w, h)
    ensures Tagged(HostNext(w, h))
  {
    match h
    case Connect(_, _, _) =>
    case Write(_) =>
    case _ =>
  }

  lemma TagsPreserved(w: World, s: Step)
    requires Inv(w) && InWidth(w) && Enabled(w, s)
    ensures Tagged(Next(w, s))
  {
    match s
    case Host(h) => HostKeepsTags(w, h);
    case Incoming(InPass(ok)) => InPassKeepsTags(w, ok);
    case Outgoing(OutPass(reply)) => OutPassKeepsTags(w, reply);
    case _ =>
  }

  /** Within the width of the counter, the sessions stay apart as well. */
  lemma InvPreserved(w: World, s: Step)
    requires Inv(w) && InWidth(w) && Enabled(w, s)
    ensures Inv(Next(w, s))
  {
    SteadyPreserved(w, s);
    TagsPreserved(w, s);
  }
}
