/**
 * The central as a labelled step system: its run through the ordered discovery, then its two
 * pumps, against hooks that make their change and give their signals one step at a time.
 *
 * Assumptions on the environment, all in `Enabled`: hooks come one after the other; each request
 * made of the host stack is answered by its own events, and a write completes at most once; the
 * engine raises its ready bit whenever it comes to have data. Each client object is run once.
 */
module Central {
  import opened Base
  import opened BtpEngine
  import opened CentralState

  /** What `run` waits for, with what it has learned so far. */
  datatype Stage =
    | SyncStage
    | ConnectStage
    | ServiceStage(conn: nat)
    | ChrStage(conn: nat)
    | SubscribeStage(conn: nat, c1: nat, c2: nat)

  datatype Pc =
    | Waiting(stage: Stage)      // about to test the condition of the stage
    | Blocked(stage: Stage)      // it did not hold: waiting for a progress signal
    | Pumping(conn: nat, c1: nat)
    | Ended

  datatype PumpPc = Running | Idle | Parked

  datatype HookPc = HookIdle | SignalProgress | SignalIn | SignalOut | SignalAll | SignalInOut

  datatype Env = Env(
    connecting: bool,            // the connect request has not been answered yet
    findingServices: bool, findingChrs: bool,
    cccdBusy: bool, c1Busy: bool,  // a write of the CCCD, of `C1`, has not completed
    hasData: bool, ready: bool   // of the engine
  )

  datatype Transcript = Transcript(
    cccdOk: bool,                // a write of the CCCD has completed with success
    received: seq<Bytes>,        // non-empty `C2` indications that could be read, in order
    taken: seq<nat>,             // the indices of those kept for BTP
    fed: seq<Bytes>,             // what BTP has consumed
    written: seq<Bytes>,         // `C1` writes the host stack accepted
    completed: nat               // ... and how many of them have completed
  )

  datatype World = World(
    ctx: Context, pc: Pc, inPc: PumpPc, outPc: PumpPc, hook: HookPc, env: Env, log: Transcript)

  const START := World(
    FRESH, Waiting(SyncStage), Running, Running, HookIdle,
    Env(false, false, false, false, false, false, false), Transcript(false, [], [], [], [], 0))

  /** The run was called with the address of the device to connect to. */
  function Start(peer: nat): World {
    START.(ctx := FRESH.(peer := peer))
  }

  datatype HostStep =
    | HostSync
    | ConnectDone(ok: bool, handle: nat)
    | Disconnect
    | MtuChanged(handle: nat, value: nat)
    | Service(found: Found)
    | Characteristic(chr: Chr)
    | CccdComplete(status: int)
    | C1Complete(status: int)
    | Notify(isC2: bool, read: Option<Bytes>)
    | HookContinue

  datatype RunStep =
    | Advance(ok: bool)          // the condition holds: make the next request, which may fail
    | Block
    | WakeRun
    | InSection(ok: bool) | InPark | InWake
    | OutSection(reply: Reply, accepted: bool) | OutPark | OutWakeSignalled | OutWakeBtp

  datatype Step = Host(h: HostStep) | Run(r: RunStep) | BtpChange(hasData: bool, ready: bool)

  predicate Holds(c: Context, s: Stage) {
    match s
    case SyncStage => c.disc.synced
    case ConnectStage => c.disc.connHandle.Some? || c.failed
    case ServiceStage(_) => c.disc.servicesDone || c.failed
    case ChrStage(_) => c.disc.charsDone || c.failed
    case SubscribeStage(_, _, _) => c.disc.subscribed || c.failed
  }

  predicate HostEnabled(w: World, h: HostStep) {
    match h
    case HookContinue => !w.hook.HookIdle?
    case ConnectDone(_, _) => w.hook.HookIdle? && w.env.connecting
    case Service(_) => w.hook.HookIdle? && w.env.findingServices
    case Characteristic(_) => w.hook.HookIdle? && w.env.findingChrs
    case CccdComplete(_) => w.hook.HookIdle? && w.env.cccdBusy && w.ctx.disc.c2Val.Some?
    case C1Complete(_) => w.hook.HookIdle? && w.env.c1Busy && w.ctx.disc.c1Val.Some?
    case Notify(_, read) => w.hook.HookIdle? && (read.Some? ==> |read.value| <= MAX_MTU_SIZE)
    case _ => w.hook.HookIdle?
  }

  predicate RunEnabled(w: World, r: RunStep) {
    match r
    case Advance(_) => w.pc.Waiting? && Holds(w.ctx, w.pc.stage)
    case Block => w.pc.Waiting? && !Holds(w.ctx, w.pc.stage)
    case WakeRun => w.pc.Blocked? && w.ctx.notifyProgress
    case InSection(_) => w.pc.Pumping? && w.inPc.Running?
    case InPark => w.pc.Pumping? && w.inPc.Idle?
    case InWake => w.pc.Pumping? && w.inPc.Parked? && w.ctx.notifyIn
    case OutSection(reply, _) =>
      && w.pc.Pumping? && w.outPc.Running? && reply.Fits()
      && (!w.ctx.failed && !w.ctx.outInflight ==>
            (reply.Nothing? ==> !w.env.hasData) && (reply.Produced? ==> w.env.hasData))
    case OutPark => w.pc.Pumping? && w.outPc.Idle?
    case OutWakeSignalled => w.pc.Pumping? && w.outPc.Parked? && w.ctx.notifyOut
    case OutWakeBtp => w.pc.Pumping? && w.outPc.Parked? && w.env.ready
  }

  predicate Enabled(w: World, s: Step) {
    match s
    case Host(h) => HostEnabled(w, h)
    case Run(r) => RunEnabled(w, r)
    case BtpChange(hasData, ready) => EngineState(None, w.env.hasData, w.env.ready).MayBecome(hasData, ready)
  }

  /** The handle a write completion comes with. */
  function CompletedAttr(w: World, h: HostStep): nat
    requires HostEnabled(w, h) && (h.CccdComplete? || h.C1Complete?)
  {
    if h.CccdComplete? then w.ctx.disc.c2Val.value + 1 else w.ctx.disc.c1Val.value
  }

  function Signalled(c: Context, hook: HookPc): Context {
    match hook
    case HookIdle => c
    case SignalProgress => c.(notifyProgress := true)
    case SignalAll => c.(notifyProgress := true)
    case SignalIn => c.(notifyIn := true)
    case SignalInOut => c.(notifyIn := true)
    case SignalOut => c.(notifyOut := true)
  }

  /** The locked change of a hook. */
  function HostCtx(w: World, h: HostStep): Context
    requires HostEnabled(w, h)
  {
    match h
    case HostSync => w.ctx.(disc := w.ctx.disc.(synced := true))
    case ConnectDone(ok, handle) => ConnectResult(w.ctx, ok, handle)
    case Disconnect => w.ctx.(failed := true)
    case MtuChanged(handle, value) => MtuSet(w.ctx, handle, value)
    case Service(found) => ServiceFound(w.ctx, found)
    case Characteristic(chr) => ChrFound(w.ctx, chr)
    case CccdComplete(status) => WriteCompleted(w.ctx, CompletedAttr(w, h), status)
    case C1Complete(status) => WriteCompleted(w.ctx, CompletedAttr(w, h), status)
    case Notify(isC2, read) => if isC2 then Indicated(w.ctx, read) else w.ctx
    case HookContinue => Signalled(w.ctx, w.hook)
  }

  /** The signals a hook has yet to give. */
  function HostHook(w: World, h: HostStep): HookPc
    requires HostEnabled(w, h)
  {
    match h
    case HostSync => SignalProgress
    case ConnectDone(_, _) => SignalProgress
    case Disconnect => SignalAll
    case MtuChanged(_, _) => HookIdle
    case Service(found) => if found.NoMoreServices? then SignalProgress else HookIdle
    case Characteristic(chr) => if chr.NoMoreChrs? then SignalProgress else HookIdle
    case Notify(isC2, _) => if isC2 then SignalIn else HookIdle
    case HookContinue => if w.hook.SignalAll? then SignalInOut else if w.hook.SignalInOut? then SignalOut else HookIdle
    case _ =>
      // The hook tells the two kinds of write apart by the handle alone.
      if LooksLikeCccd(w.ctx, CompletedAttr(w, h)) then SignalProgress
      else if w.ctx.disc.c1Val == Some(CompletedAttr(w, h)) then SignalOut else HookIdle
  }

  function HostEnv(e: Env, h: HostStep): Env {
    match h
    case ConnectDone(_, _) => e.(connecting := false)
    case Service(found) => e.(findingServices := !found.NoMoreServices?)
    case Characteristic(chr) => e.(findingChrs := !chr.NoMoreChrs?)
    case CccdComplete(_) => e.(cccdBusy := false)
    case C1Complete(_) => e.(c1Busy := false)
    case _ => e
  }

  function HostLog(w: World, h: HostStep): Transcript {
    match h
    case CccdComplete(status) => w.log.(cccdOk := w.log.cccdOk || status == 0)
    case C1Complete(_) => w.log.(completed := w.log.completed + 1)
    case Notify(isC2, read) =>
      var data := if isC2 then Slot(read.GetOr([])) else [];
      w.log.(received := w.log.received + data,
             taken := if w.ctx.inData == [] && data != [] then w.log.taken + [|w.log.received|] else w.log.taken)
    case _ => w.log
  }

  function HostNext(w: World, h: HostStep): World
    requires HostEnabled(w, h)
  {
    w.(ctx := HostCtx(w, h), hook := HostHook(w, h), env := HostEnv(w.env, h), log := HostLog(w, h))
  }

  /** One stage of `run` is done: what it needs for the next one must have been found. */
  function AfterStage(w: World, s: Stage, ok: bool): World {
    match s
    case SyncStage =>
      if ok then w.(pc := Waiting(ConnectStage), env := w.env.(connecting := true)) else w.(pc := Ended)
    case ConnectStage =>
      if w.ctx.disc.connHandle.Some? && ok then
        w.(pc := Waiting(ServiceStage(w.ctx.disc.connHandle.value)), env := w.env.(findingServices := true))
      else w.(pc := Ended)
    case ServiceStage(conn) =>
      if w.ctx.disc.matterRange.Some? && ok then
        w.(pc := Waiting(ChrStage(conn)), env := w.env.(findingChrs := true))
      else w.(pc := Ended)
    case ChrStage(conn) =>
      if w.ctx.disc.c1Val.Some? && w.ctx.disc.c2Val.Some? && ok then
        w.(pc := Waiting(SubscribeStage(conn, w.ctx.disc.c1Val.value, w.ctx.disc.c2Val.value)),
           env := w.env.(cccdBusy := true))
      else w.(pc := Ended)
    case SubscribeStage(conn, c1, _) =>
      if w.ctx.failed then w.(pc := Ended) else w.(pc := Pumping(conn, c1))
  }

  function AfterInPass(w: World, p: Pass): World {
    w.(ctx := p.ctx,
       pc := if p.outcome.Failed? then Ended else w.pc,
       inPc := if p.outcome.NotProcessed? then Idle else Running,
       log := if p.outcome.Processed? then w.log.(fed := w.log.fed + [p.call.Carried()]) else w.log)
  }

  function AfterOutPass(w: World, p: Pass): World {
    var done := p.outcome.Processed?;
    w.(ctx := p.ctx,
       pc := if p.outcome.Failed? then Ended else w.pc,
       outPc := if p.outcome.NotProcessed? then Idle else Running,
       env := w.env.(c1Busy := w.env.c1Busy || done),
       log := if done then w.log.(written := w.log.written + [p.write.GetOr([])]) else w.log)
  }

  function RunNext(w: World, r: RunStep): World
    requires RunEnabled(w, r)
  {
    match r
    case Advance(ok) => AfterStage(w, w.pc.stage, ok)
    case Block => w.(pc := Blocked(w.pc.stage))
    case WakeRun => w.(ctx := w.ctx.(notifyProgress := false), pc := Waiting(w.pc.stage))
    case InSection(ok) => AfterInPass(w, IncomingPass(w.ctx, ok))
    case InPark => w.(inPc := Parked)
    case InWake => w.(ctx := w.ctx.(notifyIn := false), inPc := Running)
    case OutSection(reply, accepted) => AfterOutPass(w, OutgoingPass(w.ctx, reply, accepted))
    case OutPark => w.(outPc := Parked)
    case OutWakeSignalled => w.(ctx := w.ctx.(notifyOut := false), outPc := Running)
    case OutWakeBtp => w.(env := w.env.(ready := false), outPc := Running)
  }

  function Next(w: World, s: Step): World
    requires Enabled(w, s)
  {
    match s
    case Host(h) => HostNext(w, h)
    case Run(r) => RunNext(w, r)
    case BtpChange(hasData, ready) => w.(env := w.env.(hasData := hasData, ready := ready))
  }

  // ----- Invariants ----------------------------------------------------------------------------

  predicate AtStage(pc: Pc) {
    pc.Waiting? || pc.Blocked?
  }

  /** What each stage of the run rests on. */
  ghost predicate Setup(w: World) {
    var d := w.ctx.disc;
    && (w.pc.Pumping? || (AtStage(w.pc) && !w.pc.stage.SyncStage?) ==> d.synced)
    && (w.pc.Pumping? ==> d.servicesDone && d.charsDone)
    && (AtStage(w.pc) && (w.pc.stage.ChrStage? || w.pc.stage.SubscribeStage?) ==> d.servicesDone || w.ctx.failed)
    && (AtStage(w.pc) && w.pc.stage.SubscribeStage? ==> d.charsDone || w.ctx.failed)
    && (w.env.connecting ==> d.connHandle.None? && (w.pc.Ended? || (AtStage(w.pc) && w.pc.stage.ConnectStage?)))
    && (AtStage(w.pc) ==>
          && (w.pc.stage.SyncStage? || w.pc.stage.ConnectStage? ==> !w.env.findingServices && !w.env.findingChrs)
          && (w.pc.stage.SyncStage? ==> d.connHandle.None?)
          && (!w.pc.stage.SyncStage? && !w.pc.stage.ConnectStage? ==> d.connHandle == Some(w.pc.stage.conn))
          && (w.pc.stage.ServiceStage? ==> !w.env.findingChrs)
          && (w.pc.stage.ChrStage? || w.pc.stage.SubscribeStage? || !d.charsDone)
          && (d.charsDone ==> !w.env.findingChrs)
          && (w.pc.stage.ChrStage? || w.pc.stage.SubscribeStage? ==> d.matterRange.Some?)
          && (!w.pc.stage.SubscribeStage? ==> !w.env.cccdBusy)
          && (w.pc.stage.SubscribeStage? ==>
                || w.ctx.failed
                || (!w.env.findingChrs && d.c1Val == Some(w.pc.stage.c1) && d.c2Val == Some(w.pc.stage.c2)))
          && (d.subscribed ==> w.log.cccdOk)
          && !w.env.c1Busy && !w.ctx.outInflight && w.log.written == [] && w.log.fed == []
          && w.inPc.Running? && w.outPc.Running?)
    && (w.pc.Pumping? ==>
          && d.connHandle == Some(w.pc.conn) && d.matterRange.Some?
          && d.c1Val == Some(w.pc.c1) && d.c2Val.Some? && !w.env.findingChrs && w.log.cccdOk)
  }

  /** The completion of a `C1` write is recognised as such. */
  predicate Distinct(c: Context) {
    c.disc.c1Val.Some? && c.disc.c2Val.Some? ==> c.disc.c1Val.value != c.disc.c2Val.value + 1
  }

  /** Stop and wait on `C1`. */
  ghost predicate Writes(w: World) {
    && (w.env.c1Busy ==> w.ctx.outInflight || w.pc.Ended?)
    && (w.pc.Pumping? && w.ctx.outInflight && Distinct(w.ctx) ==> w.env.c1Busy)
    && |w.log.written| == w.log.completed + (if w.env.c1Busy then 1 else 0)
  }

  /** What reaches BTP is an in-order selection of the indications received. */
  ghost predicate Indications(w: World) {
    var kept := w.log.fed + Slot(w.ctx.inData);
    && w.ctx.Valid()
    && |w.log.taken| == |kept|
    && (forall k | 0 <= k < |kept| :: w.log.taken[k] < |w.log.received| && w.log.received[w.log.taken[k]] == kept[k])
    && (forall j, k | 0 <= j < k < |kept| :: w.log.taken[j] < w.log.taken[k])
  }

  predicate ProgressDue(w: World) {
    w.hook.SignalProgress? || w.hook.SignalAll?
  }

  predicate InDue(w: World) {
    w.hook.SignalIn? || w.hook.SignalAll? || w.hook.SignalInOut?
  }

  predicate OutDue(w: World) {
    w.hook.SignalOut? || w.hook.SignalAll? || w.hook.SignalInOut?
  }

  predicate CanSend(w: World) {
    !w.ctx.outInflight && w.env.hasData
  }

  ghost predicate Awake(w: World) {
    && (w.pc.Blocked? && Holds(w.ctx, w.pc.stage) ==> w.ctx.notifyProgress || ProgressDue(w))
    && (!w.inPc.Running? && (w.ctx.failed || w.ctx.inData != []) ==> w.ctx.notifyIn || InDue(w))
    && (!w.outPc.Running? && w.ctx.failed ==> w.ctx.notifyOut || OutDue(w))
    && (!w.outPc.Running? && CanSend(w) ==> w.ctx.notifyOut || w.env.ready || OutDue(w))
  }

  ghost predicate Inv(w: World) {
    Setup(w) && Writes(w) && Indications(w) && (w.pc.Ended? || Awake(w))
  }

  lemma StartInv(peer: nat)
    ensures Inv(Start(peer))
  {
  }

  /** What a hook may change of what the run rests on. */
  ghost predicate HostShape(w: World, n: World) {
    var d, e := w.ctx.disc, n.ctx.disc;
    && n.pc == w.pc && n.inPc == w.inPc && n.outPc == w.outPc
    && n.log.written == w.log.written && n.log.fed == w.log.fed
    && (w.ctx.failed ==> n.ctx.failed) && (d.synced ==> e.synced)
    && (d.servicesDone ==> e.servicesDone) && (d.charsDone ==> e.charsDone)
    && (n.env.connecting ==> w.env.connecting)
    && (n.env.findingServices ==> w.env.findingServices)
    && (n.env.findingChrs ==> w.env.findingChrs)
    && (n.env.cccdBusy ==> w.env.cccdBusy)
    && (n.env.c1Busy ==> w.env.c1Busy)
    && (n.ctx.outInflight ==> w.ctx.outInflight)
    && (e.connHandle == d.connHandle || (w.env.connecting && !n.env.connecting))
    && (d.matterRange.Some? ==> e.matterRange.Some?)
    && (!w.env.findingChrs ==> e.c1Val == d.c1Val && e.c2Val == d.c2Val && e.charsDone == d.charsDone)
    && (e.charsDone ==> d.charsDone || !n.env.findingChrs)
    && (w.log.cccdOk ==> n.log.cccdOk)
    && (e.subscribed ==> d.subscribed || n.log.cccdOk || w.env.c1Busy)
  }

  lemma CompletionHasShape(w: World, h: HostStep)
    requires HostEnabled(w, h) && (h.CccdComplete? || h.C1Complete?)
    ensures HostShape(w, HostNext(w, h))
  {
  }

  lemma PacketHasShape(w: World, h: HostStep)
    requires HostEnabled(w, h) && (h.HookContinue? || h.Notify? || h.MtuChanged?)
    ensures HostShape(w, HostNext(w, h))
  {
  }

  lemma ServiceHasShape(w: World, found: Found)
    requires HostEnabled(w, Service(found))
    ensures HostShape(w, HostNext(w, Service(found)))
  {
    match found
    case MatterService(_, _) =>
    case OtherService =>
    case NoMoreServices =>
  }

  lemma CharacteristicHasShape(w: World, chr: Chr)
    requires HostEnabled(w, Characteristic(chr))
    ensures HostShape(w, HostNext(w, Characteristic(chr)))
  {
    match chr
    case ChrC1(_) =>
    case ChrC2(_) =>
    case OtherChr =>
    case NoMoreChrs =>
  }

  lemma ProgressHasShape(w: World, h: HostStep)
    requires HostEnabled(w, h) && (h.HostSync? || h.ConnectDone? || h.Disconnect?)
    ensures HostShape(w, HostNext(w, h))
  {
  }

  lemma HostHasShape(w: World, h: HostStep)
    requires HostEnabled(w, h)
    ensures HostShape(w, HostNext(w, h))
  {
    if h.CccdComplete? || h.C1Complete? {
      CompletionHasShape(w, h);
    } else if h.HookContinue? || h.Notify? || h.MtuChanged? {
      PacketHasShape(w, h);
    } else {
      match h
      case Service(found) => ServiceHasShape(w, found);
      case Characteristic(chr) => CharacteristicHasShape(w, chr);
      case _ => ProgressHasShape(w, h);
    }
  }

  lemma ShapeKeepsSetup(w: World, n: World)
    requires Setup(w) && HostShape(w, n)
    ensures Setup(n)
  {
  }

  lemma CompletionKeepsWrites(w: World, h: HostStep)
    requires Writes(w) && HostEnabled(w, h) && (h.CccdComplete? || h.C1Complete?)
    ensures Writes(HostNext(w, h))
  {
  }

  lemma DiscoveryKeepsWrites(w: World, h: HostStep)
    requires Writes(w) && HostEnabled(w, h) && (h.Service? || h.Characteristic?)
    requires w.pc.Pumping? ==> !w.env.findingChrs
    ensures Writes(HostNext(w, h))
  {
    match h
    case Service(_) =>
    case Characteristic(_) =>
  }

  lemma OthersKeepWrites(w: World, h: HostStep)
    requires Writes(w) && HostEnabled(w, h)
    requires !h.CccdComplete? && !h.C1Complete? && !h.Service? && !h.Characteristic?
    ensures Writes(HostNext(w, h))
  {
    match h
    case HookContinue =>
    case Notify(_, _) =>
    case ConnectDone(_, _) =>
    case _ =>
  }

  lemma HostKeepsWrites(w: World, h: HostStep)
    requires Writes(w) && HostEnabled(w, h)
    requires w.pc.Pumping? ==> !w.env.findingChrs
    ensures Writes(HostNext(w, h))
  {
    if h.CccdComplete? || h.C1Complete? {
      CompletionKeepsWrites(w, h);
    } else if h.Service? || h.Characteristic? {
      DiscoveryKeepsWrites(w, h);
    } else {
      OthersKeepWrites(w, h);
    }
  }

  lemma CompletionKeepsPackets(w: World, h: HostStep)
    requires HostEnabled(w, h) && (h.CccdComplete? || h.C1Complete?)
    ensures HostCtx(w, h).inData == w.ctx.inData && HostCtx(w, h).outData == w.ctx.outData
  {
  }

  lemma ServiceKeepsPackets(w: World, found: Found)
    requires HostEnabled(w, Service(found))
    ensures
      var n := HostCtx(w, Service(found));
      n.inData == w.ctx.inData && n.outData == w.ctx.outData
  {
  }

  lemma CharacteristicKeepsPackets(w: World, chr: Chr)
    requires HostEnabled(w, Characteristic(chr))
    ensures
      var n := HostCtx(w, Characteristic(chr));
      n.inData == w.ctx.inData && n.outData == w.ctx.outData
  {
  }

  lemma OthersKeepPackets(w: World, h: HostStep)
    requires HostEnabled(w, h) && !h.Notify?
    ensures HostCtx(w, h).inData == w.ctx.inData && HostCtx(w, h).outData == w.ctx.outData
  {
    if h.CccdComplete? || h.C1Complete? {
      CompletionKeepsPackets(w, h);
    } else {
      match h
      case Service(found) => ServiceKeepsPackets(w, found);
      case Characteristic(chr) => CharacteristicKeepsPackets(w, chr);
      case _ =>
    }
  }

  lemma NotifyKeepsIndications(w: World, isC2: bool, read: Option<Bytes>)
    requires Indications(w) && HostEnabled(w, Notify(isC2, read))
    ensures Indications(HostNext(w, Notify(isC2, read)))
  {
    if isC2 && read.Some? && w.ctx.inData == [] {
      assert w.log.fed + Slot(read.value) == w.log.fed + Slot(w.ctx.inData) + Slot(read.value);
    }
  }

  lemma HostKeepsIndications(w: World, h: HostStep)
    requires Indications(w) && HostEnabled(w, h)
    ensures Indications(HostNext(w, h))
  {
    if h.Notify? {
      NotifyKeepsIndications(w, h.isC2, h.read);
    } else {
      OthersKeepPackets(w, h);
    }
  }

  lemma CompletionKeepsAwake(w: World, h: HostStep)
    requires Awake(w) && HostEnabled(w, h) && (h.CccdComplete? || h.C1Complete?)
    ensures Awake(HostNext(w, h))
  {
  }

  lemma SignalKeepsAwake(w: World)
    requires Awake(w) && HostEnabled(w, HookContinue)
    ensures Awake(HostNext(w, HookContinue))
  {
  }

  lemma DiscoveryKeepsAwake(w: World, h: HostStep)
    requires Setup(w) && Awake(w) && HostEnabled(w, h) && (h.Service? || h.Characteristic? || h.ConnectDone?)
    ensures HostNext(w, h).pc.Ended? || Awake(HostNext(w, h))
  {
    match h
    case Service(_) =>
    case Characteristic(_) =>
    case _ =>
  }

  lemma OthersKeepAwake(w: World, h: HostStep)
    requires Awake(w) && HostEnabled(w, h) && !h.CccdComplete? && !h.C1Complete? && !h.HookContinue?
    requires !h.Service? && !h.Characteristic? && !h.ConnectDone?
    ensures Awake(HostNext(w, h))
  {
  }

  lemma HostKeepsAwake(w: World, h: HostStep)
    requires Setup(w) && (w.pc.Ended? || Awake(w)) && HostEnabled(w, h)
    ensures HostNext(w, h).pc.Ended? || Awake(HostNext(w, h))
  {
    if w.pc.Ended? {
    } else if h.CccdComplete? || h.C1Complete? {
      CompletionKeepsAwake(w, h);
    } else if h.HookContinue? {
      SignalKeepsAwake(w);
    } else if h.Service? || h.Characteristic? || h.ConnectDone? {
      DiscoveryKeepsAwake(w, h);
    } else {
      OthersKeepAwake(w, h);
    }
  }

  lemma HostKeepsInv(w: World, h: HostStep)
    requires Inv(w) && HostEnabled(w, h)
    ensures Inv(HostNext(w, h))
  {
    HostHasShape(w, h);
    ShapeKeepsSetup(w, HostNext(w, h));
    HostKeepsWrites(w, h);
    HostKeepsIndications(w, h);
    HostKeepsAwake(w, h);
  }

  lemma StageKeepsSetup(w: World, ok: bool)
    requires Setup(w) && RunEnabled(w, Advance(ok))
    ensures Setup(RunNext(w, Advance(ok)))
  {
    match w.pc.stage
    case SyncStage =>
    case ConnectStage =>
    case ServiceStage(_) =>
    case ChrStage(_) =>
    case SubscribeStage(_, _, _) =>
  }

  lemma StageKeepsInv(w: World, ok: bool)
    requires Inv(w) && RunEnabled(w, Advance(ok))
    ensures Inv(RunNext(w, Advance(ok)))
  {
    StageKeepsSetup(w, ok);
    match w.pc.stage
    case SyncStage =>
    case ConnectStage =>
    case ServiceStage(_) =>
    case ChrStage(_) =>
    case SubscribeStage(_, _, _) =>
  }

  lemma InPassKeepsInv(w: World, ok: bool)
    requires Inv(w) && w.pc.Pumping?
    ensures Inv(AfterInPass(w, IncomingPass(w.ctx, ok)))
  {
    PassShapes(w.ctx, ok, Nothing, false);
    var p := IncomingPass(w.ctx, ok);
    if p.outcome.Processed? {
      assert w.log.fed + Slot(w.ctx.inData) == (w.log.fed + [w.ctx.inData]) + Slot([]);
    }
  }

  lemma OutPassKeepsInv(w: World, p: Pass, reply: Reply, accepted: bool)
    requires Inv(w) && RunEnabled(w, OutSection(reply, accepted)) && p == OutgoingPass(w.ctx, reply, accepted)
    ensures Inv(AfterOutPass(w, p))
  {
    PassShapes(w.ctx, false, reply, accepted);
    match p.outcome
    case Processed =>
    case NotProcessed =>
    case Failed =>
  }

  /** A run that blocks or wakes up changes nothing but where it stands. */
  lemma BlockingKeepsInv(w: World, r: RunStep)
    requires Inv(w) && RunEnabled(w, r) && (r.Block? || r.WakeRun?)
    ensures Inv(RunNext(w, r))
  {
  }

  lemma ParkingKeepsInv(w: World, r: RunStep)
    requires Inv(w) && RunEnabled(w, r)
    requires !r.Advance? && !r.Block? && !r.WakeRun? && !r.InSection? && !r.OutSection?
    ensures Inv(RunNext(w, r))
  {
    match r
    case InPark =>
    case OutPark =>
    case InWake =>
    case _ =>
  }

  lemma RunKeepsInv(w: World, r: RunStep)
    requires Inv(w) && RunEnabled(w, r)
    ensures Inv(RunNext(w, r))
  {
    match r
    case Advance(ok) => StageKeepsInv(w, ok);
    case InSection(ok) => InPassKeepsInv(w, ok);
    case OutSection(reply, accepted) => OutPassKeepsInv(w, OutgoingPass(w.ctx, reply, accepted), reply, accepted);
    case Block => BlockingKeepsInv(w, r);
    case WakeRun => BlockingKeepsInv(w, r);
    case _ => ParkingKeepsInv(w, r);
  }

  lemma InvPreserved(w: World, s: Step)
    requires Inv(w) && Enabled(w, s)
    ensures Inv(Next(w, s))
  {
    match s
    case Host(h) => HostKeepsInv(w, h);
    case Run(r) => RunKeepsInv(w, r);
    case BtpChange(_, _) =>
  }
}
