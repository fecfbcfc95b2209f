/** What holds over every run of the central. */
module CentralRuns {
  import opened Base
  import opened BtpEngine
  import opened CentralState
  import opened Central

  /** The `i`-th step of a run. */
  ghost predicate StepAt(ws: seq<World>, steps: seq<Step>, i: int) {
    && |ws| == |steps| + 1 && 0 <= i < |steps|
    && Enabled(ws[i], steps[i]) && ws[i + 1] == Next(ws[i], steps[i])
  }

  ghost predicate IsRun(ws: seq<World>, steps: seq<Step>) {
    && |ws| == |steps| + 1
    && ws[0] == Start(ws[0].ctx.peer)
    && (forall i | 0 <= i < |steps| :: StepAt(ws, steps, i))
  }

  lemma {:induction false} RunInv(ws: seq<World>, steps: seq<Step>, i: nat)
    requires IsRun(ws, steps) && i < |ws|
    ensures Inv(ws[i])
  {
    if i == 0 {
      StartInv(ws[0].ctx.peer);
    } else {
      RunInv(ws, steps, i - 1);
      assert StepAt(ws, steps, i - 1);
      InvPreserved(ws[i - 1], steps[i - 1]);
    }
  }

  /**
   * The pumps run only with every stage behind them: the host in sync, a connection, the services and
   * characteristics discovered, the Matter range and both handles among them, and a CCCD write that
   * succeeded.
   */
  lemma PumpsStartInOrder(ws: seq<World>, steps: seq<Step>, i: nat)
    requires IsRun(ws, steps) && i < |ws| && ws[i].pc.Pumping?
    ensures
      var w := ws[i];
      && w.ctx.disc.connHandle == Some(w.pc.conn) && w.ctx.disc.matterRange.Some?
      && w.ctx.disc.c1Val == Some(w.pc.c1) && w.ctx.disc.c2Val.Some?
      && w.ctx.disc.synced && w.ctx.disc.servicesDone && w.ctx.disc.charsDone && w.log.cccdOk
  {
    RunInv(ws, steps, i);
  }

  /** Nothing is written or fed before the pumps run. */
  lemma NothingBeforePumps(ws: seq<World>, steps: seq<Step>, i: nat)
    requires IsRun(ws, steps) && i < |ws| && AtStage(ws[i].pc)
    ensures ws[i].log.written == [] && ws[i].log.fed == []
  {
    RunInv(ws, steps, i);
  }

  /** At most one `C1` write is outstanding, and while one is, the pump makes no other. */
  lemma OneWriteOutstanding(ws: seq<World>, steps: seq<Step>, i: nat)
    requires IsRun(ws, steps) && i < |steps|
    ensures |ws[i].log.written| - ws[i].log.completed == if ws[i].env.c1Busy then 1 else 0
    ensures ws[i].env.c1Busy && !ws[i].pc.Ended? ==> ws[i + 1].log.written == ws[i].log.written
  {
    RunInv(ws, steps, i);
    assert StepAt(ws, steps, i);
    var w := ws[i];
    if steps[i].Run? && steps[i].r.OutSection? {
      PassShapes(w.ctx, false, steps[i].r.reply, steps[i].r.accepted);
    }
  }

  /** What is fed to BTP is an in-order selection of the indications received, whole and unchanged. */
  lemma FedInOrder(ws: seq<World>, steps: seq<Step>, i: nat)
    requires IsRun(ws, steps) && i < |ws|
    ensures
      var log := ws[i].log;
      && |log.fed| <= |log.taken|
      && (forall k | 0 <= k < |log.fed| ::
            log.taken[k] < |log.received| && log.received[log.taken[k]] == log.fed[k])
      && (forall j, k | 0 <= j < k < |log.fed| :: log.taken[j] < log.taken[k])
  {
    RunInv(ws, steps, i);
    var log := ws[i].log;
    var kept := log.fed + Slot(ws[i].ctx.inData);
    assert forall k | 0 <= k < |log.fed| :: kept[k] == log.fed[k];
  }

  lemma FailedStep(w: World, s: Step)
    requires Enabled(w, s) && w.ctx.failed
    ensures Next(w, s).ctx.failed
    ensures Next(w, s).log.fed == w.log.fed && Next(w, s).log.written == w.log.written
    ensures !w.pc.Pumping? ==> !Next(w, s).pc.Pumping?
    ensures s.Run? && (s.r.InSection? || s.r.OutSection?) ==> Next(w, s).pc.Ended?
  {
    match s
    case Host(h) => HostHasShape(w, h);
    case Run(InSection(ok)) => PassShapes(w.ctx, ok, Nothing, false);
    case Run(OutSection(reply, accepted)) => PassShapes(w.ctx, false, reply, accepted);
    case _ =>
  }

  lemma FailedNext(ws: seq<World>, steps: seq<Step>, k: nat)
    requires IsRun(ws, steps) && k < |steps| && ws[k].ctx.failed
    ensures ws[k + 1].ctx.failed
    ensures ws[k + 1].log.fed == ws[k].log.fed && ws[k + 1].log.written == ws[k].log.written
    ensures !ws[k].pc.Pumping? ==> !ws[k + 1].pc.Pumping?
  {
    assert StepAt(ws, steps, k);
    FailedStep(ws[k], steps[k]);
  }

  /** `failed` is absorbing: nothing is written or delivered after it, and no pump starts. */
  lemma {:induction false} FailedIsAbsorbing(ws: seq<World>, steps: seq<Step>, i: nat, j: nat)
    requires IsRun(ws, steps) && i <= j < |ws| && ws[i].ctx.failed
    ensures ws[j].ctx.failed
    ensures ws[j].log.fed == ws[i].log.fed && ws[j].log.written == ws[i].log.written
    ensures !ws[i].pc.Pumping? ==> !ws[j].pc.Pumping?
    decreases j
  {
    if i < j {
      FailedIsAbsorbing(ws, steps, i, j - 1);
      FailedNext(ws, steps, j - 1);
    }
  }

  /** Once failed, each parked pump will be woken, and its next section ends the run with an error. */
  lemma FailedWakesBoth(ws: seq<World>, steps: seq<Step>, i: nat)
    requires IsRun(ws, steps) && i < |ws| && ws[i].pc.Pumping? && ws[i].ctx.failed
    ensures ws[i].inPc.Parked? ==> Enabled(ws[i], Run(InWake)) || InDue(ws[i])
    ensures ws[i].outPc.Parked? ==> Enabled(ws[i], Run(OutWakeSignalled)) || OutDue(ws[i])
    ensures forall r: RunStep | (r.InSection? || r.OutSection?) && RunEnabled(ws[i], r) :: RunNext(ws[i], r).pc.Ended?
  {
    RunInv(ws, steps, i);
    forall r: RunStep | (r.InSection? || r.OutSection?) && RunEnabled(ws[i], r)
      ensures RunNext(ws[i], r).pc.Ended?
    {
      FailedStep(ws[i], Run(r));
    }
  }

  /** No lost wake-up, in the discovery and in the pumps. */
  lemma NoLostWakeup(ws: seq<World>, steps: seq<Step>, i: nat)
    requires IsRun(ws, steps) && i < |ws|
    ensures
      var w := ws[i];
      && (w.pc.Blocked? && Holds(w.ctx, w.pc.stage) ==> Enabled(w, Run(WakeRun)) || ProgressDue(w))
      && (w.pc.Pumping? && w.inPc.Parked? && w.ctx.inData != [] ==> Enabled(w, Run(InWake)) || InDue(w))
      && (w.pc.Pumping? && w.outPc.Parked? && CanSend(w) ==>
            Enabled(w, Run(OutWakeSignalled)) || Enabled(w, Run(OutWakeBtp)) || OutDue(w))
  {
    RunInv(ws, steps, i);
  }

  // ----- What the pumps use --------------------------------------------------------------------

  /** What the host has told in the discovery, and of the link. */
  datatype Announced = Announced(
    synced: bool, conn: Option<nat>, mtu: Option<nat>,
    matterRange: Option<(nat, nat)>, c1: Option<nat>, c2: Option<nat>)

  const NOTHING_ANNOUNCED := Announced(false, None, None, None, None, None)

  function Told(a: Announced, h: HostStep): Announced {
    match h
    case HostSync => a.(synced := true)
    case ConnectDone(ok, handle) => if ok then a.(conn := Some(handle)) else a
    case MtuChanged(handle, value) => if a.conn == Some(handle) then a.(mtu := Some(value)) else a
    case Service(MatterService(first, last)) => a.(matterRange := Some((first, last)))
    case Characteristic(ChrC1(val)) => a.(c1 := Some(val))
    case Characteristic(ChrC2(val)) => a.(c2 := Some(val))
    case _ => a
  }

  /** The same read off the hooks alone: what they were called with, in order. */
  function Heard(steps: seq<Step>): Announced {
    if steps == [] then NOTHING_ANNOUNCED
    else
      var before := Heard(steps[..|steps| - 1]);
      match steps[|steps| - 1]
      case Host(h) => Told(before, h)
      case _ => before
  }

  function Known(c: Context): Announced {
    Announced(c.disc.synced, c.disc.connHandle, c.mtu, c.disc.matterRange, c.disc.c1Val, c.disc.c2Val)
  }

  lemma CompletionTellsNothing(w: World, h: HostStep)
    requires HostEnabled(w, h) && (h.CccdComplete? || h.C1Complete?)
    ensures Known(HostCtx(w, h)) == Known(w.ctx) && HostCtx(w, h).peer == w.ctx.peer
  {
  }

  lemma DiscoveryTells(w: World, h: HostStep)
    requires HostEnabled(w, h) && (h.Service? || h.Characteristic?)
    ensures Known(HostCtx(w, h)) == Told(Known(w.ctx), h) && HostCtx(w, h).peer == w.ctx.peer
  {
    match h
    case Service(MatterService(_, _)) =>
    case Service(_) =>
    case Characteristic(ChrC1(_)) =>
    case Characteristic(ChrC2(_)) =>
    case Characteristic(_) =>
  }

  lemma HooksTell(w: World, h: HostStep)
    requires HostEnabled(w, h)
    ensures Known(HostCtx(w, h)) == Told(Known(w.ctx), h) && HostCtx(w, h).peer == w.ctx.peer
  {
    match h
    case CccdComplete(_) => CompletionTellsNothing(w, h);
    case C1Complete(_) => CompletionTellsNothing(w, h);
    case Service(_) => DiscoveryTells(w, h);
    case Characteristic(_) => DiscoveryTells(w, h);
    case HookContinue =>
    case _ =>
  }

  /** Neither the run nor the pumps touch what was announced. */
  lemma ContextFollows(w: World, s: Step)
    requires Enabled(w, s)
    ensures Next(w, s).ctx.peer == w.ctx.peer
    ensures Known(Next(w, s).ctx) == if s.Host? then Told(Known(w.ctx), s.h) else Known(w.ctx)
  {
    match s
    case Host(h) => HooksTell(w, h);
    case Run(InSection(ok)) => PassShapes(w.ctx, ok, Nothing, false);
    case Run(OutSection(reply, accepted)) => PassShapes(w.ctx, false, reply, accepted);
    case _ =>
  }

  lemma {:induction false} ContextIsHeard(ws: seq<World>, steps: seq<Step>, i: nat)
    requires IsRun(ws, steps) && i < |ws|
    ensures Known(ws[i].ctx) == Heard(steps[..i]) && ws[i].ctx.peer == ws[0].ctx.peer
  {
    if i > 0 {
      ContextIsHeard(ws, steps, i - 1);
      assert StepAt(ws, steps, i - 1);
      ContextFollows(ws[i - 1], steps[i - 1]);
      assert steps[..i][..i - 1] == steps[..i - 1] && steps[..i][i - 1] == steps[i - 1];
    }
  }

  /**
   * The pumps run on the announced connection and the announced handle of `C1`. BTP is given all of the
   * inbox, with the address the run was called with and the latest MTU of the connection, and what is
   * written is the engine's frame.
   */
  lemma PumpsServeTheLink(ws: seq<World>, steps: seq<Step>, i: nat, ok: bool, reply: Reply, accepted: bool)
    requires IsRun(ws, steps) && i < |ws| && reply.Fits()
    ensures
      var w, a := ws[i], Heard(steps[..i]);
      var fed, sent := IncomingPass(w.ctx, ok), OutgoingPass(w.ctx, reply, accepted);
      && (w.pc.Pumping? ==> a.synced && a.conn == Some(w.pc.conn) && a.c1 == Some(w.pc.c1))
      && fed.call == (if !w.ctx.failed && w.ctx.inData != [] then Feed(a.mtu, ws[0].ctx.peer, w.ctx.inData) else NoCall)
      && sent.call == (if !w.ctx.failed && !w.ctx.outInflight then Poll(a.mtu) else NoCall)
      && (sent.write.Some? ==> sent.call.Poll? && reply == Produced(sent.write.value))
  {
    ContextIsHeard(ws, steps, i);
    RunInv(ws, steps, i);
  }

  // ----- Progress ------------------------------------------------------------------------------

  /** A parked incoming pump with an indication feeds it to BTP in its own steps. */
  lemma ParkedPumpFeeds(w: World)
    requires Inv(w) && w.hook.HookIdle? && w.pc.Pumping? && w.inPc.Parked? && w.ctx.inData != [] && !w.ctx.failed
    ensures Enabled(w, Run(InWake))
    ensures
      var section, woken := Run(InSection(true)), Next(w, Run(InWake));
      && Enabled(woken, section)
      && Next(woken, section).log.fed == w.log.fed + [w.ctx.inData] && Next(woken, section).ctx.inData == []
  {
  }

  /** A parked outgoing pump with something to send, no hook running, writes it in its own steps. */
  lemma ParkedPumpWrites(w: World, frame: Bytes)
    requires Inv(w) && w.hook.HookIdle? && w.pc.Pumping? && w.outPc.Parked? && CanSend(w) && !w.ctx.failed
    requires 0 < |frame| <= MAX_MTU_SIZE
    ensures
      var wake, section := Run(if w.ctx.notifyOut then OutWakeSignalled else OutWakeBtp),
                           Run(OutSection(Produced(frame), true));
      && Enabled(w, wake) && Enabled(Next(w, wake), section)
      && Next(Next(w, wake), section).log.written == w.log.written + [frame]
  {
    var woken := Next(w, Run(if w.ctx.notifyOut then OutWakeSignalled else OutWakeBtp));
    PassShapes(woken.ctx, false, Produced(frame), true);
    assert OutgoingPass(woken.ctx, Produced(frame), true).outcome.Processed?;
  }
}
