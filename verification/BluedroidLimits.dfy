/** Where the guarantees of the Bluedroid peripheral end, with the runs that get there. */
module BluedroidLimits {
  import opened Base
  import opened BtpEngine
  import opened BluedroidState
  import opened BluedroidPeripheral
  import opened BluedroidRuns

  // ----- Reaching a state ----------------------------------------------------------------------

  ghost predicate Reachable(w: World) {
    exists ws: seq<World>, steps: seq<Step> :: IsPath(ws, steps) && ws[|steps|] == w
  }

  lemma StartIsReachable()
    ensures Reachable(START)
  {
    assert IsPath([START], []) && [START][0] == START;
  }

  lemma NextIsReachable(w: World, s: Step)
    requires Reachable(w) && Enabled(w, s)
    ensures Reachable(Next(w, s))
  {
    var ws: seq<World>, steps: seq<Step> :| IsPath(ws, steps) && ws[|steps|] == w;
    var more, longer := ws + [Next(w, s)], steps + [s];
    forall i | 0 <= i < |longer|
      ensures StepAt(more, longer, i)
    {
      if i < |steps| {
        assert StepAt(ws, steps, i);
        assert more[i] == ws[i] && more[i + 1] == ws[i + 1] && longer[i] == steps[i];
      }
    }
    assert IsPath(more, longer) && more[|longer|] == Next(w, s);
  }

  lemma StepGrows(w: World, s: Step)
    requires Enabled(w, s)
    ensures w.log.gens <= Next(w, s).log.gens
  {
    match s
    case Host(_) =>
    case Pump(_) =>
    case _ =>
  }

  lemma {:induction false} GensGrow(ws: seq<World>, steps: seq<Step>, i: nat, j: nat)
    requires IsPath(ws, steps) && i <= j < |ws|
    ensures ws[i].log.gens <= ws[j].log.gens
    decreases j
  {
    if i < j {
      GensGrow(ws, steps, i, j - 1);
      assert StepAt(ws, steps, j - 1);
      StepGrows(ws[j - 1], steps[j - 1]);
    }
  }

  /** Until the counter first wraps every path is a run. */
  lemma PathIsRun(ws: seq<World>, steps: seq<Step>)
    requires IsPath(ws, steps) && ws[|steps|].log.gens < USIZE_VALUES
    ensures IsRun(ws, steps)
  {
    forall i | 0 <= i < |ws| ensures InWidth(ws[i]) {
      GensGrow(ws, steps, i, |steps|);
    }
  }

  const SERVICE := Handles(Some(1), Some(2), Some(5), Some(3), Some(4))

  /** The service is registered, and both pumps are at the top of their loops. */
  const READY := World(
    FRESH.(gatt := SERVICE), Running, Running, HookIdle, Env(false, false, None, EngineState(None, false, false)),
    Transcript(0, 0, 0, 0, [], [], [], [], 0), [])

  /** The peer has connected and subscribed. */
  const SUBSCRIBED := World(
    Context(SERVICE, Some(Connection(6, 5, true, None)), 1, None, [], 0, [], false, true, true),
    Running, Running, HookIdle, Env(false, false, None, EngineState(None, false, false)),
    Transcript(1, 1, 0, 0, [], [], [], [], 0), [])

  lemma AttributesComplete(w: World)
    requires Reachable(w) && w.hook.HookIdle? && w.ctx.gatt == Handles(Some(1), Some(2), None, None, None)
    ensures Reachable(w.(ctx := w.ctx.(gatt := SERVICE)))
  {
    var w1 := Next(w, Host(CharacteristicAdded(2, 5, C1)));
    NextIsReachable(w, Host(CharacteristicAdded(2, 5, C1)));
    var w2 := Next(w1, Host(CharacteristicAdded(2, 3, C2)));
    NextIsReachable(w1, Host(CharacteristicAdded(2, 3, C2)));
    NextIsReachable(w2, Host(DescriptorAdded(2, 4, true)));
  }

  lemma ReadyIsReachable()
    ensures Reachable(READY)
  {
    StartIsReachable();
    var w1 := Next(START, Host(ServiceRegistered(1)));
    NextIsReachable(START, Host(ServiceRegistered(1)));
    NextIsReachable(w1, Host(ServiceCreated(2)));
    AttributesComplete(Next(w1, Host(ServiceCreated(2))));
  }

  /** The live peer asks for indications. */
  lemma SubscribingIsReachable(w: World)
    requires Reachable(w) && w.hook.HookIdle? && w.env.request.None?
    requires w.ctx.gatt.cccd == Some(4) && w.ctx.connection == Some(Connection(6, 5, false, None))
    ensures Reachable(w.(ctx := w.ctx.(connection := Some(Connection(6, 5, true, None)),
                                       notifyIncoming := true, notifyOutgoing := true)))
  {
    var r := Request(5, 7, 4, 0, [2, 0]);
    assert Toggles(w.ctx, r);
    NextIsReachable(w, Host(Write(r)));
    NextIsReachable(Next(w, Host(Write(r))), Host(Answer));
  }

  lemma SubscribedIsReachable()
    ensures Reachable(SUBSCRIBED)
  {
    ReadyIsReachable();
    NextIsReachable(READY, Host(PeerConnected(5, 6)));
    SubscribingIsReachable(Next(READY, Host(PeerConnected(5, 6))));
  }

  // ----- The wrapping counter ------------------------------------------------------------------

  /** An engine synced before the latest connect or disconnect belongs to an earlier connection. */
  ghost predicate Sessions(w: World) {
    w.ctx.btpGen.Some? ==>
      && w.env.btp.session.Some? && w.env.btp.session.value <= w.log.links
      && (w.ctx.connection.Some? && w.log.syncedGen < w.log.gens ==> w.env.btp.session.value < w.log.links)
  }

  lemma HostKeepsSessions(w: World, h: HostStep)
    requires Generations(w) && Sessions(w) && HostEnabled(w, h)
    ensures Sessions(HostNext(w, h))
  {
    match h
    case PeerConnected(_, _) =>
    case PeerDisconnected(_) =>
    case Write(_) =>
    case _ =>
  }

  lemma ResetKeepsSessions(w: World, n: World, reset: bool)
    requires Sessions(w)
    requires n.ctx.connection == w.ctx.connection && n.log.links == w.log.links && n.log.gens == w.log.gens
    requires if reset then w.ctx.connection.Some? && n.env.btp.session == Link(w) && n.log.syncedGen == w.log.gens
             else n.env.btp == w.env.btp && n.log.syncedGen == w.log.syncedGen && n.ctx.btpGen == w.ctx.btpGen
    ensures Sessions(n)
  {
  }

  lemma PumpKeepsSessions(w: World, p: PumpStep)
    requires Sessions(w) && PumpEnabled(w, p)
    ensures Sessions(PumpNext(w, p))
  {
    match p
    case InSection(fed, answered) =>
      var pass := IncomingPass(w.ctx, fed, answered);
      IncomingPassShape(w.ctx, fed, answered);
      ResetKeepsSessions(w, AfterInPass(w, pass), pass.reset);
    case OutSection(reply, accepted) =>
      var pass := OutgoingPass(w.ctx, reply, accepted);
      OutgoingPassShape(w.ctx, reply, accepted);
      ResetKeepsSessions(w, AfterOutPass(w, pass), pass.reset);
    case _ =>
  }

  lemma SessionsPreserved(w: World, s: Step)
    requires Generations(w) && Sessions(w) && Enabled(w, s)
    ensures Sessions(START) && Sessions(Next(w, s))
  {
    match s
    case Host(h) => HostKeepsSessions(w, h);
    case Pump(p) => PumpKeepsSessions(w, p);
    case _ =>
  }

  lemma {:induction false} PathKeepsCount(ws: seq<World>, steps: seq<Step>, i: nat)
    requires IsPath(ws, steps) && i < |ws|
    ensures Generations(ws[i]) && Sessions(ws[i])
  {
    PathIsSteady(ws, steps, i);
    if i > 0 {
      PathKeepsCount(ws, steps, i - 1);
      assert StepAt(ws, steps, i - 1);
      SessionsPreserved(ws[i - 1], steps[i - 1]);
    }
  }

  /**
   * Anywhere on any path, a sync leaves the engine with the live connection exactly unless the
   * counter, having moved since the last sync, is back at its old value.
   */
  lemma SyncIsExact(ws: seq<World>, steps: seq<Step>, i: nat)
    requires IsPath(ws, steps) && i < |ws| && ws[i].ctx.connection.Some?
    ensures
      var w := ws[i];
      Synced(w).session == Link(w) <==>
        || w.ctx.btpGen.None?
        || w.log.syncedGen == w.log.gens
        || (w.log.gens - w.log.syncedGen) % USIZE_VALUES != 0
  {
    PathKeepsCount(ws, steps, i);
  }

  /** The world after `n` times a disconnect and a connect of the same peer. */
  function TurnedOver(w: World, n: nat): World {
    if n == 0 then w
    else
      var before := TurnedOver(w, n - 1);
      if before.ctx.connection.None? then before
      else
        var conn := before.ctx.connection.value;
        HostNext(HostNext(before, PeerDisconnected(conn.peer)), PeerConnected(conn.connId, conn.peer))
  }

  lemma {:induction false} TurnoversAreReachable(w: World, n: nat)
    requires Reachable(w) && w.ctx.connection.Some? && w.hook.HookIdle?
    ensures
      var t := TurnedOver(w, n);
      && Reachable(t) && t.ctx.connection.Some? && t.hook.HookIdle?
      && t.log.gens == w.log.gens + 2 * n && t.log.links == w.log.links + n
      && t.log.syncedGen == w.log.syncedGen && t.ctx.btpGen == w.ctx.btpGen && t.env.btp == w.env.btp
  {
    if n > 0 {
      TurnoversAreReachable(w, n - 1);
      var before := TurnedOver(w, n - 1);
      var conn := before.ctx.connection.value;
      var between := HostNext(before, PeerDisconnected(conn.peer));
      NextIsReachable(before, Host(PeerDisconnected(conn.peer)));
      NextIsReachable(between, Host(PeerConnected(conn.connId, conn.peer)));
    }
  }

  lemma ReachableCounts(w: World)
    requires Reachable(w)
    ensures Generations(w) && Sessions(w)
  {
    var ws: seq<World>, steps: seq<Step> :| IsPath(ws, steps) && ws[|steps|] == w;
    PathKeepsCount(ws, steps, |steps|);
  }

  lemma MissesAll(t: World)
    requires Generations(t) && Sessions(t) && t.ctx.connection.Some? && t.ctx.btpGen.Some?
    requires t.log.gens == t.log.syncedGen + USIZE_VALUES
    ensures !SyncBtp(t.ctx).1 && Synced(t).session != Link(t)
  {
  }

  lemma MissedAfter(w: World, n: nat)
    requires Reachable(w) && w.hook.HookIdle? && w.ctx.connection.Some? && w.log.gens == w.log.syncedGen == 1
    requires w.ctx.btpGen == Some(1) && w.env.btp.session == Some(1) && 2 * n == USIZE_VALUES
    ensures
      var t := TurnedOver(w, n);
      Reachable(t) && t.ctx.connection.Some? && !SyncBtp(t.ctx).1 && Synced(t).session != Link(t)
  {
    TurnoversAreReachable(w, n);
    ReachableCounts(TurnedOver(w, n));
    MissesAll(TurnedOver(w, n));
  }

  /**
   * A path on which it is: once the service is up, a peer connects and the incoming pump syncs; after
   * 2^31 disconnects and connects that the pumps sleep through, the sync misses them all.
   */
  lemma WrapIsMissed()
    ensures exists w :: Reachable(w) && w.ctx.connection.Some? && !SyncBtp(w.ctx).1 && Synced(w).session != Link(w)
  {
    ReadyIsReachable();
    var w1 := Next(READY, Host(PeerConnected(1, 2)));
    NextIsReachable(READY, Host(PeerConnected(1, 2)));
    var w2 := Next(w1, Pump(InSection(true, true)));
    NextIsReachable(w1, Pump(InSection(true, true)));
    assert w2.ctx.connection.Some? && w2.hook.HookIdle?;
    assert w2.log.gens == w2.log.syncedGen == 1 && w2.ctx.btpGen == Some(1) && w2.env.btp.session == Some(1);
    MissedAfter(w2, 0x8000_0000);
  }

  // ----- The service set up anew ---------------------------------------------------------------

  function AfterPass(w: World): World {
    w.(outPc := Parked)
  }

  /** Without an interface the outgoing section does nothing, and the pump parks. */
  lemma PassWithoutInterface(w: World)
    requires Reachable(w) && w.outPc.Running? && w.ctx.gatt.gattIf.None?
    ensures Reachable(AfterPass(w))
  {
    var pass := Pump(OutSection(Nothing, false));
    NextIsReachable(w, pass);
    NextIsReachable(Next(w, pass), Pump(OutPark));
    assert w.uses + [] == w.uses;
    assert Next(Next(w, pass), Pump(OutPark)) == AfterPass(w);
  }

  /** While the interface is gone the pump spends both its latches, and then sleeps through its return. */
  lemma LatchesAreSpent(w: World)
    requires Reachable(w) && w.hook.HookIdle? && w.outPc.Running? && w.ctx.gatt.gattIf.None? && w.ctx.gatt.c2.Some?
    requires w.ctx.Subscribed() && !w.ctx.outNack
    requires w.ctx.notifyOutgoing && w.env.btp.ready && w.env.btp.hasData
    ensures
      var n := w.(ctx := w.ctx.(gatt := w.ctx.gatt.(gattIf := Some(1)), notifyOutgoing := false), outPc := Parked,
                  env := w.env.(btp := w.env.btp.(ready := false)));
      Reachable(n) && Asleep(n)
  {
    PassWithoutInterface(w);
    var w1 := AfterPass(w);
    NextIsReachable(w1, Pump(OutWakeSignalled));
    var w2 := Next(w1, Pump(OutWakeSignalled));
    PassWithoutInterface(w2);
    var w3 := AfterPass(w2);
    NextIsReachable(w3, Pump(OutWakeBtp));
    var w4 := Next(w3, Pump(OutWakeBtp));
    PassWithoutInterface(w4);
    NextIsReachable(AfterPass(w4), Host(ServiceRegistered(1)));
  }

  lemma AsleepIsReachable()
    ensures exists w :: Reachable(w) && w.log.gens == 1 && w.outPc.Parked? && Asleep(w)
  {
    SubscribedIsReachable();
    var w1 := Next(SUBSCRIBED, Pump(InSection(true, true)));
    NextIsReachable(SUBSCRIBED, Pump(InSection(true, true)));
    var w2 := Next(w1, Host(ServiceUnregistered(2)));
    NextIsReachable(w1, Host(ServiceUnregistered(2)));
    var w3 := Next(w2, BtpChange(true, true));
    NextIsReachable(w2, BtpChange(true, true));
    LatchesAreSpent(w3);
  }

  /** So a run can leave the pump asleep on something to send. */
  lemma StrandedIsReachable()
    ensures exists ws: seq<World>, steps: seq<Step> ::
              IsRun(ws, steps) && ws[|steps|].outPc.Parked? && Asleep(ws[|steps|])
  {
    AsleepIsReachable();
    var w :| Reachable(w) && w.log.gens == 1 && w.outPc.Parked? && Asleep(w);
    var ws: seq<World>, steps: seq<Step> :| IsPath(ws, steps) && ws[|steps|] == w;
    PathIsRun(ws, steps);
  }

  // ----- Requests and confirmations that go nowhere --------------------------------------------

  /** The link of the outstanding request ends. */
  predicate EndsLink(w: World, s: Step) {
    s.Restart? || (s.Host? && s.h.PeerDisconnected? && IsPeer(w.ctx, s.h.peer))
  }

  /** A request the application answers later: a CCCD answer is due, or the write is in `in_data`. */
  predicate AnswerDue(w: World) {
    w.hook.Answering? || w.ctx.inData != []
  }

  /** A pump with an empty inbox answers nothing, and one that may not send does not. */
  lemma PumpLeaves(w: World, p: PumpStep)
    requires PumpEnabled(w, p)
    ensures
      var n := PumpNext(w, p);
      && n.ctx.connection == w.ctx.connection && n.hook == w.hook && n.env.confirmLost == w.env.confirmLost
      && (w.ctx.inData == [] ==> n.ctx.inData == [] && n.env.request == w.env.request)
      && (!MaySend(w.ctx) ==> n.log.emitted == w.log.emitted)
  {
    match p
    case InSection(fed, answered) => IncomingPassShape(w.ctx, fed, answered);
    case OutSection(reply, accepted) => OutgoingPassShape(w.ctx, reply, accepted);
    case _ =>
  }

  /**
   * A request of the live peer is left unanswered exactly if it is neither two bytes to the CCCD that
   * change the subscription, nor 1 to 512 bytes to `C1`.
   */
  lemma UnansweredExactly(w: World, r: Request)
    requires Steady(w) && HostEnabled(w, Write(r))
    requires w.ctx.connection.Some? && w.ctx.connection.value.connId == r.connId
    ensures
      var toCccd := w.ctx.gatt.cccd == Some(r.handle);
      AnswerDue(HostNext(w, Write(r))) <==>
        || (toCccd && r.offset == 0 && |r.value| == 2 && w.ctx.connection.value.subscribed != (r.value == [2, 0]))
        || (!toCccd && w.ctx.gatt.c1 == Some(r.handle) && r.offset == 0 && 0 < |r.value| <= MAX_MTU_SIZE)
  {
    if |r.value| == 2 {
      CccdValue(r.value);
    }
  }

  lemma HostLeavesUnanswered(w: World, h: HostStep)
    requires Pairing(w) && HostEnabled(w, h) && w.ctx.connection.Some?
    requires w.env.request.Some? && !AnswerDue(w) && !EndsLink(w, Host(h))
    ensures
      var n := HostNext(w, h);
      n.env.request == w.env.request && !AnswerDue(n) && n.ctx.connection.Some?
  {
  }

  /** ... and then it stays unanswered until its link ends, whatever happens. */
  lemma UnansweredStays(w: World, s: Step)
    requires Steady(w) && Enabled(w, s) && w.ctx.connection.Some?
    requires w.env.request.Some? && !AnswerDue(w) && !EndsLink(w, s)
    ensures Next(w, s).env.request == w.env.request && !AnswerDue(Next(w, s)) && Next(w, s).ctx.connection.Some?
  {
    match s
    case Host(h) => HostLeavesUnanswered(w, h);
    case Pump(p) => PumpLeaves(w, p);
    case _ =>
  }

  /** After a failed confirmation nothing is sent again until the link ends. */
  lemma FailedConfirmStalls(w: World, s: Step)
    requires Steady(w) && Enabled(w, s) && w.ctx.connection.Some? && w.env.confirmLost && !EndsLink(w, s)
    ensures !MaySend(w.ctx)
    ensures Next(w, s).env.confirmLost && Next(w, s).ctx.connection.Some? && Next(w, s).log.emitted == w.log.emitted
  {
    match s
    case Pump(p) => PumpLeaves(w, p);
    case _ =>
  }

  lemma UnansweredNext(ws: seq<World>, steps: seq<Step>, k: nat)
    requires IsPath(ws, steps) && k < |steps| && !EndsLink(ws[k], steps[k])
    requires ws[k].ctx.connection.Some? && ws[k].env.request.Some? && !AnswerDue(ws[k])
    ensures
      ws[k + 1].ctx.connection.Some? && ws[k + 1].env.request == ws[k].env.request && !AnswerDue(ws[k + 1])
  {
    assert StepAt(ws, steps, k);
    PathIsSteady(ws, steps, k);
    UnansweredStays(ws[k], steps[k]);
  }

  /** Over a run: such a request is never answered before its link ends. */
  lemma {:induction false} UnansweredForGood(ws: seq<World>, steps: seq<Step>, i: nat, j: nat)
    requires IsPath(ws, steps) && i <= j < |ws|
    requires ws[i].ctx.connection.Some? && ws[i].env.request.Some? && !AnswerDue(ws[i])
    requires forall k | i <= k < j :: !EndsLink(ws[k], steps[k])
    ensures ws[j].ctx.connection.Some? && ws[j].env.request == ws[i].env.request && !AnswerDue(ws[j])
    decreases j
  {
    if i < j {
      UnansweredForGood(ws, steps, i, j - 1);
      UnansweredNext(ws, steps, j - 1);
    }
  }

  lemma FailedConfirmNext(ws: seq<World>, steps: seq<Step>, k: nat)
    requires IsPath(ws, steps) && k < |steps| && !EndsLink(ws[k], steps[k])
    requires ws[k].ctx.connection.Some? && ws[k].env.confirmLost
    ensures ws[k + 1].ctx.connection.Some? && ws[k + 1].env.confirmLost && ws[k + 1].log.emitted == ws[k].log.emitted
  {
    assert StepAt(ws, steps, k);
    PathIsSteady(ws, steps, k);
    FailedConfirmStalls(ws[k], steps[k]);
  }

  /** Over a run: after a failed confirmation nothing is sent before the link ends. */
  lemma {:induction false} FailedConfirmForGood(ws: seq<World>, steps: seq<Step>, i: nat, j: nat)
    requires IsPath(ws, steps) && i <= j < |ws|
    requires ws[i].ctx.connection.Some? && ws[i].env.confirmLost
    requires forall k | i <= k < j :: !EndsLink(ws[k], steps[k])
    ensures ws[j].ctx.connection.Some? && ws[j].env.confirmLost && ws[j].log.emitted == ws[i].log.emitted
    decreases j
  {
    if i < j {
      FailedConfirmForGood(ws, steps, i, j - 1);
      FailedConfirmNext(ws, steps, j - 1);
    }
  }

  /** A request that is never answered does come up: subscribing once more. */
  lemma UnansweredIsReachable()
    ensures exists w :: Reachable(w) && w.ctx.connection.Some? && w.env.request.Some? && !AnswerDue(w)
  {
    SubscribedIsReachable();
    var again := Host(Write(Request(5, 8, 4, 0, [2, 0])));
    NextIsReachable(SUBSCRIBED, again);
    assert !Toggles(SUBSCRIBED.ctx, again.h.request);
  }

  lemma ConfirmCanFail(w: World)
    requires Reachable(w) && w.hook.HookIdle? && w.outPc.Running? && MaySend(w.ctx)
    requires w.env.btp.hasData && !SyncBtp(w.ctx).1
    ensures exists n :: Reachable(n) && n.ctx.connection.Some? && n.env.confirmLost
  {
    var send := Pump(OutSection(Produced([1]), true));
    NextIsReachable(w, send);
    NextIsReachable(Next(w, send), Host(Confirm(false)));
  }

  /** And so does a confirmation that fails. */
  lemma FailedConfirmIsReachable()
    ensures exists w :: Reachable(w) && w.ctx.connection.Some? && w.env.confirmLost
  {
    SubscribedIsReachable();
    var w1 := Next(SUBSCRIBED, Pump(InSection(true, true)));
    NextIsReachable(SUBSCRIBED, Pump(InSection(true, true)));
    NextIsReachable(w1, BtpChange(true, true));
    ConfirmCanFail(Next(w1, BtpChange(true, true)));
  }

  // ----- A task that is run again --------------------------------------------------------------

  /** If the response to a write fails, a task run again gives BTP the same bytes a second time. */
  lemma FailedResponseRefeeds(w: World)
    requires w.inPc.Running? && CanReceive(w)
    ensures
      var failed := Next(w, Pump(InSection(true, false)));
      && failed.inPc.Stopped? && Enabled(failed, Rerun)
      && var again := Next(failed, Rerun);
         && again.inPc.Running?
         && IncomingPass(w.ctx, true, false).call.Feed?
         && IncomingPass(again.ctx, true, true).call == IncomingPass(w.ctx, true, false).call
  {
  }
}
