/** Where the guarantees of the central end, with the runs that get there. */
module CentralLimits {
  import opened Base
  import opened BtpEngine
  import opened CentralState
  import opened Central
  import opened CentralRuns

  // ----- Reaching a state ----------------------------------------------------------------------

  ghost predicate Reachable(w: World) {
    exists ws: seq<World>, steps: seq<Step> :: IsRun(ws, steps) && ws[|steps|] == w
  }

  lemma StartIsReachable()
    ensures Reachable(START)
  {
    assert IsRun([START], []) && [START][0] == START;
  }

  lemma NextIsReachable(w: World, s: Step)
    requires Reachable(w) && Enabled(w, s)
    ensures Reachable(Next(w, s))
  {
    var ws: seq<World>, steps: seq<Step> :| IsRun(ws, steps) && ws[|steps|] == w;
    var more, longer := ws + [Next(w, s)], steps + [s];
    forall i | 0 <= i < |longer|
      ensures StepAt(more, longer, i)
    {
      if i < |steps| {
        assert StepAt(ws, steps, i);
        assert more[i] == ws[i] && more[i + 1] == ws[i + 1] && longer[i] == steps[i];
      }
    }
    assert IsRun(more, longer) && more[|longer|] == Next(w, s);
  }

  /** A hook that signals the run, and its signal. */
  lemma HookIsReachable(w: World, h: HostStep)
    requires Reachable(w) && !h.HookContinue? && HostEnabled(w, h) && HostHook(w, h).SignalProgress?
    ensures
      var n := HostNext(w, h);
      Reachable(n.(ctx := n.ctx.(notifyProgress := true), hook := HookIdle))
  {
    NextIsReachable(w, Host(h));
    NextIsReachable(HostNext(w, h), Host(HookContinue));
  }

  /** The run has asked for the services of the peer. */
  const AT_SERVICES := World(
    FRESH.(disc := FRESH.disc.(synced := true, connHandle := Some(1)), notifyProgress := true),
    Waiting(ServiceStage(1)), Running, Running, HookIdle,
    Env(false, true, false, false, false, false, false), START.log)

  lemma ServicesAreReachable()
    ensures Reachable(AT_SERVICES)
  {
    StartIsReachable();
    HookIsReachable(START, HostSync);
    var w1 := START.(ctx := FRESH.(disc := FRESH.disc.(synced := true), notifyProgress := true));
    NextIsReachable(w1, Run(Advance(true)));
    var w2 := Next(w1, Run(Advance(true)));
    HookIsReachable(w2, ConnectDone(true, 1));
    NextIsReachable(w2.(ctx := AT_SERVICES.ctx, env := START.env), Run(Advance(true)));
  }

  /** ... and for its characteristics. */
  const AT_CHARACTERISTICS := World(
    AT_SERVICES.ctx.(disc := AT_SERVICES.ctx.disc.(matterRange := Some((1, 9)), servicesDone := true)),
    Waiting(ChrStage(1)), Running, Running, HookIdle,
    Env(false, false, true, false, false, false, false), START.log)

  lemma CharacteristicsAreReachable()
    ensures Reachable(AT_CHARACTERISTICS)
  {
    ServicesAreReachable();
    NextIsReachable(AT_SERVICES, Host(Service(MatterService(1, 9))));
    var w1 := Next(AT_SERVICES, Host(Service(MatterService(1, 9))));
    HookIsReachable(w1, Service(NoMoreServices));
    NextIsReachable(w1.(ctx := AT_CHARACTERISTICS.ctx, env := START.env), Run(Advance(true)));
  }

  /** ... and has written the CCCD. */
  function AtSubscribe(c1: nat, c2: nat): World {
    World(
      AT_CHARACTERISTICS.ctx.(
        disc := AT_CHARACTERISTICS.ctx.disc.(c1Val := Some(c1), c2Val := Some(c2), charsDone := true)),
      Waiting(SubscribeStage(1, c1, c2)), Running, Running, HookIdle,
      Env(false, false, false, true, false, false, false), START.log)
  }

  lemma SubscribeIsReachable(c1: nat, c2: nat)
    ensures Reachable(AtSubscribe(c1, c2))
  {
    CharacteristicsAreReachable();
    var w := AT_CHARACTERISTICS;
    NextIsReachable(w, Host(Characteristic(ChrC1(c1))));
    var w1 := Next(w, Host(Characteristic(ChrC1(c1))));
    NextIsReachable(w1, Host(Characteristic(ChrC2(c2))));
    var w2 := Next(w1, Host(Characteristic(ChrC2(c2))));
    HookIsReachable(w2, Characteristic(NoMoreChrs));
    NextIsReachable(w2.(ctx := AtSubscribe(c1, c2).ctx, env := START.env), Run(Advance(true)));
  }

  // ----- A completion taken for another --------------------------------------------------------

  /** The completion of a `C1` write lets the next one go exactly if `C1` does not follow `C2`. */
  lemma CompletionClearsExactly(ws: seq<World>, steps: seq<Step>, i: nat, status: int)
    requires IsRun(ws, steps) && i < |ws| && ws[i].pc.Pumping? && Enabled(ws[i], Host(C1Complete(status)))
    ensures !Next(ws[i], Host(C1Complete(status))).ctx.outInflight <==> Distinct(ws[i].ctx)
  {
    RunInv(ws, steps, i);
  }

  lemma BusyPumpsWriteNothing(w: World, r: RunStep)
    requires RunEnabled(w, r) && w.pc.Pumping? && w.ctx.outInflight
    ensures
      var n := RunNext(w, r);
      n.log.written == w.log.written && n.ctx.outInflight && n.env.c1Busy == w.env.c1Busy
  {
    match r
    case InSection(ok) => PassShapes(w.ctx, ok, Nothing, false);
    case OutSection(reply, accepted) => PassShapes(w.ctx, false, reply, accepted);
    case _ =>
  }

  /** A completion taken for the CCCD's leaves the writer waiting for good. */
  lemma MistakenCompletionStalls(w: World, s: Step)
    requires Inv(w) && Enabled(w, s) && w.pc.Pumping? && w.ctx.outInflight && !w.env.c1Busy
    ensures !Distinct(w.ctx)
    ensures Next(w, s).log.written == w.log.written
    ensures !Next(w, s).pc.Ended? ==> Next(w, s).ctx.outInflight && !Next(w, s).env.c1Busy
  {
    match s
    case Host(h) => HostHasShape(w, h);
    case Run(r) => BusyPumpsWriteNothing(w, r);
    case _ =>
  }

  /** Such a completion has come: the flag is set and nothing outstanding will clear it. */
  predicate Mistaken(w: World) {
    (w.pc.Pumping? && w.ctx.outInflight && !w.env.c1Busy) || w.pc.Ended?
  }

  lemma EndedStays(w: World, s: Step)
    requires Enabled(w, s) && w.pc.Ended?
    ensures Next(w, s).pc.Ended? && Next(w, s).log.written == w.log.written
  {
  }

  lemma PumpsStayOrEnd(w: World, s: Step)
    requires Enabled(w, s) && w.pc.Pumping?
    ensures Next(w, s).pc.Pumping? || Next(w, s).pc.Ended?
  {
  }

  lemma MistakenNext(ws: seq<World>, steps: seq<Step>, k: nat)
    requires IsRun(ws, steps) && k < |steps| && Mistaken(ws[k])
    ensures Mistaken(ws[k + 1]) && ws[k + 1].log.written == ws[k].log.written
  {
    assert StepAt(ws, steps, k);
    RunInv(ws, steps, k);
    if ws[k].pc.Ended? {
      EndedStays(ws[k], steps[k]);
    } else {
      MistakenCompletionStalls(ws[k], steps[k]);
      PumpsStayOrEnd(ws[k], steps[k]);
    }
  }

  /** Over a run: after a mistaken completion nothing is ever written again. */
  lemma {:induction false} MistakenForGood(ws: seq<World>, steps: seq<Step>, i: nat, j: nat)
    requires IsRun(ws, steps) && i <= j < |ws| && Mistaken(ws[i])
    ensures Mistaken(ws[j]) && ws[j].log.written == ws[i].log.written
    decreases j
  {
    if i < j {
      MistakenForGood(ws, steps, i, j - 1);
      MistakenNext(ws, steps, j - 1);
    }
  }

  lemma WriteIsMistaken(w: World, c2: nat)
    requires Reachable(w) && w.hook.HookIdle? && w.pc.Pumping? && w.outPc.Running?
    requires w.ctx.disc.c1Val == Some(c2 + 1) && w.ctx.disc.c2Val == Some(c2)
    requires !w.ctx.failed && !w.ctx.outInflight && !w.env.hasData
    ensures exists n :: Reachable(n) && n.pc.Pumping? && Mistaken(n)
  {
    NextIsReachable(w, BtpChange(true, true));
    var w1 := Next(w, BtpChange(true, true));
    var send := Run(OutSection(Produced([1]), true));
    NextIsReachable(w1, send);
    var w2 := Next(w1, send);
    NextIsReachable(w2, Host(C1Complete(0)));
    assert Mistaken(Next(w2, Host(C1Complete(0))));
  }

  /** It does come, whenever the handle of `C1` follows that of `C2`, with the first write. */
  lemma MistakenIsReachable(c2: nat)
    ensures exists w :: Reachable(w) && w.pc.Pumping? && Mistaken(w)
  {
    SubscribeIsReachable(c2 + 1, c2);
    var w := AtSubscribe(c2 + 1, c2);
    HookIsReachable(w, CccdComplete(0));
    var w1 := w.(ctx := w.ctx.(disc := w.ctx.disc.(subscribed := true)),
                 env := START.env, log := START.log.(cccdOk := true));
    NextIsReachable(w1, Run(Advance(true)));
    WriteIsMistaken(Next(w1, Run(Advance(true))), c2);
  }

  // ----- A subscription that is refused --------------------------------------------------------

  /** The run waits for a subscription that was refused. */
  predicate Refused(w: World) {
    AtStage(w.pc) && w.pc.stage.SubscribeStage? && !w.env.cccdBusy && !w.ctx.disc.subscribed && !w.ctx.failed
  }

  /** If the CCCD write completes with an error the run waits ... */
  lemma RefusedSubscriptionHangs(w: World, status: int)
    requires AtStage(w.pc) && w.pc.stage.SubscribeStage? && !w.ctx.failed && Enabled(w, Host(CccdComplete(status)))
    ensures Refused(Next(w, Host(CccdComplete(status)))) <==> status != 0
  {
  }

  lemma HooksLeaveRefused(w: World, h: HostStep)
    requires Setup(w) && Refused(w) && HostEnabled(w, h) && !h.Disconnect?
    ensures !HostNext(w, h).ctx.failed && !HostNext(w, h).ctx.disc.subscribed
  {
    match h
    case ConnectDone(_, _) =>
    case Service(_) =>
    case Characteristic(_) =>
    case HookContinue =>
    case _ =>
  }

  /** ... until the link drops, whatever else happens. */
  lemma RefusedStays(w: World, s: Step)
    requires Inv(w) && Refused(w) && Enabled(w, s) && s != Host(Disconnect)
    ensures Refused(Next(w, s))
  {
    match s
    case Host(h) =>
      HostHasShape(w, h);
      HooksLeaveRefused(w, h);
    case _ =>
  }

  lemma RefusedNext(ws: seq<World>, steps: seq<Step>, k: nat)
    requires IsRun(ws, steps) && k < |steps| && Refused(ws[k]) && steps[k] != Host(Disconnect)
    ensures Refused(ws[k + 1])
  {
    assert StepAt(ws, steps, k);
    RunInv(ws, steps, k);
    RefusedStays(ws[k], steps[k]);
  }

  /** Over a run: it waits until the link drops. */
  lemma {:induction false} RefusedForGood(ws: seq<World>, steps: seq<Step>, i: nat, j: nat)
    requires IsRun(ws, steps) && i <= j < |ws| && Refused(ws[i])
    requires forall k | i <= k < j :: steps[k] != Host(Disconnect)
    ensures Refused(ws[j])
    decreases j
  {
    if i < j {
      RefusedForGood(ws, steps, i, j - 1);
      RefusedNext(ws, steps, j - 1);
    }
  }

  /** It does come to that, whatever the handles. */
  lemma RefusedIsReachable(c1: nat, c2: nat)
    ensures Reachable(Next(AtSubscribe(c1, c2), Host(CccdComplete(1))))
    ensures Refused(Next(AtSubscribe(c1, c2), Host(CccdComplete(1))))
  {
    SubscribeIsReachable(c1, c2);
    NextIsReachable(AtSubscribe(c1, c2), Host(CccdComplete(1)));
  }
}
