/** Where the guarantees of the NimBLE peripheral end, with the runs that get there. */
module NimbleLimits {
  import opened Base
  import opened BtpEngine
  import opened NimbleState
  import opened NimblePeripheral
  import opened NimbleRuns

  // ----- Reaching a state ----------------------------------------------------------------------

  ghost predicate Reachable(w: World) {
    exists ws: seq<World>, steps: seq<Step> :: IsPath(ws, steps) && ws[|steps|] == w
  }

  lemma StartIsReachable()
    ensures Reachable(START)
  {
    assert IsPath([START], []) && [START][0] == START;
  }

  lemma NextIsReachable(w: World, s: Step)
    requires Reachable(w) && Enabled(w, s)
    ensures Reachable(Next(w, s))
  {
    var ws: seq<World>, steps: seq<Step> :| IsPath(ws, steps) && ws[|steps|] == w;
    var more, longer := ws + [Next(w, s)], steps + [s];
    forall i | 0 <= i < |longer|
      ensures StepAt(more, longer, i)
    {
      if i < |steps| {
        assert StepAt(ws, steps, i);
        assert more[i] == ws[i] && more[i + 1] == ws[i + 1] && longer[i] == steps[i];
      }
    }
    assert IsPath(more, longer) && more[|longer|] == Next(w, s);
  }

  /** The host comes in sync. */
  lemma SyncHook(w: World)
    requires Reachable(w) && w.hook.HookIdle? && !Locked(w)
    ensures Reachable(w.(ctx := RequestAdvertising(w.ctx).(notifyOutgoing := true),
                         env := w.env.(synced := true, advLost := false)))
  {
    NextIsReachable(w, Host(HostSync));
    NextIsReachable(Next(w, Host(HostSync)), Host(HookContinue));
  }

  /** A peer has connected, and the hook has run to its end. */
  function Linked(w: World): World {
    w.(ctx := ConnectLocked(w.ctx, 0, 0, None).(outNack := false, notifyIncoming := true),
       env := w.env.(advertising := false),
       log := w.log.(links := w.log.links + 1, clean := true, written := [], accepted := [], fed := [],
                     emitted := [], completed := 0))
  }

  lemma ConnectHook(w: World)
    requires Reachable(w) && w.hook.HookIdle? && !Locked(w) && !w.env.pending
    requires w.env.synced && w.env.advertising && w.ctx.connection.None?
    ensures Reachable(Linked(w))
  {
    var w1 := Next(w, Host(Connect(0, 0, None)));
    NextIsReachable(w, Host(Connect(0, 0, None)));
    NextIsReachable(w1, Host(HookContinue));
    NextIsReachable(AfterHook(w1), Host(HookContinue));
  }

  /** The peer has gone, and the hook has run to its end. */
  function Dropped(w: World): World {
    w.(ctx := DisconnectLocked(w.ctx).(outNack := false, notifyIncoming := true, notifyOutgoing := true),
       env := w.env.(pending := false, advLost := false))
  }

  lemma DisconnectHook(w: World)
    requires Reachable(w) && w.hook.HookIdle? && !Locked(w)
    ensures Reachable(Dropped(w))
  {
    var w1 := Next(w, Host(Disconnect));
    NextIsReachable(w, Host(Disconnect));
    NextIsReachable(w1, Host(HookContinue));
    NextIsReachable(AfterHook(w1), Host(HookContinue));
    NextIsReachable(AfterHook(AfterHook(w1)), Host(HookContinue));
  }

  /** With nothing to feed the incoming pump parks, synced if there is a connection. */
  lemma IncomingRests(w: World)
    requires Reachable(w) && w.inPc.InRunning? && !Locked(w) && w.ctx.inData == []
    ensures Reachable(
              if w.ctx.connection.None? then w.(inPc := InParked)
              else w.(ctx := SyncBtp(w.ctx).0, inPc := InParked, env := w.env.(btp := Synced(w))))
  {
    var pass := Incoming(InPass(true));
    NextIsReachable(w, pass);
    NextIsReachable(Next(w, pass), Incoming(InPark));
    assert w.uses + [] == w.uses;
  }

  /** With nobody subscribed the outgoing pump parks. */
  lemma OutgoingRests(w: World)
    requires Reachable(w) && w.outPc.AtSection? && !w.ctx.Subscribed()
    ensures Reachable(w.(outPc := OutParked))
  {
    var pass := Outgoing(OutPass(Nothing));
    NextIsReachable(w, pass);
    NextIsReachable(Next(w, pass), Outgoing(OutPark));
    assert w.uses + [] == w.uses;
  }

  /** A request to advertise is carried out, and the pump parks. */
  lemma OutgoingAdvertises(w: World)
    requires Reachable(w) && w.outPc.AtTop? && w.ctx.needAdvertise && w.ctx.connection.None?
    ensures Reachable(w.(ctx := w.ctx.(needAdvertise := false), outPc := OutParked,
                         env := w.env.(advertising := true, advLost := false)))
  {
    NextIsReachable(w, Outgoing(OutTake));
    var w1 := Next(w, Outgoing(OutTake));
    NextIsReachable(w1, Outgoing(OutAdvertise(true)));
    OutgoingRests(Next(w1, Outgoing(OutAdvertise(true))));
  }

  /** A wake-up with no request and nobody subscribed. */
  lemma OutgoingTurns(w: World)
    requires Reachable(w) && w.outPc.OutParked? && w.ctx.notifyOutgoing
    requires !w.ctx.needAdvertise && !w.ctx.Subscribed()
    ensures Reachable(w.(ctx := w.ctx.(notifyOutgoing := false)))
  {
    NextIsReachable(w, Outgoing(OutWakeSignalled));
    var w1 := Next(w, Outgoing(OutWakeSignalled));
    NextIsReachable(w1, Outgoing(OutTake));
    OutgoingRests(Next(w1, Outgoing(OutTake)));
  }

  /** Both pumps are parked on a live connection that is not subscribed and has sent nothing. */
  predicate Resting(w: World) {
    && w.hook.HookIdle? && w.inPc.InParked? && w.outPc.OutParked? && w.env.synced
    && w.ctx.connection.Some? && !w.ctx.Subscribed() && w.ctx.inData == []
    && !w.ctx.needAdvertise && !w.ctx.notifyOutgoing && !w.env.pending && !w.env.advertising
  }

  /** In sync, both pumps parked, advertising. */
  lemma AdvertisingIsReachable()
    ensures exists w ::
              && Reachable(w) && w.hook.HookIdle? && w.inPc.InParked? && w.outPc.OutParked? && w.env.synced
              && w.env.advertising && w.ctx == FRESH && w.log == START.log && w.env.btp == START.env.btp
              && !w.env.pending
  {
    StartIsReachable();
    SyncHook(START);
    var w1 := START.(ctx := RequestAdvertising(FRESH).(notifyOutgoing := true), env := START.env.(synced := true));
    OutgoingAdvertises(w1);
    var w2 := w1.(ctx := FRESH.(notifyOutgoing := true), outPc := OutParked, env := w1.env.(advertising := true));
    OutgoingTurns(w2);
    IncomingRests(w2.(ctx := FRESH));
  }

  /** The first connection, once the incoming pump has synced to it. */
  lemma FirstLinkIsReachable()
    ensures exists w ::
              && Reachable(w) && Resting(w) && w.log.links == 1 && !w.ctx.notifyIncoming
              && w.ctx.btpGen.Some? && w.env.btp.session == Some(1)
  {
    AdvertisingIsReachable();
    var w :|
      && Reachable(w) && w.hook.HookIdle? && w.inPc.InParked? && w.outPc.OutParked? && w.env.synced
      && w.env.advertising && w.ctx == FRESH && w.log == START.log && w.env.btp == START.env.btp
      && !w.env.pending;
    ConnectHook(w);
    NextIsReachable(Linked(w), Incoming(InWake));
    IncomingRests(Next(Linked(w), Incoming(InWake)));
  }

  // ----- The wrapping counter ------------------------------------------------------------------

  /**
   * Anywhere on any path, a sync leaves the engine with the live connection exactly unless the
   * counter, having moved since the last sync, is back at its old value.
   */
  lemma SyncIsExact(ws: seq<World>, steps: seq<Step>, i: nat)
    requires IsPath(ws, steps) && i < |ws| && ws[i].ctx.connection.Some?
    ensures
      var w := ws[i];
      && (w.ctx.btpGen.Some? ==> w.env.btp.session.Some?)
      && (Synced(w).session == Link(w) <==>
            || w.ctx.btpGen.None?
            || w.env.btp.session.value == w.log.links
            || (w.log.links - w.env.btp.session.value) % USIZE_VALUES != 0)
  {
    PathIsSteady(ws, steps, i);
  }

  /** The pumps take their signals after a disconnect: one finds nothing, the other advertises. */
  function Advertised(w: World): World {
    w.(ctx := w.ctx.(notifyIncoming := false, notifyOutgoing := false, needAdvertise := false),
       env := w.env.(advertising := true, advLost := false))
  }

  lemma PumpsAdvertise(w: World)
    requires Reachable(w) && w.inPc.InParked? && w.outPc.OutParked? && w.ctx.connection.None? && w.ctx.inData == []
    requires w.ctx.notifyIncoming && w.ctx.notifyOutgoing && w.ctx.needAdvertise
    ensures Reachable(Advertised(w))
  {
    NextIsReachable(w, Incoming(InWake));
    IncomingRests(Next(w, Incoming(InWake)));
    var w1 := w.(ctx := w.ctx.(notifyIncoming := false));
    NextIsReachable(w1, Outgoing(OutWakeSignalled));
    OutgoingAdvertises(Next(w1, Outgoing(OutWakeSignalled)));
  }

  /** The peer goes, the pumps advertise again, and a peer connects; the pumps have not run since. */
  function Reconnect(w: World): World {
    Linked(Advertised(Dropped(w)))
  }

  lemma ReconnectIsReachable(w: World)
    requires Reachable(w) && Resting(w)
    ensures Reachable(Reconnect(w))
  {
    DisconnectHook(w);
    PumpsAdvertise(Dropped(w));
    ConnectHook(Advertised(Dropped(w)));
  }

  lemma ReconnectKeeps(w: World)
    requires Resting(w)
    ensures
      var r := Reconnect(w);
      && Resting(r) && r.log.links == w.log.links + 1
      && r.ctx.btpGen == w.ctx.btpGen && r.env.btp == w.env.btp
  {
  }

  function Reconnected(w: World, n: nat): World {
    if n == 0 then w else Reconnect(Reconnected(w, n - 1))
  }

  lemma {:induction false} ReconnectsAreReachable(w: World, n: nat)
    requires Reachable(w) && Resting(w)
    ensures
      var r := Reconnected(w, n);
      && Reachable(r) && Resting(r) && r.log.links == w.log.links + n
      && r.ctx.btpGen == w.ctx.btpGen && r.env.btp == w.env.btp
  {
    if n > 0 {
      ReconnectsAreReachable(w, n - 1);
      ReconnectIsReachable(Reconnected(w, n - 1));
      ReconnectKeeps(Reconnected(w, n - 1));
    }
  }

  lemma ReachableIsSteady(w: World)
    requires Reachable(w)
    ensures Steady(w)
  {
    var ws: seq<World>, steps: seq<Step> :| IsPath(ws, steps) && ws[|steps|] == w;
    PathIsSteady(ws, steps, |steps|);
  }

  lemma MissedAfter(w: World, n: nat)
    requires Reachable(w) && Resting(w) && w.log.links == 1
    requires w.ctx.btpGen.Some? && w.env.btp.session == Some(1) && n == USIZE_VALUES
    ensures
      var r := Reconnected(w, n);
      Reachable(r) && r.ctx.connection.Some? && !SyncBtp(r.ctx).1 && Synced(r).session != Link(r)
  {
    ReconnectsAreReachable(w, n);
    ReachableIsSteady(Reconnected(w, n));
  }

  /**
   * A path on which it is: 2^32 times the peer goes, the pumps advertise, and a peer connects, each
   * gone again before the pumps get to run. The sync misses them all.
   */
  lemma WrapIsMissed()
    ensures exists w :: Reachable(w) && w.ctx.connection.Some? && !SyncBtp(w.ctx).1 && Synced(w).session != Link(w)
  {
    FirstLinkIsReachable();
    var w :|
      && Reachable(w) && Resting(w) && w.log.links == 1 && !w.ctx.notifyIncoming
      && w.ctx.btpGen.Some? && w.env.btp.session == Some(1);
    MissedAfter(w, USIZE_VALUES);
  }

  // ----- A read that fails ---------------------------------------------------------------------

  /** The incoming pump sleeps on a write, or is about to, with no signal left that could wake it. */
  predicate Stuck(w: World) {
    && (w.inPc.InIdle? || w.inPc.InParked?) && CanReceive(w)
    && !w.ctx.notifyIncoming && (w.hook.HookIdle? || w.hook.SignalOut?)
  }

  /**
   * A write whose data cannot be read leaves 512 zeros unsignalled. Exactly if the pump has gone to
   * sleep, or is about to, with no signal latched, it is stuck on them; a read that succeeds sticks none.
   */
  lemma FailedReadStallsExactly(w: World, read: Option<Bytes>)
    requires Enabled(w, Host(Write(read))) && w.ctx.connection.Some? && w.ctx.inData == []
    ensures
      var n := Next(w, Host(Write(read)));
      && (Stuck(n) <==> read.None? && (w.inPc.InIdle? || w.inPc.InParked?) && !w.ctx.notifyIncoming)
      && (read.None? ==> n.ctx.inData == Zeros(MAX_MTU_SIZE) && n.log.accepted == w.log.accepted + [n.ctx.inData])
  {
    assert |Zeros(MAX_MTU_SIZE)| == MAX_MTU_SIZE;
  }

  /** A pump does get stuck so. */
  lemma StuckIsReachable()
    ensures exists w :: Reachable(w) && Stuck(w) && w.inPc.InParked? && w.ctx.inData == Zeros(MAX_MTU_SIZE)
  {
    FirstLinkIsReachable();
    var w :|
      && Reachable(w) && Resting(w) && w.log.links == 1 && !w.ctx.notifyIncoming
      && w.ctx.btpGen.Some? && w.env.btp.session == Some(1);
    FailedReadStallsExactly(w, None);
    NextIsReachable(w, Host(Write(None)));
  }

  /** The incoming pump's own steps to its next section. */
  function ToSection(pc: InPc): seq<Step> {
    match pc
    case InIdle => [Incoming(InPark), Incoming(InWake)]
    case InParked => [Incoming(InWake)]
    case _ => []
  }

  lemma SectionFeeds(w: World)
    requires w.inPc.InRunning? && !Locked(w) && CanReceive(w)
    ensures
      var end := Play(w, [Incoming(InPass(true))]);
      && end.Some? && end.value.ctx.inData == []
      && end.value.log.fed == w.log.fed + [w.ctx.inData] && end.value.log.written == w.log.written
  {
    PlayFirst(w, Incoming(InPass(true)), []);
    assert [Incoming(InPass(true))] + [] == [Incoming(InPass(true))];
  }

  lemma WakeFeeds(w: World)
    requires w.inPc.InParked? && w.ctx.notifyIncoming && !Locked(w) && CanReceive(w)
    ensures
      var end := Play(w, [Incoming(InWake)] + [Incoming(InPass(true))]);
      && end.Some? && end.value.ctx.inData == []
      && end.value.log.fed == w.log.fed + [w.ctx.inData] && end.value.log.written == w.log.written
  {
    PlayFirst(w, Incoming(InWake), [Incoming(InPass(true))]);
    SectionFeeds(Next(w, Incoming(InWake)));
  }

  /** Any other pump takes the zeros for a packet: BTP is fed 512 bytes that nobody wrote. */
  lemma FailedReadIsFed(w: World)
    requires Enabled(w, Host(Write(None))) && w.ctx.connection.Some? && w.ctx.inData == []
    requires !w.inPc.InStopped? && !Stuck(Next(w, Host(Write(None))))
    ensures
      var end := Play(Next(w, Host(Write(None))), ToSection(w.inPc) + [Incoming(InPass(true))]);
      && end.Some? && end.value.ctx.inData == []
      && end.value.log.fed == w.log.fed + [Zeros(MAX_MTU_SIZE)] && end.value.log.written == w.log.written
  {
    FailedReadStallsExactly(w, None);
    var n, pass := Next(w, Host(Write(None))), Incoming(InPass(true));
    if w.inPc.InIdle? {
      assert ToSection(w.inPc) + [pass] == [Incoming(InPark)] + ([Incoming(InWake)] + [pass]);
      PlayFirst(n, Incoming(InPark), [Incoming(InWake)] + [pass]);
      WakeFeeds(Next(n, Incoming(InPark)));
    } else if w.inPc.InParked? {
      WakeFeeds(n);
    } else {
      assert ToSection(w.inPc) + [pass] == [pass];
      SectionFeeds(n);
    }
  }

  /** The link, or the task with its pumps, ends. */
  predicate EndsLink(s: Step) {
    s.Restart? || s.Rerun? || (s.Host? && (s.h.Connect? || s.h.Disconnect?))
  }

  /** Stuck on a write, or stopped with the write still there. */
  predicate Held(w: World) {
    Stuck(w) || (w.inPc.InStopped? && CanReceive(w))
  }

  lemma StuckHost(w: World, h: HostStep)
    requires Held(w) && HostEnabled(w, h) && !h.Connect? && !h.Disconnect?
    ensures Held(HostNext(w, h))
    ensures HostNext(w, h).log.fed == w.log.fed && HostNext(w, h).log.accepted == w.log.accepted
  {
  }

  lemma StuckPass(w: World, reply: Reply)
    requires Held(w) && OutEnabled(w, OutPass(reply))
    ensures var n := AfterOutPass(w, OutgoingPass(w.ctx, reply)); Held(n) && n.log == w.log
  {
  }

  lemma StuckSend(w: World, o: OutStep)
    requires Steady(w) && Held(w) && OutEnabled(w, o) && !o.OutPass?
    ensures Held(OutNext(w, o))
    ensures OutNext(w, o).log.fed == w.log.fed && OutNext(w, o).log.accepted == w.log.accepted
  {
  }

  /** A stuck pump stays so, taking no write and feeding none, until its link or its task ends. */
  lemma StuckStays(w: World, s: Step)
    requires Steady(w) && Held(w) && Enabled(w, s) && !EndsLink(s)
    ensures Held(Next(w, s))
    ensures Next(w, s).log.fed == w.log.fed && Next(w, s).log.accepted == w.log.accepted
  {
    match s
    case Host(h) => StuckHost(w, h);
    case Outgoing(OutPass(reply)) => StuckPass(w, reply);
    case Outgoing(o) => StuckSend(w, o);
    case _ =>
  }

  lemma StuckNext(ws: seq<World>, steps: seq<Step>, k: nat)
    requires IsPath(ws, steps) && k < |steps| && Held(ws[k]) && !EndsLink(steps[k])
    ensures Held(ws[k + 1]) && ws[k + 1].log.fed == ws[k].log.fed && ws[k + 1].log.accepted == ws[k].log.accepted
  {
    assert StepAt(ws, steps, k);
    PathIsSteady(ws, steps, k);
    StuckStays(ws[k], steps[k]);
  }

  /** Over a run: from when the pump is stuck until its link or its task ends, no write is taken or fed. */
  lemma {:induction false} StuckForGood(ws: seq<World>, steps: seq<Step>, i: nat, j: nat)
    requires IsPath(ws, steps) && i <= j < |ws| && Held(ws[i])
    requires forall k | i <= k < j :: !EndsLink(steps[k])
    ensures Held(ws[j]) && ws[j].log.fed == ws[i].log.fed && ws[j].log.accepted == ws[i].log.accepted
    decreases j
  {
    if i < j {
      StuckForGood(ws, steps, i, j - 1);
      StuckNext(ws, steps, j - 1);
    }
  }

  // ----- An attempt to advertise that fails ----------------------------------------------------

  /**
   * An attempt to advertise is not retried: whether or not it succeeded, the pump parks with nothing
   * left to wake it, so the node is discoverable exactly if it did.
   */
  lemma AdvertisingIsNotRetried(w: World, ok: bool)
    requires w.hook.HookIdle? && w.outPc.AtAdvertise? && w.ctx.connection.None?
    requires !w.env.advertising && !w.ctx.needAdvertise && !w.ctx.notifyOutgoing && !w.env.btp.ready
    ensures
      var end := Play(w, [Outgoing(OutAdvertise(ok)), Outgoing(OutPass(Nothing)), Outgoing(OutPark)]);
      && end.Some? && end.value.outPc.OutParked? && end.value.hook.HookIdle?
      && (end.value.env.advertising <==> ok) && !end.value.ctx.needAdvertise
      && !Enabled(end.value, Outgoing(OutWakeSignalled)) && !Enabled(end.value, Outgoing(OutWakeBtp))
  {
    var a, b, c := Outgoing(OutAdvertise(ok)), Outgoing(OutPass(Nothing)), Outgoing(OutPark);
    var w1 := Next(w, a);
    var w2 := Next(w1, b);
    PlayFirst(w, a, [b, c]);
    PlayFirst(w1, b, [c]);
    PlayFirst(w2, c, []);
    assert [a] + [b, c] == [a, b, c] && [b] + [c] == [b, c] && [c] + [] == [c];
  }

  /** In sync and without a connection, but not advertising, and with nothing that would start it. */
  predicate Silent(w: World) {
    && w.hook.HookIdle? && w.outPc.OutParked? && w.env.synced && w.ctx.connection.None?
    && !w.env.advertising && !w.ctx.needAdvertise
    && !Enabled(w, Outgoing(OutWakeSignalled)) && !Enabled(w, Outgoing(OutWakeBtp))
  }

  lemma AttemptFails(w: World)
    requires Reachable(w) && w.hook.HookIdle? && w.outPc.AtTop? && w.ctx.needAdvertise && w.env.synced
    requires w.ctx.connection.None? && !w.env.advertising && !w.ctx.notifyOutgoing && !w.env.btp.ready
    ensures exists n :: Reachable(n) && Silent(n)
  {
    NextIsReachable(w, Outgoing(OutTake));
    var w1 := Next(w, Outgoing(OutTake));
    NextIsReachable(w1, Outgoing(OutAdvertise(false)));
    var w2 := Next(w1, Outgoing(OutAdvertise(false)));
    OutgoingRests(w2);
    assert Silent(w2.(outPc := OutParked));
  }

  /** A node does fall silent so, at its first attempt. */
  lemma SilentIsReachable()
    ensures exists w :: Reachable(w) && Silent(w)
  {
    StartIsReachable();
    NextIsReachable(START, Outgoing(OutTake));
    OutgoingRests(Next(START, Outgoing(OutTake)));
    var w1 := START.(outPc := OutParked);
    SyncHook(w1);
    var w2 := w1.(ctx := RequestAdvertising(FRESH).(notifyOutgoing := true), env := w1.env.(synced := true));
    NextIsReachable(w2, Outgoing(OutWakeSignalled));
    AttemptFails(Next(w2, Outgoing(OutWakeSignalled)));
  }
}
