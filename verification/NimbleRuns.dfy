/** What holds over every run of the NimBLE peripheral. */
module NimbleRuns {
  import opened Base
  import opened BtpEngine
  import opened NimbleState
  import opened NimblePeripheral
  import S = GattSession

  /** The `i`-th step of a run. */
  ghost predicate StepAt(ws: seq<World>, steps: seq<Step>, i: int) {
    && |ws| == |steps| + 1 && 0 <= i < |steps|
    && Enabled(ws[i], steps[i]) && ws[i + 1] == Next(ws[i], steps[i])
  }

  /** Any run, however long the pumps are kept from syncing. */
  ghost predicate IsPath(ws: seq<World>, steps: seq<Step>) {
    && |ws| == |steps| + 1
    && ws[0] == START
    && (forall i | 0 <= i < |steps| :: StepAt(ws, steps, i))
  }

  /** On any path, however long the pumps are kept from syncing. */
  lemma {:induction false} PathIsSteady(ws: seq<World>, steps: seq<Step>, i: nat)
    requires IsPath(ws, steps) && i < |ws|
    ensures Steady(ws[i])
  {
    if i == 0 {
      StartInv();
    } else {
      PathIsSteady(ws, steps, i - 1);
      assert StepAt(ws, steps, i - 1);
      SteadyPreserved(ws[i - 1], steps[i - 1]);
    }
  }

  /** A run in which fewer than 2^32 connects fall between two syncs. */
  ghost predicate IsRun(ws: seq<World>, steps: seq<Step>) {
    IsPath(ws, steps) && (forall i | 0 <= i < |ws| :: InWidth(ws[i]))
  }

  lemma {:induction false} RunInv(ws: seq<World>, steps: seq<Step>, i: nat)
    requires IsRun(ws, steps) && i < |ws|
    ensures Inv(ws[i])
  {
    if i == 0 {
      StartInv();
    } else {
      RunInv(ws, steps, i - 1);
      assert StepAt(ws, steps, i - 1);
      InvPreserved(ws[i - 1], steps[i - 1]);
    }
  }

  // ----- The steps add up to the methods of the context ----------------------------------------

  /** Play a list of steps, if each is enabled in turn. */
  function Play(w: World, steps: seq<Step>): Option<World>
    decreases |steps|
  {
    if steps == [] then Some(w)
    else if Enabled(w, steps[0]) then Play(Next(w, steps[0]), steps[1..])
    else None
  }

  lemma PlayFirst(w: World, s: Step, rest: seq<Step>)
    requires Enabled(w, s)
    ensures Play(w, [s] + rest) == Play(Next(w, s), rest)
  {
    assert ([s] + rest)[1..] == rest;
  }

  /** The last two steps of a hook. */
  lemma TailAddsUp(w: World, ctx: Context, hook: HookPc)
    requires !w.hook.HookIdle? && AfterHook(w) == w.(ctx := ctx, hook := hook)
    requires hook.SignalIn? || hook.SignalOut?
    ensures
      var end := Play(w, [Host(HookContinue), Host(HookContinue)]);
      && end.Some? && end.value.hook.HookIdle?
      && end.value.ctx == if hook.SignalIn? then ctx.(notifyIncoming := true) else ctx.(notifyOutgoing := true)
  {
    var next := Host(HookContinue);
    PlayFirst(w, next, [next]);
    PlayFirst(AfterHook(w), next, []);
    assert [next] + [next] == [next, next] && [next] + [] == [next];
  }

  /** An uninterrupted hook does to the context what the context's method does. */
  lemma ConnectAddsUp(w: World, handle: nat, peer: nat, mtu: Option<nat>)
    requires w.hook.HookIdle? && !Locked(w) && !w.env.pending
    ensures
      var end := Play(w, [Host(Connect(handle, peer, mtu)), Host(HookContinue), Host(HookContinue)]);
      && end.Some? && end.value.hook.HookIdle?
      && end.value.ctx == ConnectLocked(w.ctx, handle, peer, mtu).(outNack := false, notifyIncoming := true)
  {
    var start := Host(Connect(handle, peer, mtu));
    var w1 := Next(w, start);
    PlayFirst(w, start, [Host(HookContinue), Host(HookContinue)]);
    assert [start] + [Host(HookContinue), Host(HookContinue)] == [start, Host(HookContinue), Host(HookContinue)];
    TailAddsUp(w1, w1.ctx.(outNack := false), SignalIn);
  }

  lemma DisconnectAddsUp(w: World)
    requires w.hook.HookIdle? && !Locked(w)
    ensures
      var next := Host(HookContinue);
      var end := Play(w, [Host(Disconnect), next, next, next]);
      && end.Some? && end.value.hook.HookIdle?
      && end.value.ctx ==
         DisconnectLocked(w.ctx).(outNack := false, notifyIncoming := true, notifyOutgoing := true)
  {
    var next := Host(HookContinue);
    var w1 := Next(w, Host(Disconnect));
    PlayFirst(w, Host(Disconnect), [next, next, next]);
    assert [Host(Disconnect)] + [next, next, next] == [Host(Disconnect), next, next, next];
    PlayFirst(w1, next, [next, next]);
    assert [next] + [next, next] == [next, next, next];
    var w2 := AfterHook(w1);
    TailAddsUp(w2, w2.ctx.(notifyIncoming := true), SignalOut);
  }

  function ReturningPath(completion: Option<int>): seq<Step> {
    if completion.Some? && Terminal(true, completion.value) then
      [Outgoing(OutReentrant(completion.value))] + ([Outgoing(OutReentrantSignal)] + ([Outgoing(OutReturn)] + []))
    else [Outgoing(OutReturn)] + []
  }

  /** The steps of a send that was produced, with the completion inside, if there is one. */
  function SendingPath(accepted: bool, completion: Option<int>): seq<Step> {
    [Outgoing(OutMark)] + ([Outgoing(OutIndicate(accepted))] + ReturningPath(completion))
  }

  lemma ReturningAddsUp(w: World, accepted: bool, completion: Option<int>)
    requires w.ctx.outNack
    requires if accepted then w.outPc.Sending? && w.env.pending else w.outPc.Refused?
    ensures
      var end := Play(w, ReturningPath(completion));
      && end.Some? && !Locked(end.value)
      && end.value.ctx == AfterSend(w.ctx, accepted, completion)
  {
    var ret := Outgoing(OutReturn);
    if completion.Some? && Terminal(true, completion.value) {
      var inside, signal := Outgoing(OutReentrant(completion.value)), Outgoing(OutReentrantSignal);
      var w1 := Next(w, inside);
      var w2 := Next(w1, signal);
      PlayFirst(w, inside, [signal] + ([ret] + []));
      PlayFirst(w1, signal, [ret] + []);
      PlayFirst(w2, ret, []);
    } else {
      PlayFirst(w, ret, []);
    }
  }

  /** The end of the outgoing section, uninterrupted, does to the context what the pump's method does. */
  lemma SendingAddsUp(w: World, accepted: bool, completion: Option<int>)
    requires w.outPc.Polled?
    ensures
      var end := Play(w, SendingPath(accepted, completion));
      && end.Some? && !Locked(end.value)
      && end.value.ctx == AfterSend(w.ctx, accepted, completion)
  {
    var mark, indicate := Outgoing(OutMark), Outgoing(OutIndicate(accepted));
    PlayFirst(w, mark, [indicate] + ReturningPath(completion));
    PlayFirst(Next(w, mark), indicate, ReturningPath(completion));
    ReturningAddsUp(Next(Next(w, mark), indicate), accepted, completion);
  }

  // ----- Refinement of the session machine -----------------------------------------------------

  /** The session a world implements: only the flag, the counters and the live inbox matter. */
  function View(w: World): S.Session {
    S.Session(w.log.links, Link(w), w.ctx.Subscribed(),
              if w.ctx.connection.Some? then w.ctx.inData else [],
              w.log.accepted, w.log.fed, w.env.pending, w.log.emitted, w.log.completed)
  }

  function HostEvent(w: World, h: HostStep): S.Event {
    match h
    case Connect(_, _, _) => S.Open
    case Disconnect => if w.ctx.connection.Some? then S.Close else S.Stay
    case Write(read) =>
      var stored := WriteLocked(w.ctx, read).inData;
      if w.ctx.connection.Some? && w.ctx.inData == [] && stored != [] then S.Accept(stored) else S.Stay
    case SubscriptionChanged(handle, attr, indicate) =>
      if attr == w.ctx.c2Handle && w.ctx.connection.Some? && w.ctx.connection.value.handle == handle
      then S.Subscribe(indicate) else S.Stay
    case NotifyComplete(indication, status) => if Terminal(indication, status) then S.Complete else S.Stay
    case _ => S.Stay
  }

  function EventOf(w: World, s: Step): S.Event
    requires Enabled(w, s)
  {
    match s
    case Host(h) => HostEvent(w, h)
    case Incoming(InPass(ok)) =>
      var p := IncomingPass(w.ctx, ok);
      if p.outcome.Processed? then S.Deliver(BtpAfter(w, p).session) else S.Stay
    case Outgoing(OutIndicate(ok)) =>
      if ok then S.Emit(w.outPc.frame.data, w.outPc.frame.engine) else S.Stay
    case Outgoing(OutReentrant(_)) => if w.outPc.Sending? then S.Complete else S.Stay
    case Restart => if w.ctx.connection.Some? then S.Close else S.Stay
    case _ => S.Stay
  }

  lemma WriteSimulates(w: World, read: Option<Bytes>)
    requires Steady(w) && HostEnabled(w, Write(read))
    ensures S.Allowed(View(w), HostEvent(w, Write(read)))
    ensures View(AfterWrite(w, read)) == S.After(View(w), HostEvent(w, Write(read)))
  {
  }

  lemma LinkSimulates(w: World, h: HostStep)
    requires Steady(w) && HostEnabled(w, h) && (h.Connect? || h.Disconnect? || h.SubscriptionChanged?)
    ensures S.Allowed(View(w), HostEvent(w, h))
    ensures View(HostNext(w, h)) == S.After(View(w), HostEvent(w, h))
  {
    match h
    case Connect(_, _, _) =>
    case Disconnect =>
    case _ =>
  }

  lemma HostSimulates(w: World, h: HostStep)
    requires Steady(w) && HostEnabled(w, h)
    ensures S.Allowed(View(w), HostEvent(w, h))
    ensures View(HostNext(w, h)) == S.After(View(w), HostEvent(w, h))
  {
    match h
    case Connect(_, _, _) => LinkSimulates(w, h);
    case Disconnect => LinkSimulates(w, h);
    case SubscriptionChanged(_, _, _) => LinkSimulates(w, h);
    case Write(read) => WriteSimulates(w, read);
    case NotifyComplete(_, _) =>
    case HookContinue =>
    case _ =>
  }

  lemma InPassSimulates(w: World, ok: bool, p: Pass)
    requires Steady(w) && p == IncomingPass(w.ctx, ok)
    ensures p.outcome.Processed? ==>
              CanReceive(w) && View(AfterInPass(w, p)) == View(w).(inbox := [], fed := w.log.fed + [w.ctx.inData])
    ensures !p.outcome.Processed? ==> View(AfterInPass(w, p)) == View(w)
  {
  }

  lemma InSimulates(w: World, i: InStep)
    requires Steady(w) && InEnabled(w, i)
    ensures
      var e := S.Retagged(EventOf(w, Incoming(i)), Link(w));
      S.Allowed(View(w), e) && View(InNext(w, i)) == S.After(View(w), e)
  {
    match i
    case InPass(ok) => InPassSimulates(w, ok, IncomingPass(w.ctx, ok));
    case _ =>
  }

  lemma OutSimulates(w: World, o: OutStep)
    requires Steady(w) && OutEnabled(w, o)
    ensures
      var e := S.Retagged(EventOf(w, Outgoing(o)), Link(w));
      S.Allowed(View(w), e) && View(OutNext(w, o)) == S.After(View(w), e)
  {
  }

  /** Every step of the peripheral is one step of the session machine, or none, but for the engine's session. */
  lemma Simulates(w: World, s: Step)
    requires Steady(w) && Enabled(w, s)
    ensures
      var e := S.Retagged(EventOf(w, s), Link(w));
      S.Allowed(View(w), e) && View(Next(w, s)) == S.After(View(w), e)
  {
    match s
    case Host(h) => HostSimulates(w, h);
    case Incoming(i) => InSimulates(w, i);
    case Outgoing(o) => OutSimulates(w, o);
    case _ =>
  }

  /** Within the width of the counter, that is the session of the live connection. */
  lemma EventIsTagged(w: World, s: Step)
    requires Inv(w) && InWidth(w) && Enabled(w, s)
    ensures S.Retagged(EventOf(w, s), Link(w)) == EventOf(w, s)
  {
    if w.ctx.connection.Some? {
      SyncedForLink(w);
    }
    match s
    case Host(h) =>
    case Incoming(InPass(_)) =>
    case Outgoing(OutIndicate(_)) =>
    case _ =>
  }

  function Views(ws: seq<World>): seq<S.Session> {
    seq(|ws|, i requires 0 <= i < |ws| => View(ws[i]))
  }

  ghost function Events(ws: seq<World>, steps: seq<Step>): seq<S.Event>
    requires IsPath(ws, steps)
  {
    seq(|steps|, i requires StepAt(ws, steps, i) => EventOf(ws[i], steps[i]))
  }

  /** The events as seen without regard to the engine: each frame and packet taken for the live connection's. */
  ghost function PlainEvents(ws: seq<World>, steps: seq<Step>): seq<S.Event>
    requires IsPath(ws, steps)
  {
    seq(|steps|, i requires StepAt(ws, steps, i) => S.Retagged(EventOf(ws[i], steps[i]), Link(ws[i])))
  }

  lemma PathSimulates(ws: seq<World>, steps: seq<Step>, i: nat)
    requires IsPath(ws, steps) && i < |steps|
    ensures S.Allowed(View(ws[i]), PlainEvents(ws, steps)[i])
    ensures View(ws[i + 1]) == S.After(View(ws[i]), PlainEvents(ws, steps)[i])
  {
    PathIsSteady(ws, steps, i);
    assert StepAt(ws, steps, i);
    Simulates(ws[i], steps[i]);
  }

  lemma StartShows()
    ensures View(START) == S.START
  {
  }

  /** But for the engine's sessions, what any path shows of itself is a run of the session machine. */
  lemma PathRefinesSession(ws: seq<World>, steps: seq<Step>)
    requires IsPath(ws, steps)
    ensures S.IsRun(Views(ws), PlainEvents(ws, steps)) && Views(ws)[0] == S.START
  {
    StartShows();
    forall i | 0 <= i < |steps|
      ensures S.Allowed(Views(ws)[i], PlainEvents(ws, steps)[i])
      ensures Views(ws)[i + 1] == S.After(Views(ws)[i], PlainEvents(ws, steps)[i])
    {
      PathSimulates(ws, steps, i);
    }
  }

  /** Refinement: what a run shows of itself, the engine's sessions included, is a run of the session machine. */
  lemma RunRefinesSession(ws: seq<World>, steps: seq<Step>)
    requires IsRun(ws, steps)
    ensures S.IsRun(Views(ws), Events(ws, steps)) && Views(ws)[0] == S.START
  {
    PathRefinesSession(ws, steps);
    forall i | 0 <= i < |steps| ensures Events(ws, steps)[i] == PlainEvents(ws, steps)[i] {
      RunInv(ws, steps, i);
      assert StepAt(ws, steps, i);
      EventIsTagged(ws[i], steps[i]);
    }
    assert Events(ws, steps) == PlainEvents(ws, steps);
  }

  /** So every state of a path shows a sound session. */
  lemma RunIsSound(ws: seq<World>, steps: seq<Step>, i: nat)
    requires IsPath(ws, steps) && i < |ws|
    ensures S.Sound(View(ws[i]))
  {
    PathRefinesSession(ws, steps);
    S.RunIsSound(Views(ws), PlainEvents(ws, steps), i);
  }

  lemma SameKind(ws: seq<World>, steps: seq<Step>, i: nat)
    requires IsPath(ws, steps) && i < |steps|
    ensures
      var e, plain := Events(ws, steps)[i], PlainEvents(ws, steps)[i];
      && (e.Emit? <==> plain.Emit?) && (e.Complete? <==> plain.Complete?)
      && (e.Open? <==> plain.Open?) && (e.Close? <==> plain.Close?)
  {
    assert StepAt(ws, steps, i);
  }

  lemma IndicateIsEmit(ws: seq<World>, steps: seq<Step>, i: nat)
    requires IsPath(ws, steps) && i < |steps| && steps[i] == Outgoing(OutIndicate(true))
    ensures PlainEvents(ws, steps)[i].Emit?
  {
    assert StepAt(ws, steps, i);
  }

  /** Between two accepted indications the first completes, or its connection ends. */
  lemma IndicationsAreSeparated(ws: seq<World>, steps: seq<Step>, i: nat, j: nat)
    requires IsPath(ws, steps) && i < j < |steps|
    requires steps[i] == Outgoing(OutIndicate(true)) && steps[j] == Outgoing(OutIndicate(true))
    ensures exists k | i < k < j ::
              Events(ws, steps)[k].Complete? || Events(ws, steps)[k].Open? || Events(ws, steps)[k].Close?
  {
    PathRefinesSession(ws, steps);
    IndicateIsEmit(ws, steps, i);
    IndicateIsEmit(ws, steps, j);
    var plain := PlainEvents(ws, steps);
    S.EmitsAreSeparated(Views(ws), plain, i, j);
    var k :| i < k < j && (plain[k].Complete? || plain[k].Open? || plain[k].Close?);
    SameKind(ws, steps, k);
  }

  // ----- The guarantees, read off the invariant ------------------------------------------------

  /**
   * No lost wake-up. A parked outgoing pump with advertising requested, or with something to send,
   * can be woken, or a hook still has its signal to give; a parked incoming pump is never left on a
   * successfully stored write of a live connection.
   */
  lemma NoLostWakeup(ws: seq<World>, steps: seq<Step>, i: nat)
    requires IsPath(ws, steps) && i < |ws|
    ensures
      var w := ws[i];
      && (w.outPc.OutParked? && w.ctx.needAdvertise ==>
            Enabled(w, Outgoing(OutWakeSignalled)) || OutSignalDue(w))
      && (w.outPc.OutParked? && CanSend(w) ==>
            Enabled(w, Outgoing(OutWakeSignalled)) || Enabled(w, Outgoing(OutWakeBtp)) || OutSignalDue(w))
      && (w.inPc.InParked? && CanReceive(w) && w.log.readOk ==>
            Enabled(w, Incoming(InWake)) || w.hook.SignalIn?)
  {
    PathIsSteady(ws, steps, i);
  }

  /**
   * Stop and wait under re-entrancy: outside the send and outside the tail of a Connect or
   * Disconnect hook, the flag is set exactly while an indication awaits its completion. The late
   * clear of a Connect hook hides nothing: nothing is in flight and nothing can be sent until then.
   */
  lemma StopAndWait(ws: seq<World>, steps: seq<Step>, i: nat)
    requires IsPath(ws, steps) && i < |ws|
    ensures
      var w := ws[i];
      && (!w.hook.ConnectNack? && !w.hook.DisconnectNack? && !Locked(w) ==> w.ctx.outNack == w.env.pending)
      && (w.hook.ConnectNack? ==> !w.env.pending && !w.ctx.Subscribed() && !Locked(w))
      && (w.outPc.Polled? || w.outPc.Marked? ==> !w.env.pending)
      && (w.ctx.connection.Some? ==> |w.log.emitted| - w.log.completed == if w.env.pending then 1 else 0)
  {
    PathIsSteady(ws, steps, i);
  }

  /** Session isolation: every use of the engine is within the session of the live connection. */
  lemma SessionIsolation(ws: seq<World>, steps: seq<Step>, i: nat, k: nat)
    requires IsRun(ws, steps) && i < |ws| && k < |ws[i].uses|
    ensures ws[i].uses[k].link.Some? && ws[i].uses[k].engine == ws[i].uses[k].link
    ensures ws[i].uses[k].origin.Some? ==> ws[i].uses[k].origin == ws[i].uses[k].link
  {
    RunInv(ws, steps, i);
  }

  /**
   * Exactly once: on a live connection, the writes answered with success are those given to BTP
   * followed by the one in the inbox exactly if every read of the connection has succeeded.
   */
  lemma IncomingExactlyOnce(ws: seq<World>, steps: seq<Step>, i: nat)
    requires IsPath(ws, steps) && i < |ws| && ws[i].ctx.connection.Some?
    ensures ws[i].log.clean <==> ws[i].log.written == ws[i].log.fed + Slot(ws[i].ctx.inData)
    ensures ws[i].ctx.inData != [] ==> ws[i].log.origin == ws[i].log.links
  {
    PathIsSteady(ws, steps, i);
  }

  /** Never silently undiscoverable, short of a failed attempt to advertise. */
  lemma NeverSilent(ws: seq<World>, steps: seq<Step>, i: nat)
    requires IsPath(ws, steps) && i < |ws|
    requires ws[i].env.synced && ws[i].ctx.connection.None? && !ws[i].env.advLost
    ensures ws[i].env.advertising || ws[i].ctx.needAdvertise || ws[i].outPc.AtAdvertise?
  {
    PathIsSteady(ws, steps, i);
  }

  // ----- What the pumps use --------------------------------------------------------------------

  /** What the host has told about `C2` and about the live connection, if any. */
  datatype Announced = Announced(c2: nat, link: Option<Connection>) {
    predicate Names(handle: nat) {
      link.Some? && link.value.handle == handle
    }
  }

  function Told(a: Announced, h: HostStep): Announced {
    match h
    case Connect(handle, peer, mtu) => a.(link := Some(Connection(peer, handle, false, mtu)))
    case Disconnect => a.(link := None)
    case Register(attr) => a.(c2 := attr)
    case MtuChanged(handle, value) =>
      if a.Names(handle) then a.(link := Some(a.link.value.(mtu := Some(value)))) else a
    case SubscriptionChanged(handle, attr, indicate) =>
      if attr == a.c2 && a.Names(handle) then a.(link := Some(a.link.value.(subscribed := indicate))) else a
    case _ => a
  }

  /** The same read off the hooks alone: what they were called with, in order. */
  function Heard(steps: seq<Step>): Announced {
    if steps == [] then Announced(0, None)
    else
      var before := Heard(steps[..|steps| - 1]);
      match steps[|steps| - 1]
      case Restart => before.(link := None)
      case Host(h) => Told(before, h)
      case _ => before
  }

  lemma HooksAnnounce(w: World, h: HostStep)
    ensures
      var n := HostNext(w, h).ctx;
      Announced(n.c2Handle, n.connection) == Told(Announced(w.ctx.c2Handle, w.ctx.connection), h)
  {
    match h
    case Connect(_, _, _) =>
    case Write(_) =>
    case SubscriptionChanged(_, _, _) =>
    case HookContinue =>
    case _ =>
  }

  lemma PassAnnouncesNothing(w: World, reply: Reply)
    requires OutEnabled(w, OutPass(reply))
    ensures
      var n := AfterOutPass(w, OutgoingPass(w.ctx, reply)).ctx;
      n.c2Handle == w.ctx.c2Handle && n.connection == w.ctx.connection
  {
  }

  lemma SendingAnnouncesNothing(w: World, o: OutStep)
    requires OutEnabled(w, o)
    ensures OutNext(w, o).ctx.c2Handle == w.ctx.c2Handle && OutNext(w, o).ctx.connection == w.ctx.connection
  {
    match o
    case OutPass(reply) => PassAnnouncesNothing(w, reply);
    case OutReentrant(_) =>
    case OutReturn =>
    case _ =>
  }

  /** No pump and no other hook touches what was announced. */
  lemma ContextFollows(w: World, s: Step)
    requires Enabled(w, s)
    ensures
      var a, n := Announced(w.ctx.c2Handle, w.ctx.connection), Next(w, s).ctx;
      Announced(n.c2Handle, n.connection) ==
      match s
      case Restart => a.(link := None)
      case Host(h) => Told(a, h)
      case _ => a
  {
    match s
    case Host(h) => HooksAnnounce(w, h);
    case Incoming(_) =>
    case Outgoing(o) => SendingAnnouncesNothing(w, o);
    case _ =>
  }

  lemma {:induction false} ContextIsHeard(ws: seq<World>, steps: seq<Step>, i: nat)
    requires IsPath(ws, steps) && i < |ws|
    ensures Announced(ws[i].ctx.c2Handle, ws[i].ctx.connection) == Heard(steps[..i])
  {
    if i > 0 {
      ContextIsHeard(ws, steps, i - 1);
      assert StepAt(ws, steps, i - 1);
      ContextFollows(ws[i - 1], steps[i - 1]);
      assert steps[..i][..i - 1] == steps[..i - 1] && steps[..i][i - 1] == steps[i - 1];
    }
  }

  /**
   * The engine is given all of the inbox, with the peer and the latest MTU of the live connection, and
   * a frame goes to that connection, whole and on `C2`, only while it is subscribed.
   */
  lemma PumpsServeTheLink(ws: seq<World>, steps: seq<Step>, i: nat, ok: bool, reply: Reply)
    requires IsPath(ws, steps) && i < |ws| && reply.Fits()
    ensures
      var a, fed, sent := Heard(steps[..i]), IncomingPass(ws[i].ctx, ok), OutgoingPass(ws[i].ctx, reply);
      && (fed.call.Feed? <==> a.link.Some? && ws[i].ctx.inData != [])
      && (fed.call.Feed? ==>
            fed.call.mtu == a.link.value.mtu && fed.call.peer == a.link.value.peer && fed.call.data == ws[i].ctx.inData)
      && (sent.call.Poll? ==> a.link.Some? && a.link.value.subscribed && sent.call.mtu == a.link.value.mtu)
      && (sent.outcome.Send? ==>
            && a.link.Some? && a.link.value.subscribed
            && sent.outcome.handle == a.link.value.handle && sent.outcome.attr == a.c2 != 0
            && reply == Produced(sent.outcome.data))
  {
    ContextIsHeard(ws, steps, i);
  }

  // ----- Completions ---------------------------------------------------------------------------

  /**
   * A completion of the indication in flight, with any status but 0, frees the pump: the flag goes
   * down, nothing is in flight any more, and the signal follows. The status `BLE_HS_EDONE` of a
   * confirmed indication is one of them.
   */
  lemma CompletionFrees(w: World, status: int)
    requires w.env.pending && w.hook.HookIdle? && status != 0
    ensures
      var complete := Host(NotifyComplete(true, status));
      && Enabled(w, complete)
      && var n := Next(w, complete);
         && !n.ctx.outNack && !n.env.pending && n.log.completed == w.log.completed + 1
         && n.ctx == w.ctx.(outNack := false)
         && Enabled(n, Host(HookContinue))
         && Next(n, Host(HookContinue)).ctx == n.ctx.(notifyOutgoing := true)
         && Next(n, Host(HookContinue)).hook.HookIdle?
  {
  }

  /** So does one that comes while `indicate` runs. */
  lemma CompletionInsideFrees(w: World, status: int)
    requires w.outPc.Sending? && w.env.pending && status != 0
    ensures
      var complete := Outgoing(OutReentrant(status));
      && Enabled(w, complete)
      && var n := Next(w, complete);
         && !n.ctx.outNack && !n.env.pending && n.ctx == w.ctx.(outNack := false)
         && Enabled(n, Outgoing(OutReentrantSignal))
         && Next(n, Outgoing(OutReentrantSignal)).ctx == n.ctx.(notifyOutgoing := true)
  {
  }

  /** A report of status 0, or on a notification, changes nothing. */
  lemma OtherReportsChangeNothing(w: World, indication: bool, status: int)
    requires w.hook.HookIdle? && (!indication || status == 0)
    ensures Enabled(w, Host(NotifyComplete(indication, status)))
    ensures Next(w, Host(NotifyComplete(indication, status))) == w
  {
  }

  // ----- Progress ------------------------------------------------------------------------------

  /** The outgoing steps from the taking of the advertising request to an accepted indication. */
  function AfterTake(need: bool, frame: Bytes): seq<Step>
    decreases need
  {
    if need then [Outgoing(OutAdvertise(true))] + AfterTake(false, frame)
    else [Outgoing(OutPass(Produced(frame))), Outgoing(OutMark), Outgoing(OutIndicate(true))]
  }

  /** ... and from where the pump is parked. */
  function SendPath(w: World, frame: Bytes): seq<Step> {
    [Outgoing(if w.ctx.notifyOutgoing then OutWakeSignalled else OutWakeBtp)]
    + ([Outgoing(OutTake)] + AfterTake(w.ctx.needAdvertise, frame))
  }

  /** From the loop's top the pump carries the engine's frame to the host stack. */
  lemma TopSends(w: World, frame: Bytes)
    requires Steady(w) && w.outPc.AtSection?
    requires CanSend(w) && !SyncBtp(w.ctx).1 && 0 < |frame| <= MAX_MTU_SIZE
    ensures var end := Play(w, [Outgoing(OutPass(Produced(frame))), Outgoing(OutMark), Outgoing(OutIndicate(true))]);
            end.Some? && end.value.log.emitted == w.log.emitted + [frame]
  {
    var a, b, c := Outgoing(OutPass(Produced(frame))), Outgoing(OutMark), Outgoing(OutIndicate(true));
    var w1 := Next(w, a);
    assert w1.outPc.Polled? && w1.outPc.frame.data == frame;
    var w2 := Next(w1, b);
    PlayFirst(w, a, [b, c]);
    PlayFirst(w1, b, [c]);
    PlayFirst(w2, c, []);
    assert [a] + [b, c] == [a, b, c] && [b] + [c] == [b, c] && [c] + [] == [c];
  }

  lemma LoopSends(w: World, frame: Bytes)
    requires Steady(w) && w.outPc.AtTop?
    requires CanSend(w) && !SyncBtp(w.ctx).1 && 0 < |frame| <= MAX_MTU_SIZE
    ensures
      var end := Play(w, [Outgoing(OutTake)] + AfterTake(w.ctx.needAdvertise, frame));
      end.Some? && end.value.log.emitted == w.log.emitted + [frame]
  {
    var send := AfterTake(false, frame);
    var w1 := Next(w, Outgoing(OutTake));
    OutKeepsSteady(w, OutTake);
    PlayFirst(w, Outgoing(OutTake), AfterTake(w.ctx.needAdvertise, frame));
    if w.ctx.needAdvertise {
      OutKeepsSteady(w1, OutAdvertise(true));
      PlayFirst(w1, Outgoing(OutAdvertise(true)), send);
      TopSends(Next(w1, Outgoing(OutAdvertise(true))), frame);
    } else {
      TopSends(w1, frame);
    }
  }

  /** A parked pump with something to send, no hook running, gets it out in its own steps. */
  lemma ParkedPumpSends(w: World, frame: Bytes)
    requires Steady(w) && w.hook.HookIdle? && w.outPc.OutParked?
    requires CanSend(w) && !SyncBtp(w.ctx).1 && 0 < |frame| <= MAX_MTU_SIZE
    ensures var end := Play(w, SendPath(w, frame));
            end.Some? && end.value.log.emitted == w.log.emitted + [frame]
  {
    var wake := if w.ctx.notifyOutgoing then OutWakeSignalled else OutWakeBtp;
    OutKeepsSteady(w, wake);
    LoopSends(Next(w, Outgoing(wake)), frame);
    PlayFirst(w, Outgoing(wake), [Outgoing(OutTake)] + AfterTake(w.ctx.needAdvertise, frame));
  }

  /** A parked incoming pump with a write whose signal was given feeds it to BTP in its own steps. */
  lemma ParkedPumpFeeds(w: World)
    requires Steady(w) && w.inPc.InParked? && CanReceive(w) && w.log.readOk && w.hook.HookIdle? && !Locked(w)
    ensures Enabled(w, Incoming(InWake))
    ensures
      var section, woken := Incoming(InPass(true)), Next(w, Incoming(InWake));
      && Enabled(woken, section)
      && Next(woken, section).log.fed == w.log.fed + [w.ctx.inData] && Next(woken, section).ctx.inData == []
  {
  }
}
