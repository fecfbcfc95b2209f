/** What holds over every run of the Bluedroid peripheral. */
module BluedroidRuns {
  import opened Base
  import opened BtpEngine
  import opened BluedroidState
  import opened BluedroidPeripheral
  import S = GattSession

  /** The `i`-th step of a run. */
  ghost predicate StepAt(ws: seq<World>, steps: seq<Step>, i: int) {
    && |ws| == |steps| + 1 && 0 <= i < |steps|
    && Enabled(ws[i], steps[i]) && ws[i + 1] == Next(ws[i], steps[i])
  }

  /** Any run, however long the pumps are kept from syncing. */
  ghost predicate IsPath(ws: seq<World>, steps: seq<Step>) {
    && |ws| == |steps| + 1
    && ws[0] == START
    && (forall i | 0 <= i < |steps| :: StepAt(ws, steps, i))
  }

  /** On any path, however long the pumps are kept from syncing. */
  lemma {:induction false} PathIsSteady(ws: seq<World>, steps: seq<Step>, i: nat)
    requires IsPath(ws, steps) && i < |ws|
    ensures Steady(ws[i])
  {
    if i == 0 {
      StartInv();
    } else {
      PathIsSteady(ws, steps, i - 1);
      assert StepAt(ws, steps, i - 1);
      SteadyPreserved(ws[i - 1], steps[i - 1]);
    }
  }

  /** A run in which fewer than 2^32 connects and disconnects fall between two syncs. */
  ghost predicate IsRun(ws: seq<World>, steps: seq<Step>) {
    IsPath(ws, steps) && (forall i | 0 <= i < |ws| :: InWidth(ws[i]))
  }

  lemma {:induction false} RunInv(ws: seq<World>, steps: seq<Step>, i: nat)
    requires IsRun(ws, steps) && i < |ws|
    ensures Inv(ws[i])
  {
    if i == 0 {
      StartInv();
    } else {
      RunInv(ws, steps, i - 1);
      assert StepAt(ws, steps, i - 1);
      InvPreserved(ws[i - 1], steps[i - 1]);
    }
  }

  // ----- Refinement of the session machine -----------------------------------------------------

  function Datas(packets: seq<Packet>): (d: seq<Bytes>)
    ensures |d| == |packets| && forall i | 0 <= i < |d| :: d[i] == packets[i].data
  {
    seq(|packets|, i requires 0 <= i < |packets| => packets[i].data)
  }

  function View(w: World): S.Session {
    var live := w.ctx.connection.Some?;
    S.Session(w.log.links, Link(w), w.ctx.Subscribed(), if live then w.ctx.inData else [],
              Datas(w.log.packets), w.log.fed, live && w.ctx.outNack, w.log.emitted, w.log.completed)
  }

  function HostEvent(w: World, h: HostStep): S.Event {
    match h
    case PeerConnected(_, _) => if w.ctx.connection.None? then S.Open else S.Stay
    case PeerDisconnected(peer) => if IsPeer(w.ctx, peer) then S.Close else S.Stay
    case Write(r) =>
      if Toggles(w.ctx, r) then S.Subscribe(AsksIndications(r.value))
      else if IsC1Write(w.ctx, r) && 0 < |r.value| <= MAX_MTU_SIZE then S.Accept(r.value)
      else S.Stay
    case Confirm(ok) => if ok then S.Complete else S.Stay
    case _ => S.Stay
  }

  function InEvent(w: World, p: InPass): S.Event {
    if p.outcome.Processed? then S.Deliver(BtpAfter(w, p.reset).session) else S.Stay
  }

  function OutEvent(w: World, p: OutPass): S.Event {
    if p.outcome.Processed? && p.sent.Some? then S.Emit(p.sent.value.data, BtpAfter(w, p.reset).session) else S.Stay
  }

  function PumpEvent(w: World, p: PumpStep): S.Event
    requires PumpEnabled(w, p)
  {
    match p
    case InSection(fed, answered) => InEvent(w, IncomingPass(w.ctx, fed, answered))
    case OutSection(reply, accepted) => OutEvent(w, OutgoingPass(w.ctx, reply, accepted))
    case _ => S.Stay
  }

  function EventOf(w: World, s: Step): S.Event
    requires Enabled(w, s)
  {
    match s
    case Host(h) => HostEvent(w, h)
    case Pump(p) => PumpEvent(w, p)
    case Restart => if w.ctx.connection.Some? then S.Close else S.Stay
    case _ => S.Stay
  }

  lemma EventSimulates(w: World, h: HostStep)
    requires Nack(w) && HostEnabled(w, h) && !h.Write?
    ensures S.Allowed(View(w), HostEvent(w, h))
    ensures View(HostNext(w, h)) == S.After(View(w), HostEvent(w, h))
  {
    match h
    case PeerConnected(_, _) =>
    case PeerDisconnected(_) =>
    case Confirm(_) =>
    case _ =>
  }

  lemma WriteSimulates(w: World, r: Request)
    requires Steady(w) && HostEnabled(w, Write(r))
    ensures S.Allowed(View(w), HostEvent(w, Write(r)))
    ensures View(AfterWrite(w, r)) == S.After(View(w), HostEvent(w, Write(r)))
  {
  }

  lemma HostSimulates(w: World, h: HostStep)
    requires Steady(w) && HostEnabled(w, h)
    ensures S.Allowed(View(w), HostEvent(w, h))
    ensures View(HostNext(w, h)) == S.After(View(w), HostEvent(w, h))
  {
    if h.Write? {
      WriteSimulates(w, h.request);
    } else {
      EventSimulates(w, h);
    }
  }

  lemma InSimulates(w: World, p: InPass)
    requires Steady(w) && InShape(w.ctx, p)
    ensures
      var e := S.Retagged(InEvent(w, p), Link(w));
      S.Allowed(View(w), e) && View(AfterInPass(w, p)) == S.After(View(w), e)
  {
  }

  lemma OutSimulates(w: World, p: OutPass, reply: Reply)
    requires Steady(w) && OutShape(w.ctx, p, reply) && reply.Fits()
    ensures
      var e := S.Retagged(OutEvent(w, p), Link(w));
      S.Allowed(View(w), e) && View(AfterOutPass(w, p)) == S.After(View(w), e)
  {
  }

  lemma PumpSimulates(w: World, p: PumpStep)
    requires Steady(w) && PumpEnabled(w, p)
    ensures
      var e := S.Retagged(PumpEvent(w, p), Link(w));
      S.Allowed(View(w), e) && View(PumpNext(w, p)) == S.After(View(w), e)
  {
    match p
    case InSection(fed, answered) =>
      IncomingPassShape(w.ctx, fed, answered);
      InSimulates(w, IncomingPass(w.ctx, fed, answered));
    case OutSection(reply, accepted) =>
      OutgoingPassShape(w.ctx, reply, accepted);
      OutSimulates(w, OutgoingPass(w.ctx, reply, accepted), reply);
    case _ =>
  }

  /** Every step of the peripheral is one step of the session machine, or none, but for the engine's session. */
  lemma Simulates(w: World, s: Step)
    requires Steady(w) && Enabled(w, s)
    ensures
      var e := S.Retagged(EventOf(w, s), Link(w));
      S.Allowed(View(w), e) && View(Next(w, s)) == S.After(View(w), e)
  {
    match s
    case Host(h) => HostSimulates(w, h);
    case Pump(p) => PumpSimulates(w, p);
    case _ =>
  }

  /** Within the width of the counter, that is the session of the live connection. */
  lemma EventIsTagged(w: World, s: Step)
    requires Inv(w) && InWidth(w) && Enabled(w, s)
    ensures S.Retagged(EventOf(w, s), Link(w)) == EventOf(w, s)
  {
    if w.ctx.connection.Some? {
      SyncedForLink(w);
    }
    match s
    case Host(h) =>
    case Pump(InSection(fed, answered)) => IncomingPassShape(w.ctx, fed, answered);
    case Pump(OutSection(reply, accepted)) => OutgoingPassShape(w.ctx, reply, accepted);
    case _ =>
  }

  function Views(ws: seq<World>): seq<S.Session> {
    seq(|ws|, i requires 0 <= i < |ws| => View(ws[i]))
  }

  ghost function Events(ws: seq<World>, steps: seq<Step>): seq<S.Event>
    requires IsPath(ws, steps)
  {
    seq(|steps|, i requires StepAt(ws, steps, i) => EventOf(ws[i], steps[i]))
  }

  /** The events as seen without regard to the engine: each frame and packet taken for the live connection's. */
  ghost function PlainEvents(ws: seq<World>, steps: seq<Step>): seq<S.Event>
    requires IsPath(ws, steps)
  {
    seq(|steps|, i requires StepAt(ws, steps, i) => S.Retagged(EventOf(ws[i], steps[i]), Link(ws[i])))
  }

  lemma PathSimulates(ws: seq<World>, steps: seq<Step>, i: nat)
    requires IsPath(ws, steps) && i < |steps|
    ensures S.Allowed(View(ws[i]), PlainEvents(ws, steps)[i])
    ensures View(ws[i + 1]) == S.After(View(ws[i]), PlainEvents(ws, steps)[i])
  {
    PathIsSteady(ws, steps, i);
    assert StepAt(ws, steps, i);
    Simulates(ws[i], steps[i]);
  }

  lemma StartShows()
    ensures View(START) == S.START
  {
  }

  /** But for the engine's sessions, what any path shows of itself is a run of the session machine. */
  lemma PathRefinesSession(ws: seq<World>, steps: seq<Step>)
    requires IsPath(ws, steps)
    ensures S.IsRun(Views(ws), PlainEvents(ws, steps)) && Views(ws)[0] == S.START
  {
    StartShows();
    forall i | 0 <= i < |steps|
      ensures S.Allowed(Views(ws)[i], PlainEvents(ws, steps)[i])
      ensures Views(ws)[i + 1] == S.After(Views(ws)[i], PlainEvents(ws, steps)[i])
    {
      PathSimulates(ws, steps, i);
    }
  }

  /** Refinement: what a run shows of itself, the engine's sessions included, is a run of the session machine. */
  lemma RunRefinesSession(ws: seq<World>, steps: seq<Step>)
    requires IsRun(ws, steps)
    ensures S.IsRun(Views(ws), Events(ws, steps)) && Views(ws)[0] == S.START
  {
    PathRefinesSession(ws, steps);
    forall i | 0 <= i < |steps| ensures Events(ws, steps)[i] == PlainEvents(ws, steps)[i] {
      RunInv(ws, steps, i);
      assert StepAt(ws, steps, i);
      EventIsTagged(ws[i], steps[i]);
    }
    assert Events(ws, steps) == PlainEvents(ws, steps);
  }

  /** So every state of a path shows a sound session. */
  lemma RunIsSound(ws: seq<World>, steps: seq<Step>, i: nat)
    requires IsPath(ws, steps) && i < |ws|
    ensures S.Sound(View(ws[i]))
  {
    PathRefinesSession(ws, steps);
    S.RunIsSound(Views(ws), PlainEvents(ws, steps), i);
  }

  lemma SameKind(ws: seq<World>, steps: seq<Step>, i: nat)
    requires IsPath(ws, steps) && i < |steps|
    ensures
      var e, plain := Events(ws, steps)[i], PlainEvents(ws, steps)[i];
      && (e.Emit? <==> plain.Emit?) && (e.Complete? <==> plain.Complete?)
      && (e.Open? <==> plain.Open?) && (e.Close? <==> plain.Close?)
  {
    assert StepAt(ws, steps, i);
  }

  /** The step hands an indication to the stack, which takes it. */
  predicate Sends(w: World, s: Step) {
    && s.Pump? && s.p.OutSection? && s.p.reply.Fits()
    && var pass := OutgoingPass(w.ctx, s.p.reply, s.p.accepted); pass.outcome.Processed? && pass.sent.Some?
  }

  lemma SendIsEmit(ws: seq<World>, steps: seq<Step>, i: nat)
    requires IsPath(ws, steps) && i < |steps| && Sends(ws[i], steps[i])
    ensures PlainEvents(ws, steps)[i].Emit?
  {
    assert StepAt(ws, steps, i);
  }

  /** Between two indications the first is confirmed, or its connection ends. */
  lemma IndicationsAreSeparated(ws: seq<World>, steps: seq<Step>, i: nat, j: nat)
    requires IsPath(ws, steps) && i < j < |steps| && Sends(ws[i], steps[i]) && Sends(ws[j], steps[j])
    ensures exists k | i < k < j ::
              Events(ws, steps)[k].Complete? || Events(ws, steps)[k].Open? || Events(ws, steps)[k].Close?
  {
    PathRefinesSession(ws, steps);
    SendIsEmit(ws, steps, i);
    SendIsEmit(ws, steps, j);
    var plain := PlainEvents(ws, steps);
    S.EmitsAreSeparated(Views(ws), plain, i, j);
    var k :| i < k < j && (plain[k].Complete? || plain[k].Open? || plain[k].Close?);
    SameKind(ws, steps, k);
  }

  // ----- When a waiting pump is stranded -------------------------------------------------------

  /** The interface, or the handle of `C2`, that sending lacked comes to be known. */
  predicate CompletesService(c: Context, h: HostStep) {
    match h
    case ServiceRegistered(_) => c.gatt.gattIf.None? && c.gatt.c2.Some?
    case CharacteristicAdded(service, _, which) =>
      which.C2? && c.Serves(service) && c.gatt.c2.None? && c.gatt.gattIf.Some?
    case _ => false
  }

  /** It does so while the pump sleeps and the live connection has something to send. */
  predicate Strands(w: World, s: Step) {
    && s.Host? && CompletesService(w.ctx, s.h)
    && (w.outPc.Idle? || w.outPc.Parked?)
    && !w.ctx.notifyOutgoing && !w.env.btp.ready
    && w.env.btp.hasData && w.ctx.Subscribed() && !w.ctx.outNack
  }

  lemma HostStrands(w: World, h: HostStep)
    requires Nack(w) && HostEnabled(w, h) && !Asleep(w)
    ensures Asleep(HostNext(w, h)) <==> Strands(w, Host(h))
  {
    match h
    case ServiceRegistered(_) =>
    case CharacteristicAdded(_, _, _) =>
    case PeerConnected(_, _) =>
    case PeerDisconnected(_) =>
    case Write(_) =>
    case Confirm(_) =>
    case _ =>
  }

  lemma FeedStrandsNothing(w: World, p: InPass)
    requires InShape(w.ctx, p) && !Asleep(w)
    ensures !Asleep(AfterInPass(w, p))
  {
  }

  lemma SendStrandsNothing(w: World, p: OutPass, reply: Reply)
    requires OutShape(w.ctx, p, reply)
    requires MaySend(w.ctx) && reply.Nothing? ==> !Synced(w).hasData
    ensures !Asleep(AfterOutPass(w, p))
  {
  }

  lemma PumpStrandsNothing(w: World, p: PumpStep)
    requires PumpEnabled(w, p) && !Asleep(w)
    ensures !Asleep(PumpNext(w, p))
  {
    match p
    case InSection(fed, answered) =>
      IncomingPassShape(w.ctx, fed, answered);
      FeedStrandsNothing(w, IncomingPass(w.ctx, fed, answered));
    case OutSection(reply, accepted) =>
      OutgoingPassShape(w.ctx, reply, accepted);
      SendStrandsNothing(w, OutgoingPass(w.ctx, reply, accepted), reply);
    case _ =>
  }

  /** A step loses the outgoing pump's wake-up exactly if it completes the service behind its back. */
  lemma StrandsExactly(w: World, s: Step)
    requires Nack(w) && Enabled(w, s) && !Asleep(w)
    ensures Asleep(Next(w, s)) <==> Strands(w, s)
  {
    match s
    case Host(h) => HostStrands(w, h);
    case Pump(p) => PumpStrandsNothing(w, p);
    case _ =>
  }

  /** The service is set up in order, and kept: no step takes it down. */
  predicate Orderly(c: Context, s: Step) {
    match s
    case Host(ServiceDeleted(service)) => !c.Serves(service)
    case Host(ServiceUnregistered(service)) => !c.Serves(service)
    case Host(DescriptorAdded(_, _, isCccd)) => isCccd ==> c.gatt.gattIf.Some? && c.gatt.c2.Some?
    case _ => true
  }

  /** Whoever can subscribe, or has, finds the service complete. */
  predicate InService(c: Context) {
    c.gatt.cccd.Some? || c.Subscribed() ==> c.gatt.gattIf.Some? && c.gatt.c2.Some?
  }

  lemma HostKeepsService(w: World, h: HostStep)
    requires InService(w.ctx) && HostEnabled(w, h) && Orderly(w.ctx, Host(h))
    ensures InService(HostNext(w, h).ctx)
  {
    match h
    case Write(_) =>
    case PeerConnected(_, _) =>
    case _ =>
  }

  /** While it is set up in order and kept, the service is complete, and no step strands the pump. */
  lemma OrderlyStrandsNothing(w: World, s: Step)
    requires InService(w.ctx) && Enabled(w, s) && Orderly(w.ctx, s)
    ensures InService(Next(w, s).ctx) && !Strands(w, s)
  {
    match s
    case Host(h) => HostKeepsService(w, h);
    case Pump(InSection(fed, answered)) => IncomingPassShape(w.ctx, fed, answered);
    case Pump(OutSection(reply, accepted)) => OutgoingPassShape(w.ctx, reply, accepted);
    case _ =>
  }

  // ----- The guarantees, read off the invariant ------------------------------------------------

  /** Session isolation: every use of the engine is within the session of the live connection. */
  lemma SessionIsolation(ws: seq<World>, steps: seq<Step>, i: nat, k: nat)
    requires IsRun(ws, steps) && i < |ws| && k < |ws[i].uses|
    ensures ws[i].uses[k].link.Some? && ws[i].uses[k].engine == ws[i].uses[k].link
    ensures ws[i].uses[k].origin.Some? ==> ws[i].uses[k].origin == ws[i].uses[k].link
  {
    RunInv(ws, steps, i);
  }

  /** The flag is set exactly while an indication awaits its confirmation, or that has failed. */
  lemma StopAndWait(ws: seq<World>, steps: seq<Step>, i: nat)
    requires IsPath(ws, steps) && i < |ws| && ws[i].ctx.connection.Some?
    ensures ws[i].ctx.outNack <==> ws[i].env.pending || ws[i].env.confirmLost
    ensures |ws[i].log.emitted| - ws[i].log.completed == if ws[i].ctx.outNack then 1 else 0
  {
    PathIsSteady(ws, steps, i);
  }

  lemma {:induction false} AsleepSince(ws: seq<World>, steps: seq<Step>, i: nat)
    requires IsPath(ws, steps) && i < |ws| && Asleep(ws[i])
    ensures exists k | 0 <= k < i :: Strands(ws[k], steps[k]) && forall j | k < j <= i :: Asleep(ws[j])
  {
    assert i > 0;
    PathIsSteady(ws, steps, i - 1);
    assert StepAt(ws, steps, i - 1);
    if Asleep(ws[i - 1]) {
      AsleepSince(ws, steps, i - 1);
      var k :| 0 <= k < i - 1 && Strands(ws[k], steps[k]) && forall j | k < j <= i - 1 :: Asleep(ws[j]);
    } else {
      StrandsExactly(ws[i - 1], steps[i - 1]);
      assert Strands(ws[i - 1], steps[i - 1]);
    }
  }

  /**
   * No lost wake-up. A parked incoming pump with a write to feed can be woken. So can a parked
   * outgoing pump with something to send, unless it has been asleep ever since a step that stranded it.
   */
  lemma {:induction false} NoLostWakeup(ws: seq<World>, steps: seq<Step>, i: nat)
    requires IsPath(ws, steps) && i < |ws|
    ensures ws[i].inPc.Parked? && CanReceive(ws[i]) ==> Enabled(ws[i], Pump(InWake))
    ensures ws[i].outPc.Parked? && CanSend(ws[i]) ==>
              || Enabled(ws[i], Pump(OutWakeSignalled)) || Enabled(ws[i], Pump(OutWakeBtp))
              || exists k | 0 <= k < i :: Strands(ws[k], steps[k]) && forall j | k < j <= i :: Asleep(ws[j])
  {
    PathIsSteady(ws, steps, i);
    if Asleep(ws[i]) {
      AsleepSince(ws, steps, i);
    }
  }

  lemma {:induction false} StaysInService(ws: seq<World>, steps: seq<Step>, i: nat)
    requires IsPath(ws, steps) && i < |ws| && forall k | 0 <= k < i :: Orderly(ws[k].ctx, steps[k])
    ensures InService(ws[i].ctx)
    ensures forall k | 0 <= k < i :: !Strands(ws[k], steps[k])
  {
    if i > 0 {
      StaysInService(ws, steps, i - 1);
      assert StepAt(ws, steps, i - 1);
      OrderlyStrandsNothing(ws[i - 1], steps[i - 1]);
    }
  }

  /** No lost wake-up at all, then: a parked outgoing pump with something to send can be woken. */
  lemma NoLostWakeupInService(ws: seq<World>, steps: seq<Step>, i: nat)
    requires IsPath(ws, steps) && i < |ws| && forall k | 0 <= k < i :: Orderly(ws[k].ctx, steps[k])
    requires ws[i].outPc.Parked? && CanSend(ws[i])
    ensures Enabled(ws[i], Pump(OutWakeSignalled)) || Enabled(ws[i], Pump(OutWakeBtp))
  {
    NoLostWakeup(ws, steps, i);
    StaysInService(ws, steps, i);
  }

  /**
   * Write-response pairing: the k-th answer carries the transaction of the k-th `C1` write of the
   * live connection, and the k-th packet BTP consumed is that write's. All but at most one of the
   * writes are answered; the one that is not is the peer's outstanding request, still in `in_data`.
   */
  lemma WriteResponsePairing(ws: seq<World>, steps: seq<Step>, i: nat)
    requires IsPath(ws, steps) && i < |ws| && ws[i].ctx.connection.Some?
    ensures
      var log := ws[i].log;
      && |log.answered| == |log.fed| <= |log.packets|
      && (forall k | 0 <= k < |log.answered| ::
            log.answered[k] == log.packets[k].trans && log.fed[k] == log.packets[k].data)
      && log.packets[|log.fed|..] ==
         (if ws[i].ctx.inData == [] then [] else [Packet(ws[i].ctx.inTrans, ws[i].ctx.inData)])
      && (ws[i].ctx.inData != [] ==> ws[i].env.request == Some(ws[i].ctx.inTrans))
  {
    PathIsSteady(ws, steps, i);
  }

  /** What the incoming section sends out answers the peer's outstanding request, on its connection. */
  lemma AnswersTheRequest(w: World, fed: bool, answered: bool)
    requires Steady(w)
    ensures
      var p := IncomingPass(w.ctx, fed, answered);
      p.response.Some? ==>
        && fed && p.call.Feed? && p.call.data == w.ctx.inData
        && w.env.request == Some(p.response.value.trans)
        && p.response.value.connId == w.ctx.connection.value.connId
        && w.log.origin == w.log.links
  {
  }

  /** A write of 1 to 512 bytes to `C1` is taken as the next packet, and the pump will be woken for it. */
  lemma WriteIsTaken(w: World, r: Request)
    requires Steady(w) && HostEnabled(w, Write(r))
    requires w.ctx.connection.Some? && w.ctx.connection.value.connId == r.connId && r.offset == 0
    requires w.ctx.gatt.c1 == Some(r.handle) != w.ctx.gatt.cccd
    ensures
      var n := HostNext(w, Write(r));
      && n.env.request == Some(r.trans)
      && (0 < |r.value| <= MAX_MTU_SIZE <==> CanReceive(n))
      && (CanReceive(n) ==> n.log.packets == w.log.packets + [Packet(r.trans, r.value)] && n.ctx.notifyIncoming)
  {
  }

  // ----- What the pumps use --------------------------------------------------------------------

  /** What the stack has told about the service and about the live connection, if any. */
  datatype Announced = Announced(gatt: Handles, link: Option<Connection>) {
    predicate Names(connId: nat) {
      link.Some? && link.value.connId == connId
    }

    /** The service the handles are of. */
    predicate Knows(service: nat) {
      gatt.service == Some(service)
    }
  }

  function ToldOfService(g: Handles, known: bool, h: HostStep): Handles {
    match h
    case ServiceRegistered(gattIf) => g.(gattIf := Some(gattIf))
    case ServiceCreated(service) => g.(service := Some(service))
    case CharacteristicAdded(_, attr, C1) => if known then g.(c1 := Some(attr)) else g
    case CharacteristicAdded(_, attr, C2) => if known then g.(c2 := Some(attr)) else g
    case DescriptorAdded(_, attr, isCccd) => if known && isCccd then g.(cccd := Some(attr)) else g
    case ServiceDeleted(_) => if known then Handles(g.gattIf, g.service, None, None, None) else g
    case ServiceUnregistered(_) => if known then Handles(None, None, g.c1, g.c2, g.cccd) else g
    case _ => g
  }

  /** The peer writes two bytes to the CCCD: [2, 0] subscribes, anything else unsubscribes. */
  predicate WritesCccd(a: Announced, r: Request) {
    a.Names(r.connId) && a.gatt.cccd == Some(r.handle) && r.offset == 0 && |r.value| == 2
  }

  function Told(a: Announced, h: HostStep): Announced {
    match h
    case CharacteristicAdded(service, _, _) => a.(gatt := ToldOfService(a.gatt, a.Knows(service), h))
    case DescriptorAdded(service, _, _) => a.(gatt := ToldOfService(a.gatt, a.Knows(service), h))
    case ServiceDeleted(service) => a.(gatt := ToldOfService(a.gatt, a.Knows(service), h))
    case ServiceUnregistered(service) => a.(gatt := ToldOfService(a.gatt, a.Knows(service), h))
    case MtuChanged(connId, mtu) =>
      if a.Names(connId) then a.(link := Some(a.link.value.(mtu := Some(mtu)))) else a
    case PeerConnected(connId, peer) =>
      if a.link.None? then a.(link := Some(Connection(peer, connId, false, None))) else a
    case PeerDisconnected(peer) => if a.link.Some? && a.link.value.peer == peer then a.(link := None) else a
    case Write(r) =>
      if WritesCccd(a, r) then a.(link := Some(a.link.value.(subscribed := r.value == [2, 0]))) else a
    case _ => a.(gatt := ToldOfService(a.gatt, true, h))
  }

  function ToldOf(a: Announced, s: Step): Announced {
    match s
    case Restart => Announced(UNREGISTERED, None)
    case Host(h) => Told(a, h)
    case _ => a
  }

  /** The same read off the events alone, in order. */
  function Heard(steps: seq<Step>): Announced {
    if steps == [] then Announced(UNREGISTERED, None)
    else ToldOf(Heard(steps[..|steps| - 1]), steps[|steps| - 1])
  }

  lemma CccdValue(value: Bytes)
    requires |value| == 2
    ensures AsksIndications(value) <==> value == [2, 0]
  {
  }

  lemma WriteAnnounces(w: World, r: Request)
    ensures
      var n := HostNext(w, Write(r)).ctx;
      Announced(n.gatt, n.connection) == Told(Announced(w.ctx.gatt, w.ctx.connection), Write(r))
  {
    if |r.value| == 2 {
      CccdValue(r.value);
    }
  }

  lemma ServiceAnnounces(w: World, h: HostStep)
    requires h.CharacteristicAdded? || h.DescriptorAdded? || h.ServiceDeleted? || h.ServiceUnregistered?
    ensures
      var n := HostNext(w, h).ctx;
      Announced(n.gatt, n.connection) == Told(Announced(w.ctx.gatt, w.ctx.connection), h)
  {
    match h
    case CharacteristicAdded(_, _, _) =>
    case DescriptorAdded(_, _, _) =>
    case ServiceDeleted(_) =>
    case _ =>
  }

  lemma EventsAnnounce(w: World, h: HostStep)
    ensures
      var n := HostNext(w, h).ctx;
      Announced(n.gatt, n.connection) == Told(Announced(w.ctx.gatt, w.ctx.connection), h)
  {
    match h
    case Write(r) => WriteAnnounces(w, r);
    case CharacteristicAdded(_, _, _) => ServiceAnnounces(w, h);
    case DescriptorAdded(_, _, _) => ServiceAnnounces(w, h);
    case ServiceDeleted(_) => ServiceAnnounces(w, h);
    case ServiceUnregistered(_) => ServiceAnnounces(w, h);
    case PeerConnected(_, _) =>
    case PeerDisconnected(_) =>
    case _ =>
  }

  /** No pump touches what was announced. */
  lemma ContextFollows(w: World, s: Step)
    requires Enabled(w, s)
    ensures
      var n := Next(w, s).ctx;
      Announced(n.gatt, n.connection) == ToldOf(Announced(w.ctx.gatt, w.ctx.connection), s)
  {
    match s
    case Host(h) => EventsAnnounce(w, h);
    case Pump(InSection(fed, answered)) => IncomingPassShape(w.ctx, fed, answered);
    case Pump(OutSection(reply, accepted)) => OutgoingPassShape(w.ctx, reply, accepted);
    case _ =>
  }

  lemma {:induction false} ContextIsHeard(ws: seq<World>, steps: seq<Step>, i: nat)
    requires IsPath(ws, steps) && i < |ws|
    ensures Announced(ws[i].ctx.gatt, ws[i].ctx.connection) == Heard(steps[..i])
  {
    if i > 0 {
      ContextIsHeard(ws, steps, i - 1);
      assert StepAt(ws, steps, i - 1);
      ContextFollows(ws[i - 1], steps[i - 1]);
      assert steps[..i][..i - 1] == steps[..i - 1] && steps[..i][i - 1] == steps[i - 1];
    }
  }

  /**
   * The engine is given all of the inbox, with the peer and the latest MTU of the live connection, and
   * the response goes to that connection, on the announced interface, with the transaction of the inbox.
   */
  lemma IncomingServesTheLink(ws: seq<World>, steps: seq<Step>, i: nat, fed: bool, answered: bool)
    requires IsPath(ws, steps) && i < |ws|
    ensures
      var a, p := Heard(steps[..i]), IncomingPass(ws[i].ctx, fed, answered);
      && (p.call.Feed? <==> a.link.Some? && ws[i].ctx.inData != [])
      && (p.call.Feed? ==>
            p.call.mtu == a.link.value.mtu && p.call.peer == a.link.value.peer && p.call.data == ws[i].ctx.inData)
      && (p.response.Some? <==> p.call.Feed? && fed)
      && (p.response.Some? ==>
            && p.response.value.connId == a.link.value.connId && p.response.value.trans == ws[i].ctx.inTrans
            && p.response.value.gattIf == a.gatt.gattIf.GetOr(0))
  {
    ContextIsHeard(ws, steps, i);
  }

  /**
   * The engine is asked for a frame for the live, subscribed connection with its latest MTU, and the frame
   * goes to it whole, on the announced interface and to the announced `C2`.
   */
  lemma OutgoingServesTheLink(ws: seq<World>, steps: seq<Step>, i: nat, reply: Reply, accepted: bool)
    requires IsPath(ws, steps) && i < |ws| && reply.Fits()
    ensures
      var a, p := Heard(steps[..i]), OutgoingPass(ws[i].ctx, reply, accepted);
      && (p.call.Poll? <==>
            && a.gatt.gattIf.Some? && a.gatt.c2.Some?
            && a.link.Some? && a.link.value.subscribed && !ws[i].ctx.outNack)
      && (p.call.Poll? ==> p.call.mtu == a.link.value.mtu)
      && (p.sent.Some? <==> p.call.Poll? && reply.Produced?)
      && (p.sent.Some? ==>
            && a.gatt.gattIf == Some(p.sent.value.gattIf) && a.gatt.c2 == Some(p.sent.value.attr)
            && p.sent.value.connId == a.link.value.connId && p.sent.value.data == reply.frame)
  {
    ContextIsHeard(ws, steps, i);
  }

  /**
   * A write request of the live connection to the handle of `C1`, from its start and of 1 to 512 bytes, is
   * the next packet, whole and with its own transaction, and the pump is signalled for it.
   */
  lemma C1WriteIsTaken(ws: seq<World>, steps: seq<Step>, i: nat, r: Request)
    requires IsPath(ws, steps) && i < |ws| && Enabled(ws[i], Host(Write(r)))
    requires var a := Heard(steps[..i]);
             && a.link.Some? && a.link.value.connId == r.connId
             && a.gatt.c1 == Some(r.handle) && a.gatt.cccd != Some(r.handle) && r.offset == 0
    requires 0 < |r.value| <= MAX_MTU_SIZE
    ensures
      var n := Next(ws[i], Host(Write(r)));
      && n.ctx.inData == r.value && n.ctx.inTrans == r.trans && n.ctx.notifyIncoming
      && n.log.packets == ws[i].log.packets + [Packet(r.trans, r.value)]
      && n.env.request == Some(r.trans) && n.hook.HookIdle?
  {
    ContextIsHeard(ws, steps, i);
  }

  /** A write to any other handle, by any other connection, or from anywhere else, leaves the inbox alone. */
  lemma OtherWritesAreNot(ws: seq<World>, steps: seq<Step>, i: nat, r: Request)
    requires IsPath(ws, steps) && i < |ws| && Enabled(ws[i], Host(Write(r)))
    requires var a := Heard(steps[..i]);
             || a.link.None? || a.link.value.connId != r.connId
             || a.gatt.c1 != Some(r.handle) || a.gatt.cccd == Some(r.handle) || r.offset != 0
    ensures
      var n := Next(ws[i], Host(Write(r)));
      && n.ctx.inData == ws[i].ctx.inData && n.ctx.inTrans == ws[i].ctx.inTrans
      && n.log.packets == ws[i].log.packets
  {
    ContextIsHeard(ws, steps, i);
  }

  /**
   * A write of two bytes to the CCCD is answered, with its own transaction, exactly if it changes the
   * subscription; one that subscribes signals both pumps.
   */
  lemma CccdWriteIsAnswered(ws: seq<World>, steps: seq<Step>, i: nat, r: Request)
    requires IsPath(ws, steps) && i < |ws| && Enabled(ws[i], Host(Write(r)))
    requires var a := Heard(steps[..i]);
             && a.link.Some? && a.link.value.connId == r.connId
             && a.gatt.cccd == Some(r.handle) && r.offset == 0 && |r.value| == 2
    ensures
      var was, n := Heard(steps[..i]).link.value.subscribed, Next(ws[i], Host(Write(r)));
      && n.ctx.connection.Some? && n.ctx.connection.value.subscribed == (r.value == [2, 0])
      && n.hook == (if was != (r.value == [2, 0]) then Answering(r.trans) else HookIdle)
      && (!was && r.value == [2, 0] ==> n.ctx.notifyOutgoing && n.ctx.notifyIncoming)
  {
    ContextIsHeard(ws, steps, i);
    CccdValue(r.value);
  }

  // ----- Progress ------------------------------------------------------------------------------

  /** A parked incoming pump with a write gets it to BTP and answered in its own steps. */
  lemma ParkedPumpAnswers(w: World)
    requires Steady(w) && w.inPc.Parked? && CanReceive(w)
    ensures Enabled(w, Pump(InWake))
    ensures
      var section := Pump(InSection(true, true));
      var woken := Next(w, Pump(InWake));
      && Enabled(woken, section)
      && Next(woken, section).log.fed == w.log.fed + [w.ctx.inData]
      && Next(woken, section).log.answered == w.log.answered + [w.ctx.inTrans]
      && Next(woken, section).env.request.None?
  {
  }

  /** A parked outgoing pump that is not asleep gets the engine's frame out in its own steps. */
  lemma ParkedPumpSends(w: World, frame: Bytes)
    requires Steady(w) && w.outPc.Parked? && CanSend(w) && !Asleep(w)
    requires !SyncBtp(w.ctx).1 && 0 < |frame| <= MAX_MTU_SIZE
    ensures
      var wake, section := Pump(if w.ctx.notifyOutgoing then OutWakeSignalled else OutWakeBtp),
                           Pump(OutSection(Produced(frame), true));
      && Enabled(w, wake) && Enabled(Next(w, wake), section)
      && Next(Next(w, wake), section).log.emitted == w.log.emitted + [frame]
  {
    var wake := Pump(if w.ctx.notifyOutgoing then OutWakeSignalled else OutWakeBtp);
    var woken := Next(w, wake);
    OutgoingPassShape(woken.ctx, Produced(frame), true);
    assert OutgoingPass(woken.ctx, Produced(frame), true).outcome.Processed?;
  }
}
