/**
 * The GATT session machine both peripherals refine: at most one live connection, a one-slot
 * inbox of writes, and stop-and-wait indications. Every packet that crosses the boundary to the
 * BTP engine names the connection the engine was last reset for.
 */
module GattSession {
  import opened Base

  datatype Session = Session(
    links: nat,                // connections opened so far; the live one carries this number
    link: Option<nat>,         // the live connection, if any
    subscribed: bool,
    inbox: Bytes,              // the accepted write BTP has not consumed, [] if none
    accepted: seq<Bytes>,      // writes accepted on the latest connection
    fed: seq<Bytes>,           // ... and those given to BTP
    inflight: bool,            // an indication awaits its completion
    emitted: seq<Bytes>,       // indications sent on the latest connection
    completed: nat             // ... and how many of them have completed
  )

  datatype Event =
    | Open
    | Close
    | Subscribe(on: bool)
    | Accept(data: Bytes)
    | Deliver(engine: Option<nat>)
    | Emit(frame: Bytes, engine: Option<nat>)
    | Complete
    | Stay

  /** The same event, with another session named as the engine's. */
  function Retagged(e: Event, engine: Option<nat>): Event {
    match e
    case Deliver(_) => Deliver(engine)
    case Emit(frame, _) => Emit(frame, engine)
    case _ => e
  }

  const START := Session(0, None, false, [], [], [], false, [], 0)

  predicate Allowed(s: Session, e: Event) {
    match e
    case Open => true
    case Close => s.link.Some?
    case Subscribe(_) => s.link.Some?
    case Accept(data) => s.link.Some? && s.inbox == [] && 0 < |data| <= MAX_MTU_SIZE
    case Deliver(engine) => s.link.Some? && s.inbox != [] && engine == s.link
    case Emit(frame, engine) =>
      s.link.Some? && s.subscribed && !s.inflight && 0 < |frame| <= MAX_MTU_SIZE && engine == s.link
    case Complete => s.link.Some? && s.inflight
    case Stay => true
  }

  function After(s: Session, e: Event): Session
    requires Allowed(s, e)
  {
    match e
    case Open => Session(s.links + 1, Some(s.links + 1), false, [], [], [], false, [], 0)
    case Close => s.(link := None, subscribed := false, inbox := [], inflight := false)
    case Subscribe(on) => s.(subscribed := on)
    case Accept(data) => s.(inbox := data, accepted := s.accepted + [data])
    case Deliver(_) => s.(inbox := [], fed := s.fed + [s.inbox])
    case Emit(frame, _) => s.(inflight := true, emitted := s.emitted + [frame])
    case Complete => s.(inflight := false, completed := s.completed + 1)
    case Stay => s
  }

  /** What every reachable session satisfies. */
  ghost predicate Sound(s: Session) {
    && (s.link.Some? ==> s.link.value == s.links)
    // Exactly once, in order: the writes given to BTP, then at most the one in the inbox.
    && (s.link.Some? ==> s.accepted == s.fed + Slot(s.inbox))
    && s.fed <= s.accepted
    // Stop and wait: every indication but the one in flight has completed.
    && (s.link.Some? ==> |s.emitted| == s.completed + (if s.inflight then 1 else 0))
    && (s.link.None? ==> s.inbox == [] && !s.inflight && !s.subscribed)
    && (forall i | 0 <= i < |s.accepted| :: 0 < |s.accepted[i]| <= MAX_MTU_SIZE)
  }

  lemma SoundPreserved(s: Session, e: Event)
    requires Sound(s) && Allowed(s, e)
    ensures Sound(After(s, e))
  {
    if e.Deliver? {
      assert s.accepted == s.fed + [s.inbox];
    }
  }

  ghost predicate IsRun(states: seq<Session>, events: seq<Event>) {
    && |states| == |events| + 1
    && (forall i | 0 <= i < |events| ::
          Allowed(states[i], events[i]) && states[i + 1] == After(states[i], events[i]))
  }

  /** Safety over whole runs of the session machine. */
  lemma {:induction false} RunIsSound(states: seq<Session>, events: seq<Event>, i: nat)
    requires IsRun(states, events) && states[0] == START && i < |states|
    ensures Sound(states[i])
  {
    if i > 0 {
      RunIsSound(states, events, i - 1);
      SoundPreserved(states[i - 1], events[i - 1]);
    }
  }

  lemma {:induction false} StaysInFlight(states: seq<Session>, events: seq<Event>, i: nat, j: nat)
    requires IsRun(states, events)
    requires i < j < |events| && events[i].Emit?
    requires forall k | i < k < j :: !events[k].Complete? && !events[k].Open? && !events[k].Close?
    ensures states[j].inflight
  {
    if i + 1 < j {
      StaysInFlight(states, events, i, j - 1);
      assert !events[j - 1].Complete?;
    }
  }

  /** Between two indications of one connection the first one completes. */
  lemma {:induction false} EmitsAreSeparated(states: seq<Session>, events: seq<Event>, i: nat, j: nat)
    requires IsRun(states, events)
    requires i < j < |events| && events[i].Emit? && events[j].Emit?
    ensures exists k | i < k < j :: events[k].Complete? || events[k].Open? || events[k].Close?
  {
    if forall k | i < k < j :: !events[k].Complete? && !events[k].Open? && !events[k].Close? {
      StaysInFlight(states, events, i, j);
    }
  }
}
