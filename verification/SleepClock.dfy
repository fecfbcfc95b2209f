/**
 * The UTC clock carried through deep sleep: the time in the system clock, what is known about it in
 * memory that deep sleep keeps. A boot's own clock lives in RAM and is lost.
 */
module SleepClock {
  import opened Base

  /** The Matter epoch, 2000-01-01T00:00:00Z, in Unix time. */
  const MATTER_EPOCH_SECS: nat := 946_684_800
  const MATTER_EPOCH_US: nat := 946_684_800_000_000
  const TIME_SYNC_EVERY_US: nat := 86_400_000_000

  datatype Granularity = NoTime | Minutes | Seconds | Milliseconds | Microseconds

  function Code(g: Granularity): nat {
    match g case NoTime => 0 case Minutes => 1 case Seconds => 2 case Milliseconds => 3 case Microseconds => 4
  }

  /** The granularity a saved code stands for, if it stands for a known time. */
  function Decoded(code: nat): Option<Granularity> {
    match code
    case 4 => Some(Microseconds)
    case 3 => Some(Milliseconds)
    case 2 => Some(Seconds)
    case 1 => Some(Minutes)
    case _ => None
  }

  /** A saved granularity is read back, no time as none. */
  lemma CodesRoundTrip(g: Granularity)
    ensures Decoded(Code(g)) == if g.NoTime? then None else Some(g)
  {
  }

  /** The codes 1 to 4 are those of a known time, the finer the higher. */
  lemma CodesAreRanked(code: nat)
    ensures Decoded(code).Some? <==> 1 <= code <= 4
    ensures Decoded(code).Some? ==> Code(Decoded(code).value) == code
    ensures Code(NoTime) < Code(Minutes) < Code(Seconds) < Code(Milliseconds) < Code(Microseconds)
  {
  }

  datatype UtcTime = Reliable(us: nat) | LastKnown(us: nat)

  datatype TimeSource = NoSource | Unknown | RealSource

  /** The Matter clock of a boot. */
  datatype Rtc = Rtc(time: UtcTime, granularity: Granularity, source: TimeSource)

  const LOST := Rtc(LastKnown(0), NoTime, NoSource)

  /** What is known of the time, kept across deep sleeps. */
  datatype SleptClock = SleptClock(granularity: nat, setUtcUs: nat)

  const UNKNOWN := SleptClock(0, 0)

  // ----- The system clock ----------------------------------------------------------------------

  /** The Unix time handed to the system clock; the addition wraps as a release build's does. */
  function UnixUs(utcUs: nat): nat {
    (utcUs + MATTER_EPOCH_US) % U64_VALUES
  }

  datatype TimeVal = TimeVal(sec: nat, usec: nat)

  function Split(us: nat): TimeVal {
    TimeVal(us / 1_000_000, us % 1_000_000)
  }

  function Joined(t: TimeVal): nat {
    1_000_000 * t.sec + t.usec
  }

  /** The Matter time a system clock shows, if it is past the Matter epoch. */
  function MatterTime(systemUs: nat): Option<nat> {
    if systemUs < MATTER_EPOCH_US then None else Some((systemUs - MATTER_EPOCH_US) % U64_VALUES)
  }

  /**
   * The split into seconds and microseconds and the shift of the epoch undo each other: after
   * `elapsed`, the clock shows the time set plus exactly that, precisely while both the Unix time set
   * and the Matter time shown fit 64 bits.
   */
  lemma TimeSurvivesExactly(utcUs: nat, elapsed: nat)
    ensures MatterTime(Joined(Split(UnixUs(utcUs))) + elapsed) == Some(utcUs + elapsed) <==>
            utcUs + MATTER_EPOCH_US < U64_VALUES && utcUs + elapsed < U64_VALUES
    ensures
      var t := Split(UnixUs(utcUs));
      t.usec < 1_000_000 && 1_000_000 * t.sec + t.usec == (utcUs + 946_684_800_000_000) % U64_VALUES
  {
    assert Joined(Split(UnixUs(utcUs))) == UnixUs(utcUs);
  }

  // ----- Saving, restoring, and when to synchronise --------------------------------------------

  /** What a sleep keeps, `clockSet` telling whether the system clock could be set. */
  function Saved(rtc: Rtc, slept: SleptClock, clockSet: bool): SleptClock {
    match rtc.time
    case LastKnown(_) => UNKNOWN
    case Reliable(us) =>
      if !clockSet then UNKNOWN
      else SleptClock(Code(rtc.granularity), if rtc.source.RealSource? then us else slept.setUtcUs)
  }

  /** What a boot after a sleep makes of it; any setting of the time steps its granularity down. */
  function Restored(rtc: Rtc, slept: SleptClock, systemUs: nat, stepDown: Granularity -> Granularity): Rtc {
    if Decoded(slept.granularity).None? || MatterTime(systemUs).None? then rtc
    else Rtc(Reliable(MatterTime(systemUs).value), stepDown(Decoded(slept.granularity).value), Unknown)
  }

  predicate SyncDue(rtc: Rtc, slept: SleptClock) {
    match rtc.time
    case LastKnown(_) => true
    case Reliable(now) => slept.setUtcUs == 0 || now > slept.setUtcUs + TIME_SYNC_EVERY_US
  }

  /** The device's clocks. `rtc` is the boot's own; the others outlive a deep sleep. */
  class Device {
    var rtc: Rtc
    var slept: SleptClock
    var systemUs: nat

    constructor ()
      ensures rtc == LOST && slept == UNKNOWN
    {
      rtc, slept, systemUs := LOST, UNKNOWN, 0;
    }

    method SetSystemTime(utcUs: nat) returns (ok: bool)
      modifies this`systemUs
      ensures ok ==> systemUs == Joined(Split(UnixUs(utcUs))) == (utcUs + 946_684_800_000_000) % U64_VALUES
      ensures !ok ==> systemUs == old(systemUs)
    {
      var unixUs := (utcUs + MATTER_EPOCH_SECS * 1_000_000) % U64_VALUES;
      var time := TimeVal(unixUs / 1_000_000, unixUs % 1_000_000);
      ok := *;
      if ok {
        systemUs := 1_000_000 * time.sec + time.usec;
      }
    }

    method SaveClock() returns (clockSet: bool)
      modifies this`slept, this`systemUs
      ensures slept == Saved(old(rtc), old(slept), clockSet)
      ensures slept ==
              if rtc.time.Reliable? && clockSet
              then SleptClock(Code(rtc.granularity),
                              if rtc.source.RealSource? then rtc.time.us else old(slept).setUtcUs)
              else SleptClock(0, 0)
      ensures rtc.time.Reliable? && clockSet ==> systemUs == Joined(Split(UnixUs(rtc.time.us)))
      ensures !(rtc.time.Reliable? && clockSet) ==> systemUs == old(systemUs)
    {
      var clock := UNKNOWN;
      clockSet := true;
      match rtc.time
      case LastKnown(_) => slept := UNKNOWN;
      case Reliable(us) =>
        var isReal := !rtc.source.NoSource? && !rtc.source.Unknown?;
        clock := SleptClock(Code(rtc.granularity), if isReal then us else slept.setUtcUs);
        clockSet := SetSystemTime(us);
        if !clockSet {
          clock := UNKNOWN;
        }
        slept := clock;
    }

    method RestoreClock(stepDown: Granularity -> Granularity)
      modifies this`rtc
      ensures rtc == Restored(old(rtc), slept, systemUs, stepDown)
      ensures if 1 <= slept.granularity <= 4 && systemUs >= 946_684_800_000_000
              then rtc.time == Reliable((systemUs - 946_684_800_000_000) % U64_VALUES) && rtc.source.Unknown?
                   && rtc.granularity == stepDown(Decoded(slept.granularity).value)
              else rtc == old(rtc)
    {
      var granularity;
      match slept.granularity {
        case 4 => granularity := Microseconds;
        case 3 => granularity := Milliseconds;
        case 2 => granularity := Seconds;
        case 1 => granularity := Minutes;
        case _ => return;
      }
      if systemUs < MATTER_EPOCH_US {
        return;
      }
      rtc := Rtc(Reliable((systemUs - MATTER_EPOCH_US) % U64_VALUES), stepDown(granularity), Unknown);
    }

    method TimeSyncDue() returns (due: bool)
      ensures due <==> SyncDue(rtc, slept)
      ensures due <==>
              rtc.time.LastKnown? || slept.setUtcUs == 0 || rtc.time.us > slept.setUtcUs + 86_400_000_000
    {
      match rtc.time
      case LastKnown(_) => due := true;
      case Reliable(now) =>
        var since := if now < slept.setUtcUs then 0 else now - slept.setUtcUs;
        due := slept.setUtcUs == 0 || since > TIME_SYNC_EVERY_US;
    }
  }

  // ----- Going to sleep ------------------------------------------------------------------------

  /** An idle period: the operating mode at its start, and what is seen once writes have settled. */
  datatype IdlePeriod = IdlePeriod(lit: bool, stillIdle: bool, pollMs: nat, idleLeftMs: Option<nat>)

  function Min(a: nat, b: nat): nat {
    if a < b then a else b
  }

  /** Stay up through idle periods until one the device may sleep in; `None` if none came. */
  method DeepSleepWhenIdle(periods: seq<IdlePeriod>) returns (n: nat, sleepMs: Option<nat>)
    ensures sleepMs.None? <==> forall i | 0 <= i < |periods| :: !(periods[i].lit && periods[i].stillIdle)
    ensures sleepMs.Some? ==>
              && n < |periods| && periods[n].lit && periods[n].stillIdle
              && (forall i | 0 <= i < n :: !(periods[i].lit && periods[i].stillIdle))
              && var pollMs, idleMs := periods[n].pollMs, periods[n].idleLeftMs.GetOr(periods[n].pollMs);
                 if pollMs < 1000 || idleMs < 1000 then sleepMs.value == 1000
                 else sleepMs.value <= pollMs && sleepMs.value <= idleMs && sleepMs.value in {pollMs, idleMs}
  {
    sleepMs := None;
    n := 0;
    while n < |periods|
      invariant n <= |periods| && forall i | 0 <= i < n :: !(periods[i].lit && periods[i].stillIdle)
    {
      var p := periods[n];
      if p.lit && p.stillIdle {
        var idleMs := p.idleLeftMs.GetOr(p.pollMs);
        var ms := Min(p.pollMs, idleMs);
        sleepMs := Some(if ms < 1000 then 1000 else ms);
        return;
      }
      n := n + 1;
    }
  }
}

/** The clock over any run of boots and deep sleeps. */
module SleepClockRuns {
  import opened Base
  import opened SleepClock

  /** The end of a boot: a deep sleep with the clock as it was, or power lost. */
  datatype End = Slept(rtc: Rtc, clockSet: bool) | PowerLost

  datatype World = World(
    rtc: Rtc, slept: SleptClock, systemUs: nat, awake: bool,
    ends: seq<End>,                // how the boots so far ended
    asleepUs: nat                  // time since the latest sleep began
  )

  datatype Step =
    | Elapse(us: nat)              // awake or asleep
    | SetTime(us: nat, granularity: Granularity)   // by a controller or the Trusted Time Source
    | Sleep(clockSet: bool)
    | WakeUp(stepDown: Granularity -> Granularity)
    | ColdBoot(systemUs: nat)

  predicate Enabled(w: World, s: Step) {
    match s
    case Elapse(_) => true
    case SetTime(_, _) => w.awake
    case Sleep(_) => w.awake
    case WakeUp(_) => !w.awake
    case ColdBoot(_) => true
  }

  function Next(w: World, s: Step): World {
    match s
    case Elapse(us) =>
      w.(systemUs := w.systemUs + us,
         rtc := if w.awake && w.rtc.time.Reliable? then w.rtc.(time := Reliable(w.rtc.time.us + us)) else w.rtc,
         asleepUs := if w.awake then w.asleepUs else w.asleepUs + us)
    case SetTime(us, granularity) => w.(rtc := Rtc(Reliable(us), granularity, RealSource))
    case Sleep(clockSet) =>
      w.(rtc := LOST, slept := Saved(w.rtc, w.slept, clockSet),
         systemUs := if w.rtc.time.Reliable? && clockSet then Joined(Split(UnixUs(w.rtc.time.us))) else w.systemUs,
         awake := false, ends := w.ends + [Slept(w.rtc, clockSet)], asleepUs := 0)
    case WakeUp(stepDown) => w.(rtc := Restored(w.rtc, w.slept, w.systemUs, stepDown), awake := true)
    case ColdBoot(systemUs) =>
      w.(rtc := LOST, slept := UNKNOWN, systemUs := systemUs, awake := true, ends := w.ends + [PowerLost])
  }

  const START := World(LOST, UNKNOWN, 0, true, [], 0)

  ghost predicate IsRun(ws: seq<World>, steps: seq<Step>) {
    && |ws| == |steps| + 1
    && ws[0] == START
    && (forall i | 0 <= i < |steps| :: Enabled(ws[i], steps[i]) && ws[i + 1] == Next(ws[i], steps[i]))
  }

  /**
   * The UTC at the latest sleep that ended a boot with a time from a real source, unless the clock
   * has been lost since: by a power loss, or by a sleep with no reliable time or no system clock.
   */
  function LastReal(ends: seq<End>): Option<nat> {
    if ends == [] then None
    else
      match ends[|ends| - 1]
      case PowerLost => None
      case Slept(rtc, clockSet) =>
        if rtc.time.LastKnown? || !clockSet then None
        else if rtc.source.RealSource? then Some(rtc.time.us)
        else LastReal(ends[..|ends| - 1])
  }

  /** The clock the latest sleep saved, if it could. */
  function SavedClock(ends: seq<End>): (saved: Option<Rtc>)
    ensures saved.Some? ==> saved.value.time.Reliable?
  {
    if ends == [] || ends[|ends| - 1].PowerLost? then None
    else
      var last := ends[|ends| - 1];
      if last.clockSet && last.rtc.time.Reliable? && !last.rtc.granularity.NoTime? then Some(last.rtc) else None
  }

  ghost predicate Inv(w: World) {
    var saved := SavedClock(w.ends);
    && w.slept.setUtcUs == LastReal(w.ends).GetOr(0)
    && Decoded(w.slept.granularity) == (if saved.Some? then Some(saved.value.granularity) else None)
    && (!w.awake ==> w.rtc == LOST)
    && (!w.awake && saved.Some? ==> w.systemUs == Joined(Split(UnixUs(saved.value.time.us))) + w.asleepUs)
  }

  lemma SleepKeepsInv(w: World, clockSet: bool)
    requires Inv(w) && Enabled(w, Sleep(clockSet))
    ensures Inv(Next(w, Sleep(clockSet)))
  {
    CodesRoundTrip(w.rtc.granularity);
    assert (w.ends + [Slept(w.rtc, clockSet)])[..|w.ends|] == w.ends;
  }

  lemma InvPreserved(w: World, s: Step)
    requires Inv(w) && Enabled(w, s)
    ensures Inv(Next(w, s))
  {
    match s
    case Sleep(clockSet) => SleepKeepsInv(w, clockSet);
    case _ =>
  }

  lemma {:induction false} RunInv(ws: seq<World>, steps: seq<Step>, i: nat)
    requires IsRun(ws, steps) && i < |ws|
    ensures Inv(ws[i])
  {
    if i > 0 {
      RunInv(ws, steps, i - 1);
      InvPreserved(ws[i - 1], steps[i - 1]);
    }
  }

  /** What a boot restores of a clock saved at `us` and `elapsed` ago. */
  lemma RestoresExactly(slept: SleptClock, systemUs: nat, us: nat, elapsed: nat, stepDown: Granularity -> Granularity)
    requires Decoded(slept.granularity).Some? && systemUs == Joined(Split(UnixUs(us))) + elapsed
    ensures
      Restored(LOST, slept, systemUs, stepDown)
      == Rtc(Reliable(us + elapsed), stepDown(Decoded(slept.granularity).value), Unknown)
      <==> us + MATTER_EPOCH_US < U64_VALUES && us + elapsed < U64_VALUES
  {
    TimeSurvivesExactly(us, elapsed);
  }

  /**
   * Waking up restores the time saved plus exactly the time slept, with the granularity it was saved
   * with stepped down, precisely while the saved Unix time and the restored Matter time fit 64 bits; it
   * restores none if none was saved.
   */
  lemma WakeRestoresTime(ws: seq<World>, steps: seq<Step>, i: nat, stepDown: Granularity -> Granularity)
    requires IsRun(ws, steps) && i < |ws| && !ws[i].awake
    ensures
      var w := ws[i];
      match SavedClock(w.ends)
      case None => Next(w, WakeUp(stepDown)).rtc == LOST
      case Some(saved) =>
        Next(w, WakeUp(stepDown)).rtc == Rtc(Reliable(saved.time.us + w.asleepUs), stepDown(saved.granularity), Unknown)
        <==> saved.time.us + MATTER_EPOCH_US < U64_VALUES && saved.time.us + w.asleepUs < U64_VALUES
  {
    RunInv(ws, steps, i);
    var w := ws[i];
    if SavedClock(w.ends).Some? {
      RestoresExactly(w.slept, w.systemUs, SavedClock(w.ends).value.time.us, w.asleepUs, stepDown);
    }
  }

  /**
   * A synchronisation is due exactly when the time is not reliable, no boot ended with a real time
   * since the clock was lost (one that ended at UTC zero counts as none), or more than 24 hours have
   * passed since the sleep that ended the latest such boot.
   */
  lemma SyncDueExactly(ws: seq<World>, steps: seq<Step>, i: nat)
    requires IsRun(ws, steps) && i < |ws|
    ensures
      var w := ws[i];
      SyncDue(w.rtc, w.slept) <==>
        || w.rtc.time.LastKnown?
        || LastReal(w.ends).GetOr(0) == 0
        || w.rtc.time.us - LastReal(w.ends).value > TIME_SYNC_EVERY_US
  {
    RunInv(ws, steps, i);
  }
}
