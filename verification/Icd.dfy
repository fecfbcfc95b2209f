/** Keep-alive sizing for a sleepy Thread child, and the follower that programs it on a change. */
module Icd {
  import opened Base

  const U32_MAX: nat := 0xFFFF_FFFF
  const U16_MAX: nat := 0xFFFF

  type U32 = n: nat | n <= U32_MAX
  type U16 = n: nat | n <= U16_MAX

  const CHILD_TIMEOUT_DEFAULT_S: U32 := 240
  const CHILD_TIMEOUT_MARGIN_S: U32 := 30
  const CHILD_SUPERVISION_INTERVAL_S: U32 := 129
  const CHILD_SUPERVISION_CHECK_TIMEOUT_DEFAULT_S: U32 := 190

  function SaturatingAdd(a: U32, b: U32): U32 {
    if a + b <= U32_MAX then a + b else U32_MAX
  }

  function SaturatingMul(a: U32, b: U32): U32 {
    if a * b <= U32_MAX then a * b else U32_MAX
  }

  /** A polling period in whole seconds, rounded up. */
  function Seconds(ms: U32): U32 {
    if ms % 1000 == 0 then ms / 1000 else ms / 1000 + 1
  }

  function ChildTimeoutS(pollMs: U32): U32 {
    var s := SaturatingAdd(Seconds(pollMs), CHILD_TIMEOUT_MARGIN_S);
    if s < CHILD_TIMEOUT_DEFAULT_S then CHILD_TIMEOUT_DEFAULT_S else s
  }

  function SupervisionCheckTimeoutS(pollMs: U32): U16 {
    var s := SaturatingAdd(CHILD_SUPERVISION_INTERVAL_S, SaturatingMul(Seconds(pollMs), 2));
    if s < CHILD_SUPERVISION_CHECK_TIMEOUT_DEFAULT_S then CHILD_SUPERVISION_CHECK_TIMEOUT_DEFAULT_S
    else if s > U16_MAX then U16_MAX else s
  }

  /** The whole seconds that cover a polling period, and no more of them. */
  lemma SecondsCover(ms: U32)
    ensures 1000 * Seconds(ms) >= ms && (ms > 0 ==> 1000 * (Seconds(ms) - 1) < ms)
  {
  }

  /** For every interval the parent outwaits the slowest poll by the margin, with no saturation. */
  lemma ChildOutlivesPoll(pollMs: U32)
    ensures 1000 * ChildTimeoutS(pollMs) >= pollMs + 30_000
    ensures ChildTimeoutS(pollMs) >= 240
    ensures ChildTimeoutS(pollMs) > 240 ==> 1000 * ChildTimeoutS(pollMs) < pollMs + 31_000
    ensures Seconds(pollMs) + CHILD_TIMEOUT_MARGIN_S < U32_MAX
  {
  }

  /**
   * The supervision check covers the interval plus one poll exactly while the poll rounds up to at
   * most 65406 s, and the margin of a second poll exactly up to 32703 s. From 31 s up to there it is
   * just that much; below it is the stack's default, above the most its 16 bits hold.
   */
  lemma SupervisionCovers(pollMs: U32)
    ensures SupervisionCheckTimeoutS(pollMs) >= CHILD_SUPERVISION_CHECK_TIMEOUT_DEFAULT_S
    ensures SupervisionCheckTimeoutS(pollMs) >= CHILD_SUPERVISION_INTERVAL_S + Seconds(pollMs) <==>
            Seconds(pollMs) <= 65406
    ensures SupervisionCheckTimeoutS(pollMs) >= CHILD_SUPERVISION_INTERVAL_S + 2 * Seconds(pollMs) <==>
            Seconds(pollMs) <= 32703
    ensures 31 <= Seconds(pollMs) <= 32703 ==> SupervisionCheckTimeoutS(pollMs) == 129 + 2 * Seconds(pollMs)
    ensures Seconds(pollMs) <= 30 ==> SupervisionCheckTimeoutS(pollMs) == 190
    ensures Seconds(pollMs) >= 32703 ==> SupervisionCheckTimeoutS(pollMs) == 65535
  {
  }

  // ----- Programming the radio -----------------------------------------------------------------

  /** The ICD's network parameters; the two modes are only compared and logged. */
  datatype NetParams = NetParams(powerMode: nat, operatingMode: nat, pollIntervalMs: U32, maxPollIntervalMs: U32)

  datatype Settings = Settings(pollPeriodMs: U32, supervisionS: U16, childTimeoutS: U32)

  /** Polling and supervision follow the current interval, the child timeout the slowest one. */
  function Programmed(p: NetParams): Settings {
    Settings(p.pollIntervalMs, SupervisionCheckTimeoutS(p.pollIntervalMs), ChildTimeoutS(p.maxPollIntervalMs))
  }

  /** The radio as programmed is not given up between two polls, now or at the ICD's slowest. */
  lemma ProgrammedKeepsAlive(p: NetParams)
    ensures
      var s := Programmed(p);
      && s.pollPeriodMs == p.pollIntervalMs
      && 1000 * s.childTimeoutS >= p.maxPollIntervalMs + 30_000
      && (s.childTimeoutS > 240 ==> 1000 * s.childTimeoutS < p.maxPollIntervalMs + 31_000)
      && (p.pollIntervalMs <= p.maxPollIntervalMs ==> 1000 * s.childTimeoutS >= s.pollPeriodMs + 30_000)
      && (s.supervisionS >= CHILD_SUPERVISION_INTERVAL_S + Seconds(s.pollPeriodMs) <==>
            Seconds(p.pollIntervalMs) <= 65406)
      && (31 <= Seconds(s.pollPeriodMs) <= 32703 ==> s.supervisionS == 129 + 2 * Seconds(s.pollPeriodMs))
  {
    ChildOutlivesPoll(p.maxPollIntervalMs);
    SupervisionCovers(p.pollIntervalMs);
  }

  datatype LinkMode = LinkMode(rxOnWhenIdle: bool, fullDevice: bool, fullNetworkData: bool)

  /** The Thread stack, reduced to the settings of a sleepy child. Any call may fail. */
  class EspThread {
    var mode: LinkMode
    var settings: Settings
    var log: seq<Settings>       // complete programmings

    constructor ()
      ensures log == []
    {
      mode, settings, log := LinkMode(true, true, true), Settings(0, 0, 0), [];
    }
  }

  method ApplyIcdParams(thread: EspThread, params: NetParams) returns (ok: bool)
    modifies thread`settings, thread`log
    ensures ok ==> thread.settings == Programmed(params) && thread.log == old(thread.log) + [Programmed(params)]
    ensures !ok ==> thread.log == old(thread.log)
  {
    ok := *;
    if !ok {
      return;
    }
    thread.settings := thread.settings.(pollPeriodMs := params.pollIntervalMs);
    ok := *;
    if !ok {
      return;
    }
    thread.settings := thread.settings.(supervisionS := SupervisionCheckTimeoutS(params.pollIntervalMs));
    ok := *;
    if !ok {
      return;
    }
    thread.settings := thread.settings.(childTimeoutS := ChildTimeoutS(params.maxPollIntervalMs));
    thread.log := thread.log + [thread.settings];
  }

  method ConfigureSed(thread: EspThread, params: NetParams) returns (ok: bool)
    modifies thread
    ensures ok ==> thread.mode == LinkMode(false, false, false) && thread.settings == Programmed(params)
  {
    ok := *;
    if !ok {
      return;
    }
    thread.mode := LinkMode(false, false, false);
    ok := ApplyIcdParams(thread, params);
  }

  /** The programmings a list of readings calls for: one for each reading unlike the one before it. */
  function Changes(readings: seq<NetParams>): seq<Settings> {
    if readings == [] then []
    else
      var n := |readings| - 1;
      if n > 0 && readings[n - 1] == readings[n] then Changes(readings[..n])
      else Changes(readings[..n]) + [Programmed(readings[n])]
  }

  /** Reading `i` differs from the one before it, or is the first. */
  predicate Differs(readings: seq<NetParams>, i: nat)
    requires i < |readings|
  {
    i > 0 ==> readings[i - 1] != readings[i]
  }

  lemma DiffersInPrefix(readings: seq<NetParams>, n: nat, i: nat)
    requires i < n <= |readings|
    ensures Differs(readings[..n], i) <==> Differs(readings, i)
  {
  }

  /** The positions below `n` of the readings that differ. */
  function DifferAt(readings: seq<NetParams>, n: nat): (at: seq<nat>)
    requires n <= |readings|
    ensures forall k | 0 <= k < |at| :: at[k] < n && Differs(readings, at[k])
    ensures forall j, k | 0 <= j < k < |at| :: at[j] < at[k]
    ensures forall i | 0 <= i < n && Differs(readings, i) :: i in at
  {
    if n == 0 then []
    else if Differs(readings, n - 1) then DifferAt(readings, n - 1) + [n - 1] else DifferAt(readings, n - 1)
  }

  function Programmings(readings: seq<NetParams>, at: seq<nat>): (s: seq<Settings>)
    requires forall k | 0 <= k < |at| :: at[k] < |readings|
    ensures |s| == |at| && forall k | 0 <= k < |at| :: s[k] == Programmed(readings[at[k]])
  {
    seq(|at|, k requires 0 <= k < |at| => Programmed(readings[at[k]]))
  }

  /** The programmings are one each for exactly the readings that differ, in order. */
  lemma {:induction false} ChangesAreExact(readings: seq<NetParams>, n: nat)
    requires n <= |readings|
    ensures Changes(readings[..n]) == Programmings(readings, DifferAt(readings, n))
  {
    if n > 0 {
      ChangesAreExact(readings, n - 1);
      assert readings[..n][..n - 1] == readings[..n - 1];
      var at := DifferAt(readings, n - 1);
      if Differs(readings, n - 1) {
        assert Programmings(readings, at + [n - 1]) == Programmings(readings, at) + [Programmed(readings[n - 1])];
      }
    }
  }

  /** The follower's loop over the parameters it reads at each notification. */
  method RunIcd(thread: EspThread, readings: seq<NetParams>) returns (ok: bool)
    modifies thread
    ensures ok && readings != [] ==> thread.settings == Programmed(readings[|readings| - 1])
    ensures ok ==> thread.log == old(thread.log) + Changes(readings)
    ensures thread.mode == old(thread.mode)
  {
    ok := true;
    var applied: Option<NetParams> := None;
    for i := 0 to |readings|
      invariant thread.mode == old(thread.mode)
      invariant applied == if i == 0 then None else Some(readings[i - 1])
      invariant i > 0 ==> thread.settings == Programmed(readings[i - 1])
      invariant thread.log == old(thread.log) + Changes(readings[..i])
    {
      var params := readings[i];
      assert readings[..i + 1][..i] == readings[..i];
      if applied != Some(params) {
        ok := ApplyIcdParams(thread, params);
        if !ok {
          return;
        }
        applied := Some(params);
      }
    }
    assert readings[..|readings|] == readings;
  }
}

/**
 * The follower against an ICD that changes its parameters at any time. Assumption: the ICD's
 * notification is latched, and raised by every change.
 */
module IcdFollower {
  import opened Base
  import opened Icd

  datatype Pc = AtRead | AtCompare(params: NetParams) | AtWait | Stopped

  datatype World = World(
    params: NetParams,             // the ICD's current parameters
    notified: bool,
    applied: Option<NetParams>,
    radio: Settings,
    pc: Pc,
    programmed: seq<NetParams>     // what the radio has been programmed for since the follower started
  )

  datatype Step =
    | Change(to: NetParams)        // of the parameters, or of nothing the follower cares about
    | Read
    | Compare(ok: bool, partly: Settings)
    | Wake

  predicate Enabled(w: World, s: Step) {
    match s
    case Change(_) => true
    case Read => w.pc.AtRead?
    case Compare(_, _) => w.pc.AtCompare?
    case Wake => w.pc.AtWait? && w.notified
  }

  function Next(w: World, s: Step): World
    requires Enabled(w, s)
  {
    match s
    case Change(to) => w.(params := to, notified := true)
    case Read => w.(pc := AtCompare(w.params))
    case Compare(ok, partly) =>
      var read := w.pc.params;
      if w.applied == Some(read) then w.(pc := AtWait)
      else if ok then
        w.(radio := Programmed(read), applied := Some(read), pc := AtWait, programmed := w.programmed + [read])
      else w.(radio := partly, pc := Stopped)
    case Wake => w.(notified := false, pc := AtRead)
  }

  predicate Start(w: World) {
    w.pc.AtRead? && w.applied.None? && w.programmed == []
  }

  ghost predicate Inv(w: World) {
    && (w.applied.Some? && !w.pc.Stopped? ==> w.radio == Programmed(w.applied.value))
    && (w.pc.AtCompare? ==> w.notified || w.pc.params == w.params)
    && (w.pc.AtWait? ==> w.applied.Some? && (w.notified || w.applied.value == w.params))
    && (w.programmed == [] <==> w.applied.None?)
    && (w.applied.Some? ==> w.programmed[|w.programmed| - 1] == w.applied.value)
    && (forall i | 0 < i < |w.programmed| :: w.programmed[i - 1] != w.programmed[i])
  }

  lemma InvPreserved(w: World, s: Step)
    requires Inv(w) && Enabled(w, s)
    ensures Inv(Next(w, s))
  {
  }

  ghost predicate IsRun(ws: seq<World>, steps: seq<Step>) {
    && |ws| == |steps| + 1
    && Start(ws[0])
    && (forall i | 0 <= i < |steps| :: Enabled(ws[i], steps[i]) && ws[i + 1] == Next(ws[i], steps[i]))
  }

  lemma {:induction false} RunInv(ws: seq<World>, steps: seq<Step>, i: nat)
    requires IsRun(ws, steps) && i < |ws|
    ensures Inv(ws[i])
  {
    if i > 0 {
      RunInv(ws, steps, i - 1);
      InvPreserved(ws[i - 1], steps[i - 1]);
    }
  }

  /**
   * Waiting with no notification pending, the radio is programmed for the ICD's current parameters;
   * and it is never programmed twice in a row for the same ones.
   */
  lemma RadioIsCurrent(ws: seq<World>, steps: seq<Step>, i: nat)
    requires IsRun(ws, steps) && i < |ws|
    ensures ws[i].pc.AtWait? && !ws[i].notified ==> ws[i].radio == Programmed(ws[i].params)
    ensures forall k | 0 < k < |ws[i].programmed| :: ws[i].programmed[k - 1] != ws[i].programmed[k]
  {
    RunInv(ws, steps, i);
  }
}
