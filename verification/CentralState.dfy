/**
 * The GATT central (commissioner side) as a value: its session state, and what each hook and each
 * section of its run and of its pumps does to it.
 */
module CentralState {
  import opened Base
  import opened BtpEngine

  /** What the discovery hooks have found out. */
  datatype Discovery = Discovery(
    synced: bool, connHandle: Option<nat>,
    matterRange: Option<(nat, nat)>, servicesDone: bool,
    c1Val: Option<nat>, c2Val: Option<nat>, charsDone: bool,
    subscribed: bool)

  datatype Context = Context(
    disc: Discovery,
    failed: bool,
    mtu: Option<nat>, peer: nat,
    inData: Bytes, outData: Bytes, outInflight: bool,
    notifyProgress: bool, notifyIn: bool, notifyOut: bool
  ) {
    predicate Valid() {
      |inData| <= MAX_MTU_SIZE && |outData| <= MAX_MTU_SIZE
    }
  }

  const FRESH := Context(Discovery(false, None, None, false, None, None, false, false),
                         false, None, 0, [], [], false, false, false, false)

  // ----- Hooks ---------------------------------------------------------------------------------

  function ConnectResult(c: Context, ok: bool, handle: nat): Context {
    if ok then c.(disc := c.disc.(connHandle := Some(handle))) else c.(failed := true)
  }

  function MtuSet(c: Context, handle: nat, value: nat): Context {
    if c.disc.connHandle == Some(handle) then c.(mtu := Some(value)) else c
  }

  datatype Found = MatterService(first: nat, last: nat) | OtherService | NoMoreServices

  function ServiceFound(c: Context, found: Found): Context {
    match found
    case MatterService(first, last) => c.(disc := c.disc.(matterRange := Some((first, last))))
    case OtherService => c
    case NoMoreServices => c.(disc := c.disc.(servicesDone := true))
  }

  datatype Chr = ChrC1(val: nat) | ChrC2(val: nat) | OtherChr | NoMoreChrs

  function ChrFound(c: Context, found: Chr): Context {
    match found
    case ChrC1(val) => c.(disc := c.disc.(c1Val := Some(val)))
    case ChrC2(val) => c.(disc := c.disc.(c2Val := Some(val)))
    case OtherChr => c
    case NoMoreChrs => c.(disc := c.disc.(charsDone := true))
  }

  /** A completed write is taken for the CCCD's if its handle follows `C2`'s, whatever was written. */
  predicate LooksLikeCccd(c: Context, attr: nat) {
    c.disc.c2Val.Some? && attr == c.disc.c2Val.value + 1
  }

  function WriteCompleted(c: Context, attr: nat, status: int): Context {
    if LooksLikeCccd(c, attr) then c.(disc := c.disc.(subscribed := status == 0))
    else if c.disc.c1Val == Some(attr) then c.(outInflight := false)
    else c
  }

  /** An indication is kept only if the buffer is free and it can be read; else it is dropped. */
  function Indicated(c: Context, read: Option<Bytes>): Context {
    if c.inData == [] then c.(inData := read.GetOr([])) else c
  }

  // ----- The sections of the pumps -------------------------------------------------------------

  datatype Outcome = Processed | NotProcessed | Failed

  datatype Pass = Pass(ctx: Context, call: Call, write: Option<Bytes>, outcome: Outcome)

  function IncomingPass(c: Context, ok: bool): Pass {
    if c.failed then Pass(c, NoCall, None, Failed)
    else if c.inData == [] then Pass(c, NoCall, None, NotProcessed)
    else
      var call := Feed(c.mtu, c.peer, c.inData);
      if ok then Pass(c.(inData := []), call, None, Processed) else Pass(c, call, None, Failed)
  }

  function OutgoingPass(c: Context, reply: Reply, accepted: bool): (p: Pass)
    requires reply.Fits()
  {
    if c.failed then Pass(c, NoCall, None, Failed)
    else if c.outInflight then Pass(c, NoCall, None, NotProcessed)
    else
      var buffer := Resized(c.outData, MAX_MTU_SIZE);
      match reply
      case EngineError => Pass(c.(outData := buffer), Poll(c.mtu), None, Failed)
      case Nothing => Pass(c.(outData := buffer), Poll(c.mtu), None, NotProcessed)
      case Produced(frame) =>
        var filled := frame + buffer[|frame|..];
        var data := filled[..|frame|];
        if accepted then Pass(c.(outData := filled, outInflight := true), Poll(c.mtu), Some(data), Processed)
        else Pass(c.(outData := filled), Poll(c.mtu), Some(data), Failed)
  }

  /** What a pass may change, and when it feeds or writes. */
  lemma PassShapes(c: Context, ok: bool, reply: Reply, accepted: bool)
    requires reply.Fits()
    ensures
      var p := IncomingPass(c, ok);
      && p.ctx == c.(inData := p.ctx.inData)
      && (c.failed ==> p.outcome.Failed? && p.call.NoCall?)
      && (if p.outcome.Processed? then c.inData != [] && p.ctx.inData == [] && p.call.Feed?
          else p.ctx.inData == c.inData)
      && (!p.call.NoCall? ==> p.call == Feed(c.mtu, c.peer, c.inData))
      && (p.outcome.NotProcessed? ==> c.inData == [])
    ensures
      var p := OutgoingPass(c, reply, accepted);
      && p.ctx == c.(outData := p.ctx.outData, outInflight := p.ctx.outInflight)
      && (c.failed ==> p.outcome.Failed? && p.write.None?)
      && (p.outcome.Processed? ==>
            !c.outInflight && p.ctx.outInflight && reply.Produced? && p.write == Some(reply.frame))
      && (!p.outcome.Processed? ==> p.ctx.outInflight == c.outInflight)
      && (p.outcome.NotProcessed? ==> c.outInflight || reply.Nothing?)
  {
  }
}
