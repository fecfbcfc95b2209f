/**
 * The NimBLE peripheral's shared object. Its methods are the critical sections and the hooks as
 * the host and the pumps run them; each is proved against the value-level section of `NimbleState`
 * that `NimblePeripheral` interleaves.
 */
module NimbleContext {
  import opened Base
  import opened BtpEngine
  import opened NimbleState

  datatype Indication = Indication(handle: nat, attr: nat, data: Bytes)

  /** The host stack, reduced to the indications it is asked to send. */
  class BleDriver {
    var sent: seq<Indication>

    constructor ()
      ensures sent == []
    {
      sent := [];
    }

    method Indicate(handle: nat, attr: nat, data: Bytes)
      modifies this
      ensures sent == old(sent) + [Indication(handle, attr, data)]
    {
      sent := sent + [Indication(handle, attr, data)];
    }
  }

  class EspBtpGattContext {
    var connection: Option<Connection>
    var connGen: nat
    var btpGen: Option<nat>
    var inData: Bytes
    var outData: Bytes
    var needAdvertise: bool
    var outNack: bool
    var notifyIncoming: bool
    var notifyOutgoing: bool
    var c2Handle: nat

    function Snapshot(): Context
      reads this
    {
      Context(connection, connGen, btpGen, inData, outData, needAdvertise, outNack,
              notifyIncoming, notifyOutgoing, c2Handle)
    }

    constructor ()
      ensures Snapshot() == FRESH
    {
      connection, connGen, btpGen := None, 0, None;
      inData, outData, needAdvertise := [], [], false;
      outNack, notifyIncoming, notifyOutgoing, c2Handle := false, false, false, 0;
    }

    method ResetContext()
      modifies this
      ensures Snapshot() == Reset(old(Snapshot()))
      ensures connection.None? && btpGen.None? && inData == [] && !outNack && !notifyIncoming && !notifyOutgoing
      ensures connGen == old(connGen) && needAdvertise == old(needAdvertise) && c2Handle == old(c2Handle)
    {
      connection := None;
      btpGen := None;
      inData := [];
      outData := [];
      outNack := false;
      notifyIncoming := false;
      notifyOutgoing := false;
    }

    /** Reset the engine if it still belongs to an earlier connection. */
    method Sync(btp: Btp)
      modifies this`btpGen, btp
      ensures Snapshot() == SyncBtp(old(Snapshot())).0
      ensures btp.log == old(btp.log) + if SyncBtp(old(Snapshot())).1 then [ResetEntry] else []
      ensures btpGen == Some(connGen)
      ensures btp.log == old(btp.log) + if old(btpGen) == Some(connGen) then [] else [ResetEntry]
    {
      if btpGen != Some(connGen) {
        btp.Reset();
        btpGen := Some(connGen);
      }
    }

    // ----- Hooks -------------------------------------------------------------------------------

    method OnHostSync()
      modifies this
      ensures Snapshot() == RequestAdvertising(old(Snapshot())).(notifyOutgoing := true)
      ensures needAdvertise && notifyOutgoing
    {
      needAdvertise := true;
      notifyOutgoing := true;
    }

    method OnConnect(ok: bool, handle: nat, peer: nat, mtu: Option<nat>)
      modifies this
      ensures !ok ==> Snapshot() == RequestAdvertising(old(Snapshot())).(notifyOutgoing := true)
      ensures ok ==> Snapshot() ==
                     ConnectLocked(old(Snapshot()), handle, peer, mtu).(outNack := false, notifyIncoming := true)
      ensures !ok ==> needAdvertise && notifyOutgoing && connection == old(connection)
      ensures ok ==> connection == Some(Connection(peer, handle, false, mtu)) && inData == [] && !outNack
      ensures ok ==> connGen == (old(connGen) + 1) % USIZE_VALUES && notifyIncoming
    {
      if !ok {
        needAdvertise := true;
        notifyOutgoing := true;
        return;
      }
      connGen := (connGen + 1) % USIZE_VALUES;
      inData := [];
      outData := [];
      connection := Some(Connection(peer, handle, false, mtu));

      outNack := false;
      notifyIncoming := true;
    }

    method OnDisconnect()
      modifies this
      ensures Snapshot() ==
              DisconnectLocked(old(Snapshot())).(outNack := false, notifyIncoming := true, notifyOutgoing := true)
      ensures connection.None? && inData == [] && needAdvertise && !outNack && notifyIncoming && notifyOutgoing
    {
      connection := None;
      inData := [];
      outData := [];
      needAdvertise := true;

      outNack := false;
      notifyIncoming := true;
      notifyOutgoing := true;
    }

    method OnMtu(handle: nat, value: nat)
      modifies this
      ensures Snapshot() == MtuLocked(old(Snapshot()), handle, value)
      ensures connection ==
              match old(connection)
              case Some(conn) => Some(if conn.handle == handle then conn.(mtu := Some(value)) else conn)
              case None => None
    {
      if connection.Some? && connection.value.handle == handle {
        connection := Some(connection.value.(mtu := Some(value)));
      }
    }

    method OnRegister(isC2: bool, attr: nat)
      modifies this
      ensures Snapshot() == if isC2 then old(Snapshot()).(c2Handle := attr) else old(Snapshot())
    {
      if isC2 {
        c2Handle := attr;
      }
    }

    /** A `C1` write: `read` is what copying the attribute data into the buffer comes to. */
    method OnWrite(read: Option<Bytes>) returns (ok: bool)
      requires read.Some? ==> |read.value| <= MAX_MTU_SIZE
      modifies this
      ensures ok <==> WriteTaken(old(Snapshot()), read)
      ensures Snapshot() ==
              var c := WriteLocked(old(Snapshot()), read);
              if ok then c.(notifyIncoming := true) else c
      ensures ok <==> old(inData) == [] && read.Some?
      ensures if ok then inData == read.value && notifyIncoming
              else inData == if old(inData) == [] then Zeros(MAX_MTU_SIZE) else old(inData)
    {
      if inData != [] {
        return false;
      }
      inData := Resized(inData, MAX_MTU_SIZE);
      assert inData == Zeros(MAX_MTU_SIZE);
      if read.None? {
        return false;
      }
      inData := read.value + inData[|read.value|..];
      inData := inData[..|read.value|];
      assert inData == read.value;
      notifyIncoming := true;
      return true;
    }

    method OnSubscriptionChanged(handle: nat, attr: nat, indicate: bool)
      modifies this
      ensures Snapshot() ==
              if attr == old(c2Handle) then SubscribeLocked(old(Snapshot()), handle, indicate).(notifyOutgoing := true)
              else old(Snapshot())
      ensures attr == old(c2Handle) ==> notifyOutgoing
      ensures connection ==
              match old(connection)
              case Some(conn) =>
                Some(if attr == old(c2Handle) && conn.handle == handle then conn.(subscribed := indicate) else conn)
              case None => None
    {
      if attr == c2Handle {
        if connection.Some? && connection.value.handle == handle {
          connection := Some(connection.value.(subscribed := indicate));
        }
        notifyOutgoing := true;
      }
    }

    /** Touches only the atomic flag and the signal, so it may run inside `indicate`. */
    method OnNotifyComplete(indication: bool, status: int)
      modifies this`outNack, this`notifyOutgoing
      ensures Snapshot() ==
              if Terminal(indication, status) then old(Snapshot()).(outNack := false, notifyOutgoing := true)
              else old(Snapshot())
      ensures if indication && status != 0 then !outNack && notifyOutgoing
              else outNack == old(outNack) && notifyOutgoing == old(notifyOutgoing)
    {
      if indication && (status == EDONE || status != 0) {
        outNack := false;
        notifyOutgoing := true;
      }
    }

    // ----- Pumps -------------------------------------------------------------------------------

    /** One locked section of the incoming pump; `ok` is whether the engine takes the bytes. */
    method ProcessIncoming(btp: Btp, ok: bool) returns (outcome: Outcome)
      modifies this, btp
      ensures outcome == IncomingPass(old(Snapshot()), ok).outcome
      ensures Snapshot() == IncomingPass(old(Snapshot()), ok).ctx
      ensures var p := IncomingPass(old(Snapshot()), ok);
              btp.log == old(btp.log) + Entries(p.reset, p.call)
      ensures outcome.NotProcessed? <==> old(connection).None? || old(inData) == []
      ensures outcome.NotProcessed? ==> inData == old(inData)
      ensures !outcome.NotProcessed? ==>
                && |btp.log| > |old(btp.log)|
                && btp.log[|btp.log| - 1] ==
                   CallEntry(Feed(old(connection).value.mtu, old(connection).value.peer, old(inData)))
                && inData == if ok then [] else old(inData)
    {
      outcome := NotProcessed;
      if connection.Some? {
        var conn := connection.value;
        Sync(btp);
        if inData != [] {
          btp.ProcessIncoming(conn.mtu, conn.peer, inData);
          if !ok {
            return Failed;
          }
          inData := [];
          return Processed;
        }
      }
    }

    /** The flag the outgoing pump takes at the top of its loop. */
    method TakeNeedAdvertise() returns (need: bool)
      modifies this
      ensures need == old(needAdvertise)
      ensures Snapshot() == old(Snapshot()).(needAdvertise := false)
    {
      need := needAdvertise;
      needAdvertise := false;
    }

    /**
     * The end of the outgoing section: mark the frame, and hand it to the host stack, which may deliver
     * the completion before `Indicate` returns.
     */
    method SendFrame(driver: BleDriver, to: Indication, accepted: bool, completion: Option<int>)
      returns (outcome: Outcome)
      requires 0 < |to.data| <= |outData|
      modifies `outData, `outNack, `notifyOutgoing, driver
      ensures Snapshot() ==
              AfterSend(old(Snapshot()).(outData := to.data + old(outData)[|to.data|..]), accepted, completion)
      ensures driver.sent == old(driver.sent) + [to]
      ensures outcome == if accepted then Processed else Failed
      ensures outNack == (accepted && !(completion.Some? && completion.value != 0))
    {
      outData := to.data + outData[|to.data|..];
      assert outData[..|to.data|] == to.data;
      // Marked before the send: a completion inside `Indicate` has to win.
      outNack := true;
      driver.Indicate(to.handle, to.attr, outData[..|to.data|]);
      if completion.Some? {
        OnNotifyComplete(true, completion.value);
      }
      if accepted {
        return Processed;
      } else {
        outNack := false;
        return Failed;
      }
    }

    /**
     * One locked section of the outgoing pump. `reply` is the engine's answer, `accepted` whether the
     * host stack takes the indication, `completion` the status of a completion it delivers
     * re-entrantly. Whenever it comes, the completion wins over the mark.
     */
    method ProcessOutgoing(btp: Btp, driver: BleDriver, reply: Reply, accepted: bool, completion: Option<int>)
      returns (outcome: Outcome)
      requires reply.Fits()
      modifies this, btp, driver
      ensures var p := OutgoingPass(old(Snapshot()), reply);
              && btp.log == old(btp.log) + Entries(p.reset, p.call)
              && (!p.outcome.Send? ==> outcome == p.outcome && Snapshot() == p.ctx && driver.sent == old(driver.sent))
              && (p.outcome.Send? ==>
                    && reply.Produced?
                    && driver.sent == old(driver.sent) + [Indication(p.outcome.handle, p.outcome.attr, reply.frame)]
                    && outcome == (if accepted then Processed else Failed)
                    && Snapshot() == AfterSend(p.ctx, accepted, completion))
      ensures driver.sent == old(driver.sent) +
                             (if reply.Produced? && old(connection).Some? && old(connection).value.subscribed
                                 && !old(outNack) && old(c2Handle) != 0
                              then [Indication(old(connection).value.handle, old(c2Handle), reply.frame)] else [])
    {
      if connection.None? || !connection.value.subscribed {
        return NotProcessed;
      }
      var conn := connection.value;
      Sync(btp);
      if outNack {
        return NotProcessed;
      }
      if c2Handle == 0 {
        return NotProcessed;
      }
      outData := Resized(outData, MAX_MTU_SIZE);
      btp.ProcessOutgoing(conn.mtu);
      match reply
      case EngineError => return Failed;
      case Nothing => return NotProcessed;
      case Produced(frame) =>
        assert (frame + outData[|frame|..])[..|frame|] == frame;
        outcome := SendFrame(driver, Indication(conn.handle, c2Handle, frame), accepted, completion);
    }
  }
}
