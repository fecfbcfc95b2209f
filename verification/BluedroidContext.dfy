/**
 * The Bluedroid peripheral's shared object: its methods are the sections the event handler and the
 * pumps run under the lock, each proved against the value-level section of `BluedroidState` that
 * `BluedroidPeripheral` interleaves.
 */
module BluedroidContext {
  import opened Base
  import opened BtpEngine
  import opened BluedroidState

  /** The GATT server of the stack, reduced to what it is asked to send. */
  class EspGatts {
    var responses: seq<Response>
    var indications: seq<Indication>

    constructor ()
      ensures responses == [] && indications == []
    {
      responses, indications := [], [];
    }

    method SendResponse(r: Response)
      modifies this`responses
      ensures responses == old(responses) + [r]
    {
      responses := responses + [r];
    }

    method Indicate(i: Indication)
      modifies this`indications
      ensures indications == old(indications) + [i]
    {
      indications := indications + [i];
    }
  }

  function Sent<T>(o: Option<T>): seq<T> {
    match o case None => [] case Some(v) => [v]
  }

  class EspBtpGattContext {
    var gattIf: Option<nat>
    var serviceHandle: Option<nat>
    var c1Handle: Option<nat>
    var c2Handle: Option<nat>
    var c2CccdHandle: Option<nat>
    var connection: Option<Connection>
    var connGen: nat
    var btpGen: Option<nat>
    var inData: Bytes
    var inTrans: nat
    var outData: Bytes
    var outNack: bool
    var notifyIncoming: bool
    var notifyOutgoing: bool

    function Snapshot(): Context
      reads this
    {
      Context(Handles(gattIf, serviceHandle, c1Handle, c2Handle, c2CccdHandle), connection, connGen, btpGen,
              inData, inTrans, outData, outNack, notifyIncoming, notifyOutgoing)
    }

    constructor ()
      ensures Snapshot() == FRESH
    {
      gattIf, serviceHandle, c1Handle, c2Handle, c2CccdHandle := None, None, None, None, None;
      connection, connGen, btpGen := None, 0, None;
      inData, inTrans, outData, outNack := [], 0, [], false;
      notifyIncoming, notifyOutgoing := false, false;
    }

    method ForgetService()
      modifies `gattIf, `serviceHandle, `c1Handle, `c2Handle, `c2CccdHandle
      ensures Snapshot() == old(Snapshot()).(gatt := UNREGISTERED)
    {
      gattIf, serviceHandle, c1Handle, c2Handle, c2CccdHandle := None, None, None, None, None;
      assert Snapshot().gatt == UNREGISTERED;
    }

    method ForgetLink()
      modifies `connection, `inData, `inTrans, `outNack
      ensures Snapshot() == old(Snapshot()).(connection := None, inData := [], inTrans := 0, outNack := false)
    {
      connection, inData, inTrans, outNack := None, [], 0, false;
    }

    method ClearSignals()
      modifies `notifyIncoming, `notifyOutgoing
      ensures Snapshot() == old(Snapshot()).(notifyIncoming := false, notifyOutgoing := false)
    {
      notifyIncoming, notifyOutgoing := false, false;
    }

    method ResetContext()
      modifies this
      ensures Snapshot() == Reset(old(Snapshot()))
      ensures connection.None? && inData == [] && inTrans == 0 && !outNack && !notifyIncoming && !notifyOutgoing
      ensures gattIf.None? && serviceHandle.None? && c1Handle.None? && c2Handle.None? && c2CccdHandle.None?
      ensures connGen == old(connGen) && btpGen == old(btpGen)
    {
      ForgetService();
      ForgetLink();
      ClearSignals();
    }

    method Sync(btp: Btp)
      modifies this`btpGen, btp
      ensures Snapshot() == SyncBtp(old(Snapshot())).0
      ensures btp.log == old(btp.log) + if SyncBtp(old(Snapshot())).1 then [ResetEntry] else []
      ensures btpGen == Some(connGen)
      ensures btp.log == old(btp.log) + if old(btpGen) == Some(connGen) then [] else [ResetEntry]
    {
      if btpGen != Some(connGen) {
        btp.Reset();
        btpGen := Some(connGen);
      }
    }

    // ----- The event handler -------------------------------------------------------------------

    method RegisterCharacteristic(service: nat, attr: nat, which: Characteristic) returns (addCccd: bool)
      modifies this
      ensures Snapshot() == Characterised(old(Snapshot()), service, attr, which)
      ensures var mine := old(serviceHandle) == Some(service);
              && c1Handle == (if mine && which.C1? then Some(attr) else old(c1Handle))
              && c2Handle == (if mine && which.C2? then Some(attr) else old(c2Handle))
      ensures addCccd <==> which.C2? && old(serviceHandle) == Some(service)
    {
      addCccd := false;
      if serviceHandle != Some(service) {
        return;
      }
      if which.C1? {
        c1Handle := Some(attr);
      } else if which.C2? {
        c2Handle := Some(attr);
        addCccd := true;
      }
    }

    method RegisterCccdDescriptor(service: nat, attr: nat, isCccd: bool)
      modifies this
      ensures Snapshot() == Described(old(Snapshot()), service, attr, isCccd)
      ensures c2CccdHandle == if isCccd && old(serviceHandle) == Some(service) then Some(attr) else old(c2CccdHandle)
    {
      if isCccd && serviceHandle == Some(service) {
        c2CccdHandle := Some(attr);
      }
    }

    method DeleteService(service: nat)
      modifies this
      ensures Snapshot() == Deleted(old(Snapshot()), service)
      ensures if old(serviceHandle) == Some(service)
              then c1Handle.None? && c2Handle.None? && c2CccdHandle.None? && gattIf == old(gattIf)
              else Snapshot() == old(Snapshot())
    {
      if serviceHandle == Some(service) {
        c1Handle := None;
        c2Handle := None;
        c2CccdHandle := None;
      }
    }

    method UnregisterService(service: nat)
      modifies this
      ensures Snapshot() == Unregistered(old(Snapshot()), service)
      ensures if old(serviceHandle) == Some(service)
              then gattIf.None? && serviceHandle.None? && c2Handle == old(c2Handle)
              else Snapshot() == old(Snapshot())
    {
      if serviceHandle == Some(service) {
        gattIf := None;
        serviceHandle := None;
      }
    }

    method RegisterConnMtu(connId: nat, mtu: nat)
      modifies this
      ensures Snapshot() == MtuSet(old(Snapshot()), connId, mtu)
      ensures connection ==
              match old(connection)
              case Some(conn) => Some(if conn.connId == connId then conn.(mtu := Some(mtu)) else conn)
              case None => None
    {
      if connection.Some? && connection.value.connId == connId {
        connection := Some(connection.value.(mtu := Some(mtu)));
      }
    }

    method CreateConn(connId: nat, peer: nat) returns (done: bool)
      modifies this
      ensures Snapshot() == Connected(old(Snapshot()), connId, peer)
      ensures done <==> old(connection).None?
      ensures if done then connection == Some(Connection(peer, connId, false, None)) && inData == [] && !outNack
                           && connGen == (old(connGen) + 1) % USIZE_VALUES && notifyIncoming
              else Snapshot() == old(Snapshot())
    {
      done := false;
      if connection.None? {
        connection := Some(Connection(peer, connId, false, None));
        inData := [];
        outNack := false;
        connGen := (connGen + 1) % USIZE_VALUES;
        notifyIncoming := true;
        done := true;
      }
    }

    method DeleteConn(peer: nat) returns (done: bool)
      modifies this
      ensures Snapshot() == Disconnected(old(Snapshot()), peer)
      ensures done <==> IsPeer(old(Snapshot()), peer)
      ensures done <==> old(connection).Some? && old(connection).value.peer == peer
      ensures if done then connection.None? && connGen == (old(connGen) + 1) % USIZE_VALUES && notifyIncoming
              else Snapshot() == old(Snapshot())
    {
      done := false;
      if connection.Some? && connection.value.peer == peer {
        connection := None;
        connGen := (connGen + 1) % USIZE_VALUES;
        notifyIncoming := true;
        done := true;
      }
    }

    /** A write request; `respond` is whether the handler answers it at once. */
    method Write(r: Request) returns (respond: bool)
      modifies this
      ensures Snapshot() == Written(old(Snapshot()), r)
      ensures respond <==> Toggles(old(Snapshot()), r)
      ensures old(connection).None? || old(connection).value.connId != r.connId ==> Snapshot() == old(Snapshot())
      ensures respond ==>
                && old(c2CccdHandle) == Some(r.handle) && r.offset == 0 && |r.value| == 2
                && connection == Some(old(connection).value.(subscribed := r.value == [2, 0]))
                && old(connection).value.subscribed != (r.value == [2, 0])
      ensures !respond ==> connection == old(connection) && notifyOutgoing == old(notifyOutgoing)
      ensures if old(connection).Some? && old(connection).value.connId == r.connId
                 && old(c1Handle) == Some(r.handle) != old(c2CccdHandle) && r.offset == 0
              then inTrans == r.trans && inData == (if |r.value| <= MAX_MTU_SIZE then r.value else []) && notifyIncoming
              else inTrans == old(inTrans) && inData == old(inData)
    {
      respond := false;
      if connection.None? || connection.value.connId != r.connId {
        return;
      }
      var conn := connection.value;
      if c2CccdHandle == Some(r.handle) {
        if r.offset == 0 && |r.value| == 2 {
          var value := r.value[0] as int + 256 * r.value[1] as int;
          if value == 0x02 {
            if !conn.subscribed {
              connection := Some(conn.(subscribed := true));
              notifyIncoming := true;
              notifyOutgoing := true;
              return true;
            }
          } else if conn.subscribed {
            connection := Some(conn.(subscribed := false));
            notifyIncoming := true;
            return true;
          }
        }
      } else if c1Handle == Some(r.handle) && r.offset == 0 {
        inTrans := r.trans;
        inData := [];
        if |r.value| <= MAX_MTU_SIZE {
          inData := inData + r.value;
          assert inData == r.value;
        }
        notifyIncoming := true;
      }
    }

    method OnConfirm(ok: bool)
      modifies this
      ensures Snapshot() == if ok then Confirmed(old(Snapshot())) else old(Snapshot())
      ensures if ok then !outNack && notifyOutgoing
              else outNack == old(outNack) && notifyOutgoing == old(notifyOutgoing)
    {
      if ok {
        outNack := false;
        notifyOutgoing := true;
      }
    }

    // ----- The pumps ---------------------------------------------------------------------------

    method ProcessIncoming(btp: Btp, gatts: EspGatts, fed: bool, answered: bool) returns (outcome: Outcome)
      modifies this, btp, gatts
      ensures var p := IncomingPass(old(Snapshot()), fed, answered);
              && outcome == p.outcome && Snapshot() == p.ctx
              && btp.log == old(btp.log) + Entries(p.reset, p.call)
              && gatts.responses == old(gatts.responses) + Sent(p.response)
              && gatts.indications == old(gatts.indications)
      ensures gatts.responses ==
              old(gatts.responses) +
              (if old(connection).Some? && old(inData) != [] && fed
               then [Response(old(gattIf).GetOr(0), old(connection).value.connId, old(inTrans))] else [])
      ensures old(connection).Some? && old(inData) != [] ==>
                && |btp.log| > |old(btp.log)|
                && btp.log[|btp.log| - 1] ==
                   CallEntry(Feed(old(connection).value.mtu, old(connection).value.peer, old(inData)))
                && inData == if fed && answered then [] else old(inData)
    {
      outcome := NotProcessed;
      if connection.Some? {
        Sync(btp);
        var conn := connection.value;
        if inData != [] {
          btp.ProcessIncoming(conn.mtu, conn.peer, inData);
          if !fed {
            return Failed;
          }
          gatts.SendResponse(Response(gattIf.GetOr(0), conn.connId, inTrans));
          if !answered {
            return Failed;
          }
          inData := [];
          return Processed;
        }
      }
    }

    /** The end of the outgoing section: hand the frame to the stack, and mark it if it is taken. */
    method SendFrame(gatts: EspGatts, to: Indication, accepted: bool) returns (outcome: Outcome)
      requires 0 < |to.data| <= |outData|
      modifies `outData, `outNack, gatts
      ensures Snapshot() ==
              old(Snapshot()).(outData := to.data + old(outData)[|to.data|..], outNack := accepted || old(outNack))
      ensures gatts.indications == old(gatts.indications) + [to] && gatts.responses == old(gatts.responses)
      ensures outcome == if accepted then Processed else Failed
    {
      outData := to.data + outData[|to.data|..];
      assert outData[..|to.data|] == to.data;
      gatts.Indicate(to.(data := outData[..|to.data|]));
      if !accepted {
        return Failed;
      }
      // Marked after the send: the lock keeps the confirmation out until then.
      outNack := true;
      return Processed;
    }

    method ProcessOutgoing(btp: Btp, gatts: EspGatts, reply: Reply, accepted: bool) returns (outcome: Outcome)
      requires reply.Fits()
      modifies this, btp, gatts
      ensures var p := OutgoingPass(old(Snapshot()), reply, accepted);
              && outcome == p.outcome && Snapshot() == p.ctx
              && btp.log == old(btp.log) + Entries(p.reset, p.call)
              && gatts.indications == old(gatts.indications) + Sent(p.sent)
              && gatts.responses == old(gatts.responses)
      ensures gatts.indications ==
              old(gatts.indications) +
              (if reply.Produced? && old(gattIf).Some? && old(c2Handle).Some? && !old(outNack)
                  && old(connection).Some? && old(connection).value.subscribed
               then [Indication(old(gattIf).value, old(connection).value.connId, old(c2Handle).value, reply.frame)]
               else [])
    {
      if gattIf.None? || c2Handle.None? || connection.None? || !connection.value.subscribed {
        return NotProcessed;
      }
      var conn := connection.value;
      Sync(btp);
      if outNack {
        return NotProcessed;
      }
      outData := Resized(outData, MAX_MTU_SIZE);
      btp.ProcessOutgoing(conn.mtu);
      match reply
      case EngineError => return Failed;
      case Nothing => return NotProcessed;
      case Produced(frame) =>
        assert (frame + outData[|frame|..])[..|frame|] == frame;
        outcome := SendFrame(gatts, Indication(gattIf.value, conn.connId, c2Handle.value, frame), accepted);
    }
  }
}
