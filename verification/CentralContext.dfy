/**
 * The central's shared object: its hooks and the sections of its pumps, each proved against the
 * value-level section of `CentralState` that `Central` interleaves. Signals are separate fields.
 */
module CentralContext {
  import opened Base
  import opened BtpEngine
  import opened CentralState

  datatype GattWrite = GattWrite(conn: nat, attr: nat, data: Bytes)

  /** The host stack, reduced to the writes it is asked to make. */
  class BleDriver {
    var writes: seq<GattWrite>

    constructor ()
      ensures writes == []
    {
      writes := [];
    }

    method Write(w: GattWrite)
      modifies this
      ensures writes == old(writes) + [w]
    {
      writes := writes + [w];
    }
  }

  class EspBtpGattClientContext {
    var synced: bool
    var connHandle: Option<nat>
    var failed: bool
    var mtu: Option<nat>
    var peer: nat
    var matterRange: Option<(nat, nat)>
    var servicesDone: bool
    var c1Val: Option<nat>
    var c2Val: Option<nat>
    var charsDone: bool
    var subscribed: bool
    var inData: Bytes
    var outData: Bytes
    var outInflight: bool
    var notifyProgress: bool
    var notifyIn: bool
    var notifyOut: bool

    function Snapshot(): Context
      reads this
    {
      Context(Discovery(synced, connHandle, matterRange, servicesDone, c1Val, c2Val, charsDone, subscribed),
              failed, mtu, peer, inData, outData, outInflight, notifyProgress, notifyIn, notifyOut)
    }

    constructor ()
      ensures Snapshot() == FRESH
    {
      synced, connHandle, matterRange, servicesDone := false, None, None, false;
      c1Val, c2Val, charsDone, subscribed := None, None, false, false;
      failed, mtu, peer, inData, outData, outInflight := false, None, 0, [], [], false;
      notifyProgress, notifyIn, notifyOut := false, false, false;
    }

    /** `run` begins: the device to connect to. */
    method SetPeer(addr: nat)
      modifies this`peer
      ensures Snapshot() == old(Snapshot()).(peer := addr) && peer == addr
    {
      peer := addr;
    }

    method OnHostSync()
      modifies this`synced, this`notifyProgress
      ensures synced && notifyProgress
    {
      synced := true;
      notifyProgress := true;
    }

    method OnConnect(ok: bool, handle: nat)
      modifies this
      ensures Snapshot() == ConnectResult(old(Snapshot()), ok, handle).(notifyProgress := true)
      ensures connHandle == (if ok then Some(handle) else old(connHandle)) && failed == (old(failed) || !ok)
    {
      if ok {
        connHandle := Some(handle);
      } else {
        failed := true;
      }
      notifyProgress := true;
    }

    /** The only hook that wakes all three waiters. */
    method OnDisconnect()
      modifies this
      ensures Snapshot() ==
              old(Snapshot()).(failed := true, notifyProgress := true, notifyIn := true, notifyOut := true)
      ensures failed && notifyProgress && notifyIn && notifyOut
    {
      failed := true;
      notifyProgress := true;
      notifyIn := true;
      notifyOut := true;
    }

    method OnMtu(handle: nat, value: nat)
      modifies this
      ensures Snapshot() == MtuSet(old(Snapshot()), handle, value)
      ensures mtu == if old(connHandle) == Some(handle) then Some(value) else old(mtu)
    {
      if connHandle == Some(handle) {
        mtu := Some(value);
      }
    }

    method OnService(found: Found)
      modifies this
      ensures Snapshot() ==
              var c := ServiceFound(old(Snapshot()), found);
              if found.NoMoreServices? then c.(notifyProgress := true) else c
      ensures matterRange == if found.MatterService? then Some((found.first, found.last)) else old(matterRange)
      ensures servicesDone == (old(servicesDone) || found.NoMoreServices?)
    {
      match found
      case MatterService(first, last) => matterRange := Some((first, last));
      case OtherService =>
      case NoMoreServices =>
        servicesDone := true;
        notifyProgress := true;
    }

    method OnCharacteristic(found: Chr)
      modifies this
      ensures Snapshot() ==
              var c := ChrFound(old(Snapshot()), found);
              if found.NoMoreChrs? then c.(notifyProgress := true) else c
      ensures c1Val == if found.ChrC1? then Some(found.val) else old(c1Val)
      ensures c2Val == if found.ChrC2? then Some(found.val) else old(c2Val)
      ensures charsDone == (old(charsDone) || found.NoMoreChrs?)
    {
      match found
      case ChrC1(val) => c1Val := Some(val);
      case ChrC2(val) => c2Val := Some(val);
      case OtherChr =>
      case NoMoreChrs =>
        charsDone := true;
        notifyProgress := true;
    }

    method OnWriteComplete(attr: nat, status: int)
      modifies this
      ensures Snapshot() ==
              var c := WriteCompleted(old(Snapshot()), attr, status);
              if LooksLikeCccd(old(Snapshot()), attr) then c.(notifyProgress := true)
              else if old(c1Val) == Some(attr) then c.(notifyOut := true) else c
      ensures if old(c2Val).Some? && attr == old(c2Val).value + 1
              then subscribed == (status == 0) && notifyProgress && outInflight == old(outInflight)
              else subscribed == old(subscribed) && outInflight == (old(outInflight) && old(c1Val) != Some(attr))
    {
      if c2Val.Some? && attr == c2Val.value + 1 {
        subscribed := status == 0;
        notifyProgress := true;
      } else if c1Val == Some(attr) {
        outInflight := false;
        notifyOut := true;
      }
    }

    method OnNotify(attr: nat, read: Option<Bytes>)
      requires read.Some? ==> |read.value| <= MAX_MTU_SIZE
      modifies this
      ensures Snapshot() ==
              if old(c2Val) == Some(attr) then Indicated(old(Snapshot()), read).(notifyIn := true)
              else old(Snapshot())
      ensures inData == if old(c2Val) == Some(attr) && old(inData) == [] then read.GetOr([]) else old(inData)
      ensures old(c2Val) == Some(attr) ==> notifyIn
    {
      if c2Val == Some(attr) {
        if inData == [] {
          inData := Resized(inData, MAX_MTU_SIZE);
          if read.Some? {
            inData := read.value + inData[|read.value|..];
            inData := inData[..|read.value|];
            assert inData == read.value;
          } else {
            inData := [];
          }
        }
        notifyIn := true;
      }
    }

    method ProcessIncoming(btp: Btp, ok: bool) returns (outcome: Outcome)
      modifies this, btp
      ensures var p := IncomingPass(old(Snapshot()), ok);
              outcome == p.outcome && Snapshot() == p.ctx && btp.log == old(btp.log) + Entries(false, p.call)
      ensures btp.log ==
              old(btp.log) +
              if !old(failed) && old(inData) != [] then [CallEntry(Feed(old(mtu), old(peer), old(inData)))] else []
      ensures inData == if !old(failed) && ok then [] else old(inData)
    {
      if failed {
        return Failed;
      }
      if inData == [] {
        return NotProcessed;
      }
      btp.ProcessIncoming(mtu, peer, inData);
      if !ok {
        return Failed;
      }
      inData := [];
      return Processed;
    }

    method ProcessOutgoing(btp: Btp, driver: BleDriver, conn: nat, c1: nat, reply: Reply, accepted: bool)
      returns (outcome: Outcome)
      requires reply.Fits()
      modifies this, btp, driver
      ensures var p := OutgoingPass(old(Snapshot()), reply, accepted);
              && outcome == p.outcome && Snapshot() == p.ctx && btp.log == old(btp.log) + Entries(false, p.call)
              && driver.writes == old(driver.writes) +
                                  (if p.write.Some? then [GattWrite(conn, c1, p.write.value)] else [])
      ensures driver.writes ==
              old(driver.writes) +
              if reply.Produced? && !old(failed) && !old(outInflight) then [GattWrite(conn, c1, reply.frame)] else []
      ensures outInflight == (old(outInflight) || (reply.Produced? && !old(failed) && accepted))
    {
      if failed {
        return Failed;
      }
      if outInflight {
        return NotProcessed;
      }
      outData := Resized(outData, MAX_MTU_SIZE);
      btp.ProcessOutgoing(mtu);
      match reply
      case EngineError => return Failed;
      case Nothing => return NotProcessed;
      case Produced(frame) =>
        outData := frame + outData[|frame|..];
        driver.Write(GattWrite(conn, c1, outData[..|frame|]));
        if !accepted {
          return Failed;
        }
        outInflight := true;
        return Processed;
    }
  }
}
