/**
 * The SRP client of the Thread stack: slots holding services, each being added, registered, or
 * being removed. The client settles with its server on its own time: before any call takes effect,
 * acknowledged additions may have become registrations, and acknowledged removals may be gone.
 */
module SrpClient {
  import opened Base

  /** A Matter service to publish; only its identity matters here. */
  datatype LocalService = LocalService(id: nat)

  datatype SlotState = Adding | Registered | Removing

  /** What a slot holds; `serial` numbers the additions. */
  datatype Entry = Entry(service: LocalService, state: SlotState, serial: nat)

  type Slots = map<nat, Entry>

  datatype Error = ClientError | ServiceError | ConstraintError

  /** What the client was asked to do, in order. */
  datatype Request = Add(service: LocalService) | Drop(service: LocalService) | Withdraw(service: LocalService) | Clear

  /** A slot that is not on its way out. */
  predicate Live(slots: Slots, slot: nat) {
    slot in slots && !slots[slot].state.Removing?
  }

  /** A slot whose service the server has been asked to withdraw. */
  predicate Leaving(slots: Slots, slot: nat) {
    slot in slots && slots[slot].state.Removing?
  }

  /** `later` is `slots` after some acknowledgements of the server. */
  ghost predicate Settled(slots: Slots, later: Slots) {
    && (forall slot | slot in later ::
          && slot in slots
          && later[slot].service == slots[slot].service && later[slot].serial == slots[slot].serial
          && (later[slot].state == slots[slot].state || (slots[slot].state.Adding? && later[slot].state.Registered?)))
    && (forall slot | Live(slots, slot) :: Live(later, slot))
  }

  /** Every removal under way is still under way, or the server has acknowledged it. */
  ghost predicate Kept(slots: Slots, later: Slots, acked: set<nat>) {
    forall slot | Leaving(slots, slot) :: (slot in later && later[slot] == slots[slot]) || slots[slot].serial in acked
  }

  /** Only removals under way get acknowledged. */
  ghost predicate Acknowledged(slots: Slots, acked: set<nat>, later: set<nat>) {
    && acked <= later
    && (forall serial | serial in later - acked :: exists slot :: Leaving(slots, slot) && slots[slot].serial == serial)
  }

  /** The slots once the server has acknowledged what is under way in the slots `done`. */
  function AfterAcks(slots: Slots, done: set<nat>): Slots {
    map slot | slot in slots && (slots[slot].state.Removing? ==> slot !in done) ::
      if slots[slot].state.Adding? && slot in done then slots[slot].(state := Registered) else slots[slot]
  }

  function AckedRemovals(slots: Slots, done: set<nat>): set<nat> {
    set slot | slot in slots && slots[slot].state.Removing? && slot in done :: slots[slot].serial
  }

  /** Serials are below the count, one per slot, and none is acknowledged as removed. */
  ghost predicate Numbered(slots: Slots, additions: nat, acked: set<nat>) {
    && (forall slot | slot in slots :: slots[slot].serial < additions && slots[slot].serial !in acked)
    && (forall a, b | a in slots && b in slots && a != b :: slots[a].serial != slots[b].serial)
    && (forall serial | serial in acked :: serial < additions)
  }

  lemma AcksSettle(slots: Slots, done: set<nat>)
    ensures Settled(slots, AfterAcks(slots, done))
  {
  }

  lemma AcksKeep(slots: Slots, done: set<nat>, acked: set<nat>)
    ensures Kept(slots, AfterAcks(slots, done), acked + AckedRemovals(slots, done))
    ensures Acknowledged(slots, acked, acked + AckedRemovals(slots, done))
  {
    forall serial | serial in AckedRemovals(slots, done)
      ensures exists slot :: Leaving(slots, slot) && slots[slot].serial == serial
    {
      var slot :| slot in slots && slots[slot].state.Removing? && slot in done && slots[slot].serial == serial;
      assert Leaving(slots, slot);
    }
  }

  lemma AcksStayNumbered(slots: Slots, done: set<nat>, additions: nat, acked: set<nat>)
    requires Numbered(slots, additions, acked)
    ensures Numbered(AfterAcks(slots, done), additions, acked + AckedRemovals(slots, done))
  {
  }

  class Client {
    const capacity: nat
    var slots: Slots
    var additions: nat           // how many additions so far: the serial of the next
    var log: seq<Request>
    ghost var acked: set<nat>    // the serials whose removal the server has acknowledged

    ghost predicate Valid()
      reads this
    {
      Numbered(slots, additions, acked)
    }

    constructor (capacity: nat)
      ensures Valid() && slots == map[] && log == [] && acked == {} && this.capacity == capacity
    {
      this.capacity := capacity;
      slots, additions, log, acked := map[], 0, [], {};
    }

    /** The server acknowledges any of what is under way. */
    method Settle()
      requires Valid()
      modifies this`slots, this`acked
      ensures Valid() && Settled(old(slots), slots)
      ensures Kept(old(slots), slots, acked) && Acknowledged(old(slots), old(acked), acked)
    {
      var done: set<nat> := *;
      AcksSettle(slots, done);
      AcksKeep(slots, done, acked);
      AcksStayNumbered(slots, done, additions, acked);
      acked := acked + AckedRemovals(slots, done);
      slots := AfterAcks(slots, done);
    }

    /** Take a free slot for the service, if there is one and the stack agrees. */
    method AddService(service: LocalService) returns (r: Result<nat, Error>)
      requires Valid()
      modifies this`slots, this`additions, this`log, this`acked
      ensures Valid() && additions >= old(additions)
      ensures Kept(old(slots), slots, acked) && Acknowledged(old(slots), old(acked), acked)
      ensures r.Err? ==> r.error == ClientError && Settled(old(slots), slots)
      ensures r.Ok? ==>
                && !Live(old(slots), r.value)
                && r.value in slots && slots[r.value] == Entry(service, Adding, old(additions))
                && Settled(old(slots) - {r.value}, slots - {r.value})
                && log == old(log) + [Add(service)]
    {
      Settle();
      var agrees: bool := *;
      var slot := 0;
      while slot < capacity && slot in slots
      {
        slot := slot + 1;
      }
      if !agrees || slot >= capacity {
        return Err(ClientError);
      }
      ghost var settled := slots;
      slots := slots[slot := Entry(service, Adding, additions)];
      assert slots - {slot} == settled;
      additions := additions + 1;
      log := log + [Add(service)];
      return Ok(slot);
    }

    /** Free the slot at once, or ask the server to withdraw its service first. */
    method RemoveService(slot: nat, immediate: bool) returns (r: Result<(), Error>)
      requires Valid()
      modifies this`slots, this`log, this`acked
      ensures Valid() && Acknowledged(old(slots), old(acked), acked)
      ensures Kept(old(slots) - {slot}, slots - {slot}, acked)
      ensures r.Err? ==> r.error == ClientError && Settled(old(slots), slots)
      ensures r.Err? ==> Kept(old(slots), slots, acked) && log == old(log)
      ensures r.Ok? ==>
                && slot in old(slots)
                && Settled(old(slots) - {slot}, slots - {slot})
                && (if immediate then slot !in slots
                    else slot in slots && slots[slot] == old(slots)[slot].(state := Removing))
                && log == old(log) + [if immediate then Drop(old(slots)[slot].service)
                                      else Withdraw(old(slots)[slot].service)]
    {
      Settle();
      var agrees: bool := *;
      ghost var settled := slots;
      assert Kept(old(slots) - {slot}, settled - {slot}, acked) by {
        forall s | Leaving(old(slots) - {slot}, s)
          ensures (s in settled - {slot} && (settled - {slot})[s] == (old(slots) - {slot})[s]) ||
                  (old(slots) - {slot})[s].serial in acked
        {
          assert Leaving(old(slots), s);
        }
      }
      if !agrees || slot !in slots {
        return Err(ClientError);
      }
      var service := slots[slot].service;
      assert Settled(old(slots) - {slot}, settled - {slot}) by {
        forall s | Live(old(slots) - {slot}, s) ensures Live(settled - {slot}, s) {
          assert Live(old(slots), s);
        }
      }
      if immediate {
        slots := slots - {slot};
        assert slots - {slot} == settled - {slot};
        log := log + [Drop(service)];
      } else {
        slots := slots[slot := slots[slot].(state := Removing)];
        assert slots - {slot} == settled - {slot};
        log := log + [Withdraw(service)];
      }
      return Ok(());
    }

    /** Forget the host and all its services, without a word to the server. */
    method RemoveAll() returns (r: Result<(), Error>)
      requires Valid()
      modifies this`slots, this`log
      ensures Valid()
      ensures r.Ok? ==> slots == map[] && log == old(log) + [Clear]
      ensures r.Err? ==> r.error == ClientError
    {
      var agrees: bool := *;
      if !agrees {
        return Err(ClientError);
      }
      slots := map[];
      log := log + [Clear];
      return Ok(());
    }
  }
}
