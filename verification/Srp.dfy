/** The SRP publisher: keeps the client's services in step with the set Matter wants published. */
module Srp {
  import opened Base
  import opened SrpClient

  /** One registration: the service and the client's slot for it. */
  datatype Record = Record(service: LocalService, slot: nat)

  function Names(records: seq<Record>): (n: seq<LocalService>)
    ensures |n| == |records| && forall i | 0 <= i < |n| :: n[i] == records[i].service
  {
    seq(|records|, i requires 0 <= i < |records| => records[i].service)
  }

  function SlotsOf(records: seq<Record>): (n: seq<nat>)
    ensures |n| == |records| && forall i | 0 <= i < |n| :: n[i] == records[i].slot
  {
    seq(|records|, i requires 0 <= i < |records| => records[i].slot)
  }

  // ----- The early exit ------------------------------------------------------------------------

  /** The test that nothing changed: as many as registered, and every one of them registered. */
  predicate SameServices(target: seq<LocalService>, records: seq<Record>) {
    |target| == |records| && forall i | 0 <= i < |target| :: target[i] in Names(records)
  }

  lemma {:induction false} ElementsCount<T>(s: seq<T>)
    ensures |Elements(s)| <= |s|
    ensures DupFree(s) <==> |Elements(s)| == |s|
  {
    if s != [] {
      var init, last := s[..|s| - 1], s[|s| - 1];
      ElementsCount(init);
      assert s == init + [last];
      assert Elements(s) == Elements(init) + {last};
      if last in init {
        var i :| 0 <= i < |init| && init[i] == last;
        assert s[i] == s[|s| - 1];
        assert Elements(s) == Elements(init);
      } else {
        assert |Elements(s)| == |Elements(init)| + 1;
        assert forall i | 0 <= i < |init| :: s[i] == init[i] && s[i] != last;
      }
    }
  }

  lemma SubsetOfSameSize<T>(a: set<T>, b: set<T>)
    requires a <= b && |a| == |b|
    ensures a == b
  {
    assert |b - a| == |b| - |a|;
  }

  lemma SubsetCount<T>(a: set<T>, b: set<T>)
    requires a <= b
    ensures |a| <= |b|
  {
    assert |b - a| == |b| - |a|;
  }

  /**
   * The pigeonhole behind the early exit. A target that passes the test is the registered set exactly
   * if it names as many different services, as every duplicate-free target does; and between
   * duplicate-free lists the test is the same as equality of the sets.
   */
  lemma EarlyExitIsSetEquality(target: seq<LocalService>, records: seq<Record>)
    ensures SameServices(target, records) ==>
              && (Elements(target) == Elements(Names(records)) <==> |Elements(target)| == |Elements(Names(records))|)
              && (DupFree(target) ==> Elements(target) == Elements(Names(records)) && DupFree(Names(records)))
    ensures DupFree(target) && DupFree(Names(records)) ==>
              (SameServices(target, records) <==> Elements(target) == Elements(Names(records)))
  {
    var names := Names(records);
    ElementsCount(target);
    ElementsCount(names);
    assert forall i | 0 <= i < |target| :: target[i] in Elements(target);
    if SameServices(target, records) {
      assert Elements(target) <= Elements(names);
      if |Elements(names)| <= |Elements(target)| {
        SubsetCount(Elements(target), Elements(names));
        SubsetOfSameSize(Elements(target), Elements(names));
      }
    }
  }

  /** A duplicate in the target can fool the early exit: one of the services is silently dropped. */
  lemma DuplicateTargetIsMissed(a: LocalService, b: LocalService)
    requires a != b
    ensures
      var records, target := [Record(a, 0), Record(b, 1)], [a, a];
      && DupFree(Names(records)) && SameServices(target, records)
      && Elements(target) != Elements(Names(records))
  {
    var records, target := [Record(a, 0), Record(b, 1)], [a, a];
    assert Names(records) == [a, b];
    assert b in Elements(Names(records)) && b !in Elements(target);
  }

  lemma SameAsItself(target: seq<LocalService>, records: seq<Record>)
    requires Names(records) == target
    ensures SameServices(target, records)
  {
    assert forall i | 0 <= i < |target| :: Names(records)[i] == target[i];
  }

  // ----- What an update asks of the client -----------------------------------------------------

  /** The request drops the record's service if that stays, and withdraws it if it does not. */
  predicate AsksRightly(r: Request, record: Record, target: seq<LocalService>) {
    r == if record.service in target then Drop(record.service) else Withdraw(record.service)
  }

  function Removals(records: seq<Record>, target: seq<LocalService>): (r: seq<Request>)
    ensures |r| == |records| && forall i | 0 <= i < |records| :: AsksRightly(r[i], records[i], target)
  {
    seq(|records|, i requires 0 <= i < |records| =>
      if records[i].service in target then Drop(records[i].service) else Withdraw(records[i].service))
  }

  function Additions(target: seq<LocalService>): (r: seq<Request>)
    ensures |r| == |target| && forall i | 0 <= i < |target| :: r[i] == Add(target[i])
  {
    seq(|target|, i requires 0 <= i < |target| => Add(target[i]))
  }

  /** Of what a drain asks, the withdrawals are of services that go, the drops of services that stay. */
  lemma WithdrawalsAreRight(before: seq<Request>, log: seq<Request>, records: seq<Record>, target: seq<LocalService>)
    requires log == before + Removals(records, target)
    ensures forall k | |before| <= k < |log| ::
              match log[k] {
                case Withdraw(service) => service !in target
                case Drop(service) => service in target
                case _ => false
              }
  {
    forall k | |before| <= k < |log|
      ensures AsksRightly(log[k], records[k - |before|], target)
    {
      assert log[k] == Removals(records, target)[k - |before|];
    }
  }

  /** An update asks for the removals, in the order of the records, and then for the whole target. */
  lemma UpdateAsks(before: seq<Request>, log: seq<Request>, records: seq<Record>, target: seq<LocalService>)
    requires log == before + Removals(records, target) + Additions(target)
    ensures
      var n, m := |before|, |records|;
      && |log| == n + m + |target| && log[..n] == before
      && (forall i | 0 <= i < m ::
            var service := records[i].service;
            log[n + i] == if service in target then Drop(service) else Withdraw(service))
      && (forall i | 0 <= i < |target| :: log[n + m + i] == Add(target[i]))
  {
    var n, m := |before|, |records|;
    forall i | 0 <= i < m ensures AsksRightly(log[n + i], records[i], target) {
      assert log[n + i] == Removals(records, target)[i];
    }
    forall i | 0 <= i < |target| ensures log[n + m + i] == Add(target[i]) {
      assert log[n + m + i] == Additions(target)[i];
    }
  }

  // ----- Agreement -----------------------------------------------------------------------------

  /** Each record's slot is live and holds the record's service. */
  ghost predicate Held(records: seq<Record>, slots: Slots) {
    && DupFree(SlotsOf(records))
    && (forall i | 0 <= i < |records| ::
          Live(slots, records[i].slot) && slots[records[i].slot].service == records[i].service)
  }

  /** ... and there is no other live slot. */
  ghost predicate Agree(records: seq<Record>, slots: Slots) {
    && Held(records, slots)
    && (forall slot | Live(slots, slot) :: slot in SlotsOf(records))
  }

  /** Whatever the server acknowledges, the records stay right. */
  lemma AgreementSettles(records: seq<Record>, slots: Slots, later: Slots)
    requires Agree(records, slots) && Settled(slots, later)
    ensures Agree(records, later)
  {
    forall slot | Live(later, slot) ensures slot in SlotsOf(records) {
      assert Live(slots, slot);
    }
  }

  /** Removing the first record's slot leaves the other records in agreement. */
  lemma RemovalAgrees(records: seq<Record>, before: Slots, slots: Slots)
    requires records != [] && Agree(records, before)
    requires Settled(before - {records[0].slot}, slots - {records[0].slot})
    requires !Live(slots, records[0].slot)
    ensures Agree(records[1..], slots)
  {
    var gone, rest := records[0].slot, records[1..];
    forall i | 0 <= i < |rest|
      ensures Live(slots, rest[i].slot) && slots[rest[i].slot].service == rest[i].service
    {
      assert rest[i] == records[i + 1];
      assert SlotsOf(records)[0] != SlotsOf(records)[i + 1];
      assert Live(before - {gone}, rest[i].slot);
      assert Live(slots - {gone}, rest[i].slot);
    }
    assert forall i | 0 <= i < |rest| :: SlotsOf(rest)[i] == SlotsOf(records)[i + 1];
    forall slot | Live(slots, slot) ensures slot in SlotsOf(rest) {
      assert slot in slots - {gone};
      assert Live(before, slot);
      var i :| 0 <= i < |records| && SlotsOf(records)[i] == slot;
      assert SlotsOf(rest)[i - 1] == slot;
    }
  }

  /** A fresh slot for a new service extends the agreement. */
  lemma AdditionAgrees(records: seq<Record>, before: Slots, slots: Slots, added: Record)
    requires Agree(records, before) && !Live(before, added.slot)
    requires added.slot in slots && slots[added.slot].service == added.service && slots[added.slot].state.Adding?
    requires Settled(before - {added.slot}, slots - {added.slot})
    ensures Agree(records + [added], slots)
    ensures forall i | 0 <= i < |records| ::
              && records[i].slot in before && records[i].slot in slots
              && slots[records[i].slot].serial == before[records[i].slot].serial
  {
    var all := records + [added];
    forall i | 0 <= i < |records|
      ensures records[i].slot != added.slot && Live(slots, records[i].slot)
      ensures slots[records[i].slot].service == records[i].service
      ensures slots[records[i].slot].serial == before[records[i].slot].serial
    {
      assert Live(before - {added.slot}, records[i].slot);
      assert Live(slots - {added.slot}, records[i].slot);
    }
    assert SlotsOf(all) == SlotsOf(records) + [added.slot];
    forall slot | Live(slots, slot) ensures slot in SlotsOf(all) {
      if slot != added.slot {
        assert slot in slots - {added.slot};
        assert Live(before, slot);
        assert slot in SlotsOf(records);
      }
    }
  }

  lemma HeldPrefix(records: seq<Record>, last: Record, slots: Slots)
    requires Held(records + [last], slots)
    ensures Held(records, slots)
  {
    var all := records + [last];
    assert forall i | 0 <= i < |records| :: all[i] == records[i] && SlotsOf(all)[i] == SlotsOf(records)[i];
  }

  // ----- Withdrawals ---------------------------------------------------------------------------

  /** Nothing that stays is on its way out: what leaves did so at `first`, or is not in the target. */
  ghost predicate OnlyLeft(first: Slots, slots: Slots, target: seq<LocalService>) {
    forall slot | Leaving(slots, slot) ::
      (slot in first && slots[slot] == first[slot]) || slots[slot].service !in target
  }

  lemma OnlyLeftSettles(first: Slots, before: Slots, after: Slots, slot: nat, target: seq<LocalService>)
    requires OnlyLeft(first, before, target) && Settled(before - {slot}, after - {slot})
    requires Leaving(after, slot) ==> after[slot].service !in target
    ensures OnlyLeft(first, after, target)
  {
    forall other | Leaving(after, other)
      ensures (other in first && after[other] == first[other]) || after[other].service !in target
    {
      if other != slot {
        assert other in after - {slot};
        assert Leaving(before, other);
      }
    }
  }

  /** Whatever the server acknowledges sends nothing on its way. */
  lemma OnlyLeftStays(first: Slots, before: Slots, after: Slots, target: seq<LocalService>)
    requires OnlyLeft(first, before, target) && Settled(before, after)
    ensures OnlyLeft(first, after, target)
  {
    forall slot | Leaving(after, slot)
      ensures (slot in first && after[slot] == first[slot]) || after[slot].service !in target
    {
      assert Leaving(before, slot);
    }
  }

  /** The entry that was in the slot is being removed there, or its removal has been acknowledged. */
  predicate Withdrawn(entry: Entry, slot: nat, slots: Slots, acked: set<nat>) {
    entry.serial in acked || (slot in slots && slots[slot] == entry.(state := Removing))
  }

  /** Every record whose service is not in the target has been withdrawn from where `first` had it. */
  ghost predicate AllWithdrawn(records: seq<Record>, target: seq<LocalService>,
                               first: Slots, slots: Slots, acked: set<nat>)
  {
    forall k | 0 <= k < |records| && records[k].service !in target ::
      records[k].slot in first && Withdrawn(first[records[k].slot], records[k].slot, slots, acked)
  }

  lemma WithdrawalsStay(records: seq<Record>, target: seq<LocalService>, first: Slots,
                        slots: Slots, later: Slots, acked: set<nat>, more: set<nat>)
    requires AllWithdrawn(records, target, first, slots, acked) && Kept(slots, later, more) && acked <= more
    ensures AllWithdrawn(records, target, first, later, more)
  {
    forall k | 0 <= k < |records| && records[k].service !in target
      ensures Withdrawn(first[records[k].slot], records[k].slot, later, more)
    {
      assert Withdrawn(first[records[k].slot], records[k].slot, slots, acked);
      if records[k].slot in slots {
        assert Leaving(slots, records[k].slot) || first[records[k].slot].serial in acked;
      }
    }
  }

  lemma KeptThroughout(a: Slots, b: Slots, c: Slots, acked: set<nat>, more: set<nat>)
    requires Kept(a, b, acked) && Kept(b, c, more) && acked <= more
    ensures Kept(a, c, more)
  {
    forall slot | Leaving(a, slot)
      ensures (slot in c && c[slot] == a[slot]) || a[slot].serial in more
    {
      if a[slot].serial !in acked {
        assert Leaving(b, slot);
      }
    }
  }

  /** What is kept next to a live slot is kept. */
  lemma KeptAround(slots: Slots, later: Slots, gone: nat, acked: set<nat>)
    requires Live(slots, gone) && Kept(slots - {gone}, later - {gone}, acked)
    ensures Kept(slots, later, acked)
  {
    forall slot | Leaving(slots, slot)
      ensures (slot in later && later[slot] == slots[slot]) || slots[slot].serial in acked
    {
      assert Leaving(slots - {gone}, slot);
    }
  }

  lemma OnlyLeftThroughout(first: Slots, between: Slots, last: Slots, target: seq<LocalService>)
    requires OnlyLeft(first, between, target) && OnlyLeft(between, last, target)
    ensures OnlyLeft(first, last, target)
  {
    forall slot | Leaving(last, slot)
      ensures (slot in first && last[slot] == first[slot]) || last[slot].service !in target
    {
      if slot in between && last[slot] == between[slot] {
        assert Leaving(between, slot);
      }
    }
  }

  /** How far a drain has come: the records not yet taken out still have their entries. */
  ghost predicate Untouched(records: seq<Record>, i: nat, first: Slots, slots: Slots) {
    forall k | i <= k < |records| ::
      && records[k].slot in first && Live(slots, records[k].slot)
      && slots[records[k].slot].service == first[records[k].slot].service
      && slots[records[k].slot].serial == first[records[k].slot].serial
  }

  lemma DrainLeavesOthers(records: seq<Record>, i: nat, first: Slots, before: Slots, after: Slots)
    requires i < |records| && DupFree(SlotsOf(records)) && Untouched(records, i, first, before)
    requires Settled(before - {records[i].slot}, after - {records[i].slot})
    ensures Untouched(records, i + 1, first, after)
  {
    var gone := records[i].slot;
    forall k | i + 1 <= k < |records|
      ensures Live(after, records[k].slot)
      ensures after[records[k].slot].service == before[records[k].slot].service
      ensures after[records[k].slot].serial == before[records[k].slot].serial
    {
      assert SlotsOf(records)[i] != SlotsOf(records)[k];
      assert Live(before - {gone}, records[k].slot);
      assert Live(after - {gone}, records[k].slot);
    }
  }

  /** A removal withdraws its record if that is not in the target, and keeps the earlier withdrawals. */
  lemma DrainWithdraws(records: seq<Record>, i: nat, target: seq<LocalService>, first: Slots,
                       before: Slots, after: Slots, acked: set<nat>, more: set<nat>)
    requires i < |records| && Untouched(records, i, first, before)
    requires AllWithdrawn(records[..i], target, first, before, acked)
    requires Kept(before, after, more) && acked <= more
    requires records[i].service !in target ==>
               records[i].slot in after && after[records[i].slot] == before[records[i].slot].(state := Removing)
    ensures AllWithdrawn(records[..i + 1], target, first, after, more)
  {
    WithdrawalsStay(records[..i], target, first, before, after, acked, more);
    forall k | 0 <= k < i + 1 && records[..i + 1][k].service !in target
      ensures records[k].slot in first && Withdrawn(first[records[k].slot], records[k].slot, after, more)
    {
      if k < i {
        assert records[..i][k] == records[k];
      }
    }
  }

  class Publisher {
    const client: Client
    const max: nat               // `MAX_MATTER_SERVICES`
    var services: seq<Record>

    ghost predicate Valid()
      reads this, client
    {
      client.Valid() && |services| <= max
    }

    ghost predicate Agrees()
      reads this, client
    {
      Valid() && Agree(services, client.slots)
    }

    constructor (client: Client, max: nat)
      requires client.Valid()
      ensures Valid() && this.client == client && this.max == max && services == []
    {
      this.client, this.max, services := client, max, [];
    }

    /** Ask the client for a slot; assembling the service itself may fail too. */
    method Register(service: LocalService) returns (r: Result<nat, Error>)
      requires client.Valid()
      modifies client
      ensures client.Valid() && client.additions >= old(client.additions)
      ensures Kept(old(client.slots), client.slots, client.acked) && old(client.acked) <= client.acked
      ensures r.Err? ==> !r.error.ConstraintError? && Settled(old(client.slots), client.slots)
      ensures r.Ok? ==>
                && !Live(old(client.slots), r.value)
                && r.value in client.slots
                && client.slots[r.value] == Entry(service, Adding, old(client.additions))
                && Settled(old(client.slots) - {r.value}, client.slots - {r.value})
                && client.log == old(client.log) + [Add(service)]
    {
      var assembled: bool := *;
      if !assembled {
        return Err(ServiceError);
      }
      r := client.AddService(service);
    }

    /** Take every registered service out: those that stay only locally, the others gracefully. */
    method Drain(registered: seq<Record>, target: seq<LocalService>) returns (r: Result<(), Error>)
      requires client.Valid() && Agree(registered, client.slots)
      modifies client
      ensures client.Valid() && client.additions == old(client.additions)
      ensures Kept(old(client.slots), client.slots, client.acked) && old(client.acked) <= client.acked
      ensures r.Ok? ==>
                && (forall slot :: !Live(client.slots, slot))
                && AllWithdrawn(registered, target, old(client.slots), client.slots, client.acked)
                && client.log == old(client.log) + Removals(registered, target)
      ensures OnlyLeft(old(client.slots), client.slots, target)
      ensures forall k | |old(client.log)| <= k < |client.log| ::
                match client.log[k] {
                  case Withdraw(service) => service !in target
                  case Drop(service) => service in target
                  case _ => false
                }
      ensures r.Err? ==> r.error == ClientError
    {
      ghost var first := client.slots;
      for i := 0 to |registered|
        invariant client.Valid() && client.additions == old(client.additions)
        invariant Agree(registered[i..], client.slots)
        invariant Kept(first, client.slots, client.acked) && old(client.acked) <= client.acked
        invariant Untouched(registered, i, first, client.slots)
        invariant AllWithdrawn(registered[..i], target, first, client.slots, client.acked)
        invariant OnlyLeft(first, client.slots, target)
        invariant client.log == old(client.log) + Removals(registered[..i], target)
      {
        var record := registered[i];
        ghost var before, acked := client.slots, client.acked;
        r := DrainOne(registered, i, record.service in target);
        KeptThroughout(first, before, client.slots, acked, client.acked);
        if r.Err? {
          OnlyLeftStays(first, before, client.slots, target);
          WithdrawalsAreRight(old(client.log), client.log, registered[..i], target);
          return;
        }
        OnlyLeftSettles(first, before, client.slots, record.slot, target);
        DrainWithdraws(registered, i, target, first, before, client.slots, acked, client.acked);
        DrainLeavesOthers(registered, i, first, before, client.slots);
        assert Removals(registered[..i + 1], target) ==
               Removals(registered[..i], target)
               + [if record.service in target then Drop(record.service) else Withdraw(record.service)];
      }
      assert registered[..|registered|] == registered;
      assert registered[|registered|..] == [];
      WithdrawalsAreRight(old(client.log), client.log, registered, target);
      r := Ok(());
    }

    /** The drain of one record, the first of those still registered. */
    method DrainOne(registered: seq<Record>, i: nat, immediate: bool) returns (r: Result<(), Error>)
      requires client.Valid() && i < |registered| && Agree(registered[i..], client.slots)
      modifies client
      ensures client.Valid() && client.additions == old(client.additions)
      ensures Kept(old(client.slots), client.slots, client.acked) && old(client.acked) <= client.acked
      ensures r.Err? ==> r.error == ClientError && Settled(old(client.slots), client.slots)
      ensures r.Err? ==> client.log == old(client.log)
      ensures r.Ok? ==>
                var record := registered[i];
                && Agree(registered[i + 1..], client.slots)
                && Settled(old(client.slots) - {record.slot}, client.slots - {record.slot})
                && record.slot in old(client.slots)
                && old(client.slots)[record.slot].service == record.service
                && (if immediate then record.slot !in client.slots
                    else
                      && record.slot in client.slots
                      && client.slots[record.slot] == old(client.slots)[record.slot].(state := Removing))
                && client.log == old(client.log) + [if immediate then Drop(record.service)
                                                    else Withdraw(record.service)]
    {
      var record := registered[i];
      ghost var before := client.slots;
      assert registered[i..][0] == record && registered[i..][1..] == registered[i + 1..];
      r := client.RemoveService(record.slot, immediate);
      KeptAround(before, client.slots, record.slot, client.acked);
      if r.Ok? {
        RemovalAgrees(registered[i..], before, client.slots);
      }
    }

    /** Add every service of the target, in order, into slots of their own. */
    method RegisterAll(target: seq<LocalService>) returns (r: Result<(), Error>)
      requires client.Valid() && services == []
      requires forall slot :: !Live(client.slots, slot)
      modifies this, client
      ensures Valid()
      ensures Kept(old(client.slots), client.slots, client.acked) && old(client.acked) <= client.acked
      ensures OnlyLeft(old(client.slots), client.slots, target)
      ensures r.Ok? ==>
                && Agrees() && Names(services) == target
                && (forall k | 0 <= k < |services| :: client.slots[services[k].slot].serial >= old(client.additions))
                && client.log == old(client.log) + Additions(target)
      ensures r.Err? ==> Held(services, client.slots) && Names(services) <= target
      ensures r == Err(ConstraintError) ==> |target| > max
    {
      ghost var first := client.slots;
      for i := 0 to |target|
        invariant client.Valid() && client.additions >= old(client.additions)
        invariant |services| <= max && Names(services) == target[..i]
        invariant Agree(services, client.slots)
        invariant Kept(first, client.slots, client.acked) && old(client.acked) <= client.acked
        invariant OnlyLeft(first, client.slots, target)
        invariant forall k | 0 <= k < |services| ::
                    client.slots[services[k].slot].serial >= old(client.additions)
        invariant client.log == old(client.log) + Additions(target[..i])
      {
        ghost var before, acked := client.slots, client.acked;
        var slot := Register(target[i]);
        KeptThroughout(first, before, client.slots, acked, client.acked);
        if slot.Err? {
          AgreementSettles(services, before, client.slots);
          OnlyLeftStays(first, before, client.slots, target);
          return Err(slot.error);
        }
        OnlyLeftSettles(first, before, client.slots, slot.value, target);
        AdditionAgrees(services, before, client.slots, Record(target[i], slot.value));
        if |services| >= max {
          HeldPrefix(services, Record(target[i], slot.value), client.slots);
          return Err(ConstraintError);
        }
        services := services + [Record(target[i], slot.value)];
        assert target[..i + 1] == target[..i] + [target[i]];
        assert Additions(target[..i + 1]) == Additions(target[..i]) + [Add(target[i])];
      }
      assert target[..|target|] == target;
      r := Ok(());
    }

    /**
     * Reconcile the client with the target. When the test finds nothing changed nothing is asked of
     * the client; otherwise everything that stays or is new is added afresh, together with the
     * removals, so that the next SRP update describes the host completely. Withdrawals, earlier ones
     * included, stay under way until the server acknowledges them.
     */
    method UpdateServices(target: seq<LocalService>) returns (r: Result<bool, Error>)
      requires Agrees()
      modifies this, client
      ensures Valid()
      ensures Kept(old(client.slots), client.slots, client.acked) && old(client.acked) <= client.acked
      ensures r.Ok? ==> Agrees() && SameServices(target, services)
      ensures r.Ok? && DupFree(target) ==> Elements(Names(services)) == Elements(target) && DupFree(Names(services))
      ensures r.Ok? ==> (!r.value <==> SameServices(target, old(services)))
      ensures r.Ok? && DupFree(target) && DupFree(old(Names(services))) ==>
                (!r.value <==> Elements(old(Names(services))) == Elements(target))
      ensures r == Ok(false) ==>
                services == old(services) && client.slots == old(client.slots) && client.log == old(client.log)
      ensures r == Ok(true) ==>
                && Names(services) == target
                && (forall k | 0 <= k < |services| :: client.slots[services[k].slot].serial >= old(client.additions))
                && client.log == old(client.log) + Removals(old(services), target) + Additions(target)
      ensures r == Ok(true) ==> AllWithdrawn(old(services), target, old(client.slots), client.slots, client.acked)
      ensures OnlyLeft(old(client.slots), client.slots, target)
      ensures r == Ok(true) ==> forall k | |old(client.log)| <= k < |client.log| && client.log[k].Withdraw? ::
                client.log[k].service !in target
      ensures r.Err? ==> Held(services, client.slots) && Names(services) <= target
      ensures r == Err(ConstraintError) ==> |target| > max
    {
      EarlyExitIsSetEquality(target, services);
      var same := IsUnchanged(target);
      if same {
        return Ok(false);
      }
      r := Rebuild(target);
      if r.Ok? {
        SameAsItself(target, services);
        EarlyExitIsSetEquality(target, services);
      }
    }

    /** The test: as many services as registered, and every one of them registered. */
    method IsUnchanged(target: seq<LocalService>) returns (same: bool)
      ensures same <==> SameServices(target, services)
    {
      same := |target| == |services|;
      for i := 0 to |target|
        invariant same <==> |target| == |services| && forall k | 0 <= k < i :: target[k] in Names(services)
      {
        same := same && target[i] in Names(services);
      }
    }

    /** The rebuilding behind a test that found a change. */
    method Rebuild(target: seq<LocalService>) returns (r: Result<bool, Error>)
      requires Agrees()
      modifies this, client
      ensures Valid() && r != Ok(false)
      ensures Kept(old(client.slots), client.slots, client.acked) && old(client.acked) <= client.acked
      ensures OnlyLeft(old(client.slots), client.slots, target)
      ensures r.Ok? ==>
                && Agrees() && Names(services) == target
                && (forall k | 0 <= k < |services| :: client.slots[services[k].slot].serial >= old(client.additions))
                && client.log == old(client.log) + Removals(old(services), target) + Additions(target)
                && AllWithdrawn(old(services), target, old(client.slots), client.slots, client.acked)
      ensures r.Ok? ==> forall k | |old(client.log)| <= k < |client.log| && client.log[k].Withdraw? ::
                client.log[k].service !in target
      ensures r.Err? ==> Held(services, client.slots) && Names(services) <= target
      ensures r == Err(ConstraintError) ==> |target| > max
    {
      var registered := [];
      for i := 0 to |services|
        invariant registered == services[..i]
      {
        assert |registered| < max;  // so that the push below cannot fail
        registered := registered + [services[i]];
      }
      assert registered == services;
      ghost var first := client.slots;

      services := [];

      var drained := Drain(registered, target);
      if drained.Err? {
        return Err(drained.error);
      }
      ghost var between, acked := client.slots, client.acked;
      var added := RegisterAll(target);
      KeptThroughout(first, between, client.slots, acked, client.acked);
      OnlyLeftThroughout(first, between, client.slots, target);
      if added.Err? {
        return Err(added.error);
      }
      WithdrawalsStay(registered, target, first, between, client.slots, acked, client.acked);
      assert forall i | 0 <= i < |target| :: Additions(target)[i].Add?;
      return Ok(true);
    }

    /** Clear both sides, and configure the host. */
    method Restart() returns (r: Result<(), Error>)
      requires client.Valid()
      modifies this, client
      ensures client.Valid()
      ensures r.Ok? ==> Agrees() && services == []
      ensures r.Err? ==> r.error == ClientError
    {
      var cleared := client.RemoveAll();
      if cleared.Err? {
        return Err(cleared.error);
      }
      services := [];
      var configured: bool := *;
      if !configured {
        return Err(ClientError);
      }
      return Ok(());
    }

    /** Collect a set, update to it, and wait for the next; the client settles meanwhile. */
    method RegisterOnce(target: seq<LocalService>) returns (r: Result<(), Error>)
      requires Agrees()
      modifies this, client
      ensures client.Valid()
      ensures r.Ok? ==> Agrees() && SameServices(target, services) && |target| <= max
      ensures r == Err(ConstraintError) <==> |target| > max
    {
      if |target| > max {
        return Err(ConstraintError);
      }
      var updated := UpdateServices(target);
      if updated.Err? {
        return Err(updated.error);
      }
      ghost var before := client.slots;
      client.Settle();
      AgreementSettles(services, before, client.slots);
      return Ok(());
    }

    /** Follow the sets Matter announces, one after the other. */
    method RunRegister(sets: seq<seq<LocalService>>) returns (r: Result<(), Error>)
      requires Agrees() && services == []
      modifies this, client
      ensures client.Valid()
      ensures r.Ok? ==> Agrees() && SameServices(if sets == [] then [] else sets[|sets| - 1], services)
      ensures r.Ok? ==> forall i | 0 <= i < |sets| :: |sets[i]| <= max
      ensures r == Err(ConstraintError) ==> exists i | 0 <= i < |sets| :: |sets[i]| > max
    {
      for i := 0 to |sets|
        invariant Agrees() && SameServices(if i == 0 then [] else sets[i - 1], services)
        invariant forall k | 0 <= k < i :: |sets[k]| <= max
      {
        r := RegisterOnce(sets[i]);
        if r.Err? {
          return;
        }
      }
      r := Ok(());
    }

    /**
     * A run: clear both sides, then follow the sets. It makes no assumption on what an earlier run left
     * behind. Between two sets it waits, and the client settles meanwhile.
     */
    method Run(sets: seq<seq<LocalService>>) returns (r: Result<(), Error>)
      requires client.Valid()
      modifies this, client
      ensures client.Valid()
      ensures r.Ok? ==> Agrees() && SameServices(if sets == [] then [] else sets[|sets| - 1], services)
      ensures r.Ok? && sets != [] && DupFree(sets[|sets| - 1]) ==>
                Elements(Names(services)) == Elements(sets[|sets| - 1]) && DupFree(Names(services))
      ensures r.Ok? ==> forall i | 0 <= i < |sets| :: |sets[i]| <= max
      ensures r == Err(ConstraintError) ==> exists i | 0 <= i < |sets| :: |sets[i]| > max
    {
      r := Restart();
      if r.Ok? {
        r := RunRegister(sets);
        if sets != [] {
          EarlyExitIsSetEquality(sets[|sets| - 1], services);
        }
      }
    }
  }
}
