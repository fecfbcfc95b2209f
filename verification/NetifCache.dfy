/** The cached state of an interface, reloaded until it changes. */
module NetifCache {
  import opened Base
  import opened Netif

  datatype Cache = Cache(
    name: string, operational: bool, hwAddr: Bytes, ipv4: Ipv4, ipv6: Ipv6, kind: InterfaceType, index: nat)

  /** One reading of the interface: the L2 state, the info, and a hardware address that overrides it. */
  datatype Load = Load(l2: bool, info: NetifInfo, hwAddr: Option<Bytes>) {
    /** The parts of fixed size fit the cache; otherwise storing them panics. */
    predicate Fits() {
      |info.name| <= 6 && |hwAddr.GetOr(info.hwAddr)| == 8
    }
  }

  const FRESH := Cache("", false, Zeros(8), UNSPECIFIED_V4, UNSPECIFIED_V6, WiFi, 0)

  /** What of a reading gets reported. */
  function Projected(l: Load): Cache {
    Cache(l.info.name, l.info.operational && l.l2, l.hwAddr.GetOr(l.info.hwAddr),
          InfoIpv4Addr(l.info), InfoIpv6Addr(l.info), l.info.kind, l.info.index)
  }

  /** The L2 state counts, a hardware address given apart wins, and of the IPv4 addresses the first is kept. */
  lemma ProjectionPicks(l: Load)
    ensures
      var c := Projected(l);
      && (c.operational <==> l.l2 && l.info.operational)
      && c.hwAddr == (if l.hwAddr.Some? then l.hwAddr.value else l.info.hwAddr)
      && c.ipv4 == (if l.info.ipv4Addrs == [] then Zeros(4) else l.info.ipv4Addrs[0])
      && c.name == l.info.name && c.kind == l.info.kind && c.index == l.info.index
  {
    assert Zeros(4) == UNSPECIFIED_V4;
  }

  predicate IsOperationalV6(c: Cache) {
    c.operational && c.ipv6 != UNSPECIFIED_V6
  }

  predicate IsOperational(c: Cache) {
    IsOperationalV6(c) && c.ipv4 != UNSPECIFIED_V4
  }

  /** What the cache exports: an unspecified address is exported as none. */
  function Exported(c: Cache): NetifInfo {
    NetifInfo(c.name, c.operational, c.hwAddr,
              if c.ipv4 == UNSPECIFIED_V4 then [] else [c.ipv4],
              if c.ipv6 == UNSPECIFIED_V6 then [] else [c.ipv6],
              c.kind, c.index)
  }

  /** Only Thread caches an address that is neither link-local nor unspecified. */
  predicate WellKept(c: Cache) {
    c.kind.Thread? || LinkLocal(c.ipv6) || c.ipv6 == UNSPECIFIED_V6
  }

  /** The cached predicates agree with the direct ones. */
  lemma OperationalAgrees(l: Load)
    ensures IsOperationalV6(Projected(l)) <==> InfoIsOperationalV6(l.l2, l.info)
    ensures IsOperational(Projected(l)) <==> InfoIsOperational(l.l2, l.info)
    ensures IsOperational(Projected(l)) <==>
            && l.l2 && l.info.operational && Specified(InfoIpv6Addr(l.info))
            && l.info.ipv4Addrs != [] && Specified(l.info.ipv4Addrs[0])
  {
    OperationalExactly(l.l2, l.info);
  }

  /** Loading an export back changes nothing, exactly for a well-kept cache. */
  lemma ExportLoadsBack(c: Cache)
    ensures Projected(Load(true, Exported(c), None)) == c <==> WellKept(c)
  {
    if c.ipv6 != UNSPECIFIED_V6 {
      assert Exported(c).ipv6Addrs[1..] == [];
    }
  }

  lemma EveryLoadIsWellKept(l: Load)
    ensures WellKept(Projected(l)) && WellKept(FRESH)
  {
  }

  class NetifInfoOwned {
    var name: string
    var operational: bool
    var hwAddr: Bytes
    var ipv4Addr: Ipv4
    var ipv6Addr: Ipv6
    var kind: InterfaceType
    var index: nat

    function Snapshot(): Cache
      reads this
    {
      Cache(name, operational, hwAddr, ipv4Addr, ipv6Addr, kind, index)
    }

    predicate Valid()
      reads this
    {
      |name| <= 6 && |hwAddr| == 8
    }

    constructor ()
      ensures Valid() && Snapshot() == FRESH
    {
      name, operational, hwAddr := "", false, Zeros(8);
      ipv4Addr, ipv6Addr, kind, index := UNSPECIFIED_V4, UNSPECIFIED_V6, WiFi, 0;
    }

    /** Store a reading if it differs from what is cached. `None` is the panic of a part that does not fit. */
    method LoadFromInfo(l: Load) returns (changed: Option<bool>)
      requires Valid()
      modifies this
      ensures changed.None? <==> !l.Fits()
      ensures changed.Some? ==>
                && Valid() && Snapshot() == Projected(l)
                && (changed.value <==> old(Snapshot()) != Projected(l))
    {
      var hw := l.hwAddr.GetOr(l.info.hwAddr);
      var ipv4 := InfoIpv4Addr(l.info);
      var ipv6 := InfoIpv6Addr(l.info);
      var up := l.info.operational && l.l2;

      var differs :=
        name != l.info.name || operational != up || hwAddr != hw || ipv4Addr != ipv4 || ipv6Addr != ipv6 ||
        kind != l.info.kind || index != l.info.index;
      if differs {
        if |l.info.name| > 6 || |hw| != 8 {
          return None;
        }
        name := l.info.name;
        operational := up;
        hwAddr := hw;
        ipv4Addr := ipv4;
        ipv6Addr := ipv6;
        kind := l.info.kind;
        index := l.info.index;
      }
      return Some(differs);
    }

    /**
     * Load one reading after the other, noting which of them changed the cache. `None` is the panic of
     * the first part that does not fit. Each note tells exactly whether its reading projects to
     * something else than the one before it, and the cache always shows the last one.
     */
    method LoadAll(loads: seq<Load>) returns (changes: Option<seq<bool>>)
      requires Valid()
      modifies this
      ensures changes.None? <==> exists i | 0 <= i < |loads| :: !loads[i].Fits()
      ensures changes.Some? ==>
                && Valid() && |changes.value| == |loads|
                && (forall i | 0 <= i < |loads| ::
                      changes.value[i] <==>
                      Projected(loads[i]) != if i == 0 then old(Snapshot()) else Projected(loads[i - 1]))
                && Snapshot() == (if loads == [] then old(Snapshot()) else Projected(loads[|loads| - 1]))
      ensures changes.Some? && loads != [] ==>
                var last := loads[|loads| - 1];
                && (IsOperationalV6(Snapshot()) <==> InfoIsOperationalV6(last.l2, last.info))
                && (IsOperational(Snapshot()) <==> InfoIsOperational(last.l2, last.info))
      ensures changes.Some? && (loads != [] || WellKept(old(Snapshot()))) ==>
                Projected(Load(true, Exported(Snapshot()), None)) == Snapshot()
    {
      var notes: seq<bool> := [];
      for i := 0 to |loads|
        invariant Valid() && |notes| == i
        invariant forall k | 0 <= k < i :: loads[k].Fits()
        invariant forall k | 0 <= k < i ::
                    notes[k] <==> Projected(loads[k]) != if k == 0 then old(Snapshot()) else Projected(loads[k - 1])
        invariant Snapshot() == if i == 0 then old(Snapshot()) else Projected(loads[i - 1])
      {
        var changed := LoadFromInfo(loads[i]);
        if changed.None? {
          return None;
        }
        notes := notes + [changed.value];
      }
      ExportLoadsBack(Snapshot());
      if loads != [] {
        OperationalAgrees(loads[|loads| - 1]);
        EveryLoadIsWellKept(loads[|loads| - 1]);
      }
      return Some(notes);
    }

    /**
     * Reload until something changes. A reading that cannot be had counts as no change; one that does
     * not fit panics, and the outcome is `None`. Otherwise it tells whether the last of the `used`
     * readings changed the cache.
     */
    method WaitChanged(readings: seq<Option<Load>>) returns (used: nat, changed: Option<bool>)
      requires Valid()
      modifies this
      ensures used <= |readings|
      ensures changed.None? ==> 0 < used && readings[used - 1].Some? && !readings[used - 1].value.Fits()
      ensures changed == Some(true) ==>
                && Valid() && 0 < used && readings[used - 1].Some?
                && Snapshot() == Projected(readings[used - 1].value) != old(Snapshot())
      ensures changed == Some(false) ==> Valid() && used == |readings| && Snapshot() == old(Snapshot())
      ensures forall i | 0 <= i < (if changed == Some(false) then used else used - 1) && readings[i].Some? ::
                readings[i].value.Fits() && Projected(readings[i].value) == old(Snapshot())
    {
      used := 0;
      while used < |readings|
        invariant Valid() && used <= |readings| && Snapshot() == old(Snapshot())
        invariant forall i | 0 <= i < used && readings[i].Some? ::
                    readings[i].value.Fits() && Projected(readings[i].value) == old(Snapshot())
      {
        used := used + 1;
        if readings[used - 1].Some? {
          var r := LoadFromInfo(readings[used - 1].value);
          if r != Some(false) {
            return used, r;
          }
        }
      }
      return used, Some(false);
    }
  }
}
