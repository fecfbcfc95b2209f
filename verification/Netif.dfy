/** The addresses of a network interface, which one is reported, and the cache of what is reported. */
module Netif {
  import opened Base

  type Ipv4 = a: Bytes | |a| == 4 witness [0, 0, 0, 0]
  type Ipv6 = a: Bytes | |a| == 16 witness [0, 0, 0, 0, 0, 0, 0, 0, 0, 0, 0, 0, 0, 0, 0, 0]

  const UNSPECIFIED_V4: Ipv4 := [0, 0, 0, 0]
  const UNSPECIFIED_V6: Ipv6 := [0, 0, 0, 0, 0, 0, 0, 0, 0, 0, 0, 0, 0, 0, 0, 0]

  /** A unicast link-local address, fe80::/10 (section 2.5.6 of RFC 4291). */
  predicate LinkLocal(a: Ipv6) {
    a[0] == 0xFE && 0x80 <= a[1] < 0xC0
  }

  /** Its first ten bits are those of fe80::. */
  lemma LinkLocalIsAPrefix(a: Ipv6)
    ensures LinkLocal(a) <==> (256 * a[0] as nat + a[1] as nat) / 64 == 0x3FA
  {
  }

  // ----- Collecting the addresses --------------------------------------------------------------

  type Word = w: nat | w < 0x1_0000_0000

  /** A raw lwIP address: four words, each holding four octets of the address in memory order. */
  type Raw = r: seq<Word> | |r| == 4 witness [0, 0, 0, 0]

  /** Octet `i` of a raw address: the words are little-endian. */
  function Octet(raw: Raw, i: nat): byte
    requires i < 16
  {
    var word := raw[i / 4];
    match i % 4
    case 0 => (word % 256) as byte
    case 1 => (word / 0x100 % 256) as byte
    case 2 => (word / 0x1_0000 % 256) as byte
    case _ => (word / 0x100_0000) as byte
  }

  function ToAddr(raw: Raw): (a: Ipv6)
    ensures forall i | 0 <= i < 16 :: a[i] == Octet(raw, i)
  {
    seq(16, i requires 0 <= i < 16 => Octet(raw, i))
  }

  lemma WordFromOctets(w: Word)
    ensures w == w % 256 + 0x100 * (w / 0x100 % 256) + 0x1_0000 * (w / 0x1_0000 % 256) + 0x100_0000 * (w / 0x100_0000)
  {
    assert w / 0x1_0000 == w / 0x100 / 0x100 && w / 0x100_0000 == w / 0x1_0000 / 0x100;
  }

  /** No information is lost in the conversion: the words can be read back, lowest octet first. */
  lemma ToAddrIsInvertible(raw: Raw, k: nat)
    requires k < 4
    ensures
      var a := ToAddr(raw);
      raw[k] == a[4 * k] as nat + 0x100 * a[4 * k + 1] as nat
                + 0x1_0000 * a[4 * k + 2] as nat + 0x100_0000 * a[4 * k + 3] as nat
  {
    WordFromOctets(raw[k]);
    assert 4 * k / 4 == k && (4 * k + 1) / 4 == k && (4 * k + 2) / 4 == k && (4 * k + 3) / 4 == k;
  }

  lemma DistinctRawsStayDistinct(a: Raw, b: Raw)
    ensures ToAddr(a) == ToAddr(b) <==> a == b
  {
    if ToAddr(a) == ToAddr(b) {
      forall k | 0 <= k < 4 ensures a[k] == b[k] {
        ToAddrIsInvertible(a, k);
        ToAddrIsInvertible(b, k);
      }
    }
  }

  function ToAddrs(raws: seq<Raw>): (a: seq<Ipv6>)
    ensures |a| == |raws| && forall i | 0 <= i < |a| :: a[i] == ToAddr(raws[i])
  {
    seq(|raws|, i requires 0 <= i < |raws| => ToAddr(raws[i]))
  }

  /** The conversion keeps one list of readings within another. */
  lemma {:induction false} ToAddrsCounts(raws: seq<Raw>, raw: Raw)
    ensures multiset(ToAddrs(raws))[ToAddr(raw)] == multiset(raws)[raw]
  {
    if raws != [] {
      var init, last := raws[..|raws| - 1], raws[|raws| - 1];
      ToAddrsCounts(init, raw);
      DistinctRawsStayDistinct(last, raw);
      assert raws == init + [last] && ToAddrs(raws) == ToAddrs(init) + [ToAddr(last)];
    }
  }

  lemma ToAddrsKeepInclusion(preferred: seq<Raw>, all: seq<Raw>)
    requires multiset(preferred) <= multiset(all)
    ensures multiset(ToAddrs(preferred)) <= multiset(ToAddrs(all))
  {
    var p, a := ToAddrs(preferred), ToAddrs(all);
    forall x ensures multiset(p)[x] <= multiset(a)[x] {
      if x in multiset(p) {
        var i :| 0 <= i < |p| && p[i] == x;
        ToAddrsCounts(preferred, preferred[i]);
        ToAddrsCounts(all, preferred[i]);
      }
    }
  }

  /** The members of `all` not seen before, each once, in order. */
  function Unseen<T(==)>(all: seq<T>, seen: seq<T>): seq<T> {
    if all == [] then []
    else if all[0] in seen then Unseen(all[1..], seen)
    else [all[0]] + Unseen(all[1..], seen + [all[0]])
  }

  /** They stand in the order of `all`, at positions `at`. */
  lemma {:induction false} UnseenKeepsOrder<T>(all: seq<T>, seen: seq<T>) returns (at: seq<nat>)
    ensures |at| == |Unseen(all, seen)|
    ensures forall k | 0 <= k < |at| :: at[k] < |all| && Unseen(all, seen)[k] == all[at[k]]
    ensures forall j, k | 0 <= j < k < |at| :: at[j] < at[k]
  {
    if all == [] {
      return [];
    }
    var found := all[0] !in seen;
    var rest := UnseenKeepsOrder(all[1..], if found then seen + [all[0]] else seen);
    var shifted := seq(|rest|, k requires 0 <= k < |rest| => rest[k] + 1);
    at := if found then [0] + shifted else shifted;
  }

  /** The preferred addresses as they come, then the others. */
  function Collected<T(==)>(preferred: seq<T>, all: seq<T>): seq<T> {
    preferred + Unseen(all, preferred)
  }

  lemma ElementsOfCons<T>(x: T, s: seq<T>)
    ensures Elements([x] + s) == {x} + Elements(s)
  {
  }

  lemma ElementsOfSnoc<T>(s: seq<T>, x: T)
    ensures Elements(s + [x]) == Elements(s) + {x}
  {
  }

  lemma RemoveSeen<T>(x: T, a: set<T>, b: set<T>)
    requires x in b
    ensures ({x} + a) - b == a - b
  {
  }

  lemma AddUnseen<T>(x: T, a: set<T>, b: set<T>)
    requires x !in b
    ensures ({x} + a) - b == {x} + (a - (b + {x}))
    ensures |({x} + a) - b| == 1 + |a - (b + {x})|
  {
    assert ({x} + a) - b == {x} + (a - (b + {x}));
  }

  lemma {:induction false} UnseenIsTheRest<T>(all: seq<T>, seen: seq<T>)
    ensures Elements(Unseen(all, seen)) == Elements(all) - Elements(seen)
    ensures |Unseen(all, seen)| == |Elements(all) - Elements(seen)|
  {
    if all != [] {
      var x, rest := all[0], all[1..];
      ElementsOfCons(x, rest);
      assert all == [x] + rest;
      if x in seen {
        UnseenIsTheRest(rest, seen);
        RemoveSeen(x, Elements(rest), Elements(seen));
      } else {
        UnseenIsTheRest(rest, seen + [x]);
        ElementsOfSnoc(seen, x);
        ElementsOfCons(x, Unseen(rest, seen + [x]));
        AddUnseen(x, Elements(rest), Elements(seen));
      }
    }
  }

  /** The list covers exactly both sets, preferred first, and nothing after those comes twice. */
  lemma CollectedCovers<T>(preferred: seq<T>, all: seq<T>)
    ensures Elements(Collected(preferred, all)) == Elements(preferred) + Elements(all)
    ensures Collected(preferred, all)[..|preferred|] == preferred
    ensures |Collected(preferred, all)| == |preferred| + |Elements(all) - Elements(preferred)|
  {
    UnseenIsTheRest(all, preferred);
    assert Elements(preferred + Unseen(all, preferred)) == Elements(preferred) + Elements(Unseen(all, preferred));
  }

  /** If the preferred addresses are among all of them, the list is no longer than those. */
  lemma CollectedFits<T>(preferred: seq<T>, all: seq<T>)
    requires multiset(preferred) <= multiset(all)
    ensures |Collected(preferred, all)| <= |all|
    ensures Elements(Collected(preferred, all)) == Elements(all)
  {
    CollectedCovers(preferred, all);
    var others := Elements(all) - Elements(preferred);
    forall x ensures (multiset(preferred) + multiset(others))[x] <= multiset(all)[x] {
      if x in others {
        assert x !in multiset(preferred) && x in multiset(all);
      }
    }
    assert multiset(preferred) + multiset(others) <= multiset(all);
    assert |multiset(all) - (multiset(preferred) + multiset(others))| == |all| - (|preferred| + |others|);
    forall x | x in preferred ensures x in all {
      assert x in multiset(preferred);
    }
  }

  /** The octets are copied word by word into a buffer. */
  method EspIp6ToAddr(raw: Raw) returns (addr: Ipv6)
    ensures addr == ToAddr(raw)
  {
    var octets := new byte[16](_ => 0);
    for i := 0 to 4
      invariant forall k | 0 <= k < 4 * i :: octets[k] == Octet(raw, k)
    {
      var word := raw[i];
      octets[4 * i] := (word % 256) as byte;
      octets[4 * i + 1] := (word / 0x100 % 256) as byte;
      octets[4 * i + 2] := (word / 0x1_0000 % 256) as byte;
      octets[4 * i + 3] := (word / 0x100_0000) as byte;
    }
    addr := octets[..];
  }

  /**
   * Collect the preferred addresses, then the others, into a list of fixed capacity. `None` is the
   * panic of a push into the full list: it cannot come while the preferred are among all of them and
   * those fit, and the list then covers exactly all.
   */
  method CollectIpv6(preferred: seq<Raw>, all: seq<Raw>, capacity: nat) returns (r: Option<seq<Ipv6>>)
    ensures r.None? <==> |Collected(ToAddrs(preferred), ToAddrs(all))| > capacity
    ensures r.Some? ==> r.value == Collected(ToAddrs(preferred), ToAddrs(all))
    ensures multiset(preferred) <= multiset(all) && |all| <= capacity ==>
              r.Some? && |r.value| <= |all| && Elements(r.value) == Elements(ToAddrs(all))
  {
    if multiset(preferred) <= multiset(all) {
      ToAddrsKeepInclusion(preferred, all);
      CollectedFits(ToAddrs(preferred), ToAddrs(all));
    }
    var addrs: seq<Ipv6> := [];
    for i := 0 to |preferred|
      invariant addrs == ToAddrs(preferred)[..i] && i <= capacity
    {
      var addr := EspIp6ToAddr(preferred[i]);
      if |addrs| == capacity {
        return None;
      }
      addrs := addrs + [addr];
    }
    assert addrs == ToAddrs(preferred);

    ghost var whole := Collected(ToAddrs(preferred), ToAddrs(all));
    for i := 0 to |all|
      invariant |addrs| <= capacity
      invariant addrs + Unseen(ToAddrs(all)[i..], addrs) == whole
    {
      var addr := EspIp6ToAddr(all[i]);
      assert ToAddrs(all)[i..][0] == addr && ToAddrs(all)[i..][1..] == ToAddrs(all)[i + 1..];
      if addr !in addrs {
        if |addrs| == capacity {
          return None;
        }
        assert addrs + ([addr] + Unseen(ToAddrs(all)[i + 1..], addrs + [addr])) ==
               (addrs + [addr]) + Unseen(ToAddrs(all)[i + 1..], addrs + [addr]);
        addrs := addrs + [addr];
      }
    }
    assert ToAddrs(all)[|all|..] == [];
    r := Some(addrs);
  }

  // ----- Which address is reported -------------------------------------------------------------

  datatype InterfaceType = WiFi | Ethernet | Cellular | Thread | Unspecified

  datatype NetifInfo = NetifInfo(
    name: string, operational: bool, hwAddr: Bytes,
    ipv4Addrs: seq<Ipv4>, ipv6Addrs: seq<Ipv6>,
    kind: InterfaceType, index: nat)

  /** The first address that is, or is not, link-local. */
  function FirstThat(addrs: seq<Ipv6>, linkLocal: bool): (r: Option<Ipv6>)
    ensures r.Some? <==> exists i | 0 <= i < |addrs| :: LinkLocal(addrs[i]) == linkLocal
    ensures r.Some? ==> r.value in addrs && LinkLocal(r.value) == linkLocal
  {
    if addrs == [] then None
    else if LinkLocal(addrs[0]) == linkLocal then Some(addrs[0])
    else
      var r := FirstThat(addrs[1..], linkLocal);
      assert forall i | 0 <= i < |addrs| - 1 :: addrs[1..][i] == addrs[i + 1];
      r
  }

  function InfoIpv4Addr(info: NetifInfo): Ipv4 {
    if info.ipv4Addrs == [] then UNSPECIFIED_V4 else info.ipv4Addrs[0]
  }

  function InfoIpv6Addr(info: NetifInfo): Ipv6 {
    if info.kind.Thread? then
      var routable := FirstThat(info.ipv6Addrs, false);
      if routable.Some? then routable.value
      else if info.ipv6Addrs == [] then UNSPECIFIED_V6 else info.ipv6Addrs[0]
    else FirstThat(info.ipv6Addrs, true).GetOr(UNSPECIFIED_V6)
  }

  predicate InfoIsOperationalV6(l2: bool, info: NetifInfo) {
    l2 && info.operational && InfoIpv6Addr(info) != UNSPECIFIED_V6
  }

  predicate InfoIsOperational(l2: bool, info: NetifInfo) {
    InfoIsOperationalV6(l2, info) && InfoIpv4Addr(info) != UNSPECIFIED_V4
  }

  lemma {:induction false} FirstThatIsFirst(addrs: seq<Ipv6>, linkLocal: bool, i: nat)
    requires i < |addrs| && LinkLocal(addrs[i]) == linkLocal
    requires forall k | 0 <= k < i :: LinkLocal(addrs[k]) != linkLocal
    ensures FirstThat(addrs, linkLocal) == Some(addrs[i])
  {
    if i > 0 {
      FirstThatIsFirst(addrs[1..], linkLocal, i - 1);
    }
  }

  /** Reported is the first address of the kind that is wanted, whatever follows it ... */
  lemma ReportsTheFirst(info: NetifInfo, i: nat)
    requires i < |info.ipv6Addrs| && (LinkLocal(info.ipv6Addrs[i]) <==> !info.kind.Thread?)
    requires forall k | 0 <= k < i :: LinkLocal(info.ipv6Addrs[k]) <==> info.kind.Thread?
    ensures InfoIpv6Addr(info) == info.ipv6Addrs[i]
  {
    FirstThatIsFirst(info.ipv6Addrs, !info.kind.Thread?, i);
  }

  /** ... and without one, on Thread the first address there is, elsewhere none. */
  lemma ReportsWithoutOne(info: NetifInfo)
    requires forall i | 0 <= i < |info.ipv6Addrs| :: LinkLocal(info.ipv6Addrs[i]) <==> info.kind.Thread?
    ensures info.kind.Thread? && info.ipv6Addrs != [] ==> InfoIpv6Addr(info) == info.ipv6Addrs[0]
    ensures !info.kind.Thread? || info.ipv6Addrs == [] ==> forall k | 0 <= k < 16 :: InfoIpv6Addr(info)[k] == 0
  {
  }

  /** Some octet is not zero. */
  predicate Specified(a: Bytes) {
    exists k | 0 <= k < |a| :: a[k] != 0
  }

  lemma SpecifiedIsNotZeros(a: Bytes)
    ensures Specified(a) <==> a != Zeros(|a|)
  {
    if !Specified(a) {
      assert forall k | 0 <= k < |a| :: a[k] == 0;
    }
  }

  /**
   * Operational: connected, up, with a reported IPv6 address other than `::`; and for both protocols a
   * first IPv4 address, other than 0.0.0.0.
   */
  lemma OperationalExactly(l2: bool, info: NetifInfo)
    ensures InfoIsOperationalV6(l2, info) <==> l2 && info.operational && Specified(InfoIpv6Addr(info))
    ensures InfoIsOperational(l2, info) <==>
            && l2 && info.operational && Specified(InfoIpv6Addr(info))
            && info.ipv4Addrs != [] && Specified(info.ipv4Addrs[0])
  {
    SpecifiedIsNotZeros(InfoIpv6Addr(info));
    SpecifiedIsNotZeros(InfoIpv4Addr(info));
    assert Zeros(16) == UNSPECIFIED_V6 && Zeros(4) == UNSPECIFIED_V4;
  }

  lemma {:induction false} FirstIsInPrefix(prefix: seq<Ipv6>, rest: seq<Ipv6>, linkLocal: bool)
    requires FirstThat(prefix, linkLocal).Some?
    ensures FirstThat(prefix + rest, linkLocal) == FirstThat(prefix, linkLocal)
  {
    assert (prefix + rest)[0] == prefix[0];
    if LinkLocal(prefix[0]) != linkLocal {
      assert (prefix + rest)[1..] == prefix[1..] + rest;
      FirstIsInPrefix(prefix[1..], rest, linkLocal);
    }
  }

  /** Thread reports a preferred address as soon as there is one that is not link-local. */
  lemma ThreadReportsPreferred(info: NetifInfo, preferred: seq<Ipv6>, all: seq<Ipv6>)
    requires info.kind.Thread? && info.ipv6Addrs == Collected(preferred, all)
    requires exists i | 0 <= i < |preferred| :: !LinkLocal(preferred[i])
    ensures InfoIpv6Addr(info) in preferred && !LinkLocal(InfoIpv6Addr(info))
  {
    FirstIsInPrefix(preferred, Unseen(all, preferred), false);
  }

  /** Without one, it still reports any other address it has before a link-local one. */
  lemma ThreadAvoidsLinkLocal(info: NetifInfo, preferred: seq<Ipv6>, all: seq<Ipv6>)
    requires info.kind.Thread? && info.ipv6Addrs == Collected(preferred, all)
    ensures (exists a | a in Elements(preferred) + Elements(all) :: !LinkLocal(a)) ==> !LinkLocal(InfoIpv6Addr(info))
    ensures Elements(preferred) + Elements(all) != {} ==> InfoIpv6Addr(info) in Elements(preferred) + Elements(all)
  {
    CollectedCovers(preferred, all);
    var addrs := info.ipv6Addrs;
    assert forall a :: a in Elements(addrs) <==> a in addrs;
    if a :| a in Elements(preferred) + Elements(all) && !LinkLocal(a) {
      assert a in addrs;
    }
    if Elements(preferred) + Elements(all) != {} {
      var a :| a in Elements(preferred) + Elements(all);
      assert a in addrs;
      assert addrs[0] in addrs;
    }
  }

  /**
   * Any other interface reports a link-local address exactly when it has one, wherever in the list,
   * and none otherwise; so it is operational exactly when it is up and has one.
   */
  lemma OthersReportLinkLocal(info: NetifInfo, preferred: seq<Ipv6>, all: seq<Ipv6>, l2: bool)
    requires !info.kind.Thread? && info.ipv6Addrs == Collected(preferred, all)
    ensures var has := exists a | a in Elements(preferred) + Elements(all) :: LinkLocal(a);
            && (LinkLocal(InfoIpv6Addr(info)) <==> has)
            && (has ==> InfoIpv6Addr(info) in Elements(preferred) + Elements(all))
            && (!has ==> InfoIpv6Addr(info) == UNSPECIFIED_V6)
            && (InfoIsOperationalV6(l2, info) <==> l2 && info.operational && has)
  {
    CollectedCovers(preferred, all);
    var addrs := info.ipv6Addrs;
    assert forall a :: a in Elements(addrs) <==> a in addrs;
    assert !LinkLocal(UNSPECIFIED_V6);
    if a :| a in Elements(preferred) + Elements(all) && LinkLocal(a) {
      assert a in addrs;
    }
  }

  /**
   * The address two readings call for: on Thread a preferred one that is not link-local if there is
   * one, else any that is not; elsewhere a link-local one exactly if there is one.
   */
  predicate Decided(kind: InterfaceType, preferred: seq<Raw>, all: seq<Raw>, addr: Ipv6) {
    && (kind.Thread? && (exists i | 0 <= i < |preferred| :: !LinkLocal(ToAddr(preferred[i]))) ==>
          addr in ToAddrs(preferred) && !LinkLocal(addr))
    && (kind.Thread? && (exists i | 0 <= i < |all| :: !LinkLocal(ToAddr(all[i]))) ==> !LinkLocal(addr))
    && (!kind.Thread? ==> (LinkLocal(addr) <==> exists i | 0 <= i < |all| :: LinkLocal(ToAddr(all[i]))))
    && (addr in ToAddrs(all) || addr == UNSPECIFIED_V6)
  }

  lemma ReadingsDecide(info: NetifInfo, preferred: seq<Raw>, all: seq<Raw>)
    requires info.ipv6Addrs == Collected(ToAddrs(preferred), ToAddrs(all))
    requires multiset(preferred) <= multiset(all)
    ensures Decided(info.kind, preferred, all, InfoIpv6Addr(info))
  {
    var p, a := ToAddrs(preferred), ToAddrs(all);
    ToAddrsKeepInclusion(preferred, all);
    CollectedFits(p, a);
    CollectedCovers(p, a);
    assert forall x :: x in Elements(p) + Elements(a) <==> x in Elements(a);
    assert forall x :: x in a <==> x in Elements(a);
    assert forall i | 0 <= i < |all| :: a[i] == ToAddr(all[i]) && a[i] in Elements(a);
    assert forall i | 0 <= i < |preferred| :: p[i] == ToAddr(preferred[i]);
    if info.kind.Thread? {
      if i :| 0 <= i < |preferred| && !LinkLocal(ToAddr(preferred[i])) {
        assert !LinkLocal(p[i]);
        ThreadReportsPreferred(info, p, a);
      }
      ThreadAvoidsLinkLocal(info, p, a);
    } else {
      OthersReportLinkLocal(info, p, a, true);
    }
  }

  /**
   * From the two readings to the info that is passed on, and the address reported of it. `bare` is
   * the info but for its addresses; the panic of the collection is passed on as `None`.
   */
  method GetNetifConf(bare: NetifInfo, ipv4: Ipv4, preferred: seq<Raw>, all: seq<Raw>, capacity: nat)
    returns (info: Option<NetifInfo>)
    ensures info.None? <==> |Collected(ToAddrs(preferred), ToAddrs(all))| > capacity
    ensures multiset(preferred) <= multiset(all) && |all| <= capacity ==>
              info.Some? && |info.value.ipv6Addrs| <= |all| && Elements(info.value.ipv6Addrs) == Elements(ToAddrs(all))
    ensures info.Some? ==>
              info.value == bare.(ipv4Addrs := [ipv4], ipv6Addrs := Collected(ToAddrs(preferred), ToAddrs(all)))
  {
    var addrs := CollectIpv6(preferred, all, capacity);
    match addrs
    case None => info := None;
    case Some(ipv6) => info := Some(bare.(ipv4Addrs := [ipv4], ipv6Addrs := ipv6));
  }

  /** The search of a list for its first address of a kind. */
  method FindAddr(addrs: seq<Ipv6>, linkLocal: bool) returns (r: Option<Ipv6>)
    ensures r == FirstThat(addrs, linkLocal)
  {
    for i := 0 to |addrs|
      invariant FirstThat(addrs, linkLocal) == FirstThat(addrs[i..], linkLocal)
    {
      assert addrs[i..][0] == addrs[i] && addrs[i..][1..] == addrs[i + 1..];
      if LinkLocal(addrs[i]) == linkLocal {
        return Some(addrs[i]);
      }
    }
    assert addrs[|addrs|..] == [];
    return None;
  }

  /** From the two readings to the address reported; `None` is the panic of the collection. */
  method ReportedIpv6(bare: NetifInfo, ipv4: Ipv4, preferred: seq<Raw>, all: seq<Raw>, capacity: nat)
    returns (addr: Option<Ipv6>)
    ensures addr.None? <==> |Collected(ToAddrs(preferred), ToAddrs(all))| > capacity
    ensures multiset(preferred) <= multiset(all) && |all| <= capacity ==> addr.Some?
    ensures multiset(preferred) <= multiset(all) && addr.Some? ==>
              Decided(bare.kind, preferred, all, addr.value)
  {
    var info := GetNetifConf(bare, ipv4, preferred, all, capacity);
    if info.None? {
      return None;
    }
    var addrs := info.value.ipv6Addrs;
    var found := FindAddr(addrs, !bare.kind.Thread?);
    if found.Some? {
      addr := found;
    } else if bare.kind.Thread? && addrs != [] {
      addr := Some(addrs[0]);
    } else {
      addr := Some(UNSPECIFIED_V6);
    }
    assert addr == Some(InfoIpv6Addr(info.value));
    if multiset(preferred) <= multiset(all) {
      ReadingsDecide(info.value, preferred, all);
    }
  }
}
