/**
  The ROA coverage aggregator of measureroadeployment: for a filter spec, walk
  zone -> authoritative nameserver -> address -> route origination over the
  census snapshot, and count the distinct route origins with and without a
  ROA, the zones, top-level zones, nameservers and addresses reached, and a
  per-zone coverage percentage.
 */
module RoaCoverage {
  import opened Census

  /** The identity of a route origin: its prefix and originating AS (possibly unknown). */
  type RouteKey = (string, Option<nat>)

  function KeyOf(o: Origination): (k: RouteKey)
    ensures k.0 == o.prefix && k.1 == o.autnum
  {
    (o.prefix, o.autnum)
  }

  /** Two originations are the same route origin exactly when they agree on
      prefix and AS number, whatever their ROA flags and AS names. */
  lemma KeyIdentity(o: Origination, o': Origination)
    ensures KeyOf(o) == KeyOf(o') <==> o.prefix == o'.prefix && o.autnum == o'.autnum
    ensures KeyOf(o) == KeyOf(o.(hasRoa := !o.hasRoa, autnumName := o'.autnumName))
  {
  }

  /** The four optional criteria of roacoverage; `None` means "no restriction". */
  datatype Filters = Filters(
    families: Option<set<Family>>,
    categories: Option<set<string>>,
    zoneIds: Option<set<ZoneId>>,
    rnames: Option<set<string>>)

  predicate Admits<T>(f: Option<set<T>>, x: T)
  {
    f.None? || x in f.value
  }

  /** The zone-level criteria: zone id, category, and the raw RNAME field. */
  predicate Selected(f: Filters, z: ZoneId, zone: Zone)
  {
    Admits(f.zoneIds, z) && Admits(f.categories, zone.category) && Admits(f.rnames, zone.rnameField)
  }

  // ---------------------------------------------------------------------------
  // What a zone reaches
  // ---------------------------------------------------------------------------

  /** What a walk from a zone reaches: the route origins with and without a
      ROA, and the nameservers and addresses it went through. */
  datatype Reach = Reach(
    yes: set<RouteKey>,
    no: set<RouteKey>,
    nameservers: set<NameserverId>,
    addresses: set<AddressId>)

  const Nowhere := Reach({}, {}, {}, {})

  function Join(r: Reach, s: Reach): Reach
  {
    Reach(r.yes + s.yes, r.no + s.no, r.nameservers + s.nameservers, r.addresses + s.addresses)
  }

  /** The route origins of `os` whose ROA flag is `roa`. */
  function OrigKeys(os: seq<Origination>, roa: bool): (keys: set<RouteKey>)
    ensures forall o :: o in os && o.hasRoa == roa ==> KeyOf(o) in keys
    ensures forall k :: k in keys ==> exists o :: o in os && o.hasRoa == roa && KeyOf(o) == k
  {
    if os == [] then {}
    else
      var o := os[|os| - 1];
      assert forall o' :: o' in os ==> o' in os[..|os| - 1] || o' == o;
      OrigKeys(os[..|os| - 1], roa) + (if o.hasRoa == roa then {KeyOf(o)} else {})
  }

  /** Address `a`, reached through nameserver `ns`: nothing when its family is
      not admitted, otherwise its route origins, `ns` and `a` itself. */
  ghost function AddrReach(g: Snapshot, f: Filters, ns: NameserverId, a: AddressId): Reach
  {
    if a in g.addresses && Admits(f.families, g.addresses[a].family) then
      var os := g.addresses[a].originations;
      Reach(OrigKeys(os, true), OrigKeys(os, false), {ns}, {a})
    else Nowhere
  }

  lemma JoinAssoc(r: Reach, s: Reach, t: Reach)
    ensures Join(Join(r, s), t) == Join(r, Join(s, t))
  {
    assert (r.yes + s.yes) + t.yes == r.yes + (s.yes + t.yes);
    assert (r.no + s.no) + t.no == r.no + (s.no + t.no);
    assert (r.nameservers + s.nameservers) + t.nameservers == r.nameservers + (s.nameservers + t.nameservers);
    assert (r.addresses + s.addresses) + t.addresses == r.addresses + (s.addresses + t.addresses);
  }

  lemma JoinNowhere(r: Reach)
    ensures Join(r, Nowhere) == r
  {
    assert r.yes + {} == r.yes && r.no + {} == r.no;
    assert r.nameservers + {} == r.nameservers && r.addresses + {} == r.addresses;
  }

  /** The addresses `addrs` of nameserver `ns`, walked in order. */
  ghost function WalkAddrs(g: Snapshot, f: Filters, ns: NameserverId, addrs: seq<AddressId>): Reach
  {
    if addrs == [] then Nowhere
    else Join(WalkAddrs(g, f, ns, addrs[..|addrs| - 1]), AddrReach(g, f, ns, addrs[|addrs| - 1]))
  }

  /** The nameservers `nss` of a zone, walked in order. */
  ghost function WalkNameservers(g: Snapshot, f: Filters, nss: seq<NameserverId>): Reach
  {
    if nss == [] then Nowhere
    else
      var ns := nss[|nss| - 1];
      Join(WalkNameservers(g, f, nss[..|nss| - 1]),
           if ns in g.nameservers then WalkAddrs(g, f, ns, g.nameservers[ns].authAddresses) else Nowhere)
  }

  lemma WalkAddrsStep(g: Snapshot, f: Filters, ns: NameserverId, addrs: seq<AddressId>, k: nat)
    requires k < |addrs|
    ensures WalkAddrs(g, f, ns, addrs[..k + 1]) == Join(WalkAddrs(g, f, ns, addrs[..k]), AddrReach(g, f, ns, addrs[k]))
  {
    assert addrs[..k + 1][..k] == addrs[..k];
  }

  lemma WalkNameserversStep(g: Snapshot, f: Filters, nss: seq<NameserverId>, j: nat)
    requires j < |nss| && nss[j] in g.nameservers
    ensures WalkNameservers(g, f, nss[..j + 1]) ==
            Join(WalkNameservers(g, f, nss[..j]), WalkAddrs(g, f, nss[j], g.nameservers[nss[j]].authAddresses))
  {
    assert nss[..j + 1][..j] == nss[..j];
  }

  // ---------------------------------------------------------------------------
  // The tally
  // ---------------------------------------------------------------------------

  /** The six sets roacoverage accumulates and its two percentage lists. */
  datatype Tally = Tally(
    yes: set<RouteKey>,
    no: set<RouteKey>,
    zones: set<ZoneId>,
    tlds: set<ZoneId>,
    nameservers: set<NameserverId>,
    addresses: set<AddressId>,
    pctZone: seq<nat>,
    pctTld: seq<nat>)

  const EmptyTally := Tally({}, {}, {}, {}, {}, {}, [], [])

  /** A zone's ROA coverage in percent, truncated toward zero. */
  function Pct(yes: nat, no: nat): nat
    requires yes + no > 0
  {
    (100 * yes) / (yes + no)
  }

  /** The percentage is the largest `p` with `p * (yes + no) <= 100 * yes`;
      it lies in 0..100, is 100 exactly when no route origin lacks a ROA, and
      is 0 exactly when fewer than one in a hundred has one. */
  lemma PctRange(yes: nat, no: nat)
    requires yes + no > 0
    ensures Pct(yes, no) * (yes + no) <= 100 * yes < (Pct(yes, no) + 1) * (yes + no)
    ensures Pct(yes, no) <= 100
    ensures Pct(yes, no) == 100 <==> no == 0
    ensures Pct(yes, no) == 0 <==> 100 * yes < yes + no
  {
    var d, p := yes + no, Pct(yes, no);
    assert p * d + (100 * yes) % d == 100 * yes;
    MulDistributes(p, 1, d);
    assert 100 * yes < 101 * d;
    MulCancel(p, 100, d);
    if no == 0 {
      MulCancel(100, p, d);
    }
    if p >= 1 {
      MulAtLeast(p, d);
    }
  }

  /** `a * d < (b + 1) * d` with `d` positive bounds `a` by `b`. */
  lemma MulCancel(a: nat, b: nat, d: nat)
    requires d > 0 && a * d < (b + 1) * d
    ensures a <= b
  {
    if a > b {
      MulDistributes(b + 1, a - b - 1, d);
      MulAtLeast(a - b - 1 + 1, d);
    }
  }

  lemma MulDistributes(b: int, k: int, d: int)
    ensures (b + k) * d == b * d + k * d
  {
  }

  lemma MulAtLeast(k: nat, d: nat)
    requires k >= 1
    ensures k * d >= d
  {
  }

  /** What one zone adds to the tally: nothing unless it passes the zone
      criteria; otherwise what its walk reaches, the zone itself (and as a
      top-level zone) once an address is reached, and its percentage once a
      route origin is seen. */
  ghost function ZoneTally(g: Snapshot, f: Filters, z: ZoneId): Tally
    requires z in g.zones
  {
    var zone := g.zones[z];
    var r := if Selected(f, z, zone) then WalkNameservers(g, f, zone.authNameservers) else Nowhere;
    var pct := if |r.yes| + |r.no| > 0 then [Pct(|r.yes|, |r.no|)] else [];
    Tally(r.yes, r.no,
          if r.addresses != {} then {z} else {},
          if r.addresses != {} && IsTopLevel(zone.category) then {z} else {},
          r.nameservers, r.addresses,
          pct,
          if IsTopLevel(zone.category) then pct else [])
  }

  function Merge(t: Tally, u: Tally): (r: Tally)
    ensures r.yes == t.yes + u.yes && r.no == t.no + u.no
    ensures r.zones == t.zones + u.zones && r.tlds == t.tlds + u.tlds
    ensures r.nameservers == t.nameservers + u.nameservers && r.addresses == t.addresses + u.addresses
    ensures r.pctZone == t.pctZone + u.pctZone && r.pctTld == t.pctTld + u.pctTld
  {
    Tally(t.yes + u.yes, t.no + u.no, t.zones + u.zones, t.tlds + u.tlds,
          t.nameservers + u.nameservers, t.addresses + u.addresses,
          t.pctZone + u.pctZone, t.pctTld + u.pctTld)
  }

  lemma MergeNothing(t: Tally, u: Tally)
    requires u == Tally({}, {}, {}, {}, {}, {}, [], [])
    ensures Merge(t, u) == t
  {
    assert t.pctZone + [] == t.pctZone && t.pctTld + [] == t.pctTld;
  }

  /** The tally of the zones `zs`, visited in that order. */
  ghost function Coverage(g: Snapshot, f: Filters, zs: seq<ZoneId>): Tally
    requires forall z :: z in zs ==> z in g.zones
  {
    if zs == [] then EmptyTally
    else Merge(Coverage(g, f, zs[..|zs| - 1]), ZoneTally(g, f, zs[|zs| - 1]))
  }

  lemma CoverageStep(g: Snapshot, f: Filters, zs: seq<ZoneId>, i: nat)
    requires i < |zs| && forall z :: z in zs ==> z in g.zones
    ensures Coverage(g, f, zs[..i + 1]) == Merge(Coverage(g, f, zs[..i]), ZoneTally(g, f, zs[i]))
  {
    assert zs[..i + 1][..i] == zs[..i];
  }

  // ---------------------------------------------------------------------------
  // What the tally means
  // ---------------------------------------------------------------------------

  /** The addresses of `addrs` that exist and are of an admitted family. */
  ghost function AdmittedAddrs(g: Snapshot, f: Filters, addrs: seq<AddressId>): set<AddressId>
  {
    set a | a in addrs && a in g.addresses && Admits(f.families, g.addresses[a].family)
  }

  /** The route origins, with (`roa`) or without (`!roa`) a ROA, seen at the addresses `addrs1`. */
  ghost function KeysAt(g: Snapshot, addrs1: set<AddressId>, roa: bool): set<RouteKey>
  {
    set a, o | a in addrs1 && a in g.addresses && o in g.addresses[a].originations && o.hasRoa == roa :: KeyOf(o)
  }

  lemma OrigKeysAt(g: Snapshot, a: AddressId, roa: bool)
    requires a in g.addresses
    ensures KeysAt(g, {a}, roa) == OrigKeys(g.addresses[a].originations, roa)
  {
    var os := g.addresses[a].originations;
    forall k | k in OrigKeys(os, roa) ensures k in KeysAt(g, {a}, roa) {
      var o :| o in os && o.hasRoa == roa && KeyOf(o) == k;
    }
  }

  lemma KeysAtUnion(g: Snapshot, addrs1: set<AddressId>, addrs2: set<AddressId>, roa: bool)
    ensures KeysAt(g, addrs1 + addrs2, roa) == KeysAt(g, addrs1, roa) + KeysAt(g, addrs2, roa)
  {
    forall k | k in KeysAt(g, addrs1 + addrs2, roa) ensures k in KeysAt(g, addrs1, roa) + KeysAt(g, addrs2, roa) {
      var a, o :| a in addrs1 + addrs2 && a in g.addresses && o in g.addresses[a].originations && o.hasRoa == roa && KeyOf(o) == k;
      if a in addrs1 {
        assert k in KeysAt(g, addrs1, roa);
      } else {
        assert k in KeysAt(g, addrs2, roa);
      }
    }
  }

  lemma KeysAtMonotone(g: Snapshot, addrs1: set<AddressId>, addrs2: set<AddressId>, roa: bool)
    requires addrs1 <= addrs2
    ensures KeysAt(g, addrs1, roa) <= KeysAt(g, addrs2, roa)
  {
    forall k | k in KeysAt(g, addrs1, roa) ensures k in KeysAt(g, addrs2, roa) {
      var a, o :| a in addrs1 && a in g.addresses && o in g.addresses[a].originations && o.hasRoa == roa && KeyOf(o) == k;
    }
  }

  /** The walk over one nameserver's addresses reaches exactly its admitted
      addresses, the nameserver itself when there is one, and the route
      origins seen at them. */
  lemma WalkAddrsReaches(g: Snapshot, f: Filters, ns: NameserverId, addrs: seq<AddressId>)
    ensures var r := WalkAddrs(g, f, ns, addrs);
      && r.addresses == AdmittedAddrs(g, f, addrs)
      && r.nameservers == (if r.addresses == {} then {} else {ns})
      && r.yes == KeysAt(g, r.addresses, true) && r.no == KeysAt(g, r.addresses, false)
  {
    WalkAddrsAdmitted(g, f, ns, addrs);
    WalkAddrsKeys(g, f, ns, addrs);
  }

  lemma {:induction false} WalkAddrsAdmitted(g: Snapshot, f: Filters, ns: NameserverId, addrs: seq<AddressId>)
    ensures var r := WalkAddrs(g, f, ns, addrs);
      && r.addresses == AdmittedAddrs(g, f, addrs)
      && r.nameservers == (if r.addresses == {} then {} else {ns})
  {
    if addrs == [] {
      assert AdmittedAddrs(g, f, addrs) == {};
    } else {
      var init, a := addrs[..|addrs| - 1], addrs[|addrs| - 1];
      assert addrs == init + [a];
      WalkAddrsAdmitted(g, f, ns, init);
      var step := if a in g.addresses && Admits(f.families, g.addresses[a].family) then {a} else {};
      assert AdmittedAddrs(g, f, addrs) == AdmittedAddrs(g, f, init) + step;
    }
  }

  lemma {:induction false} WalkAddrsKeys(g: Snapshot, f: Filters, ns: NameserverId, addrs: seq<AddressId>)
    ensures var r := WalkAddrs(g, f, ns, addrs);
      r.yes == KeysAt(g, r.addresses, true) && r.no == KeysAt(g, r.addresses, false)
  {
    if addrs == [] {
      assert KeysAt(g, {}, true) == {} && KeysAt(g, {}, false) == {};
    } else {
      var init, a := addrs[..|addrs| - 1], addrs[|addrs| - 1];
      WalkAddrsKeys(g, f, ns, init);
      var r0, s := WalkAddrs(g, f, ns, init), AddrReach(g, f, ns, a);
      KeysAtUnion(g, r0.addresses, s.addresses, true);
      KeysAtUnion(g, r0.addresses, s.addresses, false);
      if s.addresses != {} {
        OrigKeysAt(g, a, true);
        OrigKeysAt(g, a, false);
      } else {
        assert KeysAt(g, {}, true) == {} && KeysAt(g, {}, false) == {};
      }
    }
  }

  /** The (nameserver, address) reach of the nameservers `nss`: the admitted
      addresses of each of them that exists. */
  ghost function NsAddrs(g: Snapshot, f: Filters, nss: seq<NameserverId>): set<AddressId>
  {
    set ns, a | ns in nss && ns in g.nameservers && a in g.nameservers[ns].authAddresses
                && a in g.addresses && Admits(f.families, g.addresses[a].family) :: a
  }

  ghost function NsUsed(g: Snapshot, f: Filters, nss: seq<NameserverId>): set<NameserverId>
  {
    set ns, a | ns in nss && ns in g.nameservers && a in g.nameservers[ns].authAddresses
                && a in g.addresses && Admits(f.families, g.addresses[a].family) :: ns
  }

  lemma NsAddrsStep(g: Snapshot, f: Filters, nss: seq<NameserverId>, ns: NameserverId)
    ensures NsAddrs(g, f, nss + [ns]) ==
            NsAddrs(g, f, nss) + (if ns in g.nameservers then AdmittedAddrs(g, f, g.nameservers[ns].authAddresses) else {})
    ensures NsUsed(g, f, nss + [ns]) ==
            NsUsed(g, f, nss) + (if ns in g.nameservers && AdmittedAddrs(g, f, g.nameservers[ns].authAddresses) != {} then {ns} else {})
  {
    forall a | a in NsAddrs(g, f, nss + [ns])
      ensures a in NsAddrs(g, f, nss) + (if ns in g.nameservers then AdmittedAddrs(g, f, g.nameservers[ns].authAddresses) else {})
    {
      var n :| n in nss + [ns] && n in g.nameservers && a in g.nameservers[n].authAddresses
               && a in g.addresses && Admits(f.families, g.addresses[a].family);
      if n != ns {
        assert n in nss;
      }
    }
    forall n | n in NsUsed(g, f, nss + [ns])
      ensures n in NsUsed(g, f, nss) + (if ns in g.nameservers && AdmittedAddrs(g, f, g.nameservers[ns].authAddresses) != {} then {ns} else {})
    {
      var a :| n in nss + [ns] && n in g.nameservers && a in g.nameservers[n].authAddresses
               && a in g.addresses && Admits(f.families, g.addresses[a].family);
      if n != ns {
        assert n in nss;
      } else {
        assert a in AdmittedAddrs(g, f, g.nameservers[ns].authAddresses);
      }
    }
    if ns in g.nameservers && AdmittedAddrs(g, f, g.nameservers[ns].authAddresses) != {} {
      var a :| a in AdmittedAddrs(g, f, g.nameservers[ns].authAddresses);
      assert ns in nss + [ns];
      assert ns in NsUsed(g, f, nss + [ns]);
    }
  }

  /** The walk over a zone's nameservers reaches exactly the admitted
      addresses of its nameservers, the nameservers that have one, and the
      route origins seen at those addresses. */
  lemma {:induction false} WalkNameserversReaches(g: Snapshot, f: Filters, nss: seq<NameserverId>)
    ensures var r := WalkNameservers(g, f, nss);
      && r.addresses == NsAddrs(g, f, nss) && r.nameservers == NsUsed(g, f, nss)
      && r.yes == KeysAt(g, r.addresses, true) && r.no == KeysAt(g, r.addresses, false)
  {
    if nss == [] {
      assert NsAddrs(g, f, nss) == {} && NsUsed(g, f, nss) == {};
    } else {
      var init, ns := nss[..|nss| - 1], nss[|nss| - 1];
      WalkNameserversReaches(g, f, init);
      assert nss == init + [ns];
      NsAddrsStep(g, f, init, ns);
      var prev := NsAddrs(g, f, init);
      if ns in g.nameservers {
        var addrs := g.nameservers[ns].authAddresses;
        WalkAddrsReaches(g, f, ns, addrs);
        KeysAtUnion(g, prev, AdmittedAddrs(g, f, addrs), true);
        KeysAtUnion(g, prev, AdmittedAddrs(g, f, addrs), false);
      } else {
        assert KeysAt(g, {}, true) == {} && KeysAt(g, {}, false) == {};
      }
    }
  }

  /** The addresses, nameservers and zones reached from the zones `zs`: a
      zone passing the zone criteria, one of its nameservers, and one of that
      nameserver's addresses of an admitted family. */
  ghost function ReachedAddresses(g: Snapshot, f: Filters, zs: seq<ZoneId>): set<AddressId>
  {
    set z, ns, a | z in zs && z in g.zones && Selected(f, z, g.zones[z]) && ns in g.zones[z].authNameservers
                   && ns in g.nameservers && a in g.nameservers[ns].authAddresses
                   && a in g.addresses && Admits(f.families, g.addresses[a].family) :: a
  }

  ghost function ReachedNameservers(g: Snapshot, f: Filters, zs: seq<ZoneId>): set<NameserverId>
  {
    set z, ns, a | z in zs && z in g.zones && Selected(f, z, g.zones[z]) && ns in g.zones[z].authNameservers
                   && ns in g.nameservers && a in g.nameservers[ns].authAddresses
                   && a in g.addresses && Admits(f.families, g.addresses[a].family) :: ns
  }

  ghost function ReachedZones(g: Snapshot, f: Filters, zs: seq<ZoneId>): set<ZoneId>
  {
    set z, ns, a | z in zs && z in g.zones && Selected(f, z, g.zones[z]) && ns in g.zones[z].authNameservers
                   && ns in g.nameservers && a in g.nameservers[ns].authAddresses
                   && a in g.addresses && Admits(f.families, g.addresses[a].family) :: z
  }

  lemma ReachedAddressesStep(g: Snapshot, f: Filters, zs: seq<ZoneId>, z: ZoneId)
    requires z in g.zones
    ensures ReachedAddresses(g, f, zs + [z]) ==
            ReachedAddresses(g, f, zs) + (if Selected(f, z, g.zones[z]) then NsAddrs(g, f, g.zones[z].authNameservers) else {})
  {
    var piece := if Selected(f, z, g.zones[z]) then NsAddrs(g, f, g.zones[z].authNameservers) else {};
    forall a | a in ReachedAddresses(g, f, zs + [z]) ensures a in ReachedAddresses(g, f, zs) + piece {
      var y, ns :| y in zs + [z] && y in g.zones && Selected(f, y, g.zones[y]) && ns in g.zones[y].authNameservers
                   && ns in g.nameservers && a in g.nameservers[ns].authAddresses
                   && a in g.addresses && Admits(f.families, g.addresses[a].family);
      if y != z {
        assert y in zs;
      }
    }
    forall a | a in piece ensures a in ReachedAddresses(g, f, zs + [z]) {
      var ns :| ns in g.zones[z].authNameservers && ns in g.nameservers && a in g.nameservers[ns].authAddresses
                && a in g.addresses && Admits(f.families, g.addresses[a].family);
      assert z in zs + [z];
    }
  }

  lemma ReachedNameserversStep(g: Snapshot, f: Filters, zs: seq<ZoneId>, z: ZoneId)
    requires z in g.zones
    ensures ReachedNameservers(g, f, zs + [z]) ==
            ReachedNameservers(g, f, zs) + (if Selected(f, z, g.zones[z]) then NsUsed(g, f, g.zones[z].authNameservers) else {})
  {
    var piece := if Selected(f, z, g.zones[z]) then NsUsed(g, f, g.zones[z].authNameservers) else {};
    forall ns | ns in ReachedNameservers(g, f, zs + [z]) ensures ns in ReachedNameservers(g, f, zs) + piece {
      var y, a :| y in zs + [z] && y in g.zones && Selected(f, y, g.zones[y]) && ns in g.zones[y].authNameservers
                  && ns in g.nameservers && a in g.nameservers[ns].authAddresses
                  && a in g.addresses && Admits(f.families, g.addresses[a].family);
      if y != z {
        assert y in zs;
      }
    }
    forall ns | ns in piece ensures ns in ReachedNameservers(g, f, zs + [z]) {
      var a :| ns in g.zones[z].authNameservers && ns in g.nameservers && a in g.nameservers[ns].authAddresses
               && a in g.addresses && Admits(f.families, g.addresses[a].family);
      assert z in zs + [z];
    }
  }

  lemma ReachedZonesStep(g: Snapshot, f: Filters, zs: seq<ZoneId>, z: ZoneId)
    requires z in g.zones
    ensures ReachedZones(g, f, zs + [z]) ==
            ReachedZones(g, f, zs) + (if Selected(f, z, g.zones[z]) && NsAddrs(g, f, g.zones[z].authNameservers) != {} then {z} else {})
  {
    var piece := if Selected(f, z, g.zones[z]) && NsAddrs(g, f, g.zones[z].authNameservers) != {} then {z} else {};
    forall y | y in ReachedZones(g, f, zs + [z]) ensures y in ReachedZones(g, f, zs) + piece {
      var ns, a :| y in zs + [z] && y in g.zones && Selected(f, y, g.zones[y]) && ns in g.zones[y].authNameservers
                   && ns in g.nameservers && a in g.nameservers[ns].authAddresses
                   && a in g.addresses && Admits(f.families, g.addresses[a].family);
      if y != z {
        assert y in zs;
      } else {
        assert a in NsAddrs(g, f, g.zones[z].authNameservers);
      }
    }
    if piece != {} {
      var a :| a in NsAddrs(g, f, g.zones[z].authNameservers);
      var ns :| ns in g.zones[z].authNameservers && ns in g.nameservers && a in g.nameservers[ns].authAddresses
                && a in g.addresses && Admits(f.families, g.addresses[a].family);
      assert z in zs + [z];
      assert z in ReachedZones(g, f, zs + [z]);
    }
  }

  /** What one zone adds, in closed form. */
  lemma ZoneTallyReaches(g: Snapshot, f: Filters, z: ZoneId)
    requires z in g.zones
    ensures var u, zone := ZoneTally(g, f, z), g.zones[z];
      && u.addresses == (if Selected(f, z, zone) then NsAddrs(g, f, zone.authNameservers) else {})
      && u.nameservers == (if Selected(f, z, zone) then NsUsed(g, f, zone.authNameservers) else {})
      && u.zones == (if Selected(f, z, zone) && NsAddrs(g, f, zone.authNameservers) != {} then {z} else {})
      && u.tlds == (if z in u.zones && IsTopLevel(zone.category) then {z} else {})
      && u.yes == KeysAt(g, u.addresses, true) && u.no == KeysAt(g, u.addresses, false)
  {
    if Selected(f, z, g.zones[z]) {
      WalkNameserversReaches(g, f, g.zones[z].authNameservers);
    } else {
      assert KeysAt(g, {}, true) == {} && KeysAt(g, {}, false) == {};
    }
  }

  lemma {:induction false} CoverageAddresses(g: Snapshot, f: Filters, zs: seq<ZoneId>)
    requires forall z :: z in zs ==> z in g.zones
    ensures Coverage(g, f, zs).addresses == ReachedAddresses(g, f, zs)
  {
    if zs == [] {
      assert ReachedAddresses(g, f, zs) == {};
    } else {
      var init, z := zs[..|zs| - 1], zs[|zs| - 1];
      assert zs == init + [z];
      CoverageAddresses(g, f, init);
      ReachedAddressesStep(g, f, init, z);
      ZoneTallyReaches(g, f, z);
    }
  }

  lemma {:induction false} CoverageKeys(g: Snapshot, f: Filters, zs: seq<ZoneId>)
    requires forall z :: z in zs ==> z in g.zones
    ensures var t := Coverage(g, f, zs);
      t.yes == KeysAt(g, t.addresses, true) && t.no == KeysAt(g, t.addresses, false)
  {
    if zs == [] {
      assert KeysAt(g, {}, true) == {} && KeysAt(g, {}, false) == {};
    } else {
      var init, z := zs[..|zs| - 1], zs[|zs| - 1];
      CoverageKeys(g, f, init);
      ZoneTallyReaches(g, f, z);
      var t0, u := Coverage(g, f, init), ZoneTally(g, f, z);
      KeysAtUnion(g, t0.addresses, u.addresses, true);
      KeysAtUnion(g, t0.addresses, u.addresses, false);
    }
  }

  lemma {:induction false} CoverageNameservers(g: Snapshot, f: Filters, zs: seq<ZoneId>)
    requires forall z :: z in zs ==> z in g.zones
    ensures Coverage(g, f, zs).nameservers == ReachedNameservers(g, f, zs)
  {
    if zs == [] {
      assert ReachedNameservers(g, f, zs) == {};
    } else {
      var init, z := zs[..|zs| - 1], zs[|zs| - 1];
      assert zs == init + [z];
      CoverageNameservers(g, f, init);
      ReachedNameserversStep(g, f, init, z);
      ZoneTallyReaches(g, f, z);
    }
  }

  lemma {:induction false} CoverageZones(g: Snapshot, f: Filters, zs: seq<ZoneId>)
    requires forall z :: z in zs ==> z in g.zones
    ensures Coverage(g, f, zs).zones == ReachedZones(g, f, zs)
  {
    if zs == [] {
      assert ReachedZones(g, f, zs) == {};
    } else {
      var init, z := zs[..|zs| - 1], zs[|zs| - 1];
      assert zs == init + [z];
      CoverageZones(g, f, init);
      ReachedZonesStep(g, f, init, z);
      ZoneTallyReaches(g, f, z);
    }
  }

  /** The zones of `zones` that are top-level. */
  ghost function TopLevelOf(g: Snapshot, zones: set<ZoneId>): set<ZoneId>
  {
    set z | z in zones && z in g.zones && IsTopLevel(g.zones[z].category)
  }

  lemma {:induction false} CoverageTlds(g: Snapshot, f: Filters, zs: seq<ZoneId>)
    requires forall z :: z in zs ==> z in g.zones
    ensures var t := Coverage(g, f, zs); t.tlds == TopLevelOf(g, t.zones)
  {
    if zs != [] {
      var init, z := zs[..|zs| - 1], zs[|zs| - 1];
      CoverageTlds(g, f, init);
      var t0, u := Coverage(g, f, init), ZoneTally(g, f, z);
      TopLevelOfUnion(g, t0.zones, u.zones);
      assert TopLevelOf(g, u.zones) == u.tlds;
    }
  }

  lemma TopLevelOfUnion(g: Snapshot, a: set<ZoneId>, b: set<ZoneId>)
    ensures TopLevelOf(g, a + b) == TopLevelOf(g, a) + TopLevelOf(g, b)
  {
  }

  /** What roacoverage counts, in closed form: the addresses, nameservers and
      zones reached from the zones `zs`, the top-level ones among those
      zones, and the distinct route origins with and without a ROA seen at
      the reached addresses (each counted once, however many addresses and
      zones lead to it). */
  lemma CoverageReaches(g: Snapshot, f: Filters, zs: seq<ZoneId>)
    requires forall z :: z in zs ==> z in g.zones
    ensures var t := Coverage(g, f, zs);
      && t.addresses == ReachedAddresses(g, f, zs)
      && t.nameservers == ReachedNameservers(g, f, zs)
      && t.zones == ReachedZones(g, f, zs)
      && t.tlds == TopLevelOf(g, t.zones)
      && t.yes == KeysAt(g, t.addresses, true) && t.no == KeysAt(g, t.addresses, false)
  {
    CoverageAddresses(g, f, zs);
    CoverageKeys(g, f, zs);
    CoverageNameservers(g, f, zs);
    CoverageZones(g, f, zs);
    CoverageTlds(g, f, zs);
  }

  // ---------------------------------------------------------------------------
  // Properties of the tally
  // ---------------------------------------------------------------------------

  /** Every top-level zone counted is a counted zone, so the top-level count
      never exceeds the zone count. */
  lemma TldsWithinZones(g: Snapshot, f: Filters, zs: seq<ZoneId>)
    requires forall z :: z in zs ==> z in g.zones
    ensures var t := Coverage(g, f, zs); t.tlds <= t.zones && |t.tlds| <= |t.zones|
  {
    CoverageTlds(g, f, zs);
    var t := Coverage(g, f, zs);
    SubsetSize(t.tlds, t.zones);
  }

  /** Zone `z` passes the zone criteria and its walk meets at least one
      route origin, with or without a ROA. */
  ghost predicate SeesOrigin(g: Snapshot, f: Filters, z: ZoneId)
    requires z in g.zones
  {
    var zone := g.zones[z];
    var addrs := NsAddrs(g, f, zone.authNameservers);
    Selected(f, z, zone) && KeysAt(g, addrs, true) + KeysAt(g, addrs, false) != {}
  }

  /** The zones of `zs` that see a route origin. */
  ghost function OriginZones(g: Snapshot, f: Filters, zs: seq<ZoneId>): set<ZoneId>
    requires forall z :: z in zs ==> z in g.zones
  {
    set z | z in zs && SeesOrigin(g, f, z)
  }

  /** One zone adds exactly one percentage, in 0..100, when its walk meets a
      route origin and none otherwise; the same entry goes to the top-level
      list exactly when the zone is top-level. */
  lemma ZonePercentage(g: Snapshot, f: Filters, z: ZoneId)
    requires z in g.zones
    ensures var u := ZoneTally(g, f, z);
      && |u.pctTld| <= |u.pctZone| <= 1
      && |u.pctZone| == (if u.yes + u.no != {} then 1 else 0)
      && u.pctTld == (if IsTopLevel(g.zones[z].category) then u.pctZone else [])
      && Percentages(u.pctZone) && Percentages(u.pctTld)
  {
    var u := ZoneTally(g, f, z);
    if |u.yes| + |u.no| > 0 {
      PctRange(|u.yes|, |u.no|);
    } else {
      assert u.yes + u.no == {};
    }
  }

  /** A zone's walk meets a route origin exactly when it passes the zone
      criteria and one of its nameservers' admitted addresses has one. */
  lemma ZoneSeesOrigin(g: Snapshot, f: Filters, z: ZoneId)
    requires z in g.zones
    ensures var u := ZoneTally(g, f, z); SeesOrigin(g, f, z) <==> u.yes + u.no != {}
  {
    ZoneTallyReaches(g, f, z);
    if !Selected(f, z, g.zones[z]) {
      assert KeysAt(g, {}, true) == {} && KeysAt(g, {}, false) == {};
    }
  }

  /** Zones being visited once each, the percentage list has one entry per
      zone that sees a route origin, and the top-level list one per such
      top-level zone. */
  lemma {:induction false} PercentageEntries(g: Snapshot, f: Filters, zs: seq<ZoneId>)
    requires forall z :: z in zs ==> z in g.zones
    requires Distinct(zs)
    ensures var t := Coverage(g, f, zs);
      && |t.pctZone| == |OriginZones(g, f, zs)|
      && |t.pctTld| == |TopLevelOf(g, OriginZones(g, f, zs))|
  {
    if zs == [] {
      assert OriginZones(g, f, zs) == {};
      assert TopLevelOf(g, {}) == {};
    } else {
      var init, z := zs[..|zs| - 1], zs[|zs| - 1];
      assert zs == init + [z];
      assert Distinct(init);
      assert z !in init;
      PercentageEntries(g, f, init);
      ZonePercentage(g, f, z);
      ZoneSeesOrigin(g, f, z);
      var t0, u := Coverage(g, f, init), ZoneTally(g, f, z);
      assert Coverage(g, f, zs) == Merge(t0, u);
      var zones0 := OriginZones(g, f, init);
      OriginZonesStep(g, f, init, z);
      TopLevelStep(g, zones0, z, SeesOrigin(g, f, z));
    }
  }

  /** Adding zone `z` (when `sees`) to a set without it adds one top-level
      zone exactly when `z` is top-level. */
  lemma TopLevelStep(g: Snapshot, zones0: set<ZoneId>, z: ZoneId, sees: bool)
    requires z in g.zones && z !in zones0
    ensures var here := if sees then {z} else {};
      && |zones0 + here| == |zones0| + |here|
      && |TopLevelOf(g, zones0 + here)|
         == |TopLevelOf(g, zones0)| + if sees && IsTopLevel(g.zones[z].category) then 1 else 0
  {
    var here := if sees then {z} else {};
    TopLevelOfUnion(g, zones0, here);
    assert TopLevelOf(g, here) == if sees && IsTopLevel(g.zones[z].category) then {z} else {};
  }

  lemma OriginZonesStep(g: Snapshot, f: Filters, zs: seq<ZoneId>, z: ZoneId)
    requires z in g.zones && forall z' :: z' in zs ==> z' in g.zones
    ensures OriginZones(g, f, zs + [z]) == OriginZones(g, f, zs) + if SeesOrigin(g, f, z) then {z} else {}
  {
    forall x | x in OriginZones(g, f, zs + [z])
      ensures x in OriginZones(g, f, zs) + if SeesOrigin(g, f, z) then {z} else {}
    {
      if x != z {
        assert x in zs;
      }
    }
  }

  /** A zone with a percentage entry is a counted zone. */
  lemma ZoneEntryCounted(g: Snapshot, f: Filters, z: ZoneId)
    requires z in g.zones
    ensures var u := ZoneTally(g, f, z); |u.pctZone| > 0 ==> u.zones == {z}
  {
    ZoneTallyReaches(g, f, z);
    var u := ZoneTally(g, f, z);
    if u.addresses == {} {
      assert KeysAt(g, {}, true) == {} && KeysAt(g, {}, false) == {};
    }
  }

  /** Every percentage lies in 0..100. */
  lemma {:induction false} PercentagesInRange(g: Snapshot, f: Filters, zs: seq<ZoneId>)
    requires forall z :: z in zs ==> z in g.zones
    ensures var t := Coverage(g, f, zs);
      && Percentages(t.pctZone) && Percentages(t.pctTld)
  {
    if zs != [] {
      var init, z := zs[..|zs| - 1], zs[|zs| - 1];
      PercentagesInRange(g, f, init);
      ZonePercentage(g, f, z);
      var t0, u := Coverage(g, f, init), ZoneTally(g, f, z);
      PercentagesConcat(t0.pctZone, u.pctZone);
      PercentagesConcat(t0.pctTld, u.pctTld);
    }
  }

  /** Every element of `s` lies in 0..100. */
  ghost predicate Percentages(s: seq<nat>)
  {
    forall p :: p in s ==> p <= 100
  }

  lemma PercentagesConcat(s: seq<nat>, s': seq<nat>)
    requires Percentages(s) && Percentages(s')
    ensures Percentages(s + s')
  {
  }

  /** Zones being visited once each, the percentage list has exactly one
      entry per zone that sees a route origin and the top-level list one per
      such top-level zone; so there are no more top-level entries than
      entries, and no more entries than zones counted. */
  lemma {:induction false} PercentagesCounted(g: Snapshot, f: Filters, zs: seq<ZoneId>)
    requires forall z :: z in zs ==> z in g.zones
    requires Distinct(zs)
    ensures var t := Coverage(g, f, zs);
      && |t.pctZone| == |OriginZones(g, f, zs)|
      && |t.pctTld| == |TopLevelOf(g, OriginZones(g, f, zs))|
      && |t.pctTld| <= |t.pctZone| <= |t.zones|
  {
    PercentageEntries(g, f, zs);
    if zs != [] {
      var init, z := zs[..|zs| - 1], zs[|zs| - 1];
      assert Distinct(init);
      PercentagesCounted(g, f, init);
      CoverageZones(g, f, init);
      assert z !in ReachedZones(g, f, init);
      ZonePercentage(g, f, z);
      ZoneEntryCounted(g, f, z);
      var t0, u := Coverage(g, f, init), ZoneTally(g, f, z);
      if |u.pctZone| == 1 {
        assert |t0.zones + u.zones| == |t0.zones| + 1;
      } else {
        SubsetSize(t0.zones, t0.zones + u.zones);
      }
    }
  }

  /** `b` admits everything `a` admits. */
  predicate Relaxes<T>(a: Option<set<T>>, b: Option<set<T>>)
  {
    b.None? || (a.Some? && a.value <= b.value)
  }

  /** `f'` relaxes every criterion of `f` (drops it, or widens its set). */
  predicate Weaker(f: Filters, f': Filters)
  {
    && Relaxes(f.families, f'.families) && Relaxes(f.categories, f'.categories)
    && Relaxes(f.zoneIds, f'.zoneIds) && Relaxes(f.rnames, f'.rnames)
  }

  lemma ReachedMonotone(g: Snapshot, f: Filters, f': Filters, zs: seq<ZoneId>)
    requires Weaker(f, f')
    ensures ReachedAddresses(g, f, zs) <= ReachedAddresses(g, f', zs)
    ensures ReachedNameservers(g, f, zs) <= ReachedNameservers(g, f', zs)
    ensures ReachedZones(g, f, zs) <= ReachedZones(g, f', zs)
  {
    forall a | a in ReachedAddresses(g, f, zs) ensures a in ReachedAddresses(g, f', zs) {
      var z, ns :| z in zs && z in g.zones && Selected(f, z, g.zones[z]) && ns in g.zones[z].authNameservers
                   && ns in g.nameservers && a in g.nameservers[ns].authAddresses
                   && a in g.addresses && Admits(f.families, g.addresses[a].family);
      PathRelaxed(g, f, f', z, ns, a);
    }
    forall ns | ns in ReachedNameservers(g, f, zs) ensures ns in ReachedNameservers(g, f', zs) {
      var z, a :| z in zs && z in g.zones && Selected(f, z, g.zones[z]) && ns in g.zones[z].authNameservers
                  && ns in g.nameservers && a in g.nameservers[ns].authAddresses
                  && a in g.addresses && Admits(f.families, g.addresses[a].family);
      PathRelaxed(g, f, f', z, ns, a);
    }
    forall z | z in ReachedZones(g, f, zs) ensures z in ReachedZones(g, f', zs) {
      var ns, a :| z in zs && z in g.zones && Selected(f, z, g.zones[z]) && ns in g.zones[z].authNameservers
                   && ns in g.nameservers && a in g.nameservers[ns].authAddresses
                   && a in g.addresses && Admits(f.families, g.addresses[a].family);
      PathRelaxed(g, f, f', z, ns, a);
    }
  }

  /** A zone, nameserver and address admitted by `f` are admitted by any
      weaker `f'`. */
  lemma PathRelaxed(g: Snapshot, f: Filters, f': Filters, z: ZoneId, ns: NameserverId, a: AddressId)
    requires Weaker(f, f') && z in g.zones && a in g.addresses
    requires Selected(f, z, g.zones[z]) && Admits(f.families, g.addresses[a].family)
    ensures Selected(f', z, g.zones[z]) && Admits(f'.families, g.addresses[a].family)
  {
  }

  /** Relaxing any criterion never decreases any of the six counts: every set
      roacoverage counts only grows. */
  lemma CoverageMonotone(g: Snapshot, f: Filters, f': Filters, zs: seq<ZoneId>)
    requires forall z :: z in zs ==> z in g.zones
    requires Weaker(f, f')
    ensures var t, t' := Coverage(g, f, zs), Coverage(g, f', zs);
      && t.yes <= t'.yes && t.no <= t'.no && t.zones <= t'.zones && t.tlds <= t'.tlds
      && t.nameservers <= t'.nameservers && t.addresses <= t'.addresses
      && |t.yes| <= |t'.yes| && |t.no| <= |t'.no| && |t.zones| <= |t'.zones| && |t.tlds| <= |t'.tlds|
      && |t.nameservers| <= |t'.nameservers| && |t.addresses| <= |t'.addresses|
  {
    CoverageReaches(g, f, zs);
    CoverageReaches(g, f', zs);
    ReachedMonotone(g, f, f', zs);
    var t, t' := Coverage(g, f, zs), Coverage(g, f', zs);
    KeysAtMonotone(g, t.addresses, t'.addresses, true);
    KeysAtMonotone(g, t.addresses, t'.addresses, false);
    assert t.tlds <= t'.tlds;
    SubsetSize(t.yes, t'.yes);
    SubsetSize(t.no, t'.no);
    SubsetSize(t.zones, t'.zones);
    SubsetSize(t.tlds, t'.tlds);
    SubsetSize(t.nameservers, t'.nameservers);
    SubsetSize(t.addresses, t'.addresses);
  }

  /** The census records one ROA state per route origin: two originations
      with the same (prefix, AS) agree on whether a ROA covers them. */
  ghost predicate RoaConsistent(g: Snapshot)
  {
    forall a1, a2, i, j ::
      a1 in g.addresses && a2 in g.addresses
      && 0 <= i < |g.addresses[a1].originations| && 0 <= j < |g.addresses[a2].originations|
      && KeyOf(g.addresses[a1].originations[i]) == KeyOf(g.addresses[a2].originations[j])
      ==> g.addresses[a1].originations[i].hasRoa == g.addresses[a2].originations[j].hasRoa
  }

  /** Every route origin seen at the addresses `addrs1`, whatever its ROA state. */
  ghost function AllKeysAt(g: Snapshot, addrs1: set<AddressId>): set<RouteKey>
  {
    set a, o | a in addrs1 && a in g.addresses && o in g.addresses[a].originations :: KeyOf(o)
  }

  /** Nothing in the walk keeps a route origin out of both sets: two
      originations of one prefix by one AS with different ROA flags put the
      same route origin among those with and those without a ROA. */
  lemma YesNoOverlap()
    ensures var os := [Origination("192.0.2.0/24", Some(64500), "EXAMPLE", true),
                       Origination("192.0.2.0/24", Some(64500), "EXAMPLE", false)];
      ("192.0.2.0/24", Some(64500)) in OrigKeys(os, true) * OrigKeys(os, false)
  {
    var os := [Origination("192.0.2.0/24", Some(64500), "EXAMPLE", true),
               Origination("192.0.2.0/24", Some(64500), "EXAMPLE", false)];
    assert os[0] in os && os[1] in os;
  }

  /** When the census is consistent about ROA states, the yes and no sets
      are disjoint and together hold every route origin reached, so the yes
      and no counts add up to the number of distinct route origins reached. */
  lemma YesNoPartition(g: Snapshot, f: Filters, zs: seq<ZoneId>)
    requires forall z :: z in zs ==> z in g.zones
    requires RoaConsistent(g)
    ensures var t := Coverage(g, f, zs);
      && t.yes * t.no == {}
      && t.yes + t.no == AllKeysAt(g, t.addresses)
      && |t.yes| + |t.no| == |AllKeysAt(g, t.addresses)|
  {
    CoverageKeys(g, f, zs);
    KeysPartition(g, Coverage(g, f, zs).addresses);
  }

  /** Under consistent ROA states, the route origins seen at `addrs1` split
      into those with and those without a ROA. */
  lemma KeysPartition(g: Snapshot, addrs1: set<AddressId>)
    requires RoaConsistent(g)
    ensures KeysAt(g, addrs1, true) * KeysAt(g, addrs1, false) == {}
    ensures KeysAt(g, addrs1, true) + KeysAt(g, addrs1, false) == AllKeysAt(g, addrs1)
  {
    var yes, no := KeysAt(g, addrs1, true), KeysAt(g, addrs1, false);
    forall k | k in yes ensures k !in no {
      var a1, o1 :| a1 in addrs1 && a1 in g.addresses && o1 in g.addresses[a1].originations && o1.hasRoa && KeyOf(o1) == k;
    }
    forall k | k in AllKeysAt(g, addrs1) ensures k in yes + no {
      var a, o :| a in addrs1 && a in g.addresses && o in g.addresses[a].originations && KeyOf(o) == k;
      if o.hasRoa {
        assert k in yes;
      } else {
        assert k in no;
      }
    }
  }

  // ---------------------------------------------------------------------------
  // roacoverage
  // ---------------------------------------------------------------------------

  /** The running tally `acc` is `base` plus what the walk `r` of zone `z`
      has reached so far. */
  ghost predicate Accumulates(acc: Tally, base: Tally, z: ZoneId, topLevel: bool, r: Reach)
  {
    && acc.yes == base.yes + r.yes && acc.no == base.no + r.no
    && acc.zones == base.zones + (if r.addresses != {} then {z} else {})
    && acc.tlds == base.tlds + (if r.addresses != {} && topLevel then {z} else {})
    && acc.nameservers == base.nameservers + r.nameservers
    && acc.addresses == base.addresses + r.addresses
    && acc.pctZone == base.pctZone && acc.pctTld == base.pctTld
  }

  /** The innermost loop of roacoverage: file each route origination of one
      address under its ROA state, both in the running sets and in the
      zone's own sets. */
  method CountOriginations(os: seq<Origination>, yes0: set<RouteKey>, no0: set<RouteKey>,
                           zoneYes0: set<RouteKey>, zoneNo0: set<RouteKey>)
    returns (yes: set<RouteKey>, no: set<RouteKey>, zoneYes: set<RouteKey>, zoneNo: set<RouteKey>)
    ensures yes == yes0 + OrigKeys(os, true) && zoneYes == zoneYes0 + OrigKeys(os, true)
    ensures no == no0 + OrigKeys(os, false) && zoneNo == zoneNo0 + OrigKeys(os, false)
  {
    yes, no, zoneYes, zoneNo := yes0, no0, zoneYes0, zoneNo0;
    for m := 0 to |os|
      invariant yes == yes0 + OrigKeys(os[..m], true) && zoneYes == zoneYes0 + OrigKeys(os[..m], true)
      invariant no == no0 + OrigKeys(os[..m], false) && zoneNo == zoneNo0 + OrigKeys(os[..m], false)
    {
      var o := os[m];
      assert os[..m + 1][..m] == os[..m];
      if o.hasRoa {
        yes := yes + {KeyOf(o)};
        zoneYes := zoneYes + {KeyOf(o)};
      } else {
        no := no + {KeyOf(o)};
        zoneNo := zoneNo + {KeyOf(o)};
      }
    }
    assert os[..|os|] == os;
  }

  /** The address loop of roacoverage for nameserver `ns` of zone `z`: each
      address of an admitted family counts the zone, the nameserver and the
      address, and files its route origins. */
  method VisitNameserver(g: Snapshot, f: Filters, z: ZoneId, topLevel: bool, ns: NameserverId,
                         acc0: Tally, zoneYes0: set<RouteKey>, zoneNo0: set<RouteKey>,
                         ghost base: Tally, ghost r0: Reach)
    returns (acc: Tally, zoneYes: set<RouteKey>, zoneNo: set<RouteKey>)
    requires Closed(g) && ns in g.nameservers
    requires Accumulates(acc0, base, z, topLevel, r0) && zoneYes0 == r0.yes && zoneNo0 == r0.no
    ensures var r := Join(r0, WalkAddrs(g, f, ns, g.nameservers[ns].authAddresses));
      Accumulates(acc, base, z, topLevel, r) && zoneYes == r.yes && zoneNo == r.no
  {
    acc, zoneYes, zoneNo := acc0, zoneYes0, zoneNo0;
    ghost var r := r0;
    JoinNowhere(r0);
    var addrs := g.nameservers[ns].authAddresses;
    for k := 0 to |addrs|
      invariant r == Join(r0, WalkAddrs(g, f, ns, addrs[..k]))
      invariant Accumulates(acc, base, z, topLevel, r) && zoneYes == r.yes && zoneNo == r.no
    {
      var a := addrs[k];
      WalkAddrsStep(g, f, ns, addrs, k);
      JoinAssoc(r0, WalkAddrs(g, f, ns, addrs[..k]), AddrReach(g, f, ns, a));
      var addrObj := g.addresses[a];
      if !Admits(f.families, addrObj.family) {
        JoinNowhere(r);
        continue;
      }
      acc := acc.(zones := acc.zones + {z});
      if topLevel {
        acc := acc.(tlds := acc.tlds + {z});
      }
      acc := acc.(nameservers := acc.nameservers + {ns}, addresses := acc.addresses + {a});
      var setOfYes, setOfNo;
      setOfYes, setOfNo, zoneYes, zoneNo := CountOriginations(addrObj.originations, acc.yes, acc.no, zoneYes, zoneNo);
      acc := acc.(yes := setOfYes, no := setOfNo);
      r := Join(r, AddrReach(g, f, ns, a));
      assert a in r.addresses;
    }
    assert addrs[..|addrs|] == addrs;
  }

  /** The nameserver loop of roacoverage for a zone that passes the zone
      criteria: the running tally grows by what the zone's walk reaches, and
      the zone's own yes and no sets are exactly the route origins it reaches. */
  method VisitZone(g: Snapshot, f: Filters, z: ZoneId, acc0: Tally)
    returns (acc: Tally, zoneYes: set<RouteKey>, zoneNo: set<RouteKey>)
    requires Closed(g) && z in g.zones && Selected(f, z, g.zones[z])
    ensures var r := WalkNameservers(g, f, g.zones[z].authNameservers);
      Accumulates(acc, acc0, z, IsTopLevel(g.zones[z].category), r) && zoneYes == r.yes && zoneNo == r.no
  {
    acc, zoneYes, zoneNo := acc0, {}, {};
    var zone := g.zones[z];
    var topLevel := IsTopLevel(zone.category);
    var nss := zone.authNameservers;
    assert acc0.yes + {} == acc0.yes && acc0.no + {} == acc0.no;
    assert acc0.nameservers + {} == acc0.nameservers && acc0.addresses + {} == acc0.addresses;
    for j := 0 to |nss|
      invariant Accumulates(acc, acc0, z, topLevel, WalkNameservers(g, f, nss[..j]))
      invariant zoneYes == WalkNameservers(g, f, nss[..j]).yes && zoneNo == WalkNameservers(g, f, nss[..j]).no
    {
      WalkNameserversStep(g, f, nss, j);
      acc, zoneYes, zoneNo := VisitNameserver(g, f, z, topLevel, nss[j], acc, zoneYes, zoneNo,
                                              acc0, WalkNameservers(g, f, nss[..j]));
    }
    assert nss[..|nss|] == nss;
  }

  /** roacoverage: the counts of distinct route origins with and without a
      ROA, of zones, top-level zones, nameservers and addresses reached under
      the filters, and the per-zone and per-top-level-zone percentages. */
  method RoaCoverageCounts(g: Snapshot, order: seq<ZoneId>, f: Filters)
    returns (yes: nat, no: nat, zoneCount: nat, tldCount: nat, nsCount: nat, addrCount: nat,
             pctZone: seq<nat>, pctTld: seq<nat>)
    requires Closed(g) && Enumerates(order, g.zones.Keys)
    ensures var t := Coverage(g, f, order);
      && yes == |t.yes| && no == |t.no| && zoneCount == |t.zones| && tldCount == |t.tlds|
      && nsCount == |t.nameservers| && addrCount == |t.addresses|
      && pctZone == t.pctZone && pctTld == t.pctTld
  {
    var acc := EmptyTally;
    for i := 0 to |order|
      invariant acc == Coverage(g, f, order[..i])
    {
      var z := order[i];
      CoverageStep(g, f, order, i);
      var zone := g.zones[z];
      if !Selected(f, z, zone) {
        MergeNothing(acc, ZoneTally(g, f, z));
        continue;
      }
      var zoneSetOfYes, zoneSetOfNo;
      acc, zoneSetOfYes, zoneSetOfNo := VisitZone(g, f, z, acc);
      if |zoneSetOfYes| + |zoneSetOfNo| > 0 {
        var pct := Pct(|zoneSetOfYes|, |zoneSetOfNo|);
        acc := acc.(pctZone := acc.pctZone + [pct]);
        if IsTopLevel(zone.category) {
          acc := acc.(pctTld := acc.pctTld + [pct]);
        }
      }
    }
    assert order[..|order|] == order;
    yes, no := |acc.yes|, |acc.no|;
    zoneCount, tldCount := |acc.zones|, |acc.tlds|;
    nsCount, addrCount := |acc.nameservers|, |acc.addresses|;
    pctZone, pctTld := acc.pctZone, acc.pctTld;
  }
}
