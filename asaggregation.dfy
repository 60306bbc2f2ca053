/**
  The AS aggregator of measureroadeployment: for every AS number seen as the
  origin of a route at some census address, the prefixes it originates with
  and without a ROA, the addresses it serves, the nameservers using those
  addresses, and the zones those nameservers serve, by category.
 */
module AsAggregation {
  import opened Census

  /** The operator name an AS carries until an origination names it. */
  const UnsetOperator := "Unset"

  /** asInfo: the aggregate kept for one AS, updated in place as the
      originations of the census are visited. */
  class AsInfo {
    const autnum: nat
    var autnumOperator: string
    var prefixesWithRoa: set<string>
    var prefixesWithoutRoa: set<string>
    var addresses: set<AddressId>
    var nameservers: set<NameserverId>
    var zones: map<string, set<ZoneId>>

    constructor(autnumber: nat)
      ensures autnum == autnumber && autnumOperator == UnsetOperator
      ensures prefixesWithRoa == {} && prefixesWithoutRoa == {}
      ensures addresses == {} && nameservers == {} && zones == map[]
    {
      autnum := autnumber;
      autnumOperator := UnsetOperator;
      prefixesWithRoa, prefixesWithoutRoa := {}, {};
      addresses, nameservers := {}, {};
      zones := map[];
    }
  }

  /** The value of an asInfo at one moment. */
  datatype AsVal = AsVal(
    autnum: nat,
    operator: string,
    withRoa: set<string>,
    withoutRoa: set<string>,
    addresses: set<AddressId>,
    nameservers: set<NameserverId>,
    zones: map<string, set<ZoneId>>)

  function Val(o: AsInfo): AsVal
    reads o
  {
    AsVal(o.autnum, o.autnumOperator, o.prefixesWithRoa, o.prefixesWithoutRoa, o.addresses, o.nameservers, o.zones)
  }

  function Vals(m: map<nat, AsInfo>): map<nat, AsVal>
    reads m.Values
  {
    map n | n in m :: Val(m[n])
  }

  function NewAs(n: nat): AsVal
  {
    AsVal(n, UnsetOperator, {}, {}, {}, {}, map[])
  }

  // ---------------------------------------------------------------------------
  // The aggregation, as values
  // ---------------------------------------------------------------------------

  /** Files the zones `zs` under their categories. */
  ghost function AddZones(g: Snapshot, zm: map<string, set<ZoneId>>, zs: seq<ZoneId>): map<string, set<ZoneId>>
    requires forall z :: z in zs ==> z in g.zones
  {
    if zs == [] then zm
    else
      var z := zs[|zs| - 1];
      Insert(AddZones(g, zm, zs[..|zs| - 1]), g.zones[z].category, {z})
  }

  /** Counts the nameservers `nss`, and the zones each of them serves. */
  ghost function AddNameservers(g: Snapshot, v: AsVal, nss: seq<NameserverId>): AsVal
    requires Closed(g) && forall ns :: ns in nss ==> ns in g.nameservers
  {
    if nss == [] then v
    else
      var u := AddNameservers(g, v, nss[..|nss| - 1]);
      var ns := nss[|nss| - 1];
      u.(nameservers := u.nameservers + {ns}, zones := AddZones(g, u.zones, g.nameservers[ns].usedByZones))
  }

  /** One origination `o` of address `a`, credited to its AS. */
  ghost function Credit(g: Snapshot, v: AsVal, a: AddressId, o: Origination): AsVal
    requires Closed(g) && a in g.addresses
  {
    var u := v.(operator := o.autnumName,
                withRoa := if o.hasRoa then v.withRoa + {o.prefix} else v.withRoa,
                withoutRoa := if o.hasRoa then v.withoutRoa else v.withoutRoa + {o.prefix},
                addresses := v.addresses + {a});
    AddNameservers(g, u, g.addresses[a].usedInAuthSet)
  }

  /** An origination as the census lists it: the address it was seen at, and the origination. */
  type Sighting = (AddressId, Origination)

  /** Every origination of the addresses `addrs`, address by address. */
  ghost function Sightings(g: Snapshot, addrs: seq<AddressId>): (ps: seq<Sighting>)
    requires forall a :: a in addrs ==> a in g.addresses
    ensures forall p :: p in ps ==> p.0 in addrs
  {
    if addrs == [] then []
    else
      var a := addrs[|addrs| - 1];
      Sightings(g, addrs[..|addrs| - 1]) + Pairs(a, g.addresses[a].originations)
  }

  function Pairs(a: AddressId, os: seq<Origination>): (ps: seq<Sighting>)
    ensures |ps| == |os| && forall i :: 0 <= i < |os| ==> ps[i] == (a, os[i])
  {
    seq(|os|, i requires 0 <= i < |os| => (a, os[i]))
  }

  /** The table after the sighting `p`: nothing changes when its AS is
      unknown; otherwise its AS's entry, created on first sight, is credited. */
  ghost function Record(g: Snapshot, t: map<nat, AsVal>, p: Sighting): map<nat, AsVal>
    requires Closed(g) && p.0 in g.addresses
  {
    match p.1.autnum
    case None => t
    case Some(n) => t[n := Credit(g, if n in t then t[n] else NewAs(n), p.0, p.1)]
  }

  /** The table after the sightings `ps`, in order. */
  ghost function Tabulate(g: Snapshot, ps: seq<Sighting>): map<nat, AsVal>
    requires Closed(g) && forall p :: p in ps ==> p.0 in g.addresses
  {
    if ps == [] then map[]
    else Record(g, Tabulate(g, ps[..|ps| - 1]), ps[|ps| - 1])
  }

  lemma TabulateStep(g: Snapshot, ps: seq<Sighting>, p: Sighting)
    requires Closed(g) && p.0 in g.addresses && forall q :: q in ps ==> q.0 in g.addresses
    ensures Tabulate(g, ps + [p]) == Record(g, Tabulate(g, ps), p)
  {
    assert (ps + [p])[..|ps|] == ps;
  }

  // ---------------------------------------------------------------------------
  // What an AS entry holds
  // ---------------------------------------------------------------------------

  /** `z` is filed under category `c`. */
  ghost predicate Filed(zm: map<string, set<ZoneId>>, c: string, z: ZoneId)
  {
    c in zm && z in zm[c]
  }

  /** An AS entry agrees with the census: its nameservers are exactly those
      using one of its addresses, and its zones are exactly those served by
      one of its nameservers, each filed under its own category. */
  ghost predicate Consistent(g: Snapshot, v: AsVal)
    requires Closed(g)
  {
    && v.addresses <= g.addresses.Keys
    && v.nameservers <= g.nameservers.Keys
    && (forall x :: x in v.nameservers <==> exists a :: a in v.addresses && x in g.addresses[a].usedInAuthSet)
    && (forall c, z :: Filed(v.zones, c, z) <==>
          exists ns :: ns in v.nameservers && z in g.nameservers[ns].usedByZones && g.zones[z].category == c)
  }

  lemma {:induction false} AddZonesFiles(g: Snapshot, zm: map<string, set<ZoneId>>, zs: seq<ZoneId>)
    requires forall z :: z in zs ==> z in g.zones
    ensures forall c, z :: Filed(AddZones(g, zm, zs), c, z) <==> Filed(zm, c, z) || (z in zs && g.zones[z].category == c)
  {
    if zs != [] {
      var zs', y := zs[..|zs| - 1], zs[|zs| - 1];
      assert zs == zs' + [y];
      AddZonesFiles(g, zm, zs');
      var before, after := AddZones(g, zm, zs'), AddZones(g, zm, zs);
      assert Inserted(before, after, g.zones[y].category, {y});
      forall c, z ensures Filed(after, c, z) <==> Filed(before, c, z) || (z == y && g.zones[y].category == c) {
      }
    }
  }

  lemma {:induction false} AddNameserversShape(g: Snapshot, v: AsVal, nss: seq<NameserverId>)
    requires Closed(g) && forall ns :: ns in nss ==> ns in g.nameservers
    ensures var r := AddNameservers(g, v, nss);
      && r == v.(nameservers := r.nameservers, zones := r.zones)
      && (forall x :: x in r.nameservers <==> x in v.nameservers || x in nss)
      && (forall c, z :: Filed(r.zones, c, z) <==>
            (|| Filed(v.zones, c, z)
             || exists ns :: ns in nss && z in g.nameservers[ns].usedByZones && g.zones[z].category == c))
  {
    if nss != [] {
      var nss' := nss[..|nss| - 1];
      var ns := nss[|nss| - 1];
      assert nss == nss' + [ns];
      AddNameserversShape(g, v, nss');
      var u := AddNameservers(g, v, nss');
      AddZonesFiles(g, u.zones, g.nameservers[ns].usedByZones);
    }
  }

  /** What crediting one origination does to an AS entry. */
  lemma CreditShape(g: Snapshot, v: AsVal, a: AddressId, o: Origination)
    requires Closed(g) && a in g.addresses
    ensures var r := Credit(g, v, a, o);
      && r.autnum == v.autnum
      && r.operator == o.autnumName
      && r.withRoa == (if o.hasRoa then v.withRoa + {o.prefix} else v.withRoa)
      && r.withoutRoa == (if o.hasRoa then v.withoutRoa else v.withoutRoa + {o.prefix})
      && r.addresses == v.addresses + {a}
  {
    var u := v.(operator := o.autnumName,
                withRoa := if o.hasRoa then v.withRoa + {o.prefix} else v.withRoa,
                withoutRoa := if o.hasRoa then v.withoutRoa else v.withoutRoa + {o.prefix},
                addresses := v.addresses + {a});
    AddNameserversShape(g, u, g.addresses[a].usedInAuthSet);
  }

  /** Crediting an origination keeps an entry consistent with the census. */
  lemma CreditConsistent(g: Snapshot, v: AsVal, a: AddressId, o: Origination)
    requires Closed(g) && a in g.addresses && Consistent(g, v)
    ensures Consistent(g, Credit(g, v, a, o))
  {
    var r := Credit(g, v, a, o);
    var nss := g.addresses[a].usedInAuthSet;
    CreditShape(g, v, a, o);
    var u := v.(operator := o.autnumName,
                withRoa := if o.hasRoa then v.withRoa + {o.prefix} else v.withRoa,
                withoutRoa := if o.hasRoa then v.withoutRoa else v.withoutRoa + {o.prefix},
                addresses := v.addresses + {a});
    AddNameserversShape(g, u, nss);
    forall x | x in r.nameservers
      ensures exists b :: b in r.addresses && x in g.addresses[b].usedInAuthSet
    {
      if x in nss {
        assert a in r.addresses;
      }
    }
    forall c, z | exists ns :: ns in r.nameservers && z in g.nameservers[ns].usedByZones && g.zones[z].category == c
      ensures Filed(r.zones, c, z)
    {
      var ns :| ns in r.nameservers && z in g.nameservers[ns].usedByZones && g.zones[z].category == c;
      if ns !in nss {
        assert ns in v.nameservers;
      }
    }
  }

  /** Every entry of the table is the entry of its own AS number, agrees
      with the census, and was credited at least one prefix and address. */
  lemma {:induction false} TabulateConsistent(g: Snapshot, ps: seq<Sighting>)
    requires Closed(g) && forall p :: p in ps ==> p.0 in g.addresses
    ensures forall n :: n in Tabulate(g, ps) ==>
      && Tabulate(g, ps)[n].autnum == n
      && Consistent(g, Tabulate(g, ps)[n])
      && Tabulate(g, ps)[n].withRoa + Tabulate(g, ps)[n].withoutRoa != {}
      && Tabulate(g, ps)[n].addresses != {}
  {
    if ps != [] {
      var ps' := ps[..|ps| - 1];
      var p := ps[|ps| - 1];
      assert ps == ps' + [p];
      TabulateConsistent(g, ps');
      var t := Tabulate(g, ps');
      if p.1.autnum.Some? {
        var n := p.1.autnum.value;
        var v := if n in t then t[n] else NewAs(n);
        CreditShape(g, v, p.0, p.1);
        CreditConsistent(g, v, p.0, p.1);
      }
    }
  }

  /** An AS number is a key of the table exactly when some sighting names it as origin. */
  lemma {:induction false} TabulateKeys(g: Snapshot, ps: seq<Sighting>)
    requires Closed(g) && forall p :: p in ps ==> p.0 in g.addresses
    ensures forall n :: n in Tabulate(g, ps) <==> exists p :: p in ps && p.1.autnum == Some(n)
  {
    if ps != [] {
      var ps' := ps[..|ps| - 1];
      assert ps == ps' + [ps[|ps| - 1]];
      TabulateKeys(g, ps');
    }
  }

  /** The prefixes an AS originates with a ROA (`roa`) or without one. */
  function Prefixes(v: AsVal, roa: bool): set<string>
  {
    if roa then v.withRoa else v.withoutRoa
  }

  /** An AS's prefixes with (or without) a ROA are exactly those of the
      sightings naming it as origin with that ROA state. */
  lemma {:induction false} TabulatePrefixes(g: Snapshot, ps: seq<Sighting>, n: nat, roa: bool)
    requires Closed(g) && forall p :: p in ps ==> p.0 in g.addresses
    requires n in Tabulate(g, ps)
    ensures forall x :: x in Prefixes(Tabulate(g, ps)[n], roa) <==>
      exists p :: p in ps && p.1.autnum == Some(n) && p.1.hasRoa == roa && p.1.prefix == x
  {
    var ps' := ps[..|ps| - 1];
    var p := ps[|ps| - 1];
    assert ps == ps' + [p];
    var t := Tabulate(g, ps');
    if n in t {
      TabulatePrefixes(g, ps', n, roa);
    } else {
      TabulateKeys(g, ps');
    }
    if p.1.autnum == Some(n) {
      var v := if n in t then t[n] else NewAs(n);
      CreditShape(g, v, p.0, p.1);
      assert Prefixes(Tabulate(g, ps)[n], roa) == Prefixes(v, roa) + (if p.1.hasRoa == roa then {p.1.prefix} else {});
    }
  }

  /** An AS's addresses are exactly those where a sighting names it as origin. */
  lemma {:induction false} TabulateAddresses(g: Snapshot, ps: seq<Sighting>, n: nat)
    requires Closed(g) && forall p :: p in ps ==> p.0 in g.addresses
    requires n in Tabulate(g, ps)
    ensures forall a :: a in Tabulate(g, ps)[n].addresses <==> exists p :: p in ps && p.1.autnum == Some(n) && p.0 == a
  {
    var ps' := ps[..|ps| - 1];
    var p := ps[|ps| - 1];
    assert ps == ps' + [p];
    var t := Tabulate(g, ps');
    if n in t {
      TabulateAddresses(g, ps', n);
    } else {
      TabulateKeys(g, ps');
    }
    if p.1.autnum == Some(n) {
      CreditShape(g, if n in t then t[n] else NewAs(n), p.0, p.1);
    }
  }

  /** An AS's operator name is the one given by the last sighting naming it. */
  lemma {:induction false} TabulateOperator(g: Snapshot, ps: seq<Sighting>, n: nat)
    requires Closed(g) && forall p :: p in ps ==> p.0 in g.addresses
    requires n in Tabulate(g, ps)
    ensures exists i ::
      && 0 <= i < |ps| && ps[i].1.autnum == Some(n) && Tabulate(g, ps)[n].operator == ps[i].1.autnumName
      && forall j :: i < j < |ps| ==> ps[j].1.autnum != Some(n)
  {
    var ps' := ps[..|ps| - 1];
    var p := ps[|ps| - 1];
    assert ps == ps' + [p];
    var t := Tabulate(g, ps');
    if p.1.autnum == Some(n) {
      CreditShape(g, if n in t then t[n] else NewAs(n), p.0, p.1);
      assert ps[|ps| - 1].1.autnum == Some(n);
    } else {
      TabulateOperator(g, ps', n);
      var i :| 0 <= i < |ps'| && ps'[i].1.autnum == Some(n) && t[n].operator == ps'[i].1.autnumName
        && forall j :: i < j < |ps'| ==> ps'[j].1.autnum != Some(n);
      assert ps[i] == ps'[i];
    }
  }

  /** The sightings of a list of addresses are the originations recorded at them. */
  lemma {:induction false} SightingsMembers(g: Snapshot, addrs: seq<AddressId>)
    requires forall a :: a in addrs ==> a in g.addresses
    ensures forall p :: p in Sightings(g, addrs) <==> p.0 in addrs && p.1 in g.addresses[p.0].originations
  {
    if addrs != [] {
      var addrs' := addrs[..|addrs| - 1];
      var a := addrs[|addrs| - 1];
      assert addrs == addrs' + [a];
      SightingsMembers(g, addrs');
      var os := g.addresses[a].originations;
      forall p | p in Pairs(a, os)
        ensures p.0 == a && p.1 in os
      {
        var i :| 0 <= i < |os| && Pairs(a, os)[i] == p;
      }
      forall o | o in os
        ensures (a, o) in Pairs(a, os)
      {
        var i :| 0 <= i < |os| && os[i] == o;
        assert Pairs(a, os)[i] == (a, o);
      }
    }
  }

  // ---------------------------------------------------------------------------
  // buildautnumdict
  // ---------------------------------------------------------------------------

  /** The zone loop of buildautnumdict for one nameserver: file each zone it
      serves under the zone's category. */
  method FileZones(g: Snapshot, asObj: AsInfo, zs: seq<ZoneId>)
    requires forall z :: z in zs ==> z in g.zones
    modifies asObj
    ensures Val(asObj) == old(Val(asObj)).(zones := AddZones(g, old(asObj.zones), zs))
  {
    ghost var zm0 := asObj.zones;
    for k := 0 to |zs|
      invariant Val(asObj) == old(Val(asObj)).(zones := AddZones(g, zm0, zs[..k]))
    {
      var z := zs[k];
      assert zs[..k + 1][..k] == zs[..k];
      var category := g.zones[z].category;
      if category !in asObj.zones {
        asObj.zones := asObj.zones[category := {}];
      }
      asObj.zones := asObj.zones[category := asObj.zones[category] + {z}];
    }
    assert zs[..|zs|] == zs;
  }

  /** The body of buildautnumdict's origination loop, once the AS entry
      `asObj` is at hand: name the operator, file the prefix under its ROA
      state, count the address, its nameservers and their zones. */
  method CreditOrigination(g: Snapshot, asObj: AsInfo, a: AddressId, o: Origination)
    requires Closed(g) && a in g.addresses
    modifies asObj
    ensures Val(asObj) == Credit(g, old(Val(asObj)), a, o)
  {
    asObj.autnumOperator := o.autnumName;
    if o.hasRoa {
      asObj.prefixesWithRoa := asObj.prefixesWithRoa + {o.prefix};
    } else {
      asObj.prefixesWithoutRoa := asObj.prefixesWithoutRoa + {o.prefix};
    }
    asObj.addresses := asObj.addresses + {a};
    ghost var u := Val(asObj);
    var nss := g.addresses[a].usedInAuthSet;
    for j := 0 to |nss|
      invariant Val(asObj) == AddNameservers(g, u, nss[..j])
    {
      var ns := nss[j];
      assert nss[..j + 1][..j] == nss[..j];
      asObj.nameservers := asObj.nameservers + {ns};
      FileZones(g, asObj, g.nameservers[ns].usedByZones);
    }
    assert nss[..|nss|] == nss;
  }

  /** Each AS number has an asInfo of its own. */
  predicate Separate(m: map<nat, AsInfo>)
  {
    forall n, n' :: n in m && n' in m && n != n' ==> m[n] != m[n']
  }

  /** One pass of buildautnumdict's origination loop: skip an origination
      without a known AS, otherwise create the AS's asInfo on first sight and
      credit the origination to it. */
  method RecordOrigination(g: Snapshot, autnums: map<nat, AsInfo>, a: AddressId, o: Origination)
    returns (autnums': map<nat, AsInfo>)
    requires Closed(g) && a in g.addresses && Separate(autnums)
    modifies autnums.Values
    ensures Separate(autnums')
    ensures forall n :: n in autnums' ==> (n in autnums && autnums'[n] == autnums[n]) || fresh(autnums'[n])
    ensures Vals(autnums') == Record(g, old(Vals(autnums)), (a, o))
  {
    autnums' := autnums;
    ghost var t := Vals(autnums);
    if o.autnum.None? {
      return;
    }
    var n := o.autnum.value;
    if n !in autnums' {
      var created := new AsInfo(n);
      autnums' := autnums'[n := created];
    }
    var asObj := autnums'[n];
    ghost var v := Val(asObj);
    assert v == if n in t then t[n] else NewAs(n);
    CreditOrigination(g, asObj, a, o);
    ghost var credited := Val(asObj);
    ghost var after := Vals(autnums');
    assert after.Keys == t.Keys + {n};
    forall m | m in after
      ensures after[m] == t[n := credited][m]
    {
      if m != n {
        assert autnums'[m] != asObj;
      }
    }
    assert after == t[n := credited];
  }

  /** buildautnumdict's loop over the originations seen at address `a`. */
  method RecordAddress(g: Snapshot, autnums: map<nat, AsInfo>, a: AddressId, ghost done: seq<Sighting>)
    returns (autnums': map<nat, AsInfo>)
    requires Closed(g) && a in g.addresses && Separate(autnums)
    requires forall p :: p in done ==> p.0 in g.addresses
    requires Vals(autnums) == Tabulate(g, done)
    modifies autnums.Values
    ensures Separate(autnums')
    ensures forall n :: n in autnums' ==> (n in autnums && autnums'[n] == autnums[n]) || fresh(autnums'[n])
    ensures Vals(autnums') == Tabulate(g, done + Pairs(a, g.addresses[a].originations))
  {
    autnums' := autnums;
    var os := g.addresses[a].originations;
    assert done + Pairs(a, os[..0]) == done;
    for j := 0 to |os|
      invariant Separate(autnums')
      invariant forall n :: n in autnums' ==> (n in autnums && autnums'[n] == autnums[n]) || fresh(autnums'[n])
      invariant Vals(autnums') == Tabulate(g, done + Pairs(a, os[..j]))
    {
      var o := os[j];
      ghost var ps := done + Pairs(a, os[..j]);
      assert ps + [(a, o)] == done + Pairs(a, os[..j + 1]);
      TabulateStep(g, ps, (a, o));
      autnums' := RecordOrigination(g, autnums', a, o);
    }
    assert os[..|os|] == os;
  }

  /** buildautnumdict: one asInfo per AS number seen as a route origin at the
      addresses, visited in dictionary order; originations without a known AS
      are skipped. */
  method BuildAutnumDict(g: Snapshot, addrOrder: seq<AddressId>) returns (autnums: map<nat, AsInfo>)
    requires Closed(g) && Enumerates(addrOrder, g.addresses.Keys)
    ensures forall n :: n in autnums ==> fresh(autnums[n])
    ensures Separate(autnums)
    ensures Vals(autnums) == Tabulate(g, Sightings(g, addrOrder))
  {
    autnums := map[];
    for i := 0 to |addrOrder|
      invariant forall n :: n in autnums ==> fresh(autnums[n])
      invariant Separate(autnums)
      invariant Vals(autnums) == Tabulate(g, Sightings(g, addrOrder[..i]))
    {
      var a := addrOrder[i];
      assert addrOrder[..i + 1][..i] == addrOrder[..i];
      autnums := RecordAddress(g, autnums, a, Sightings(g, addrOrder[..i]));
    }
    assert addrOrder[..|addrOrder|] == addrOrder;
  }

  /** buildautnumdict in the census's own terms: an AS number is a key
      exactly when it originates a route at some census address; its
      prefixes with (without) a ROA are those of its originations with
      (without) a ROA; its addresses are those where it originates a route. */
  lemma AutnumDictContents(g: Snapshot, addrOrder: seq<AddressId>, n: nat)
    requires Closed(g) && Enumerates(addrOrder, g.addresses.Keys)
    ensures var t := Tabulate(g, Sightings(g, addrOrder));
      && (n in t <==> exists a, o :: a in g.addresses && o in g.addresses[a].originations && o.autnum == Some(n))
      && (n in t ==> forall roa, x :: x in Prefixes(t[n], roa) <==>
            exists a, o :: a in g.addresses && o in g.addresses[a].originations && o.autnum == Some(n)
              && o.hasRoa == roa && o.prefix == x)
      && (n in t ==> forall a :: a in t[n].addresses <==>
            a in g.addresses && exists o :: o in g.addresses[a].originations && o.autnum == Some(n))
  {
    var ps := Sightings(g, addrOrder);
    SightingsMembers(g, addrOrder);
    TabulateKeys(g, ps);
    var t := Tabulate(g, ps);
    forall a, o | a in g.addresses && o in g.addresses[a].originations
      ensures (a, o) in ps
    {
    }
    if n in t {
      TabulatePrefixes(g, ps, n, true);
      TabulatePrefixes(g, ps, n, false);
      TabulateAddresses(g, ps, n);
    }
  }

  // ---------------------------------------------------------------------------
  // make_asop_table
  // ---------------------------------------------------------------------------

  /** One row of the AS operator table. */
  datatype AsRow = AsRow(
    hasRoa: nat,
    hasNoRoa: nat,
    total: nat,
    pct: Share,
    zoneCount: nat,
    tldCount: nat,
    addressCount: nat,
    operator: string)

  /** The row of an AS entry: prefix counts by ROA state, the number of zones
      it serves and how many of them are top-level, its address count and
      operator name. */
  ghost function RowOf(v: AsVal): AsRow
  {
    var total := |v.withRoa| + |v.withoutRoa|;
    AsRow(|v.withRoa|, |v.withoutRoa|, total, ShareOf(|v.withRoa|, total),
          |ZonesUnder(v.zones, v.zones.Keys)|, |ZonesUnder(v.zones, TopLevelKeys(v.zones))|,
          |v.addresses|, v.operator)
  }

  /** make_asop_table's category loop: add up the bucket sizes, and those of
      the top-level buckets. A sum of bucket sizes counts distinct zones when
      no zone sits in two buckets. */
  method CountZones(zm: map<string, set<ZoneId>>) returns (zoneCount: nat, tldCount: nat)
    ensures tldCount <= zoneCount
    ensures BucketsDisjoint(zm) ==> zoneCount == |ZonesUnder(zm, zm.Keys)|
    ensures BucketsDisjoint(zm) ==> tldCount == |ZonesUnder(zm, TopLevelKeys(zm))|
  {
    zoneCount, tldCount := 0, 0;
    var todo := zm.Keys;
    ghost var disjoint := BucketsDisjoint(zm);
    ghost var done: set<string> := {};
    ghost var doneTop: set<string> := {};
    while todo != {}
      invariant todo <= zm.Keys && done == zm.Keys - todo
      invariant forall c :: c in doneTop <==> c in done && IsTopLevel(c)
      invariant tldCount <= zoneCount
      invariant disjoint ==> zoneCount == |ZonesUnder(zm, done)| && tldCount == |ZonesUnder(zm, doneTop)|
      decreases todo
    {
      var c :| c in todo;
      if disjoint {
        BucketCountStep(zm, done, c);
      }
      zoneCount := zoneCount + |zm[c]|;
      if IsTopLevel(c) {
        if disjoint {
          BucketCountStep(zm, doneTop, c);
        }
        tldCount := tldCount + |zm[c]|;
        doneTop := doneTop + {c};
      }
      done := done + {c};
      todo := todo - {c};
    }
    assert done == zm.Keys;
    assert doneTop == TopLevelKeys(zm);
  }

  /** The row make_asop_table builds for one asInfo. */
  method AsopRow(asObj: AsInfo) returns (row: AsRow)
    ensures BucketsDisjoint(asObj.zones) ==> row == RowOf(Val(asObj))
    ensures row.total == row.hasRoa + row.hasNoRoa && row.tldCount <= row.zoneCount
  {
    var hasRoa := |asObj.prefixesWithRoa|;
    var hasNoRoa := |asObj.prefixesWithoutRoa|;
    var total := hasRoa + hasNoRoa;
    var pct := if total == 0 then NotANumber else Share(hasRoa, total);
    var zoneCount, tldCount := CountZones(asObj.zones);
    row := AsRow(hasRoa, hasNoRoa, total, pct, zoneCount, tldCount, |asObj.addresses|, asObj.autnumOperator);
  }

  /** make_asop_table: one row per AS number of buildautnumdict's result. */
  method MakeAsopTable(g: Snapshot, addrOrder: seq<AddressId>) returns (rows: map<nat, AsRow>)
    requires Closed(g) && Enumerates(addrOrder, g.addresses.Keys)
    ensures rows.Keys == Tabulate(g, Sightings(g, addrOrder)).Keys
    ensures forall n :: n in rows ==> rows[n] == RowOf(Tabulate(g, Sightings(g, addrOrder))[n])
  {
    var autnums := BuildAutnumDict(g, addrOrder);
    ghost var t := Tabulate(g, Sightings(g, addrOrder));
    TabulateDisjoint(g, Sightings(g, addrOrder));
    forall n | n in autnums
      ensures autnums[n].autnum == n && BucketsDisjoint(autnums[n].zones)
    {
      assert Val(autnums[n]) == t[n];
    }
    rows := AsopRows(autnums);
  }

  /** make_asop_table's loop over the AS numbers: the row of each asInfo,
      keyed by its own AS number. */
  method AsopRows(autnums: map<nat, AsInfo>) returns (rows: map<nat, AsRow>)
    requires forall n :: n in autnums ==> autnums[n].autnum == n && BucketsDisjoint(autnums[n].zones)
    ensures rows.Keys == autnums.Keys
    ensures forall n :: n in rows ==> rows[n] == RowOf(Vals(autnums)[n])
  {
    ghost var t := Vals(autnums);
    rows := map[];
    var todo := autnums.Keys;
    while todo != {}
      invariant todo <= autnums.Keys && rows.Keys == autnums.Keys - todo
      invariant forall n :: n in rows ==> rows[n] == RowOf(t[n])
      decreases todo
    {
      var n :| n in todo;
      var asObj := autnums[n];
      assert Val(asObj) == t[n];
      var row := AsopRow(asObj);
      rows := rows[asObj.autnum := row];
      todo := todo - {n};
    }
  }

  /** An entry consistent with the census files each zone under its own category only. */
  lemma ConsistentDisjoint(g: Snapshot, v: AsVal)
    requires Closed(g) && Consistent(g, v)
    ensures BucketsDisjoint(v.zones)
  {
    forall c, d, z | c in v.zones && d in v.zones && z in v.zones[c] && z in v.zones[d]
      ensures c == d
    {
      assert Filed(v.zones, c, z) && Filed(v.zones, d, z);
    }
  }

  /** Every entry of the table is its own AS number's and files each zone under one category only. */
  lemma TabulateDisjoint(g: Snapshot, ps: seq<Sighting>)
    requires Closed(g) && forall p :: p in ps ==> p.0 in g.addresses
    ensures forall n :: n in Tabulate(g, ps) ==> Tabulate(g, ps)[n].autnum == n && BucketsDisjoint(Tabulate(g, ps)[n].zones)
  {
    TabulateConsistent(g, ps);
    forall n | n in Tabulate(g, ps)
      ensures BucketsDisjoint(Tabulate(g, ps)[n].zones)
    {
      ConsistentDisjoint(g, Tabulate(g, ps)[n]);
    }
  }

  /** The zones served by the nameservers `nss`. */
  ghost function ServedZones(g: Snapshot, nss: set<NameserverId>): set<ZoneId>
  {
    set ns, z | ns in nss && ns in g.nameservers && z in g.nameservers[ns].usedByZones :: z
  }

  /** Every row of the AS table has a defined percentage (every AS entry was
      created for an origination, so it has at least one prefix), counts the
      distinct zones its nameservers serve, and no more top-level zones than
      zones. */
  lemma AsopRowFacts(g: Snapshot, addrOrder: seq<AddressId>, n: nat)
    requires Closed(g) && Enumerates(addrOrder, g.addresses.Keys)
    requires n in Tabulate(g, Sightings(g, addrOrder))
    ensures var v := Tabulate(g, Sightings(g, addrOrder))[n];
      && RowOf(v).pct.Share? && RowOf(v).pct.whole >= 1 && RowOf(v).pct.part <= RowOf(v).pct.whole
      && RowOf(v).zoneCount == |ServedZones(g, v.nameservers)|
      && RowOf(v).tldCount <= RowOf(v).zoneCount
      && RowOf(v).addressCount >= 1
  {
    var v := Tabulate(g, Sightings(g, addrOrder))[n];
    TabulateConsistent(g, Sightings(g, addrOrder));
    assert |v.withRoa + v.withoutRoa| <= |v.withRoa| + |v.withoutRoa|;
    var all := ZonesUnder(v.zones, v.zones.Keys);
    forall z | z in ServedZones(g, v.nameservers)
      ensures z in all
    {
      var ns :| ns in v.nameservers && ns in g.nameservers && z in g.nameservers[ns].usedByZones;
      assert Filed(v.zones, g.zones[z].category, z);
    }
    forall z | z in all
      ensures z in ServedZones(g, v.nameservers)
    {
      var c :| c in v.zones && z in v.zones[c];
      assert Filed(v.zones, c, z);
    }
    assert all == ServedZones(g, v.nameservers);
    SubsetSize(ZonesUnder(v.zones, TopLevelKeys(v.zones)), all);
  }
}
