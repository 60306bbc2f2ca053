/**
  The in-memory DNS Core Census snapshot that both the house clustering and the
  ROA coverage measurement walk: zones point at their authoritative nameservers,
  nameservers at their addresses, and addresses carry the route originations
  observed for them. Every collection is keyed by its identifier, as the census
  JSON dictionaries are.
 */
module Census {

  datatype Option<T> = None | Some(value: T)

  type ZoneId = string
  type NameserverId = string
  type AddressId = string

  /** The address family, which the census derives by parsing the address literal. */
  datatype Family = IPv4 | IPv6

  /** One observed announcement of a prefix, with the originating AS (possibly unknown). */
  datatype Origination = Origination(
    prefix: string,
    autnum: Option<nat>,
    autnumName: string,
    hasRoa: bool)

  datatype Zone = Zone(
    category: string,
    status: string,
    rnameField: string,
    techField: string,
    authNameservers: seq<NameserverId>)

  datatype Nameserver = Nameserver(
    authAddresses: seq<AddressId>,
    usedByZones: seq<ZoneId>)

  datatype Address = Address(
    family: Family,
    originations: seq<Origination>,
    usedInAuthSet: seq<NameserverId>)

  datatype Snapshot = Snapshot(
    zones: map<ZoneId, Zone>,
    nameservers: map<NameserverId, Nameserver>,
    addresses: map<AddressId, Address>)

  /** Every identifier a record refers to is a key of the collection it names. */
  ghost predicate Closed(g: Snapshot)
  {
    && (forall z, ns :: z in g.zones && ns in g.zones[z].authNameservers ==> ns in g.nameservers)
    && (forall ns, a :: ns in g.nameservers && a in g.nameservers[ns].authAddresses ==> a in g.addresses)
    && (forall ns, z :: ns in g.nameservers && z in g.nameservers[ns].usedByZones ==> z in g.zones)
    && (forall a, ns :: a in g.addresses && ns in g.addresses[a].usedInAuthSet ==> ns in g.nameservers)
  }

  /** No identifier occurs twice in `s`. */
  ghost predicate Distinct<T>(s: seq<T>)
  {
    forall i, j :: 0 <= i < j < |s| ==> s[i] != s[j]
  }

  /** `order` enumerates the keys of a dictionary, each exactly once (its iteration order). */
  ghost predicate Enumerates(order: seq<string>, keys: set<string>)
  {
    Distinct(order) && (forall x :: x in order <==> x in keys)
  }

  /** The categories counted as top-level zones. */
  predicate IsTopLevel(category: string)
  {
    category in ["ccTLD", "gTLD", "revMap"]
  }

  /** A subset is no larger than its superset. */
  lemma SubsetSize<T>(a: set<T>, b: set<T>)
    requires a <= b
    ensures |a| <= |b|
    decreases b
  {
    if a != {} {
      var x :| x in a;
      SubsetSize(a - {x}, b - {x});
    }
  }

  /** `m'` is `m` with the entry for `k` created empty on first use and grown by `vs`. */
  ghost predicate Inserted<K, V>(m: map<K, set<V>>, m': map<K, set<V>>, k: K, vs: set<V>)
  {
    && m'.Keys == m.Keys + {k}
    && m'[k] == (if k in m then m[k] else {}) + vs
    && forall x :: x in m && x != k ==> m'[x] == m[x]
  }

  /** `m.setdefault(k, set()).update(vs)`, as a value. */
  function Insert<K, V>(m: map<K, set<V>>, k: K, vs: set<V>): (m': map<K, set<V>>)
    ensures Inserted(m, m', k, vs)
  {
    var m1 := if k in m then m else m[k := {}];
    m1[k := m1[k] + vs]
  }

  // ---------------------------------------------------------------------------
  // Zones bucketed by category (a house's zonesbycat, an AS's zones)
  // ---------------------------------------------------------------------------

  /** The zones filed in `zm` under any of the categories `cats`. */
  ghost function ZonesUnder(zm: map<string, set<ZoneId>>, cats: set<string>): set<ZoneId>
  {
    set c, z | c in cats && c in zm && z in zm[c] :: z
  }

  /** The categories of `zm` that are top-level. */
  function TopLevelKeys(zm: map<string, set<ZoneId>>): (cats: set<string>)
    ensures forall c :: c in cats <==> c in zm && IsTopLevel(c)
  {
    set c | c in zm && IsTopLevel(c)
  }

  /** No zone is filed under two categories. */
  ghost predicate BucketsDisjoint(zm: map<string, set<ZoneId>>)
  {
    forall c, d, z :: c in zm && d in zm && z in zm[c] && z in zm[d] ==> c == d
  }

  /** Adding one category adds its bucket. */
  lemma ZonesUnderStep(zm: map<string, set<ZoneId>>, cats: set<string>, c: string)
    ensures ZonesUnder(zm, cats + {c}) == ZonesUnder(zm, cats) + (if c in zm then zm[c] else {})
  {
    var lhs, rhs := ZonesUnder(zm, cats + {c}), ZonesUnder(zm, cats) + (if c in zm then zm[c] else {});
    forall z | z in rhs
      ensures z in lhs
    {
      if z !in ZonesUnder(zm, cats) {
        assert c in zm && z in zm[c];
      }
    }
  }

  /** With disjoint buckets, a category not yet counted brings only new zones. */
  lemma FreshBucket(zm: map<string, set<ZoneId>>, cats: set<string>, c: string)
    requires BucketsDisjoint(zm) && c in zm && c !in cats
    ensures zm[c] * ZonesUnder(zm, cats) == {}
  {
  }

  /** With disjoint buckets, counting one more category adds its bucket's size. */
  lemma BucketCountStep(zm: map<string, set<ZoneId>>, done: set<string>, c: string)
    requires BucketsDisjoint(zm) && c !in done
    ensures |ZonesUnder(zm, done + {c})| == |ZonesUnder(zm, done)| + (if c in zm then |zm[c]| else 0)
  {
    ZonesUnderStep(zm, done, c);
    if c in zm {
      FreshBucket(zm, done, c);
    }
  }

  /** Only the categories present in `zm` matter. */
  lemma ZonesUnderKeys(zm: map<string, set<ZoneId>>, cats: set<string>, cats': set<string>)
    requires cats * zm.Keys == cats' * zm.Keys
    ensures ZonesUnder(zm, cats) == ZonesUnder(zm, cats')
  {
    forall z | z in ZonesUnder(zm, cats)
      ensures z in ZonesUnder(zm, cats')
    {
      var c :| c in cats && c in zm && z in zm[c];
      assert c in cats * zm.Keys;
    }
    forall z | z in ZonesUnder(zm, cats')
      ensures z in ZonesUnder(zm, cats)
    {
      var c :| c in cats' && c in zm && z in zm[c];
      assert c in cats' * zm.Keys;
    }
  }

  /** A percentage cell of the operator tables: 'NaN' when nothing was
      counted, otherwise the exact ratio `100 * part / whole`. */
  datatype Share = NotANumber | Share(part: nat, whole: nat)

  function ShareOf(part: nat, whole: nat): (r: Share)
    ensures r.NotANumber? <==> whole == 0
    ensures r.Share? ==> r.part == part && r.whole == whole
  {
    if whole == 0 then NotANumber else Share(part, whole)
  }
}
