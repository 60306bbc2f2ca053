/**
  The DNS operator ("house") table of measureroadeployment: for every house
  found by the clustering, its zones and top-level zones, the ROA coverage of
  the route origins its zones reach, and its per-category zone counts.
 */
module HouseTable {
  import opened Census
  import Z = ZonesToHouses
  import R = RoaCoverage

  /** One row of the house table. */
  datatype HouseRow = HouseRow(
    yes: nat,
    no: nat,
    zoneCount: nat,
    tldCount: nat,
    nsCount: nat,
    addrCount: nat,
    total: nat,
    pct: Share,
    ccTldCount: nat,
    gTldCount: nat,
    revMapCount: nat)

  /** The size of one bucket, 0 when the house has no zone of that category. */
  function BucketSize(zm: map<string, set<ZoneId>>, c: string): (n: nat)
    ensures c !in zm ==> n == 0
    ensures c in zm ==> n == |zm[c]|
  {
    if c in zm then |zm[c]| else 0
  }

  /** The roacoverage criteria that restrict the walk to a house's zones. */
  function HouseFilter(zonesInHouse: set<ZoneId>): R.Filters
  {
    R.Filters(None, None, Some(zonesInHouse), None)
  }

  /** The row of house `h`: coverage counts of the walk from its zones, its
      own zone and top-level zone counts, and its ccTLD, gTLD and revMap
      bucket sizes. */
  ghost function RowOf(g: Snapshot, order: seq<ZoneId>, h: Z.HouseVal): HouseRow
    requires forall z :: z in order ==> z in g.zones
  {
    var zm := h.zonesByCat;
    var t := R.Coverage(g, HouseFilter(Z.Members(h)), order);
    Row(|t.yes|, |t.no|, |Z.Members(h)|, |ZonesUnder(zm, TopLevelKeys(zm))|, |t.nameservers|, |t.addresses|, zm)
  }

  /** The row assembled from the coverage counts and the house's own counts:
      the total of route origins, a percentage only when there is one, and
      the ccTLD, gTLD and revMap bucket sizes. */
  function Row(yes: nat, no: nat, zoneCount: nat, tldCount: nat, nsCount: nat, addrCount: nat,
               zm: map<string, set<ZoneId>>): (row: HouseRow)
    ensures row.total == yes + no && (row.pct.NotANumber? <==> yes + no == 0)
  {
    var total := yes + no;
    HouseRow(yes, no, zoneCount, tldCount, nsCount, addrCount, total, ShareOf(yes, total),
             BucketSize(zm, "ccTLD"), BucketSize(zm, "gTLD"), BucketSize(zm, "revMap"))
  }

  /** make_dnsop_table's category loop: all zones of a house, and those in its
      top-level buckets. */
  method HouseZones(h: Z.House) returns (zonesInHouse: set<ZoneId>, tldsInHouse: set<ZoneId>)
    ensures zonesInHouse == Z.Members(Z.HouseVal(h.title, h.zonesByCat))
    ensures tldsInHouse == ZonesUnder(h.zonesByCat, TopLevelKeys(h.zonesByCat))
  {
    var zm := h.zonesByCat;
    zonesInHouse, tldsInHouse := {}, {};
    var todo := zm.Keys;
    ghost var done: set<string> := {};
    ghost var doneTop: set<string> := {};
    while todo != {}
      invariant todo <= zm.Keys && done == zm.Keys - todo
      invariant forall c :: c in doneTop <==> c in done && IsTopLevel(c)
      invariant zonesInHouse == ZonesUnder(zm, done) && tldsInHouse == ZonesUnder(zm, doneTop)
      decreases todo
    {
      var cat :| cat in todo;
      ZonesUnderStep(zm, done, cat);
      zonesInHouse := zonesInHouse + zm[cat];
      if IsTopLevel(cat) {
        ZonesUnderStep(zm, doneTop, cat);
        tldsInHouse := tldsInHouse + zm[cat];
        doneTop := doneTop + {cat};
      }
      done := done + {cat};
      todo := todo - {cat};
    }
    assert done == zm.Keys;
    assert doneTop == TopLevelKeys(zm);
  }

  /** The row make_dnsop_table builds for one house. */
  method MakeHouseRow(g: Snapshot, order: seq<ZoneId>, h: Z.House) returns (row: HouseRow)
    requires Closed(g) && Enumerates(order, g.zones.Keys)
    ensures row == RowOf(g, order, Z.HouseVal(h.title, h.zonesByCat))
  {
    var zonesInHouse, tldsInHouse := HouseZones(h);
    var yes, no, coveredZones, coveredTlds, nsCount, addrCount, pctZone, pctTld :=
      R.RoaCoverageCounts(g, order, HouseFilter(zonesInHouse));
    row := Row(yes, no, |zonesInHouse|, |tldsInHouse|, nsCount, addrCount, h.zonesByCat);
  }

  /** The rows that make it into the printed tables: those with a defined
      percentage, in house order. */
  function Reported(rows: seq<HouseRow>): (r: seq<HouseRow>)
    ensures forall x :: x in r <==> x in rows && x.pct.Share?
    ensures |r| <= |rows|
  {
    if rows == [] then []
    else
      var last := rows[|rows| - 1];
      Reported(rows[..|rows| - 1]) + (if last.pct.Share? then [last] else [])
  }

  /** Reporting drops no duplicate: every row with a percentage is reported
      as many times as it occurs, and no other row is. */
  lemma {:induction false} ReportedCounts(rows: seq<HouseRow>)
    ensures forall x :: multiset(Reported(rows))[x] == if x.pct.Share? then multiset(rows)[x] else 0
  {
    if rows != [] {
      var init, last := rows[..|rows| - 1], rows[|rows| - 1];
      assert rows == init + [last];
      ReportedCounts(init);
    }
  }

  /** Reporting keeps house order: the rows reported for two runs of houses
      are those of the first run followed by those of the second. */
  lemma {:induction false} ReportedAppend(rows: seq<HouseRow>, more: seq<HouseRow>)
    ensures Reported(rows + more) == Reported(rows) + Reported(more)
    decreases |more|
  {
    if more != [] {
      var init, last := more[..|more| - 1], more[|more| - 1];
      assert rows + more == (rows + init) + [last];
      assert (rows + more)[..|rows + more| - 1] == rows + init;
      ReportedAppend(rows, init);
    } else {
      assert rows + more == rows;
    }
  }

  /** The rows of the houses `vs`, in order. */
  ghost function RowsOf(g: Snapshot, order: seq<ZoneId>, vs: seq<Z.HouseVal>): (rows: seq<HouseRow>)
    requires forall z :: z in order ==> z in g.zones
    ensures |rows| == |vs|
  {
    if vs == [] then [] else RowsOf(g, order, vs[..|vs| - 1]) + [RowOf(g, order, vs[|vs| - 1])]
  }

  /** Row `k` of the table is the row of house `k`. */
  lemma {:induction false} RowsOfAt(g: Snapshot, order: seq<ZoneId>, vs: seq<Z.HouseVal>, k: nat)
    requires forall z :: z in order ==> z in g.zones
    requires k < |vs|
    ensures RowsOf(g, order, vs)[k] == RowOf(g, order, vs[k])
  {
    if k < |vs| - 1 {
      RowsOfAt(g, order, vs[..|vs| - 1], k);
    }
  }

  /** One iteration of make_dnsop_table's house loop: the house's row is
      appended, and entered in the reported rows when it has a percentage. */
  method AppendHouseRow(g: Snapshot, order: seq<ZoneId>, h: Z.House, rows: seq<HouseRow>, reported: seq<HouseRow>)
    returns (rows': seq<HouseRow>, reported': seq<HouseRow>)
    requires Closed(g) && Enumerates(order, g.zones.Keys)
    requires reported == Reported(rows)
    ensures rows' == rows + [RowOf(g, order, Z.HouseVal(h.title, h.zonesByCat))]
    ensures reported' == Reported(rows')
  {
    var row := MakeHouseRow(g, order, h);
    rows' := rows + [row];
    assert rows'[..|rows|] == rows;
    reported' := if row.pct.Share? then reported + [row] else reported;
  }

  /** make_dnsop_table: one row per house, in the houses' order, and the rows
      reported in the tables. */
  method MakeDnsopTable(g: Snapshot, order: seq<ZoneId>, houses: seq<Z.House>)
    returns (rows: seq<HouseRow>, reported: seq<HouseRow>)
    requires Closed(g) && Enumerates(order, g.zones.Keys)
    ensures |rows| == |houses|
    ensures forall i :: 0 <= i < |houses| ==> rows[i] == RowOf(g, order, Z.Vals(houses)[i])
    ensures reported == Reported(rows)
  {
    rows, reported := [], [];
    ghost var vs := Z.Vals(houses);
    for i := 0 to |houses|
      invariant rows == RowsOf(g, order, vs[..i])
      invariant reported == Reported(rows)
    {
      rows, reported := AppendHouseRow(g, order, houses[i], rows, reported);
      assert vs[..i + 1][..i] == vs[..i];
    }
    assert vs[..|houses|] == vs;
    forall k | 0 <= k < |houses|
      ensures rows[k] == RowOf(g, order, vs[k])
    {
      RowsOfAt(g, order, vs, k);
    }
  }

  // ---------------------------------------------------------------------------
  // What a row says
  // ---------------------------------------------------------------------------

  /** A house row's percentage is defined exactly when a route origin was
      seen; its top-level zones are among its zones; the coverage walk only
      reaches the house's own zones; and when no zone sits in two buckets the
      ccTLD, gTLD and revMap counts add up to the top-level count. */
  lemma HouseRowFacts(g: Snapshot, order: seq<ZoneId>, h: Z.HouseVal)
    requires Closed(g) && Enumerates(order, g.zones.Keys)
    ensures var row := RowOf(g, order, h);
      && (row.pct.NotANumber? <==> row.yes + row.no == 0)
      && row.tldCount <= row.zoneCount
      && R.Coverage(g, HouseFilter(Z.Members(h)), order).zones <= Z.Members(h)
      && (BucketsDisjoint(h.zonesByCat) ==> row.ccTldCount + row.gTldCount + row.revMapCount == row.tldCount)
  {
    var zm := h.zonesByCat;
    var f := HouseFilter(Z.Members(h));
    R.CoverageReaches(g, f, order);
    SubsetSize(ZonesUnder(zm, TopLevelKeys(zm)), Z.Members(h));
    if BucketsDisjoint(zm) {
      TopLevelSplit(zm);
    }
  }

  /** With disjoint buckets, the top-level zones are the ccTLD, gTLD and
      revMap buckets side by side. */
  lemma TopLevelSplit(zm: map<string, set<ZoneId>>)
    requires BucketsDisjoint(zm)
    ensures BucketSize(zm, "ccTLD") + BucketSize(zm, "gTLD") + BucketSize(zm, "revMap")
         == |ZonesUnder(zm, TopLevelKeys(zm))|
  {
    var s1: set<string> := {"ccTLD"};
    var s2 := s1 + {"gTLD"};
    var s3 := s2 + {"revMap"};
    assert ZonesUnder(zm, {}) == {};
    assert s1 == {} + {"ccTLD"};
    BucketCountStep(zm, {}, "ccTLD");
    BucketCountStep(zm, s1, "gTLD");
    BucketCountStep(zm, s2, "revMap");
    ZonesUnderKeys(zm, s3, TopLevelKeys(zm));
  }

  /** The houses of the clustering file each zone under its own category
      only, so their per-category counts add up. */
  lemma ClusteredBucketsDisjoint(vs: seq<Z.HouseVal>, order: seq<ZoneId>, colors: map<ZoneId, Z.Color>, i: nat)
    requires forall z :: z in order ==> z in colors
    requires Z.ClusterInv(vs, order, colors) && i < |vs|
    ensures BucketsDisjoint(vs[i].zonesByCat)
  {
    forall c, d, z | c in vs[i].zonesByCat && d in vs[i].zonesByCat && z in vs[i].zonesByCat[c] && z in vs[i].zonesByCat[d]
      ensures c == d
    {
      assert c == colors[z].cat;
    }
  }
}
