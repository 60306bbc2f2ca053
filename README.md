# DNS Core Census: operator houses and ROA coverage, in Dafny

This project models the analysis core of the DNS Core Census ROA measurement
(`zonestohouses.py` and `measureroadeployment.py`). The census is a graph:
zones point at their authoritative nameservers, nameservers at their
addresses, and each address carries the route originations seen for it (a
prefix, the originating AS number when known, the AS's name, and whether a
ROA covers the route). The model covers two computations over that graph.

- **Houses** (`zonestohouses.dfy`, module `ZonesToHouses`).
  - Each zone gets a fingerprint: its lower-cased SOA RNAME and its
    normalised IANA technical-operator name.
  - Zones outside the clusterable categories, inactive zones and zones
    without an RNAME are filtered out.
  - A "bridge" zone is the only zone on its (rname, operator) arc while both
    ends have other partners. Each bridge is re-coloured to another operator
    of its RNAME.
  - The zones are then filed, in zone order, into the first house whose
    title shares a token with them, or into a new house. `DNShouse` is a
    class whose title and category buckets the methods update in place.
- **ROA coverage** (`roacoverage.dfy`, `asaggregation.dfy`,
  `housetable.dfy`).
  - `roacoverage` walks zone → nameserver → address → origination under
    four optional filters. It counts distinct route origins with and without
    a ROA, the zones, top-level zones, nameservers and addresses reached, and
    each zone's coverage percentage.
  - `buildautnumdict` re-keys the graph by AS number into `asInfo` objects.
  - `make_asop_table` and `make_dnsop_table` derive the per-AS and per-house
    rows.

`census.dfy` (module `Census`) holds the shared snapshot types and the
by-category bucket vocabulary.

Every loop of the source is a Dafny method proved against a specification.
- Loops over a sequence are proved against a recursive function that folds
  over the same sequence: the zone walk of `roacoverage` (`Coverage`), the
  address loop of `buildautnumdict` (`Tabulate`), the clustering loop
  (`Cluster`), the zone order kept by the filter loop of `buildhouses`
  (`IncludedOrder`) and the house loop of `make_dnsop_table` (`RowsOf`).
  The colours that filter loop collects are a map comprehension over the
  zones visited so far (`Fingerprints`).
- Loops over a set or a dictionary's keys are proved against a closed form:
  a set comprehension (`HouseTable.HouseZones`, `AsAggregation.CountZones`),
  the specification row of each key (`AsAggregation.AsopRows`), or a
  relation between the old and new colours
  (`ZonesToHouses.RecolourBridges`).
- The two nested loops of `get_DNShouse` are one method, proved against
  `Place` and `FirstMatch`.

Separate lemmas then prove what those functions mean: closed forms as set
comprehensions over the census, invariants, bounds and monotonicity. The
census dictionaries are an explicit `Snapshot` parameter. Dictionary
iteration order is a sequence that enumerates the keys (`Enumerates`).

Three behaviours of the code are worth knowing:
- The RNAME half of the fingerprint is only lower-cased
  (zonestohouses.py:126), while the operator name is normalised.
- The yes and no sets are independent, so a route origin seen with both ROA
  flags lands in both (`RoaCoverage.YesNoOverlap`). The two sets are
  disjoint, and their sizes add up to the number of distinct route origins,
  only when each route origin carries one flag throughout the census
  (`RoaCoverage.YesNoPartition`).
- The category filter is a substring test, so a fragment of an excluded
  category such as "TLD" is excluded too (`ZonesToHouses.CategoriesLeftOut`).

## Model

| member | source | states |
|---|---|---|
| ZonesToHouses.Normalize | zonestohouses.py:39-40 | the normalised name has no `-`, no `,`, no lower-case ASCII letter, and is never longer than the input |
| ZonesToHouses.NormalizeNotIdempotent | zonestohouses.py:39-40 | normalising twice differs from normalising once: `"a , b"` becomes `"A  B"`, then `"A B"` |
| ZonesToHouses.CategoriesLeftOut | zonestohouses.py:119-121 | the substring test on the category excludes arpa and tTLD, and also the mere fragment "TLD" |
| ZonesToHouses.CategoriesKept | zonestohouses.py:119-121 | every category clustering keeps passes the substring test: ccTLD, gTLD and revMap, and their sub-ccTLD, sub-gTLD and sub-revMap forms |
| ZonesToHouses.Fingerprint | zonestohouses.py:126-127 | a zone's colour keeps its category. Its rname has the RNAME field's length, agrees with it letter for letter up to case, and holds no upper-case ASCII letter. Its itc holds no `-`, no `,` and no lower-case ASCII letter |
| ZonesToHouses.House.constructor | zonestohouses.py:77-84 | a new house's title is exactly the given names, and it has no category buckets |
| ZonesToHouses.FirstMatch | zonestohouses.py:55-61 | the index found is the first house whose title shares a name, or the list length when none does |
| ZonesToHouses.Place | zonestohouses.py:53-67 | first match wins. Without a match, a house titled exactly by the names is appended, and none of its names is in an earlier title. The chosen house's title gains every name and its zones are untouched. Every other house is unchanged |
| ZonesToHouses.GetDnsHouse | zonestohouses.py:53-67 | the in-place operation on the list of house objects matches `Place`. The returned object sits at the chosen index. Existing houses keep their places. At most one fresh house is appended |
| ZonesToHouses.Names | zonestohouses.py:171-174 | the names a zone is filed under are its rname, plus its itc unless the itc is UNSET |
| ZonesToHouses.AddZone | zonestohouses.py:176-178 | filing adds exactly the zone to the bucket of its category: buckets are created on first use and the title is unchanged |
| ZonesToHouses.StepShape | zonestohouses.py:170-178 | one clustering step adds at most one house, only grows titles, puts the zone's names in the chosen house's title, and adds only that zone to that house |
| ZonesToHouses.StepKeepsInv | zonestohouses.py:170-178 | one clustering step preserves four invariants. Sound: every filed zone sits in the bucket of its category and in a house whose title holds its names. Unique: no zone is in two houses. Complete: every visited zone is filed. Populated: houses are non-empty, titled, and no more numerous than zones |
| ZonesToHouses.ClusterCorrect | zonestohouses.py:170-180 | after all included zones, the houses are sound, unique, complete and populated |
| ZonesToHouses.FileZone | zonestohouses.py:171-178 | filing one zone into the house objects matches one `Step` of the specification |
| ZonesToHouses.ClusterZones | zonestohouses.py:170-180 | the clustering loop's house objects match `Cluster` on the colour order, and are distinct objects |
| ZonesToHouses.Fingerprints | zonestohouses.py:116-152 | a zone gets a colour exactly when it is included by the filter. Every colour carries the zone's own category, which passes the category test, and an rname other than "rnamenotavailable" |
| ZonesToHouses.IncludedOrder | zonestohouses.py:116-130 | the zones kept, in zone order, are exactly the included ones |
| ZonesToHouses.IncludedOrderDistinct | zonestohouses.py:116-130 | filtering a list of distinct zone ids keeps them distinct |
| ZonesToHouses.CollectFingerprints | zonestohouses.py:116-152 | the filter loop produces the colours of the included zones, in zone order. It also produces itcbyrname, rnamebyitc and arcs, which index those colours exactly: rname → real itcs, itc → rnames, (rname, real itc) → zones |
| ZonesToHouses.VisitBridgeArc | zonestohouses.py:159-166 | re-colouring the single zone of a bridge arc to another real itc of its rname keeps the re-colouring loop's progress invariant |
| ZonesToHouses.VisitPlainArc | zonestohouses.py:159-160 | an arc that is not a bridge changes nothing |
| ZonesToHouses.RecolourBridges | zonestohouses.py:154-168 | every zone keeps its rname and category. A bridge zone gets a different itc, one its rname is really seen with. Every other zone keeps its itc |
| ZonesToHouses.BuildHouses | zonestohouses.py:104-180 | the houses are the clustering of the included zones under their (possibly re-coloured) colours. They satisfy the four clustering invariants and are distinct objects |
| ZonesToHouses.FiledIffIncluded | zonestohouses.py:116-178 | a zone appears in some house exactly when it passes the category, status and RNAME filter |
| Census.Insert | zonestohouses.py:132-147 | `setdefault(k, set()).update(vs)`: the key is added, its set grows by exactly `vs`, and other keys are unchanged |
| RoaCoverage.KeyIdentity | measureroadeployment.py:121 | two route originations are the same route origin exactly when their prefix and AS number agree. Their ROA flags and AS names play no part |
| RoaCoverage.OrigKeys | measureroadeployment.py:120-127 | the keys collected from an address's originations with a given ROA flag are exactly the keys of those originations |
| RoaCoverage.CountOriginations | measureroadeployment.py:120-127 | the origination loop adds exactly the ROA keys to the global and per-zone yes sets, and the non-ROA keys to the no sets |
| RoaCoverage.WalkAddrsReaches | measureroadeployment.py:109-127 | one nameserver's walk reaches exactly its addresses of an admitted family. The nameserver counts only if one is reached. The yes and no keys are those of the reached addresses |
| RoaCoverage.WalkNameserversReaches | measureroadeployment.py:107-130 | one zone's walk reaches exactly the admitted addresses of its nameservers, and the nameservers with at least one such address |
| RoaCoverage.VisitNameserver | measureroadeployment.py:107-129 | the nameserver loop body accumulates exactly that nameserver's walk into the tally and the zone's own sets |
| RoaCoverage.VisitZone | measureroadeployment.py:107-130 | the walk of a selected zone accumulates exactly that zone's reach into the tally |
| RoaCoverage.PctRange | measureroadeployment.py:132-133 | the percentage is the floor of 100·yes/(yes+no). It is at most 100, equals 100 exactly when the no set is empty, and is 0 exactly when 100·yes < yes+no |
| RoaCoverage.ZoneTallyReaches | measureroadeployment.py:96-137 | a zone contributes only if it passes the zone-id, category and raw RNAME filters. It then contributes its admitted addresses, the nameservers leading to them and their route-origin keys. It counts itself (and as a TLD if top-level) only when an address is reached |
| RoaCoverage.CoverageReaches | measureroadeployment.py:82-140 | the final sets are comprehensions over the census: the reached addresses, nameservers and zones; the top-level zones among them; and the yes/no keys of the reached addresses. So each is counted once however many paths reach it |
| RoaCoverage.TldsWithinZones | measureroadeployment.py:115-117 | the TLD set is a subset of the zone set, so the TLD count is at most the zone count |
| RoaCoverage.ZonePercentage | measureroadeployment.py:132-136 | a zone adds exactly one percentage, within 0..100, when its walk meets a route origin, and none otherwise. The same entry goes to the TLD list exactly when the zone is top-level |
| RoaCoverage.ZoneSeesOrigin | measureroadeployment.py:96-136 | a zone's walk meets a route origin exactly when the zone passes the zone-id, category and RNAME criteria and some admitted address of its nameservers carries a route origination |
| RoaCoverage.ZoneEntryCounted | measureroadeployment.py:115-134 | a zone that adds a percentage is also counted in the zone set |
| RoaCoverage.PercentagesInRange | measureroadeployment.py:132-136 | every entry of both percentage lists is within 0..100 |
| RoaCoverage.PercentagesCounted | measureroadeployment.py:91-136 | with each zone visited once, the zone list has exactly one entry per zone that passes the criteria and meets a route origin (`SeesOrigin`), and the TLD list one per such top-level zone. So TLD list length ≤ zone list length ≤ number of zones counted |
| RoaCoverage.ReachedMonotone | measureroadeployment.py:97-113 | relaxing any filter (to None or a superset) never shrinks the reached addresses, nameservers or zones |
| RoaCoverage.CoverageMonotone | measureroadeployment.py:97-127 | relaxing any filter never shrinks any of the six sets, nor any of the six returned counts |
| RoaCoverage.YesNoPartition | measureroadeployment.py:120-127 | when each route origin carries one ROA flag throughout the census, the yes and no sets partition the reached route origins and their counts add up |
| RoaCoverage.YesNoOverlap | measureroadeployment.py:120-127 | one prefix originated by one AS with both ROA flags is counted in both the yes and the no set |
| RoaCoverage.RoaCoverageCounts | measureroadeployment.py:80-140 | the nested loops return the six cardinalities and the two percentage lists of the specification tally over the zones in dictionary order |
| AsAggregation.AsInfo.constructor | measureroadeployment.py:530-539 | a new AS entry has its number, operator "Unset", and no prefixes, addresses, nameservers or zones |
| AsAggregation.FileZones | measureroadeployment.py:573-581 | the zone loop files each zone under its category, creating buckets on first use |
| AsAggregation.CreditOrigination | measureroadeployment.py:561-583 | crediting one origination sets the operator name, files the prefix by its ROA flag, and counts the address, its nameservers and their zones |
| AsAggregation.RecordOrigination | measureroadeployment.py:552-583 | an origination without an AS number changes nothing. Otherwise the AS's object is created on first sight and credited. Distinct AS numbers keep distinct objects |
| AsAggregation.RecordAddress | measureroadeployment.py:549-584 | the origination loop of one address matches the specification table over that address's sightings |
| AsAggregation.BuildAutnumDict | measureroadeployment.py:542-586 | the result, read through its objects, is the specification table over all sightings in address order. Its objects are fresh and one per AS number |
| AsAggregation.TabulateKeys | measureroadeployment.py:552-558 | an AS number is a key exactly when some sighting names it as origin |
| AsAggregation.TabulatePrefixes | measureroadeployment.py:564 | an AS's prefixes with (or without) a ROA are exactly the prefixes of its sightings with that flag |
| AsAggregation.TabulateAddresses | measureroadeployment.py:565 | an AS's addresses are exactly those where it originates a route |
| AsAggregation.TabulateOperator | measureroadeployment.py:561 | an AS's operator name is the one on the last sighting naming it |
| AsAggregation.CreditConsistent | measureroadeployment.py:561-583 | crediting keeps an entry consistent with the census: its nameservers are exactly those using its addresses, and its zones are exactly those they serve, each under its own category |
| AsAggregation.TabulateConsistent | measureroadeployment.py:547-586 | every entry is its own AS number's, is consistent with the census, and has at least one prefix and one address |
| AsAggregation.SightingsMembers | measureroadeployment.py:547-549 | the sightings are exactly the (address, origination) pairs of the census addresses visited |
| AsAggregation.AutnumDictContents | measureroadeployment.py:542-586 | in census terms: the keys are exactly the AS numbers originating a route at some address. Each AS's prefix sets and addresses are exactly those of its originations |
| AsAggregation.CountZones | measureroadeployment.py:613-619 | the category loop gives tldcount ≤ zonecount. When no zone sits in two buckets, the sums are the numbers of distinct zones and of distinct top-level zones |
| AsAggregation.AsopRow | measureroadeployment.py:601-621 | a row's total is HasROA + HasNoROA and its tldcount is at most its zonecount. With disjoint buckets the row is the specification row of the object |
| AsAggregation.AsopRows | measureroadeployment.py:601-623 | the loop over the AS numbers gives one row per key, each the specification row of that key's asInfo |
| AsAggregation.MakeAsopTable | measureroadeployment.py:589-623 | one row per AS number of the table, each the specification row of that AS's entry |
| AsAggregation.TabulateDisjoint | measureroadeployment.py:573-581 | each AS entry files every zone under one category only |
| AsAggregation.AsopRowFacts | measureroadeployment.py:604-620 | every AS row has a defined percentage (total ≥ 1, so the 'NaN' branch is unreachable), at least one address, and tldcount ≤ zonecount. Its zonecount is the number of distinct zones served by its nameservers |
| HouseTable.HouseZones | measureroadeployment.py:310-318 | the category loop collects exactly the house's zones, and exactly those in its ccTLD, gTLD and revMap buckets |
| HouseTable.MakeHouseRow | measureroadeployment.py:308-349 | a house's row is built from roacoverage restricted to the house's zones and from the house's own zone, TLD and bucket counts |
| HouseTable.ReportedCounts | measureroadeployment.py:358-360 | every row with a defined percentage is reported as many times as it occurs, and no other row is |
| HouseTable.ReportedAppend | measureroadeployment.py:304-360 | reporting keeps house order: the rows reported for two runs of houses are those of the first run followed by those of the second |
| HouseTable.AppendHouseRow | measureroadeployment.py:308-360 | one house-loop pass appends exactly that house's specification row, and keeps the reported rows equal to the rows with a defined percentage |
| HouseTable.MakeDnsopTable | measureroadeployment.py:302-363 | one row per house, in house order, each the specification row of that house, plus the reported rows |
| HouseTable.HouseRowFacts | measureroadeployment.py:322-349 | 'NaN' exactly when yes + no = 0, and tldcount ≤ zonecount. The coverage walk reaches only the house's own zones. With disjoint buckets, the ccTLD, gTLD and revMap counts add up to tldcount |
| HouseTable.ClusteredBucketsDisjoint | zonestohouses.py:176-178 | the clustering files each zone of a house under its own category only, so its per-category counts add up |

## Left out

- Network retrieval (`getobject`, `read_maps`), file output, the command-line handling and both `__main__` blocks are input/output. The census is an explicit `Snapshot` parameter, as are the zone and address orders.
- All matplotlib charting and the annotation picker are presentation only.
- String formatting of the tables, reverse sorting and the `nextline[8:]` slicing are left out. The AS rows are a map keyed by AS number. The house rows are a sequence in house order, instead of a dictionary keyed by `house_title`.
- `house_title` is left out: it is display text that depends on set iteration order.
- Float percentages in the two tables are kept as the exact pair (ROA count, total) (`Share`); the float division is not modelled.
- The per-zone percentage `int(100*y/(y+n))` is modelled as the integer floor of the exact quotient. The float quotient lies at least 1/(y+n) away from the next integer, so truncating it gives the same value for census-sized counts; IEEE rounding itself is not modelled.
- Address-family detection through `ipaddress.ip_network` is a foreign library; each address carries its family as data.
- ZonesToHouses.RecolourBridges: the `list(set)[0]`/`[1]` pick depends on Python's hash order. It is modelled as an arbitrary choice among the rname's other real itcs, so the contract states which itcs are possible, not which one is taken. The `try/except: pass` around the body only guards an index that cannot fail once the size tests pass.
- Set iteration order in the category loops of both tables is an arbitrary choice in the model; the counts do not depend on it.
- The `zonesbyrname` dictionary that `buildhouses` fills but never reads is not modelled.
- Upper- and lower-casing follow ASCII only; Python's full Unicode case mapping is not modelled.
- A route-origin key is the pair (prefix, AS number) rather than the string `prefix-autnum`. The two differ only if distinct pairs could print to the same string.
- AsAggregation.CountZones: the zone and TLD counts are stated as distinct-zone counts only when no zone sits in two category buckets. This holds for every entry `buildautnumdict` produces (`AsAggregation.TabulateDisjoint`).
- AsAggregation.AsopRow: the row matches the specification row only under disjoint buckets, for the same reason.
- Python's `KeyError` on an identifier missing from the census is excluded by requiring a closed snapshot (`Census.Closed`), where every referenced identifier is a key.
