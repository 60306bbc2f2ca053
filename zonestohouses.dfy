/**
  Clustering of DNS Core zones into operator "houses" (zonestohouses.py).

  A zone's fingerprint is the pair (lower-cased SOA RNAME, normalised IANA
  technical-contact name). Zones that share a token end up in the same house,
  greedily and in zone order; a "bridge" zone that is the only link between two
  otherwise separate groups is first re-coloured to another operator token of
  its RNAME.
 */
module ZonesToHouses {
  import opened Census

  /** The technical-operator value that stands for "no operator recorded". */
  const Unset: string := "UNSET"

  /** The categories that are never clustered, written as ONE string: the source
      tests a zone's category for being a substring of it. */
  const OtherCategories: string := "arpa, enum, IETFSpecialUse, sub-enum, tTLD"

  // ---------------------------------------------------------------------------
  // Token normalisation (ASCII model of str.upper / str.lower)
  // ---------------------------------------------------------------------------

  function UpperChar(c: char): char
  {
    if 'a' <= c <= 'z' then (c as int - 32) as char else c
  }

  function LowerChar(c: char): char
  {
    if 'A' <= c <= 'Z' then (c as int + 32) as char else c
  }

  function ToUpper(s: string): (r: string)
    ensures |r| == |s| && forall i :: 0 <= i < |s| ==> r[i] == UpperChar(s[i])
  {
    seq(|s|, i requires 0 <= i < |s| => UpperChar(s[i]))
  }

  function ToLower(s: string): (r: string)
    ensures |r| == |s| && forall i :: 0 <= i < |s| ==> r[i] == LowerChar(s[i])
  {
    seq(|s|, i requires 0 <= i < |s| => LowerChar(s[i]))
  }

  /** `s.replace(x, '')` for a one-character `x`. */
  function RemoveAll(s: string, x: char): (r: string)
    ensures x !in r && |r| <= |s|
  {
    if s == [] then []
    else (if s[0] == x then [] else [s[0]]) + RemoveAll(s[1..], x)
  }

  lemma {:induction false} RemoveAllChars(s: string, x: char)
    ensures forall c :: c in RemoveAll(s, x) ==> c in s
  {
    if s != [] {
      RemoveAllChars(s[1..], x);
    }
  }

  /** `s.replace('  ', ' ')`: occurrences of two spaces, found left to right
      without overlap, each become one space. */
  function CollapseSpaces(s: string): (r: string)
    ensures |r| <= |s|
  {
    if |s| >= 2 && s[0] == ' ' && s[1] == ' ' then " " + CollapseSpaces(s[2..])
    else if s == [] then []
    else [s[0]] + CollapseSpaces(s[1..])
  }

  lemma {:induction false} CollapseSpacesChars(s: string)
    ensures forall c :: c in CollapseSpaces(s) ==> c in s
  {
    if |s| >= 2 && s[0] == ' ' && s[1] == ' ' {
      CollapseSpacesChars(s[2..]);
    } else if s != [] {
      CollapseSpacesChars(s[1..]);
    }
  }

  /** Canonical form of an IANA technical-operator name: hyphens dropped, double
      spaces collapsed once, commas dropped, then upper-cased. */
  function Normalize(s: string): (r: string)
    ensures '-' !in r && ',' !in r
    ensures forall i :: 0 <= i < |r| ==> !('a' <= r[i] <= 'z')
    ensures |r| <= |s|
  {
    var u := CollapseSpaces(RemoveAll(s, '-'));
    CollapseSpacesChars(RemoveAll(s, '-'));
    var t := RemoveAll(u, ',');
    RemoveAllChars(u, ',');
    var r := ToUpper(t);
    assert forall i :: 0 <= i < |r| ==> r[i] == '-' || r[i] == ',' ==> r[i] == t[i];
    r
  }

  /** Normalisation is not idempotent: one pass can create the double space that
      the next pass collapses. */
  lemma NormalizeNotIdempotent()
    ensures Normalize("a , b") == "A  B"
    ensures Normalize(Normalize("a , b")) == "A B"
  {
    FirstPass();
    SecondPass();
  }

  lemma FirstPass()
    ensures Normalize("a , b") == "A  B"
  {
    assert RemoveAll("a , b", '-') == "a , b";
    assert CollapseSpaces("a , b") == "a , b";
    assert RemoveAll("a , b", ',') == "a  b";
    assert ToUpper("a  b") == "A  B";
  }

  lemma SecondPass()
    ensures Normalize("A  B") == "A B"
  {
    assert RemoveAll("A  B", '-') == "A  B";
    assert CollapseSpaces("A  B") == "A B";
    assert RemoveAll("A B", ',') == "A B";
    assert ToUpper("A B") == "A B";
  }

  /** `needle in hay` on Python strings: a substring test. */
  predicate OccursIn(needle: string, hay: string)
    decreases |hay|
  {
    needle <= hay || (hay != [] && OccursIn(needle, hay[1..]))
  }

  /** A needle holding a character the haystack lacks does not occur in it. */
  lemma {:induction false} MissingChar(needle: string, hay: string, c: char)
    requires c in needle && c !in hay
    ensures !OccursIn(needle, hay)
    decreases |hay|
  {
    if hay != [] {
      assert c !in hay[1..];
      MissingChar(needle, hay[1..], c);
    }
  }

  /** What the substring test of the category filter leaves out: the listed
      categories, and also a mere fragment of them such as "TLD". */
  lemma CategoriesLeftOut()
    ensures OccursIn("arpa", OtherCategories) && OccursIn("tTLD", OtherCategories)
    ensures OccursIn("TLD", OtherCategories)
  {
    assert OtherCategories[38..] == "tTLD";
    assert OtherCategories[39..] == "TLD";
    OccursInSuffix("tTLD", OtherCategories, 38);
    OccursInSuffix("TLD", OtherCategories, 39);
  }

  /** Every category that clustering keeps passes the category filter: the
      top-level ccTLD, gTLD and revMap categories and their sub- forms. */
  lemma CategoriesKept()
    ensures !OccursIn("ccTLD", OtherCategories) && !OccursIn("sub-ccTLD", OtherCategories)
    ensures !OccursIn("gTLD", OtherCategories) && !OccursIn("sub-gTLD", OtherCategories)
    ensures !OccursIn("revMap", OtherCategories) && !OccursIn("sub-revMap", OtherCategories)
  {
    NoGNoV(OtherCategories);
    SingleC(OtherCategories);
    SingleCParts();
    KeptBy(OtherCategories, "arpa, enum, IETFSpe", "ialUse, sub-enum, tTLD");
  }

  /** The kept categories are absent from any haystack without a `g` or a
      `v` and with a single `c`. */
  lemma KeptBy(hay: string, head: string, tail: string)
    requires 'g' !in hay && 'v' !in hay
    requires hay == head + ['c'] + tail && 'c' !in head && 'c' !in tail
    ensures !OccursIn("ccTLD", hay) && !OccursIn("sub-ccTLD", hay)
    ensures !OccursIn("gTLD", hay) && !OccursIn("sub-gTLD", hay)
    ensures !OccursIn("revMap", hay) && !OccursIn("sub-revMap", hay)
  {
    assert "gTLD"[0] == 'g' && "sub-gTLD"[4] == 'g' && "revMap"[2] == 'v' && "sub-revMap"[6] == 'v';
    MissingChar("gTLD", hay, 'g');
    MissingChar("sub-gTLD", hay, 'g');
    MissingChar("revMap", hay, 'v');
    MissingChar("sub-revMap", hay, 'v');
    NoDoubled("ccTLD", head, tail, 'c');
    if OccursIn("sub-ccTLD", hay) {
      assert "sub-ccTLD"[4..] == "ccTLD";
      SuffixOccurs("sub-ccTLD", hay, 4);
    }
  }

  lemma NoGNoV(hay: string)
    requires hay == OtherCategories
    ensures 'g' !in hay && 'v' !in hay
  {
  }

  lemma SingleC(hay: string)
    requires hay == OtherCategories
    ensures hay == "arpa, enum, IETFSpe" + ['c'] + "ialUse, sub-enum, tTLD"
  {
  }

  lemma SingleCParts()
    ensures 'c' !in "arpa, enum, IETFSpe" && 'c' !in "ialUse, sub-enum, tTLD"
  {
  }

  /** A needle starting with a doubled `c` does not occur in a haystack
      holding a single `c`. */
  lemma {:induction false} NoDoubled(needle: string, head: string, tail: string, c: char)
    requires |needle| >= 2 && needle[0] == c && needle[1] == c
    requires c !in head && c !in tail
    ensures !OccursIn(needle, head + [c] + tail)
    decreases |head|
  {
    var hay := head + [c] + tail;
    if head == [] {
      assert hay == [c] + tail && hay[1..] == tail;
      if tail != [] {
        assert tail[0] in tail;
      }
      assert !(needle <= hay);
      MissingChar(needle, tail, c);
    } else {
      assert head[0] in head;
      assert hay[1..] == head[1..] + [c] + tail;
      assert forall x :: x in head[1..] ==> x in head;
      NoDoubled(needle, head[1..], tail, c);
    }
  }

  /** Whatever occurs, so does each of its suffixes. */
  lemma {:induction false} SuffixOccurs(needle: string, hay: string, k: nat)
    requires k <= |needle| && OccursIn(needle, hay)
    ensures OccursIn(needle[k..], hay)
    decreases |hay|
  {
    if needle <= hay {
      assert needle[k..] <= hay[k..];
      OccursInSuffix(needle[k..], hay, k);
    } else {
      SuffixOccurs(needle, hay[1..], k);
    }
  }

  /** A needle found in a suffix occurs in the whole string. */
  lemma {:induction false} OccursInSuffix(needle: string, hay: string, k: nat)
    requires k <= |hay| && OccursIn(needle, hay[k..])
    ensures OccursIn(needle, hay)
    decreases k
  {
    if k > 0 {
      assert hay[1..][k - 1..] == hay[k..];
      OccursInSuffix(needle, hay[1..], k - 1);
    }
  }

  /** The filter of buildhouses: a zone takes part in clustering only if its
      category is not a substring of OtherCategories, it is ACTIVE, and its
      lower-cased RNAME field is not the "rnamenotavailable" sentinel. */
  predicate Included(z: Zone)
  {
    && !OccursIn(z.category, OtherCategories)
    && z.status == "ACTIVE"
    && ToLower(z.rnameField) != "rnamenotavailable"
  }

  /** The zone colour: (rname, effective itc, category). */
  datatype Color = Color(rname: string, itc: string, cat: string)

  /** The colour a zone gets before any bridge correction: its RNAME with
      every ASCII letter in lower case, its operator name normalised (so free
      of '-', ',' and lower-case letters), and its category. */
  function Fingerprint(z: Zone): (c: Color)
    ensures c.cat == z.category && c.itc == Normalize(z.techField)
    ensures |c.rname| == |z.rnameField| && forall i :: 0 <= i < |c.rname| ==> !('A' <= c.rname[i] <= 'Z')
    ensures forall i :: 0 <= i < |c.rname| ==> LowerChar(c.rname[i]) == LowerChar(z.rnameField[i])
    ensures '-' !in c.itc && ',' !in c.itc && forall i :: 0 <= i < |c.itc| ==> !('a' <= c.itc[i] <= 'z')
  {
    Color(ToLower(z.rnameField), Normalize(z.techField), z.category)
  }

  // ---------------------------------------------------------------------------
  // Houses
  // ---------------------------------------------------------------------------

  /** A DNS house: its title (the identity tokens merged into it so far) and
      its zones, bucketed by category. */
  class House {
    var title: set<string>
    var zonesByCat: map<string, set<ZoneId>>

    constructor (names: seq<string>)
      ensures title == (set n | n in names) && zonesByCat == map[]
    {
      var t: set<string> := {};
      for i := 0 to |names|
        invariant t == set n | n in names[..i]
      {
        assert names[..i + 1] == names[..i] + [names[i]];
        t := t + {names[i]};
      }
      assert names[..|names|] == names;
      title := t;
      zonesByCat := map[];
    }
  }

  /** The value of a house at one moment. */
  datatype HouseVal = HouseVal(title: set<string>, zonesByCat: map<string, set<ZoneId>>)

  function Vals(hs: seq<House>): (r: seq<HouseVal>)
    reads hs
  {
    seq(|hs|, i reads hs requires 0 <= i < |hs| => HouseVal(hs[i].title, hs[i].zonesByCat))
  }

  ghost predicate DistinctHouses(hs: seq<House>)
  {
    forall i, j :: 0 <= i < j < |hs| ==> hs[i] != hs[j]
  }

  /** Some name of `names` is already a token of `title`. */
  predicate Shares(title: set<string>, names: seq<string>)
  {
    exists n :: n in names && n in title
  }

  /** Index of the first house whose title shares a name, or |vs| if none does. */
  function FirstMatch(vs: seq<HouseVal>, names: seq<string>): (k: nat)
    ensures k <= |vs|
    ensures forall i :: 0 <= i < k ==> !Shares(vs[i].title, names)
    ensures k < |vs| ==> Shares(vs[k].title, names)
  {
    if vs == [] then 0
    else if Shares(vs[0].title, names) then 0
    else 1 + FirstMatch(vs[1..], names)
  }

  /** get_DNShouse on house values: the new list and the index of the house
      chosen for `names`. */
  function Place(vs: seq<HouseVal>, names: seq<string>): (r: (seq<HouseVal>, nat))
    // first match wins
    ensures r.1 <= |vs| && forall i :: 0 <= i < r.1 ==> !Shares(vs[i].title, names)
    ensures r.1 < |vs| ==> Shares(vs[r.1].title, names) && |r.0| == |vs|
    // otherwise a new house seeded with `names` goes at the end, and none of
    // its seed tokens is in any earlier title
    ensures r.1 == |vs| ==> |r.0| == |vs| + 1 && r.0[r.1] == HouseVal(set n | n in names, map[])
    ensures r.1 == |vs| ==> forall i, n :: 0 <= i < |vs| && n in names ==> n !in vs[i].title
    // the chosen house gains exactly the names, its zones untouched
    ensures r.1 < |r.0|
    ensures r.1 < |vs| ==> r.0[r.1] == vs[r.1].(title := vs[r.1].title + set n | n in names)
    ensures forall n :: n in names ==> n in r.0[r.1].title
    // every other house is unchanged
    ensures forall i :: 0 <= i < |vs| && i != r.1 ==> r.0[i] == vs[i]
  {
    var k := FirstMatch(vs, names);
    if k < |vs| then
      (vs[k := vs[k].(title := vs[k].title + set n | n in names)], k)
    else
      (vs + [HouseVal(set n | n in names, map[])], k)
  }

  /** get_DNShouse: returns the first house whose title shares a name with
      `names`, creating and appending one if none does, and adds every name
      to that house's title. */
  method GetDnsHouse(houses: seq<House>, names: seq<string>) returns (obj: House, houses': seq<House>)
    requires DistinctHouses(houses)
    modifies houses
    ensures Place(old(Vals(houses)), names).0 == Vals(houses')
    ensures Place(old(Vals(houses)), names).1 < |houses'| && houses'[Place(old(Vals(houses)), names).1] == obj
    ensures DistinctHouses(houses') && |houses| <= |houses'| && forall j :: 0 <= j < |houses| ==> houses'[j] == houses[j]
    ensures |houses'| == |houses| || (|houses'| == |houses| + 1 && fresh(houses'[|houses|]))
  {
    ghost var vs := Vals(houses);
    var found := false;
    var i := 0;
    while i < |houses|
      invariant 0 <= i <= |houses| && !found
      invariant forall j :: 0 <= j < i ==> !Shares(houses[j].title, names)
    {
      var j := 0;
      while j < |names|
        invariant 0 <= j <= |names| && !found
        invariant forall m :: 0 <= m < j ==> names[m] !in houses[i].title
      {
        if names[j] in houses[i].title {
          found := true;
          break;
        }
        j := j + 1;
      }
      if found {
        break;
      }
      i := i + 1;
    }
    assert found ==> Shares(vs[i].title, names);
    assert i == FirstMatch(vs, names);
    if !found {
      obj := new House(names);
      houses' := houses + [obj];
    } else {
      obj := houses[i];
      houses' := houses;
    }
    ghost var before := obj.title;
    for j := 0 to |names|
      invariant obj.title == before + set n | n in names[..j]
      invariant forall h :: h in houses && h != obj ==> h.title == old(h.title)
      invariant forall h :: h in houses ==> h.zonesByCat == old(h.zonesByCat)
      invariant !found ==> obj.zonesByCat == map[]
    {
      assert names[..j + 1] == names[..j] + [names[j]];
      obj.title := obj.title + {names[j]};
    }
    assert names[..|names|] == names;
  }

  // ---------------------------------------------------------------------------
  // The clustering loop of buildhouses, on values
  // ---------------------------------------------------------------------------

  /** The names a zone colour is clustered by: its rname, and its itc unless
      that is UNSET. */
  function Names(c: Color): (ns: seq<string>)
    ensures c.rname in ns && (c.itc != Unset ==> c.itc in ns)
    ensures forall n :: n in ns ==> n == c.rname || (n == c.itc && c.itc != Unset)
  {
    if c.itc == Unset then [c.rname] else [c.rname, c.itc]
  }

  /** The house with `zone` added to its bucket for `cat` (the bucket is created
      on first use). */
  function AddZone(h: HouseVal, cat: string, zone: ZoneId): (r: HouseVal)
    ensures r.title == h.title && cat in r.zonesByCat && zone in r.zonesByCat[cat]
    ensures forall c, y :: c in r.zonesByCat && y in r.zonesByCat[c] <==>
                           (c in h.zonesByCat && y in h.zonesByCat[c]) || (c == cat && y == zone)
  {
    h.(zonesByCat := Insert(h.zonesByCat, cat, {zone}))
  }

  /** One iteration of the clustering loop: place the zone's names, then file
      the zone under its category in the chosen house. */
  function Step(vs: seq<HouseVal>, zone: ZoneId, c: Color): seq<HouseVal>
  {
    var (ws, k) := Place(vs, Names(c));
    ws[k := AddZone(ws[k], c.cat, zone)]
  }

  /** The houses after clustering the zones of `order`, one after the other. */
  function Cluster(order: seq<ZoneId>, colors: map<ZoneId, Color>): seq<HouseVal>
    requires forall z :: z in order ==> z in colors
  {
    if order == [] then []
    else
      var last := order[|order| - 1];
      Step(Cluster(order[..|order| - 1], colors), last, colors[last])
  }

  /** All zones filed in a house, whatever their category. */
  ghost function Members(h: HouseVal): set<ZoneId>
  {
    ZonesUnder(h.zonesByCat, h.zonesByCat.Keys)
  }

  /** Every filed zone is one of `order`, sits in the bucket of its own
      category, and the house title holds the zone's names. */
  ghost predicate Sound(vs: seq<HouseVal>, order: seq<ZoneId>, colors: map<ZoneId, Color>)
  {
    forall i, c, z :: 0 <= i < |vs| && c in vs[i].zonesByCat && z in vs[i].zonesByCat[c] ==>
      && z in order && z in colors && c == colors[z].cat
      && colors[z].rname in vs[i].title
      && (colors[z].itc != Unset ==> colors[z].itc in vs[i].title)
  }

  /** No zone is filed in two houses. */
  ghost predicate Unique(vs: seq<HouseVal>)
  {
    forall i, j, c, d, z ::
      (&& 0 <= i < |vs| && 0 <= j < |vs| && c in vs[i].zonesByCat && d in vs[j].zonesByCat
       && z in vs[i].zonesByCat[c] && z in vs[j].zonesByCat[d])
      ==> i == j
  }

  /** Every zone of `order` is filed, in the bucket of its category. */
  ghost predicate Complete(vs: seq<HouseVal>, order: seq<ZoneId>, colors: map<ZoneId, Color>)
    requires forall z :: z in order ==> z in colors
  {
    forall z :: z in order ==>
      exists i :: 0 <= i < |vs| && colors[z].cat in vs[i].zonesByCat && z in vs[i].zonesByCat[colors[z].cat]
  }

  /** No house is empty or untitled, and there are no more houses than zones. */
  ghost predicate Populated(vs: seq<HouseVal>, order: seq<ZoneId>)
  {
    |vs| <= |order| && forall i :: 0 <= i < |vs| ==> vs[i].title != {} && Members(vs[i]) != {}
  }

  ghost predicate ClusterInv(vs: seq<HouseVal>, order: seq<ZoneId>, colors: map<ZoneId, Color>)
    requires forall z :: z in order ==> z in colors
  {
    Sound(vs, order, colors) && Unique(vs) && Complete(vs, order, colors) && Populated(vs, order)
  }

  /** What one clustering step does to titles and buckets. */
  lemma StepShape(vs: seq<HouseVal>, zone: ZoneId, c: Color)
    ensures var r := Step(vs, zone, c);
      var k := Place(vs, Names(c)).1;
      && k < |r| && (|r| == |vs| || |r| == |vs| + 1)
      && c.rname in r[k].title && (c.itc != Unset ==> c.itc in r[k].title)
      && (forall i :: 0 <= i < |vs| ==> vs[i].title <= r[i].title)
      && (forall i, d, y :: 0 <= i < |r| && d in r[i].zonesByCat && y in r[i].zonesByCat[d] <==>
            0 <= i < |r| && ((i < |vs| && d in vs[i].zonesByCat && y in vs[i].zonesByCat[d]) || (i == k && d == c.cat && y == zone)))
  {
    var (ws, k) := Place(vs, Names(c));
    var r := Step(vs, zone, c);
    assert r == ws[k := AddZone(ws[k], c.cat, zone)];
    forall i | 0 <= i < |ws| && i != k
      ensures r[i] == ws[i]
    {}
    assert k == |vs| ==> ws[k].zonesByCat == map[];
    assert k < |vs| ==> ws[k].zonesByCat == vs[k].zonesByCat;
  }

  lemma StepSound(vs: seq<HouseVal>, order: seq<ZoneId>, colors: map<ZoneId, Color>, zone: ZoneId)
    requires zone in colors && Sound(vs, order, colors)
    ensures Sound(Step(vs, zone, colors[zone]), order + [zone], colors)
  {
    var c := colors[zone];
    var r := Step(vs, zone, c);
    var k := Place(vs, Names(c)).1;
    StepShape(vs, zone, c);
    forall i, d, y | 0 <= i < |r| && d in r[i].zonesByCat && y in r[i].zonesByCat[d]
      ensures y in order + [zone] && y in colors && d == colors[y].cat
      ensures colors[y].rname in r[i].title && (colors[y].itc != Unset ==> colors[y].itc in r[i].title)
    {
      if !(i == k && d == c.cat && y == zone) {
        assert i < |vs| && d in vs[i].zonesByCat && y in vs[i].zonesByCat[d];
      }
    }
  }

  lemma StepUnique(vs: seq<HouseVal>, order: seq<ZoneId>, colors: map<ZoneId, Color>, zone: ZoneId)
    requires zone in colors && zone !in order
    requires Sound(vs, order, colors) && Unique(vs)
    ensures Unique(Step(vs, zone, colors[zone]))
  {
    var c := colors[zone];
    var r := Step(vs, zone, c);
    var k := Place(vs, Names(c)).1;
    StepShape(vs, zone, c);
    forall i, j, d, e, y | && 0 <= i < |r| && 0 <= j < |r| && d in r[i].zonesByCat && e in r[j].zonesByCat
                           && y in r[i].zonesByCat[d] && y in r[j].zonesByCat[e]
      ensures i == j
    {
      if y == zone {
        // the new zone was filed nowhere before this step
        assert i == k && j == k;
      } else {
        assert i < |vs| && d in vs[i].zonesByCat && y in vs[i].zonesByCat[d];
        assert j < |vs| && e in vs[j].zonesByCat && y in vs[j].zonesByCat[e];
      }
    }
  }

  lemma StepComplete(vs: seq<HouseVal>, order: seq<ZoneId>, colors: map<ZoneId, Color>, zone: ZoneId)
    requires forall z :: z in order ==> z in colors
    requires zone in colors && Complete(vs, order, colors)
    ensures Complete(Step(vs, zone, colors[zone]), order + [zone], colors)
  {
    var c := colors[zone];
    var r := Step(vs, zone, c);
    var k := Place(vs, Names(c)).1;
    StepShape(vs, zone, c);
    forall y | y in order + [zone]
      ensures exists i :: 0 <= i < |r| && colors[y].cat in r[i].zonesByCat && y in r[i].zonesByCat[colors[y].cat]
    {
      if y in order {
        var i :| 0 <= i < |vs| && colors[y].cat in vs[i].zonesByCat && y in vs[i].zonesByCat[colors[y].cat];
        assert colors[y].cat in r[i].zonesByCat && y in r[i].zonesByCat[colors[y].cat];
      } else {
        assert c.cat in r[k].zonesByCat && zone in r[k].zonesByCat[c.cat];
      }
    }
  }

  lemma StepPopulated(vs: seq<HouseVal>, order: seq<ZoneId>, zone: ZoneId, c: Color)
    requires Populated(vs, order)
    ensures Populated(Step(vs, zone, c), order + [zone])
  {
    var r := Step(vs, zone, c);
    var k := Place(vs, Names(c)).1;
    StepShape(vs, zone, c);
    forall i | 0 <= i < |r|
      ensures r[i].title != {} && Members(r[i]) != {}
    {
      if i == k {
        assert c.rname in r[i].title;
        assert c.cat in r[i].zonesByCat && zone in r[i].zonesByCat[c.cat];
        assert zone in Members(r[i]);
      } else {
        var y :| y in Members(vs[i]);
        var d :| d in vs[i].zonesByCat && y in vs[i].zonesByCat[d];
        assert d in r[i].zonesByCat && y in r[i].zonesByCat[d];
        assert y in Members(r[i]);
        var t :| t in vs[i].title;
        assert t in r[i].title;
      }
    }
  }

  /** One clustering step keeps the invariant when it files a new zone. */
  lemma StepKeepsInv(vs: seq<HouseVal>, order: seq<ZoneId>, colors: map<ZoneId, Color>, zone: ZoneId)
    requires forall z :: z in order ==> z in colors
    requires zone in colors && zone !in order
    requires ClusterInv(vs, order, colors)
    ensures ClusterInv(Step(vs, zone, colors[zone]), order + [zone], colors)
  {
    StepSound(vs, order, colors, zone);
    StepUnique(vs, order, colors, zone);
    StepComplete(vs, order, colors, zone);
    StepPopulated(vs, order, zone, colors[zone]);
  }

  /** buildhouses' clustering loop files every zone exactly once, in the bucket
      of its category, in a house whose title holds the zone's names; every
      house is non-empty and there are at most as many houses as zones. */
  lemma {:induction false} ClusterCorrect(order: seq<ZoneId>, colors: map<ZoneId, Color>)
    requires Distinct(order) && forall z :: z in order ==> z in colors
    ensures ClusterInv(Cluster(order, colors), order, colors)
  {
    if order != [] {
      var prefix := order[..|order| - 1];
      var last := order[|order| - 1];
      assert order == prefix + [last];
      ClusterCorrect(prefix, colors);
      StepKeepsInv(Cluster(prefix, colors), prefix, colors, last);
    }
  }

  /** One iteration of the clustering loop of buildhouses: get the house for
      the zone's names and add the zone to that house's bucket for its category. */
  method FileZone(houses: seq<House>, zone: ZoneId, c: Color) returns (houses': seq<House>)
    requires DistinctHouses(houses)
    modifies houses
    ensures Vals(houses') == Step(old(Vals(houses)), zone, c)
    ensures DistinctHouses(houses') && |houses| <= |houses'|
    ensures forall j :: 0 <= j < |houses'| ==> (j < |houses| && houses'[j] == houses[j]) || fresh(houses'[j])
  {
    ghost var vs := Vals(houses);
    var names;
    if c.itc == Unset {
      names := [c.rname];
    } else {
      names := [c.rname, c.itc];
    }
    assert names == Names(c);
    var obj;
    obj, houses' := GetDnsHouse(houses, names);
    ghost var k := Place(vs, Names(c)).1;
    ghost var ws := Vals(houses');
    assert ws == Place(vs, Names(c)).0 && houses'[k] == obj;
    obj.zonesByCat := Insert(obj.zonesByCat, c.cat, {zone});
    forall j | 0 <= j < |houses'|
      ensures Vals(houses')[j] == ws[k := AddZone(ws[k], c.cat, zone)][j]
    {
      if j != k {
        assert houses'[j] != obj;
      }
    }
  }

  /** The clustering loop of buildhouses: each zone, in order, is filed into
      the house get_DNShouse picks for its names. */
  method ClusterZones(order: seq<ZoneId>, colors: map<ZoneId, Color>) returns (houses: seq<House>)
    requires forall z :: z in order ==> z in colors
    ensures Vals(houses) == Cluster(order, colors)
    ensures DistinctHouses(houses)
  {
    houses := [];
    for i := 0 to |order|
      invariant DistinctHouses(houses)
      invariant forall j :: 0 <= j < |houses| ==> fresh(houses[j])
      invariant Vals(houses) == Cluster(order[..i], colors)
    {
      var zone := order[i];
      assert order[..i + 1][..i] == order[..i];
      houses := FileZone(houses, zone, colors[zone]);
    }
    assert order[..|order|] == order;
  }

  // ---------------------------------------------------------------------------
  // Fingerprint collection (the first loop of buildhouses)
  // ---------------------------------------------------------------------------

  /** The fingerprint of every zone of `order` that clustering includes. */
  function Fingerprints(zones: map<ZoneId, Zone>, order: seq<ZoneId>): (zc: map<ZoneId, Color>)
    ensures forall z :: z in zc <==> z in order && z in zones && Included(zones[z])
    ensures forall z :: z in zc ==> zc[z].cat == zones[z].category && !OccursIn(zc[z].cat, OtherCategories)
    ensures forall z :: z in zc ==> zc[z].rname != "rnamenotavailable"
  {
    map z | z in order && z in zones && Included(zones[z]) :: Fingerprint(zones[z])
  }

  /** The included zones of `order`, in order (the key order of zonecolors). */
  function IncludedOrder(zones: map<ZoneId, Zone>, order: seq<ZoneId>): (r: seq<ZoneId>)
    requires forall z :: z in order ==> z in zones
    ensures forall z :: z in r <==> z in order && Included(zones[z])
    ensures |r| <= |order|
  {
    if order == [] then []
    else
      var last := order[|order| - 1];
      IncludedOrder(zones, order[..|order| - 1]) + (if Included(zones[last]) then [last] else [])
  }

  lemma {:induction false} IncludedOrderDistinct(zones: map<ZoneId, Zone>, order: seq<ZoneId>)
    requires forall z :: z in order ==> z in zones
    requires Distinct(order)
    ensures Distinct(IncludedOrder(zones, order))
  {
    if order != [] {
      var prefix := order[..|order| - 1];
      var last := order[|order| - 1];
      IncludedOrderDistinct(zones, prefix);
      assert last !in prefix;
    }
  }

  /** The rnames seen, and for each rname the non-UNSET itcs it is seen with. */
  ghost function RnamesIn(zc: map<ZoneId, Color>): set<string>
  {
    set z | z in zc :: zc[z].rname
  }

  ghost function ItcsOf(zc: map<ZoneId, Color>, rname: string): set<string>
  {
    set z | z in zc && zc[z].rname == rname && zc[z].itc != Unset :: zc[z].itc
  }

  /** The itcs seen (UNSET included), and for each the rnames it is seen with. */
  ghost function ItcsIn(zc: map<ZoneId, Color>): set<string>
  {
    set z | z in zc :: zc[z].itc
  }

  ghost function RnamesOf(zc: map<ZoneId, Color>, itc: string): set<string>
  {
    set z | z in zc && zc[z].itc == itc :: zc[z].rname
  }

  /** The arcs (rname, itc) with a real itc, and the zones on one arc. */
  ghost function Arcs(zc: map<ZoneId, Color>): set<(string, string)>
  {
    set z | z in zc && zc[z].itc != Unset :: (zc[z].rname, zc[z].itc)
  }

  ghost function ArcZones(zc: map<ZoneId, Color>, rname: string, itc: string): set<ZoneId>
  {
    set z | z in zc && zc[z].rname == rname && zc[z].itc == itc
  }

  /** itcbyrname maps each rname seen to the real itcs it is seen with. */
  ghost predicate IndexedByRname(zc: map<ZoneId, Color>, itcByRname: map<string, set<string>>)
  {
    itcByRname.Keys == RnamesIn(zc) && forall r :: r in itcByRname ==> itcByRname[r] == ItcsOf(zc, r)
  }

  /** rnamebyitc maps each itc seen (UNSET included) to the rnames it is seen with. */
  ghost predicate IndexedByItc(zc: map<ZoneId, Color>, rnameByItc: map<string, set<string>>)
  {
    rnameByItc.Keys == ItcsIn(zc) && forall t :: t in rnameByItc ==> rnameByItc[t] == RnamesOf(zc, t)
  }

  /** arcs maps each (rname, real itc) pair seen to the zones that carry it. */
  ghost predicate IndexedArcs(zc: map<ZoneId, Color>, arcs: map<(string, string), set<ZoneId>>)
  {
    arcs.Keys == Arcs(zc) && forall a :: a in arcs ==> arcs[a] == ArcZones(zc, a.0, a.1)
  }

  /** The multimaps itcbyrname, rnamebyitc and arcs describe the colours `zc`. */
  ghost predicate Indexed(zc: map<ZoneId, Color>, itcByRname: map<string, set<string>>,
                          rnameByItc: map<string, set<string>>, arcs: map<(string, string), set<ZoneId>>)
  {
    IndexedByRname(zc, itcByRname) && IndexedByItc(zc, rnameByItc) && IndexedArcs(zc, arcs)
  }


  lemma IndexedByRnameAdd(zc: map<ZoneId, Color>, itcByRname: map<string, set<string>>, m: map<string, set<string>>,
                           zone: ZoneId, c: Color)
    requires zone !in zc && IndexedByRname(zc, itcByRname)
    requires Inserted(itcByRname, m, c.rname, if c.itc != Unset then {c.itc} else {})
    ensures IndexedByRname(zc[zone := c], m)
  {
    var zc' := zc[zone := c];
    forall x | x in RnamesIn(zc') ensures x in RnamesIn(zc) + {c.rname} {
      var z :| z in zc' && zc'[z].rname == x;
      if z != zone { assert z in zc && zc[z] == zc'[z]; }
    }
    forall x | x in RnamesIn(zc) ensures x in RnamesIn(zc') {
      var z :| z in zc && zc[z].rname == x;
      assert z in zc' && zc'[z] == zc[z];
    }
    assert c.rname in RnamesIn(zc') by { assert zone in zc' && zc'[zone] == c; }
    forall r | r in m ensures m[r] == ItcsOf(zc', r) {
      forall t | t in ItcsOf(zc', r) ensures t in m[r] {
        var z :| z in zc' && zc'[z].rname == r && zc'[z].itc != Unset && zc'[z].itc == t;
        if z != zone { assert z in zc && zc[z] == zc'[z]; }
      }
      forall t | t in m[r] ensures t in ItcsOf(zc', r) {
        if t in ItcsOf(zc, r) {
          var z :| z in zc && zc[z].rname == r && zc[z].itc != Unset && zc[z].itc == t;
          assert z in zc' && zc'[z] == zc[z];
        } else {
          assert zone in zc' && zc'[zone] == c;
        }
      }
    }
  }

  lemma IndexedByItcAdd(zc: map<ZoneId, Color>, rnameByItc: map<string, set<string>>, m: map<string, set<string>>,
                         zone: ZoneId, c: Color)
    requires zone !in zc && IndexedByItc(zc, rnameByItc)
    requires Inserted(rnameByItc, m, c.itc, {c.rname})
    ensures IndexedByItc(zc[zone := c], m)
  {
    var zc' := zc[zone := c];
    forall x | x in ItcsIn(zc') ensures x in ItcsIn(zc) + {c.itc} {
      var z :| z in zc' && zc'[z].itc == x;
      if z != zone { assert z in zc && zc[z] == zc'[z]; }
    }
    forall x | x in ItcsIn(zc) ensures x in ItcsIn(zc') {
      var z :| z in zc && zc[z].itc == x;
      assert z in zc' && zc'[z] == zc[z];
    }
    assert c.itc in ItcsIn(zc') by { assert zone in zc' && zc'[zone] == c; }
    forall t | t in m ensures m[t] == RnamesOf(zc', t) {
      forall r | r in RnamesOf(zc', t) ensures r in m[t] {
        var z :| z in zc' && zc'[z].itc == t && zc'[z].rname == r;
        if z != zone { assert z in zc && zc[z] == zc'[z]; }
      }
      forall r | r in m[t] ensures r in RnamesOf(zc', t) {
        if r in RnamesOf(zc, t) {
          var z :| z in zc && zc[z].itc == t && zc[z].rname == r;
          assert z in zc' && zc'[z] == zc[z];
        } else {
          assert zone in zc' && zc'[zone] == c;
        }
      }
    }
  }

  lemma IndexedArcsAdd(zc: map<ZoneId, Color>, arcs: map<(string, string), set<ZoneId>>,
                        m: map<(string, string), set<ZoneId>>, zone: ZoneId, c: Color)
    requires zone !in zc && IndexedArcs(zc, arcs)
    requires if c.itc != Unset then Inserted(arcs, m, (c.rname, c.itc), {zone}) else m == arcs
    ensures IndexedArcs(zc[zone := c], m)
  {
    ArcsAdd(zc, zone, c);
    forall a | a in m ensures m[a] == ArcZones(zc[zone := c], a.0, a.1) {
      ArcZonesAdd(zc, zone, c, a.0, a.1);
    }
  }

  lemma ArcsAdd(zc: map<ZoneId, Color>, zone: ZoneId, c: Color)
    requires zone !in zc
    ensures Arcs(zc[zone := c]) == Arcs(zc) + (if c.itc != Unset then {(c.rname, c.itc)} else {})
  {
    var zc' := zc[zone := c];
    forall a | a in Arcs(zc') ensures a in Arcs(zc) + (if c.itc != Unset then {(c.rname, c.itc)} else {}) {
      var z :| z in zc' && zc'[z].itc != Unset && a == (zc'[z].rname, zc'[z].itc);
      if z != zone { assert z in zc && zc[z] == zc'[z]; }
    }
    forall a | a in Arcs(zc) ensures a in Arcs(zc') {
      var z :| z in zc && zc[z].itc != Unset && a == (zc[z].rname, zc[z].itc);
      assert z in zc' && zc'[z] == zc[z];
    }
    assert c.itc != Unset ==> (c.rname, c.itc) in Arcs(zc') by { assert zone in zc' && zc'[zone] == c; }
  }

  lemma ArcZonesAdd(zc: map<ZoneId, Color>, zone: ZoneId, c: Color, rname: string, itc: string)
    requires zone !in zc
    ensures ArcZones(zc[zone := c], rname, itc) ==
            ArcZones(zc, rname, itc) + (if (rname, itc) == (c.rname, c.itc) then {zone} else {})
  {
  }

  lemma IncludedOrderStep(zones: map<ZoneId, Zone>, order: seq<ZoneId>, i: nat)
    requires i < |order| && forall z :: z in order ==> z in zones
    ensures IncludedOrder(zones, order[..i + 1]) ==
      IncludedOrder(zones, order[..i]) + if Included(zones[order[i]]) then [order[i]] else []
  {
    assert order[..i + 1][..i] == order[..i];
  }

  /** The fingerprints of a longer prefix of the zone order. */
  lemma FingerprintsStep(zones: map<ZoneId, Zone>, order: seq<ZoneId>, i: nat)
    requires i < |order| && order[i] in zones
    ensures Fingerprints(zones, order[..i + 1]) ==
      if Included(zones[order[i]]) then Fingerprints(zones, order[..i])[order[i] := Fingerprint(zones[order[i]])]
      else Fingerprints(zones, order[..i])
  {
    assert order[..i + 1] == order[..i] + [order[i]];
  }

  /** The first loop of buildhouses: drop excluded zones, colour the rest with
      their fingerprint, and index the colours by rname, by itc and by arc. */
  method CollectFingerprints(zones: map<ZoneId, Zone>, order: seq<ZoneId>)
    returns (itcByRname: map<string, set<string>>, rnameByItc: map<string, set<string>>,
             arcs: map<(string, string), set<ZoneId>>, zoneColors: map<ZoneId, Color>, colorOrder: seq<ZoneId>)
    requires Enumerates(order, zones.Keys)
    ensures zoneColors == Fingerprints(zones, order)
    ensures colorOrder == IncludedOrder(zones, order)
    ensures Indexed(zoneColors, itcByRname, rnameByItc, arcs)
  {
    itcByRname, rnameByItc, arcs, zoneColors, colorOrder := map[], map[], map[], map[], [];
    for i := 0 to |order|
      invariant zoneColors == Fingerprints(zones, order[..i])
      invariant colorOrder == IncludedOrder(zones, order[..i])
      invariant Indexed(zoneColors, itcByRname, rnameByItc, arcs)
    {
      var zone := order[i];
      FingerprintsStep(zones, order, i);
      IncludedOrderStep(zones, order, i);
      var zoneobj := zones[zone];
      if OccursIn(zoneobj.category, OtherCategories) {
        continue;
      }
      if zoneobj.status != "ACTIVE" {
        continue;
      }
      var rname := ToLower(zoneobj.rnameField);
      var itc := Normalize(zoneobj.techField);
      if rname == "rnamenotavailable" {
        continue;
      }
      assert zone !in order[..i];
      var c := Color(rname, itc, zoneobj.category);
      ghost var itcByRname0, rnameByItc0, arcs0 := itcByRname, rnameByItc, arcs;
      itcByRname := Insert(itcByRname, rname, if itc != Unset then {itc} else {});
      rnameByItc := Insert(rnameByItc, itc, {rname});
      if itc != Unset {
        arcs := Insert(arcs, (rname, itc), {zone});
      }
      IndexedByRnameAdd(zoneColors, itcByRname0, itcByRname, zone, c);
      IndexedByItcAdd(zoneColors, rnameByItc0, rnameByItc, zone, c);
      IndexedArcsAdd(zoneColors, arcs0, arcs, zone, c);
      zoneColors := zoneColors[zone := c];
      colorOrder := colorOrder + [zone];
    }
    assert order[..|order|] == order;
  }

  // ---------------------------------------------------------------------------
  // Bridge re-colouring (the second loop of buildhouses)
  // ---------------------------------------------------------------------------

  /** A bridge arc: the only zone on the arc (rname, itc), where the itc is
      real and seen with more than one rname, and the rname is seen with more
      than one real itc. */
  ghost predicate IsBridge(zc: map<ZoneId, Color>, rname: string, itc: string)
  {
    itc != Unset && |ArcZones(zc, rname, itc)| == 1 && |RnamesOf(zc, itc)| > 1 && |ItcsOf(zc, rname)| > 1
  }

  /** `c` is what zone `z`, coloured `zc[z]`, may be re-coloured to: the same
      rname and category, and the same itc unless the zone is a bridge, which
      takes another real itc that its rname is seen with. */
  ghost predicate Recoloured(zc: map<ZoneId, Color>, z: ZoneId, c: Color)
    requires z in zc
  {
    && c.rname == zc[z].rname && c.cat == zc[z].cat
    && if IsBridge(zc, zc[z].rname, zc[z].itc) then
         c.itc in ItcsOf(zc, zc[z].rname) && c.itc != zc[z].itc
       else
         c.itc == zc[z].itc
  }

  /** A set with two or more elements has one other than `x`. */
  lemma OtherElement(s: set<string>, x: string)
    requires |s| > 1
    ensures exists y :: y in s && y != x
  {
    assert |s - {x}| >= |s| - 1;
    var y :| y in s - {x};
  }

  lemma SingletonMembers(s: set<ZoneId>, a: ZoneId, b: ZoneId)
    requires |s| == 1 && a in s && b in s
    ensures a == b
  {
    assert |s - {a}| == 0;
    assert s - {a} == {};
  }

  /** A zone the second loop of buildhouses has not visited yet: its itc is
      still in `itcs`, or it is the current `itc` with an rname still in `rnames`. */
  ghost predicate Pending(c: Color, itcs: set<string>, itc: string, rnames: set<string>)
  {
    c.itc in itcs || (c.itc == itc && c.rname in rnames)
  }

  /** While the second loop of buildhouses runs: pending zones keep their
      colour, every other zone is re-coloured. */
  ghost predicate Progress(zc: map<ZoneId, Color>, zc': map<ZoneId, Color>, itcs: set<string>, itc: string, rnames: set<string>)
  {
    && zc'.Keys == zc.Keys
    && forall z :: z in zc ==>
         if Pending(zc[z], itcs, itc, rnames) then zc'[z] == zc[z] else Recoloured(zc, z, zc'[z])
  }

  /** Visiting an arc that is not a bridge changes no colour. */
  lemma VisitPlainArc(zc: map<ZoneId, Color>, itcByRname: map<string, set<string>>,
                      rnameByItc: map<string, set<string>>, arcs: map<(string, string), set<ZoneId>>,
                      zc': map<ZoneId, Color>, itcs: set<string>, itc: string, rnames: set<string>, rname: string)
    requires Indexed(zc, itcByRname, rnameByItc, arcs)
    requires itc != Unset && itc in rnameByItc && rname in itcByRname
    requires Progress(zc, zc', itcs, itc, rnames)
    requires (rname, itc) in arcs ==> !(|arcs[(rname, itc)]| == 1 && |rnameByItc[itc]| > 1 && |itcByRname[rname]| > 1)
    ensures Progress(zc, zc', itcs, itc, rnames - {rname})
  {
    if (rname, itc) !in arcs {
      assert ArcZones(zc, rname, itc) == {};
    }
    assert !IsBridge(zc, rname, itc);
  }

  /** Visiting a bridge arc re-colours its one zone and nothing else. */
  lemma VisitBridgeArc(zc: map<ZoneId, Color>, itcByRname: map<string, set<string>>,
                       rnameByItc: map<string, set<string>>, arcs: map<(string, string), set<ZoneId>>,
                       zc': map<ZoneId, Color>, itcs: set<string>, itc: string, rnames: set<string>, rname: string,
                       zone: ZoneId, other: string)
    requires Indexed(zc, itcByRname, rnameByItc, arcs)
    requires itc != Unset && itc !in itcs && rname in rnames
    requires Progress(zc, zc', itcs, itc, rnames)
    requires (rname, itc) in arcs && |arcs[(rname, itc)]| == 1 && itc in rnameByItc && |rnameByItc[itc]| > 1
    requires rname in itcByRname && |itcByRname[rname]| > 1
    requires zone in arcs[(rname, itc)] && other in itcByRname[rname] && other != itc
    ensures zone in zc'
    ensures Progress(zc, zc'[zone := zc'[zone].(itc := other)], itcs, itc, rnames - {rname})
  {
    BridgeArcFacts(zc, itcByRname, rnameByItc, arcs, itc, rname, zone, other);
    RecolourBridgeZone(zc, zc', itcs, itc, rnames, rname, zone, other);
  }

  /** What the index says about a bridge arc: its one zone, the bridge test
      on colours, and the itc it may move to. */
  lemma BridgeArcFacts(zc: map<ZoneId, Color>, itcByRname: map<string, set<string>>,
                       rnameByItc: map<string, set<string>>, arcs: map<(string, string), set<ZoneId>>,
                       itc: string, rname: string, zone: ZoneId, other: string)
    requires Indexed(zc, itcByRname, rnameByItc, arcs)
    requires itc != Unset
    requires (rname, itc) in arcs && |arcs[(rname, itc)]| == 1 && itc in rnameByItc && |rnameByItc[itc]| > 1
    requires rname in itcByRname && |itcByRname[rname]| > 1
    requires zone in arcs[(rname, itc)] && other in itcByRname[rname]
    ensures zone in zc && zc[zone].rname == rname && zc[zone].itc == itc
    ensures IsBridge(zc, rname, itc) && other in ItcsOf(zc, rname)
    ensures forall z :: z in zc && zc[z].itc == itc && zc[z].rname == rname ==> z == zone
  {
    assert zone in ArcZones(zc, rname, itc);
    forall z | z in zc && zc[z].itc == itc && zc[z].rname == rname
      ensures z == zone
    {
      assert z in ArcZones(zc, rname, itc);
      SingletonMembers(arcs[(rname, itc)], z, zone);
    }
  }

  /** Re-colouring the one zone of a bridge arc keeps the loop's progress. */
  lemma RecolourBridgeZone(zc: map<ZoneId, Color>, zc': map<ZoneId, Color>, itcs: set<string>, itc: string,
                           rnames: set<string>, rname: string, zone: ZoneId, other: string)
    requires itc !in itcs && rname in rnames
    requires Progress(zc, zc', itcs, itc, rnames)
    requires zone in zc && zc[zone].rname == rname && zc[zone].itc == itc
    requires IsBridge(zc, rname, itc) && other in ItcsOf(zc, rname) && other != itc
    requires forall z :: z in zc && zc[z].itc == itc && zc[z].rname == rname ==> z == zone
    ensures zone in zc'
    ensures Progress(zc, zc'[zone := zc'[zone].(itc := other)], itcs, itc, rnames - {rname})
  {
    assert Pending(zc[zone], itcs, itc, rnames);
  }

  /** Skipping UNSET in the outer loop: zones without a real itc are never bridges. */
  lemma SkipUnset(zc: map<ZoneId, Color>, zc': map<ZoneId, Color>, itcs: set<string>)
    requires Progress(zc, zc', itcs, Unset, {})
    ensures Progress(zc, zc', itcs - {Unset}, Unset, {})
  {
  }

  /** Entering the inner loop for `itc`: every zone with that itc is pending. */
  lemma StartItc(zc: map<ZoneId, Color>, itcByRname: map<string, set<string>>,
                 zc': map<ZoneId, Color>, itcs: set<string>, itc: string)
    requires IndexedByRname(zc, itcByRname)
    requires itc in itcs && Progress(zc, zc', itcs, Unset, {})
    ensures Progress(zc, zc', itcs - {itc}, itc, itcByRname.Keys)
  {
    forall z | z in zc && zc[z].itc == itc
      ensures zc[z].rname in itcByRname
    {
      assert zc[z].rname in RnamesIn(zc);
    }
  }

  /** Leaving the inner loop: no zone with the finished itc is pending any more. */
  lemma FinishItc(zc: map<ZoneId, Color>, zc': map<ZoneId, Color>, itcs: set<string>, itc: string)
    requires itc !in itcs
    requires Progress(zc, zc', itcs, itc, {})
    ensures Progress(zc, zc', itcs, Unset, {})
  {
  }

  /** The second loop of buildhouses: every bridge zone is moved to another
      real itc of its rname; no other zone changes colour. */
  method RecolourBridges(zc: map<ZoneId, Color>, itcByRname: map<string, set<string>>,
                         rnameByItc: map<string, set<string>>, arcs: map<(string, string), set<ZoneId>>)
    returns (zc': map<ZoneId, Color>)
    requires Indexed(zc, itcByRname, rnameByItc, arcs)
    ensures zc'.Keys == zc.Keys
    ensures forall z :: z in zc ==> Recoloured(zc, z, zc'[z])
  {
    zc' := zc;
    var itcs := rnameByItc.Keys;
    while itcs != {}
      invariant itcs <= rnameByItc.Keys
      invariant Progress(zc, zc', itcs, Unset, {})
      decreases itcs
    {
      var itc :| itc in itcs;
      if itc == Unset {
        SkipUnset(zc, zc', itcs);
        itcs := itcs - {itc};
        continue;
      }
      StartItc(zc, itcByRname, zc', itcs, itc);
      itcs := itcs - {itc};
      var rnames := itcByRname.Keys;
      while rnames != {}
        invariant rnames <= itcByRname.Keys
        invariant Progress(zc, zc', itcs, itc, rnames)
        decreases rnames
      {
        var rname :| rname in rnames;
        ghost var rnames0 := rnames;
        rnames := rnames - {rname};
        if (rname, itc) in arcs && |arcs[(rname, itc)]| == 1 && |rnameByItc[itc]| > 1 && |itcByRname[rname]| > 1 {
          var zone :| zone in arcs[(rname, itc)];
          OtherElement(itcByRname[rname], itc);
          var other :| other in itcByRname[rname] && other != itc;
          VisitBridgeArc(zc, itcByRname, rnameByItc, arcs, zc', itcs, itc, rnames0, rname, zone, other);
          zc' := zc'[zone := zc'[zone].(itc := other)];
        } else {
          VisitPlainArc(zc, itcByRname, rnameByItc, arcs, zc', itcs, itc, rnames0, rname);
        }
      }
      FinishItc(zc, zc', itcs, itc);
    }
  }

  // ---------------------------------------------------------------------------
  // buildhouses
  // ---------------------------------------------------------------------------

  /** Groups the zones of the census into DNS houses: collect each included
      zone's colour, move bridge zones to another itc of their rname, then file
      the zones one by one, in dictionary order, into the first house whose
      title shares a name with the zone's colour. Every included zone ends up
      in exactly one house, in the bucket of its category, under a title that
      holds its rname and its real itc; excluded zones are filed nowhere. */
  method BuildHouses(zones: map<ZoneId, Zone>, order: seq<ZoneId>)
    returns (houses: seq<House>, colors: map<ZoneId, Color>)
    requires Enumerates(order, zones.Keys)
    ensures colors.Keys == Fingerprints(zones, order).Keys
    ensures forall z :: z in colors ==> Recoloured(Fingerprints(zones, order), z, colors[z])
    ensures Vals(houses) == Cluster(IncludedOrder(zones, order), colors)
    ensures ClusterInv(Vals(houses), IncludedOrder(zones, order), colors)
    ensures DistinctHouses(houses)
  {
    var itcByRname, rnameByItc, arcs, zoneColors, colorOrder := CollectFingerprints(zones, order);
    colors := RecolourBridges(zoneColors, itcByRname, rnameByItc, arcs);
    IncludedOrderDistinct(zones, order);
    houses := ClusterZones(colorOrder, colors);
    ClusterCorrect(colorOrder, colors);
  }

  /** A zone of the census is filed in some house exactly when it passes the
      filters of buildhouses: its category is not one of the special ones, it
      is ACTIVE, and its RNAME is available. */
  lemma FiledIffIncluded(zones: map<ZoneId, Zone>, order: seq<ZoneId>, colors: map<ZoneId, Color>,
                         vs: seq<HouseVal>, z: ZoneId)
    requires Enumerates(order, zones.Keys) && z in zones
    requires colors.Keys == Fingerprints(zones, order).Keys
    requires ClusterInv(vs, IncludedOrder(zones, order), colors)
    ensures (exists i :: 0 <= i < |vs| && z in Members(vs[i])) <==> Included(zones[z])
  {
    if Included(zones[z]) {
      assert z in IncludedOrder(zones, order);
      var i :| 0 <= i < |vs| && colors[z].cat in vs[i].zonesByCat && z in vs[i].zonesByCat[colors[z].cat];
      assert z in Members(vs[i]);
    } else {
      forall i | 0 <= i < |vs| ensures z !in Members(vs[i]) {
        if z in Members(vs[i]) {
          var c :| c in vs[i].zonesByCat && z in vs[i].zonesByCat[c];
        }
      }
    }
  }
}
