/** The data side of the map view (frontend/src/components/MapView.jsx): the
    static catalog of sunny sites, the yearly figure shown for a selected
    site, and what a click on the map builds from the two remote answers: a
    month-keyed record of monthly totals out of a daily-average climatology,
    and the distance to the nearest coastline vertex or the "More than 100"
    sentinel.

    A JavaScript object keyed by month is an association list in insertion
    order (MonthlyRecord); assigning a property is Put. The great-circle
    distance is a parameter `dist(lat1, lon1, lat2, lon2)` about which
    nothing is assumed. */
module MapView {
  import opened Common

  // ---------------------------------------------------------------------
  // Month-keyed records
  // ---------------------------------------------------------------------

  /** One property of a month-keyed object. */
  datatype Entry = Entry(month: Month, value: real)

  /** A month-keyed object; its properties in insertion order. */
  type MonthlyRecord = seq<Entry>

  /** `Object.keys`. */
  function KeysOf(r: MonthlyRecord): seq<Month>
  {
    seq(|r|, i requires 0 <= i < |r| => r[i].month)
  }

  /** `Object.values`. */
  function ValuesOf(r: MonthlyRecord): seq<real>
  {
    seq(|r|, i requires 0 <= i < |r| => r[i].value)
  }

  /** No month is a key twice, as in any JavaScript object. */
  predicate WellKeyed(r: MonthlyRecord)
  {
    DistinctMonths(KeysOf(r))
  }

  /** `r[m]`: the value stored under m, None for undefined. */
  function Lookup(r: MonthlyRecord, m: Month): (v: Option<real>)
    ensures v.Some? <==> m in KeysOf(r)
    ensures v.Some? ==> exists i :: 0 <= i < |r| && r[i] == Entry(m, v.value)
  {
    if r == [] then None
    else
      assert KeysOf(r) == [r[0].month] + KeysOf(r[1..]);
      if r[0].month == m then Some(r[0].value)
      else
      var v := Lookup(r[1..], m);
      assert v.Some? ==> exists i :: 0 <= i < |r[1..]| && r[1..][i] == Entry(m, v.value);
      v
  }

  /** A record is well keyed when its first key does not come back later
      and the rest is well keyed. */
  lemma WellKeyedCons(e: Entry, rest: MonthlyRecord)
    ensures WellKeyed([e] + rest) <==> e.month !in KeysOf(rest) && WellKeyed(rest)
  {
    var ks := KeysOf([e] + rest);
    var rs := KeysOf(rest);
    assert ks == [e.month] + rs;
    if WellKeyed([e] + rest) {
      forall j | 0 <= j < |rs| ensures rs[j] != e.month {
        assert ks[0] != ks[j + 1];
      }
      forall i, j | 0 <= i < j < |rs| ensures rs[i] != rs[j] {
        assert ks[i + 1] != ks[j + 1];
      }
    }
    if e.month !in rs && WellKeyed(rest) {
      forall i, j | 0 <= i < j < |ks| ensures ks[i] != ks[j] {
        assert ks[j] == rs[j - 1];
        if i > 0 {
          assert ks[i] == rs[i - 1];
        }
      }
    }
  }

  /** `r[m] = v`: an existing property keeps its place and takes the new
      value, a new one is appended. */
  function Put(r: MonthlyRecord, m: Month, v: real): (r': MonthlyRecord)
    ensures Lookup(r', m) == Some(v)
    ensures forall n :: n != m ==> Lookup(r', n) == Lookup(r, n)
    ensures |r'| == if m in KeysOf(r) then |r| else |r| + 1
    ensures WellKeyed(r) ==> WellKeyed(r')
  {
    if r == [] then [Entry(m, v)]
    else
      assert KeysOf(r) == [r[0].month] + KeysOf(r[1..]);
      if r[0].month == m then
        var r' := [Entry(m, v)] + r[1..];
        assert KeysOf(r') == KeysOf(r);
        r'
      else
        var rest := Put(r[1..], m, v);
        var r' := [r[0]] + rest;
        assert r == [r[0]] + r[1..];
        WellKeyedCons(r[0], r[1..]);
        WellKeyedCons(r[0], rest);
        assert r[0].month in KeysOf(rest) <==> r[0].month in KeysOf(r[1..]) by {
          assert Lookup(rest, r[0].month) == Lookup(r[1..], r[0].month);
        }
        r'
  }

  /** The keys of a record with a first property: that property's month, then the rest's keys. */
  lemma KeysCons(e: Entry, rest: MonthlyRecord)
    ensures KeysOf([e] + rest) == [e.month] + KeysOf(rest)
  {
  }

  /** Assignment keeps JavaScript's insertion order: an existing property
      stays where it is, a new one goes last. */
  lemma {:induction false} PutKeepsOrder(r: MonthlyRecord, m: Month, v: real)
    ensures KeysOf(Put(r, m, v)) == if m in KeysOf(r) then KeysOf(r) else KeysOf(r) + [m]
  {
    if r != [] {
      assert r == [r[0]] + r[1..];
      KeysCons(r[0], r[1..]);
      if r[0].month == m {
        KeysCons(Entry(m, v), r[1..]);
      } else {
        PutKeepsOrder(r[1..], m, v);
        assert Put(r, m, v) == [r[0]] + Put(r[1..], m, v);
        KeysCons(r[0], Put(r[1..], m, v));
        assert m in KeysOf(r) <==> m in KeysOf(r[1..]);
      }
    }
  }

  /** In a well-keyed record, looking up the month of the i-th property
      finds that property's value. */
  lemma {:induction false} LookupAt(r: MonthlyRecord, i: nat)
    requires WellKeyed(r)
    requires i < |r|
    ensures Lookup(r, r[i].month) == Some(r[i].value)
  {
    assert r == [r[0]] + r[1..];
    WellKeyedCons(r[0], r[1..]);
    if i > 0 {
      assert KeysOf(r[1..])[i - 1] == r[i].month;
      LookupAt(r[1..], i - 1);
    }
  }

  // ---------------------------------------------------------------------
  // Sites and the static catalog
  // ---------------------------------------------------------------------

  /** The distance-to-sea field: a number of km, or the text "More than 100". */
  datatype CoastDistance = MoreThan100 | Km(value: real)

  /** A catalog name, or the `Coordinates (lat, lng)` label of a clicked
      point, each coordinate shown with three decimals. */
  datatype SiteName = Named(text: string) | Coordinates(lat: real, lon: real)

  datatype Site = Site(
    name: SiteName,
    lat: real,
    lon: real,
    monthly: MonthlyRecord,
    distanceToCoast: CoastDistance,
    distanceToNileKm: Option<real>)

  /** A record of twelve monthly totals in calendar order. */
  function Year(jan: real, feb: real, mar: real, apr: real, may: real, jun: real,
                jul: real, aug: real, sep: real, oct: real, nov: real, dec: real): MonthlyRecord
  {
    [Entry(Jan, jan), Entry(Feb, feb), Entry(Mar, mar), Entry(Apr, apr),
     Entry(May, may), Entry(Jun, jun), Entry(Jul, jul), Entry(Aug, aug),
     Entry(Sep, sep), Entry(Oct, oct), Entry(Nov, nov), Entry(Dec, dec)]
  }

  /** The eight marked sites, monthly totals in kWh/m². */
  const SunnyPlaces: seq<Site> := [
    Site(Named("Upington, South Africa"), -28.4511, 21.256,
         Year(220.0, 210.0, 230.0, 250.0, 270.0, 280.0, 275.0, 260.0, 240.0, 230.0, 215.0, 205.0),
         Km(350.0), None),
    Site(Named("Yuma, Arizona"), 32.6927, -114.6277,
         Year(240.0, 230.0, 260.0, 280.0, 300.0, 310.0, 305.0, 290.0, 270.0, 260.0, 245.0, 235.0),
         Km(90.0), None),
    Site(Named("Phoenix, Arizona"), 33.4484, -112.074,
         Year(230.0, 220.0, 250.0, 270.0, 290.0, 300.0, 295.0, 280.0, 260.0, 250.0, 235.0, 225.0),
         Km(120.0), None),
    Site(Named("Aswan, Egypt"), 24.0889, 32.8998,
         Year(280.0, 270.0, 300.0, 320.0, 340.0, 350.0, 345.0, 330.0, 310.0, 300.0, 285.0, 275.0),
         Km(700.0), Some(5.0)),
    Site(Named("Luxor, Egypt"), 25.6872, 32.6396,
         Year(275.0, 265.0, 295.0, 315.0, 335.0, 345.0, 340.0, 325.0, 305.0, 295.0, 280.0, 270.0),
         Km(650.0), Some(2.0)),
    Site(Named("Atacama Desert, Chile"), -24.5, -69.25,
         Year(310.0, 300.0, 320.0, 330.0, 350.0, 360.0, 355.0, 340.0, 320.0, 310.0, 295.0, 285.0),
         Km(60.0), None),
    Site(Named("Keetmanshoop, Namibia"), -26.5733, 18.1326,
         Year(210.0, 200.0, 220.0, 240.0, 260.0, 270.0, 265.0, 250.0, 230.0, 220.0, 205.0, 195.0),
         Km(420.0), None),
    Site(Named("Arandis, Erongo Region, Namibia"), -22.5767, 14.9097,
         Year(220.0, 210.0, 230.0, 250.0, 270.0, 280.0, 275.0, 260.0, 240.0, 230.0, 215.0, 205.0),
         Km(50.0), None)
  ]

  /** A calendar-order record lists the twelve months once each, in order. */
  lemma YearKeys(jan: real, feb: real, mar: real, apr: real, may: real, jun: real,
                 jul: real, aug: real, sep: real, oct: real, nov: real, dec: real)
    ensures var r := Year(jan, feb, mar, apr, may, jun, jul, aug, sep, oct, nov, dec);
      KeysOf(r) == Months && WellKeyed(r)
  {
    DaysInYear();
  }

  /** The shape every catalog site has: the twelve months Jan..Dec in
      calendar order, positive totals, a positive distance to the coast. */
  predicate CatalogSiteShape(s: Site)
  {
    && KeysOf(s.monthly) == Months
    && WellKeyed(s.monthly)
    && (forall k :: 0 <= k < |s.monthly| ==> s.monthly[k].value > 0.0)
    && s.distanceToCoast.Km? && s.distanceToCoast.value > 0.0
  }

  /** A site built from twelve positive totals and a positive distance has the catalog shape. */
  lemma YearSiteShape(name: SiteName, lat: real, lon: real,
                      jan: real, feb: real, mar: real, apr: real, may: real, jun: real,
                      jul: real, aug: real, sep: real, oct: real, nov: real, dec: real,
                      coastKm: real, nile: Option<real>)
    requires jan > 0.0 && feb > 0.0 && mar > 0.0 && apr > 0.0 && may > 0.0 && jun > 0.0
    requires jul > 0.0 && aug > 0.0 && sep > 0.0 && oct > 0.0 && nov > 0.0 && dec > 0.0
    requires coastKm > 0.0
    ensures CatalogSiteShape(Site(name, lat, lon,
      Year(jan, feb, mar, apr, may, jun, jul, aug, sep, oct, nov, dec), Km(coastKm), nile))
  {
    YearKeys(jan, feb, mar, apr, may, jun, jul, aug, sep, oct, nov, dec);
  }

  /** Every catalog site has the catalog shape; only the two Nile sites
      carry a distance to the Nile. */
  lemma CatalogShape()
    ensures |SunnyPlaces| == 8
    ensures forall k :: 0 <= k < |SunnyPlaces| ==> CatalogSiteShape(SunnyPlaces[k])
    ensures forall k :: 0 <= k < |SunnyPlaces| ==>
      (SunnyPlaces[k].distanceToNileKm.Some? <==> (k == 3 || k == 4))
    ensures SunnyPlaces[3].name == Named("Aswan, Egypt") && SunnyPlaces[4].name == Named("Luxor, Egypt")
  {
    var p := SunnyPlaces;
    YearSiteShape(p[0].name, p[0].lat, p[0].lon,
      220.0, 210.0, 230.0, 250.0, 270.0, 280.0, 275.0, 260.0, 240.0, 230.0, 215.0, 205.0, 350.0, None);
    YearSiteShape(p[1].name, p[1].lat, p[1].lon,
      240.0, 230.0, 260.0, 280.0, 300.0, 310.0, 305.0, 290.0, 270.0, 260.0, 245.0, 235.0, 90.0, None);
    YearSiteShape(p[2].name, p[2].lat, p[2].lon,
      230.0, 220.0, 250.0, 270.0, 290.0, 300.0, 295.0, 280.0, 260.0, 250.0, 235.0, 225.0, 120.0, None);
    YearSiteShape(p[3].name, p[3].lat, p[3].lon,
      280.0, 270.0, 300.0, 320.0, 340.0, 350.0, 345.0, 330.0, 310.0, 300.0, 285.0, 275.0, 700.0, Some(5.0));
    YearSiteShape(p[4].name, p[4].lat, p[4].lon,
      275.0, 265.0, 295.0, 315.0, 335.0, 345.0, 340.0, 325.0, 305.0, 295.0, 280.0, 270.0, 650.0, Some(2.0));
    YearSiteShape(p[5].name, p[5].lat, p[5].lon,
      310.0, 300.0, 320.0, 330.0, 350.0, 360.0, 355.0, 340.0, 320.0, 310.0, 295.0, 285.0, 60.0, None);
    YearSiteShape(p[6].name, p[6].lat, p[6].lon,
      210.0, 200.0, 220.0, 240.0, 260.0, 270.0, 265.0, 250.0, 230.0, 220.0, 205.0, 195.0, 420.0, None);
    YearSiteShape(p[7].name, p[7].lat, p[7].lon,
      220.0, 210.0, 230.0, 250.0, 270.0, 280.0, 275.0, 260.0, 240.0, 230.0, 215.0, 205.0, 50.0, None);
  }

  // ---------------------------------------------------------------------
  // The yearly figure of a selected site
  // ---------------------------------------------------------------------

  /** `calculateYearlyAverage`: despite its name, the sum of all monthly
      values (a fold from 0 in key order), shown with one decimal. */
  function YearlyTotal(r: MonthlyRecord): (t: real)
    ensures Sum(ValuesOf(r)) - 0.05 <= t <= Sum(ValuesOf(r)) + 0.05
    ensures (forall k :: 0 <= k < |r| ==> r[k].value >= 0.0) ==> t >= 0.0
  {
    assert 1.0 / (2.0 * Scale(1)) == 0.05;
    SumNonNegativeWhen(ValuesOf(r));
    ToFixed(Sum(ValuesOf(r)), 1)
  }

  /** With every month between lo and hi, the figure is between 12·lo and
      12·hi (up to the display rounding): a total, not a monthly mean. */
  lemma {:induction false} YearlyTotalBetween(r: MonthlyRecord, lo: real, hi: real)
    requires |r| == 12
    requires forall k :: 0 <= k < |r| ==> lo <= r[k].value <= hi
    ensures 12.0 * lo - 0.05 <= YearlyTotal(r) <= 12.0 * hi + 0.05
  {
    SumBetween(ValuesOf(r), lo, hi);
    assert 1.0 / (2.0 * Scale(1)) == 0.05;
  }

  /** The total of a twelve-month record is the plain sum of the months. */
  lemma YearSum(jan: real, feb: real, mar: real, apr: real, may: real, jun: real,
                jul: real, aug: real, sep: real, oct: real, nov: real, dec: real)
    ensures Sum(ValuesOf(Year(jan, feb, mar, apr, may, jun, jul, aug, sep, oct, nov, dec)))
         == jan + feb + mar + apr + may + jun + jul + aug + sep + oct + nov + dec
  {
    var v := ValuesOf(Year(jan, feb, mar, apr, may, jun, jul, aug, sep, oct, nov, dec));
    assert v == [jan, feb, mar, apr, may, jun, jul, aug, sep, oct, nov, dec];
    SumOfTwelve(v);
  }

  lemma SumOfTwelve(v: seq<real>)
    requires |v| == 12
    ensures Sum(v) == v[0] + v[1] + v[2] + v[3] + v[4] + v[5] + v[6] + v[7] + v[8] + v[9] + v[10] + v[11]
  {
    assert v == v[..6] + v[6..];
    SumAppend(v[..6], v[6..]);
    SumOfSix(v[..6]);
    SumOfSix(v[6..]);
  }

  lemma SumOfSix(v: seq<real>)
    requires |v| == 6
    ensures Sum(v) == v[0] + v[1] + v[2] + v[3] + v[4] + v[5]
  {
    SumPrefixSnoc(v, 1);
    SumPrefixSnoc(v, 2);
    SumPrefixSnoc(v, 3);
    SumPrefixSnoc(v, 4);
    SumPrefixSnoc(v, 5);
    SumPrefixSnoc(v, 6);
    assert v[..0] == [];
    assert v[..6] == v;
  }

  /** Upington's twelve months add up to 2885 kWh/m², shown as "2885.0". */
  lemma UpingtonYearlyTotal()
    ensures YearlyTotal(SunnyPlaces[0].monthly) == 2885.0
  {
    YearSum(220.0, 210.0, 230.0, 250.0, 270.0, 280.0, 275.0, 260.0, 240.0, 230.0, 215.0, 205.0);
    ToFixedOnGrid(2885.0, 28850, 1);
  }

  // ---------------------------------------------------------------------
  // From a daily-average climatology to monthly totals
  // ---------------------------------------------------------------------

  /** One property of the climatology answer: an upper-case month key (or
      another key, such as the annual entry) with its average daily value. */
  datatype ClimatologyEntry = ClimatologyEntry(key: string, daily: real)

  /** The climatology's key for a month. */
  function ClimatologyKey(m: Month): string
  {
    match m
    case Jan => "JAN" case Feb => "FEB" case Mar => "MAR" case Apr => "APR"
    case May => "MAY" case Jun => "JUN" case Jul => "JUL" case Aug => "AUG"
    case Sep => "SEP" case Oct => "OCT" case Nov => "NOV" case Dec => "DEC"
  }

  /** `monthMap[key]`: the month a climatology key names, if any. */
  function MonthOfKey(key: string): (m: Option<Month>)
    ensures m.Some? ==> ClimatologyKey(m.value) == key
    ensures m.None? ==> forall n :: ClimatologyKey(n) != key
  {
    if key == "JAN" then Some(Jan) else if key == "FEB" then Some(Feb)
    else if key == "MAR" then Some(Mar) else if key == "APR" then Some(Apr)
    else if key == "MAY" then Some(May) else if key == "JUN" then Some(Jun)
    else if key == "JUL" then Some(Jul) else if key == "AUG" then Some(Aug)
    else if key == "SEP" then Some(Sep) else if key == "OCT" then Some(Oct)
    else if key == "NOV" then Some(Nov) else if key == "DEC" then Some(Dec)
    else None
  }

  /** Every month's key leads back to that month. */
  lemma MonthOfKeyInverts(m: Month)
    ensures MonthOfKey(ClimatologyKey(m)) == Some(m)
  {
  }

  /** `parseFloat((daily * daysInMonth[m]).toFixed(1))`. */
  function MonthlyTotal(daily: real, m: Month): (total: real)
    ensures daily * (DaysInMonth(m) as real) - 0.05 <= total <= daily * (DaysInMonth(m) as real) + 0.05
  {
    assert 1.0 / (2.0 * Scale(1)) == 0.05;
    ToFixed(daily * DaysInMonth(m) as real, 1)
  }

  /** The record the click handler's loop has built after visiting `entries`
      in order: recognised keys set their month, the others are skipped. */
  function MonthlyFromDaily(entries: seq<ClimatologyEntry>): (r: MonthlyRecord)
    ensures WellKeyed(r)
  {
    if entries == [] then []
    else
      var acc := MonthlyFromDaily(entries[..|entries| - 1]);
      var e := entries[|entries| - 1];
      match MonthOfKey(e.key)
      case None => acc
      case Some(m) => Put(acc, m, MonthlyTotal(e.daily, m))
  }

  /** The daily value under `key` that a reader of the entries ends up with:
      that of the last entry carrying the key. */
  function LastDaily(entries: seq<ClimatologyEntry>, key: string): (d: Option<real>)
    ensures d.Some? <==> exists k :: 0 <= k < |entries| && entries[k].key == key
  {
    if entries == [] then None
    else if entries[|entries| - 1].key == key then Some(entries[|entries| - 1].daily)
    else
      var init := entries[..|entries| - 1];
      assert forall k :: 0 <= k < |init| ==> init[k] == entries[k];
      LastDaily(init, key)
  }

  /** Month by month, the record holds the day-weighted total of the
      climatology's value for that month, and nothing for a month the
      climatology does not mention; other keys leave no trace. */
  lemma {:induction false} MonthlyFromDailyLookup(entries: seq<ClimatologyEntry>, m: Month)
    ensures Lookup(MonthlyFromDaily(entries), m)
         == match LastDaily(entries, ClimatologyKey(m))
            case None => None
            case Some(d) => Some(MonthlyTotal(d, m))
  {
    if entries != [] {
      var init := entries[..|entries| - 1];
      var e := entries[|entries| - 1];
      MonthlyFromDailyLookup(init, m);
      match MonthOfKey(e.key)
      case None =>
        assert e.key != ClimatologyKey(m);
      case Some(n) =>
        if n == m {
          assert e.key == ClimatologyKey(m);
        } else {
          MonthOfKeyInverts(m);
          assert e.key != ClimatologyKey(m);
        }
    }
  }

  /** The record has at most twelve entries, and exactly twelve when the
      climatology mentions every month. */
  lemma {:induction false} MonthlyFromDailySize(entries: seq<ClimatologyEntry>)
    ensures |MonthlyFromDaily(entries)| <= 12
    ensures (forall m :: exists k :: 0 <= k < |entries| && entries[k].key == ClimatologyKey(m))
            ==> |MonthlyFromDaily(entries)| == 12
  {
    var r := MonthlyFromDaily(entries);
    assert |KeysOf(r)| == |r|;
    DistinctMonthsBound(KeysOf(r));
    if forall m :: exists k :: 0 <= k < |entries| && entries[k].key == ClimatologyKey(m) {
      forall m: Month ensures m in KeysOf(r) {
        MonthlyFromDailyLookup(entries, m);
        assert LastDaily(entries, ClimatologyKey(m)).Some?;
        assert Lookup(r, m).Some?;
      }
      assert |KeysOf(r)| == 12;
    }
  }

  /** The click handler's loop over `Object.entries` of the climatology. */
  method MonthlyFromClimatology(monthlyDaily: seq<ClimatologyEntry>) returns (monthly: MonthlyRecord)
    ensures monthly == MonthlyFromDaily(monthlyDaily)
  {
    monthly := [];
    var i := 0;
    while i < |monthlyDaily|
      invariant 0 <= i <= |monthlyDaily|
      invariant monthly == MonthlyFromDaily(monthlyDaily[..i])
    {
      var entry := monthlyDaily[i];
      var monthShort := MonthOfKey(entry.key);
      MonthlyFromDailyStep(monthlyDaily, i);
      if monthShort.Some? {
        monthly := Put(monthly, monthShort.value, MonthlyTotal(entry.daily, monthShort.value));
      }
      i := i + 1;
    }
    assert monthlyDaily[..i] == monthlyDaily;
  }

  /** One more climatology entry: a recognised key sets its month, any
      other key leaves the record as it was. */
  lemma MonthlyFromDailyStep(entries: seq<ClimatologyEntry>, i: nat)
    requires i < |entries|
    ensures MonthlyFromDaily(entries[..i + 1])
         == match MonthOfKey(entries[i].key)
            case None => MonthlyFromDaily(entries[..i])
            case Some(m) => Put(MonthlyFromDaily(entries[..i]), m, MonthlyTotal(entries[i].daily, m))
  {
    assert entries[..i + 1][..i] == entries[..i];
  }

  // ---------------------------------------------------------------------
  // Nearest coastline vertex
  // ---------------------------------------------------------------------

  datatype Vertex = Vertex(lat: real, lon: real)

  /** An element of the geographic query's answer: its type and, when
      present, its geometry (possibly an empty list). */
  datatype OverpassElement = OverpassElement(kind: string, geometry: Option<seq<Vertex>>)

  /** The elements of type "way" that carry a geometry, in answer order. */
  function Ways(elements: seq<OverpassElement>): (ways: seq<seq<Vertex>>)
    ensures forall w :: w in ways <==> exists e :: e in elements && e.kind == "way" && e.geometry == Some(w)
  {
    if elements == [] then []
    else
      var e := elements[|elements| - 1];
      var init := elements[..|elements| - 1];
      assert elements == init + [e];
      Ways(init) + if e.kind == "way" && e.geometry.Some? then [e.geometry.value] else []
  }

  /** Distance from the clicked point to a vertex. */
  function VertexDistance(dist: (real, real, real, real) -> real, lat: real, lng: real, v: Vertex): real
  {
    dist(lat, lng, v.lat, v.lon)
  }

  /** Distances from the clicked point to the vertices of one way, in order. */
  function WayDistances(dist: (real, real, real, real) -> real, lat: real, lng: real, way: seq<Vertex>): seq<real>
  {
    seq(|way|, j requires 0 <= j < |way| => VertexDistance(dist, lat, lng, way[j]))
  }

  /** Distances to every vertex of every way, in the order the nested loop visits them. */
  function AllDistances(dist: (real, real, real, real) -> real, lat: real, lng: real,
                        ways: seq<seq<Vertex>>): seq<real>
  {
    if ways == [] then []
    else AllDistances(dist, lat, lng, ways[..|ways| - 1]) + WayDistances(dist, lat, lng, ways[|ways| - 1])
  }

  /** Every vertex of every way has its distance listed. */
  lemma {:induction false} AllDistancesCover(dist: (real, real, real, real) -> real, lat: real, lng: real,
                                            ways: seq<seq<Vertex>>, k: nat, j: nat)
    requires k < |ways| && j < |ways[k]|
    ensures VertexDistance(dist, lat, lng, ways[k][j]) in AllDistances(dist, lat, lng, ways)
  {
    var init := ways[..|ways| - 1];
    var wd := WayDistances(dist, lat, lng, ways[|ways| - 1]);
    if k < |ways| - 1 {
      assert init[k] == ways[k];
      AllDistancesCover(dist, lat, lng, init, k, j);
    } else {
      assert wd[j] == VertexDistance(dist, lat, lng, ways[k][j]);
    }
  }

  /** Every listed distance is the distance to some vertex of some way. */
  lemma {:induction false} AllDistancesFromVertices(dist: (real, real, real, real) -> real, lat: real, lng: real,
                                                   ways: seq<seq<Vertex>>, i: nat)
    requires i < |AllDistances(dist, lat, lng, ways)|
    ensures exists k, j ::
      && 0 <= k < |ways| && 0 <= j < |ways[k]|
      && AllDistances(dist, lat, lng, ways)[i] == VertexDistance(dist, lat, lng, ways[k][j])
  {
    var init := ways[..|ways| - 1];
    var last := ways[|ways| - 1];
    var before := AllDistances(dist, lat, lng, init);
    var ds := AllDistances(dist, lat, lng, ways);
    if i < |before| {
      AllDistancesFromVertices(dist, lat, lng, init, i);
      var k, j :| 0 <= k < |init| && 0 <= j < |init[k]| && before[i] == VertexDistance(dist, lat, lng, init[k][j]);
      assert init[k] == ways[k];
      assert ds[i] == before[i];
    } else {
      var j := i - |before|;
      assert ds[i] == WayDistances(dist, lat, lng, last)[j];
      assert ds[i] == VertexDistance(dist, lat, lng, ways[|ways| - 1][j]);
    }
  }

  /** No distance is listed exactly when every way is empty. */
  lemma {:induction false} AllDistancesEmpty(dist: (real, real, real, real) -> real, lat: real, lng: real,
                                            ways: seq<seq<Vertex>>)
    ensures AllDistances(dist, lat, lng, ways) == [] <==> forall k :: 0 <= k < |ways| ==> ways[k] == []
  {
    if ways != [] {
      var init := ways[..|ways| - 1];
      AllDistancesEmpty(dist, lat, lng, init);
      assert forall k :: 0 <= k < |init| ==> init[k] == ways[k];
    }
  }

  /** Taking one more way appends its distances. */
  lemma AllDistancesSnoc(dist: (real, real, real, real) -> real, lat: real, lng: real,
                         ways: seq<seq<Vertex>>, k: nat)
    requires k < |ways|
    ensures AllDistances(dist, lat, lng, ways[..k + 1])
         == AllDistances(dist, lat, lng, ways[..k]) + WayDistances(dist, lat, lng, ways[k])
  {
    assert ways[..k + 1][..k] == ways[..k];
  }

  /** Taking one more vertex appends its distance. */
  lemma WayDistancesSnoc(dist: (real, real, real, real) -> real, lat: real, lng: real,
                         way: seq<Vertex>, j: nat)
    requires j < |way|
    ensures WayDistances(dist, lat, lng, way[..j + 1])
         == WayDistances(dist, lat, lng, way[..j]) + [VertexDistance(dist, lat, lng, way[j])]
  {
  }

  /** `minDistance`: Infinity until a first distance is seen. */
  datatype MinDistance = Infinity | Finite(km: real)

  /** `d < minDistance`. */
  predicate Below(d: real, m: MinDistance)
  {
    m.Infinity? || d < m.km
  }

  /** The value `minDistance` has after the loop has seen `ds`: the least of them. */
  function MinSoFar(ds: seq<real>): MinDistance
  {
    if ds == [] then Infinity
    else
      var m := MinSoFar(ds[..|ds| - 1]);
      if Below(ds[|ds| - 1], m) then Finite(ds[|ds| - 1]) else m
  }

  /** After the loop, `minDistance` is Infinity exactly when nothing was
      seen, and otherwise one of the distances seen and no larger than any. */
  lemma {:induction false} MinSoFarIsLeast(ds: seq<real>)
    ensures MinSoFar(ds) == Infinity <==> ds == []
    ensures MinSoFar(ds).Finite? ==>
      && (exists k :: 0 <= k < |ds| && MinSoFar(ds).km == ds[k])
      && forall k :: 0 <= k < |ds| ==> MinSoFar(ds).km <= ds[k]
  {
    if ds != [] {
      var init := ds[..|ds| - 1];
      MinSoFarIsLeast(init);
      assert forall k :: 0 <= k < |init| ==> ds[k] == init[k];
      if MinSoFar(init).Finite? {
        var k :| 0 <= k < |init| && MinSoFar(init).km == init[k];
        assert ds[k] == init[k];
      }
    }
  }

  /** One more distance: the least so far is replaced when the new one is below it. */
  lemma MinSoFarSnoc(ds: seq<real>, d: real)
    ensures MinSoFar(ds + [d]) == if Below(d, MinSoFar(ds)) then Finite(d) else MinSoFar(ds)
  {
    assert (ds + [d])[..|ds|] == ds;
  }

  /** The nested loop over the ways and their vertices. */
  method NearestVertexDistance(dist: (real, real, real, real) -> real, lat: real, lng: real,
                               ways: seq<seq<Vertex>>) returns (minDistance: MinDistance)
    ensures minDistance == MinSoFar(AllDistances(dist, lat, lng, ways))
  {
    minDistance := Infinity;
    var k := 0;
    while k < |ways|
      invariant 0 <= k <= |ways|
      invariant minDistance == MinSoFar(AllDistances(dist, lat, lng, ways[..k]))
    {
      var way := ways[k];
      ghost var before := AllDistances(dist, lat, lng, ways[..k]);
      var j := 0;
      assert before + WayDistances(dist, lat, lng, way[..0]) == before;
      while j < |way|
        invariant 0 <= j <= |way|
        invariant minDistance == MinSoFar(before + WayDistances(dist, lat, lng, way[..j]))
      {
        var d := dist(lat, lng, way[j].lat, way[j].lon);
        MinSoFarVertexStep(dist, lat, lng, before, way, j);
        if Below(d, minDistance) {
          minDistance := Finite(d);
        }
        j := j + 1;
      }
      MinSoFarWayStep(dist, lat, lng, ways, k);
      k := k + 1;
    }
    assert ways[..k] == ways;
  }

  /** One more vertex of the current way: the running minimum moves to its
      distance exactly when that distance is below it. */
  lemma MinSoFarVertexStep(dist: (real, real, real, real) -> real, lat: real, lng: real,
                           before: seq<real>, way: seq<Vertex>, j: nat)
    requires j < |way|
    ensures var m := MinSoFar(before + WayDistances(dist, lat, lng, way[..j]));
      var d := dist(lat, lng, way[j].lat, way[j].lon);
      MinSoFar(before + WayDistances(dist, lat, lng, way[..j + 1]))
        == if Below(d, m) then Finite(d) else m
  {
    var seen := before + WayDistances(dist, lat, lng, way[..j]);
    var d := dist(lat, lng, way[j].lat, way[j].lon);
    WayDistancesSnoc(dist, lat, lng, way, j);
    assert before + WayDistances(dist, lat, lng, way[..j + 1]) == seen + [d];
    MinSoFarSnoc(seen, d);
  }

  /** A way whose every vertex has been seen: the distances seen so far are
      those of the first k + 1 ways. */
  lemma MinSoFarWayStep(dist: (real, real, real, real) -> real, lat: real, lng: real,
                        ways: seq<seq<Vertex>>, k: nat)
    requires k < |ways|
    ensures AllDistances(dist, lat, lng, ways[..k]) + WayDistances(dist, lat, lng, ways[k][..|ways[k]|])
         == AllDistances(dist, lat, lng, ways[..k + 1])
  {
    assert ways[k][..|ways[k]|] == ways[k];
    AllDistancesSnoc(dist, lat, lng, ways, k);
  }

  /** What the distance-to-sea field becomes: the sentinel when the query
      failed or found no vertex, otherwise the least vertex distance with one
      decimal. */
  function CoastDistanceOf(coastOk: bool, elements: seq<OverpassElement>,
                           dist: (real, real, real, real) -> real, lat: real, lng: real): CoastDistance
  {
    if !coastOk then MoreThan100
    else match MinSoFar(AllDistances(dist, lat, lng, Ways(elements)))
      case Infinity => MoreThan100
      case Finite(m) => Km(ToFixed(m, 1))
  }

  /** The sentinel appears exactly when the query failed or no way with a
      geometry holds a vertex; otherwise the field is the distance to some
      vertex, no farther than any other vertex, shown with one decimal. */
  lemma CoastDistanceIsNearestVertex(coastOk: bool, elements: seq<OverpassElement>,
                                     dist: (real, real, real, real) -> real, lat: real, lng: real)
    ensures var ways := Ways(elements);
      && (CoastDistanceOf(coastOk, elements, dist, lat, lng) == MoreThan100
          <==> !coastOk || forall k :: 0 <= k < |ways| ==> ways[k] == [])
      && (CoastDistanceOf(coastOk, elements, dist, lat, lng).Km? ==>
            var m := MinSoFar(AllDistances(dist, lat, lng, ways)).km;
            && CoastDistanceOf(coastOk, elements, dist, lat, lng).value == ToFixed(m, 1)
            && (forall k, j :: 0 <= k < |ways| && 0 <= j < |ways[k]| ==>
                  m <= VertexDistance(dist, lat, lng, ways[k][j]))
            && (exists k, j :: 0 <= k < |ways| && 0 <= j < |ways[k]| &&
                  m == VertexDistance(dist, lat, lng, ways[k][j])))
  {
    CoastSentinelExactly(coastOk, elements, dist, lat, lng);
    if CoastDistanceOf(coastOk, elements, dist, lat, lng).Km? {
      CoastValueIsNearest(elements, dist, lat, lng);
    }
  }

  lemma CoastSentinelExactly(coastOk: bool, elements: seq<OverpassElement>,
                             dist: (real, real, real, real) -> real, lat: real, lng: real)
    ensures var ways := Ways(elements);
      (CoastDistanceOf(coastOk, elements, dist, lat, lng) == MoreThan100)
        <==> (!coastOk || forall k :: 0 <= k < |ways| ==> ways[k] == [])
  {
    var ways := Ways(elements);
    var ds := AllDistances(dist, lat, lng, ways);
    MinSoFarIsLeast(ds);
    AllDistancesEmpty(dist, lat, lng, ways);
    var c := CoastDistanceOf(coastOk, elements, dist, lat, lng);
    if coastOk && ds != [] {
      assert MinSoFar(ds).Finite?;
      assert c.Km?;
      var k :| 0 <= k < |ways| && ways[k] != [];
    }
  }

  lemma CoastValueIsNearest(elements: seq<OverpassElement>,
                            dist: (real, real, real, real) -> real, lat: real, lng: real)
    requires CoastDistanceOf(true, elements, dist, lat, lng).Km?
    ensures var ways := Ways(elements);
      var m := MinSoFar(AllDistances(dist, lat, lng, ways)).km;
      && CoastDistanceOf(true, elements, dist, lat, lng).value == ToFixed(m, 1)
      && (forall k, j :: 0 <= k < |ways| && 0 <= j < |ways[k]| ==>
            m <= VertexDistance(dist, lat, lng, ways[k][j]))
      && (exists k, j :: 0 <= k < |ways| && 0 <= j < |ways[k]| &&
            m == VertexDistance(dist, lat, lng, ways[k][j]))
  {
    var ways := Ways(elements);
    var ds := AllDistances(dist, lat, lng, ways);
    var mm := MinSoFar(ds);
    MinSoFarIsLeast(ds);
    assert mm.Finite?;
    forall k, j | 0 <= k < |ways| && 0 <= j < |ways[k]|
      ensures mm.km <= VertexDistance(dist, lat, lng, ways[k][j])
    {
      AllDistancesCover(dist, lat, lng, ways, k, j);
      var idx :| 0 <= idx < |ds| && ds[idx] == VertexDistance(dist, lat, lng, ways[k][j]);
      assert mm.km <= ds[idx];
    }
    var idx :| 0 <= idx < |ds| && mm.km == ds[idx];
    AllDistancesFromVertices(dist, lat, lng, ways, idx);
  }

  /** The coastline part of the click handler. */
  method DistanceToCoast(coastOk: bool, elements: seq<OverpassElement>,
                         dist: (real, real, real, real) -> real, lat: real, lng: real)
    returns (distanceToCoast: CoastDistance)
    ensures distanceToCoast == CoastDistanceOf(coastOk, elements, dist, lat, lng)
  {
    distanceToCoast := MoreThan100;
    if coastOk {
      var ways := Ways(elements);
      var minDistance := NearestVertexDistance(dist, lat, lng, ways);
      if minDistance.Finite? {
        distanceToCoast := Km(ToFixed(minDistance.km, 1));
      }
    }
  }

  // ---------------------------------------------------------------------
  // A click on the map
  // ---------------------------------------------------------------------

  /** A remote answer: the request or the reading of its body failed
      (Rejected), or it arrived with an ok flag and a body. */
  datatype Fetched<T> = Rejected | Replied(ok: bool, body: T)

  /** A click either selects a new site or ends in the alert. */
  datatype ClickOutcome = Selected(site: Site) | Alerted

  /** The click handler: the climatology must arrive with ok, or the click
      ends in the alert; the coastline query must arrive, but an answer
      without ok only leaves the sentinel. */
  method HandleMapClick(lat: real, lng: real,
                        climatology: Fetched<seq<ClimatologyEntry>>,
                        coastline: Fetched<seq<OverpassElement>>,
                        dist: (real, real, real, real) -> real)
    returns (outcome: ClickOutcome)
    ensures (climatology.Rejected? || !climatology.ok || coastline.Rejected?) <==> outcome == Alerted
    ensures outcome.Selected? ==>
      outcome.site == Site(Coordinates(ToFixed(lat, 3), ToFixed(lng, 3)), lat, lng,
                           MonthlyFromDaily(climatology.body),
                           CoastDistanceOf(coastline.ok, coastline.body, dist, lat, lng),
                           None)
  {
    if climatology.Rejected? || !climatology.ok {
      return Alerted;
    }
    var monthly := MonthlyFromClimatology(climatology.body);
    if coastline.Rejected? {
      return Alerted;
    }
    var distanceToCoast := DistanceToCoast(coastline.ok, coastline.body, dist, lat, lng);
    outcome := Selected(Site(Coordinates(ToFixed(lat, 3), ToFixed(lng, 3)), lat, lng,
                             monthly, distanceToCoast, None));
  }

  /** The map view's one piece of state: the site whose details are shown. */
  class MapViewState {
    var selected: Option<Site>

    constructor ()
      ensures selected == None
    {
      selected := None;
    }

    /** Clicking the marker of catalog site `index`. */
    method SelectPlace(index: nat)
      requires index < |SunnyPlaces|
      modifies this
      ensures selected == Some(SunnyPlaces[index])
    {
      selected := Some(SunnyPlaces[index]);
    }

    /** Clicking the map: a successful lookup replaces the selection, an
        alert leaves the previous one in place. */
    method ClickMap(lat: real, lng: real,
                    climatology: Fetched<seq<ClimatologyEntry>>,
                    coastline: Fetched<seq<OverpassElement>>,
                    dist: (real, real, real, real) -> real)
      modifies this
      ensures (climatology.Rejected? || !climatology.ok || coastline.Rejected?) ==>
        selected == old(selected)
      ensures climatology.Replied? && climatology.ok && coastline.Replied? ==>
        selected == Some(Site(Coordinates(ToFixed(lat, 3), ToFixed(lng, 3)), lat, lng,
                              MonthlyFromDaily(climatology.body),
                              CoastDistanceOf(coastline.ok, coastline.body, dist, lat, lng),
                              None))
    {
      var outcome := HandleMapClick(lat, lng, climatology, coastline, dist);
      if outcome.Selected? {
        selected := Some(outcome.site);
      }
    }
  }
}
