/**
  The pothole density heatmap of app/screens/PotHoleHeatMap.js.

  Geotagged pothole reports and a reference location become a fixed 10 x 10
  grid of integer intensities: the reports within the search radius that match
  the severity filter are selected, the grid centres are laid out with the flat
  "1 degree is about 111 km" rule, every cell sums a severity-weighted
  contribution that falls off with distance, the sum is rounded and capped at
  100, and the intensity is mapped to one of six colour bands. A summary of
  counts feeds the headline cards.

  Coordinates and intensities are exact reals. The haversine distance is not
  computed here: every operation takes it as the parameter `dist`, so what is
  proved holds for any distance function. The random numbers of the demo
  branch are the parameter `rand`.
*/
module PotHoleHeatMap {
  import opened Optional
  import opened Sequences

  // ---------------------------------------------------------------------------
  // Data model
  // ---------------------------------------------------------------------------

  /**
    A report's severity. The source stores it as the string tag 'high',
    'medium' or 'low'; `Other` carries any other tag. Reports and filters hold
    a `ReportSeverity`, whose `Other` tag is never one of those three.
  */
  datatype Severity = High | Medium | Low | Other(tag: string)

  /** The severity filter: the source's `filterMode`, either 'all' or a severity tag. */
  datatype SeverityFilter = All | Only(level: ReportSeverity)

  /** A pothole report: position in degrees, severity and the number of reports. */
  datatype Report = Report(id: int, lat: real, lng: real, severity: ReportSeverity, reports: int)

  /** The reference location in degrees. */
  datatype Coords = Coords(latitude: real, longitude: real)

  /** One grid cell as the heatmap stores it. */
  datatype Cell = Cell(id: string, row: int, col: int, intensity: int, lat: real, lng: real)

  /** The headline counts shown in the summary cards. */
  datatype Summary = Summary(total: int, high: int, medium: int, low: int, filtered: bool)

  /** The great-circle distance in km between (lat1, lon1) and (lat2, lon2). */
  type DistanceFn = (real, real, real, real) -> real

  /** `rand(row, col, n)` is the n-th value `Math.random()` gives while cell (row, col) is built. */
  type RandomDraws = (int, int, int) -> real

  const GridSize: int := 10
  const KmPerDegree: real := 111.0
  const InfluenceKm: real := 0.2
  const MinDivisorKm: real := 0.01
  const IntensityCap: int := 100

  // ---------------------------------------------------------------------------
  // Severity tags and the multiplier
  // ---------------------------------------------------------------------------

  /** The string tag the source stores for a severity. */
  function SeverityTag(s: Severity): string {
    match s
    case High => "high"
    case Medium => "medium"
    case Low => "low"
    case Other(t) => t
  }

  /** A severity whose `Other` tag is not one of the three known tags. */
  predicate CanonicalSeverity(s: Severity) {
    s.Other? ==> s.tag != "high" && s.tag != "medium" && s.tag != "low"
  }

  /** The severities a report or a filter can carry: those that some tag reads to. */
  type ReportSeverity = s: Severity | CanonicalSeverity(s) witness High

  /** Reads a severity tag; every tag is read back to itself. */
  function ParseSeverity(tag: string): (s: Severity)
    ensures SeverityTag(s) == tag
    ensures CanonicalSeverity(s)
  {
    if tag == "high" then High
    else if tag == "medium" then Medium
    else if tag == "low" then Low
    else Other(tag)
  }

  /** Reading the tag of a canonical severity gives the severity back. */
  lemma ParseSeverityTag(s: Severity)
    requires CanonicalSeverity(s)
    ensures ParseSeverity(SeverityTag(s)) == s
  {
  }

  /** Reads the filter mode: 'all' selects every severity, any other tag one severity. */
  function ParseFilter(mode: string): (f: SeverityFilter)
    ensures f.All? <==> mode == "all"
    ensures f.Only? ==> SeverityTag(f.level) == mode
  {
    if mode == "all" then All else Only(ParseSeverity(mode))
  }

  /**
    The weight of a report's severity (PotHoleHeatMap.js `getSeverityMultiplier`),
    stated on the source's string tags: 'high' weighs 3, 'medium' 2, 'low' 1
    and every other tag falls to the default 1.
  */
  function SeverityMultiplier(s: Severity): (m: int)
    ensures 1 <= m <= 3
  {
    match s
    case High => 3
    case Medium => 2
    case Low => 1
    case Other(_) => 1
  }

  lemma MultiplierOfTag(tag: string)
    ensures SeverityMultiplier(ParseSeverity(tag)) ==
      if tag == "high" then 3 else if tag == "medium" then 2 else 1
  {
  }

  // ---------------------------------------------------------------------------
  // Selection of the reports within the radius that match the filter
  // ---------------------------------------------------------------------------

  /** The report matches the filter: `filterMode === 'all' || pothole.severity === filterMode`. */
  function MatchesFilter(filter: SeverityFilter): Report -> bool {
    (p: Report) => filter.All? || p.severity == filter.level
  }

  /** Matching on parsed values is the source's comparison of string tags. */
  lemma MatchesFilterOnTags(mode: string, tag: string, p: Report)
    requires p.severity == ParseSeverity(tag)
    ensures MatchesFilter(ParseFilter(mode))(p) <==> (mode == "all" || tag == mode)
  {
    if mode != "all" {
      assert SeverityTag(ParseSeverity(tag)) == tag;
      assert SeverityTag(ParseSeverity(mode)) == mode;
    }
  }

  /** The report lies within `radiusKm` of the origin. */
  function WithinRadius(origin: Coords, radiusKm: real, dist: DistanceFn): Report -> bool {
    (p: Report) => dist(origin.latitude, origin.longitude, p.lat, p.lng) <= radiusKm
  }

  /** The report lies within the radius and matches the filter. */
  function Selected(origin: Coords, radiusKm: real, filter: SeverityFilter, dist: DistanceFn): Report -> bool {
    (p: Report) => WithinRadius(origin, radiusKm, dist)(p) && MatchesFilter(filter)(p)
  }

  /** The reports the heatmap aggregates: those within the radius that match the filter. */
  function FilterReports(reports: seq<Report>, origin: Coords, radiusKm: real, filter: SeverityFilter,
                         dist: DistanceFn): (r: seq<Report>)
    ensures |r| <= |reports|
    ensures forall p :: p in r <==>
      p in reports
      && dist(origin.latitude, origin.longitude, p.lat, p.lng) <= radiusKm
      && (filter.All? || p.severity == filter.level)
  {
    assert forall p :: Selected(origin, radiusKm, filter, dist)(p) <==>
      WithinRadius(origin, radiusKm, dist)(p) && MatchesFilter(filter)(p);
    Keep(reports, Selected(origin, radiusKm, filter, dist))
  }

  /** The selection keeps input order: the selected reports of a prefix come first. */
  lemma FilterReportsInOrder(a: seq<Report>, b: seq<Report>, origin: Coords, radiusKm: real,
                             filter: SeverityFilter, dist: DistanceFn)
    ensures FilterReports(a + b, origin, radiusKm, filter, dist)
         == FilterReports(a, origin, radiusKm, filter, dist) + FilterReports(b, origin, radiusKm, filter, dist)
  {
    KeepAppend(a, b, Selected(origin, radiusKm, filter, dist));
  }

  // ---------------------------------------------------------------------------
  // Grid layout
  // ---------------------------------------------------------------------------

  /** Half the side of the covered square, in degrees. */
  function RadiusInDegrees(radiusKm: real): real {
    radiusKm / KmPerDegree
  }

  /** The distance in degrees between neighbouring cell centres. */
  function GridStep(radiusKm: real): real {
    (RadiusInDegrees(radiusKm) * 2.0) / GridSize as real
  }

  /** The centre coordinate of row (or column) `index`, starting half a square below the origin. */
  function GridCoordinate(origin: real, radiusKm: real, index: int): real {
    origin - RadiusInDegrees(radiusKm) + index as real * GridStep(radiusKm)
  }

  /**
    The centres are evenly spaced, the first sits `radiusKm / 111` degrees below
    the origin, and index 5 sits exactly on the origin.
  */
  lemma GridCoordinates(origin: real, radiusKm: real, index: int)
    ensures GridCoordinate(origin, radiusKm, 0) == origin - radiusKm / 111.0
    ensures GridCoordinate(origin, radiusKm, 5) == origin
    ensures GridCoordinate(origin, radiusKm, index + 1) - GridCoordinate(origin, radiusKm, index) == radiusKm / 555.0
  {
  }

  function Digit(d: int): char
    requires 0 <= d < 10
  {
    ('0' as int + d) as char
  }

  /** The cell key `${row}-${col}`; rows and columns are single digits. */
  function CellId(row: int, col: int): (id: string)
    requires 0 <= row < GridSize && 0 <= col < GridSize
    ensures |id| == 3 && id[1] == '-'
  {
    [Digit(row), '-', Digit(col)]
  }

  /** Different cells have different keys. */
  lemma CellIdInjective(r1: int, c1: int, r2: int, c2: int)
    requires 0 <= r1 < GridSize && 0 <= c1 < GridSize
    requires 0 <= r2 < GridSize && 0 <= c2 < GridSize
    ensures CellId(r1, c1) == CellId(r2, c2) ==> r1 == r2 && c1 == c2
  {
    if CellId(r1, c1) == CellId(r2, c2) {
      assert CellId(r1, c1)[0] == CellId(r2, c2)[0];
      assert CellId(r1, c1)[2] == CellId(r2, c2)[2];
    }
  }

  // ---------------------------------------------------------------------------
  // Density aggregation
  // ---------------------------------------------------------------------------

  /** `Math.max` on two reals. */
  function Max(a: real, b: real): (m: real)
    ensures m >= a && m >= b && (m == a || m == b)
  {
    if a >= b then a else b
  }

  /**
    What one report adds to a cell: reports x multiplier divided by
    max(d + 0.01, 0.01) when the report is within 0.2 km, nothing otherwise.
  */
  function Contribution(p: Report, cellLat: real, cellLng: real, dist: DistanceFn): (c: real)
    ensures dist(cellLat, cellLng, p.lat, p.lng) > InfluenceKm ==> c == 0.0
    ensures dist(cellLat, cellLng, p.lat, p.lng) == 0.0 ==>
      c == (p.reports * SeverityMultiplier(p.severity)) as real / MinDivisorKm
    ensures p.reports >= 0 ==> c >= 0.0
  {
    var d := dist(cellLat, cellLng, p.lat, p.lng);
    if d <= InfluenceKm then
      (p.reports * SeverityMultiplier(p.severity)) as real / Max(d + MinDivisorKm, MinDivisorKm)
    else 0.0
  }

  /** The running total of the `forEach` loop after visiting the reports of `ps` in order. */
  function Accumulate(ps: seq<Report>, cellLat: real, cellLng: real, dist: DistanceFn): real
    decreases |ps|
  {
    if ps == [] then 0.0
    else Accumulate(ps[..|ps| - 1], cellLat, cellLng, dist) + Contribution(ps[|ps| - 1], cellLat, cellLng, dist)
  }

  lemma {:induction false} AccumulateAppend(a: seq<Report>, b: seq<Report>, cellLat: real, cellLng: real,
                                            dist: DistanceFn)
    ensures Accumulate(a + b, cellLat, cellLng, dist)
         == Accumulate(a, cellLat, cellLng, dist) + Accumulate(b, cellLat, cellLng, dist)
    decreases |b|
  {
    if b == [] {
      assert a + b == a;
    } else {
      var b' := b[..|b| - 1];
      assert (a + b)[..|a + b| - 1] == a + b';
      assert (a + b)[|a + b| - 1] == b[|b| - 1];
      AccumulateAppend(a, b', cellLat, cellLng, dist);
    }
  }

  /** The total does not depend on the order in which the reports are visited. */
  lemma {:induction false} AccumulatePermutation(s: seq<Report>, t: seq<Report>, cellLat: real, cellLng: real,
                                                 dist: DistanceFn)
    requires multiset(s) == multiset(t)
    ensures Accumulate(s, cellLat, cellLng, dist) == Accumulate(t, cellLat, cellLng, dist)
    decreases |s|
  {
    if s == [] {
      assert |t| == |multiset(t)| == 0;
    } else {
      var x := s[|s| - 1];
      var s' := s[..|s| - 1];
      assert s == s' + [x];
      assert x in multiset(t);
      var i :| 0 <= i < |t| && t[i] == x;
      var t1, t2 := t[..i], t[i + 1..];
      assert t == t1 + [x] + t2;
      RemoveFromBoth(s', t1, x, t2);
      AccumulatePermutation(s', t1 + t2, cellLat, cellLng, dist);
      AccumulateAppend(t1, t2, cellLat, cellLng, dist);
      AccumulateAppend(t1 + [x], t2, cellLat, cellLng, dist);
      AccumulateAppend(t1, [x], cellLat, cellLng, dist);
      assert Accumulate([x], cellLat, cellLng, dist) == Contribution(x, cellLat, cellLng, dist) by {
        assert [x][..0] == [];
      }
    }
  }

  /** With non-negative report counts every contribution, and so the total, is non-negative. */
  lemma {:induction false} AccumulateNonNegative(ps: seq<Report>, cellLat: real, cellLng: real, dist: DistanceFn)
    requires forall p :: p in ps ==> p.reports >= 0
    ensures Accumulate(ps, cellLat, cellLng, dist) >= 0.0
    decreases |ps|
  {
    if ps != [] {
      var p := ps[|ps| - 1];
      AccumulateNonNegative(ps[..|ps| - 1], cellLat, cellLng, dist);
      var d := dist(cellLat, cellLng, p.lat, p.lng);
      if d <= InfluenceKm {
        ContributionNonNegative(p.reports * SeverityMultiplier(p.severity), Max(d + MinDivisorKm, MinDivisorKm));
      }
    }
  }

  lemma ContributionNonNegative(weight: int, divisor: real)
    requires weight >= 0 && divisor >= MinDivisorKm
    ensures weight as real / divisor >= 0.0
  {
  }

  /** Dividing a non-negative weight by a larger positive divisor gives no more. */
  lemma DivideAntitone(w: real, m1: real, m2: real)
    requires w >= 0.0 && 0.0 < m1 <= m2
    ensures w / m1 >= w / m2
  {
    assert (w / m1) * m1 == w;
    assert (w / m2) * m2 == w;
    assert (w / m2) * m1 <= (w / m2) * m2;
  }

  /**
    The nearer cell gets at least as much from a report: the divisor
    max(d + 0.01, 0.01) grows with the distance, and beyond 0.2 km the report
    adds nothing.
  */
  lemma ContributionDecays(p: Report, lat1: real, lng1: real, lat2: real, lng2: real, dist: DistanceFn)
    requires p.reports >= 0
    requires dist(lat1, lng1, p.lat, p.lng) <= dist(lat2, lng2, p.lat, p.lng)
    ensures Contribution(p, lat1, lng1, dist) >= Contribution(p, lat2, lng2, dist)
  {
    var d1, d2 := dist(lat1, lng1, p.lat, p.lng), dist(lat2, lng2, p.lat, p.lng);
    if d2 <= InfluenceKm {
      var w := (p.reports * SeverityMultiplier(p.severity)) as real;
      DivideAntitone(w, Max(d1 + MinDivisorKm, MinDivisorKm), Max(d2 + MinDivisorKm, MinDivisorKm));
    }
  }

  /** Reports more than 0.2 km from the cell add nothing. */
  lemma {:induction false} AccumulateFar(ps: seq<Report>, cellLat: real, cellLng: real, dist: DistanceFn)
    requires forall p :: p in ps ==> dist(cellLat, cellLng, p.lat, p.lng) > InfluenceKm
    ensures Accumulate(ps, cellLat, cellLng, dist) == 0.0
    decreases |ps|
  {
    if ps != [] {
      AccumulateFar(ps[..|ps| - 1], cellLat, cellLng, dist);
    }
  }

  /** One report at distance 0 with a positive count alone pushes the total to at least 100. */
  lemma {:induction false} AccumulateSaturates(ps: seq<Report>, k: int, cellLat: real, cellLng: real,
                                               dist: DistanceFn)
    requires 0 <= k < |ps|
    requires forall p :: p in ps ==> p.reports >= 0
    requires ps[k].reports >= 1
    requires dist(cellLat, cellLng, ps[k].lat, ps[k].lng) == 0.0
    ensures Accumulate(ps, cellLat, cellLng, dist) >= 100.0
    decreases |ps|
  {
    var last := ps[|ps| - 1];
    var init := ps[..|ps| - 1];
    if k == |ps| - 1 {
      AccumulateNonNegative(init, cellLat, cellLng, dist);
      var w := last.reports * SeverityMultiplier(last.severity);
      assert w >= 1;
      assert Contribution(last, cellLat, cellLng, dist) == w as real / 0.01;
    } else {
      assert init[k] == ps[k];
      AccumulateSaturates(init, k, cellLat, cellLng, dist);
      var d := dist(cellLat, cellLng, last.lat, last.lng);
      if d <= InfluenceKm {
        ContributionNonNegative(last.reports * SeverityMultiplier(last.severity), Max(d + MinDivisorKm, MinDivisorKm));
      }
    }
  }

  /** `Math.round`: the nearest integer, halves rounded up. */
  function Round(x: real): (n: int)
    ensures n as real - 0.5 <= x < n as real + 0.5
  {
    (x + 0.5).Floor
  }

  /** `Math.min(n, 100)`. */
  function Cap(n: int): (c: int)
    ensures c <= IntensityCap
    ensures c == n || (n > IntensityCap && c == IntensityCap)
  {
    if n < IntensityCap then n else IntensityCap
  }

  /**
    The cell's intensity before rounding. With no selected report the source
    draws demo values: with probability 0.4 a value below 80, otherwise a
    fixed ramp in the 3 x 3 top-left corner; everywhere else the accumulated
    contributions.
  */
  function RawIntensity(selected: seq<Report>, row: int, col: int, cellLat: real, cellLng: real,
                        dist: DistanceFn, rand: RandomDraws): (raw: real)
    ensures selected != [] ==> raw == Accumulate(selected, cellLat, cellLng, dist)
    ensures selected == [] && 0 <= row && 0 <= col && 0.0 <= rand(row, col, 1) < 1.0 ==> 0.0 <= raw < 80.0
  {
    if |selected| == 0 && rand(row, col, 0) > 0.6 then rand(row, col, 1) * 80.0
    else if |selected| == 0 && row < 3 && col < 3 then (row + col) as real * 10.0 + rand(row, col, 1) * 20.0
    else Accumulate(selected, cellLat, cellLng, dist)
  }

  /** The stored intensity: rounded and capped at 100. */
  function CellIntensity(selected: seq<Report>, row: int, col: int, cellLat: real, cellLng: real,
                         dist: DistanceFn, rand: RandomDraws): (v: int)
    ensures v <= IntensityCap
  {
    Cap(Round(RawIntensity(selected, row, col, cellLat, cellLng, dist, rand)))
  }

  /** The cell at (row, col) of the grid around `origin`. */
  function GridCell(origin: Coords, radiusKm: real, selected: seq<Report>, row: int, col: int,
                    dist: DistanceFn, rand: RandomDraws): (c: Cell)
    requires 0 <= row < GridSize && 0 <= col < GridSize
    ensures c.id == CellId(row, col) && c.row == row && c.col == col
    ensures c.lat == GridCoordinate(origin.latitude, radiusKm, row)
    ensures c.lng == GridCoordinate(origin.longitude, radiusKm, col)
    ensures c.intensity <= IntensityCap
  {
    var lat := GridCoordinate(origin.latitude, radiusKm, row);
    var lng := GridCoordinate(origin.longitude, radiusKm, col);
    Cell(CellId(row, col), row, col, CellIntensity(selected, row, col, lat, lng, dist, rand), lat, lng)
  }

  /** The whole heatmap: the 100 cells in row-major order. */
  function Heatmap(origin: Coords, radiusKm: real, filter: SeverityFilter, reports: seq<Report>,
                   dist: DistanceFn, rand: RandomDraws): (grid: seq<Cell>)
    ensures |grid| == GridSize * GridSize
  {
    var selected := FilterReports(reports, origin, radiusKm, filter, dist);
    seq(GridSize * GridSize, k requires 0 <= k < GridSize * GridSize =>
      GridCell(origin, radiusKm, selected, k / GridSize, k % GridSize, dist, rand))
  }

  /**
    The heatmap does not depend on the order of the input reports: the two
    selections are reorderings of each other, every cell's sum is then the
    same, and so is the demo branch, which looks only at whether the
    selection is empty.
  */
  lemma HeatmapIgnoresReportOrder(origin: Coords, radiusKm: real, filter: SeverityFilter,
                                  r1: seq<Report>, r2: seq<Report>, dist: DistanceFn, rand: RandomDraws)
    requires multiset(r1) == multiset(r2)
    ensures Heatmap(origin, radiusKm, filter, r1, dist, rand) == Heatmap(origin, radiusKm, filter, r2, dist, rand)
  {
    var sel1 := FilterReports(r1, origin, radiusKm, filter, dist);
    var sel2 := FilterReports(r2, origin, radiusKm, filter, dist);
    KeepMultiset(r1, r2, Selected(origin, radiusKm, filter, dist));
    assert |sel1| == |multiset(sel1)| == |multiset(sel2)| == |sel2|;
    var g1 := Heatmap(origin, radiusKm, filter, r1, dist, rand);
    var g2 := Heatmap(origin, radiusKm, filter, r2, dist, rand);
    forall k | 0 <= k < GridSize * GridSize
      ensures g1[k] == g2[k]
    {
      AccumulatePermutation(sel1, sel2, GridCoordinate(origin.latitude, radiusKm, k / GridSize),
                            GridCoordinate(origin.longitude, radiusKm, k % GridSize), dist);
    }
  }

  /** Cell (row, col) of the heatmap sits at index row * 10 + col. */
  lemma HeatmapAt(origin: Coords, radiusKm: real, filter: SeverityFilter, reports: seq<Report>,
                  dist: DistanceFn, rand: RandomDraws, row: int, col: int)
    requires 0 <= row < GridSize && 0 <= col < GridSize
    ensures Heatmap(origin, radiusKm, filter, reports, dist, rand)[row * GridSize + col]
         == GridCell(origin, radiusKm, FilterReports(reports, origin, radiusKm, filter, dist), row, col, dist, rand)
  {
    var k := row * GridSize + col;
    assert k / GridSize == row && k % GridSize == col;
  }

  /** The `forEach` over the selected reports that accumulates one cell's intensity. */
  method SumContributions(filtered: seq<Report>, gridLat: real, gridLng: real, dist: DistanceFn)
    returns (intensity: real)
    ensures intensity == Accumulate(filtered, gridLat, gridLng, dist)
  {
    intensity := 0.0;
    for n := 0 to |filtered|
      invariant intensity == Accumulate(filtered[..n], gridLat, gridLng, dist)
    {
      var pothole := filtered[n];
      var distance := dist(gridLat, gridLng, pothole.lat, pothole.lng);
      if distance <= InfluenceKm {
        var severityMultiplier := SeverityMultiplier(pothole.severity);
        intensity := intensity + (pothole.reports * severityMultiplier) as real
                                 / Max(distance + MinDivisorKm, MinDivisorKm);
      }
      assert filtered[..n + 1][..n] == filtered[..n];
    }
    assert filtered[..|filtered|] == filtered;
  }

  /**
    The body of the nested grid loops of `generateHeatmapData` for cell
    (row, col): its centre, the accumulated intensity, the demo branch when
    nothing is selected, and the rounded, capped record that is pushed.
  */
  method BuildCell(origin: Coords, radiusKm: real, filtered: seq<Report>, row: int, col: int,
                   dist: DistanceFn, rand: RandomDraws) returns (cell: Cell)
    requires 0 <= row < GridSize && 0 <= col < GridSize
    ensures cell == GridCell(origin, radiusKm, filtered, row, col, dist, rand)
  {
    var radiusInDegrees := radiusKm / KmPerDegree;
    var step := (radiusInDegrees * 2.0) / GridSize as real;
    var gridLat := origin.latitude - radiusInDegrees + (row as real * step);
    var gridLng := origin.longitude - radiusInDegrees + (col as real * step);
    var intensity := SumContributions(filtered, gridLat, gridLng, dist);
    if |filtered| == 0 && rand(row, col, 0) > 0.6 {
      intensity := rand(row, col, 1) * 80.0;
    } else if |filtered| == 0 && row < 3 && col < 3 {
      intensity := (row + col) as real * 10.0 + rand(row, col, 1) * 20.0;
    }
    assert intensity == RawIntensity(filtered, row, col, gridLat, gridLng, dist, rand);
    assert gridLat == GridCoordinate(origin.latitude, radiusKm, row);
    assert gridLng == GridCoordinate(origin.longitude, radiusKm, col);
    cell := Cell(CellId(row, col), row, col, Cap(Round(intensity)), gridLat, gridLng);
  }

  /**
    PotHoleHeatMap.js `generateHeatmapData`, with the radius, the filter, the
    reports, the distance and the random draws as parameters; the result is
    what the source hands to `setHeatmapData`.
  */
  method GenerateHeatmapData(origin: Coords, radiusKm: real, filter: SeverityFilter, reports: seq<Report>,
                             dist: DistanceFn, rand: RandomDraws) returns (heatmap: seq<Cell>)
    ensures heatmap == Heatmap(origin, radiusKm, filter, reports, dist, rand)
  {
    var filtered := FilterReports(reports, origin, radiusKm, filter, dist);
    ghost var spec := Heatmap(origin, radiusKm, filter, reports, dist, rand);
    heatmap := [];
    for i := 0 to GridSize
      invariant |heatmap| == i * GridSize
      invariant forall k :: 0 <= k < |heatmap| ==> heatmap[k] == spec[k]
    {
      for j := 0 to GridSize
        invariant |heatmap| == i * GridSize + j
        invariant forall k :: 0 <= k < |heatmap| ==> heatmap[k] == spec[k]
      {
        var cell := BuildCell(origin, radiusKm, filtered, i, j, dist, rand);
        HeatmapAt(origin, radiusKm, filter, reports, dist, rand, i, j);
        heatmap := heatmap + [cell];
      }
    }
  }

  // ---------------------------------------------------------------------------
  // Properties of the heatmap
  // ---------------------------------------------------------------------------

  /** Cell k has row k / 10, column k % 10, key "row-col" and the centre laid out by the grid rule. */
  lemma HeatmapLayout(origin: Coords, radiusKm: real, filter: SeverityFilter, reports: seq<Report>,
                      dist: DistanceFn, rand: RandomDraws, k: int)
    requires 0 <= k < GridSize * GridSize
    ensures var c := Heatmap(origin, radiusKm, filter, reports, dist, rand)[k];
      && c.row == k / GridSize && c.col == k % GridSize
      && c.id == CellId(k / GridSize, k % GridSize)
      && c.lat == origin.latitude - radiusKm / 111.0 + (k / GridSize) as real * GridStep(radiusKm)
      && c.lng == origin.longitude - radiusKm / 111.0 + (k % GridSize) as real * GridStep(radiusKm)
  {
  }

  /** Row-major order: each cell is followed by the next column, or by the first column of the next row. */
  lemma HeatmapRowMajor(origin: Coords, radiusKm: real, filter: SeverityFilter, reports: seq<Report>,
                        dist: DistanceFn, rand: RandomDraws, k: int)
    requires 0 <= k < GridSize * GridSize - 1
    ensures var g := Heatmap(origin, radiusKm, filter, reports, dist, rand);
      if g[k].col < GridSize - 1 then g[k + 1].row == g[k].row && g[k + 1].col == g[k].col + 1
      else g[k + 1].row == g[k].row + 1 && g[k + 1].col == 0
  {
  }

  /** No two cells share a key. */
  lemma HeatmapIdsDistinct(origin: Coords, radiusKm: real, filter: SeverityFilter, reports: seq<Report>,
                           dist: DistanceFn, rand: RandomDraws, k1: int, k2: int)
    requires 0 <= k1 < GridSize * GridSize && 0 <= k2 < GridSize * GridSize && k1 != k2
    ensures var g := Heatmap(origin, radiusKm, filter, reports, dist, rand); g[k1].id != g[k2].id
  {
    assert k1 == (k1 / GridSize) * GridSize + k1 % GridSize;
    assert k2 == (k2 / GridSize) * GridSize + k2 % GridSize;
    CellIdInjective(k1 / GridSize, k1 % GridSize, k2 / GridSize, k2 % GridSize);
  }

  /** Cell (5, 5), index 55, sits exactly on the reference point. */
  lemma HeatmapCentredCell(origin: Coords, radiusKm: real, filter: SeverityFilter, reports: seq<Report>,
                           dist: DistanceFn, rand: RandomDraws)
    ensures var c := Heatmap(origin, radiusKm, filter, reports, dist, rand)[55];
      c.row == 5 && c.col == 5 && c.lat == origin.latitude && c.lng == origin.longitude
  {
    GridCoordinates(origin.latitude, radiusKm, 5);
    GridCoordinates(origin.longitude, radiusKm, 5);
  }

  /** Draws of `Math.random()` lie in [0, 1). */
  ghost predicate ValidDraws(rand: RandomDraws) {
    forall row, col, n :: 0.0 <= rand(row, col, n) < 1.0
  }

  /**
    Every intensity is at most 100; it is at least 0 when no report has a
    negative count and the random draws lie in [0, 1).
  */
  lemma HeatmapIntensityBounds(origin: Coords, radiusKm: real, filter: SeverityFilter, reports: seq<Report>,
                               dist: DistanceFn, rand: RandomDraws, k: int)
    requires 0 <= k < GridSize * GridSize
    ensures Heatmap(origin, radiusKm, filter, reports, dist, rand)[k].intensity <= 100
    ensures (forall p :: p in reports ==> p.reports >= 0) && ValidDraws(rand) ==>
      Heatmap(origin, radiusKm, filter, reports, dist, rand)[k].intensity >= 0
  {
    var g := Heatmap(origin, radiusKm, filter, reports, dist, rand);
    var selected := FilterReports(reports, origin, radiusKm, filter, dist);
    if (forall p :: p in reports ==> p.reports >= 0) && ValidDraws(rand) {
      var row, col := k / GridSize, k % GridSize;
      var lat := GridCoordinate(origin.latitude, radiusKm, row);
      var lng := GridCoordinate(origin.longitude, radiusKm, col);
      AccumulateNonNegative(selected, lat, lng, dist);
      assert 0.0 <= rand(row, col, 1);
      assert RawIntensity(selected, row, col, lat, lng, dist, rand) >= 0.0;
      assert g[k].intensity == CellIntensity(selected, row, col, lat, lng, dist, rand);
    }
  }

  /**
    When some report is selected, a cell with no selected report within
    0.2 km of its centre has intensity 0.
  */
  lemma HeatmapFarCellIsZero(origin: Coords, radiusKm: real, filter: SeverityFilter, reports: seq<Report>,
                             dist: DistanceFn, rand: RandomDraws, k: int)
    requires 0 <= k < GridSize * GridSize
    requires FilterReports(reports, origin, radiusKm, filter, dist) != []
    requires var c := Heatmap(origin, radiusKm, filter, reports, dist, rand)[k];
      forall p :: p in FilterReports(reports, origin, radiusKm, filter, dist) ==>
        dist(c.lat, c.lng, p.lat, p.lng) > InfluenceKm
    ensures Heatmap(origin, radiusKm, filter, reports, dist, rand)[k].intensity == 0
  {
    var c := Heatmap(origin, radiusKm, filter, reports, dist, rand)[k];
    AccumulateFar(FilterReports(reports, origin, radiusKm, filter, dist), c.lat, c.lng, dist);
  }

  /**
    A selected report with a positive count at distance 0 from a cell's centre
    saturates that cell at 100 (all counts non-negative).
  */
  lemma HeatmapSaturatedCell(origin: Coords, radiusKm: real, filter: SeverityFilter, reports: seq<Report>,
                             dist: DistanceFn, rand: RandomDraws, k: int, p: Report)
    requires 0 <= k < GridSize * GridSize
    requires forall q :: q in reports ==> q.reports >= 0
    requires p in FilterReports(reports, origin, radiusKm, filter, dist) && p.reports >= 1
    requires var c := Heatmap(origin, radiusKm, filter, reports, dist, rand)[k];
      dist(c.lat, c.lng, p.lat, p.lng) == 0.0
    ensures Heatmap(origin, radiusKm, filter, reports, dist, rand)[k].intensity == 100
  {
    var c := Heatmap(origin, radiusKm, filter, reports, dist, rand)[k];
    var selected := FilterReports(reports, origin, radiusKm, filter, dist);
    var i :| 0 <= i < |selected| && selected[i] == p;
    AccumulateSaturates(selected, i, c.lat, c.lng, dist);
  }

  /**
    The worked example: one high-severity report of 15 at the reference point
    (28.6139, 77.2090), radius 1 km, no filter. The report is selected, and
    cell (5, 5), on the reference point, has intensity min(round(45 / 0.01), 100)
    = 100 and the top colour band.
  */
  lemma DelhiScenario(dist: DistanceFn, rand: RandomDraws)
    requires forall lat, lng :: dist(lat, lng, lat, lng) == 0.0
    ensures var origin := Coords(28.6139, 77.2090);
      var reports := [Report(1, 28.6139, 77.2090, High, 15)];
      && FilterReports(reports, origin, 1.0, All, dist) == reports
      && RawIntensity(reports, 5, 5, origin.latitude, origin.longitude, dist, rand) == 4500.0
      && Heatmap(origin, 1.0, All, reports, dist, rand)[55].intensity == 100
      && HeatmapColor(Heatmap(origin, 1.0, All, reports, dist, rand)[55].intensity) == "#FCA5A5"
  {
    var origin := Coords(28.6139, 77.2090);
    var p := Report(1, 28.6139, 77.2090, High, 15);
    var reports := [p];
    assert dist(origin.latitude, origin.longitude, p.lat, p.lng) == 0.0;
    assert FilterReports(reports, origin, 1.0, All, dist) == reports by {
      KeepSingleton(p, Selected(origin, 1.0, All, dist));
    }
    assert Accumulate(reports, origin.latitude, origin.longitude, dist) == 0.0 + Contribution(p, origin.latitude, origin.longitude, dist);
    HeatmapCentredCell(origin, 1.0, All, reports, dist, rand);
    HeatmapSaturatedCell(origin, 1.0, All, reports, dist, rand, 55, p);
  }

  /**
    With nothing selected the source does NOT produce an all-zero grid: a cell
    whose first draw is at most 0.6 in the top-left 3 x 3 corner gets the demo
    ramp (row + col) x 10 plus up to 20, so cell (2, 2) is at least 40.
  */
  lemma EmptySelectionShowsDemoRamp(origin: Coords, radiusKm: real, filter: SeverityFilter, reports: seq<Report>,
                                    dist: DistanceFn, rand: RandomDraws)
    requires FilterReports(reports, origin, radiusKm, filter, dist) == []
    requires ValidDraws(rand) && rand(2, 2, 0) <= 0.6
    ensures Heatmap(origin, radiusKm, filter, reports, dist, rand)[22].intensity >= 40
  {
    assert 0.0 <= rand(2, 2, 1);
  }

  /**
    With nothing selected, a cell outside the top-left corner whose first draw
    is at most 0.6 stays at 0, and a cell whose first draw exceeds 0.6 gets
    round(80 x draw), below 80.
  */
  lemma EmptySelectionDemoCells(origin: Coords, radiusKm: real, filter: SeverityFilter, reports: seq<Report>,
                                dist: DistanceFn, rand: RandomDraws, k: int)
    requires 0 <= k < GridSize * GridSize
    requires FilterReports(reports, origin, radiusKm, filter, dist) == []
    requires ValidDraws(rand)
    ensures var c := Heatmap(origin, radiusKm, filter, reports, dist, rand)[k];
      && (rand(c.row, c.col, 0) > 0.6 ==> 0 <= c.intensity <= 80)
      && (rand(c.row, c.col, 0) <= 0.6 && !(c.row < 3 && c.col < 3) ==> c.intensity == 0)
  {
    var c := Heatmap(origin, radiusKm, filter, reports, dist, rand)[k];
    assert 0.0 <= rand(c.row, c.col, 1) < 1.0;
  }

  // ---------------------------------------------------------------------------
  // Colour bands
  // ---------------------------------------------------------------------------

  /** The six band colours, from no density to very high density. */
  const Palette: seq<string> := ["#F8FAFC", "#DCFCE7", "#FEF3C7", "#FED7AA", "#FECACA", "#FCA5A5"]

  /** The cut points between the non-empty bands. */
  const Thresholds: seq<int> := [10, 25, 50, 75]

  /** How many of the cut points `x` has reached. */
  function CountReached(x: int, ts: seq<int>): (n: nat)
    ensures n <= |ts|
  {
    if ts == [] then 0 else (if x >= ts[0] then 1 else 0) + CountReached(x, ts[1..])
  }

  /** The band of an intensity: 0 for none, otherwise one more than the cut points reached. */
  function BandIndex(intensity: int): (b: nat)
    ensures b < |Palette|
  {
    if intensity == 0 then 0 else 1 + CountReached(intensity, Thresholds)
  }

  /** PotHoleHeatMap.js `getHeatmapColor`: the colour of the intensity's band. */
  function HeatmapColor(intensity: int): (color: string)
    ensures color == Palette[BandIndex(intensity)]
  {
    ThresholdsReached(intensity);
    if intensity == 0 then "#F8FAFC"
    else if intensity < 10 then "#DCFCE7"
    else if intensity < 25 then "#FEF3C7"
    else if intensity < 50 then "#FED7AA"
    else if intensity < 75 then "#FECACA"
    else "#FCA5A5"
  }

  /** The cut points reached, one by one. */
  lemma ThresholdsReached(x: int)
    ensures CountReached(x, Thresholds) ==
      (if x >= 10 then 1 else 0) + (if x >= 25 then 1 else 0) + (if x >= 50 then 1 else 0) + (if x >= 75 then 1 else 0)
  {
    var t1, t2, t3 := Thresholds[1..], Thresholds[2..], Thresholds[3..];
    assert t1 == [25, 50, 75] && t1[1..] == t2 && t2 == [50, 75] && t2[1..] == t3 && t3 == [75] && t3[1..] == [];
    assert CountReached(x, t3) == if x >= 75 then 1 else 0;
    assert CountReached(x, t2) == (if x >= 50 then 1 else 0) + CountReached(x, t3);
    assert CountReached(x, t1) == (if x >= 25 then 1 else 0) + CountReached(x, t2);
  }

  lemma {:induction false} CountReachedMonotone(a: int, b: int, ts: seq<int>)
    requires a <= b
    ensures CountReached(a, ts) <= CountReached(b, ts)
  {
    if ts != [] {
      CountReachedMonotone(a, b, ts[1..]);
    }
  }

  /** On non-negative intensities a higher intensity never yields an earlier band. */
  lemma BandMonotone(a: int, b: int)
    requires 0 <= a <= b
    ensures BandIndex(a) <= BandIndex(b)
  {
    CountReachedMonotone(a, b, Thresholds);
  }

  /** The six colours differ, so the colour identifies the band. */
  lemma PaletteDistinct(i: int, j: int)
    requires 0 <= i < |Palette| && 0 <= j < |Palette| && i != j
    ensures Palette[i] != Palette[j]
  {
  }

  /** The cut points 10, 25, 50 and 75 sit exactly where the bands change. */
  lemma BandBoundaries()
    ensures BandIndex(0) == 0
    ensures BandIndex(1) == 1 && BandIndex(9) == 1
    ensures BandIndex(10) == 2 && BandIndex(24) == 2
    ensures BandIndex(25) == 3 && BandIndex(49) == 3
    ensures BandIndex(50) == 4 && BandIndex(74) == 4
    ensures BandIndex(75) == 5 && BandIndex(100) == 5
  {
    ThresholdsReached(1); ThresholdsReached(9); ThresholdsReached(10); ThresholdsReached(24);
    ThresholdsReached(25); ThresholdsReached(49); ThresholdsReached(50); ThresholdsReached(74);
    ThresholdsReached(75); ThresholdsReached(100);
  }

  // ---------------------------------------------------------------------------
  // Summary cards
  // ---------------------------------------------------------------------------

  /** The report has severity `s`. */
  function HasSeverity(s: Severity): Report -> bool {
    (p: Report) => p.severity == s
  }

  /** The report's severity is none of the three known ones. */
  function UnknownSeverity(): Report -> bool {
    (p: Report) => p.severity.Other?
  }

  /**
    PotHoleHeatMap.js `getLocationSummary`: null without a location; otherwise
    the severity counts over every report within the radius (the filter is
    ignored) and a total that is the selected count when a filter is active.
  */
  function LocationSummary(location: Option<Coords>, reports: seq<Report>, radiusKm: real, filter: SeverityFilter,
                           dist: DistanceFn): (summary: Option<Summary>)
    ensures summary.None? <==> location.None?
    ensures summary.Some? ==> summary.value.filtered == !filter.All?
  {
    if location.None? then None
    else
      var origin := location.value;
      var nearby := FilterReports(reports, origin, radiusKm, filter, dist);
      var allNearby := Keep(reports, WithinRadius(origin, radiusKm, dist));
      Some(Summary(
        total := if filter.All? then |allNearby| else |nearby|,
        high := |Keep(allNearby, HasSeverity(High))|,
        medium := |Keep(allNearby, HasSeverity(Medium))|,
        low := |Keep(allNearby, HasSeverity(Low))|,
        filtered := !filter.All?))
  }

  /** The total card always counts exactly the reports the heatmap aggregates. */
  lemma SummaryTotalIsSelection(origin: Coords, reports: seq<Report>, radiusKm: real, filter: SeverityFilter,
                                dist: DistanceFn)
    ensures LocationSummary(Some(origin), reports, radiusKm, filter, dist).value.total
         == |FilterReports(reports, origin, radiusKm, filter, dist)|
  {
    if filter.All? {
      KeepCongruent(reports, WithinRadius(origin, radiusKm, dist), Selected(origin, radiusKm, filter, dist));
    }
  }

  /**
    The three severity counts together never exceed the unfiltered total; they
    fall short of it by the number of nearby reports of an unknown severity.
  */
  lemma SummaryCountsWithinTotal(origin: Coords, reports: seq<Report>, radiusKm: real, dist: DistanceFn)
    ensures var s := LocationSummary(Some(origin), reports, radiusKm, All, dist).value;
      var allNearby := Keep(reports, WithinRadius(origin, radiusKm, dist));
      s.high + s.medium + s.low + |Keep(allNearby, UnknownSeverity())| == s.total
      && s.high + s.medium + s.low <= s.total
  {
    var allNearby := Keep(reports, WithinRadius(origin, radiusKm, dist));
    KeepPartition(allNearby, HasSeverity(High), HasSeverity(Medium), HasSeverity(Low), UnknownSeverity());
  }

  /** With a severity filter active, the total equals that severity's count. */
  lemma SummaryFilteredTotal(origin: Coords, reports: seq<Report>, radiusKm: real, level: Severity,
                             dist: DistanceFn)
    requires level == High || level == Medium || level == Low
    ensures var s := LocationSummary(Some(origin), reports, radiusKm, Only(level), dist).value;
      s.filtered
      && s.total == (if level == High then s.high else if level == Medium then s.medium else s.low)
  {
    KeepKeep(reports, WithinRadius(origin, radiusKm, dist), HasSeverity(level),
             Selected(origin, radiusKm, Only(level), dist));
  }

  /** The severity counts do not depend on the filter. */
  lemma SummaryCountsIgnoreFilter(origin: Coords, reports: seq<Report>, radiusKm: real,
                                  f1: SeverityFilter, f2: SeverityFilter, dist: DistanceFn)
    ensures var s1 := LocationSummary(Some(origin), reports, radiusKm, f1, dist).value;
      var s2 := LocationSummary(Some(origin), reports, radiusKm, f2, dist).value;
      s1.high == s2.high && s1.medium == s2.medium && s1.low == s2.low
  {
  }

  /**
    The worked example with the filter 'low' and a single high-severity report
    at the reference point: nothing is selected and the total card shows 0.
  */
  lemma LowFilterScenario(dist: DistanceFn)
    requires forall lat, lng :: dist(lat, lng, lat, lng) == 0.0
    ensures var origin := Coords(28.6139, 77.2090);
      var reports := [Report(1, 28.6139, 77.2090, High, 15)];
      var s := LocationSummary(Some(origin), reports, 1.0, Only(Low), dist).value;
      && FilterReports(reports, origin, 1.0, Only(Low), dist) == []
      && s.total == 0 && s.high == 1 && s.filtered
  {
    var origin := Coords(28.6139, 77.2090);
    var p := Report(1, 28.6139, 77.2090, High, 15);
    assert dist(origin.latitude, origin.longitude, p.lat, p.lng) == 0.0;
    KeepSingleton(p, Selected(origin, 1.0, Only(Low), dist));
    KeepSingleton(p, WithinRadius(origin, 1.0, dist));
    KeepSingleton(p, HasSeverity(High));
  }
}
