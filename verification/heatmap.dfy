/** The classification helpers of the safety heat-map section: the colour of
    a safety score, the badge of a safety category, the crowd icon and
    badge, the star rating, and the overview counters over the location
    list. The location database is an input. */
module SafetyHeatmap {

  import opened Strings
  import opened Palette

  datatype Location = Location(
    id: string,
    name: string,
    safetyScore: int,
    incidents: int,
    category: string,
    crowdLevel: string)

  /** `getSafetyColor`. */
  function SafetyColor(score: int): (c: Color)
    ensures c == Green <==> score >= 90
    ensures c == Blue <==> 80 <= score < 90
    ensures c == Yellow <==> 70 <= score < 80
    ensures c == Red <==> score < 70
  {
    if score >= 90 then Green
    else if score >= 80 then Blue
    else if score >= 70 then Yellow
    else Red
  }

  /** A higher score never gets a worse colour. */
  lemma SafetyColorMonotone(s1: int, s2: int)
    requires s1 <= s2
    ensures Rank(SafetyColor(s1)) <= Rank(SafetyColor(s2))
  {
  }

  /** How safe a colour reads: red 0 up to green 3. */
  function Rank(c: Color): nat
  {
    match c
    case Red => 0
    case Yellow => 1
    case Blue => 2
    case Green => 3
  }

  /** `getSafetyBadge`: a lookup in a fixed table, `"outline"` when absent. */
  function SafetyBadge(category: string): (v: Variant)
    ensures category == "very-safe" ==> v == Default
    ensures category == "safe" ==> v == Secondary
    ensures category == "caution" ==> v == Destructive
    ensures category !in {"very-safe", "safe", "caution"} ==> v == Outline
  {
    var variants := map["very-safe" := Default, "safe" := Secondary, "moderate" := Outline, "caution" := Destructive];
    if category in variants then variants[category] else Outline
  }

  datatype CrowdIcon = RedCircle | YellowCircle | GreenCircle | WhiteCircle
  {
    function Glyph(): string
    {
      match this
      case RedCircle => "\U{1F534}"
      case YellowCircle => "\U{1F7E1}"
      case GreenCircle => "\U{1F7E2}"
      case WhiteCircle => "\U{26AA}"
    }
  }

  /** `getCrowdIcon`. */
  function CrowdIconFor(level: string): (i: CrowdIcon)
    ensures i == RedCircle <==> level == "high"
    ensures i == YellowCircle <==> level == "medium"
    ensures i == GreenCircle <==> level == "low"
  {
    match level
    case "high" => RedCircle
    case "medium" => YellowCircle
    case "low" => GreenCircle
    case _ => WhiteCircle
  }

  /** `getCrowdBadge`. */
  function CrowdBadge(level: string): (v: Variant)
    ensures v == Destructive <==> level == "high"
    ensures v == Outline <==> level == "medium"
    ensures v == Default <==> level == "low"
  {
    match level
    case "high" => Destructive
    case "medium" => Outline
    case "low" => Default
    case _ => Secondary
  }

  /** The icon and the badge of a crowd level pick out the same three levels. */
  lemma CrowdIconAgreesWithBadge(level: string)
    ensures CrowdIconFor(level) == WhiteCircle <==> CrowdBadge(level) == Secondary
  {
  }

  /** How many of the first `n` stars are filled: star `i` is filled when
      `i < floor(score / 20)`. */
  function FilledAmong(n: nat, score: int): (filled: nat)
    ensures filled <= n
  {
    if n == 0 then 0
    else FilledAmong(n - 1, score) + (if n - 1 < score / 20 then 1 else 0)
  }

  /** The five-star rating of a location: never more than five stars. */
  function FilledStars(score: int): (filled: nat)
    ensures filled <= 5
  {
    FilledAmong(5, score)
  }

  lemma {:induction false} FilledAmongFormula(n: nat, score: int)
    ensures FilledAmong(n, score) == Min(n, Max(0, score / 20))
  {
    if n > 0 {
      FilledAmongFormula(n - 1, score);
    }
  }

  /** The rating is `floor(score / 20)` clamped to 0..5. */
  lemma FilledStarsFormula(score: int)
    ensures FilledStars(score) == Min(5, Max(0, score / 20))
    ensures 0 <= score <= 100 ==> FilledStars(score) == score / 20 <= 5
  {
    FilledAmongFormula(5, score);
  }

  /** The number of locations that satisfy `p`, as `filter(p).length`. */
  function CountWhere(locations: seq<Location>, p: Location -> bool): (count: nat)
    ensures count <= |locations|
  {
    if locations == [] then 0
    else CountWhere(locations[..|locations| - 1], p) + (if p(locations[|locations| - 1]) then 1 else 0)
  }

  predicate IsSafeZone(l: Location) { l.safetyScore >= 80 }
  predicate IsCautionArea(l: Location) { l.safetyScore < 70 }
  predicate ShownGreenOrBlue(l: Location) { SafetyColor(l.safetyScore) in {Green, Blue} }
  predicate ShownRed(l: Location) { SafetyColor(l.safetyScore) == Red }

  /** Two filters that agree on every location count the same. */
  lemma {:induction false} CountWhereAgree(locations: seq<Location>, p: Location -> bool, q: Location -> bool)
    requires forall l :: l in locations ==> p(l) == q(l)
    ensures CountWhere(locations, p) == CountWhere(locations, q)
  {
    if locations != [] {
      CountWhereAgree(locations[..|locations| - 1], p, q);
    }
  }

  /** "Safe zones": locations scoring at least 80, which are exactly the
      locations the map shows green or blue. */
  function SafeZones(locations: seq<Location>): (count: nat)
    ensures count <= |locations|
    ensures count == CountWhere(locations, ShownGreenOrBlue)
  {
    CountWhereAgree(locations, IsSafeZone, ShownGreenOrBlue);
    CountWhere(locations, IsSafeZone)
  }

  /** "Caution areas": locations scoring below 70, which are exactly the
      locations the map shows red. */
  function CautionAreas(locations: seq<Location>): (count: nat)
    ensures count <= |locations|
    ensures count == CountWhere(locations, ShownRed)
  {
    CountWhereAgree(locations, IsCautionArea, ShownRed);
    CountWhere(locations, IsCautionArea)
  }

  /** No location is both a safe zone and a caution area. */
  lemma {:induction false} CountersDisjoint(locations: seq<Location>)
    ensures SafeZones(locations) + CautionAreas(locations) <= |locations|
  {
    if locations != [] {
      CountersDisjoint(locations[..|locations| - 1]);
    }
  }

  /** "Total incidents": `reduce((sum, loc) => sum + loc.incidents, 0)`. */
  function TotalIncidents(locations: seq<Location>): (total: int)
    ensures (forall l :: l in locations ==> l.incidents >= 0) ==> total >= 0
  {
    if locations == [] then 0
    else TotalIncidents(locations[..|locations| - 1]) + locations[|locations| - 1].incidents
  }

  /** The total over two lists joined is the sum of their totals. */
  lemma {:induction false} TotalIncidentsConcat(a: seq<Location>, b: seq<Location>)
    ensures TotalIncidents(a + b) == TotalIncidents(a) + TotalIncidents(b)
    decreases |b|
  {
    if b == [] {
      assert a + b == a;
    } else {
      var b' := b[..|b| - 1];
      assert (a + b)[..|a + b| - 1] == a + b';
      TotalIncidentsConcat(a, b');
    }
  }

  /** With no negative counts, the total bounds every single count. */
  lemma {:induction false} TotalIncidentsBounds(locations: seq<Location>, i: int)
    requires forall l :: l in locations ==> l.incidents >= 0
    requires 0 <= i < |locations|
    ensures locations[i].incidents <= TotalIncidents(locations)
  {
    var prefix := locations[..|locations| - 1];
    if i < |locations| - 1 {
      TotalIncidentsBounds(prefix, i);
    }
    assert forall l :: l in prefix ==> l in locations;
  }
}
