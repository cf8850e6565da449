/** Companion planting: a table of how well two plants grow side by side,
    the suggestions and conflict reports drawn from it, the growing
    conditions checks, and the list of plants placed in the garden.

    Distances are compared squared (Common.AtMostSquared, Common.BelowSquared),
    so the model needs no square root. */
module SmartPlanting {
  import opened Common

  // ---------------------------------------------------------------- compatibility

  const Excellent := 5
  const Good := 4
  const Neutral := 3
  const Poor := 2
  const Avoid := 1

  /** One `companion: level` property of a plant's compatibility object. */
  datatype Entry = Entry(companion: string, level: int)

  /** `plantCompatibility`: each plant name's companions in property order. */
  type Table = map<string, seq<Entry>>

  /** The table `initializeCompatibility` installs. */
  const InitialTable: Table := map[
    "tomato" := [Entry("basil", Excellent), Entry("marigold", Excellent), Entry("carrot", Good),
                 Entry("lettuce", Good), Entry("pepper", Good), Entry("cabbage", Poor),
                 Entry("fennel", Avoid), Entry("walnut", Avoid)],
    "basil" := [Entry("tomato", Excellent), Entry("pepper", Good), Entry("oregano", Good), Entry("rue", Avoid)],
    "carrot" := [Entry("tomato", Good), Entry("lettuce", Good), Entry("radish", Good),
                 Entry("sage", Poor), Entry("dill", Avoid)],
    "lettuce" := [Entry("tomato", Good), Entry("carrot", Good), Entry("radish", Good), Entry("cabbage", Poor)],
    "marigold" := [Entry("tomato", Excellent), Entry("pepper", Excellent), Entry("cabbage", Excellent),
                   Entry("cucumber", Excellent)]]

  /** `compatibility[name]`, 0 standing for a missing property. */
  function LevelIn(es: seq<Entry>, name: string): (v: int)
    ensures v != 0 ==> exists e | e in es :: e.companion == name && e.level == v
    ensures (forall e | e in es :: e.companion != name) ==> v == 0
  {
    if es == [] then 0
    else if es[0].companion == name then es[0].level
    else LevelIn(es[1..], name)
  }

  /** The level `name`'s own table gives `other`, 0 when there is none. */
  function Listed(t: Table, name: string, other: string): int
  {
    if name in t then LevelIn(t[name], other) else 0
  }

  /** `getCompatibilityScore` on the two plants' names: the first name's
      table, then the second's, then neutral. */
  function Score(t: Table, name1: string, name2: string): int
  {
    var a, b := ToLower(name1), ToLower(name2);
    if Listed(t, a, b) != 0 then Listed(t, a, b)
    else if Listed(t, b, a) != 0 then Listed(t, b, a)
    else Neutral
  }

  lemma {:induction false} ToLowerIdempotent(s: string)
    ensures ToLower(ToLower(s)) == ToLower(s)
  {
    forall i | 0 <= i < |s| ensures LowerChar(LowerChar(s[i])) == LowerChar(s[i]) {
    }
  }

  /** The score ignores letter case; the first name's table is consulted
      first, the second's next, and a pair that neither lists is neutral. */
  lemma ScoreLaws(t: Table, name1: string, name2: string)
    ensures Score(t, name1, name2) == Score(t, ToLower(name1), ToLower(name2))
    ensures var a, b := ToLower(name1), ToLower(name2);
      (Listed(t, a, b) != 0 ==> Score(t, name1, name2) == Listed(t, a, b)) &&
      (Listed(t, a, b) == 0 && Listed(t, b, a) != 0 ==> Score(t, name1, name2) == Listed(t, b, a)) &&
      (Listed(t, a, b) == 0 && Listed(t, b, a) == 0 ==> Score(t, name1, name2) == Neutral)
  {
    ToLowerIdempotent(name1);
    ToLowerIdempotent(name2);
  }

  /** No pair is listed with two different levels in the two directions. */
  predicate Consistent(t: Table)
  {
    forall a, b | a in t && b in t ::
      LevelIn(t[a], b) == 0 || LevelIn(t[b], a) == 0 || LevelIn(t[a], b) == LevelIn(t[b], a)
  }

  /** Over a consistent table the score does not depend on the order of the
      two plants. */
  lemma ScoreSymmetric(t: Table, name1: string, name2: string)
    requires Consistent(t)
    ensures Score(t, name1, name2) == Score(t, name2, name1)
  {
  }

  // ---------------------------------------------------------------- growing conditions

  /** `isSunCompatible`: full sun takes full or partial, partial takes all
      three, shade takes partial or shade, and any other requirement none. */
  predicate IsSunCompatible(required: string, available: string)
  {
    match required
    case "full" => available == "full" || available == "partial"
    case "partial" => available == "full" || available == "partial" || available == "shade"
    case "shade" => available == "partial" || available == "shade"
    case _ => false
  }

  /** The relation is symmetric, holds for each of the three light levels
      with itself, and never joins full sun with shade. */
  lemma SunLaws(required: string, available: string)
    ensures IsSunCompatible(required, available) == IsSunCompatible(available, required)
    ensures IsSunCompatible(required, available) ==>
      required in {"full", "partial", "shade"} && available in {"full", "partial", "shade"}
    ensures required in {"full", "partial", "shade"} ==> IsSunCompatible(required, required)
    ensures !IsSunCompatible("full", "shade")
    ensures available in {"full", "partial", "shade"} ==> IsSunCompatible("partial", available)
  {
  }

  /** `isZoneCompatible`: hardiness zones at most 2 apart. */
  predicate IsZoneCompatible(plantZone: real, currentZone: real)
  {
    Abs(plantZone - currentZone) <= 2.0
  }

  lemma ZoneSymmetric(a: real, b: real)
    ensures IsZoneCompatible(a, b) == IsZoneCompatible(b, a)
    ensures IsZoneCompatible(a, a)
  {
  }

  /** A plant as the garden stores it; a missing `type` is the text `undefined`. */
  datatype Plant = Plant(
    id: string,
    name: string,
    kind: string,
    x: real,
    y: real,
    yieldPerPlant: Option<real>,
    plantingSeasons: Option<seq<string>>,
    hardinessZone: Option<real>,
    status: Option<string>,
    plantedDate: Option<string>)

  /** `canPlantInSeason`: any season for a plant without a season list,
      otherwise a listed season in a compatible zone (when the plant names one). */
  predicate CanPlantInSeason(p: Plant, season: string, zone: real)
  {
    p.plantingSeasons.None? ||
    (season in p.plantingSeasons.value &&
     (!TruthyNum(p.hardinessZone) || IsZoneCompatible(p.hardinessZone.value, zone)))
  }

  lemma SeasonLaws(p: Plant, season: string, zone: real)
    ensures p.plantingSeasons.None? ==> CanPlantInSeason(p, season, zone)
    ensures p.plantingSeasons.Some? && season !in p.plantingSeasons.value ==> !CanPlantInSeason(p, season, zone)
    ensures p.plantingSeasons.Some? && season in p.plantingSeasons.value && p.hardinessZone.None? ==>
      CanPlantInSeason(p, season, zone)
  {
  }

  // ---------------------------------------------------------------- nearby plants

  function DistSq(x1: real, y1: real, x2: real, y2: real): real
  {
    (x1 - x2) * (x1 - x2) + (y1 - y2) * (y1 - y2)
  }

  /** `distance <= radius`, squared. */
  predicate Within(x: real, y: real, p: Plant, radius: real)
  {
    radius >= 0.0 && DistSq(x, y, p.x, p.y) <= radius * radius
  }

  /** `getNearbyPlants` */
  function NearbyPlants(placed: seq<Plant>, x: real, y: real, radius: real): (r: seq<Plant>)
    ensures forall p | p in r :: p in placed && Within(x, y, p, radius)
    ensures forall p | p in placed && Within(x, y, p, radius) :: p in r
  {
    var f := (p: Plant) => Within(x, y, p, radius);
    FilterMembers(placed, f);
    Filter(placed, f)
  }

  // ---------------------------------------------------------------- suggestions

  function LevelKey(e: Entry): real { e.level as real }

  /** A companion already growing among the nearby plants. */
  predicate AlreadyPlanted(nearby: seq<Plant>, companion: string)
  {
    exists p | p in nearby :: ToLower(p.name) == companion
  }

  predicate Suggestible(nearby: seq<Plant>, e: Entry)
  {
    e.level >= Good && !AlreadyPlanted(nearby, e.companion)
  }

  /** The companions worth suggesting, in table order. */
  function Candidates(es: seq<Entry>, nearby: seq<Plant>): (r: seq<Entry>)
    ensures forall e | e in r :: e in es && Suggestible(nearby, e)
    ensures forall e | e in es && Suggestible(nearby, e) :: e in r
  {
    var f := (e: Entry) => Suggestible(nearby, e);
    FilterMembers(es, f);
    Filter(es, f)
  }

  /** `sort((a, b) => b.compatibility - a.compatibility).slice(0, 5)`: the
      five best entries (all of them when there are fewer), the best first. */
  function TopFive(c: seq<Entry>): (r: seq<Entry>)
    ensures |r| == (if |c| < 5 then |c| else 5)
    ensures SortedDesc(r, LevelKey)
    ensures multiset(r) <= multiset(c)
    ensures forall e | e in r :: e in c
    ensures forall e, f | e in multiset(c) - multiset(r) && f in r :: LevelKey(e) <= LevelKey(f)
  {
    SortedPrefixIsTop(c, LevelKey, 5);
    Take(SortDesc(c, LevelKey), 5)
  }

  /** `getCompanionSuggestions` without the random reason: the five best
      (or all, when there are fewer) of the good or excellent companions not
      growing within 200 of the plant, the best first. */
  function Suggestions(enabled: bool, t: Table, placed: seq<Plant>, p: Plant): (r: seq<Entry>)
    ensures |r| <= 5
    ensures SortedDesc(r, LevelKey)
    ensures !enabled || ToLower(p.name) !in t ==> r == []
    ensures forall e | e in r :: (e.level >= Good && e in t[ToLower(p.name)] &&
      forall q | q in placed && Within(p.x, p.y, q, 200.0) :: ToLower(q.name) != e.companion)
    ensures enabled && ToLower(p.name) in t ==>
      var c := Candidates(t[ToLower(p.name)], NearbyPlants(placed, p.x, p.y, 200.0));
      |r| == (if |c| < 5 then |c| else 5) && multiset(r) <= multiset(c)
    ensures enabled && ToLower(p.name) in t ==>
      var c := Candidates(t[ToLower(p.name)], NearbyPlants(placed, p.x, p.y, 200.0));
      forall e, f | e in multiset(c) - multiset(r) && f in r :: e.level <= f.level
  {
    var name := ToLower(p.name);
    if !enabled || name !in t then []
    else TopFive(Candidates(t[name], NearbyPlants(placed, p.x, p.y, 200.0)))
  }

  /** When there are at most five candidates, all of them are suggested. */
  lemma FewCandidatesAllSuggested(t: Table, placed: seq<Plant>, p: Plant)
    requires ToLower(p.name) in t
    requires |Candidates(t[ToLower(p.name)], NearbyPlants(placed, p.x, p.y, 200.0))| <= 5
    ensures forall e | e in Candidates(t[ToLower(p.name)], NearbyPlants(placed, p.x, p.y, 200.0)) ::
      e in Suggestions(true, t, placed, p)
  {
    var c := Candidates(t[ToLower(p.name)], NearbyPlants(placed, p.x, p.y, 200.0));
    var s := SortDesc(c, LevelKey);
    assert Take(s, 5) == s;
    forall e | e in c ensures e in s {
      assert e in multiset(c);
    }
  }

  // ---------------------------------------------------------------- conflict reports

  const ConflictTexts: map<string, string> := map[
    "tomato-fennel" := "Fennel inhibits tomato growth",
    "tomato-cabbage" := "Compete for nutrients",
    "carrot-dill" := "Dill attracts carrot pests",
    "lettuce-cabbage" := "Similar nutrient needs"]

  /** `getConflictReason`: the pair looked up in both orders, with a generic fallback. */
  function ConflictReason(name1: string, name2: string): string
  {
    var k1 := ToLower(name1) + "-" + ToLower(name2);
    var k2 := ToLower(name2) + "-" + ToLower(name1);
    if k1 in ConflictTexts then ConflictTexts[k1]
    else if k2 in ConflictTexts then ConflictTexts[k2]
    else "Incompatible planting"
  }

  /** The reason does not depend on the order of the two plants. */
  lemma ConflictReasonSymmetric(name1: string, name2: string)
    ensures ConflictReason(name1, name2) == ConflictReason(name2, name1) ||
      (ToLower(name1) + "-" + ToLower(name2) in ConflictTexts && ToLower(name2) + "-" + ToLower(name1) in ConflictTexts)
  {
  }

  datatype Conflict = Conflict(plant: Plant, reason: string)

  datatype Report = Report(conflicts: seq<Conflict>, benefits: seq<Plant>)

  /** `distance < minCompanionDistance * 3`, squared. */
  predicate Near(np: Plant, e: Plant, minDistance: real)
  {
    3.0 * minDistance > 0.0 && DistSq(np.x, np.y, e.x, e.y) < (3.0 * minDistance) * (3.0 * minDistance)
  }

  predicate IsConflict(t: Table, minDistance: real, np: Plant, e: Plant)
  {
    Near(np, e, minDistance) && Score(t, np.name, e.name) <= Poor
  }

  predicate IsBenefit(t: Table, minDistance: real, np: Plant, e: Plant)
  {
    Near(np, e, minDistance) && Score(t, np.name, e.name) >= Good
  }

  /** `checkPlantingCompatibility` over a list of existing plants, without
      the distances and the random benefit reasons. */
  function Assess(t: Table, minDistance: real, np: Plant, es: seq<Plant>): (r: Report)
    ensures |r.conflicts| + |r.benefits| <= |es|
    decreases |es|
  {
    if es == [] then Report([], [])
    else
      var prev := Assess(t, minDistance, np, es[..|es| - 1]);
      var e := es[|es| - 1];
      if IsConflict(t, minDistance, np, e) then
        prev.(conflicts := prev.conflicts + [Conflict(e, ConflictReason(np.name, e.name))])
      else if IsBenefit(t, minDistance, np, e) then
        prev.(benefits := prev.benefits + [e])
      else prev
  }

  /** The conflicts are the near plants scoring poor or worse, each with its
      reason; the benefits are the near plants scoring good or better; a
      neutral or distant plant is in neither list. */
  lemma {:induction false} AssessMembers(t: Table, minDistance: real, np: Plant, es: seq<Plant>)
    ensures var r := Assess(t, minDistance, np, es);
      (forall c | c in r.conflicts :: c.plant in es && IsConflict(t, minDistance, np, c.plant) &&
                                      c.reason == ConflictReason(np.name, c.plant.name)) &&
      (forall e | e in es && IsConflict(t, minDistance, np, e) :: Conflict(e, ConflictReason(np.name, e.name)) in r.conflicts) &&
      (forall b | b in r.benefits :: b in es && IsBenefit(t, minDistance, np, b)) &&
      (forall e | e in es && IsBenefit(t, minDistance, np, e) :: e in r.benefits)
    decreases |es|
  {
    if es != [] {
      var init := es[..|es| - 1];
      AssessMembers(t, minDistance, np, init);
      assert forall e | e in es :: e in init || e == es[|es| - 1];
      assert forall e | e in init :: e in es;
    }
  }

  /** No plant is both a conflict and a benefit, and a neutral one is neither. */
  lemma ConflictsAndBenefitsDisjoint(t: Table, minDistance: real, np: Plant, e: Plant)
    ensures !(IsConflict(t, minDistance, np, e) && IsBenefit(t, minDistance, np, e))
    ensures Score(t, np.name, e.name) == Neutral ==> !IsConflict(t, minDistance, np, e) && !IsBenefit(t, minDistance, np, e)
  {
  }

  // ---------------------------------------------------------------- statistics

  /** `plantsByType`: how many plants of each type. */
  function CountKinds(ps: seq<Plant>): (m: map<string, nat>)
    ensures forall k | k in m :: m[k] > 0
    decreases |ps|
  {
    if ps == [] then map[]
    else
      var m := CountKinds(ps[..|ps| - 1]);
      var k := ps[|ps| - 1].kind;
      m[k := (if k in m then m[k] else 0) + 1]
  }

  /** The number of plants of one type. */
  function CountOf(ps: seq<Plant>, kind: string): nat
    decreases |ps|
  {
    if ps == [] then 0 else CountOf(ps[..|ps| - 1], kind) + (if ps[|ps| - 1].kind == kind then 1 else 0)
  }

  /** The sum of the truthy yields. */
  function TotalYield(ps: seq<Plant>): real
    decreases |ps|
  {
    if ps == [] then 0.0
    else
      var y := ps[|ps| - 1].yieldPerPlant;
      TotalYield(ps[..|ps| - 1]) + (if TruthyNum(y) then y.value else 0.0)
  }

  function Kinds(ps: seq<Plant>): set<string>
  {
    set p | p in ps :: p.kind
  }

  /** A type is counted exactly when some plant has it, and it is counted
      once per plant of that type; there are never more types than plants. */
  lemma {:induction false} CountKindsLaws(ps: seq<Plant>)
    ensures CountKinds(ps).Keys == Kinds(ps)
    ensures forall k | k in CountKinds(ps) :: CountKinds(ps)[k] == CountOf(ps, k)
    ensures |Kinds(ps)| <= |ps|
    decreases |ps|
  {
    if ps != [] {
      var init := ps[..|ps| - 1];
      var k0 := ps[|ps| - 1].kind;
      CountKindsLaws(init);
      KindsSnoc(ps);
      var m0 := CountKinds(init);
      assert CountKinds(ps) == m0[k0 := (if k0 in m0 then m0[k0] else 0) + 1];
      if k0 !in m0 {
        CountOfAbsent(init, k0);
      }
      forall k | k in CountKinds(ps) ensures CountKinds(ps)[k] == CountOf(ps, k) {
        assert CountOf(ps, k) == CountOf(init, k) + (if k0 == k then 1 else 0);
      }
    }
    KindsBound(ps);
  }

  lemma {:induction false} KindsBound(ps: seq<Plant>)
    ensures |Kinds(ps)| <= |ps|
    decreases |ps|
  {
    if ps != [] {
      KindsBound(ps[..|ps| - 1]);
      KindsSnoc(ps);
    }
  }

  lemma KindsSnoc(ps: seq<Plant>)
    requires ps != []
    ensures Kinds(ps) == Kinds(ps[..|ps| - 1]) + {ps[|ps| - 1].kind}
  {
    assert ps == ps[..|ps| - 1] + [ps[|ps| - 1]];
  }

  lemma {:induction false} CountOfAbsent(ps: seq<Plant>, kind: string)
    requires kind !in Kinds(ps)
    ensures CountOf(ps, kind) == 0
    decreases |ps|
  {
    if ps != [] {
      var init := ps[..|ps| - 1];
      assert Kinds(init) <= Kinds(ps);
      CountOfAbsent(init, kind);
    }
  }

  /** The sum of `m[k]` over the keys of a list. */
  function SumOver(m: map<string, nat>, keys: seq<string>): nat
    requires forall k | k in keys :: k in m
    decreases |keys|
  {
    if keys == [] then 0 else SumOver(m, keys[..|keys| - 1]) + m[keys[|keys| - 1]]
  }

  /** The sum of the per-type counts over a list of types. */
  function SumCounts(ps: seq<Plant>, keys: seq<string>): nat
    decreases |keys|
  {
    if keys == [] then 0 else SumCounts(ps, keys[..|keys| - 1]) + CountOf(ps, keys[|keys| - 1])
  }

  /** The counts of `plantsByType`, listed once per type, add up to the total
      number of plants. */
  lemma ByTypeSumsToTotal(ps: seq<Plant>, keys: seq<string>)
    requires NoDup(keys)
    requires forall k :: k in keys <==> k in CountKinds(ps)
    ensures SumOver(CountKinds(ps), keys) == |ps|
  {
    CountKindsLaws(ps);
    SumOverIsSumCounts(ps, keys);
    forall p | p in ps ensures p.kind in keys {
      assert p.kind in Kinds(ps);
    }
    CountsSumToTotal(ps, keys);
  }

  lemma {:induction false} SumOverIsSumCounts(ps: seq<Plant>, keys: seq<string>)
    requires forall k | k in keys :: k in CountKinds(ps) && CountKinds(ps)[k] == CountOf(ps, k)
    ensures SumOver(CountKinds(ps), keys) == SumCounts(ps, keys)
    decreases |keys|
  {
    if keys != [] {
      SumOverIsSumCounts(ps, keys[..|keys| - 1]);
    }
  }

  /** Over a list of distinct types covering every plant, the counts add up
      to the number of plants. */
  lemma {:induction false} CountsSumToTotal(ps: seq<Plant>, keys: seq<string>)
    requires NoDup(keys)
    requires forall p | p in ps :: p.kind in keys
    ensures SumCounts(ps, keys) == |ps|
    decreases |ps|
  {
    if ps == [] {
      SumCountsNone(ps, keys);
    } else {
      var init := ps[..|ps| - 1];
      assert forall p | p in init :: p in ps;
      CountsSumToTotal(init, keys);
      SumCountsSnoc(ps, keys);
    }
  }

  lemma {:induction false} SumCountsNone(ps: seq<Plant>, keys: seq<string>)
    requires ps == []
    ensures SumCounts(ps, keys) == 0
    decreases |keys|
  {
    if keys != [] {
      SumCountsNone(ps, keys[..|keys| - 1]);
    }
  }

  /** One more plant adds one to the sum exactly when its type is listed. */
  lemma {:induction false} SumCountsSnoc(ps: seq<Plant>, keys: seq<string>)
    requires ps != [] && NoDup(keys)
    ensures SumCounts(ps, keys) ==
      SumCounts(ps[..|ps| - 1], keys) + (if ps[|ps| - 1].kind in keys then 1 else 0)
    decreases |keys|
  {
    if keys != [] {
      var front := keys[..|keys| - 1];
      assert NoDup(front) by {
        forall i, j | 0 <= i < j < |front| ensures front[i] != front[j] {
          assert front[i] == keys[i] && front[j] == keys[j];
        }
      }
      SumCountsSnoc(ps, front);
      var last := keys[|keys| - 1];
      assert keys == front + [last];
      forall i | 0 <= i < |front| ensures front[i] != last {
        assert front[i] == keys[i];
      }
    }
  }

  datatype Statistics = Statistics(totalPlants: nat, plantsByType: map<string, nat>, estimatedYield: real, diversityScore: nat)

  // ---------------------------------------------------------------- the garden

  /** First index of a placed plant with the id, `|ps|` when there is none. */
  function FindPlant(ps: seq<Plant>, id: string): (k: nat)
    ensures k <= |ps|
    ensures k < |ps| ==> ps[k].id == id
    ensures forall i :: 0 <= i < k ==> ps[i].id != id
    ensures k == |ps| <==> forall i :: 0 <= i < |ps| ==> ps[i].id != id
  {
    FirstIndex(ps, (p: Plant) => p.id == id)
  }

  /** `updatePlantPosition`'s list: the first plant of the id moved. */
  function Moved(ps: seq<Plant>, id: string, x: real, y: real): (r: seq<Plant>)
    ensures |r| == |ps|
    ensures forall i | 0 <= i < |ps| && i != FindPlant(ps, id) :: r[i] == ps[i]
    ensures FindPlant(ps, id) < |ps| ==>
      var k := FindPlant(ps, id); r[k] == ps[k].(x := x, y := y)
  {
    var k := FindPlant(ps, id);
    if k < |ps| then ps[k := ps[k].(x := x, y := y)] else ps
  }

  /** Moving twice is moving once to the second place; moving to where the
      plant stands changes nothing. */
  lemma MoveLaws(ps: seq<Plant>, id: string, x1: real, y1: real, x2: real, y2: real)
    ensures Moved(Moved(ps, id, x1, y1), id, x2, y2) == Moved(ps, id, x2, y2)
    ensures FindPlant(ps, id) < |ps| && ps[FindPlant(ps, id)].x == x1 && ps[FindPlant(ps, id)].y == y1 ==>
      Moved(ps, id, x1, y1) == ps
  {
    var m := Moved(ps, id, x1, y1);
    FindPlantStable(ps, m, id);
  }

  /** Lists with the same ids at every position find an id at the same index. */
  lemma FindPlantStable(ps: seq<Plant>, qs: seq<Plant>, id: string)
    requires |ps| == |qs| && forall i | 0 <= i < |ps| :: ps[i].id == qs[i].id
    ensures FindPlant(ps, id) == FindPlant(qs, id)
  {
    var k, m := FindPlant(ps, id), FindPlant(qs, id);
    if k < |ps| { assert qs[k].id == id; }
    if m < |qs| { assert ps[m].id == id; }
  }

  /** `removePlant`'s list: the first plant of the id removed. */
  function WithoutPlant(ps: seq<Plant>, id: string): (r: seq<Plant>)
    ensures FindPlant(ps, id) == |ps| ==> r == ps
    ensures FindPlant(ps, id) < |ps| ==> r == RemoveAt(ps, FindPlant(ps, id))
  {
    var k := FindPlant(ps, id);
    if k < |ps| then RemoveAt(ps, k) else ps
  }

  /** The state of `useSmartPlanting`: the placed plants, the compatibility
      table and the two configuration values the modelled operations read. */
  class Garden {
    var placed: seq<Plant>
    var table: Table
    var suggestionsEnabled: bool
    var minCompanionDistance: real

    constructor ()
      ensures placed == [] && table == InitialTable
      ensures suggestionsEnabled && minCompanionDistance == 50.0
    {
      placed := [];
      table := InitialTable;
      suggestionsEnabled := true;
      minCompanionDistance := 50.0;
    }

    /** `addPlant`: a copy with the new id, position, date and status appended. */
    method AddPlant(p: Plant, x: real, y: real, id: string, date: string) returns (added: Plant)
      modifies this
      ensures added == p.(id := id, x := x, y := y, plantedDate := Some(date), status := Some("planted"))
      ensures placed == old(placed) + [added]
      ensures table == old(table) && suggestionsEnabled == old(suggestionsEnabled)
      ensures minCompanionDistance == old(minCompanionDistance)
    {
      added := p.(id := id, x := x, y := y, plantedDate := Some(date), status := Some("planted"));
      placed := placed + [added];
    }

    /** `removePlant`: true exactly when a plant had the id. */
    method RemovePlant(id: string) returns (removed: bool)
      modifies this
      ensures removed <==> exists p | p in old(placed) :: p.id == id
      ensures placed == WithoutPlant(old(placed), id)
      ensures table == old(table) && suggestionsEnabled == old(suggestionsEnabled)
      ensures minCompanionDistance == old(minCompanionDistance)
    {
      var k := FindPlant(placed, id);
      if k < |placed| {
        placed := RemoveAt(placed, k);
        removed := true;
      } else {
        removed := false;
      }
    }

    /** `updatePlantPosition`: true exactly when a plant had the id. */
    method UpdatePlantPosition(id: string, x: real, y: real) returns (moved: bool)
      modifies this
      ensures moved <==> exists p | p in old(placed) :: p.id == id
      ensures placed == Moved(old(placed), id, x, y)
      ensures table == old(table) && suggestionsEnabled == old(suggestionsEnabled)
      ensures minCompanionDistance == old(minCompanionDistance)
    {
      var k := FindPlant(placed, id);
      if k < |placed| {
        placed := placed[k := placed[k].(x := x, y := y)];
        moved := true;
      } else {
        moved := false;
      }
    }

    /** `getCompanionSuggestions` */
    method CompanionSuggestions(p: Plant) returns (r: seq<Entry>)
      ensures r == Suggestions(suggestionsEnabled, table, placed, p)
    {
      var name := ToLower(p.name);
      if !suggestionsEnabled || name !in table {
        return [];
      }
      var nearby := NearbyPlants(placed, p.x, p.y, 200.0);
      var es := table[name];
      var f := (e: Entry) => Suggestible(nearby, e);
      var found: seq<Entry> := [];
      var i := 0;
      while i < |es|
        invariant 0 <= i <= |es|
        invariant found == Filter(es[..i], f)
      {
        FilterSnoc(es[..i], es[i], f);
        assert es[..i + 1] == es[..i] + [es[i]];
        if es[i].level >= Good && !AlreadyPlanted(nearby, es[i].companion) {
          found := found + [es[i]];
        }
        i := i + 1;
      }
      assert es[..i] == es;
      r := Take(SortDesc(found, LevelKey), 5);
    }

    /** `checkPlantingCompatibility` */
    method CheckPlantingCompatibility(np: Plant, existing: seq<Plant>) returns (r: Report)
      ensures r == Assess(table, minCompanionDistance, np, existing)
    {
      r := Report([], []);
      var i := 0;
      while i < |existing|
        invariant 0 <= i <= |existing|
        invariant r == Assess(table, minCompanionDistance, np, existing[..i])
      {
        var e := existing[i];
        assert existing[..i + 1][..i] == existing[..i];
        if IsConflict(table, minCompanionDistance, np, e) {
          r := r.(conflicts := r.conflicts + [Conflict(e, ConflictReason(np.name, e.name))]);
        } else if IsBenefit(table, minCompanionDistance, np, e) {
          r := r.(benefits := r.benefits + [e]);
        }
        i := i + 1;
      }
      assert existing[..i] == existing;
    }

    /** `getGardenStatistics` */
    method GardenStatistics() returns (s: Statistics)
      ensures s.totalPlants == |placed|
      ensures s.plantsByType == CountKinds(placed)
      ensures s.estimatedYield == TotalYield(placed)
      ensures s.diversityScore == |Kinds(placed)| && s.diversityScore <= s.totalPlants
    {
      var counts: map<string, nat> := map[];
      var total := 0.0;
      var i := 0;
      while i < |placed|
        invariant 0 <= i <= |placed|
        invariant counts == CountKinds(placed[..i])
        invariant total == TotalYield(placed[..i])
      {
        var p := placed[i];
        assert placed[..i + 1][..i] == placed[..i];
        counts := counts[p.kind := (if p.kind in counts then counts[p.kind] else 0) + 1];
        if TruthyNum(p.yieldPerPlant) {
          total := total + p.yieldPerPlant.value;
        }
        i := i + 1;
      }
      assert placed[..i] == placed;
      CountKindsLaws(placed);
      s := Statistics(|placed|, counts, total, |counts.Keys|);
    }
  }
}
