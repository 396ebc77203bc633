/** The registry logic of the two REST controllers: the building list kept by
    BuildingController and the per-building level operations of LevelController, together
    with the visitor each metric endpoint applies. A thrown ResponseStatusException becomes an
    `Err` or `Fail` carrying the matching `Error`; an endpoint's JSON body becomes the value
    it would hold. */
module Controllers {
  import opened Failures
  import opened Lists
  import opened Locations
  import opened Metrics
  import opened Visitors
  import opened Endpoints

  /** Position of the first building with that id: `stream().filter(b -> b.getId() == id).findFirst()`. */
  function BuildingIndex(bs: seq<Building>, id: int): Option<nat>
  {
    FindFirst(bs, (b: Building) => b.id == id)
  }

  /** Position of the first level with that id in a building's level list. */
  function LevelIndex(ls: seq<Level>, id: int): Option<nat>
  {
    FindFirst(ls, (l: Level) => l.id == id)
  }

  /** No two buildings share an id: what the Conflict check on add keeps. */
  predicate UniqueBuildingIds(bs: seq<Building>)
  {
    forall i, j :: 0 <= i < j < |bs| ==> bs[i].id != bs[j].id
  }

  /** No two levels of a building share an id: what the BadRequest check on add keeps. */
  predicate UniqueLevelIds(ls: seq<Level>)
  {
    forall i, j :: 0 <= i < j < |ls| ==> ls[i].id != ls[j].id
  }

  /** Dropping the first element with a given id from a list with distinct ids leaves no
      element with that id. */
  lemma {:induction false} RemovedIdAbsent<T>(s: seq<T>, ids: T -> int, i: nat)
    requires i < |s|
    requires forall a, b :: 0 <= a < b < |s| ==> ids(s[a]) != ids(s[b])
    ensures forall x :: x in s[..i] + s[i + 1..] ==> ids(x) != ids(s[i])
  {
    forall x | x in s[..i] + s[i + 1..]
      ensures ids(x) != ids(s[i])
    {
      var k :| 0 <= k < |s[..i] + s[i + 1..]| && (s[..i] + s[i + 1..])[k] == x;
      if k < i {
        assert s[k] == x;
      } else {
        assert s[k + 1] == x;
      }
    }
  }

  class BuildingController {
    var buildings: seq<Building>

    /** The registry starts empty; loading it from a file at startup is not modelled. */
    constructor ()
      ensures buildings == []
    {
      buildings := [];
    }

    /** The first registered building with that id, or NotFound. */
    function GetBuilding(buildingId: int): (res: Result<Building>)
      reads this
      ensures res.Ok? ==> res.value.id == buildingId && res.value in buildings
      ensures res.Ok? ==> exists i :: 0 <= i < |buildings| && buildings[i] == res.value &&
                            forall j :: 0 <= j < i ==> buildings[j].id != buildingId
      ensures res.Err? ==> res.error == NotFound
      ensures res.Err? <==> forall b :: b in buildings ==> b.id != buildingId
    {
      match BuildingIndex(buildings, buildingId)
      case None => Err(NotFound)
      case Some(i) => Ok(buildings[i])
    }

    /** Registers a building at the end of the list, refusing an id already present.
        On success the building is what a lookup of its id now finds. */
    method AddBuilding(building: Building) returns (res: Result<Building>)
      modifies this`buildings
      ensures (exists b :: b in old(buildings) && b.id == building.id) ==>
                res == Err(Conflict) && buildings == old(buildings)
      ensures (forall b :: b in old(buildings) ==> b.id != building.id) ==>
                res == Ok(building) && buildings == old(buildings) + [building]
      ensures UniqueBuildingIds(old(buildings)) ==> UniqueBuildingIds(buildings)
      ensures res.Ok? ==> GetBuilding(building.id) == Ok(building)
    {
      if exists b :: b in buildings && b.id == building.id {
        return Err(Conflict);
      }
      buildings := buildings + [building];
      res := Ok(building);
      assert forall j :: 0 <= j < |old(buildings)| ==> buildings[j].id != building.id;
    }

    /** Overwrites the name and the level list of the building found by id; the id and every
        other building stay as they were. */
    method UpdateBuilding(buildingId: int, updatedBuilding: Building) returns (res: Result<Building>)
      modifies set b | b in buildings
      ensures res == old(GetBuilding(buildingId))
      ensures buildings == old(buildings)
      ensures res.Ok? ==> res.value.id == buildingId && res.value.name == old(updatedBuilding.name) &&
                          res.value.levelsInBuilding == old(updatedBuilding.levelsInBuilding)
      ensures forall b :: b in buildings && (res.Err? || b != res.value) ==> unchanged(b)
    {
      res := GetBuilding(buildingId);
      if res.Err? {
        return;
      }
      var building := res.value;
      var name, levels := updatedBuilding.name, updatedBuilding.levelsInBuilding;
      building.SetName(name);
      building.SetLevelsInBuilding(levels);
    }

    /** Removes the building found by id from the list, keeping the others in order; with
        distinct ids, no building with that id is left. */
    method DeleteBuilding(buildingId: int) returns (o: Outcome)
      modifies this`buildings
      ensures BuildingIndex(old(buildings), buildingId).None? ==> o == Fail(NotFound) && buildings == old(buildings)
      ensures BuildingIndex(old(buildings), buildingId).Some? ==>
                var i := BuildingIndex(old(buildings), buildingId).value;
                o == Pass && buildings == old(buildings)[..i] + old(buildings)[i + 1..]
      ensures UniqueBuildingIds(old(buildings)) ==> GetBuilding(buildingId).Err?
    {
      var found := GetBuilding(buildingId);
      if found.Err? {
        return Fail(found.error);
      }
      var i := BuildingIndex(buildings, buildingId).value;
      RemoveFirstAt(buildings, found.value, i);
      if UniqueBuildingIds(buildings) {
        RemovedIdAbsent(buildings, (b: Building) => b.id, i);
      }
      buildings := RemoveFirst(buildings, found.value);
      o := Pass;
    }

    /** The area, cube, light-power, energy-consumption, light-cost and energy-cost endpoints
        of a building, selected by `k`. */
    method BuildingMetric(buildingId: int, k: Metric) returns (res: Result<real>)
      requires GetBuilding(buildingId).Ok? ==>
                 LevelsMeasurable(k.Base(), GetBuilding(buildingId).value.levelsInBuilding)
      ensures GetBuilding(buildingId).Err? ==> res == Err(NotFound)
      ensures GetBuilding(buildingId).Ok? ==> res == Ok(MetricOfBuilding(k, GetBuilding(buildingId).value))
    {
      var found := GetBuilding(buildingId);
      if found.Err? {
        return Err(found.error);
      }
      var x := MeasureBuilding(found.value, k);
      res := Ok(x);
    }

    /** The exceeding-heating endpoint: a fresh visitor accepted by the found building, so its
        list holds exactly that building's rooms over the limit, level after level. */
    method RoomsExceedingHeating(buildingId: int, energyLimit: real) returns (res: Result<seq<Room>>)
      requires GetBuilding(buildingId).Ok? ==>
                 LevelsMeasurable(Energy, GetBuilding(buildingId).value.levelsInBuilding)
      ensures GetBuilding(buildingId).Err? ==> res == Err(NotFound)
      ensures GetBuilding(buildingId).Ok? ==>
                RoomsMeasurable(Energy, AllRooms(GetBuilding(buildingId).value.levelsInBuilding)) &&
                res == Ok(Exceeding(AllRooms(GetBuilding(buildingId).value.levelsInBuilding), energyLimit))
    {
      var found := GetBuilding(buildingId);
      if found.Err? {
        return Err(found.error);
      }
      var rooms := ExceedingRoomsOf(found.value, energyLimit);
      res := Ok(rooms);
    }
  }

  /** With distinct ids, a lookup finds exactly the building carrying the id. */
  lemma GetBuildingUnique(controller: BuildingController, building: Building)
    requires UniqueBuildingIds(controller.buildings) && building in controller.buildings
    ensures controller.GetBuilding(building.id) == Ok(building)
  {
    var i :| 0 <= i < |controller.buildings| && controller.buildings[i] == building;
    var res := controller.GetBuilding(building.id);
    var j :| 0 <= j < |controller.buildings| && controller.buildings[j] == res.value &&
             forall k :: 0 <= k < j ==> controller.buildings[k].id != building.id;
    if j < i {
      assert controller.buildings[j].id == controller.buildings[i].id;
    } else if i < j {
      assert controller.buildings[i].id == building.id;
    }
  }

  class LevelController {
    const buildingController: BuildingController
    /** The list the last `getAllLevels` call returned. */
    var levels: seq<Level>

    constructor (buildingController: BuildingController)
      ensures this.buildingController == buildingController && levels == []
    {
      this.buildingController := buildingController;
      levels := [];
    }

    /** The first level with that id in the building found by id; NotFound when either is missing. */
    function GetLevel(buildingId: int, levelId: int): (res: Result<Level>)
      reads buildingController, set b | b in buildingController.buildings
      ensures buildingController.GetBuilding(buildingId).Err? ==> res == Err(NotFound)
      ensures res.Ok? ==> buildingController.GetBuilding(buildingId).Ok?
      ensures res.Ok? ==>
                var ls := buildingController.GetBuilding(buildingId).value.levelsInBuilding;
                res.value in ls && res.value.id == levelId &&
                exists i :: 0 <= i < |ls| && ls[i] == res.value && forall j :: 0 <= j < i ==> ls[j].id != levelId
      ensures res.Err? ==> res.error == NotFound
      ensures buildingController.GetBuilding(buildingId).Ok? ==>
                (res.Err? <==> forall l :: l in buildingController.GetBuilding(buildingId).value.levelsInBuilding ==> l.id != levelId)
    {
      match buildingController.GetBuilding(buildingId)
      case Err(e) => Err(e)
      case Ok(building) =>
        match LevelIndex(building.levelsInBuilding, levelId)
        case None => Err(NotFound)
        case Some(i) => Ok(building.levelsInBuilding[i])
    }

    /** Returns the level list of the building found by id, remembering it in `levels`. */
    method GetAllLevels(buildingId: int) returns (res: Result<seq<Level>>)
      modifies this`levels
      ensures buildingController.GetBuilding(buildingId).Err? ==> res == Err(NotFound) && levels == old(levels)
      ensures buildingController.GetBuilding(buildingId).Ok? ==>
                var ls := buildingController.GetBuilding(buildingId).value.levelsInBuilding;
                res == Ok(ls) && levels == ls
    {
      var found := buildingController.GetBuilding(buildingId);
      if found.Err? {
        return Err(found.error);
      }
      levels := found.value.levelsInBuilding;
      res := Ok(levels);
    }

    /** Appends a level to the building found by id through `Building.add`, refusing a level
        whose id the building already has. On success the level is what a lookup now finds. */
    method AddLevel(level: Level, buildingId: int) returns (res: Result<Level>)
      modifies (set b | b in buildingController.buildings)`levelsInBuilding
      ensures buildingController.buildings == old(buildingController.buildings)
      ensures old(buildingController.GetBuilding(buildingId)).Err? ==> res == Err(NotFound)
      ensures old(buildingController.GetBuilding(buildingId)).Ok? ==>
                var b := old(buildingController.GetBuilding(buildingId)).value;
                ((exists l :: l in old(b.levelsInBuilding) && l.id == level.id) ==>
                   res == Err(BadRequest) && b.levelsInBuilding == old(b.levelsInBuilding)) &&
                ((forall l :: l in old(b.levelsInBuilding) ==> l.id != level.id) ==>
                   res == Ok(level) && b.levelsInBuilding == old(b.levelsInBuilding) + [level]) &&
                (UniqueLevelIds(old(b.levelsInBuilding)) ==> UniqueLevelIds(b.levelsInBuilding))
      ensures res.Ok? ==> GetLevel(buildingId, level.id) == Ok(level)
      ensures forall b :: b in buildingController.buildings && res.Err? ==> unchanged(b)
      ensures res.Ok? ==> forall b :: (b in buildingController.buildings &&
                b != old(buildingController.GetBuilding(buildingId)).value) ==> unchanged(b)
    {
      var found := buildingController.GetBuilding(buildingId);
      if found.Err? {
        return Err(found.error);
      }
      var building := found.value;
      var ls := building.levelsInBuilding;
      for i := 0 to |ls|
        invariant forall j :: 0 <= j < i ==> ls[j].id != level.id
      {
        if ls[i].id == level.id {
          return Err(BadRequest);
        }
      }
      var added := building.Add(LevelLoc(level));
      res := Ok(level);
      assert forall j :: 0 <= j < |ls| ==> building.levelsInBuilding[j].id != level.id;
    }

    /** Overwrites the room list, then the name, of the level found by ids; its id stays. */
    method UpdateLevel(buildingId: int, levelId: int, updatedLevel: Level) returns (res: Result<Level>)
      modifies set b, l | b in buildingController.buildings && l in b.levelsInBuilding :: l
      ensures res == old(GetLevel(buildingId, levelId))
      ensures res.Ok? ==> res.value.id == levelId && res.value.name == old(updatedLevel.name) &&
                          res.value.roomsOnLevel == old(updatedLevel.roomsOnLevel)
      ensures forall b, l :: (b in buildingController.buildings && l in b.levelsInBuilding &&
                              (res.Err? || l != res.value)) ==> unchanged(l)
    {
      res := GetLevel(buildingId, levelId);
      if res.Err? {
        return;
      }
      var level := res.value;
      var rooms, name := updatedLevel.roomsOnLevel, updatedLevel.name;
      level.SetRoomsOnLevel(rooms);
      level.SetName(name);
    }

    /** Removes the level found by ids from its building through `Building.remove`, keeping the
        other levels in order; with distinct level ids, no level with that id is left. */
    method DeleteLevel(buildingId: int, levelId: int) returns (o: Outcome)
      modifies (set b | b in buildingController.buildings)`levelsInBuilding
      ensures buildingController.buildings == old(buildingController.buildings)
      ensures old(GetLevel(buildingId, levelId)).Err? ==>
                o == Fail(NotFound) && forall b :: b in buildingController.buildings ==> unchanged(b)
      ensures old(GetLevel(buildingId, levelId)).Ok? ==>
                var b := old(buildingController.GetBuilding(buildingId)).value;
                var i := LevelIndex(old(b.levelsInBuilding), levelId).value;
                o == Pass && b.levelsInBuilding == old(b.levelsInBuilding)[..i] + old(b.levelsInBuilding)[i + 1..] &&
                (UniqueLevelIds(old(b.levelsInBuilding)) ==> GetLevel(buildingId, levelId).Err?) &&
                forall c :: c in buildingController.buildings && c != b ==> unchanged(c)
    {
      var foundBuilding := buildingController.GetBuilding(buildingId);
      if foundBuilding.Err? {
        return Fail(foundBuilding.error);
      }
      var building := foundBuilding.value;
      var foundLevel := GetLevel(buildingId, levelId);
      if foundLevel.Err? {
        return Fail(foundLevel.error);
      }
      var level := foundLevel.value;
      var i := LevelIndex(building.levelsInBuilding, levelId).value;
      RemoveFirstAt(building.levelsInBuilding, level, i);
      if UniqueLevelIds(building.levelsInBuilding) {
        RemovedIdAbsent(building.levelsInBuilding, (l: Level) => l.id, i);
      }
      var removed := building.Remove(LevelLoc(level));
      o := Pass;
    }

    /** The area, cube, light-power, energy-consumption, light-cost and energy-cost endpoints
        of a level, selected by `k`. */
    method LevelMetric(buildingId: int, levelId: int, k: Metric) returns (res: Result<real>)
      requires GetLevel(buildingId, levelId).Ok? ==>
                 RoomsMeasurable(k.Base(), GetLevel(buildingId, levelId).value.roomsOnLevel)
      ensures GetLevel(buildingId, levelId).Err? ==> res == Err(NotFound)
      ensures GetLevel(buildingId, levelId).Ok? ==> res == Ok(MetricOfLevel(k, GetLevel(buildingId, levelId).value))
    {
      var found := GetLevel(buildingId, levelId);
      if found.Err? {
        return Err(found.error);
      }
      var x := MeasureLevel(found.value, k);
      res := Ok(x);
    }
  }
}
