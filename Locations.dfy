/** The building -> level -> room hierarchy.
    Every location has an id, fixed at construction (no setter exists, so it is a
    `const` here), and a name that setters overwrite. A level owns an ordered list
    of rooms and a building an ordered list of levels; `add` appends, `remove`
    drops the first occurrence of that very object. */
module Locations {
  import opened Failures
  import opened Lists

  /** Any location, as passed to `add` and `remove`, which accept every kind. */
  datatype Location =
    | RoomLoc(room: Room)
    | LevelLoc(level: Level)
    | BuildingLoc(building: Building)

  /** The leaf of the hierarchy: four measurements and no children. */
  class Room {
    const id: int
    var name: string
    var area: real
    var cube: real
    var heating: real
    var light: real

    constructor (id: int, name: string, area: real, cube: real, heating: real, light: real)
      ensures this.id == id && this.name == name
      ensures this.area == area && this.cube == cube
      ensures this.heating == heating && this.light == light
    {
      this.id := id;
      this.name := name;
      this.area := area;
      this.cube := cube;
      this.heating := heating;
      this.light := light;
    }

    /** A room never takes a child, whatever is offered. */
    method Add(location: Location) returns (o: Outcome)
      ensures o == Fail(Unsupported)
    {
      o := Fail(Unsupported);
    }

    /** A room has no child to remove, whatever is named. */
    method Remove(location: Location) returns (o: Outcome)
      ensures o == Fail(Unsupported)
    {
      o := Fail(Unsupported);
    }

    method SetHeating(heating: real)
      modifies this`heating
      ensures this.heating == heating
    {
      this.heating := heating;
    }

    method SetLight(light: real)
      modifies this`light
      ensures this.light == light
    {
      this.light := light;
    }

    method SetName(name: string)
      modifies this`name
      ensures this.name == name
    {
      this.name := name;
    }

    method SetArea(area: real)
      modifies this`area
      ensures this.area == area
    {
      this.area := area;
    }

    method SetCube(cube: real)
      modifies this`cube
      ensures this.cube == cube
    {
      this.cube := cube;
    }
  }

  /** A storey: an ordered list of rooms. */
  class Level {
    const id: int
    var name: string
    var roomsOnLevel: seq<Room>

    constructor (id: int, name: string)
      ensures this.id == id && this.name == name && roomsOnLevel == []
    {
      this.id := id;
      this.name := name;
      roomsOnLevel := [];
    }

    /** Appends a room at the end; anything that is not a room is refused. Duplicates are not checked. */
    method Add(location: Location) returns (o: Outcome)
      modifies this`roomsOnLevel
      ensures location.RoomLoc? ==> o == Pass && roomsOnLevel == old(roomsOnLevel) + [location.room]
      ensures !location.RoomLoc? ==> o == Fail(InvalidChildType) && roomsOnLevel == old(roomsOnLevel)
    {
      if location.RoomLoc? {
        roomsOnLevel := roomsOnLevel + [location.room];
        o := Pass;
      } else {
        o := Fail(InvalidChildType);
      }
    }

    /** Drops the first occurrence of that room object, silently doing nothing if it is absent;
        anything that is not a room is refused. */
    method Remove(location: Location) returns (o: Outcome)
      modifies this`roomsOnLevel
      ensures location.RoomLoc? ==> o == Pass && roomsOnLevel == RemoveFirst(old(roomsOnLevel), location.room)
      ensures location.RoomLoc? && location.room !in old(roomsOnLevel) ==> roomsOnLevel == old(roomsOnLevel)
      ensures !location.RoomLoc? ==> o == Fail(InvalidChildType) && roomsOnLevel == old(roomsOnLevel)
    {
      if location.RoomLoc? {
        if location.room !in roomsOnLevel {
          RemoveFirstAbsent(roomsOnLevel, location.room);
        }
        roomsOnLevel := RemoveFirst(roomsOnLevel, location.room);
        o := Pass;
      } else {
        o := Fail(InvalidChildType);
      }
    }

    method SetName(name: string)
      modifies this`name
      ensures this.name == name
    {
      this.name := name;
    }

    method SetRoomsOnLevel(roomsOnLevel: seq<Room>)
      modifies this`roomsOnLevel
      ensures this.roomsOnLevel == roomsOnLevel
    {
      this.roomsOnLevel := roomsOnLevel;
    }
  }

  /** The root of the hierarchy: an ordered list of levels. */
  class Building {
    const id: int
    var name: string
    var levelsInBuilding: seq<Level>

    constructor (id: int, name: string)
      ensures this.id == id && this.name == name && levelsInBuilding == []
    {
      this.id := id;
      this.name := name;
      levelsInBuilding := [];
    }

    /** The no-argument constructor used by JSON binding. */
    constructor Default()
      ensures id == 0 && name == "" && levelsInBuilding == []
    {
      id := 0;
      name := "";
      levelsInBuilding := [];
    }

    /** Appends a level at the end; anything that is not a level is refused. */
    method Add(location: Location) returns (o: Outcome)
      modifies this`levelsInBuilding
      ensures location.LevelLoc? ==> o == Pass && levelsInBuilding == old(levelsInBuilding) + [location.level]
      ensures !location.LevelLoc? ==> o == Fail(InvalidChildType) && levelsInBuilding == old(levelsInBuilding)
    {
      if location.LevelLoc? {
        levelsInBuilding := levelsInBuilding + [location.level];
        o := Pass;
      } else {
        o := Fail(InvalidChildType);
      }
    }

    /** Drops the first occurrence of that level object, silently doing nothing if it is absent;
        anything that is not a level is refused. */
    method Remove(location: Location) returns (o: Outcome)
      modifies this`levelsInBuilding
      ensures location.LevelLoc? ==> o == Pass && levelsInBuilding == RemoveFirst(old(levelsInBuilding), location.level)
      ensures location.LevelLoc? && location.level !in old(levelsInBuilding) ==> levelsInBuilding == old(levelsInBuilding)
      ensures !location.LevelLoc? ==> o == Fail(InvalidChildType) && levelsInBuilding == old(levelsInBuilding)
    {
      if location.LevelLoc? {
        if location.level !in levelsInBuilding {
          RemoveFirstAbsent(levelsInBuilding, location.level);
        }
        levelsInBuilding := RemoveFirst(levelsInBuilding, location.level);
        o := Pass;
      } else {
        o := Fail(InvalidChildType);
      }
    }

    method SetName(name: string)
      modifies this`name
      ensures this.name == name
    {
      this.name := name;
    }

    method SetLevelsInBuilding(levelsInBuilding: seq<Level>)
      modifies this`levelsInBuilding
      ensures this.levelsInBuilding == levelsInBuilding
    {
      this.levelsInBuilding := levelsInBuilding;
    }
  }

  /** The rooms of a list of levels, level after level, each level's rooms in their order:
      the order in which every visitor reaches the rooms. */
  ghost function AllRooms(levels: seq<Level>): seq<Room>
    reads levels
  {
    if levels == [] then []
    else AllRooms(levels[..|levels| - 1]) + levels[|levels| - 1].roomsOnLevel
  }
}
