/** The metric visitors: one class per metric, each with a visit for a room, a level and a
    building. Area, Cube, Light and Energy add up their children's results in list order;
    LightCost and EnergyCost delegate to the Light or Energy visitor and multiply once by the
    unit cost fixed at construction; ExceedingHeating sums like Energy and also appends every
    room over its limit to a list it never clears. */
module Visitors {
  import opened Locations
  import opened Metrics

  /** Total floor area: room areas added up. */
  class AreaVisitor {
    constructor () {}

    /** A room's area is its own area field. */
    method VisitRoom(room: Room) returns (area: real)
      ensures area == RoomValue(Area, room)
    {
      area := room.area;
    }

    /** The rooms' values added up in list order; 0 for a level without rooms. */
    method VisitLevel(level: Level) returns (area: real)
      ensures area == SumRooms(Area, level.roomsOnLevel)
      ensures level.roomsOnLevel == [] ==> area == 0.0
    {
      area := 0.0;
      var rooms := level.roomsOnLevel;
      for i := 0 to |rooms|
        invariant area == SumRooms(Area, rooms[..i])
      {
        var x := VisitRoom(rooms[i]);
        area := area + x;
        assert rooms[..i + 1][..i] == rooms[..i];
      }
      assert rooms[..|rooms|] == rooms;
    }

    /** The levels' values added up in list order, which is the value of every room of the
        building, flattened level after level; 0 for a building without levels. */
    method VisitBuilding(building: Building) returns (area: real)
      ensures area == SumLevels(Area, building.levelsInBuilding)
      ensures building.levelsInBuilding == [] ==> area == 0.0
    {
      area := 0.0;
      var levels := building.levelsInBuilding;
      for i := 0 to |levels|
        invariant area == SumLevels(Area, levels[..i])
      {
        var x := VisitLevel(levels[i]);
        area := area + x;
        assert levels[..i + 1][..i] == levels[..i];
      }
      assert levels[..|levels|] == levels;
    }
  }

  /** Total volume: room cubes added up. */
  class CubeVisitor {
    constructor () {}

    /** A room's cube is its own cube field. */
    method VisitRoom(room: Room) returns (cube: real)
      ensures cube == RoomValue(Cube, room)
    {
      cube := room.cube;
    }

    /** The rooms' values added up in list order; 0 for a level without rooms. */
    method VisitLevel(level: Level) returns (cube: real)
      ensures cube == SumRooms(Cube, level.roomsOnLevel)
      ensures level.roomsOnLevel == [] ==> cube == 0.0
    {
      cube := 0.0;
      var rooms := level.roomsOnLevel;
      for i := 0 to |rooms|
        invariant cube == SumRooms(Cube, rooms[..i])
      {
        var x := VisitRoom(rooms[i]);
        cube := cube + x;
        assert rooms[..i + 1][..i] == rooms[..i];
      }
      assert rooms[..|rooms|] == rooms;
    }

    /** The levels' values added up in list order, which is the value of every room of the
        building, flattened level after level; 0 for a building without levels. */
    method VisitBuilding(building: Building) returns (cube: real)
      ensures cube == SumLevels(Cube, building.levelsInBuilding)
      ensures building.levelsInBuilding == [] ==> cube == 0.0
    {
      cube := 0.0;
      var levels := building.levelsInBuilding;
      for i := 0 to |levels|
        invariant cube == SumLevels(Cube, levels[..i])
      {
        var x := VisitLevel(levels[i]);
        cube := cube + x;
        assert levels[..i + 1][..i] == levels[..i];
      }
      assert levels[..|levels|] == levels;
    }
  }

  /** Light power per unit of area, summed room by room: a sum of ratios, not total light over total area. */
  class LightVisitor {
    constructor () {}

    /** A room's light power is its light over its area, defined for a nonzero area. */
    method VisitRoom(room: Room) returns (lightPower: real)
      requires Measurable(Light, room)
      ensures lightPower == RoomValue(Light, room)
    {
      lightPower := room.light / room.area;
    }

    /** The rooms' values added up in list order; 0 for a level without rooms. */
    method VisitLevel(level: Level) returns (lightPower: real)
      requires RoomsMeasurable(Light, level.roomsOnLevel)
      ensures lightPower == SumRooms(Light, level.roomsOnLevel)
      ensures level.roomsOnLevel == [] ==> lightPower == 0.0
    {
      lightPower := 0.0;
      var rooms := level.roomsOnLevel;
      for i := 0 to |rooms|
        invariant lightPower == SumRooms(Light, rooms[..i])
      {
        var x := VisitRoom(rooms[i]);
        lightPower := lightPower + x;
        assert rooms[..i + 1][..i] == rooms[..i];
      }
      assert rooms[..|rooms|] == rooms;
    }

    /** The levels' values added up in list order, which is the value of every room of the
        building, flattened level after level; 0 for a building without levels. */
    method VisitBuilding(building: Building) returns (lightPower: real)
      requires LevelsMeasurable(Light, building.levelsInBuilding)
      ensures lightPower == SumLevels(Light, building.levelsInBuilding)
      ensures building.levelsInBuilding == [] ==> lightPower == 0.0
    {
      lightPower := 0.0;
      var levels := building.levelsInBuilding;
      for i := 0 to |levels|
        invariant lightPower == SumLevels(Light, levels[..i])
      {
        var x := VisitLevel(levels[i]);
        lightPower := lightPower + x;
        assert levels[..i + 1][..i] == levels[..i];
      }
      assert levels[..|levels|] == levels;
    }
  }

  /** Heating energy per unit of volume, summed room by room: a sum of ratios, not total heating over total cube. */
  class EnergyVisitor {
    constructor () {}

    /** A room's energy is its heating over its cube, defined for a nonzero cube. */
    method VisitRoom(room: Room) returns (energy: real)
      requires Measurable(Energy, room)
      ensures energy == RoomValue(Energy, room)
    {
      energy := room.heating / room.cube;
    }

    /** The rooms' values added up in list order; 0 for a level without rooms. */
    method VisitLevel(level: Level) returns (energy: real)
      requires RoomsMeasurable(Energy, level.roomsOnLevel)
      ensures energy == SumRooms(Energy, level.roomsOnLevel)
      ensures level.roomsOnLevel == [] ==> energy == 0.0
    {
      energy := 0.0;
      var rooms := level.roomsOnLevel;
      for i := 0 to |rooms|
        invariant energy == SumRooms(Energy, rooms[..i])
      {
        var x := VisitRoom(rooms[i]);
        energy := energy + x;
        assert rooms[..i + 1][..i] == rooms[..i];
      }
      assert rooms[..|rooms|] == rooms;
    }

    /** The levels' values added up in list order, which is the value of every room of the
        building, flattened level after level; 0 for a building without levels. */
    method VisitBuilding(building: Building) returns (energy: real)
      requires LevelsMeasurable(Energy, building.levelsInBuilding)
      ensures energy == SumLevels(Energy, building.levelsInBuilding)
      ensures building.levelsInBuilding == [] ==> energy == 0.0
    {
      energy := 0.0;
      var levels := building.levelsInBuilding;
      for i := 0 to |levels|
        invariant energy == SumLevels(Energy, levels[..i])
      {
        var x := VisitLevel(levels[i]);
        energy := energy + x;
        assert levels[..i + 1][..i] == levels[..i];
      }
      assert levels[..|levels|] == levels;
    }
  }

  /** Lighting cost: the Light visitor's result multiplied once by the unit cost. */
  class LightCostVisitor {
    const lightCost: real
    const lightVisitor: LightVisitor

    constructor (lightCost: real)
      ensures this.lightCost == lightCost
    {
      this.lightCost := lightCost;
      lightVisitor := new LightVisitor();
    }

    method VisitRoom(room: Room) returns (cost: real)
      requires Measurable(Light, room)
      ensures cost == RoomValue(Light, room) * lightCost
    {
      var x := lightVisitor.VisitRoom(room);
      cost := x * lightCost;
    }

    method VisitLevel(level: Level) returns (cost: real)
      requires RoomsMeasurable(Light, level.roomsOnLevel)
      ensures cost == SumRooms(Light, level.roomsOnLevel) * lightCost
    {
      var x := lightVisitor.VisitLevel(level);
      cost := x * lightCost;
    }

    /** The cost of the whole building is the sum over all its rooms of light/area, scaled once. */
    method VisitBuilding(building: Building) returns (cost: real)
      requires LevelsMeasurable(Light, building.levelsInBuilding)
      ensures cost == SumLevels(Light, building.levelsInBuilding) * lightCost
    {
      var x := lightVisitor.VisitBuilding(building);
      cost := x * lightCost;
    }
  }

  /** Heating cost: the Energy visitor's result multiplied once by the unit cost. */
  class EnergyCostVisitor {
    const energyCost: real
    const energyVisitor: EnergyVisitor

    constructor (energyCost: real)
      ensures this.energyCost == energyCost
    {
      this.energyCost := energyCost;
      energyVisitor := new EnergyVisitor();
    }

    method VisitRoom(room: Room) returns (cost: real)
      requires Measurable(Energy, room)
      ensures cost == RoomValue(Energy, room) * energyCost
    {
      var x := energyVisitor.VisitRoom(room);
      cost := x * energyCost;
    }

    method VisitLevel(level: Level) returns (cost: real)
      requires RoomsMeasurable(Energy, level.roomsOnLevel)
      ensures cost == SumRooms(Energy, level.roomsOnLevel) * energyCost
    {
      var x := energyVisitor.VisitLevel(level);
      cost := x * energyCost;
    }

    /** The cost of the whole building is the sum over all its rooms of heating/cube, scaled once. */
    method VisitBuilding(building: Building) returns (cost: real)
      requires LevelsMeasurable(Energy, building.levelsInBuilding)
      ensures cost == SumLevels(Energy, building.levelsInBuilding) * energyCost
    {
      var x := energyVisitor.VisitBuilding(building);
      cost := x * energyCost;
    }
  }

  /** Sums heating/cube like the Energy visitor and, on the way, appends to its list every
      room whose value is strictly above the limit. The list is only ever appended to, so a
      second traversal with the same visitor reports the rooms again. */
  class ExceedingHeatingVisitor {
    const energyLimit: real
    var roomsExceedingHeating: seq<Room>
    const energyVisitor: EnergyVisitor

    constructor (energyLimit: real)
      ensures this.energyLimit == energyLimit && roomsExceedingHeating == []
    {
      this.energyLimit := energyLimit;
      roomsExceedingHeating := [];
      energyVisitor := new EnergyVisitor();
    }

    /** A room's energy, recording the room when it is over the limit. */
    method VisitRoom(room: Room) returns (energy: real)
      requires Measurable(Energy, room)
      modifies this`roomsExceedingHeating
      ensures energy == RoomValue(Energy, room)
      ensures roomsExceedingHeating == old(roomsExceedingHeating) + (if energy > energyLimit then [room] else [])
    {
      energy := energyVisitor.VisitRoom(room);
      if energy > energyLimit {
        roomsExceedingHeating := roomsExceedingHeating + [room];
      }
    }

    /** The rooms over the limit are appended in their order on the level. The code reaches
        each room through `room.accept(this)`, which dispatches straight back to the room rule
        of this same visitor, so the call is written here as that rule. */
    method VisitLevel(level: Level) returns (total: real)
      requires RoomsMeasurable(Energy, level.roomsOnLevel)
      modifies this`roomsExceedingHeating
      ensures total == SumRooms(Energy, level.roomsOnLevel)
      ensures roomsExceedingHeating == old(roomsExceedingHeating) + Exceeding(level.roomsOnLevel, energyLimit)
    {
      total := 0.0;
      var rooms := level.roomsOnLevel;
      ghost var base, added: seq<Room> := roomsExceedingHeating, [];
      for i := 0 to |rooms|
        invariant total == old(SumRooms(Energy, rooms[..i]))
        invariant added == old(Exceeding(rooms[..i], energyLimit))
        invariant roomsExceedingHeating == base + added
      {
        assert rooms[..i + 1][..i] == rooms[..i];
        var x := VisitRoom(rooms[i]);
        total := total + x;
        ghost var step := if x > energyLimit then [rooms[i]] else [];
        added := added + step;
      }
      assert rooms[..|rooms|] == rooms;
    }

    /** The rooms over the limit are appended level after level. `level.accept(this)` in the
        code dispatches straight back to the level rule of this same visitor. */
    method VisitBuilding(building: Building) returns (total: real)
      requires LevelsMeasurable(Energy, building.levelsInBuilding)
      modifies this`roomsExceedingHeating
      ensures total == SumLevels(Energy, building.levelsInBuilding)
      ensures roomsExceedingHeating == old(roomsExceedingHeating) + ExceedingLevels(building.levelsInBuilding, energyLimit)
    {
      total := 0.0;
      var levels := building.levelsInBuilding;
      ghost var base, added: seq<Room> := roomsExceedingHeating, [];
      for i := 0 to |levels|
        invariant total == old(SumLevels(Energy, levels[..i]))
        invariant added == old(ExceedingLevels(levels[..i], energyLimit))
        invariant roomsExceedingHeating == base + added
      {
        assert levels[..i + 1][..i] == levels[..i];
        var x := VisitLevel(levels[i]);
        total := total + x;
        ghost var step := Exceeding(levels[i].roomsOnLevel, energyLimit);
        added := added + step;
      }
      assert levels[..|levels|] == levels;
    }
  }
}
