/** What each metric endpoint of the two controllers computes once it has found its building
    or level: which visitor it makes, whether it first runs `accept`, and what it reports. */
module Endpoints {
  import opened Locations
  import opened Metrics
  import opened Visitors
  import opened Dispatch

  /** What a building metric endpoint computes once the building is found: the named
      visitor, freshly made, applied to it. */
  method MeasureBuilding(building: Building, k: Metric) returns (x: real)
    requires LevelsMeasurable(k.Base(), building.levelsInBuilding)
    ensures x == MetricOfBuilding(k, building)
  {
    match k {
    case Plain(m) => x := SumBuilding(building, m);
    case LightCost(c) => x := LightCostOfBuilding(building, c);
    case EnergyCost(c) => x := EnergyCostOfBuilding(building, c);
    }
  }

  /** The area, cube, light-power and energy-consumption endpoints of a building:
      `new XVisitor().visit(building)`. */
  method SumBuilding(building: Building, m: Measure) returns (x: real)
    requires LevelsMeasurable(m, building.levelsInBuilding)
    ensures x == SumLevels(m, building.levelsInBuilding)
  {
    match m {
    case Area =>
      var visitor := new AreaVisitor();
      x := visitor.VisitBuilding(building);
    case Cube =>
      var visitor := new CubeVisitor();
      x := visitor.VisitBuilding(building);
    case Light =>
      var visitor := new LightVisitor();
      x := visitor.VisitBuilding(building);
    case Energy =>
      var visitor := new EnergyVisitor();
      x := visitor.VisitBuilding(building);
    }
  }

  /** The light-cost endpoint of a building: it runs `building.accept(visitor)`, drops that
      result, and reports `visitor.visit(building)`. */
  method LightCostOfBuilding(building: Building, lightCost: real) returns (x: real)
    requires LevelsMeasurable(Light, building.levelsInBuilding)
    ensures x == SumLevels(Light, building.levelsInBuilding) * lightCost
  {
    var visitor := new LightCostVisitor(lightCost);
    var accepted := AcceptBuilding(building, LightCostVisit(visitor));
    assert LevelsMeasurable(Light, building.levelsInBuilding);
    x := visitor.VisitBuilding(building);
  }

  /** The energy-cost endpoint of a building, shaped like the light-cost one. */
  method EnergyCostOfBuilding(building: Building, energyCost: real) returns (x: real)
    requires LevelsMeasurable(Energy, building.levelsInBuilding)
    ensures x == SumLevels(Energy, building.levelsInBuilding) * energyCost
  {
    var visitor := new EnergyCostVisitor(energyCost);
    var accepted := AcceptBuilding(building, EnergyCostVisit(visitor));
    assert LevelsMeasurable(Energy, building.levelsInBuilding);
    x := visitor.VisitBuilding(building);
  }

  /** What a level metric endpoint computes once the level is found: the named visitor,
      freshly made, applied to it. */
  method MeasureLevel(level: Level, k: Metric) returns (x: real)
    requires RoomsMeasurable(k.Base(), level.roomsOnLevel)
    ensures x == MetricOfLevel(k, level)
  {
    match k {
    case Plain(m) => x := SumLevel(level, m);
    case LightCost(c) => x := LightCostOfLevel(level, c);
    case EnergyCost(c) => x := EnergyCostOfLevel(level, c);
    }
  }

  /** The area, cube, light-power and energy-consumption endpoints of a level. */
  method SumLevel(level: Level, m: Measure) returns (x: real)
    requires RoomsMeasurable(m, level.roomsOnLevel)
    ensures x == SumRooms(m, level.roomsOnLevel)
  {
    match m {
    case Area =>
      var visitor := new AreaVisitor();
      x := visitor.VisitLevel(level);
    case Cube =>
      var visitor := new CubeVisitor();
      x := visitor.VisitLevel(level);
    case Light =>
      var visitor := new LightVisitor();
      x := visitor.VisitLevel(level);
    case Energy =>
      var visitor := new EnergyVisitor();
      x := visitor.VisitLevel(level);
    }
  }

  /** The light-cost endpoint of a level: `level.accept(visitor)`, then `visitor.visit(level)`. */
  method LightCostOfLevel(level: Level, lightCost: real) returns (x: real)
    requires RoomsMeasurable(Light, level.roomsOnLevel)
    ensures x == SumRooms(Light, level.roomsOnLevel) * lightCost
  {
    var visitor := new LightCostVisitor(lightCost);
    var accepted := AcceptLevel(level, LightCostVisit(visitor));
    x := visitor.VisitLevel(level);
  }

  /** The energy-cost endpoint of a level, shaped like the light-cost one. */
  method EnergyCostOfLevel(level: Level, energyCost: real) returns (x: real)
    requires RoomsMeasurable(Energy, level.roomsOnLevel)
    ensures x == SumRooms(Energy, level.roomsOnLevel) * energyCost
  {
    var visitor := new EnergyCostVisitor(energyCost);
    var accepted := AcceptLevel(level, EnergyCostVisit(visitor));
    x := visitor.VisitLevel(level);
  }

  /** The exceeding-heating endpoint once the building is found: a fresh visitor accepted by
      the building, whose list then holds exactly the building's rooms over the limit, level
      after level and in each level in room order. */
  method ExceedingRoomsOf(building: Building, energyLimit: real) returns (rooms: seq<Room>)
    requires LevelsMeasurable(Energy, building.levelsInBuilding)
    ensures RoomsMeasurable(Energy, AllRooms(building.levelsInBuilding))
    ensures rooms == Exceeding(AllRooms(building.levelsInBuilding), energyLimit)
  {
    var visitor := new ExceedingHeatingVisitor(energyLimit);
    var total := AcceptBuilding(building, ExceedingHeatingVisit(visitor));
    ExceedingLevelsFlatten(building.levelsInBuilding, energyLimit);
    rooms := visitor.roomsExceedingHeating;
  }
}
