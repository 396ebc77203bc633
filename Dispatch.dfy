/** The `accept` half of the double dispatch: Room.accept, Level.accept and Building.accept
    each hand their receiver to the matching visit rule of whichever visitor they are given.
    The seven visitors are gathered in one datatype, in place of the Visitor interface. */
module Dispatch {
  import opened Locations
  import opened Metrics
  import opened Visitors

  /** The argument of `accept`: any of the seven visitors. */
  datatype Visitor =
    | AreaVisit(area: AreaVisitor)
    | CubeVisit(cube: CubeVisitor)
    | LightVisit(light: LightVisitor)
    | EnergyVisit(energy: EnergyVisitor)
    | LightCostVisit(lightCost: LightCostVisitor)
    | EnergyCostVisit(energyCost: EnergyCostVisitor)
    | ExceedingHeatingVisit(exceeding: ExceedingHeatingVisitor)
  {
    /** The number the visitor computes. */
    function Kind(): Metric
    {
      match this
      case AreaVisit(_) => Plain(Area)
      case CubeVisit(_) => Plain(Cube)
      case LightVisit(_) => Plain(Light)
      case EnergyVisit(_) => Plain(Energy)
      case LightCostVisit(v) => LightCost(v.lightCost)
      case EnergyCostVisit(v) => EnergyCost(v.energyCost)
      case ExceedingHeatingVisit(_) => Plain(Energy)
    }

    /** The state a visit may change: only the exceeding-heating visitor has any. */
    function Footprint(): set<object>
    {
      if ExceedingHeatingVisit? then {exceeding} else {}
    }
  }

  /** `Room.accept`: hands the room to the visitor's room rule. */
  method AcceptRoom(room: Room, v: Visitor) returns (x: real)
    requires Measurable(v.Kind().Base(), room)
    modifies v.Footprint()
    ensures x == MetricOfRoom(v.Kind(), room)
    ensures v.ExceedingHeatingVisit? ==>
      v.exceeding.roomsExceedingHeating ==
        old(v.exceeding.roomsExceedingHeating) + (if x > v.exceeding.energyLimit then [room] else [])
  {
    match v
    case AreaVisit(a) => x := a.VisitRoom(room);
    case CubeVisit(c) => x := c.VisitRoom(room);
    case LightVisit(l) => x := l.VisitRoom(room);
    case EnergyVisit(e) => x := e.VisitRoom(room);
    case LightCostVisit(c) => x := c.VisitRoom(room);
    case EnergyCostVisit(c) => x := c.VisitRoom(room);
    case ExceedingHeatingVisit(e) => x := e.VisitRoom(room);
  }

  /** `Level.accept`: hands the level to the visitor's level rule. */
  method AcceptLevel(level: Level, v: Visitor) returns (x: real)
    requires RoomsMeasurable(v.Kind().Base(), level.roomsOnLevel)
    modifies v.Footprint()
    ensures x == MetricOfLevel(v.Kind(), level)
    ensures v.ExceedingHeatingVisit? ==>
      v.exceeding.roomsExceedingHeating ==
        old(v.exceeding.roomsExceedingHeating) + Exceeding(level.roomsOnLevel, v.exceeding.energyLimit)
  {
    match v
    case AreaVisit(a) => x := a.VisitLevel(level);
    case CubeVisit(c) => x := c.VisitLevel(level);
    case LightVisit(l) => x := l.VisitLevel(level);
    case EnergyVisit(e) => x := e.VisitLevel(level);
    case LightCostVisit(c) => x := c.VisitLevel(level);
    case EnergyCostVisit(c) => x := c.VisitLevel(level);
    case ExceedingHeatingVisit(e) => x := e.VisitLevel(level);
  }

  /** `Building.accept`: hands the building to the visitor's building rule. */
  method AcceptBuilding(building: Building, v: Visitor) returns (x: real)
    requires LevelsMeasurable(v.Kind().Base(), building.levelsInBuilding)
    modifies v.Footprint()
    ensures x == MetricOfBuilding(v.Kind(), building)
    ensures v.ExceedingHeatingVisit? ==>
      v.exceeding.roomsExceedingHeating ==
        old(v.exceeding.roomsExceedingHeating) + ExceedingLevels(building.levelsInBuilding, v.exceeding.energyLimit)
  {
    match v
    case AreaVisit(a) => x := a.VisitBuilding(building);
    case CubeVisit(c) => x := c.VisitBuilding(building);
    case LightVisit(l) => x := l.VisitBuilding(building);
    case EnergyVisit(e) => x := e.VisitBuilding(building);
    case LightCostVisit(c) => x := c.VisitBuilding(building);
    case EnergyCostVisit(c) => x := c.VisitBuilding(building);
    case ExceedingHeatingVisit(e) => x := e.VisitBuilding(building);
  }
}
