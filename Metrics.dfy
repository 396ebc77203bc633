/** What the metric visitors compute, stated as functions over the hierarchy.
    Area and Cube add up room fields; Light and Energy add up per-room ratios
    (light/area, heating/cube): a sum of ratios, not a ratio of sums. The two
    cost metrics multiply the whole ratio sum once by a unit cost.
    Doubles are modelled as `real`; a ratio is defined only for a nonzero
    denominator, since the code simply divides. */
module Metrics {
  import opened Locations

  /** The per-room quantity one of the four summing visitors adds up. */
  datatype Measure = Area | Cube | Light | Energy

  /** The number a query asks for: a plain sum, or a ratio sum times a unit cost. */
  datatype Metric =
    | Plain(measure: Measure)
    | LightCost(lightCost: real)
    | EnergyCost(energyCost: real)
  {
    /** The measure summed before any cost is applied. */
    function Base(): Measure
    {
      match this
      case Plain(m) => m
      case LightCost(_) => Light
      case EnergyCost(_) => Energy
    }

    /** The factor applied once to the sum: 1 for a plain sum, the unit cost otherwise. */
    function Scale(): real
    {
      match this
      case Plain(_) => 1.0
      case LightCost(c) => c
      case EnergyCost(c) => c
    }
  }

  /** The room's value for `m` is defined: a nonzero area for Light, a nonzero cube for Energy. */
  predicate Measurable(m: Measure, r: Room)
    reads r
  {
    match m
    case Light => r.area != 0.0
    case Energy => r.cube != 0.0
    case _ => true
  }

  predicate RoomsMeasurable(m: Measure, rooms: seq<Room>)
    reads set r | r in rooms
  {
    forall r :: r in rooms ==> Measurable(m, r)
  }

  /** Every room of every level is measurable. */
  predicate LevelsMeasurable(m: Measure, levels: seq<Level>)
    reads (set l | l in levels), (set l, r | l in levels && r in l.roomsOnLevel :: r)
  {
    forall l :: l in levels ==> RoomsMeasurable(m, l.roomsOnLevel)
  }

  /** The leaf rule of each summing visitor. */
  function RoomValue(m: Measure, r: Room): real
    reads r
    requires Measurable(m, r)
  {
    match m
    case Area => r.area
    case Cube => r.cube
    case Light => r.light / r.area
    case Energy => r.heating / r.cube
  }

  /** The rooms' values added up left to right, as the accumulator loops do. */
  function SumRooms(m: Measure, rooms: seq<Room>): real
    reads set r | r in rooms
    requires RoomsMeasurable(m, rooms)
    decreases |rooms|
  {
    if rooms == [] then 0.0
    else SumRooms(m, rooms[..|rooms| - 1]) + RoomValue(m, rooms[|rooms| - 1])
  }

  /** The levels' sums added up left to right. */
  function SumLevels(m: Measure, levels: seq<Level>): real
    reads (set l | l in levels), (set l, r | l in levels && r in l.roomsOnLevel :: r)
    requires LevelsMeasurable(m, levels)
    decreases |levels|
  {
    if levels == [] then 0.0
    else
      var init, last := levels[..|levels| - 1], levels[|levels| - 1];
      SumLevels(m, init) + SumRooms(m, last.roomsOnLevel)
  }

  /** The rooms whose heating/cube ratio is strictly above `limit`, in their order. */
  function Exceeding(rooms: seq<Room>, limit: real): seq<Room>
    reads set r | r in rooms
    requires RoomsMeasurable(Energy, rooms)
    decreases |rooms|
  {
    if rooms == [] then []
    else
      var last := rooms[|rooms| - 1];
      Exceeding(rooms[..|rooms| - 1], limit) + (if RoomValue(Energy, last) > limit then [last] else [])
  }

  /** The levels' exceeding rooms, level after level. */
  function ExceedingLevels(levels: seq<Level>, limit: real): seq<Room>
    reads (set l | l in levels), (set l, r | l in levels && r in l.roomsOnLevel :: r)
    requires LevelsMeasurable(Energy, levels)
    decreases |levels|
  {
    if levels == [] then []
    else
      var init, last := levels[..|levels| - 1], levels[|levels| - 1];
      ExceedingLevels(init, limit) + Exceeding(last.roomsOnLevel, limit)
  }

  /** Every rule the three-way visit protocol fixes for a room. */
  function MetricOfRoom(k: Metric, r: Room): real
    reads r
    requires Measurable(k.Base(), r)
  {
    match k
    case Plain(m) => RoomValue(m, r)
    case LightCost(c) => RoomValue(Light, r) * c
    case EnergyCost(c) => RoomValue(Energy, r) * c
  }

  /** Every rule the three-way visit protocol fixes for a level. */
  function MetricOfLevel(k: Metric, l: Level): real
    reads l, set r | r in l.roomsOnLevel
    requires RoomsMeasurable(k.Base(), l.roomsOnLevel)
  {
    match k
    case Plain(m) => SumRooms(m, l.roomsOnLevel)
    case LightCost(c) => SumRooms(Light, l.roomsOnLevel) * c
    case EnergyCost(c) => SumRooms(Energy, l.roomsOnLevel) * c
  }

  /** Every rule the three-way visit protocol fixes for a building. */
  function MetricOfBuilding(k: Metric, b: Building): real
    reads b, (set l | l in b.levelsInBuilding), (set l, r | l in b.levelsInBuilding && r in l.roomsOnLevel :: r)
    requires LevelsMeasurable(k.Base(), b.levelsInBuilding)
  {
    match k
    case Plain(m) => SumLevels(m, b.levelsInBuilding)
    case LightCost(c) => SumLevels(Light, b.levelsInBuilding) * c
    case EnergyCost(c) => SumLevels(Energy, b.levelsInBuilding) * c
  }

  /** A building's metric is the level-wise sum of its rooms' values, scaled once. */
  lemma MetricOfBuildingLevelwise(k: Metric, b: Building)
    requires LevelsMeasurable(k.Base(), b.levelsInBuilding)
    ensures MetricOfBuilding(k, b) == SumLevels(k.Base(), b.levelsInBuilding) * k.Scale()
    ensures b.levelsInBuilding == [] ==> MetricOfBuilding(k, b) == 0.0
  {
  }

  /** Whatever the metric, a building's value is the per-room values of all its rooms,
      flattened in level order, added up and scaled once. */
  lemma MetricOfBuildingFlat(k: Metric, b: Building)
    requires LevelsMeasurable(k.Base(), b.levelsInBuilding)
    ensures RoomsMeasurable(k.Base(), AllRooms(b.levelsInBuilding))
    ensures MetricOfBuilding(k, b) == SumRooms(k.Base(), AllRooms(b.levelsInBuilding)) * k.Scale()
  {
    SumLevelsFlatten(k.Base(), b.levelsInBuilding);
    MetricOfBuildingLevelwise(k, b);
  }

  /** A room reached by flattening belongs to one of the levels, and conversely. */
  lemma {:induction false} AllRoomsMember(levels: seq<Level>, r: Room)
    ensures r in AllRooms(levels) <==> exists l :: l in levels && r in l.roomsOnLevel
  {
    if levels != [] {
      var init, last := levels[..|levels| - 1], levels[|levels| - 1];
      AllRoomsMember(init, r);
      assert forall l :: l in levels <==> l in init || l == last;
    }
  }

  /** Measurability of every level's rooms is measurability of the flattened rooms. */
  lemma LevelsMeasurableFlat(m: Measure, levels: seq<Level>)
    ensures LevelsMeasurable(m, levels) <==> RoomsMeasurable(m, AllRooms(levels))
  {
    forall r {
      AllRoomsMember(levels, r);
    }
  }

  /** Additivity: the sum over two lists of rooms is the sum of their sums. */
  lemma {:induction false} SumRoomsAppend(m: Measure, a: seq<Room>, b: seq<Room>)
    requires RoomsMeasurable(m, a) && RoomsMeasurable(m, b)
    ensures RoomsMeasurable(m, a + b)
    ensures SumRooms(m, a + b) == SumRooms(m, a) + SumRooms(m, b)
  {
    if b == [] {
      assert a + b == a;
    } else {
      var init := b[..|b| - 1];
      SumRoomsAppend(m, a, init);
      assert (a + b)[..|a + b| - 1] == a + init;
    }
  }

  /** Flatten then sum: adding up level by level equals adding up every room of every level,
      level after level. */
  lemma {:induction false} SumLevelsFlatten(m: Measure, levels: seq<Level>)
    requires LevelsMeasurable(m, levels)
    ensures RoomsMeasurable(m, AllRooms(levels))
    ensures SumLevels(m, levels) == SumRooms(m, AllRooms(levels))
  {
    LevelsMeasurableFlat(m, levels);
    if levels != [] {
      var init, last := levels[..|levels| - 1], levels[|levels| - 1];
      SumLevelsFlatten(m, init);
      SumRoomsAppend(m, AllRooms(init), last.roomsOnLevel);
    }
  }

  /** Filtering two lists of rooms one after the other is filtering their concatenation. */
  lemma {:induction false} ExceedingAppend(a: seq<Room>, b: seq<Room>, limit: real)
    requires RoomsMeasurable(Energy, a) && RoomsMeasurable(Energy, b)
    ensures RoomsMeasurable(Energy, a + b)
    ensures Exceeding(a + b, limit) == Exceeding(a, limit) + Exceeding(b, limit)
  {
    if b == [] {
      assert a + b == a;
    } else {
      var init := b[..|b| - 1];
      ExceedingAppend(a, init, limit);
      assert (a + b)[..|a + b| - 1] == a + init;
    }
  }

  /** A room is reported exactly when it is one of the rooms and its heating/cube ratio is
      strictly above the limit; a room at the limit is not reported. */
  lemma {:induction false} ExceedingMember(rooms: seq<Room>, limit: real, r: Room)
    requires RoomsMeasurable(Energy, rooms)
    ensures r in Exceeding(rooms, limit) <==> r in rooms && r.heating / r.cube > limit
  {
    if rooms != [] {
      var init, last := rooms[..|rooms| - 1], rooms[|rooms| - 1];
      ExceedingMember(init, limit, r);
      assert forall x :: x in rooms <==> x in init || x == last;
    }
  }

  /** Flatten then filter: filtering level by level equals filtering every room of every level,
      level after level. */
  lemma {:induction false} ExceedingLevelsFlatten(levels: seq<Level>, limit: real)
    requires LevelsMeasurable(Energy, levels)
    ensures RoomsMeasurable(Energy, AllRooms(levels))
    ensures ExceedingLevels(levels, limit) == Exceeding(AllRooms(levels), limit)
  {
    LevelsMeasurableFlat(Energy, levels);
    if levels != [] {
      var init, last := levels[..|levels| - 1], levels[|levels| - 1];
      ExceedingLevelsFlatten(init, limit);
      ExceedingAppend(AllRooms(init), last.roomsOnLevel, limit);
    }
  }

  /** Rooms that all have the same value `v` add up to their number times `v`: five rooms of
      area 100 give 500. */
  lemma {:induction false} SumRoomsUniform(m: Measure, rooms: seq<Room>, v: real)
    requires RoomsMeasurable(m, rooms)
    requires forall r :: r in rooms ==> RoomValue(m, r) == v
    ensures SumRooms(m, rooms) == |rooms| as real * v
  {
    if rooms != [] {
      var init := rooms[..|rooms| - 1];
      SumRoomsUniform(m, init, v);
      assert |rooms| as real * v == |init| as real * v + v;
    }
  }

  /** Levels that each add up to the same total `w` add up to their number times `w`: two
      levels of five rooms of area 100 each give 1000. */
  lemma {:induction false} SumLevelsUniform(m: Measure, levels: seq<Level>, w: real)
    requires LevelsMeasurable(m, levels)
    requires forall i :: 0 <= i < |levels| ==> SumRooms(m, levels[i].roomsOnLevel) == w
    ensures SumLevels(m, levels) == |levels| as real * w
  {
    if levels != [] {
      var init, last := levels[..|levels| - 1], levels[|levels| - 1];
      SumLevelsUniform(m, init, w);
      assert |levels| as real * w == |init| as real * w + w;
    }
  }
}
