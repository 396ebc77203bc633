# buildingInfo — a Dafny model of the location hierarchy, its metric visitors and the registry controllers

buildingInfo is a small REST service that keeps a list of buildings. Each building has an
ordered list of levels, and each level has an ordered list of rooms. Each room carries an area,
a cube (volume), a heating value and a light value. Metrics are computed by visitors:
- total area and total cube;
- light power (light/area per room, added up);
- energy consumption (heating/cube per room, added up);
- the two costs (a ratio sum times a unit cost);
- the list of rooms whose heating/cube ratio is above a limit.

This project models four parts of that program:

- **The hierarchy**, in `Locations.dfy`. `Room`, `Level` and `Building` are classes whose fields the
  setters overwrite. `add` appends a child and `remove` drops the first occurrence of that very
  object. A child of the wrong kind is refused, and a room takes no child at all.
- **The visitors**, in `Visitors.dfy`. There is one class per visitor, with a visit method for a
  room, a level and a building. The accumulator loops become `for` loops, proved against the
  specification functions of `Metrics.dfy`:
  - `SumRooms` and `SumLevels` are the left-to-right sums;
  - `Exceeding` and `ExceedingLevels` are the ordered filter;
  - `MetricOfRoom`, `MetricOfLevel` and `MetricOfBuilding` give each visitor's value.
- **The `accept` half of the double dispatch**, in `Dispatch.dfy`, and what each metric endpoint
  computes once it has found its building or level, in `Endpoints.dfy`.
- **The registry logic of `BuildingController` and `LevelController`**, in `Controllers.dfy`:
  lookup by id (the first match), add with the duplicate-id refusal, update in place, and delete by
  identity. A `ResponseStatusException` becomes an `Err`/`Fail` carrying `NotFound`, `Conflict` or
  `BadRequest`.

`Failures.dfy` holds the error and result types. `Lists.dfy` models the two `java.util` operations
the code relies on: `stream().filter(...).findFirst()` and `List.remove(Object)`.

Doubles are modelled as `real`. Light and energy divide by the room's area or cube. A ratio is
therefore only defined for a nonzero denominator, and that is each such operation's precondition.

Two facts about the metrics are proved as lemmas:
- A building's metric is the value of every room of the building, flattened level after level,
  added up and scaled once (`MetricOfBuildingFlat`).
- The exceeding-heating list is exactly the building's rooms whose ratio is strictly above the
  limit, in level order and then room order (`ExceedingLevelsFlatten`, `ExceedingMember`).

The registry methods carry two further facts as postconditions:
- After a successful `BuildingController.AddBuilding` or `LevelController.AddLevel`, a lookup of
  the new id finds the building or level just added.
- After `BuildingController.DeleteBuilding` or `LevelController.DeleteLevel`, no building or level
  with that id is left, as long as ids were distinct. The lemma `RemovedIdAbsent` helps prove this.

Paths below are relative to the repository root.

## Model

| member | source | states |
|---|---|---|
| Lists.FindFirst | src/main/java/pl/put/poznan/buildingInfo/rest/BuildingController.java:92-93 | The first index whose element satisfies the filter, with no earlier match; None exactly when no element matches (the `orElseThrow` case) |
| Lists.RemoveFirst | src/main/java/pl/put/poznan/buildingInfo/logic/locations/Level.java:55-61 | `List.remove(x)` shortens a list that contains `x` by exactly one element and leaves the length of any other list as it is; it never introduces an element |
| Lists.RemoveFirstAbsent | src/main/java/pl/put/poznan/buildingInfo/logic/locations/Level.java:55-61 | Removing an object that is not in the list leaves the list unchanged (remove is a silent no-op) |
| Lists.RemoveFirstAt | src/main/java/pl/put/poznan/buildingInfo/rest/BuildingController.java:140-141 | Removing the object whose first occurrence is at position i deletes exactly that position and keeps the rest in order |
| Locations.Room.constructor | src/main/java/pl/put/poznan/buildingInfo/logic/locations/Room.java:41-47 | Every field holds the value it was constructed with |
| Locations.Room.Add | src/main/java/pl/put/poznan/buildingInfo/logic/locations/Room.java:54-57 | A room refuses every child (Unsupported) |
| Locations.Room.Remove | src/main/java/pl/put/poznan/buildingInfo/logic/locations/Room.java:64-67 | A room has nothing to remove (Unsupported) |
| Locations.Room.SetHeating | src/main/java/pl/put/poznan/buildingInfo/logic/locations/Room.java:88-90 | heating is set and nothing else changes |
| Locations.Room.SetLight | src/main/java/pl/put/poznan/buildingInfo/logic/locations/Room.java:96-98 | light is set and nothing else changes |
| Locations.Room.SetName | src/main/java/pl/put/poznan/buildingInfo/logic/locations/Room.java:117 | name is set and nothing else changes |
| Locations.Room.SetArea | src/main/java/pl/put/poznan/buildingInfo/logic/locations/Room.java:123 | area is set and nothing else changes |
| Locations.Room.SetCube | src/main/java/pl/put/poznan/buildingInfo/logic/locations/Room.java:129-131 | cube is set and nothing else changes |
| Locations.Level.constructor | src/main/java/pl/put/poznan/buildingInfo/logic/locations/Level.java:28-31 | id and name as given; the room list starts empty |
| Locations.Level.Add | src/main/java/pl/put/poznan/buildingInfo/logic/locations/Level.java:40-46 | A room is appended at the end; any other kind is refused and the list is unchanged |
| Locations.Level.Remove | src/main/java/pl/put/poznan/buildingInfo/logic/locations/Level.java:55-61 | A room's first occurrence (by identity) is dropped and an absent room changes nothing; any other kind is refused |
| Locations.Level.SetName | src/main/java/pl/put/poznan/buildingInfo/logic/locations/Level.java:85-87 | name is set and nothing else changes |
| Locations.Level.SetRoomsOnLevel | src/main/java/pl/put/poznan/buildingInfo/logic/locations/Level.java:103-105 | The room list is replaced and nothing else changes |
| Locations.Building.constructor | src/main/java/pl/put/poznan/buildingInfo/logic/locations/Building.java:26-29 | id and name as given; the level list starts empty |
| Locations.Building.Default | src/main/java/pl/put/poznan/buildingInfo/logic/locations/Building.java:34-37 | The no-argument constructor: id 0, empty name, no levels |
| Locations.Building.Add | src/main/java/pl/put/poznan/buildingInfo/logic/locations/Building.java:44-49 | A level is appended at the end; any other kind is refused and the list is unchanged |
| Locations.Building.Remove | src/main/java/pl/put/poznan/buildingInfo/logic/locations/Building.java:57-62 | A level's first occurrence (by identity) is dropped and an absent level changes nothing; any other kind is refused |
| Locations.Building.SetName | src/main/java/pl/put/poznan/buildingInfo/logic/locations/Building.java:85-87 | name is set and nothing else changes |
| Locations.Building.SetLevelsInBuilding | src/main/java/pl/put/poznan/buildingInfo/logic/locations/Building.java:103-105 | The level list is replaced and nothing else changes |
| Metrics.MetricOfBuildingFlat | src/main/java/pl/put/poznan/buildingInfo/logic/visitors/AreaVisitor.java:21-37 | A building's value is the values of all its rooms, flattened level after level, added up and scaled once |
| Metrics.AllRoomsMember | src/main/java/pl/put/poznan/buildingInfo/logic/visitors/AreaVisitor.java:30-37 | A room is among the flattened rooms exactly when it is on one of the levels |
| Metrics.LevelsMeasurableFlat | src/main/java/pl/put/poznan/buildingInfo/logic/visitors/EnergyVisitor.java:17-20 | Every level's rooms have a nonzero denominator exactly when every flattened room has one |
| Metrics.SumRoomsAppend | src/main/java/pl/put/poznan/buildingInfo/logic/visitors/AreaVisitor.java:21-28 | The sum over two concatenated room lists is the sum of the two sums |
| Metrics.SumLevelsFlatten | src/main/java/pl/put/poznan/buildingInfo/logic/visitors/AreaVisitor.java:30-37 | Adding up level by level equals adding up the flattened rooms |
| Metrics.ExceedingAppend | src/main/java/pl/put/poznan/buildingInfo/logic/visitors/ExceedingHeatingVisitor.java:41-48 | Filtering two concatenated room lists is filtering each and concatenating |
| Metrics.ExceedingMember | src/main/java/pl/put/poznan/buildingInfo/logic/visitors/ExceedingHeatingVisitor.java:32-39 | A room is reported exactly when it is one of the rooms and heating/cube is strictly above the limit |
| Metrics.ExceedingLevelsFlatten | src/main/java/pl/put/poznan/buildingInfo/logic/visitors/ExceedingHeatingVisitor.java:50-57 | Filtering level by level equals filtering the flattened rooms, in level order and then room order |
| Metrics.SumRoomsUniform | src/test/java/AreaVisitorUnitTest.java:57-60 | n rooms of equal value v add up to n times v (five rooms of area 100 give 500) |
| Metrics.SumLevelsUniform | src/test/java/AreaVisitorUnitTest.java:67-70 | n levels with equal sums w add up to n times w (two such levels give 1000) |
| Visitors.AreaVisitor.VisitRoom | src/main/java/pl/put/poznan/buildingInfo/logic/visitors/AreaVisitor.java:16-19 | A room's value is its area |
| Visitors.AreaVisitor.VisitLevel | src/main/java/pl/put/poznan/buildingInfo/logic/visitors/AreaVisitor.java:21-28 | The loop yields the sum of the room areas; 0 without rooms |
| Visitors.AreaVisitor.VisitBuilding | src/main/java/pl/put/poznan/buildingInfo/logic/visitors/AreaVisitor.java:30-37 | The loop yields the sum of the level sums; 0 without levels |
| Visitors.CubeVisitor.VisitRoom | src/main/java/pl/put/poznan/buildingInfo/logic/visitors/CubeVisitor.java:16-19 | A room's value is its cube |
| Visitors.CubeVisitor.VisitLevel | src/main/java/pl/put/poznan/buildingInfo/logic/visitors/CubeVisitor.java:21-28 | The loop yields the sum of the room cubes; 0 without rooms |
| Visitors.CubeVisitor.VisitBuilding | src/main/java/pl/put/poznan/buildingInfo/logic/visitors/CubeVisitor.java:30-37 | The loop yields the sum of the level sums; 0 without levels |
| Visitors.LightVisitor.VisitRoom | src/main/java/pl/put/poznan/buildingInfo/logic/visitors/LightVisitor.java:15-18 | A room's value is light/area |
| Visitors.LightVisitor.VisitLevel | src/main/java/pl/put/poznan/buildingInfo/logic/visitors/LightVisitor.java:20-27 | The loop yields the sum of the per-room ratios (not a ratio of sums); 0 without rooms |
| Visitors.LightVisitor.VisitBuilding | src/main/java/pl/put/poznan/buildingInfo/logic/visitors/LightVisitor.java:29-36 | The loop yields the sum of the level sums; 0 without levels |
| Visitors.EnergyVisitor.VisitRoom | src/main/java/pl/put/poznan/buildingInfo/logic/visitors/EnergyVisitor.java:17-20 | A room's value is heating/cube |
| Visitors.EnergyVisitor.VisitLevel | src/main/java/pl/put/poznan/buildingInfo/logic/visitors/EnergyVisitor.java:22-29 | The loop yields the sum of the per-room ratios; 0 without rooms |
| Visitors.EnergyVisitor.VisitBuilding | src/main/java/pl/put/poznan/buildingInfo/logic/visitors/EnergyVisitor.java:31-38 | The loop yields the sum of the level sums; 0 without levels |
| Visitors.LightCostVisitor.constructor | src/main/java/pl/put/poznan/buildingInfo/logic/visitors/LightCostVisitor.java:18-20 | The unit cost is the one given |
| Visitors.LightCostVisitor.VisitRoom | src/main/java/pl/put/poznan/buildingInfo/logic/visitors/LightCostVisitor.java:22-25 | A room's light ratio times the unit cost |
| Visitors.LightCostVisitor.VisitLevel | src/main/java/pl/put/poznan/buildingInfo/logic/visitors/LightCostVisitor.java:27-30 | The level's light sum multiplied once by the unit cost |
| Visitors.LightCostVisitor.VisitBuilding | src/main/java/pl/put/poznan/buildingInfo/logic/visitors/LightCostVisitor.java:32-35 | The building's light sum multiplied once by the unit cost |
| Visitors.EnergyCostVisitor.constructor | src/main/java/pl/put/poznan/buildingInfo/logic/visitors/EnergyCostVisitor.java:17-19 | The unit cost is the one given |
| Visitors.EnergyCostVisitor.VisitRoom | src/main/java/pl/put/poznan/buildingInfo/logic/visitors/EnergyCostVisitor.java:21-24 | A room's energy ratio times the unit cost |
| Visitors.EnergyCostVisitor.VisitLevel | src/main/java/pl/put/poznan/buildingInfo/logic/visitors/EnergyCostVisitor.java:26-29 | The level's energy sum multiplied once by the unit cost |
| Visitors.EnergyCostVisitor.VisitBuilding | src/main/java/pl/put/poznan/buildingInfo/logic/visitors/EnergyCostVisitor.java:31-34 | The building's energy sum multiplied once by the unit cost |
| Visitors.ExceedingHeatingVisitor.constructor | src/main/java/pl/put/poznan/buildingInfo/logic/visitors/ExceedingHeatingVisitor.java:28-30 | The limit is the one given; the list starts empty |
| Visitors.ExceedingHeatingVisitor.VisitRoom | src/main/java/pl/put/poznan/buildingInfo/logic/visitors/ExceedingHeatingVisitor.java:32-39 | Returns heating/cube and appends the room exactly when that is strictly above the limit |
| Visitors.ExceedingHeatingVisitor.VisitLevel | src/main/java/pl/put/poznan/buildingInfo/logic/visitors/ExceedingHeatingVisitor.java:41-48 | Returns the level's energy sum and appends the level's exceeding rooms in order to the existing list |
| Visitors.ExceedingHeatingVisitor.VisitBuilding | src/main/java/pl/put/poznan/buildingInfo/logic/visitors/ExceedingHeatingVisitor.java:50-57 | Returns the building's energy sum and appends the exceeding rooms level after level to the existing list |
| Dispatch.AcceptRoom | src/main/java/pl/put/poznan/buildingInfo/logic/locations/Room.java:133-136 | Whatever the visitor, the result is that visitor's room value; only the exceeding-heating visitor changes state |
| Dispatch.AcceptLevel | src/main/java/pl/put/poznan/buildingInfo/logic/locations/Level.java:107-110 | Whatever the visitor, the result is that visitor's level value; only the exceeding-heating visitor changes state |
| Dispatch.AcceptBuilding | src/main/java/pl/put/poznan/buildingInfo/logic/locations/Building.java:112-115 | Whatever the visitor, the result is that visitor's building value; only the exceeding-heating visitor changes state |
| Endpoints.MeasureBuilding | src/main/java/pl/put/poznan/buildingInfo/rest/BuildingController.java:152-226 | The building metric endpoints compute the named metric of the found building |
| Endpoints.SumBuilding | src/main/java/pl/put/poznan/buildingInfo/rest/BuildingController.java:152-226 | A fresh area, cube, light or energy visitor gives the building's level-wise sum |
| Endpoints.LightCostOfBuilding | src/main/java/pl/put/poznan/buildingInfo/rest/BuildingController.java:254-266 | accept and then visit: the building's light sum times the unit cost |
| Endpoints.EnergyCostOfBuilding | src/main/java/pl/put/poznan/buildingInfo/rest/BuildingController.java:269-281 | accept and then visit: the building's energy sum times the unit cost |
| Endpoints.MeasureLevel | src/main/java/pl/put/poznan/buildingInfo/rest/LevelController.java:171-289 | The level metric endpoints compute the named metric of the found level |
| Endpoints.SumLevel | src/main/java/pl/put/poznan/buildingInfo/rest/LevelController.java:171-259 | A fresh area, cube, light or energy visitor gives the level's room sum |
| Endpoints.LightCostOfLevel | src/main/java/pl/put/poznan/buildingInfo/rest/LevelController.java:261-274 | accept and then visit: the level's light sum times the unit cost |
| Endpoints.EnergyCostOfLevel | src/main/java/pl/put/poznan/buildingInfo/rest/LevelController.java:276-289 | accept and then visit: the level's energy sum times the unit cost |
| Endpoints.ExceedingRoomsOf | src/main/java/pl/put/poznan/buildingInfo/rest/BuildingController.java:242-247 | The fresh visitor's list after accept is exactly the building's flattened rooms whose ratio is above the limit, in order |
| Controllers.RemovedIdAbsent | src/main/java/pl/put/poznan/buildingInfo/rest/BuildingController.java:138-141 | With distinct ids, removing the element at position i leaves no element carrying its id |
| Controllers.BuildingController.constructor | src/main/java/pl/put/poznan/buildingInfo/rest/BuildingController.java:77-79 | The registry starts with no buildings |
| Controllers.BuildingController.GetBuilding | src/main/java/pl/put/poznan/buildingInfo/rest/BuildingController.java:90-93 | The first building with that id; NotFound exactly when no building has it |
| Controllers.BuildingController.AddBuilding | src/main/java/pl/put/poznan/buildingInfo/rest/BuildingController.java:104-111 | Conflict and no change when the id is taken; otherwise appended and then found by its id; distinct ids are preserved |
| Controllers.BuildingController.UpdateBuilding | src/main/java/pl/put/poznan/buildingInfo/rest/BuildingController.java:122-128 | The found building gets the new name and level list and keeps its id; the list and every other building are unchanged; NotFound otherwise |
| Controllers.BuildingController.DeleteBuilding | src/main/java/pl/put/poznan/buildingInfo/rest/BuildingController.java:138-141 | NotFound and no change, or exactly the found position removed; with distinct ids the id is then not found |
| Controllers.BuildingController.BuildingMetric | src/main/java/pl/put/poznan/buildingInfo/rest/BuildingController.java:152-226 | NotFound for an unknown id; otherwise the requested metric of that building |
| Controllers.BuildingController.RoomsExceedingHeating | src/main/java/pl/put/poznan/buildingInfo/rest/BuildingController.java:238-251 | NotFound for an unknown id; otherwise the building's rooms above the limit, in level order and then room order |
| Controllers.GetBuildingUnique | src/main/java/pl/put/poznan/buildingInfo/rest/BuildingController.java:90-93 | With distinct ids, looking up a registered building's id finds that very building |
| Controllers.LevelController.constructor | src/main/java/pl/put/poznan/buildingInfo/rest/LevelController.java:39-43 | Shares the given building registry; the remembered level list starts empty |
| Controllers.LevelController.GetLevel | src/main/java/pl/put/poznan/buildingInfo/rest/LevelController.java:147-160 | NotFound when the building is missing; otherwise the first level with that id, NotFound exactly when none has it |
| Controllers.LevelController.GetAllLevels | src/main/java/pl/put/poznan/buildingInfo/rest/LevelController.java:52-72 | NotFound for an unknown building; otherwise that building's level list, which is also remembered |
| Controllers.LevelController.AddLevel | src/main/java/pl/put/poznan/buildingInfo/rest/LevelController.java:82-96 | NotFound for an unknown building; BadRequest and no change when the level id is taken; otherwise appended and then found; only that building's level list changes (names, ids and other buildings stay) |
| Controllers.LevelController.UpdateLevel | src/main/java/pl/put/poznan/buildingInfo/rest/LevelController.java:108-122 | The found level gets the new room list and name and keeps its id; every other level is unchanged; NotFound otherwise |
| Controllers.LevelController.DeleteLevel | src/main/java/pl/put/poznan/buildingInfo/rest/LevelController.java:124-133 | NotFound and no change, or exactly the found level removed from its building; only that building's level list changes; with distinct ids it is then not found |
| Controllers.LevelController.LevelMetric | src/main/java/pl/put/poznan/buildingInfo/rest/LevelController.java:171-289 | NotFound for an unknown building or level; otherwise the requested metric of that level |

## Left out

- The Spring, HTTP and JSON plumbing is not modelled: request mapping, response maps and status codes. An exception becomes the matching `Error` value.
- Logging is not modelled. The cost endpoints' second `visitor.visit` call is not modelled either: it only feeds a log line, and the visitors it runs are stateless.
- The startup `init` that loads buildings from a JSON file is file I/O and is not modelled; the registry starts empty.
- `getAllBuildings` only returns the field, so it is read directly as `buildings`. The location getters are likewise read directly as fields.
- The older `logic/` package (`logic/Building.java`, `logic/Level.java`, `logic/Room.java`, `logic/Location.java`) is not part of this model; nothing in the core uses it. `RoomController` is not part of this model.
- The `Visitable` and `Visitor` interfaces become the `Visitor` datatype and the three `Accept` methods. Traits are not used.
- Metrics.RoomValue: Java doubles are modelled as exact `real`, with no rounding. Division by a zero area or cube, which gives Infinity or NaN in Java, is excluded by a precondition instead of being modelled.
- Visitors.ExceedingHeatingVisitor.VisitLevel: the code reaches each room through `room.accept(this)`, which dispatches straight back to this visitor's room rule; the model calls that rule directly. `VisitBuilding` does the same for `level.accept(this)`.
- Locations.Level.Remove: removing an absent child is a silent no-op, as in the code, not an error.
- Locations.Building.Remove: likewise a silent no-op for an absent level.
- Aliasing between a building sent in an update and the stored one is not tracked beyond what the frames state. Update copies the new level or room list reference into the found object, as the code does.
- Controllers.LevelController.GetAllLevels: the code's null check on the building can never fire, because `getBuilding` throws first; the model has only the NotFound path.
- Controllers.LevelController.AddLevel: the duplicate-id check and the append are modelled; duplicate rooms or levels added through `add` directly are not checked, as in the code.
- The unit tests and their mocks are not modelled one by one. The area, light, energy and energy-cost tests use n equal rooms on levels that each add up to the same total. The uniform-sum lemmas state that case in general. The tests' zero for an empty level or building follows from `SumRooms` and `SumLevels` of an empty list being 0, through each visitor's postcondition. The cube test uses unequal levels, one room on one and two on the other. Its totals follow from `SumLevelsFlatten` and `SumRoomsAppend`.
- The light-cost mock test contradicts the code. It stubs only the light value, so every room's area is 0. It then expects light times cost, where the code computes light/area times cost. The model follows the code: its nonzero-area precondition excludes those rooms.
