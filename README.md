# SPIGA simulator: assets, movement ticks, zone and fleet

This project models the core of the SPIGA drone and vehicle simulator in Dafny. A swarm of mobile
assets moves through an operation zone. There are two kinds of drone (reconnaissance and
logistics), two vessels (surface and submarine) and a land vehicle, and the proofs are about
that model.

- **Zone.** A box with inclusive bounds, wind, precipitation, a sea current and spherical
  obstacles.
- **The asset.** `ActifMobile` and its five concrete classes have an operational state
  (AU_SOL, EN_MISSION, EN_PANNE, EN_MAINTENANCE), an autonomy level, a waypoint list and a
  target. They offer start, stop, recharge and refuel, the setters, and `deplacer`.
- **`deplacer`.** One tick of movement. It runs a fixed pipeline:
  1. the guard;
  2. the AU_SOL -> EN_MISSION switch;
  3. path planning and hop retirement, for vessels and the land vehicle;
  4. a capped step towards the next point, to which vessels add the current;
  5. rejection when the step leaves the zone, collides or lands on the wrong terrain;
  6. the commit, which pays the energy cost and, when the tank runs dry, sets EN_PANNE with a
     low-battery alert.
- **Bookkeeping.** The swarm manager's fleet list, the available assets, the asset suggestion,
  and a mission's status and assigned assets.

How the model is built:

- **One class for the hierarchy.** The Java hierarchy becomes the single class
  `Assets.ActifMobile`. Its constant `kind` (`Kinds.Kind`) says which concrete class the object
  is. Overridden methods (`setPosition`, `ravitailler`, `deplacer`, ...) dispatch on `kind`.
- **Three tick functions.** Each of the three `deplacer` bodies is an imperative method that is
  proved equal to a pure tick function: `Aerial.AerialTick`, `Marine.MarineTick` or
  `Land.LandTick`. `Movement.TickOf` dispatches among them. Each function maps the asset's
  state before the tick to its state after it, plus the alerts raised.
- **Lemmas about the functions.** The lemmas state what the source promises of a tick: no-op
  when blocked, engagement, hop retirement, the step on the segment, arrival, each rejection,
  the consumption formulas, energy bounds and the alert shape.
- **Alerts.** Alerts are recorded in the ghost log `alertes`. `NotifierEtatCritique` appends
  to it.
- **The distance.** The source obtains the distance to the target with a square root. The model
  receives it as a parameter `dist`. The movement methods require it to be the Euclidean or
  horizontal length, stated on squares (`Ticks.IsDistance`, `Ticks.IsDistance2D`). The tick
  functions and most lemmas hold for any value of `dist`.
- **Zone services not defined in the zone class.** The land map (`isLand`), the path planner
  (`findPath`) and the collision test against other collidables (`isCollision(p, self)`) are
  called by the movement code but not defined in `ZoneOperation.java`. They are function-valued
  parameters (`Zone.ZoneQueries`). The planner's boolean means "is marine".
- **Numbers.** Java `double` is modelled as `real`.

Where the repository's documentation and its code disagree, the model follows the code:

- EN_MAINTENANCE does not block movement. Only EN_PANNE and an autonomy of 0 or less do.
- Every concrete `arreter` leaves the state as it is. Only the inherited one sets AU_SOL.
- The AU_SOL -> EN_MISSION switch happens before the zero-distance return and before every
  rejection, so even a tick that does not move engages the asset.
- A position is committed only after the zone, collision and terrain checks, but a vessel's
  checks see the candidate before the surface vessel's `setPosition` sets z to 0. With a current
  that has a vertical component, the point a surface vessel stores was never tested, and a move
  whose stored point would be legal can be refused (`Marine.SurfaceTestsUnclampedPoint`). The
  model keeps the code's order.

## Model

| member | source | states |
|---|---|---|
| Geometry.Point3D.constructor | spiga-simulator/src/main/java/com/spiga/core/Point3D.java:18-22 | a new point holds exactly the three given coordinates |
| Geometry.Point3D.Value | spiga-simulator/src/main/java/com/spiga/core/Point3D.java:29-47 | the getters return the coordinates currently stored |
| Geometry.Point3D.SetX | spiga-simulator/src/main/java/com/spiga/core/Point3D.java:33-35 | x becomes the argument; y and z keep their values |
| Geometry.Point3D.SetY | spiga-simulator/src/main/java/com/spiga/core/Point3D.java:41-43 | y becomes the argument; x and z keep their values |
| Geometry.Point3D.SetZ | spiga-simulator/src/main/java/com/spiga/core/Point3D.java:49-51 | z becomes the argument; x and y keep their values |
| Geometry.StepOnSegment | spiga-simulator/src/main/java/com/spiga/core/ActifAerien.java:59-84 | a step of `speed` along `d / dist` is the fraction `speed / dist` of `d`, and that fraction is in (0, 1] when `speed <= dist` |
| Geometry.StepLength | spiga-simulator/src/main/java/com/spiga/core/ActifAerien.java:50-84 | when `dist` is the length of `d`, the fraction `speed / dist` of `d` has length `speed` (on squares) |
| Geometry.FullStep | spiga-simulator/src/main/java/com/spiga/core/ActifAerien.java:59-84 | the normalised direction times the full distance is the displacement itself |
| Geometry.FlatNorm | spiga-simulator/src/main/java/com/spiga/core/VehiculeTerrestre.java:94-98 | the horizontal distance is the length of the flattened displacement |
| Obstacles.Obstacle.Contains | spiga-simulator/src/main/java/com/spiga/env/Obstacle.java:14-19 | definition: squared distance from the centre at most the squared radius; stated in distance form by Obstacles.ContainsWithinRadius |
| Obstacles.CentreContained | spiga-simulator/src/main/java/com/spiga/env/Obstacle.java:15-18 | an obstacle contains its own centre, whatever its radius |
| Obstacles.RadiusSignIrrelevant | spiga-simulator/src/main/java/com/spiga/env/Obstacle.java:18 | radius r and -r give the same containment test |
| Obstacles.BoundaryContained | spiga-simulator/src/main/java/com/spiga/env/Obstacle.java:18 | a point at distance exactly the magnitude of the radius is contained (inclusive comparison) |
| Obstacles.FarOnAxisNotContained | spiga-simulator/src/main/java/com/spiga/env/Obstacle.java:14-19 | a point farther than a non-negative radius along x is not contained |
| Obstacles.ContainsWithinRadius | spiga-simulator/src/main/java/com/spiga/env/Obstacle.java:14-19 | with `dist` the distance to the centre, `contains` holds iff `dist` is at most the magnitude of the radius |
| Zone.ZoneOperation.constructor | spiga-simulator/src/main/java/com/spiga/env/ZoneOperation.java:15-22 | a new zone has the given bounds, zero wind, zero precipitation, zero current and no obstacle |
| Zone.ZoneOperation.SetVent | spiga-simulator/src/main/java/com/spiga/env/ZoneOperation.java:28-30 | stores the wind and changes no other field |
| Zone.ZoneOperation.SetPrecipitations | spiga-simulator/src/main/java/com/spiga/env/ZoneOperation.java:36-38 | stores the precipitation and changes no other field |
| Zone.ZoneOperation.SetCourantMarin | spiga-simulator/src/main/java/com/spiga/env/ZoneOperation.java:44-46 | stores the current and changes no other field |
| Zone.ZoneOperation.AddObstacle | spiga-simulator/src/main/java/com/spiga/env/ZoneOperation.java:48-50 | appends exactly the given obstacle at the end of the list |
| Zone.ZoneOperation.IsCollision | spiga-simulator/src/main/java/com/spiga/env/ZoneOperation.java:52-59 | the early-return scan answers true iff some obstacle of the list contains the point |
| Zone.ZoneOperation.IsInside | spiga-simulator/src/main/java/com/spiga/env/ZoneOperation.java:61-65 | definition: every coordinate between the bounds, both ends included; see Zone.BoundsInclusive |
| Zone.ZoneOperation.Snapshot | spiga-simulator/src/main/java/com/spiga/env/ZoneOperation.java:24-46 | the bounds, wind, precipitation and current a tick reads are the zone's current fields |
| Zone.BoundsInclusive | spiga-simulator/src/main/java/com/spiga/env/ZoneOperation.java:61-65 | both corners of the box are inside (inclusive at both ends); a point past an upper bound is outside |
| Zone.NoObstacleNoCollision | spiga-simulator/src/test/java/com/spiga/env/ZoneOperationTest.java:57-64 | with no obstacle no point collides |
| Zone.HitsAfterAppend | spiga-simulator/src/main/java/com/spiga/env/ZoneOperation.java:48-59 | after adding an obstacle a point collides iff it collided before or the new obstacle contains it |
| Zone.AddObstacleMonotone | spiga-simulator/src/main/java/com/spiga/env/ZoneOperation.java:48-59 | adding an obstacle never removes a collision |
| Kinds.VitesseMax | spiga-simulator/src/main/java/com/spiga/core/DroneReconnaissance.java:18-21 | each kind's maximum speed is positive; drones are at least 80, vessels at most 60 |
| Kinds.AutonomieMax | spiga-simulator/src/main/java/com/spiga/core/DroneLogistique.java:18-21 | each kind's maximum autonomy is positive; below 100 for drones, above 100 for the others |
| Kinds.ConstructorConstants | spiga-simulator/src/main/java/com/spiga/core/VehiculeSousMarin.java:15-17 | speed/autonomy per constructor: recon 120/60, logistics 80/45, surface 60/150, submarine 40/200, land 50/120 |
| Kinds.StoredPosition | spiga-simulator/src/main/java/com/spiga/core/VehiculeSurface.java:50-54 | `setPosition` keeps x and y; surface vessel and land vehicle store z = 0, the others store the point unchanged |
| Kinds.Recharged | spiga-simulator/src/main/java/com/spiga/core/ActifMobile.java:140-144 | min(max, current + q): never above max nor above current + q, and equal to one of them |
| Kinds.Refuelled | spiga-simulator/src/main/java/com/spiga/core/VehiculeSousMarin.java:40-43 | definition of the `ravitailler` overrides: recharge 100, or nothing for the submarine; see the Refuelled lemmas |
| Kinds.RechargedFullIff | spiga-simulator/src/main/java/com/spiga/core/DroneReconnaissance.java:48-52 | recharging ends at the maximum iff current + q reaches it |
| Kinds.RechargedNotLower | spiga-simulator/src/main/java/com/spiga/core/VehiculeSurface.java:34-38 | a non-negative recharge from at most the maximum never lowers the level |
| Kinds.RefuelledFullIff | spiga-simulator/src/main/java/com/spiga/core/DroneLogistique.java:63-66 | refuelling (recharge 100) ends at max iff current >= max - 100; -55 for the logistics drone |
| Kinds.DronesRefuelFull | spiga-simulator/src/main/java/com/spiga/core/DroneReconnaissance.java:54-57 | a drone refuelled from any non-negative level is full |
| Kinds.SurfaceRefuelPartial | spiga-simulator/src/main/java/com/spiga/core/VehiculeSurface.java:40-43 | the surface vessel refuelled from 10 reaches 110, below its maximum 150 |
| Kinds.SubmarineRefuelNoOp | spiga-simulator/src/main/java/com/spiga/core/VehiculeSousMarin.java:40-43 | the submarine's refuelling leaves the level unchanged |
| Kinds.RefuelledBounded | spiga-simulator/src/main/java/com/spiga/core/VehiculeTerrestre.java:52-55 | from at most the maximum, refuelling never lowers the level and never exceeds the maximum (120 for the land vehicle) |
| Kinds.LogisticsRechargeScenario | spiga-simulator/src/test/java/com/spiga/core/DroneLogistiqueTest.java:51-56 | the logistics drone recharged by 20 from 10 holds 30 |
| Ticks.Engaged | spiga-simulator/src/main/java/com/spiga/core/ActifAerien.java:39-41 | AU_SOL becomes EN_MISSION; every other state is kept |
| Ticks.PlannedPath | spiga-simulator/src/main/java/com/spiga/core/ActifMarin.java:44-48 | an empty path is replaced by the planned one; a non-empty path is kept |
| Ticks.NextHop | spiga-simulator/src/main/java/com/spiga/core/ActifMarin.java:51-54 | the next hop is the first waypoint, or the target when there is none |
| Ticks.StepSpeed | spiga-simulator/src/main/java/com/spiga/core/ActifAerien.java:64-69 | the step speed is min(vitesseMax, distance) |
| Ticks.Blocked | spiga-simulator/src/main/java/com/spiga/core/ActifAerien.java:34-36 | definition of the guard: EN_PANNE or autonomy <= 0 (EN_MAINTENANCE is not part of it) |
| Ticks.Commit | spiga-simulator/src/main/java/com/spiga/core/ActifAerien.java:97-116 | definition of the commit and depletion blocks; stated in full by Ticks.CommitEffect |
| Ticks.CommitEffect | spiga-simulator/src/main/java/com/spiga/core/ActifAerien.java:97-116 | a commit stores the position and keeps the path; the level drops by the consumption; it breaks down with BATTERIE_FAIBLE iff the level reaches 0 or less, and is then clamped to 0 |
| Ticks.CommitLowersEnergy | spiga-simulator/src/main/java/com/spiga/core/ActifAerien.java:111-116 | a positive consumption from a positive level leaves a level in [0, before) |
| Ticks.CommitIgnoresEtat | spiga-simulator/src/main/java/com/spiga/core/ActifMarin.java:114-128 | the commit pays, stores and alerts alike whatever the operational state |
| Aerial.AerialTick | spiga-simulator/src/main/java/com/spiga/core/ActifAerien.java:33-120 | definition of the aerial tick: guard, switch, zero distance, candidate, zone, collision, commit; its behaviour is the Aerial lemmas below |
| Aerial.Candidate | spiga-simulator/src/main/java/com/spiga/core/ActifAerien.java:59-84 | definition of the flight candidate; see Aerial.CandidateOnSegment and Aerial.StepLengthIsSpeed |
| Aerial.Consumption | spiga-simulator/src/main/java/com/spiga/core/ActifAerien.java:101-111 | definition of the flight consumption; see Aerial.ConsumptionBase |
| Aerial.BlockedNoOp | spiga-simulator/src/main/java/com/spiga/core/ActifAerien.java:34-36 | an asset that is EN_PANNE or has autonomy <= 0 is left unchanged with no alert |
| Aerial.MaintenanceMoves | spiga-simulator/src/main/java/com/spiga/core/ActifAerien.java:34-36 | EN_MAINTENANCE is not guarded: such a drone with energy moves to an accepted candidate |
| Aerial.MaintenanceLikeMission | spiga-simulator/src/main/java/com/spiga/core/ActifAerien.java:34-36 | a drone in maintenance with energy left moves, pays and raises alerts exactly as on a mission |
| Aerial.EngagesBeforeChecks | spiga-simulator/src/main/java/com/spiga/core/ActifAerien.java:39-41 | after an unblocked tick the state is the engaged one (AU_SOL -> EN_MISSION, even when rejected), or EN_PANNE with a low-battery alert |
| Aerial.ZeroDistance | spiga-simulator/src/main/java/com/spiga/core/ActifAerien.java:55-56 | at zero distance only the state switch happens: position and autonomy unchanged, no alert |
| Aerial.CandidateOnSegment | spiga-simulator/src/main/java/com/spiga/core/ActifAerien.java:59-84 | the candidate lies on the segment to the target, at a fraction in (0, 1]: no overshoot |
| Aerial.StepLengthIsSpeed | spiga-simulator/src/main/java/com/spiga/core/ActifAerien.java:50-84 | with `dist` the true distance, the step has length min(vitesseMax, dist) |
| Aerial.CandidateReachesTarget | spiga-simulator/src/main/java/com/spiga/core/ActifAerien.java:64-84 | a target within vitesseMax is the candidate itself |
| Aerial.ReachesTarget | spiga-simulator/src/main/java/com/spiga/core/ActifAerien.java:64-97 | a target within range that is inside the zone and free is reached exactly in one tick |
| Aerial.OutOfZone | spiga-simulator/src/main/java/com/spiga/core/ActifAerien.java:87-90 | a candidate outside the zone leaves position and autonomy unchanged, with no alert |
| Aerial.CollisionRejected | spiga-simulator/src/main/java/com/spiga/core/ActifAerien.java:91-95 | a colliding candidate leaves position and autonomy unchanged and raises COLLISION_IMMINENTE |
| Aerial.Committed | spiga-simulator/src/main/java/com/spiga/core/ActifAerien.java:97-116 | an accepted candidate is stored and the flight consumption is paid; depletion clamps to 0, sets EN_PANNE and raises BATTERIE_FAIBLE |
| Aerial.CommitsOnlyLegal | spiga-simulator/src/main/java/com/spiga/core/ActifAerien.java:87-97 | a tick that changes position or level had a non-zero distance and an in-zone, free candidate, which is what was stored |
| Aerial.ConsumptionBase | spiga-simulator/src/main/java/com/spiga/core/ActifAerien.java:101-111 | the flight consumption is at least 1.0, and exactly 1.0 iff there is no precipitation and no horizontal wind |
| Aerial.ConsumptionIgnoresVerticalWind | spiga-simulator/src/main/java/com/spiga/core/ActifAerien.java:107-109 | the vertical wind component does not affect the consumption |
| Aerial.EnergyBounded | spiga-simulator/src/main/java/com/spiga/core/ActifAerien.java:101-116 | from a non-negative level, the level after a tick is in [0, before] |
| Aerial.PathAndAlerts | spiga-simulator/src/main/java/com/spiga/core/ActifAerien.java:33-120 | a flight tick keeps the waypoint list and raises at most one alert, a collision or a low battery |
| Aerial.CalmArrival | spiga-simulator/src/main/java/com/spiga/core/ActifAerien.java:64-111 | in calm weather an accepted target within range is reached at a cost of exactly 1.0 |
| Aerial.LastUnitDepletes | spiga-simulator/src/test/java/com/spiga/core/ActifMobileTest.java:58-72 | with at most 1.0 left, the next committed move leaves 0, EN_PANNE and a BATTERIE_FAIBLE alert |
| Aerial.ReconFlightScenario | spiga-simulator/src/test/java/com/spiga/core/ActifAerienTest.java:19-28 | the recon drone at (0,0,0) flying to (100,0,0) in a calm zone arrives in one tick with 59 left |
| Marine.MarineTick | spiga-simulator/src/main/java/com/spiga/core/ActifMarin.java:34-132 | definition of the marine tick: guard, switch, planning, hop retirement, candidate with current, zone, collision, land, commit; its behaviour is the Marine lemmas below |
| Marine.MarinePath | spiga-simulator/src/main/java/com/spiga/core/ActifMarin.java:44-48 | definition: the current path, or the marine plan (flag true) when it is empty |
| Marine.Candidate | spiga-simulator/src/main/java/com/spiga/core/ActifMarin.java:74-96 | definition of the marine candidate; see Marine.CurrentDrift and Marine.StepLengthIsSpeed |
| Marine.Consumption | spiga-simulator/src/main/java/com/spiga/core/ActifMarin.java:116-121 | definition of the marine consumption; see Marine.ConsumptionValues |
| Marine.BlockedNoOp | spiga-simulator/src/main/java/com/spiga/core/ActifMarin.java:35-37 | a blocked vessel is left unchanged: no planning, no move, no alert |
| Marine.MaintenanceLikeMission | spiga-simulator/src/main/java/com/spiga/core/ActifMarin.java:35-37 | a vessel in maintenance with energy left moves, pays and raises alerts exactly as on a mission |
| Marine.PlansMarinePath | spiga-simulator/src/main/java/com/spiga/core/ActifMarin.java:39-48 | with an empty path the planner is asked for a marine path (flag true); that path or its tail is kept |
| Marine.KeepsOrAdvancesPath | spiga-simulator/src/main/java/com/spiga/core/ActifMarin.java:64-72 | a non-empty path is kept or loses exactly its first waypoint |
| Marine.HopRetired | spiga-simulator/src/main/java/com/spiga/core/ActifMarin.java:64-72 | within 5.0 of a waypoint exactly that waypoint is removed; position and autonomy unchanged |
| Marine.ZeroDistanceRejected | spiga-simulator/src/main/java/com/spiga/core/ActifMarin.java:74-101 | with no waypoint and zero distance the tick is rejected after the state switch |
| Marine.CurrentDrift | spiga-simulator/src/main/java/com/spiga/core/ActifMarin.java:84-96 | the current is added whole to the displacement, on all three axes |
| Marine.StillWaterReachesHop | spiga-simulator/src/main/java/com/spiga/core/ActifMarin.java:78-96 | in still water a hop within range is the candidate itself |
| Marine.StepLengthIsSpeed | spiga-simulator/src/main/java/com/spiga/core/ActifMarin.java:74-86 | with `dist` the true distance, the still-water step has length min(vitesseMax, dist) |
| Marine.HopPlusCurrent | spiga-simulator/src/main/java/com/spiga/core/ActifMarin.java:78-96 | a hop within range plus the current is the candidate |
| Marine.Rejections | spiga-simulator/src/main/java/com/spiga/core/ActifMarin.java:98-112 | out of zone, colliding (with COLLISION_IMMINENTE) and on-land candidates leave position and autonomy unchanged |
| Marine.Committed | spiga-simulator/src/main/java/com/spiga/core/ActifMarin.java:114-128 | an accepted candidate is stored through `setPosition` and the marine consumption is paid, with the depletion rule |
| Marine.CommitsOnlyLegal | spiga-simulator/src/main/java/com/spiga/core/ActifMarin.java:98-114 | a tick that changes position or level retired no hop and tested an in-zone, free, off-land candidate; what is stored is that candidate through the kind's `setPosition` |
| Marine.SurfaceTestsUnclampedPoint | spiga-simulator/src/main/java/com/spiga/core/VehiculeSurface.java:50-54 | the zone test sees the unclamped candidate: a current carrying it below the floor refuses the move even when the flattened point that would be stored is inside |
| Marine.ConsumptionValues | spiga-simulator/src/main/java/com/spiga/core/ActifMarin.java:116-121 | consumption is 1.0 iff the current is zero, and 1.5 otherwise |
| Marine.EnergyBounded | spiga-simulator/src/main/java/com/spiga/core/ActifMarin.java:116-128 | from a non-negative level, the level after a tick is in [0, before] |
| Marine.SurfaceStaysAtSeaLevel | spiga-simulator/src/test/java/com/spiga/core/VehiculeSurfaceTest.java:21-28 | a surface vessel at z = 0 is still at z = 0 after any tick |
| Marine.SubmarineKeepsDepth | spiga-simulator/src/main/java/com/spiga/core/VehiculeSousMarin.java:7-49 | a submarine stores the computed candidate, depth included |
| Marine.AtMostOneAlert | spiga-simulator/src/main/java/com/spiga/core/ActifMarin.java:34-132 | a marine tick raises at most one alert, a collision or a low battery |
| Land.LandTick | spiga-simulator/src/main/java/com/spiga/core/VehiculeTerrestre.java:69-155 | definition of the land tick (consumption 1.0): guard, switch, planning, hop retirement, horizontal candidate, zone, collision, not-land, commit; its behaviour is the Land lemmas below |
| Land.LandPath | spiga-simulator/src/main/java/com/spiga/core/VehiculeTerrestre.java:81-85 | definition: the current path, or the land plan (flag false) when it is empty |
| Land.Candidate | spiga-simulator/src/main/java/com/spiga/core/VehiculeTerrestre.java:109-124 | definition of the horizontal candidate at z = 0; see Land.CandidateOnGroundSegment and Land.StepLengthIsSpeed |
| Land.BlockedNoOp | spiga-simulator/src/main/java/com/spiga/core/VehiculeTerrestre.java:72-74 | a blocked vehicle is left unchanged: no planning, no move, no alert |
| Land.MaintenanceLikeMission | spiga-simulator/src/main/java/com/spiga/core/VehiculeTerrestre.java:72-74 | a vehicle in maintenance with energy left moves, pays and raises alerts exactly as on a mission |
| Land.PlansLandPath | spiga-simulator/src/main/java/com/spiga/core/VehiculeTerrestre.java:76-85 | with an empty path the planner is asked for a land path (flag false); that path or its tail is kept |
| Land.HopRetired | spiga-simulator/src/main/java/com/spiga/core/VehiculeTerrestre.java:100-107 | within 5.0 (horizontally) of a waypoint exactly that waypoint is removed; nothing else but the state switch changes |
| Land.ZeroDistanceRejected | spiga-simulator/src/main/java/com/spiga/core/VehiculeTerrestre.java:109-128 | with no waypoint and zero distance the tick is rejected after the state switch |
| Land.CandidateOnGroundSegment | spiga-simulator/src/main/java/com/spiga/core/VehiculeTerrestre.java:109-124 | the candidate is the flattened position plus a fraction in (0, 1] of the horizontal displacement |
| Land.StepLengthIsSpeed | spiga-simulator/src/main/java/com/spiga/core/VehiculeTerrestre.java:94-124 | with `dist` the true horizontal distance, the horizontal step has length min(vitesseMax, dist) |
| Land.CandidateReachesHop | spiga-simulator/src/main/java/com/spiga/core/VehiculeTerrestre.java:112-124 | a hop within range is reached horizontally, at z = 0 |
| Land.Rejections | spiga-simulator/src/main/java/com/spiga/core/VehiculeTerrestre.java:126-138 | out of zone, colliding (with COLLISION_IMMINENTE) and off-land candidates leave position and autonomy unchanged |
| Land.Committed | spiga-simulator/src/main/java/com/spiga/core/VehiculeTerrestre.java:140-149 | an accepted candidate is stored and exactly 1.0 is paid, with the depletion rule |
| Land.CommitsOnlyLegal | spiga-simulator/src/main/java/com/spiga/core/VehiculeTerrestre.java:126-140 | a tick that changes position or level retired no hop and tested an in-zone, free, on-land candidate, which is what was stored |
| Land.WeatherIrrelevant | spiga-simulator/src/main/java/com/spiga/core/VehiculeTerrestre.java:143-149 | wind, precipitation and current never change the outcome of a land tick |
| Land.StaysOnGround | spiga-simulator/src/main/java/com/spiga/core/VehiculeTerrestre.java:25-29 | a vehicle at z = 0 is still at z = 0 after any tick |
| Land.EnergyBounded | spiga-simulator/src/main/java/com/spiga/core/VehiculeTerrestre.java:143-149 | from a non-negative level, the level after a tick is in [0, before] |
| Land.AtMostOneAlert | spiga-simulator/src/main/java/com/spiga/core/VehiculeTerrestre.java:69-155 | a land tick raises at most one alert, a collision or a low battery |
| Movement.TickOf | spiga-simulator/src/main/java/com/spiga/core/ActifMobile.java:154 | definition: `deplacer` dispatched to the aerial, marine or land tick by kind |
| Movement.BlockedNoOp | spiga-simulator/src/main/java/com/spiga/core/ActifMarin.java:35-37 | whatever the kind, a blocked asset is left unchanged with no alert |
| Movement.EnergyInRange | spiga-simulator/src/main/java/com/spiga/core/ActifMarin.java:116-128 | whatever the kind, a level in [0, max] stays in [0, max] and never grows |
| Movement.AtMostOneAlert | spiga-simulator/src/main/java/com/spiga/core/VehiculeTerrestre.java:129-149 | whatever the kind, a tick raises at most one alert, a collision or a low battery |
| Movement.NeverStaysOnGround | spiga-simulator/src/main/java/com/spiga/core/VehiculeTerrestre.java:76-78 | whatever the kind, an unblocked tick never leaves the asset AU_SOL: from AU_SOL it ends EN_MISSION, or EN_PANNE with a low-battery alert |
| Movement.StateTransitions | spiga-simulator/src/main/java/com/spiga/core/ActifAerien.java:39-41 | the state after a tick is the old one, EN_MISSION from AU_SOL, or EN_PANNE with a low-battery alert |
| Movement.MaintenanceMovesLikeMission | spiga-simulator/src/main/java/com/spiga/core/VehiculeTerrestre.java:72-74 | whatever the kind, an asset in maintenance with energy left moves, pays and raises alerts exactly as on a mission |
| Assets.FlightStep | spiga-simulator/src/main/java/com/spiga/core/ActifAerien.java:50-84 | the imperative step computation gives the aerial candidate |
| Assets.DriftStep | spiga-simulator/src/main/java/com/spiga/core/ActifMarin.java:74-96 | the imperative step plus current gives the marine candidate |
| Assets.GroundStep | spiga-simulator/src/main/java/com/spiga/core/VehiculeTerrestre.java:109-124 | the imperative horizontal step gives the land candidate |
| Assets.ActifMobile.constructor | spiga-simulator/src/main/java/com/spiga/core/ActifMobile.java:36-45 | speed and maximum from the kind, full tank, AU_SOL, no target, empty path, radius 5.0, no alert; z reset for the land vehicle |
| Assets.ActifMobile.GetRadius | spiga-simulator/src/main/java/com/spiga/core/ActifMobile.java:47-50 | returns the stored radius |
| Assets.ActifMobile.SetRadius | spiga-simulator/src/main/java/com/spiga/core/ActifMobile.java:52-54 | stores the radius, nothing else changes |
| Assets.ActifMobile.SetTarget | spiga-simulator/src/main/java/com/spiga/core/ActifMobile.java:62-67 | stores the target (possibly none) and empties the waypoint list |
| Assets.ActifMobile.SetCurrentPath | spiga-simulator/src/main/java/com/spiga/core/ActifMobile.java:73-75 | stores the waypoint list |
| Assets.ActifMobile.SetPosition | spiga-simulator/src/main/java/com/spiga/core/VehiculeTerrestre.java:25-29 | stores the position through the kind's z clamp |
| Assets.ActifMobile.SetAutonomieActuelle | spiga-simulator/src/main/java/com/spiga/core/ActifMobile.java:101-103 | stores the level as given, unclamped |
| Assets.ActifMobile.SetEtat | spiga-simulator/src/main/java/com/spiga/core/ActifMobile.java:109-111 | stores the state |
| Assets.ActifMobile.NotifierEtatCritique | spiga-simulator/src/main/java/com/spiga/core/ActifMobile.java:130-133 | appends exactly the given alert to the log |
| Assets.ActifMobile.Demarrer | spiga-simulator/src/main/java/com/spiga/core/DroneLogistique.java:47-50 | the concrete `demarrer` changes no field |
| Assets.ActifMobile.Arreter | spiga-simulator/src/main/java/com/spiga/core/DroneReconnaissance.java:43-46 | the concrete `arreter` changes no field; EN_MISSION stays EN_MISSION |
| Assets.ActifMobile.DefaultDemarrer | spiga-simulator/src/main/java/com/spiga/core/ActifMobile.java:115-122 | the inherited `demarrer` refuses iff EN_PANNE or EN_MAINTENANCE, and changes no field either way |
| Assets.ActifMobile.DefaultArreter | spiga-simulator/src/main/java/com/spiga/core/ActifMobile.java:124-128 | the inherited `arreter` sets AU_SOL from any state |
| Assets.ActifMobile.DefaultRavitailler | spiga-simulator/src/main/java/com/spiga/core/ActifMobile.java:146-150 | the inherited `ravitailler` sets the level to exactly the maximum |
| Assets.ActifMobile.Recharger | spiga-simulator/src/main/java/com/spiga/core/VehiculeSousMarin.java:34-38 | the level becomes min(max, level + q) |
| Assets.ActifMobile.Ravitailler | spiga-simulator/src/main/java/com/spiga/core/VehiculeSurface.java:40-43 | the level becomes that of `recharger(100)`, or is unchanged for the submarine |
| Assets.ActifMobile.CalculerTrajet | spiga-simulator/src/main/java/com/spiga/core/VehiculeTerrestre.java:157-169 | the path is exactly [position, target] |
| Assets.ActifMobile.Consume | spiga-simulator/src/main/java/com/spiga/core/ActifMarin.java:123-128 | subtracts the consumption; on depletion clamps to 0, sets EN_PANNE and logs BATTERIE_FAIBLE, as the commit does |
| Assets.ActifMobile.DeplacerAerien | spiga-simulator/src/main/java/com/spiga/core/ActifAerien.java:33-120 | the new state and the alerts logged are those of the aerial tick |
| Assets.ActifMobile.DeplacerMarin | spiga-simulator/src/main/java/com/spiga/core/ActifMarin.java:34-132 | the new state, path included, and the alerts logged are those of the marine tick |
| Assets.ActifMobile.DeplacerTerrestre | spiga-simulator/src/main/java/com/spiga/core/VehiculeTerrestre.java:69-155 | the new state, path included, and the alerts logged are those of the land tick |
| Assets.ActifMobile.Deplacer | spiga-simulator/src/main/java/com/spiga/core/ActifMobile.java:154 | `deplacer` dispatched on the kind: the new state and alerts are those of that kind's tick |
| Fleet.FilterAuSol | spiga-simulator/src/main/java/com/spiga/mission/GestionnaireEssaim.java:48-52 | the filtered list holds only AU_SOL assets of the fleet, and holds every AU_SOL asset of it |
| Fleet.FindFirstWith | spiga-simulator/src/main/java/com/spiga/mission/GestionnaireEssaim.java:60-65 | a found asset has autonomy >= m; none is found iff every asset is below m |
| Fleet.FirstEligible | spiga-simulator/src/main/java/com/spiga/mission/GestionnaireEssaim.java:60-65 | the reference suggestion is the eligible asset at the smallest index, or none iff no asset is eligible |
| Fleet.SuggestionIsFirstEligible | spiga-simulator/src/main/java/com/spiga/mission/GestionnaireEssaim.java:60-65 | filtering AU_SOL then taking the first with enough autonomy gives the first eligible asset |
| Fleet.FilterAfterAppend | spiga-simulator/src/test/java/com/spiga/mission/GestionnaireEssaimTest.java:28-41 | appending an asset appends it to the available list iff it is AU_SOL: the filter keeps fleet order |
| Fleet.GestionnaireEssaim.constructor | spiga-simulator/src/main/java/com/spiga/mission/GestionnaireEssaim.java:21-23 | a new manager has an empty fleet |
| Fleet.GestionnaireEssaim.AjouterActif | spiga-simulator/src/main/java/com/spiga/mission/GestionnaireEssaim.java:30-32 | appends the asset at the end of the fleet |
| Fleet.GestionnaireEssaim.GetActifsDisponibles | spiga-simulator/src/main/java/com/spiga/mission/GestionnaireEssaim.java:48-52 | exactly the AU_SOL assets of the fleet, read without changing it |
| Fleet.GestionnaireEssaim.SuggererActif | spiga-simulator/src/main/java/com/spiga/mission/GestionnaireEssaim.java:60-65 | a suggestion is in the fleet, AU_SOL and has autonomy >= m; none iff no such asset; it is the first such asset |
| Missions.Mission.constructor | spiga-simulator/src/main/java/com/spiga/mission/Mission.java:13-18 | a new mission is PLANIFIEE, with the given objective and no asset |
| Missions.Mission.AssignerActif | spiga-simulator/src/main/java/com/spiga/mission/Mission.java:25-27 | appends the asset, duplicates allowed |
| Missions.Mission.Demarrer | spiga-simulator/src/main/java/com/spiga/mission/Mission.java:32-38 | EN_COURS from any status; each asset is started and keeps its state (an AU_SOL drone stays AU_SOL) |
| Missions.Mission.Terminer | spiga-simulator/src/main/java/com/spiga/mission/Mission.java:43-49 | TERMINEE from any status; each asset is stopped and keeps its state |
| Missions.Mission.SetObjectif | spiga-simulator/src/main/java/com/spiga/mission/Mission.java:74-76 | the objective read afterwards is the one set |

Constants follow the constructors of `core/DroneReconnaissance.java` (120, 60, sensor radius 500 by
default), `core/DroneLogistique.java` (80, 45, capacity 10 by default), `core/VehiculeSurface.java`
(60, 150), `core/VehiculeSousMarin.java` (40, 200) and `core/VehiculeTerrestre.java` (50, 120).

## Left out
- Console output: every `System.out`/`System.err` print, `envoyerMessage`, and the printed text of `notifierEtatCritique` and of the refusals in `demarrer`. Alerts are a ghost log instead.
- The zone services `isLand`, `findPath`, `addCollidable` and `isCollision(point, self)` are not defined in `ZoneOperation.java`. They are function-valued parameters, so the grid planner and island shapes are not part of this model.
- The square root: the movement methods take the distance as a parameter and require it to be the true length on squares. The tick functions are stated for the `dist == 0` test the source makes. The model does not prove that `dist == 0` exactly when the displacement is zero.
- Floating point: `double` is modelled as `real`, so rounding is not modelled and "reaches the target exactly" holds only approximately in Java. The single NaN path (marine or land, no waypoint, zero distance, where 0 / 0 fails the zone test) is modelled as a rejected tick.
- The exception handler of `VehiculeTerrestre.deplacer` (set EN_PANNE on an exception) is left out: no code in the model throws.
- Object aliasing: the land vehicle's constructor also zeroes z in the caller's `Point3D`, and `getFlotte` returns the live list. Only stored values are modelled; positions are `Vec3` values.
- Plain getters (`getFlotte`, `getStatut`, `getObjectif`, `getCapaciteEmport`, `getPosition`, ...) are field reads of the Dafny classes and have no members of their own.
- The behaviour-free interfaces (`Deplacable`, `Rechargeable`, `Communicable`, `Pilotable`, `Alertable`, `Collidable`), the JavaFX and console front-ends, and `MainApp`.
- Assets.ActifMobile.DefaultDemarrer: returns whether the start is accepted instead of printing the refusal.
- Fleet.GestionnaireEssaim.GetActifsDisponibles: its contract states membership in both directions. The order of the list is stated separately, by `Fleet.FilterAfterAppend`.
- Assets.ActifMobile.Deplacer, DeplacerAerien, DeplacerMarin and DeplacerTerrestre take a snapshot of the zone's fields. They do not model a zone that changes during the tick, which never happens in the source.
- Marine.CommitsOnlyLegal: for the surface vessel it does not promise that the stored position passed the checks, because the source tests the unclamped candidate.
