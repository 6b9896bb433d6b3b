/** One movement tick of the land vehicle (core/VehiculeTerrestre.java,
    `deplacer`): it follows a planned waypoint list in the horizontal plane,
    stays on the ground and must stay on land. */
module Land {
  import opened Geometry
  import opened States
  import opened Kinds
  import opened Zone
  import opened Ticks

  /** The only kind with this tick. */
  const Vehicle: Kind := VehiculeTerrestre

  /** The path the tick works with: the planner's land path (flag false) when the current one is empty. */
  function LandPath(s: AssetState, cible: Vec3, qs: ZoneQueries): seq<Vec3>
  {
    PlannedPath(s.path, qs.findPath(s.position, cible, false))
  }

  /** The candidate position: one capped horizontal step towards the hop, at z = 0. */
  function Candidate(pos: Vec3, hop: Vec3, dist: real, vmax: real): Vec3
    requires dist != 0.0
  {
    var speed := StepSpeed(vmax, dist);
    Vec3(pos.x + (hop.x - pos.x) / dist * speed, pos.y + (hop.y - pos.y) / dist * speed, 0.0)
  }

  lemma CandidateCoordinates(pos: Vec3, hop: Vec3, dist: real, vmax: real, speed: real)
    requires dist != 0.0 && speed == StepSpeed(vmax, dist)
    ensures Candidate(pos, hop, dist, vmax) ==
      Vec3(pos.x + (hop.x - pos.x) / dist * speed, pos.y + (hop.y - pos.y) / dist * speed, 0.0)
  {
  }

  /** Energy paid by a committed step, whatever the weather. */
  const Consumption: real := 1.0

  /** The whole tick. `dist` stands for the horizontal distance to the next hop
      that the source computes with a square root. A zero distance with no
      waypoint makes the source divide 0 by 0; the resulting candidate fails
      the zone test, which is modelled as a rejected tick. */
  function LandTick(s: AssetState, cible: Vec3, env: Environment, qs: ZoneQueries, dist: real): Tick
  {
    if Blocked(s) then Tick(s, [])
    else
      var path := LandPath(s, cible, qs);
      var s1 := s.(etat := Engaged(s.etat), path := path);
      if dist < HopRadius && |path| > 0 then Tick(s1.(path := path[1..]), [])
      else if dist == 0.0 then Tick(s1, [])
      else
        var c := Candidate(s.position, NextHop(path, cible), dist, VitesseMax(Vehicle));
        if !env.IsInside(c) then Tick(s1, [])
        else if qs.collides(c) then Tick(s1, [CollisionImminente])
        else if !qs.isLand(c) then Tick(s1, [])
        else Commit(s1, StoredPosition(Vehicle, c), Consumption)
  }

  /** The candidate an unblocked tick tests when it does not retire a hop. */
  function TickCandidate(s: AssetState, cible: Vec3, qs: ZoneQueries, dist: real): Vec3
    requires dist != 0.0
  {
    Candidate(s.position, NextHop(LandPath(s, cible, qs), cible), dist, VitesseMax(Vehicle))
  }

  /** The state every unblocked tick starts from: engaged, with the planned path. */
  function Prepared(s: AssetState, cible: Vec3, qs: ZoneQueries): AssetState
  {
    s.(etat := Engaged(s.etat), path := LandPath(s, cible, qs))
  }

  /** With energy left, a vehicle in maintenance moves, pays and raises alerts
      exactly as the same vehicle on a mission. */
  lemma MaintenanceLikeMission(s: AssetState, cible: Vec3, env: Environment, qs: ZoneQueries, dist: real)
    requires s.etat == EnMaintenance && s.autonomie > 0.0
    ensures var t := LandTick(s, cible, env, qs, dist);
      var m := LandTick(s.(etat := EnMission), cible, env, qs, dist);
      t.next.position == m.next.position && t.next.autonomie == m.next.autonomie &&
      t.next.path == m.next.path && t.alerts == m.alerts
  {
    var s' := s.(etat := EnMission);
    assert LandPath(s', cible, qs) == LandPath(s, cible, qs);
    assert Prepared(s', cible, qs) == Prepared(s, cible, qs).(etat := EnMission);
    if dist != 0.0 {
      assert TickCandidate(s', cible, qs, dist) == TickCandidate(s, cible, qs, dist);
      var c := TickCandidate(s, cible, qs, dist);
      CommitIgnoresEtat(Prepared(s, cible, qs), EnMission, StoredPosition(Vehicle, c), Consumption);
    }
  }

  /** A broken-down or empty vehicle does nothing: no planning, no move, no alert. */
  lemma BlockedNoOp(s: AssetState, cible: Vec3, env: Environment, qs: ZoneQueries, dist: real)
    requires Blocked(s)
    ensures LandTick(s, cible, env, qs, dist) == Tick(s, [])
  {
  }

  /** An unblocked tick with an empty path asks the planner for a land path
      (flag false); the path after the tick is that path or its tail. */
  lemma PlansLandPath(s: AssetState, cible: Vec3, env: Environment, qs: ZoneQueries, dist: real)
    requires !Blocked(s) && |s.path| == 0
    ensures var planned := qs.findPath(s.position, cible, false);
      var t := LandTick(s, cible, env, qs, dist);
      t.next.path == planned || (|planned| > 0 && t.next.path == planned[1..])
  {
  }

  /** Within 5.0 (horizontally) of a waypoint, exactly that waypoint is
      removed and nothing else changes but the engaged state. */
  lemma HopRetired(s: AssetState, cible: Vec3, env: Environment, qs: ZoneQueries, dist: real)
    requires !Blocked(s) && dist < HopRadius && |LandPath(s, cible, qs)| > 0
    ensures var p := Prepared(s, cible, qs);
      LandTick(s, cible, env, qs, dist) == Tick(p.(path := p.path[1..]), [])
  {
  }

  /** With no waypoint at all and zero distance, the tick is rejected. */
  lemma ZeroDistanceRejected(s: AssetState, cible: Vec3, env: Environment, qs: ZoneQueries)
    requires !Blocked(s) && |LandPath(s, cible, qs)| == 0
    ensures LandTick(s, cible, env, qs, 0.0) == Tick(Prepared(s, cible, qs), [])
  {
  }

  /** The candidate is the horizontal part of the aerial-style step: the
      fraction StepSpeed / dist of the horizontal displacement, in (0, 1], at z = 0. */
  lemma CandidateOnGroundSegment(pos: Vec3, hop: Vec3, dist: real, vmax: real)
    requires dist > 0.0 && vmax > 0.0
    ensures var f := StepSpeed(vmax, dist) / dist;
      Candidate(pos, hop, dist, vmax) == Add(Flat(pos), Scale(Flat(Sub(hop, pos)), f)) && 0.0 < f <= 1.0
  {
    var speed := StepSpeed(vmax, dist);
    StepOnSegment(Flat(Sub(hop, pos)), dist, speed);
    assert (hop.x - pos.x) / dist * speed == (hop.x - pos.x) * (speed / dist);
    assert (hop.y - pos.y) / dist * speed == (hop.y - pos.y) * (speed / dist);
  }

  /** With `dist` the horizontal distance to the hop, the horizontal step
      taken has length StepSpeed: the maximum speed, or the distance when that
      is shorter (stated on squares). */
  lemma StepLengthIsSpeed(pos: Vec3, hop: Vec3, dist: real, vmax: real)
    requires IsDistance2D(dist, Sub(hop, pos)) && dist > 0.0 && vmax > 0.0
    ensures SqNorm2D(Sub(Candidate(pos, hop, dist, vmax), pos)) == StepSpeed(vmax, dist) * StepSpeed(vmax, dist)
  {
    var d := Flat(Sub(hop, pos));
    var speed := StepSpeed(vmax, dist);
    CandidateOnGroundSegment(pos, hop, dist, vmax);
    var step := Sub(Candidate(pos, hop, dist, vmax), pos);
    assert Flat(step) == Scale(d, speed / dist);
    FlatNorm(Sub(hop, pos));
    FlatNorm(step);
    StepLength(d, dist, speed);
  }

  /** A hop within range is reached horizontally, on the ground. */
  lemma CandidateReachesHop(pos: Vec3, hop: Vec3, dist: real, vmax: real)
    requires dist > 0.0 && vmax >= dist
    ensures Candidate(pos, hop, dist, vmax) == Flat(hop)
  {
    FullStep(Sub(hop, pos), dist);
  }

  /** Once a hop is not retired, a candidate outside the zone, colliding or
      off land is dropped: only the engaged state and the planned path are
      kept, and only a collision raises an alert. */
  lemma Rejections(s: AssetState, cible: Vec3, env: Environment, qs: ZoneQueries, dist: real)
    requires !Blocked(s) && dist != 0.0
    requires !(dist < HopRadius && |LandPath(s, cible, qs)| > 0)
    ensures var c := TickCandidate(s, cible, qs, dist);
      var t := LandTick(s, cible, env, qs, dist);
      (!env.IsInside(c) ==> t == Tick(Prepared(s, cible, qs), [])) &&
      (env.IsInside(c) && qs.collides(c) ==> t == Tick(Prepared(s, cible, qs), [CollisionImminente])) &&
      (env.IsInside(c) && !qs.collides(c) && !qs.isLand(c) ==> t == Tick(Prepared(s, cible, qs), []))
  {
  }

  /** An accepted candidate is stored and exactly 1.0 is paid, with no weather term. */
  lemma Committed(s: AssetState, cible: Vec3, env: Environment, qs: ZoneQueries, dist: real)
    requires !Blocked(s) && dist != 0.0
    requires !(dist < HopRadius && |LandPath(s, cible, qs)| > 0)
    requires var c := TickCandidate(s, cible, qs, dist);
      env.IsInside(c) && !qs.collides(c) && qs.isLand(c)
    ensures var t := LandTick(s, cible, env, qs, dist);
      t.next.position == TickCandidate(s, cible, qs, dist) &&
      t.next.path == LandPath(s, cible, qs) &&
      (s.autonomie > 1.0 ==> t.next.autonomie == s.autonomie - 1.0 && t.alerts == []) &&
      (s.autonomie <= 1.0 ==> t.next.autonomie == 0.0 && t.next.etat == EnPanne && t.alerts == [BatterieFaible])
  {
    var c := TickCandidate(s, cible, qs, dist);
    CommitEffect(Prepared(s, cible, qs), StoredPosition(Vehicle, c), Consumption);
  }

  /** Conversely, a tick that changes the position or the level has committed a
      legal candidate: no hop was retired, the distance was not zero, and the
      candidate is inside the zone, free and on land; it is what was stored. */
  lemma CommitsOnlyLegal(s: AssetState, cible: Vec3, env: Environment, qs: ZoneQueries, dist: real)
    ensures var t := LandTick(s, cible, env, qs, dist);
      t.next.position != s.position || t.next.autonomie != s.autonomie ==>
        !Blocked(s) && !(dist < HopRadius && |LandPath(s, cible, qs)| > 0) && dist != 0.0 &&
        env.IsInside(TickCandidate(s, cible, qs, dist)) &&
        !qs.collides(TickCandidate(s, cible, qs, dist)) &&
        qs.isLand(TickCandidate(s, cible, qs, dist)) &&
        t.next.position == TickCandidate(s, cible, qs, dist)
  {
  }

  /** The weather never enters the land tick: changing wind, precipitation and
      current gives the same outcome. */
  lemma WeatherIrrelevant(s: AssetState, cible: Vec3, env: Environment, qs: ZoneQueries, dist: real,
                          vent: Vec3, precipitations: real, courant: Vec3)
    ensures LandTick(s, cible, env.(vent := vent, precipitations := precipitations, courantMarin := courant), qs, dist)
         == LandTick(s, cible, env, qs, dist)
  {
  }

  /** A vehicle on the ground is still on the ground after any tick. */
  lemma StaysOnGround(s: AssetState, cible: Vec3, env: Environment, qs: ZoneQueries, dist: real)
    requires s.position.z == 0.0
    ensures LandTick(s, cible, env, qs, dist).next.position.z == 0.0
  {
  }

  /** Energy never grows and never ends below 0 when it started at or above 0. */
  lemma EnergyBounded(s: AssetState, cible: Vec3, env: Environment, qs: ZoneQueries, dist: real)
    requires s.autonomie >= 0.0
    ensures 0.0 <= LandTick(s, cible, env, qs, dist).next.autonomie <= s.autonomie
  {
    if !Blocked(s) && dist != 0.0 && !(dist < HopRadius && |LandPath(s, cible, qs)| > 0) {
      var c := TickCandidate(s, cible, qs, dist);
      CommitLowersEnergy(Prepared(s, cible, qs), StoredPosition(Vehicle, c), Consumption);
    }
  }

  /** Every tick raises at most one alert, a collision or a low battery. */
  lemma AtMostOneAlert(s: AssetState, cible: Vec3, env: Environment, qs: ZoneQueries, dist: real)
    ensures var t := LandTick(s, cible, env, qs, dist);
      t.alerts == [] || t.alerts == [CollisionImminente] || t.alerts == [BatterieFaible]
  {
  }
}
