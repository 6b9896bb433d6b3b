/** One movement tick of a vessel (core/ActifMarin.java, `deplacer`): it
    follows a planned waypoint list, drifts with the sea current and must stay
    off land. */
module Marine {
  import opened Geometry
  import opened States
  import opened Kinds
  import opened Zone
  import opened Ticks

  /** The path the tick works with: the planner's marine path when the current one is empty. */
  function MarinePath(s: AssetState, cible: Vec3, qs: ZoneQueries): seq<Vec3>
  {
    PlannedPath(s.path, qs.findPath(s.position, cible, true))
  }

  /** The candidate position: one capped step towards the hop, plus the current, on all three axes. */
  function Candidate(pos: Vec3, hop: Vec3, courant: Vec3, dist: real, vmax: real): Vec3
    requires dist != 0.0
  {
    Add(pos, Add(Scale(Div(Sub(hop, pos), dist), StepSpeed(vmax, dist)), courant))
  }

  /** Energy paid by a committed step: 1.0, plus 0.5 when the current is not zero. */
  function Consumption(courant: Vec3): real
  {
    1.0 + (if courant.x != 0.0 || courant.y != 0.0 || courant.z != 0.0 then 0.5 else 0.0)
  }

  /** The whole tick. `dist` stands for the distance to the next hop that the
      source computes with a square root. A zero distance with no waypoint
      makes the source divide 0 by 0; the resulting candidate fails the zone
      test, which is modelled as a rejected tick. */
  function MarineTick(k: Kind, s: AssetState, cible: Vec3, env: Environment,
                      qs: ZoneQueries, dist: real): Tick
  {
    if Blocked(s) then Tick(s, [])
    else
      var path := MarinePath(s, cible, qs);
      var s1 := s.(etat := Engaged(s.etat), path := path);
      if dist < HopRadius && |path| > 0 then Tick(s1.(path := path[1..]), [])
      else if dist == 0.0 then Tick(s1, [])
      else
        var c := Candidate(s.position, NextHop(path, cible), env.courantMarin, dist, VitesseMax(k));
        if !env.IsInside(c) then Tick(s1, [])
        else if qs.collides(c) then Tick(s1, [CollisionImminente])
        else if qs.isLand(c) then Tick(s1, [])
        else Commit(s1, StoredPosition(k, c), Consumption(env.courantMarin))
  }

  /** The candidate an unblocked tick tests when it does not retire a hop. */
  function TickCandidate(k: Kind, s: AssetState, cible: Vec3, env: Environment, qs: ZoneQueries, dist: real): Vec3
    requires dist != 0.0
  {
    Candidate(s.position, NextHop(MarinePath(s, cible, qs), cible), env.courantMarin, dist, VitesseMax(k))
  }

  /** The state every unblocked tick starts from: engaged, with the planned path. */
  function Prepared(s: AssetState, cible: Vec3, qs: ZoneQueries): AssetState
  {
    s.(etat := Engaged(s.etat), path := MarinePath(s, cible, qs))
  }

  /** With energy left, a vessel in maintenance moves, pays and raises alerts
      exactly as the same vessel on a mission. */
  lemma MaintenanceLikeMission(k: Kind, s: AssetState, cible: Vec3, env: Environment, qs: ZoneQueries, dist: real)
    requires s.etat == EnMaintenance && s.autonomie > 0.0
    ensures var t := MarineTick(k, s, cible, env, qs, dist);
      var m := MarineTick(k, s.(etat := EnMission), cible, env, qs, dist);
      t.next.position == m.next.position && t.next.autonomie == m.next.autonomie &&
      t.next.path == m.next.path && t.alerts == m.alerts
  {
    var s' := s.(etat := EnMission);
    assert MarinePath(s', cible, qs) == MarinePath(s, cible, qs);
    assert Prepared(s', cible, qs) == Prepared(s, cible, qs).(etat := EnMission);
    if dist != 0.0 {
      assert TickCandidate(k, s', cible, env, qs, dist) == TickCandidate(k, s, cible, env, qs, dist);
      var c := TickCandidate(k, s, cible, env, qs, dist);
      CommitIgnoresEtat(Prepared(s, cible, qs), EnMission, StoredPosition(k, c), Consumption(env.courantMarin));
    }
  }

  /** A broken-down or empty vessel does nothing: no planning, no move, no alert. */
  lemma BlockedNoOp(k: Kind, s: AssetState, cible: Vec3, env: Environment, qs: ZoneQueries, dist: real)
    requires Blocked(s)
    ensures MarineTick(k, s, cible, env, qs, dist) == Tick(s, [])
  {
  }

  /** An unblocked tick with an empty path asks the planner for a marine path
      (flag true); the path after the tick is that path or its tail. */
  lemma PlansMarinePath(k: Kind, s: AssetState, cible: Vec3, env: Environment, qs: ZoneQueries, dist: real)
    requires !Blocked(s) && |s.path| == 0
    ensures var planned := qs.findPath(s.position, cible, true);
      var t := MarineTick(k, s, cible, env, qs, dist);
      t.next.path == planned || (|planned| > 0 && t.next.path == planned[1..])
  {
  }

  /** A non-empty path is kept as it is, or loses exactly its first waypoint. */
  lemma KeepsOrAdvancesPath(k: Kind, s: AssetState, cible: Vec3, env: Environment, qs: ZoneQueries, dist: real)
    requires |s.path| > 0
    ensures var t := MarineTick(k, s, cible, env, qs, dist);
      t.next.path == s.path || t.next.path == s.path[1..]
  {
  }

  /** Within 5.0 of a waypoint, exactly that waypoint is removed and nothing
      else changes but the engaged state: one hop per tick. */
  lemma HopRetired(k: Kind, s: AssetState, cible: Vec3, env: Environment, qs: ZoneQueries, dist: real)
    requires !Blocked(s) && dist < HopRadius && |MarinePath(s, cible, qs)| > 0
    ensures var p := Prepared(s, cible, qs);
      MarineTick(k, s, cible, env, qs, dist) == Tick(p.(path := p.path[1..]), [])
  {
  }

  /** With no waypoint at all and zero distance, the tick is rejected with only
      the engaged state and the (empty) planned path kept. */
  lemma ZeroDistanceRejected(k: Kind, s: AssetState, cible: Vec3, env: Environment, qs: ZoneQueries)
    requires !Blocked(s) && |MarinePath(s, cible, qs)| == 0
    ensures MarineTick(k, s, cible, env, qs, 0.0) == Tick(Prepared(s, cible, qs), [])
  {
  }

  /** The current is added as a whole to the displacement, on all three axes. */
  lemma CurrentDrift(pos: Vec3, hop: Vec3, courant: Vec3, dist: real, vmax: real)
    requires dist != 0.0
    ensures Candidate(pos, hop, courant, dist, vmax) == Add(Candidate(pos, hop, Origin, dist, vmax), courant)
  {
  }

  /** In still water a hop within range is the candidate itself. */
  lemma StillWaterReachesHop(pos: Vec3, hop: Vec3, dist: real, vmax: real)
    requires dist > 0.0 && vmax >= dist
    ensures Candidate(pos, hop, Origin, dist, vmax) == hop
  {
    FullStep(Sub(hop, pos), dist);
  }

  /** Once a hop is not retired, a candidate outside the zone, colliding or on
      land is dropped: only the engaged state and the planned path are kept,
      and only a collision raises an alert. */
  lemma Rejections(k: Kind, s: AssetState, cible: Vec3, env: Environment, qs: ZoneQueries, dist: real)
    requires !Blocked(s) && dist != 0.0
    requires !(dist < HopRadius && |MarinePath(s, cible, qs)| > 0)
    ensures var c := TickCandidate(k, s, cible, env, qs, dist);
      var t := MarineTick(k, s, cible, env, qs, dist);
      (!env.IsInside(c) ==> t == Tick(Prepared(s, cible, qs), [])) &&
      (env.IsInside(c) && qs.collides(c) ==> t == Tick(Prepared(s, cible, qs), [CollisionImminente])) &&
      (env.IsInside(c) && !qs.collides(c) && qs.isLand(c) ==> t == Tick(Prepared(s, cible, qs), []))
  {
  }

  /** An accepted candidate is stored through the kind's `setPosition` and the
      marine consumption is paid. */
  lemma Committed(k: Kind, s: AssetState, cible: Vec3, env: Environment, qs: ZoneQueries, dist: real)
    requires !Blocked(s) && dist != 0.0
    requires !(dist < HopRadius && |MarinePath(s, cible, qs)| > 0)
    requires var c := TickCandidate(k, s, cible, env, qs, dist);
      env.IsInside(c) && !qs.collides(c) && !qs.isLand(c)
    ensures var t := MarineTick(k, s, cible, env, qs, dist);
      var left := s.autonomie - Consumption(env.courantMarin);
      t.next.position == StoredPosition(k, TickCandidate(k, s, cible, env, qs, dist)) &&
      t.next.path == MarinePath(s, cible, qs) &&
      (left > 0.0 ==> t.next.autonomie == left && t.alerts == []) &&
      (left <= 0.0 ==> t.next.autonomie == 0.0 && t.next.etat == EnPanne && t.alerts == [BatterieFaible])
  {
    var c := TickCandidate(k, s, cible, env, qs, dist);
    CommitEffect(Prepared(s, cible, qs), StoredPosition(k, c), Consumption(env.courantMarin));
  }

  /** Conversely, a tick that changes the position or the level has committed a
      legal candidate: no hop was retired, the distance was not zero, and the
      candidate is inside the zone, free and not on land. What is stored is the
      candidate through the kind's `setPosition`, which for the surface vessel
      is not the point that was tested (see SurfaceTestsUnclampedPoint). */
  lemma CommitsOnlyLegal(k: Kind, s: AssetState, cible: Vec3, env: Environment, qs: ZoneQueries, dist: real)
    ensures var t := MarineTick(k, s, cible, env, qs, dist);
      t.next.position != s.position || t.next.autonomie != s.autonomie ==>
        !Blocked(s) && !(dist < HopRadius && |MarinePath(s, cible, qs)| > 0) && dist != 0.0 &&
        env.IsInside(TickCandidate(k, s, cible, env, qs, dist)) &&
        !qs.collides(TickCandidate(k, s, cible, env, qs, dist)) &&
        !qs.isLand(TickCandidate(k, s, cible, env, qs, dist)) &&
        t.next.position == StoredPosition(k, TickCandidate(k, s, cible, env, qs, dist))
  {
  }

  /** A hop within range is reached, and the current is then added to it. */
  lemma HopPlusCurrent(pos: Vec3, hop: Vec3, courant: Vec3, dist: real, vmax: real)
    requires dist > 0.0 && vmax >= dist
    ensures Candidate(pos, hop, courant, dist, vmax) == Add(hop, courant)
  {
    StillWaterReachesHop(pos, hop, dist, vmax);
    CurrentDrift(pos, hop, courant, dist, vmax);
  }

  /** The zone test sees the candidate before the surface vessel's `setPosition`
      sets z to 0. A surface vessel with no waypoint, its target within range
      and a current that carries the candidate below the zone's floor is refused,
      even when the point it would have stored lies inside the zone (for
      instance a target (10, 0, 0), a current (0, 0, -1) and a zone from the
      origin to (1000, 1000, 1000)). */
  lemma SurfaceTestsUnclampedPoint(s: AssetState, cible: Vec3, env: Environment, qs: ZoneQueries, dist: real)
    requires !Blocked(s) && |MarinePath(s, cible, qs)| == 0
    requires 0.0 < dist <= VitesseMax(VehiculeSurface)
    requires cible.z + env.courantMarin.z < env.minCoord.z
    ensures TickCandidate(VehiculeSurface, s, cible, env, qs, dist) == Add(cible, env.courantMarin)
    ensures MarineTick(VehiculeSurface, s, cible, env, qs, dist) == Tick(Prepared(s, cible, qs), [])
    ensures env.IsInside(Flat(Add(cible, env.courantMarin))) ==>
      env.IsInside(StoredPosition(VehiculeSurface, TickCandidate(VehiculeSurface, s, cible, env, qs, dist)))
  {
    HopPlusCurrent(s.position, cible, env.courantMarin, dist, VitesseMax(VehiculeSurface));
    Rejections(VehiculeSurface, s, cible, env, qs, dist);
  }

  /** With `dist` the distance to the hop, the step taken in still water has
      length StepSpeed: the maximum speed, or the distance when that is shorter
      (stated on squares). The current is then added whole (CurrentDrift). */
  lemma StepLengthIsSpeed(pos: Vec3, hop: Vec3, dist: real, vmax: real)
    requires IsDistance(dist, Sub(hop, pos)) && dist > 0.0 && vmax > 0.0
    ensures SqNorm(Sub(Candidate(pos, hop, Origin, dist, vmax), pos)) == StepSpeed(vmax, dist) * StepSpeed(vmax, dist)
  {
    var d := Sub(hop, pos);
    var speed := StepSpeed(vmax, dist);
    StepOnSegment(d, dist, speed);
    assert Sub(Candidate(pos, hop, Origin, dist, vmax), pos) == Scale(d, speed / dist);
    StepLength(d, dist, speed);
  }

  /** The consumption is 1.0 in still water and 1.5 as soon as any component of the current is not zero. */
  lemma ConsumptionValues(courant: Vec3)
    ensures Consumption(courant) == 1.0 <==> courant == Origin
    ensures courant != Origin ==> Consumption(courant) == 1.5
  {
  }

  /** Energy never grows and never ends below 0 when it started at or above 0. */
  lemma EnergyBounded(k: Kind, s: AssetState, cible: Vec3, env: Environment, qs: ZoneQueries, dist: real)
    requires s.autonomie >= 0.0
    ensures 0.0 <= MarineTick(k, s, cible, env, qs, dist).next.autonomie <= s.autonomie
  {
    if !Blocked(s) && dist != 0.0 && !(dist < HopRadius && |MarinePath(s, cible, qs)| > 0) {
      var c := TickCandidate(k, s, cible, env, qs, dist);
      CommitLowersEnergy(Prepared(s, cible, qs), StoredPosition(k, c), Consumption(env.courantMarin));
    }
  }

  /** A surface vessel at z = 0 is still at z = 0 after any tick. */
  lemma SurfaceStaysAtSeaLevel(s: AssetState, cible: Vec3, env: Environment, qs: ZoneQueries, dist: real)
    requires s.position.z == 0.0
    ensures MarineTick(VehiculeSurface, s, cible, env, qs, dist).next.position.z == 0.0
  {
  }

  /** A submarine stores the candidate as computed, depth included. */
  lemma SubmarineKeepsDepth(s: AssetState, cible: Vec3, env: Environment, qs: ZoneQueries, dist: real)
    requires !Blocked(s) && dist != 0.0
    requires !(dist < HopRadius && |MarinePath(s, cible, qs)| > 0)
    requires var c := TickCandidate(VehiculeSousMarin, s, cible, env, qs, dist);
      env.IsInside(c) && !qs.collides(c) && !qs.isLand(c)
    ensures MarineTick(VehiculeSousMarin, s, cible, env, qs, dist).next.position ==
      TickCandidate(VehiculeSousMarin, s, cible, env, qs, dist)
  {
  }

  /** Every tick raises at most one alert, a collision or a low battery. */
  lemma AtMostOneAlert(k: Kind, s: AssetState, cible: Vec3, env: Environment, qs: ZoneQueries, dist: real)
    ensures var t := MarineTick(k, s, cible, env, qs, dist);
      t.alerts == [] || t.alerts == [CollisionImminente] || t.alerts == [BatterieFaible]
  {
  }
}
