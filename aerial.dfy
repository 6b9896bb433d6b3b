/** One movement tick of a flying asset (core/ActifAerien.java, `deplacer`),
    as a function of the state before the tick. */
module Aerial {
  import opened Geometry
  import opened States
  import opened Kinds
  import opened Zone
  import opened Ticks

  /** The candidate position: one step of `StepSpeed` along the normalised direction to the target. */
  function Candidate(pos: Vec3, cible: Vec3, dist: real, vmax: real): Vec3
    requires dist != 0.0
  {
    Add(pos, Scale(Div(Sub(cible, pos), dist), StepSpeed(vmax, dist)))
  }

  /** The candidate coordinate by coordinate, as the source computes it. */
  lemma CandidateCoordinates(pos: Vec3, cible: Vec3, dist: real, vmax: real, speed: real)
    requires dist != 0.0 && speed == StepSpeed(vmax, dist)
    ensures Candidate(pos, cible, dist, vmax) ==
      Vec3(pos.x + (cible.x - pos.x) / dist * speed,
           pos.y + (cible.y - pos.y) / dist * speed,
           pos.z + (cible.z - pos.z) / dist * speed)
  {
    var u := Div(Sub(cible, pos), dist);
    assert u == Vec3((cible.x - pos.x) / dist, (cible.y - pos.y) / dist, (cible.z - pos.z) / dist);
    assert Scale(u, speed) == Vec3(u.x * speed, u.y * speed, u.z * speed);
  }

  /** Energy paid by a committed flight step: 1.0, plus a tenth of the
      precipitation when it is positive, plus 0.5 when the wind has a
      horizontal component. */
  function Consumption(env: Environment): real
  {
    1.0
    + (if env.precipitations > 0.0 then env.precipitations * 0.1 else 0.0)
    + (if env.vent.x != 0.0 || env.vent.y != 0.0 then 0.5 else 0.0)
  }

  /** The whole tick. `dist` stands for the distance to the target that the
      source computes with a square root. */
  function AerialTick(k: Kind, s: AssetState, cible: Vec3, env: Environment,
                      qs: ZoneQueries, dist: real): Tick
  {
    if Blocked(s) then Tick(s, [])
    else
      var s1 := s.(etat := Engaged(s.etat));
      if dist == 0.0 then Tick(s1, [])
      else
        var c := Candidate(s.position, cible, dist, VitesseMax(k));
        if !env.IsInside(c) then Tick(s1, [])
        else if qs.collides(c) then Tick(s1, [CollisionImminente])
        else Commit(s1, StoredPosition(k, c), Consumption(env))
  }

  /** A broken-down or empty asset does not move, changes nothing and raises no alert. */
  lemma BlockedNoOp(k: Kind, s: AssetState, cible: Vec3, env: Environment, qs: ZoneQueries, dist: real)
    requires Blocked(s)
    ensures AerialTick(k, s, cible, env, qs, dist) == Tick(s, [])
  {
  }

  /** EN_MAINTENANCE is not guarded: an asset in maintenance with energy left
      moves to an accepted candidate. */
  lemma MaintenanceMoves(k: Kind, s: AssetState, cible: Vec3, env: Environment, qs: ZoneQueries, dist: real)
    requires k.IsAerial() && s.etat == EnMaintenance && s.autonomie > 0.0 && dist != 0.0
    requires env.IsInside(Candidate(s.position, cible, dist, VitesseMax(k)))
    requires !qs.collides(Candidate(s.position, cible, dist, VitesseMax(k)))
    ensures AerialTick(k, s, cible, env, qs, dist).next.position == Candidate(s.position, cible, dist, VitesseMax(k))
  {
  }

  /** With energy left, an asset in maintenance moves, pays and raises alerts
      exactly as the same asset on a mission. */
  lemma MaintenanceLikeMission(k: Kind, s: AssetState, cible: Vec3, env: Environment, qs: ZoneQueries, dist: real)
    requires s.etat == EnMaintenance && s.autonomie > 0.0
    ensures var t := AerialTick(k, s, cible, env, qs, dist);
      var m := AerialTick(k, s.(etat := EnMission), cible, env, qs, dist);
      t.next.position == m.next.position && t.next.autonomie == m.next.autonomie &&
      t.next.path == m.next.path && t.alerts == m.alerts
  {
    if dist != 0.0 {
      var c := Candidate(s.position, cible, dist, VitesseMax(k));
      CommitIgnoresEtat(s, EnMission, StoredPosition(k, c), Consumption(env));
    }
  }

  /** Every unblocked tick leaves AU_SOL behind, including when the move is
      rejected: the state after it is the engaged state, unless the commit
      drained the asset, which then breaks down with a low-battery alert. */
  lemma EngagesBeforeChecks(k: Kind, s: AssetState, cible: Vec3, env: Environment, qs: ZoneQueries, dist: real)
    requires !Blocked(s)
    ensures var t := AerialTick(k, s, cible, env, qs, dist);
      t.next.etat == Engaged(s.etat) || (t.next.etat == EnPanne && t.alerts == [BatterieFaible])
    ensures var t := AerialTick(k, s, cible, env, qs, dist);
      t.next.position == s.position ==> t.next.etat == Engaged(s.etat) || t.next.etat == EnPanne
  {
    if dist != 0.0 {
      var c := Candidate(s.position, cible, dist, VitesseMax(k));
      CommitEffect(s.(etat := Engaged(s.etat)), StoredPosition(k, c), Consumption(env));
    }
  }

  /** At zero distance only the AU_SOL -> EN_MISSION switch happens. */
  lemma ZeroDistance(k: Kind, s: AssetState, cible: Vec3, env: Environment, qs: ZoneQueries)
    requires !Blocked(s)
    ensures AerialTick(k, s, cible, env, qs, 0.0) == Tick(s.(etat := Engaged(s.etat)), [])
  {
  }

  /** The step is the fraction StepSpeed / dist of the way to the target, a
      fraction in (0, 1]: the candidate lies on the segment and never overshoots. */
  lemma CandidateOnSegment(pos: Vec3, cible: Vec3, dist: real, vmax: real)
    requires dist > 0.0 && vmax > 0.0
    ensures Candidate(pos, cible, dist, vmax) == Add(pos, Scale(Sub(cible, pos), StepSpeed(vmax, dist) / dist))
    ensures 0.0 < StepSpeed(vmax, dist) / dist <= 1.0
  {
    StepOnSegment(Sub(cible, pos), dist, StepSpeed(vmax, dist));
  }

  /** With `dist` the distance to the target, the step taken has length
      StepSpeed: the maximum speed, or the distance when that is shorter
      (stated on squares). */
  lemma StepLengthIsSpeed(pos: Vec3, cible: Vec3, dist: real, vmax: real)
    requires IsDistance(dist, Sub(cible, pos)) && dist > 0.0 && vmax > 0.0
    ensures SqNorm(Sub(Candidate(pos, cible, dist, vmax), pos)) == StepSpeed(vmax, dist) * StepSpeed(vmax, dist)
  {
    var d := Sub(cible, pos);
    var speed := StepSpeed(vmax, dist);
    CandidateOnSegment(pos, cible, dist, vmax);
    assert Sub(Candidate(pos, cible, dist, vmax), pos) == Scale(d, speed / dist);
    StepLength(d, dist, speed);
  }

  /** A target within one step of maximum speed is the candidate itself. */
  lemma CandidateReachesTarget(pos: Vec3, cible: Vec3, dist: real, vmax: real)
    requires dist > 0.0 && vmax >= dist
    ensures Candidate(pos, cible, dist, vmax) == cible
  {
    FullStep(Sub(cible, pos), dist);
  }

  /** A target within range is reached exactly in one committed tick. */
  lemma ReachesTarget(k: Kind, s: AssetState, cible: Vec3, env: Environment, qs: ZoneQueries, dist: real)
    requires k.IsAerial() && !Blocked(s) && dist > 0.0 && VitesseMax(k) >= dist
    requires env.IsInside(cible) && !qs.collides(cible)
    ensures AerialTick(k, s, cible, env, qs, dist).next.position == cible
  {
    CandidateReachesTarget(s.position, cible, dist, VitesseMax(k));
  }

  /** A candidate outside the zone is dropped silently: nothing but the
      engaged state changes. */
  lemma OutOfZone(k: Kind, s: AssetState, cible: Vec3, env: Environment, qs: ZoneQueries, dist: real)
    requires !Blocked(s) && dist != 0.0
    requires !env.IsInside(Candidate(s.position, cible, dist, VitesseMax(k)))
    ensures AerialTick(k, s, cible, env, qs, dist) == Tick(s.(etat := Engaged(s.etat)), [])
  {
  }

  /** A colliding candidate inside the zone is dropped with one collision alert. */
  lemma CollisionRejected(k: Kind, s: AssetState, cible: Vec3, env: Environment, qs: ZoneQueries, dist: real)
    requires !Blocked(s) && dist != 0.0
    requires env.IsInside(Candidate(s.position, cible, dist, VitesseMax(k)))
    requires qs.collides(Candidate(s.position, cible, dist, VitesseMax(k)))
    ensures AerialTick(k, s, cible, env, qs, dist) == Tick(s.(etat := Engaged(s.etat)), [CollisionImminente])
  {
  }

  /** An accepted candidate is committed with the flight consumption. */
  lemma Committed(k: Kind, s: AssetState, cible: Vec3, env: Environment, qs: ZoneQueries, dist: real)
    requires !Blocked(s) && dist != 0.0
    requires env.IsInside(Candidate(s.position, cible, dist, VitesseMax(k)))
    requires !qs.collides(Candidate(s.position, cible, dist, VitesseMax(k)))
    ensures var t := AerialTick(k, s, cible, env, qs, dist);
      t.next.position == StoredPosition(k, Candidate(s.position, cible, dist, VitesseMax(k))) &&
      (s.autonomie - Consumption(env) > 0.0 ==> t.next.autonomie == s.autonomie - Consumption(env) && t.alerts == []) &&
      (s.autonomie - Consumption(env) <= 0.0 ==>
         t.next.autonomie == 0.0 && t.next.etat == EnPanne && t.alerts == [BatterieFaible])
  {
    var c := Candidate(s.position, cible, dist, VitesseMax(k));
    CommitEffect(s.(etat := Engaged(s.etat)), StoredPosition(k, c), Consumption(env));
  }

  /** Conversely, a tick that changes the position or the level has committed a
      legal candidate: the asset was not blocked, the distance was not zero,
      the candidate is inside the zone and free, and it is what was stored. */
  lemma CommitsOnlyLegal(k: Kind, s: AssetState, cible: Vec3, env: Environment, qs: ZoneQueries, dist: real)
    ensures var t := AerialTick(k, s, cible, env, qs, dist);
      t.next.position != s.position || t.next.autonomie != s.autonomie ==>
        !Blocked(s) && dist != 0.0 &&
        env.IsInside(Candidate(s.position, cible, dist, VitesseMax(k))) &&
        !qs.collides(Candidate(s.position, cible, dist, VitesseMax(k))) &&
        t.next.position == StoredPosition(k, Candidate(s.position, cible, dist, VitesseMax(k)))
  {
  }

  /** The consumption is at least 1.0, and exactly 1.0 when there is neither
      precipitation nor horizontal wind. */
  lemma ConsumptionBase(env: Environment)
    ensures Consumption(env) >= 1.0
    ensures Consumption(env) == 1.0 <==> env.precipitations <= 0.0 && env.vent.x == 0.0 && env.vent.y == 0.0
  {
  }

  /** The vertical wind component plays no part in the consumption. */
  lemma ConsumptionIgnoresVerticalWind(env: Environment, vz: real)
    ensures Consumption(env.(vent := Vec3(env.vent.x, env.vent.y, vz))) == Consumption(env)
  {
  }

  /** Energy never grows during a tick and never ends below 0 when it started at or above 0. */
  lemma EnergyBounded(k: Kind, s: AssetState, cible: Vec3, env: Environment, qs: ZoneQueries, dist: real)
    requires s.autonomie >= 0.0
    ensures 0.0 <= AerialTick(k, s, cible, env, qs, dist).next.autonomie <= s.autonomie
  {
    if !Blocked(s) && dist != 0.0 {
      var c := Candidate(s.position, cible, dist, VitesseMax(k));
      ConsumptionBase(env);
      CommitLowersEnergy(s.(etat := Engaged(s.etat)), StoredPosition(k, c), Consumption(env));
    }
  }

  /** A flying tick never touches the waypoint list and raises at most one alert,
      a collision or a low battery. */
  lemma PathAndAlerts(k: Kind, s: AssetState, cible: Vec3, env: Environment, qs: ZoneQueries, dist: real)
    ensures var t := AerialTick(k, s, cible, env, qs, dist);
      t.next.path == s.path &&
      (t.alerts == [] || t.alerts == [CollisionImminente] || t.alerts == [BatterieFaible])
  {
  }

  /** In calm weather, a target within range that is accepted is reached and
      costs exactly 1.0. */
  lemma CalmArrival(k: Kind, s: AssetState, cible: Vec3, env: Environment, qs: ZoneQueries, dist: real)
    requires k.IsAerial() && !Blocked(s) && dist > 0.0 && VitesseMax(k) >= dist && s.autonomie > 1.0
    requires env.precipitations <= 0.0 && env.vent.x == 0.0 && env.vent.y == 0.0
    requires env.IsInside(cible) && !qs.collides(cible)
    ensures AerialTick(k, s, cible, env, qs, dist) ==
      Tick(s.(position := cible, autonomie := s.autonomie - 1.0, etat := Engaged(s.etat)), [])
  {
    CandidateReachesTarget(s.position, cible, dist, VitesseMax(k));
    ConsumptionBase(env);
  }

  /** A drone with at most 1.0 left breaks down on its next committed move:
      the level is clamped to 0 and a low-battery alert is raised. */
  lemma LastUnitDepletes(k: Kind, s: AssetState, cible: Vec3, env: Environment, qs: ZoneQueries, dist: real)
    requires !Blocked(s) && s.autonomie <= 1.0 && dist != 0.0
    requires env.IsInside(Candidate(s.position, cible, dist, VitesseMax(k)))
    requires !qs.collides(Candidate(s.position, cible, dist, VitesseMax(k)))
    ensures var t := AerialTick(k, s, cible, env, qs, dist);
      t.next.autonomie == 0.0 && t.next.etat == EnPanne && t.alerts == [BatterieFaible]
  {
    ConsumptionBase(env);
    Committed(k, s, cible, env, qs, dist);
  }

  /** The flight of the unit test: a reconnaissance drone at the origin flying
      to (100, 0, 0), 100 away, in a calm zone from (0, 0, 0) to (1000, 1000, 1000)
      and nothing at the target to collide with, arrives in one tick and pays 1.0. */
  lemma ReconFlightScenario(s: AssetState, cible: Vec3, env: Environment, qs: ZoneQueries, dist: real)
    requires dist == 100.0 && s.position == Origin && s.autonomie == 60.0 && s.etat == EnMission
    requires cible == Vec3(100.0, 0.0, 0.0)
    requires env == Environment(Origin, Vec3(1000.0, 1000.0, 1000.0), Origin, 0.0, Origin)
    requires !qs.collides(cible)
    ensures AerialTick(DroneReconnaissance(DefaultRayonCapteur), s, cible, env, qs, dist) ==
      Tick(AssetState(cible, 59.0, EnMission, s.path), [])
  {
    CalmArrival(DroneReconnaissance(DefaultRayonCapteur), s, cible, env, qs, dist);
  }
}
