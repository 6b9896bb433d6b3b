/** `deplacer` dispatched on the kind of asset: drones fly, the surface vessel
    and the submarine sail, the land vehicle drives. */
module Movement {
  import opened Geometry
  import opened States
  import opened Kinds
  import opened Zone
  import opened Ticks
  import Aerial
  import Marine
  import Land

  /** The point the resolver of this kind measures its distance to. */
  function Heading(k: Kind, s: AssetState, cible: Vec3, qs: ZoneQueries): Vec3
  {
    if k.IsAerial() then cible
    else if k.IsMarine() then NextHop(Marine.MarinePath(s, cible, qs), cible)
    else NextHop(Land.LandPath(s, cible, qs), cible)
  }

  /** `dist` is the distance the resolver of this kind computes: in space for
      drones and vessels, in the horizontal plane for the land vehicle. */
  predicate MeasuredDistance(k: Kind, s: AssetState, cible: Vec3, qs: ZoneQueries, dist: real)
  {
    if k.VehiculeTerrestre? then IsDistance2D(dist, Sub(Heading(k, s, cible, qs), s.position))
    else IsDistance(dist, Sub(Heading(k, s, cible, qs), s.position))
  }

  function TickOf(k: Kind, s: AssetState, cible: Vec3, env: Environment, qs: ZoneQueries, dist: real): Tick
  {
    if k.IsAerial() then Aerial.AerialTick(k, s, cible, env, qs, dist)
    else if k.IsMarine() then Marine.MarineTick(k, s, cible, env, qs, dist)
    else Land.LandTick(s, cible, env, qs, dist)
  }

  /** Whatever the kind, a broken-down or empty asset is left as it is, with no alert. */
  lemma BlockedNoOp(k: Kind, s: AssetState, cible: Vec3, env: Environment, qs: ZoneQueries, dist: real)
    requires Blocked(s)
    ensures TickOf(k, s, cible, env, qs, dist) == Tick(s, [])
  {
  }

  /** Whatever the kind, a level between 0 and the maximum stays between 0
      and the maximum, and never grows. */
  lemma EnergyInRange(k: Kind, s: AssetState, cible: Vec3, env: Environment, qs: ZoneQueries, dist: real)
    requires 0.0 <= s.autonomie <= AutonomieMax(k)
    ensures var a := TickOf(k, s, cible, env, qs, dist).next.autonomie;
      0.0 <= a <= s.autonomie <= AutonomieMax(k)
  {
    if k.IsAerial() {
      Aerial.EnergyBounded(k, s, cible, env, qs, dist);
    } else if k.IsMarine() {
      Marine.EnergyBounded(k, s, cible, env, qs, dist);
    } else {
      Land.EnergyBounded(s, cible, env, qs, dist);
    }
  }

  /** Whatever the kind, a tick raises at most one alert, a collision or a low battery. */
  lemma AtMostOneAlert(k: Kind, s: AssetState, cible: Vec3, env: Environment, qs: ZoneQueries, dist: real)
    ensures var t := TickOf(k, s, cible, env, qs, dist);
      t.alerts == [] || t.alerts == [CollisionImminente] || t.alerts == [BatterieFaible]
  {
    if k.IsAerial() {
      Aerial.PathAndAlerts(k, s, cible, env, qs, dist);
    } else if k.IsMarine() {
      Marine.AtMostOneAlert(k, s, cible, env, qs, dist);
    } else {
      Land.AtMostOneAlert(s, cible, env, qs, dist);
    }
  }

  /** Whatever the kind, an unblocked tick never leaves the asset on the ground:
      AU_SOL becomes EN_MISSION even when the move is rejected, unless the
      commit drains the asset, which then breaks down with a low-battery alert. */
  lemma NeverStaysOnGround(k: Kind, s: AssetState, cible: Vec3, env: Environment, qs: ZoneQueries, dist: real)
    requires !Blocked(s)
    ensures TickOf(k, s, cible, env, qs, dist).next.etat != AuSol
    ensures var t := TickOf(k, s, cible, env, qs, dist);
      s.etat == AuSol ==> t.next.etat == EnMission || (t.next.etat == EnPanne && t.alerts == [BatterieFaible])
  {
    if k.IsAerial() {
      Aerial.EngagesBeforeChecks(k, s, cible, env, qs, dist);
    }
  }

  /** Whatever the kind, the state after a tick is the state before it, EN_MISSION
      for an asset that was on the ground, or EN_PANNE with a low-battery alert. */
  lemma StateTransitions(k: Kind, s: AssetState, cible: Vec3, env: Environment, qs: ZoneQueries, dist: real)
    ensures var t := TickOf(k, s, cible, env, qs, dist);
      t.next.etat == s.etat || t.next.etat == Engaged(s.etat) ||
      (t.next.etat == EnPanne && t.alerts == [BatterieFaible])
  {
    if k.IsAerial() {
      if !Blocked(s) {
        Aerial.EngagesBeforeChecks(k, s, cible, env, qs, dist);
      }
    }
  }

  /** Whatever the kind, the guard does not stop an asset in maintenance: with
      energy left it moves, pays and raises alerts exactly as the same asset on
      a mission does. Only the state it ends in may differ. */
  lemma MaintenanceMovesLikeMission(k: Kind, s: AssetState, cible: Vec3, env: Environment, qs: ZoneQueries, dist: real)
    requires s.etat == EnMaintenance && s.autonomie > 0.0
    ensures var t := TickOf(k, s, cible, env, qs, dist);
      var m := TickOf(k, s.(etat := EnMission), cible, env, qs, dist);
      t.next.position == m.next.position && t.next.autonomie == m.next.autonomie &&
      t.next.path == m.next.path && t.alerts == m.alerts
  {
    if k.IsAerial() {
      Aerial.MaintenanceLikeMission(k, s, cible, env, qs, dist);
    } else if k.IsMarine() {
      Marine.MaintenanceLikeMission(k, s, cible, env, qs, dist);
    } else {
      Land.MaintenanceLikeMission(s, cible, env, qs, dist);
    }
  }
}
