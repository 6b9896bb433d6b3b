/** The pieces every movement tick shares: the part of an asset a tick reads
    and writes, the guard, the AU_SOL -> EN_MISSION switch, the waypoint queue,
    the capped step and the commit with its depletion rule
    (core/ActifAerien.java, core/ActifMarin.java, core/VehiculeTerrestre.java). */
module Ticks {
  import opened Geometry
  import opened States

  /** A waypoint closer than this is reached and removed from the path. */
  const HopRadius: real := 5.0

  /** The fields of an asset that `deplacer` reads or updates. */
  datatype AssetState = AssetState(
    position: Vec3,
    autonomie: real,
    etat: EtatOperationnel,
    path: seq<Vec3>)

  /** The outcome of one tick: the new state and the alerts raised, in order. */
  datatype Tick = Tick(next: AssetState, alerts: seq<TypeAlerte>)

  /** `dist` is the Euclidean length of `d`. */
  predicate IsDistance(dist: real, d: Vec3)
  {
    0.0 <= dist && dist * dist == SqNorm(d)
  }

  /** `dist` is the horizontal length of `d`. */
  predicate IsDistance2D(dist: real, d: Vec3)
  {
    0.0 <= dist && dist * dist == SqNorm2D(d)
  }

  /** The guard of every tick: a broken-down asset or one with no energy left does not move.
      EN_MAINTENANCE is not part of it. */
  predicate Blocked(s: AssetState)
  {
    s.etat == EnPanne || s.autonomie <= 0.0
  }

  /** The state after the AU_SOL -> EN_MISSION switch that every unblocked tick makes first. */
  function Engaged(e: EtatOperationnel): (r: EtatOperationnel)
    ensures e == AuSol ==> r == EnMission
    ensures e != AuSol ==> r == e
  {
    if e == AuSol then EnMission else e
  }

  /** The path a waypoint-following tick works with: the planned one when the
      current path is empty. */
  function PlannedPath(current: seq<Vec3>, planned: seq<Vec3>): (p: seq<Vec3>)
    ensures |current| > 0 ==> p == current
    ensures |current| == 0 ==> p == planned
  {
    if |current| == 0 then planned else current
  }

  /** The point a waypoint-following tick heads for: the first waypoint, or the
      target when there is none. */
  function NextHop(path: seq<Vec3>, cible: Vec3): (hop: Vec3)
    ensures |path| > 0 ==> hop == path[0]
    ensures |path| == 0 ==> hop == cible
  {
    if |path| > 0 then path[0] else cible
  }

  /** The step length: the maximum speed, lowered to the distance so that the
      step never overshoots. */
  function StepSpeed(vmax: real, dist: real): (speed: real)
    ensures speed <= vmax && speed <= dist
    ensures speed == vmax || speed == dist
  {
    if vmax > dist then dist else vmax
  }

  /** Storing the candidate position and paying the consumption. A level that
      falls to 0 or below is set to 0, the asset breaks down and a low-battery
      alert is raised. */
  function Commit(s: AssetState, p: Vec3, consumption: real): Tick
  {
    var left := s.autonomie - consumption;
    if left <= 0.0 then
      Tick(AssetState(p, 0.0, EnPanne, s.path), [BatterieFaible])
    else
      Tick(AssetState(p, left, s.etat, s.path), [])
  }

  /** What a commit does, in full: the position is the stored one, the path is
      kept, the level drops by the consumption or is clamped to 0, and the
      asset breaks down with a low-battery alert exactly when the level
      reaches 0 or less. */
  lemma CommitEffect(s: AssetState, p: Vec3, c: real)
    ensures Commit(s, p, c).next.position == p && Commit(s, p, c).next.path == s.path
    ensures Commit(s, p, c).next.autonomie >= 0.0
    ensures s.autonomie - c > 0.0 ==>
      Commit(s, p, c).next.autonomie == s.autonomie - c &&
      Commit(s, p, c).next.etat == s.etat && Commit(s, p, c).alerts == []
    ensures s.autonomie - c <= 0.0 <==>
      Commit(s, p, c).next.etat == EnPanne && Commit(s, p, c).alerts == [BatterieFaible]
    ensures s.autonomie - c <= 0.0 ==> Commit(s, p, c).next.autonomie == 0.0
  {
  }

  /** A commit treats every operational state alike: only the state it ends in
      depends on the state it starts from. */
  lemma CommitIgnoresEtat(s: AssetState, e: EtatOperationnel, p: Vec3, c: real)
    ensures var t := Commit(s, p, c);
      var u := Commit(s.(etat := e), p, c);
      t.next.position == u.next.position && t.next.autonomie == u.next.autonomie &&
      t.next.path == u.next.path && t.alerts == u.alerts
  {
  }

  /** A commit with a positive consumption from a positive level strictly lowers the level. */
  lemma CommitLowersEnergy(s: AssetState, p: Vec3, c: real)
    requires 0.0 < s.autonomie && 0.0 < c
    ensures 0.0 <= Commit(s, p, c).next.autonomie < s.autonomie
  {
  }
}
