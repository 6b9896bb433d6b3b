/** The mobile asset (core/ActifMobile.java and its subclasses). Java's class
    hierarchy becomes one class whose constant `kind` says which concrete
    class an object is; overridden methods dispatch on it. */
module Assets {
  import opened Geometry
  import opened States
  import opened Options
  import opened Kinds
  import opened Zone
  import opened Ticks
  import Aerial
  import Marine
  import Land
  import Movement

  /** The collision radius every asset starts with. */
  const DefaultRadius: real := 5.0

  /** The step of core/ActifAerien.java:50-84: normalise the displacement, cap the
      speed at the distance and take the step. */
  method FlightStep(pos: Vec3, cible: Vec3, dist: real, vitesseMax: real) returns (newPos: Vec3)
    requires dist != 0.0
    ensures newPos == Aerial.Candidate(pos, cible, dist, vitesseMax)
  {
    var dx, dy, dz := cible.x - pos.x, cible.y - pos.y, cible.z - pos.z;
    var nx, ny, nz := dx / dist, dy / dist, dz / dist;
    var speed := vitesseMax;
    if speed > dist {
      speed := dist;
    }
    newPos := Vec3(pos.x + nx * speed, pos.y + ny * speed, pos.z + nz * speed);
    Aerial.CandidateCoordinates(pos, cible, dist, vitesseMax, speed);
  }

  /** The step of core/ActifMarin.java:74-96: normalise, cap the speed, take the
      step and add the current. */
  method DriftStep(pos: Vec3, hop: Vec3, courant: Vec3, dist: real, vitesseMax: real) returns (newPos: Vec3)
    requires dist != 0.0
    ensures newPos == Marine.Candidate(pos, hop, courant, dist, vitesseMax)
  {
    var dx, dy, dz := hop.x - pos.x, hop.y - pos.y, hop.z - pos.z;
    var nx, ny, nz := dx / dist, dy / dist, dz / dist;
    var speed := vitesseMax;
    if speed > dist {
      speed := dist;
    }
    var moveX, moveY, moveZ := nx * speed, ny * speed, nz * speed;
    moveX, moveY, moveZ := moveX + courant.x, moveY + courant.y, moveZ + courant.z;
    newPos := Vec3(pos.x + moveX, pos.y + moveY, pos.z + moveZ);
  }

  /** The step of core/VehiculeTerrestre.java:109-124: normalise in the plane, cap the
      speed and take the step at ground level. */
  method GroundStep(pos: Vec3, hop: Vec3, dist: real, vitesseMax: real) returns (newPos: Vec3)
    requires dist != 0.0
    ensures newPos == Land.Candidate(pos, hop, dist, vitesseMax)
  {
    var dx, dy := hop.x - pos.x, hop.y - pos.y;
    var nx, ny := dx / dist, dy / dist;
    var speed := vitesseMax;
    if speed > dist {
      speed := dist;
    }
    newPos := Vec3(pos.x + nx * speed, pos.y + ny * speed, 0.0);
    Land.CandidateCoordinates(pos, hop, dist, vitesseMax, speed);
  }

  class ActifMobile {
    const id: string
    const kind: Kind
    const vitesseMax: real
    const autonomieMax: real
    var position: Vec3
    var autonomieActuelle: real
    var etat: EtatOperationnel
    var target: Option<Vec3>
    var currentPath: seq<Vec3>
    var radius: real
    /** The alerts raised so far, in order; the source prints them. */
    ghost var alertes: seq<TypeAlerte>

    /** Each concrete constructor fixes the speed and the maximum autonomy;
        the land vehicle also resets z to 0. A new asset is full, on the
        ground, without target or path. */
    constructor (id: string, position: Vec3, kind: Kind)
      ensures this.id == id && this.kind == kind
      ensures vitesseMax == VitesseMax(kind) && autonomieMax == AutonomieMax(kind)
      ensures this.position == (if kind.VehiculeTerrestre? then Flat(position) else position)
      ensures autonomieActuelle == autonomieMax && etat == AuSol
      ensures target == None && currentPath == [] && radius == DefaultRadius
      ensures alertes == []
    {
      this.id, this.kind := id, kind;
      vitesseMax, autonomieMax := VitesseMax(kind), AutonomieMax(kind);
      this.position := if kind.VehiculeTerrestre? then Vec3(position.x, position.y, 0.0) else position;
      autonomieActuelle := AutonomieMax(kind);
      etat := AuSol;
      target, currentPath, radius := None, [], DefaultRadius;
      alertes := [];
    }

    /** The constants agree with the kind. */
    ghost predicate Valid()
    {
      vitesseMax == VitesseMax(kind) && autonomieMax == AutonomieMax(kind)
    }

    /** The fields a movement tick reads and updates. */
    function State(): AssetState
      reads this`position, this`autonomieActuelle, this`etat, this`currentPath
    {
      AssetState(position, autonomieActuelle, etat, currentPath)
    }

    function GetRadius(): (r: real)
      reads this`radius
      ensures r == radius
    {
      radius
    }

    method SetRadius(radius: real)
      modifies this`radius
      ensures this.radius == radius
    {
      this.radius := radius;
    }

    /** Stores the target (possibly none) and empties the path so that it is planned again. */
    method SetTarget(target: Option<Vec3>)
      modifies this`target, this`currentPath
      ensures this.target == target && currentPath == []
    {
      this.target := target;
      currentPath := [];
    }

    method SetCurrentPath(path: seq<Vec3>)
      modifies this`currentPath
      ensures currentPath == path
    {
      currentPath := path;
    }

    /** `setPosition`, with the z clamp of the surface vessel and the land vehicle. */
    method SetPosition(p: Vec3)
      modifies this`position
      ensures position == StoredPosition(kind, p)
    {
      if kind.ClampsZ() {
        position := Vec3(p.x, p.y, 0.0);
      } else {
        position := p;
      }
    }

    /** Stores the level as given: neither clamped to the maximum nor to 0. */
    method SetAutonomieActuelle(a: real)
      modifies this`autonomieActuelle
      ensures autonomieActuelle == a
    {
      autonomieActuelle := a;
    }

    method SetEtat(e: EtatOperationnel)
      modifies this`etat
      ensures etat == e
    {
      etat := e;
    }

    /** `notifierEtatCritique`: records the alert. */
    method NotifierEtatCritique(t: TypeAlerte)
      modifies this`alertes
      ensures alertes == old(alertes) + [t]
    {
      alertes := alertes + [t];
    }

    /** `demarrer` as every concrete class overrides it: it only prints. */
    method Demarrer()
      ensures unchanged(this)
    {
    }

    /** `arreter` as every concrete class overrides it: it only prints, so the
        state is left as it is. */
    method Arreter()
      ensures unchanged(this)
    {
    }

    /** The inherited `demarrer`: refuses (prints a refusal) when broken down or
        in maintenance, and changes no field either way. */
    method DefaultDemarrer() returns (accepte: bool)
      ensures accepte <==> etat != EnPanne && etat != EnMaintenance
    {
      if etat == EnPanne || etat == EnMaintenance {
        return false;
      }
      return true;
    }

    /** The inherited `arreter`: back on the ground from any state. */
    method DefaultArreter()
      modifies this`etat
      ensures etat == AuSol
    {
      etat := AuSol;
    }

    /** The inherited `ravitailler`: full. */
    method DefaultRavitailler()
      modifies this`autonomieActuelle
      ensures autonomieActuelle == autonomieMax
    {
      autonomieActuelle := autonomieMax;
    }

    /** `recharger(q)`, the same in the base class and in every override. */
    method Recharger(q: real)
      modifies this`autonomieActuelle
      ensures autonomieActuelle == Recharged(old(autonomieActuelle), autonomieMax, q)
    {
      var level := autonomieActuelle + q;
      if autonomieMax < level {
        level := autonomieMax;
      }
      SetAutonomieActuelle(level);
    }

    /** `ravitailler` as overridden: `recharger(100)`, except the submarine's, which does nothing. */
    method Ravitailler()
      requires Valid()
      modifies this`autonomieActuelle
      ensures autonomieActuelle == Refuelled(kind, old(autonomieActuelle))
    {
      if !kind.VehiculeSousMarin? {
        Recharger(RefuelQuantity);
      }
    }

    /** `calculerTrajet`: the direct path, from the current position to the target. */
    function CalculerTrajet(cible: Vec3): (path: seq<Vec3>)
      reads this`position
      ensures |path| == 2 && path[0] == position && path[1] == cible
    {
      [position, cible]
    }

    /** The subtraction and depletion rule shared by the three resolvers. */
    method Consume(consumption: real)
      modifies this`autonomieActuelle, this`etat, this`alertes
      ensures var t := Commit(old(State()), position, consumption);
        autonomieActuelle == t.next.autonomie && etat == t.next.etat &&
        alertes == old(alertes) + t.alerts
    {
      SetAutonomieActuelle(autonomieActuelle - consumption);
      if autonomieActuelle <= 0.0 {
        SetAutonomieActuelle(0.0);
        SetEtat(EnPanne);
        NotifierEtatCritique(BatterieFaible);
      }
    }

    /** `ActifAerien.deplacer`. `dist` is the distance to the target. */
    method DeplacerAerien(cible: Vec3, zone: ZoneOperation, qs: ZoneQueries, dist: real)
      requires Valid() && kind.IsAerial()
      requires IsDistance(dist, Sub(cible, position))
      modifies this`position, this`autonomieActuelle, this`etat, this`alertes
      ensures var t := Aerial.AerialTick(kind, old(State()), cible, zone.Snapshot(), qs, dist);
        State() == t.next && alertes == old(alertes) + t.alerts
    {
      if etat == EnPanne || autonomieActuelle <= 0.0 {
        return;
      }
      if etat == AuSol {
        SetEtat(EnMission);
      }
      var vent := zone.vent;
      if dist == 0.0 {
        return;
      }
      var newPos := FlightStep(position, cible, dist, vitesseMax);
      if !zone.IsInside(newPos) {
        return;
      }
      if qs.collides(newPos) {
        NotifierEtatCritique(CollisionImminente);
        return;
      }
      SetPosition(newPos);
      var consumption := 1.0;
      if zone.precipitations > 0.0 {
        consumption := consumption + zone.precipitations * 0.1;
      }
      if vent.x != 0.0 || vent.y != 0.0 {
        consumption := consumption + 0.5;
      }
      Consume(consumption);
    }

    /** `ActifMarin.deplacer`. `dist` is the distance to the next hop. */
    method DeplacerMarin(cible: Vec3, zone: ZoneOperation, qs: ZoneQueries, dist: real)
      requires Valid() && kind.IsMarine()
      requires IsDistance(dist, Sub(NextHop(Marine.MarinePath(State(), cible, qs), cible), position))
      modifies this`position, this`autonomieActuelle, this`etat, this`currentPath, this`alertes
      ensures var t := Marine.MarineTick(kind, old(State()), cible, zone.Snapshot(), qs, dist);
        State() == t.next && alertes == old(alertes) + t.alerts
    {
      if etat == EnPanne || autonomieActuelle <= 0.0 {
        return;
      }
      if etat == AuSol {
        SetEtat(EnMission);
      }
      if |currentPath| == 0 {
        var path := qs.findPath(position, cible, true);
        SetCurrentPath(path);
      }
      var nextPoint := cible;
      if |currentPath| > 0 {
        nextPoint := currentPath[0];
      }
      var courant := zone.courantMarin;
      if dist < HopRadius {
        if |currentPath| > 0 {
          currentPath := currentPath[1..];
          return;
        }
      }
      if dist == 0.0 {
        // 0 / 0 in the source: the candidate is NaN and is not inside the zone
        return;
      }
      var newPos := DriftStep(position, nextPoint, courant, dist, vitesseMax);
      if !zone.IsInside(newPos) {
        return;
      }
      if qs.collides(newPos) {
        NotifierEtatCritique(CollisionImminente);
        return;
      }
      if qs.isLand(newPos) {
        return;
      }
      SetPosition(newPos);
      var consumption := 1.0;
      if courant.x != 0.0 || courant.y != 0.0 || courant.z != 0.0 {
        consumption := consumption + 0.5;
      }
      Consume(consumption);
    }

    /** `VehiculeTerrestre.deplacer`. `dist` is the horizontal distance to the next hop. */
    method DeplacerTerrestre(cible: Vec3, zone: ZoneOperation, qs: ZoneQueries, dist: real)
      requires Valid() && kind.VehiculeTerrestre?
      requires IsDistance2D(dist, Sub(NextHop(Land.LandPath(State(), cible, qs), cible), position))
      modifies this`position, this`autonomieActuelle, this`etat, this`currentPath, this`alertes
      ensures var t := Land.LandTick(old(State()), cible, zone.Snapshot(), qs, dist);
        State() == t.next && alertes == old(alertes) + t.alerts
    {
      if etat == EnPanne || autonomieActuelle <= 0.0 {
        return;
      }
      if etat == AuSol {
        SetEtat(EnMission);
      }
      if |currentPath| == 0 {
        var path := qs.findPath(position, cible, false);
        SetCurrentPath(path);
      }
      var nextPoint := cible;
      if |currentPath| > 0 {
        nextPoint := currentPath[0];
      }
      if dist < HopRadius {
        if |currentPath| > 0 {
          currentPath := currentPath[1..];
          return;
        }
      }
      if dist == 0.0 {
        // 0 / 0 in the source: the candidate is NaN and is not inside the zone
        return;
      }
      var newPos := GroundStep(position, nextPoint, dist, vitesseMax);
      if !zone.IsInside(newPos) {
        return;
      }
      if qs.collides(newPos) {
        NotifierEtatCritique(CollisionImminente);
        return;
      }
      if !qs.isLand(newPos) {
        return;
      }
      SetPosition(newPos);
      Consume(Land.Consumption);
    }

    /** `deplacer`, dispatched on the kind. */
    method Deplacer(cible: Vec3, zone: ZoneOperation, qs: ZoneQueries, dist: real)
      requires Valid()
      requires Movement.MeasuredDistance(kind, State(), cible, qs, dist)
      modifies this`position, this`autonomieActuelle, this`etat, this`currentPath, this`alertes
      ensures var t := Movement.TickOf(kind, old(State()), cible, zone.Snapshot(), qs, dist);
        State() == t.next && alertes == old(alertes) + t.alerts
    {
      if kind.IsAerial() {
        DeplacerAerien(cible, zone, qs, dist);
      } else if kind.IsMarine() {
        DeplacerMarin(cible, zone, qs, dist);
      } else {
        DeplacerTerrestre(cible, zone, qs, dist);
      }
    }
  }
}
