/** The five concrete kinds of asset and what each fixes: speed and autonomy
    constants, the stored position (z clamp) and the refuelling rule
    (core/DroneReconnaissance.java, core/DroneLogistique.java,
    core/VehiculeSurface.java, core/VehiculeSousMarin.java,
    core/VehiculeTerrestre.java). */
module Kinds {
  import opened Geometry

  const DefaultRayonCapteur: real := 500.0
  const DefaultCapaciteEmport: real := 10.0

  /** The quantity `ravitailler` passes to `recharger` in the classes that refuel that way. */
  const RefuelQuantity: real := 100.0

  datatype Kind =
    | DroneReconnaissance(rayonCapteur: real)
    | DroneLogistique(capaciteEmport: real)
    | VehiculeSurface
    | VehiculeSousMarin
    | VehiculeTerrestre
  {
    /** Subclasses of ActifAerien. */
    predicate IsAerial() { DroneReconnaissance? || DroneLogistique? }

    /** Subclasses of ActifMarin. */
    predicate IsMarine() { VehiculeSurface? || VehiculeSousMarin? }

    /** Kinds whose `setPosition` forces z to 0. */
    predicate ClampsZ() { VehiculeSurface? || VehiculeTerrestre? }
  }

  /** The maximum speed each constructor passes to its superclass. */
  function VitesseMax(k: Kind): (v: real)
    ensures v > 0.0
    ensures k.IsAerial() ==> v >= 80.0
    ensures k.IsMarine() ==> v <= 60.0
  {
    match k
    case DroneReconnaissance(_) => 120.0
    case DroneLogistique(_) => 80.0
    case VehiculeSurface => 60.0
    case VehiculeSousMarin => 40.0
    case VehiculeTerrestre => 50.0
  }

  /** The maximum autonomy each constructor passes to its superclass. */
  function AutonomieMax(k: Kind): (m: real)
    ensures m > 0.0
    ensures k.IsAerial() ==> m < RefuelQuantity
    ensures !k.IsAerial() ==> m > RefuelQuantity
  {
    match k
    case DroneReconnaissance(_) => 60.0
    case DroneLogistique(_) => 45.0
    case VehiculeSurface => 150.0
    case VehiculeSousMarin => 200.0
    case VehiculeTerrestre => 120.0
  }

  /** What `setPosition` stores: the surface vessel and the land vehicle keep x
      and y and store z = 0; the other kinds store the point as given. */
  function StoredPosition(k: Kind, p: Vec3): (q: Vec3)
    ensures q.x == p.x && q.y == p.y
    ensures k.ClampsZ() ==> q.z == 0.0
    ensures !k.ClampsZ() ==> q == p
  {
    if k.ClampsZ() then Vec3(p.x, p.y, 0.0) else p
  }

  /** The constants of the five constructors: 120/60, 80/45, 60/150, 40/200 and 50/120. */
  lemma ConstructorConstants(rayonCapteur: real, capaciteEmport: real)
    ensures VitesseMax(DroneReconnaissance(rayonCapteur)) == 120.0 && AutonomieMax(DroneReconnaissance(rayonCapteur)) == 60.0
    ensures VitesseMax(DroneLogistique(capaciteEmport)) == 80.0 && AutonomieMax(DroneLogistique(capaciteEmport)) == 45.0
    ensures VitesseMax(VehiculeSurface) == 60.0 && AutonomieMax(VehiculeSurface) == 150.0
    ensures VitesseMax(VehiculeSousMarin) == 40.0 && AutonomieMax(VehiculeSousMarin) == 200.0
    ensures VitesseMax(VehiculeTerrestre) == 50.0 && AutonomieMax(VehiculeTerrestre) == 120.0
  {
  }

  /** `recharger(q)`: the smaller of the maximum and the current level plus q. */
  function Recharged(current: real, max: real, q: real): (r: real)
    ensures r <= max && r <= current + q
    ensures r == max || r == current + q
  {
    if current + q < max then current + q else max
  }

  /** `ravitailler`: the submarine's does nothing, every other kind recharges 100. */
  function Refuelled(k: Kind, current: real): real
  {
    if k.VehiculeSousMarin? then current
    else Recharged(current, AutonomieMax(k), RefuelQuantity)
  }

  /** Recharging reaches the maximum exactly when the added quantity covers the gap. */
  lemma RechargedFullIff(current: real, max: real, q: real)
    ensures Recharged(current, max, q) == max <==> current + q >= max
  {
  }

  /** Recharging never lowers a level when the quantity is non-negative and the
      level was at most the maximum. */
  lemma RechargedNotLower(current: real, max: real, q: real)
    requires 0.0 <= q && current <= max
    ensures current <= Recharged(current, max, q)
  {
  }

  /** Refuelling a kind other than the submarine ends at the maximum exactly
      when the current level is at least the maximum minus 100. */
  lemma RefuelledFullIff(k: Kind, current: real)
    requires !k.VehiculeSousMarin?
    ensures Refuelled(k, current) == AutonomieMax(k) <==> current >= AutonomieMax(k) - RefuelQuantity
  {
    RechargedFullIff(current, AutonomieMax(k), RefuelQuantity);
  }

  /** Both drones have a maximum below 100, so refuelling from any non-negative
      level fills them. */
  lemma DronesRefuelFull(k: Kind, current: real)
    requires k.IsAerial() && current >= 0.0
    ensures Refuelled(k, current) == AutonomieMax(k)
  {
    RefuelledFullIff(k, current);
  }

  /** The surface vessel is not necessarily full after refuelling: from 10 it reaches 110 of 150. */
  lemma SurfaceRefuelPartial()
    ensures Refuelled(VehiculeSurface, 10.0) == 110.0 < AutonomieMax(VehiculeSurface)
  {
  }

  /** The submarine's refuelling leaves the level as it is. */
  lemma SubmarineRefuelNoOp(current: real)
    ensures Refuelled(VehiculeSousMarin, current) == current
  {
  }

  /** A refuelled level never exceeds the kind's maximum except for the
      submarine, which keeps whatever level it had. */
  lemma RefuelledBounded(k: Kind, current: real)
    requires current <= AutonomieMax(k)
    ensures current <= Refuelled(k, current) <= AutonomieMax(k)
  {
  }

  /** The logistics drone of the unit test: from 10, recharging 20 gives 30. */
  lemma LogisticsRechargeScenario()
    ensures Recharged(10.0, AutonomieMax(DroneLogistique(DefaultCapaciteEmport)), 20.0) == 30.0
  {
  }
}
