/** A mission (mission/Mission.java): an objective, a status and the assets
    assigned to it. */
module Missions {
  import opened States
  import opened Assets

  /** The statuses the mission code uses. */
  datatype StatutMission = Planifiee | EnCours | Terminee

  /** The objectives the code and its tests use. */
  datatype ObjectifMission = Reconnaissance | Surveillance

  class Mission {
    const id: string
    var objectif: ObjectifMission
    var statut: StatutMission
    var actifsAssignes: seq<ActifMobile>

    /** A new mission is planned, with its objective and no asset. */
    constructor (id: string, objectif: ObjectifMission)
      ensures this.id == id && this.objectif == objectif
      ensures statut == Planifiee && actifsAssignes == []
    {
      this.id, this.objectif := id, objectif;
      statut := Planifiee;
      actifsAssignes := [];
    }

    /** Appends the asset, even one already assigned. */
    method AssignerActif(actif: ActifMobile)
      modifies this`actifsAssignes
      ensures actifsAssignes == old(actifsAssignes) + [actif]
    {
      actifsAssignes := actifsAssignes + [actif];
    }

    /** Starts the mission from any status and starts each assigned asset in
        order; since every concrete `demarrer` only prints, no asset changes. */
    method Demarrer()
      modifies this`statut
      ensures statut == EnCours && actifsAssignes == old(actifsAssignes)
      ensures forall i :: 0 <= i < |actifsAssignes| ==> actifsAssignes[i].etat == old(actifsAssignes[i].etat)
    {
      statut := EnCours;
      for i := 0 to |actifsAssignes|
        invariant statut == EnCours
      {
        actifsAssignes[i].Demarrer();
      }
    }

    /** Ends the mission from any status and stops each assigned asset in
        order; every concrete `arreter` leaves the asset's state as it is. */
    method Terminer()
      modifies this`statut
      ensures statut == Terminee && actifsAssignes == old(actifsAssignes)
      ensures forall i :: 0 <= i < |actifsAssignes| ==> actifsAssignes[i].etat == old(actifsAssignes[i].etat)
    {
      statut := Terminee;
      for i := 0 to |actifsAssignes|
        invariant statut == Terminee
      {
        actifsAssignes[i].Arreter();
      }
    }

    method SetObjectif(objectif: ObjectifMission)
      modifies this`objectif
      ensures this.objectif == objectif
    {
      this.objectif := objectif;
    }
  }
}
