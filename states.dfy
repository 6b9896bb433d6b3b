/** Operational states and alert kinds of an asset
    (core/EtatOperationnel.java, core/TypeAlerte.java). */
module States {

  /** EtatOperationnel: AU_SOL, EN_MISSION, EN_PANNE, EN_MAINTENANCE. */
  datatype EtatOperationnel = AuSol | EnMission | EnPanne | EnMaintenance

  /** TypeAlerte: BATTERIE_FAIBLE, COLLISION_IMMINENTE, SORTIE_ZONE, PANNE,
      CONDITIONS_METEO_EXTREMES, AUTRE. */
  datatype TypeAlerte =
    | BatterieFaible
    | CollisionImminente
    | SortieZone
    | Panne
    | ConditionsMeteoExtremes
    | Autre
}

/** A value that may be absent, standing for a Java reference that may be null. */
module Options {

  datatype Option<T> = None | Some(value: T)
}
