/** The swarm manager (mission/GestionnaireEssaim.java): a fleet list, the
    assets available on the ground and the suggestion of one of them. */
module Fleet {
  import opened States
  import opened Options
  import opened Assets

  /** The stream filter of `getActifsDisponibles`: the assets on the ground, in order. */
  function FilterAuSol(assets: seq<ActifMobile>): (r: seq<ActifMobile>)
    reads set a | a in assets
    ensures |r| <= |assets|
    ensures forall i :: 0 <= i < |r| ==> r[i] in assets && r[i].etat == AuSol
    ensures forall i :: 0 <= i < |assets| && assets[i].etat == AuSol ==> assets[i] in r
  {
    if |assets| == 0 then []
    else (if assets[0].etat == AuSol then [assets[0]] else []) + FilterAuSol(assets[1..])
  }

  /** The filter and `findFirst` of `suggererActif`: the first asset with at
      least `m` autonomy, or none. */
  function FindFirstWith(assets: seq<ActifMobile>, m: real): (r: Option<ActifMobile>)
    reads set a | a in assets
    ensures r.Some? ==> r.value in assets && r.value.autonomieActuelle >= m
    ensures r.None? <==> forall i :: 0 <= i < |assets| ==> assets[i].autonomieActuelle < m
  {
    if |assets| == 0 then None
    else if assets[0].autonomieActuelle >= m then Some(assets[0])
    else FindFirstWith(assets[1..], m)
  }

  /** An asset the manager may suggest for a mission needing `m` autonomy. */
  predicate Eligible(a: ActifMobile, m: real)
    reads a
  {
    a.etat == AuSol && a.autonomieActuelle >= m
  }

  /** A reference definition of the suggestion, in one pass over the fleet:
      the first eligible asset. */
  function FirstEligible(fleet: seq<ActifMobile>, m: real): (r: Option<ActifMobile>)
    reads set a | a in fleet
    ensures r.Some? ==> exists i :: (0 <= i < |fleet| && fleet[i] == r.value && Eligible(fleet[i], m) &&
      forall j :: 0 <= j < i ==> !Eligible(fleet[j], m))
    ensures r.None? ==> forall i :: 0 <= i < |fleet| ==> !Eligible(fleet[i], m)
  {
    if |fleet| == 0 then None
    else if Eligible(fleet[0], m) then Some(fleet[0])
    else
      var r := FirstEligible(fleet[1..], m);
      if r.Some? then
        var i :| 0 <= i < |fleet| - 1 && fleet[1..][i] == r.value && Eligible(fleet[1..][i], m) &&
          forall j :: 0 <= j < i ==> !Eligible(fleet[1..][j], m);
        assert fleet[i + 1] == r.value;
        assert forall j :: 0 <= j < i + 1 ==> !Eligible(fleet[j], m) by {
          forall j | 0 <= j < i + 1
            ensures !Eligible(fleet[j], m)
          {
            if j > 0 {
              assert fleet[j] == fleet[1..][j - 1];
            }
          }
        }
        r
      else
        assert forall i :: 1 <= i < |fleet| ==> fleet[i] == fleet[1..][i - 1];
        r
  }

  /** Filtering the ground assets and then taking the first with enough
      autonomy picks the first eligible asset of the fleet. */
  lemma {:induction false} SuggestionIsFirstEligible(fleet: seq<ActifMobile>, m: real)
    ensures FindFirstWith(FilterAuSol(fleet), m) == FirstEligible(fleet, m)
    decreases |fleet|
  {
    if |fleet| > 0 {
      SuggestionIsFirstEligible(fleet[1..], m);
      if fleet[0].etat == AuSol {
        assert FilterAuSol(fleet) == [fleet[0]] + FilterAuSol(fleet[1..]);
        assert FilterAuSol(fleet)[0] == fleet[0];
        assert FilterAuSol(fleet)[1..] == FilterAuSol(fleet[1..]);
      } else {
        assert FilterAuSol(fleet) == FilterAuSol(fleet[1..]);
      }
    }
  }

  /** Appending an asset to the fleet appends it to the available list when it
      is on the ground, and leaves the list as it was otherwise: the filter
      keeps fleet order. */
  lemma {:induction false} FilterAfterAppend(fleet: seq<ActifMobile>, a: ActifMobile)
    ensures FilterAuSol(fleet + [a]) == FilterAuSol(fleet) + (if a.etat == AuSol then [a] else [])
    decreases |fleet|
  {
    if |fleet| == 0 {
      assert fleet + [a] == [a];
      assert [a][1..] == [];
    } else {
      assert (fleet + [a])[0] == fleet[0];
      assert (fleet + [a])[1..] == fleet[1..] + [a];
      FilterAfterAppend(fleet[1..], a);
    }
  }

  class GestionnaireEssaim {
    var flotte: seq<ActifMobile>

    constructor ()
      ensures flotte == []
    {
      flotte := [];
    }

    /** Appends at the end of the fleet. */
    method AjouterActif(actif: ActifMobile)
      modifies this`flotte
      ensures flotte == old(flotte) + [actif]
    {
      flotte := flotte + [actif];
    }

    /** The assets on the ground, in fleet order. */
    function GetActifsDisponibles(): (r: seq<ActifMobile>)
      reads this, set a | a in flotte
      ensures forall i :: 0 <= i < |r| ==> r[i] in flotte && r[i].etat == AuSol
      ensures forall i :: 0 <= i < |flotte| && flotte[i].etat == AuSol ==> flotte[i] in r
    {
      FilterAuSol(flotte)
    }

    /** The first asset on the ground with at least `minAutonomie`, none when there is no such asset. */
    function SuggererActif(minAutonomie: real): (r: Option<ActifMobile>)
      reads this, set a | a in flotte
      ensures r.Some? ==> r.value in flotte && Eligible(r.value, minAutonomie)
      ensures r.None? <==> forall i :: 0 <= i < |flotte| ==> !Eligible(flotte[i], minAutonomie)
      ensures r == FirstEligible(flotte, minAutonomie)
    {
      SuggestionIsFirstEligible(flotte, minAutonomie);
      FindFirstWith(FilterAuSol(flotte), minAutonomie)
    }
  }
}
