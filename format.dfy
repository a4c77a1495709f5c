/** Lookup tables for badges and colours (js/utils/format.js). */
module Format {
  import opened Wrappers
  import opened Config

  /** The badge class of each known état, both vocabularies in one table. */
  const STATUS_CLASSES: map<string, string> := map[
    "Nouveau" := "badge-status-nouveau",
    "Contacté" := "badge-status-contacte",
    "En attente de rappel" := "badge-status-attente",
    "Rendez-vous visite" := "badge-status-visite",
    "Il faut appeler" := "badge-status-appeler",
    "Refusé" := "badge-status-refuse",
    "À voir" := "badge-status-voir",
    "Vu" := "badge-status-vu",
    "Retenu" := "badge-status-retenu"
  ]

  /** `getStatusClass(etat)`: the table's class, or "" for an unknown état. */
  function StatusClass(etat: string): (c: string)
    ensures etat in STATUS_CLASSES ==> c == STATUS_CLASSES[etat]
    ensures etat !in STATUS_CLASSES ==> c == ""
  {
    if etat in STATUS_CLASSES then STATUS_CLASSES[etat] else ""
  }

  /** Every purchase état has a badge (the rental ones are covered by
      `RentalBadgesMatchIndicators`). */
  lemma PurchaseBadges()
    ensures forall i :: 0 <= i < |ACHAT_STATES| ==> StatusClass(ACHAT_STATES[i].value) != ""
  {
  }

  /** The table holds no état outside the two vocabularies. */
  lemma StatusClassesOnlyVocabularies()
    ensures forall e :: e in STATUS_CLASSES ==> e in LOCATION_ETATS || e in ACHAT_ETATS
  {
    EtatValues();
  }

  /** In rental mode the badge class is "badge-" followed by the class of
      the état's filter indicator. */
  lemma RentalBadgesMatchIndicators()
    ensures forall i :: 0 <= i < |LOCATION_STATES| ==>
              LOCATION_STATES[i].cssClass.Some? &&
              StatusClass(LOCATION_STATES[i].value) == "badge-" + LOCATION_STATES[i].cssClass.value
  {
    forall i | 0 <= i < |LOCATION_STATES|
      ensures LOCATION_STATES[i].cssClass.Some? &&
              StatusClass(LOCATION_STATES[i].value) == "badge-" + LOCATION_STATES[i].cssClass.value
    {
      if i == 0 { RentalBadge0(); } else if i == 1 { RentalBadge1(); } else if i == 2 { RentalBadge2(); }
      else if i == 3 { RentalBadge3(); } else if i == 4 { RentalBadge4(); } else { RentalBadge5(); }
    }
  }

  lemma RentalBadge0()
    ensures LOCATION_STATES[0].cssClass == Some("status-nouveau")
    ensures StatusClass(LOCATION_STATES[0].value) == "badge-" + "status-nouveau"
  {
    assert LOCATION_STATES[0].value == "Nouveau";
    assert StatusClass("Nouveau") == "badge-status-nouveau";
    assert "badge-" + "status-nouveau" == "badge-status-nouveau";
  }

  lemma RentalBadge1()
    ensures LOCATION_STATES[1].cssClass == Some("status-contacte")
    ensures StatusClass(LOCATION_STATES[1].value) == "badge-" + "status-contacte"
  {
    assert LOCATION_STATES[1].value == "Contacté";
    assert StatusClass("Contacté") == "badge-status-contacte";
    assert "badge-" + "status-contacte" == "badge-status-contacte";
  }

  lemma RentalBadge2()
    ensures LOCATION_STATES[2].cssClass == Some("status-attente")
    ensures StatusClass(LOCATION_STATES[2].value) == "badge-" + "status-attente"
  {
    assert LOCATION_STATES[2].value == "En attente de rappel";
    assert StatusClass("En attente de rappel") == "badge-status-attente";
    assert "badge-" + "status-attente" == "badge-status-attente";
  }

  lemma RentalBadge3()
    ensures LOCATION_STATES[3].cssClass == Some("status-visite")
    ensures StatusClass(LOCATION_STATES[3].value) == "badge-" + "status-visite"
  {
    assert LOCATION_STATES[3].value == "Rendez-vous visite";
    assert StatusClass("Rendez-vous visite") == "badge-status-visite";
    assert "badge-" + "status-visite" == "badge-status-visite";
  }

  lemma RentalBadge4()
    ensures LOCATION_STATES[4].cssClass == Some("status-appeler")
    ensures StatusClass(LOCATION_STATES[4].value) == "badge-" + "status-appeler"
  {
    assert LOCATION_STATES[4].value == "Il faut appeler";
    assert StatusClass("Il faut appeler") == "badge-status-appeler";
    assert "badge-" + "status-appeler" == "badge-status-appeler";
  }

  lemma RentalBadge5()
    ensures LOCATION_STATES[5].cssClass == Some("status-refuse")
    ensures StatusClass(LOCATION_STATES[5].value) == "badge-" + "status-refuse"
  {
    assert LOCATION_STATES[5].value == "Refusé";
    assert StatusClass("Refusé") == "badge-status-refuse";
    assert "badge-" + "status-refuse" == "badge-status-refuse";
  }

  const DEFAULT_DPE_COLOR: string := "#64748b"

  /** `getDPEColor(dpe)`: the configured colour of A..G, else slate grey. */
  function DpeColor(dpe: string): (c: string)
    ensures dpe in DPE_COLORS ==> c == DPE_COLORS[dpe]
    ensures dpe !in DPE_COLORS ==> c == DEFAULT_DPE_COLOR
  {
    if dpe in DPE_COLORS then DPE_COLORS[dpe] else DEFAULT_DPE_COLOR
  }

  /** The letters with a configured colour are exactly A..G, and no letter
      falls back to the default colour. */
  lemma DpeColorsCoverLetters()
    ensures forall d :: d in DPE_COLORS <==> d in DPE_LETTERS
    ensures forall d :: d in DPE_LETTERS ==> DpeColor(d) != DEFAULT_DPE_COLOR
  {
  }
}
