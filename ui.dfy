/** Mode-dependent form labels and the état selector (js/ui.js). */
module Ui {
  import opened Config

  /** The états `updateEtatFormOptions` accepts, written out in the
      function itself. */
  const VALID_LOCATION_ETATS: seq<string> :=
    ["Nouveau", "Contacté", "En attente de rappel", "Rendez-vous visite", "Il faut appeler", "Refusé"]
  const VALID_ACHAT_ETATS: seq<string> := ["À voir", "Vu", "Retenu", "Refusé"]

  /** The hard-coded lists are the configured vocabularies, and each
      fallback is the first value of its vocabulary. */
  lemma ValidListsMatchConfig()
    ensures VALID_LOCATION_ETATS == LOCATION_ETATS
    ensures VALID_ACHAT_ETATS == ACHAT_ETATS
    ensures LOCATION_ETATS[0] == "Nouveau" && ACHAT_ETATS[0] == "À voir"
  {
  }

  /** The selector's value after `updateEtatFormOptions`: kept when it is
      valid for the mode, else the mode's first état. */
  function DefaultEtat(value: string, isLocation: bool): (r: string)
    ensures isLocation ==> r in LOCATION_ETATS
    ensures !isLocation ==> r in ACHAT_ETATS
    ensures isLocation && value in LOCATION_ETATS ==> r == value
    ensures !isLocation && value in ACHAT_ETATS ==> r == value
    ensures isLocation && value !in LOCATION_ETATS ==> r == "Nouveau"
    ensures !isLocation && value !in ACHAT_ETATS ==> r == "À voir"
  {
    ValidListsMatchConfig();
    if isLocation then
      (if value in VALID_LOCATION_ETATS then value else "Nouveau")
    else
      (if value in VALID_ACHAT_ETATS then value else "À voir")
  }

  /** Defaulting twice is defaulting once. */
  lemma DefaultEtatIdempotent(value: string, isLocation: bool)
    ensures DefaultEtat(DefaultEtat(value, isLocation), isLocation) == DefaultEtat(value, isLocation)
  {
  }

  /** "Refusé" belongs to both vocabularies, so it survives a mode switch;
      every other état is replaced. */
  lemma OnlyRefuseSurvivesSwitch(value: string)
    ensures DefaultEtat(DefaultEtat(value, true), false) == DefaultEtat(value, true) <==>
            DefaultEtat(value, true) == "Refusé"
  {
    ValidListsMatchConfig();
  }

  /** The form's charge field caption. */
  function ChargesFieldLabel(chargesMode: string): (s: string)
    ensures chargesMode == MENSUELLES <==> s == "Charges mensuelles (€)"
    ensures chargesMode != MENSUELLES <==> s == "Charges annuelles (€)"
  {
    if chargesMode == MENSUELLES then "Charges mensuelles (€)" else "Charges annuelles (€)"
  }

  /** The charges column header. */
  function ChargesHeader(chargesMode: string): (s: string)
    ensures chargesMode == MENSUELLES <==> s == "Charges/mois"
    ensures chargesMode != MENSUELLES <==> s == "Charges/an"
  {
    if chargesMode == MENSUELLES then "Charges/mois" else "Charges/an"
  }

  /** The controls these functions write: the état selector and its two
      option groups, the charges caption, the two charge toggle buttons and
      the charges column header. */
  class Controls {
    var etatValue: string
    var locationGroupShown: bool
    var achatGroupShown: bool
    var chargesLabel: string
    var monthlyActive: bool
    var annualActive: bool
    var chargesHeader: string

    constructor (etatValue: string)
      ensures this.etatValue == etatValue
      ensures !locationGroupShown && !achatGroupShown && !monthlyActive && !annualActive
      ensures chargesLabel == "" && chargesHeader == ""
    {
      this.etatValue := etatValue;
      locationGroupShown := false;
      achatGroupShown := false;
      chargesLabel := "";
      monthlyActive := false;
      annualActive := false;
      chargesHeader := "";
    }

    /** `updateEtatFormOptions()`. */
    method UpdateEtatFormOptions(isLocation: bool)
      modifies this`etatValue, this`locationGroupShown, this`achatGroupShown
      ensures etatValue == DefaultEtat(old(etatValue), isLocation)
      ensures locationGroupShown == isLocation && achatGroupShown == !isLocation
    {
      locationGroupShown := isLocation;
      achatGroupShown := !isLocation;
      if isLocation {
        if etatValue !in VALID_LOCATION_ETATS {
          etatValue := "Nouveau";
        }
      } else {
        if etatValue !in VALID_ACHAT_ETATS {
          etatValue := "À voir";
        }
      }
    }

    /** `updateChargesLabel()`. */
    method UpdateChargesLabel(chargesMode: string)
      modifies this`chargesLabel
      ensures chargesLabel == ChargesFieldLabel(chargesMode)
    {
      if chargesMode == MENSUELLES {
        chargesLabel := "Charges mensuelles (€)";
      } else {
        chargesLabel := "Charges annuelles (€)";
      }
    }

    /** `updateChargesToggle(mode)`: each button is active only for its own
      mode, so an unknown mode leaves both inactive. */
    method UpdateChargesToggle(mode: string)
      modifies this`monthlyActive, this`annualActive, this`chargesHeader
      ensures monthlyActive <==> mode == MENSUELLES
      ensures annualActive <==> mode == ANNUELLES
      ensures !(monthlyActive && annualActive)
      ensures chargesHeader == ChargesHeader(mode)
    {
      monthlyActive := mode == MENSUELLES;
      annualActive := mode == ANNUELLES;
      chargesHeader := if mode == MENSUELLES then "Charges/mois" else "Charges/an";
    }
  }
}
