/** The application's constant vocabularies (js/config.js). */
module Config {
  import opened Wrappers

  // Operating modes
  const ACHAT: string := "achat"
  const LOCATION: string := "location"
  const MODES: seq<string> := [ACHAT, LOCATION]

  // How charges are displayed and entered
  const MENSUELLES: string := "mensuelles"
  const ANNUELLES: string := "annuelles"

  /** One selectable état: stored value, filter caption and, for the rental
      vocabulary, the CSS class of its coloured indicator. */
  datatype EtatOption = EtatOption(value: string, caption: string, cssClass: Option<string>)

  const LOCATION_STATES: seq<EtatOption> := [
    EtatOption("Nouveau", "Nouveau", Some("status-nouveau")),
    EtatOption("Contacté", "Contacté", Some("status-contacte")),
    EtatOption("En attente de rappel", "En attente", Some("status-attente")),
    EtatOption("Rendez-vous visite", "Visite", Some("status-visite")),
    EtatOption("Il faut appeler", "À appeler", Some("status-appeler")),
    EtatOption("Refusé", "Refusé", Some("status-refuse"))
  ]

  const ACHAT_STATES: seq<EtatOption> := [
    EtatOption("À voir", "À voir", None),
    EtatOption("Vu", "Vu", None),
    EtatOption("Retenu", "Retenu", None),
    EtatOption("Refusé", "Refusé", None)
  ]

  /** The stored values of a vocabulary, in display order. */
  function Values(states: seq<EtatOption>): (r: seq<string>)
    ensures |r| == |states| && forall i :: 0 <= i < |states| ==> r[i] == states[i].value
  {
    if |states| == 0 then [] else [states[0].value] + Values(states[1..])
  }

  const LOCATION_ETATS: seq<string> := Values(LOCATION_STATES)
  const ACHAT_ETATS: seq<string> := Values(ACHAT_STATES)

  /** The two vocabularies' stored values, in display order. */
  lemma EtatValues()
    ensures LOCATION_ETATS ==
            ["Nouveau", "Contacté", "En attente de rappel", "Rendez-vous visite", "Il faut appeler", "Refusé"]
    ensures ACHAT_ETATS == ["À voir", "Vu", "Retenu", "Refusé"]
  {
    assert |LOCATION_ETATS| == 6 && |ACHAT_ETATS| == 4;
  }

  const DPE_LETTERS: seq<string> := ["A", "B", "C", "D", "E", "F", "G"]

  const DPE_COLORS: map<string, string> := map[
    "A" := "#22c55e",
    "B" := "#84cc16",
    "C" := "#eab308",
    "D" := "#f97316",
    "E" := "#ef4444",
    "F" := "#dc2626",
    "G" := "#991b1b"
  ]

  // Storage keys
  const KEY_THEME: string := "theme"
  const KEY_CURRENT_MODE: string := "currentMode"
  const KEY_BIENS_ACHAT: string := "appartements_achat"
  const KEY_BIENS_LOCATION: string := "appartements_location"
}
