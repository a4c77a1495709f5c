/** The purchase/rental mode switch (js/mode.js). */
module Mode {
  import opened Wrappers
  import opened Config
  import opened Listing
  import State
  import Data
  import Filters

  /** `switchMode(newMode)`. Switching to the current mode does nothing.
      Otherwise the listings in memory are saved under the outgoing mode's
      key, the mode is set (an unknown mode is rejected after the save, and
      the switch stops there), the new mode's list is loaded (seeding the
      purchase key if it is empty) but not installed, and the filters are
      cleared. */
  method SwitchMode(st: State.AppState, db: Data.LocalStorage, newMode: string) returns (ok: bool)
    modifies st`currentMode, st`filteredBiens, db`lists, db`modeItem
    ensures st.biens == old(st.biens)
    ensures newMode == old(st.currentMode) ==>
              ok && st.currentMode == old(st.currentMode) && st.filteredBiens == old(st.filteredBiens) &&
              db.lists == old(db.lists) && db.modeItem == old(db.modeItem)
    ensures newMode != old(st.currentMode) && newMode !in MODES ==>
              !ok && st.currentMode == old(st.currentMode) && st.filteredBiens == old(st.filteredBiens) &&
              db.lists == Data.Save(old(db.lists), old(st.biens), old(st.currentMode)) &&
              db.modeItem == old(db.modeItem)
    ensures newMode != old(st.currentMode) && newMode in MODES ==>
              ok && st.currentMode == newMode && db.modeItem == Some(newMode) &&
              db.lists == Data.Load(Data.Save(old(db.lists), old(st.biens), old(st.currentMode)), newMode).lists &&
              st.filteredBiens == st.biens
  {
    if newMode == st.currentMode {
      return true;
    }
    db.SaveData(st.biens, st.currentMode);
    ok := st.SetMode(newMode, db);
    if !ok {
      return;
    }
    var _ := db.LoadData(newMode);
    var _ := Filters.ClearFilters(st);
  }

  /** The outgoing mode's listings are what a later load of that mode
      returns, so switching back reads them from the store. */
  lemma SwitchBackReadsSaved(lists: map<string, seq<Bien>>, biens: seq<Bien>, outgoing: string, incoming: string)
    requires (outgoing == LOCATION) != (incoming == LOCATION)
    ensures var after := Data.Load(Data.Save(lists, biens, outgoing), incoming).lists;
            Data.Load(after, outgoing).biens == biens
  {
    var saved := Data.Save(lists, biens, outgoing);
    Data.LoadAfterSave(lists, biens, outgoing);
    Data.SaveIsolation(lists, biens, outgoing, incoming);
  }
}
