/** The application state (js/state.js): the listings, the filtered view,
    the listing being edited, the mode, the charge display mode and the sort
    state, with the setters that are the only way to change them. */
module State {
  import opened Wrappers
  import opened Config
  import opened Listing
  import opened Seqs
  import Data

  /** `biens.findIndex(b => b.id === id)`: the first index holding the id,
      or -1. */
  function FindIndex(s: seq<Bien>, id: int): (r: int)
    ensures -1 <= r < |s|
    ensures r == -1 <==> forall i :: 0 <= i < |s| ==> s[i].id != id
    ensures 0 <= r ==> s[r].id == id && forall i :: 0 <= i < r ==> s[i].id != id
    decreases |s|
  {
    if |s| == 0 then -1
    else if s[0].id == id then 0
    else
      var k := FindIndex(s[1..], id);
      if k == -1 then -1 else k + 1
  }

  /** `s.filter(b => b.id !== id)`. */
  function WithoutId(s: seq<Bien>, id: int): seq<Bien> {
    Filter(s, (b: Bien) => b.id != id)
  }

  /** Deleting removes every listing with the id, keeps every other listing
      in its original order, and changes nothing when the id is absent. */
  lemma WithoutIdSpec(s: seq<Bien>, id: int)
    ensures forall b :: b in WithoutId(s, id) <==> b in s && b.id != id
    ensures IsSubsequence(WithoutId(s, id), s)
    ensures multiset(WithoutId(s, id)) + multiset(Filter(s, (b: Bien) => b.id == id)) == multiset(s)
    ensures (forall i :: 0 <= i < |s| ==> s[i].id != id) ==> WithoutId(s, id) == s
  {
    FilterIsSubsequence(s, (b: Bien) => b.id != id);
    FilterMembers(s, (b: Bien) => b.id != id);
    FilterSplits(s, (b: Bien) => b.id != id, (b: Bien) => b.id == id);
    if forall i :: 0 <= i < |s| ==> s[i].id != id {
      FilterAllPass(s, (b: Bien) => b.id != id);
    }
  }

  /** The mode the application starts in: the persisted one unless it is
      missing or empty (`getItem(...) || 'achat'`). */
  function InitialMode(stored: Option<string>): (m: string)
    ensures stored.Some? && stored.value != "" ==> m == stored.value
    ensures stored.None? || stored.value == "" ==> m == ACHAT
  {
    if stored.Some? && stored.value != "" then stored.value else ACHAT
  }

  class AppState {
    var biens: seq<Bien>
    var filteredBiens: seq<Bien>
    var editingId: Option<int>
    var currentMode: string
    var displayChargesMode: string
    var sortColumn: Option<string>
    var sortDirection: string

    /** The initial `_state` record. */
    constructor (db: Data.LocalStorage)
      ensures biens == [] && filteredBiens == [] && editingId == None
      ensures currentMode == InitialMode(db.modeItem)
      ensures displayChargesMode == MENSUELLES
      ensures sortColumn == None && sortDirection == "asc"
    {
      biens := [];
      filteredBiens := [];
      editingId := None;
      currentMode := InitialMode(db.modeItem);
      displayChargesMode := MENSUELLES;
      sortColumn := None;
      sortDirection := "asc";
    }

    /** `state.isLocation`. */
    predicate IsLocation()
      reads this
    {
      currentMode == LOCATION
    }

    method SetBiens(bs: seq<Bien>)
      modifies this`biens, this`filteredBiens
      ensures biens == bs && filteredBiens == bs
    {
      biens := bs;
      filteredBiens := bs;
    }

    method SetFilteredBiens(bs: seq<Bien>)
      modifies this`filteredBiens
      ensures filteredBiens == bs
    {
      filteredBiens := bs;
    }

    method SetEditingId(id: Option<int>)
      modifies this`editingId
      ensures editingId == id
    {
      editingId := id;
    }

    /** `setMode(mode)`: rejects (throws on) anything but the two modes,
      leaving mode and storage as they were; otherwise switches and persists
      the mode under the current-mode key. */
    method SetMode(mode: string, db: Data.LocalStorage) returns (ok: bool)
      modifies this`currentMode, db`modeItem
      ensures ok <==> mode in MODES
      ensures ok ==> currentMode == mode && db.modeItem == Some(mode)
      ensures !ok ==> currentMode == old(currentMode) && db.modeItem == old(db.modeItem)
    {
      if mode !in MODES {
        return false;
      }
      currentMode := mode;
      db.modeItem := Some(mode);
      return true;
    }

    method SetChargesMode(mode: string)
      modifies this`displayChargesMode
      ensures displayChargesMode == mode
    {
      displayChargesMode := mode;
    }

    method SetSort(column: string, direction: string)
      modifies this`sortColumn, this`sortDirection
      ensures sortColumn == Some(column) && sortDirection == direction
    {
      sortColumn := Some(column);
      sortDirection := direction;
    }

    method ResetSort()
      modifies this`sortColumn, this`sortDirection
      ensures sortColumn == None && sortDirection == "asc"
    {
      sortColumn := None;
      sortDirection := "asc";
    }

    /** `addBien(bien)`: appends, then resets the filtered view to a copy. */
    method AddBien(b: Bien)
      modifies this`biens, this`filteredBiens
      ensures biens == old(biens) + [b]
      ensures |biens| == |old(biens)| + 1 && biens[..|old(biens)|] == old(biens)
      ensures filteredBiens == biens
    {
      biens := biens + [b];
      filteredBiens := biens;
    }

    /** `updateBien(bien)`: replaces the first listing with the same id and
      resets the filtered view; does nothing when no listing has that id. */
    method UpdateBien(b: Bien)
      modifies this`biens, this`filteredBiens
      ensures var k := FindIndex(old(biens), b.id);
              if k == -1 then biens == old(biens) && filteredBiens == old(filteredBiens)
              else biens == old(biens)[k := b] && filteredBiens == biens
      ensures |biens| == |old(biens)|
      ensures forall i :: 0 <= i < |biens| && biens[i] != old(biens)[i] ==>
                i == FindIndex(old(biens), b.id) && biens[i] == b
    {
      var index := FindIndex(biens, b.id);
      if index != -1 {
        biens := biens[index := b];
        filteredBiens := biens;
      }
    }

    /** `deleteBien(id)`: removes the id from both lists. */
    method DeleteBien(id: int)
      modifies this`biens, this`filteredBiens
      ensures biens == WithoutId(old(biens), id)
      ensures filteredBiens == WithoutId(old(filteredBiens), id)
    {
      biens := WithoutId(biens, id);
      filteredBiens := WithoutId(filteredBiens, id);
    }
  }
}
