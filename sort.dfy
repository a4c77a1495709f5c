/** Table sorting (js/table/sort.js): the three-state click cycle on a
    column header, the per-column sort keys, and the ordering of a list of
    listings by those keys. */
module Sort {
  import opened Wrappers
  import opened Config
  import opened Listing
  import opened Text
  import opened Seqs
  import State

  /** The sort fields of the store: no column, or a column and a direction. */
  datatype SortState = SortState(column: Option<string>, direction: string)

  const Unsorted := SortState(None, "asc")

  /** The state after a click on `column` (`sortTable`). */
  function NextSort(s: SortState, column: string): (r: SortState)
    ensures s.column != Some(column) ==> r == SortState(Some(column), "asc")
    ensures s.column == Some(column) && s.direction == "asc" ==> r == SortState(Some(column), "desc")
    ensures s.column == Some(column) && s.direction != "asc" ==> r == Unsorted
  {
    if s.column == Some(column) then
      if s.direction == "asc" then SortState(Some(column), "desc") else Unsorted
    else SortState(Some(column), "asc")
  }

  /** Three clicks on the same header from the unsorted state go through
      ascending and descending back to unsorted. */
  lemma ThreeClicksReset(column: string)
    ensures NextSort(Unsorted, column) == SortState(Some(column), "asc")
    ensures NextSort(NextSort(Unsorted, column), column) == SortState(Some(column), "desc")
    ensures NextSort(NextSort(NextSort(Unsorted, column), column), column) == Unsorted
  {
  }

  /** Clicking another header after any click sorts ascending on it. */
  lemma OtherColumnRestarts(s: SortState, x: string, y: string)
    requires x != y
    ensures NextSort(NextSort(s, x), y) == SortState(Some(y), "asc")
  {
  }

  /** `sortTable(column)` on the store. */
  method SortTable(st: State.AppState, column: string)
    modifies st`sortColumn, st`sortDirection
    ensures SortState(st.sortColumn, st.sortDirection) ==
            NextSort(SortState(old(st.sortColumn), old(st.sortDirection)), column)
  {
    if st.sortColumn == Some(column) {
      if st.sortDirection == "asc" {
        st.SetSort(column, "desc");
      } else {
        st.ResetSort();
      }
    } else {
      st.SetSort(column, "asc");
    }
  }

  /** A sort key: a number, compared by subtraction, or a text, compared
      as text. */
  datatype SortKey = Num(x: real) | Str(s: string)

  predicate IsTextColumn(column: string) {
    column == "quartier" || column == "type" || column == "dpe"
  }

  /** The charges key: monthly charges in monthly mode, otherwise the
      annual charges unless falsy, else twelve times the monthly ones. */
  function ChargesKey(b: Bien, chargesMode: string): (k: real)
    ensures chargesMode == MENSUELLES ==> k == OrElse(b.charges, 0.0)
    ensures chargesMode != MENSUELLES && Truthy(b.chargesAnnuelles) ==> k == b.chargesAnnuelles.value
    ensures chargesMode != MENSUELLES && !Truthy(b.chargesAnnuelles) ==> k == OrElse(b.charges, 0.0) * 12.0
  {
    if chargesMode == MENSUELLES then OrElse(b.charges, 0.0)
    else OrElse(b.chargesAnnuelles, OrElse(b.charges, 0.0) * 12.0)
  }

  /** `getSortValues` for one listing. */
  function KeyOf(b: Bien, column: string, isLocation: bool, chargesMode: string): (k: SortKey)
    ensures k.Str? <==> IsTextColumn(column)
    ensures column == "loyer" || column == "prix" ==> k == Num(ProjectedPrice(b, isLocation))
    ensures column == "surface" ==> k == Num(OrElse(b.surface, 0.0))
    ensures column == "prixM2" && !Truthy(b.surface) ==> k == Num(0.0)
    ensures column == "prixM2" && Truthy(b.surface) ==>
              var q := ProjectedPrice(b, isLocation) / b.surface.value;
              k.Num? && k.x.Floor as real == k.x && k.x - 0.5 <= q < k.x + 0.5
    ensures column == "charges" ==> k == Num(ChargesKey(b, chargesMode))
    ensures column == "quartier" ==> k == Str(Lower(b.quartier))
    ensures column == "type" ==> k == Str(Lower(b.typ))
    ensures column == "dpe" ==> k == Str(b.dpe)
    ensures !IsTextColumn(column) && column !in {"loyer", "prix", "surface", "prixM2", "charges"} ==> k == Num(0.0)
  {
    if column == "loyer" || column == "prix" then Num(ProjectedPrice(b, isLocation))
    else if column == "surface" then Num(OrElse(b.surface, 0.0))
    else if column == "prixM2" then
      (if Truthy(b.surface) then Num(Round(ProjectedPrice(b, isLocation) / b.surface.value) as real) else Num(0.0))
    else if column == "charges" then Num(ChargesKey(b, chargesMode))
    else if column == "quartier" then Str(Lower(b.quartier))
    else if column == "type" then Str(Lower(b.typ))
    else if column == "dpe" then Str(b.dpe)
    else Num(0.0)
  }

  /** What an ordering is done by: the column, the mode the price is
      projected in, the charge display mode, and the direction. */
  datatype Order = Order(column: string, isLocation: bool, chargesMode: string, ascending: bool)

  function Key(b: Bien, o: Order): SortKey {
    KeyOf(b, o.column, o.isLocation, o.chargesMode)
  }

  /** The comparator returns a negative value: ascending compares a with b,
      descending b with a. Keys of different kinds never occur together,
      since the kind depends on the column only. */
  predicate KeyBefore(ka: SortKey, kb: SortKey, ascending: bool) {
    match (ka, kb)
    case (Num(a), Num(b)) => if ascending then a < b else b < a
    case (Str(a), Str(b)) => if ascending then Lt(a, b) else Lt(b, a)
    case _ => false
  }

  predicate Before(a: Bien, b: Bien, o: Order) {
    KeyBefore(Key(a, o), Key(b, o), o.ascending)
  }

  /** The comparator is a strict weak order: irreflexive, asymmetric, and
      "not before" is transitive. */
  lemma BeforeIsWeakOrder(a: Bien, b: Bien, c: Bien, o: Order)
    ensures !Before(a, a, o)
    ensures Before(a, b, o) ==> !Before(b, a, o)
    ensures !Before(a, b, o) && !Before(b, c, o) ==> !Before(a, c, o)
  {
    var ka, kb, kc := Key(a, o), Key(b, o), Key(c, o);
    if ka.Str? {
      LtIrreflexive(ka.s);
      if Before(a, b, o) {
        if o.ascending { LtAsymmetric(ka.s, kb.s); } else { LtAsymmetric(kb.s, ka.s); }
      }
      if !Before(a, b, o) && !Before(b, c, o) {
        if o.ascending { NotLtTransitive(ka.s, kb.s, kc.s); } else { NotLtTransitive(kc.s, kb.s, ka.s); }
      }
    }
  }

  /** The comparator of an ordering, as a function of two listings. */
  function BeforeIn(o: Order): (Bien, Bien) -> bool {
    (a: Bien, b: Bien) => Before(a, b, o)
  }

  lemma BeforeInIsWeakOrder(o: Order)
    ensures StrictWeakOrder(BeforeIn(o))
  {
    forall a, b, c
      ensures !BeforeIn(o)(a, a)
      ensures BeforeIn(o)(a, b) ==> !BeforeIn(o)(b, a)
      ensures !BeforeIn(o)(a, b) && !BeforeIn(o)(b, c) ==> !BeforeIn(o)(a, c)
    {
      BeforeIsWeakOrder(a, b, c, o);
    }
  }

  /** `applySort(data)`: the input itself when no column is set (or it is
      empty), else a sorted copy. */
  function ApplySort(data: seq<Bien>, s: SortState, isLocation: bool, chargesMode: string): seq<Bien> {
    if s.column.None? || s.column.value == "" then data
    else SortWith(data, BeforeIn(Order(s.column.value, isLocation, chargesMode, s.direction == "asc")))
  }

  /** The result of `applySort` is a permutation of its input; under "asc"
      keys never decrease, under any other direction they never increase. */
  lemma ApplySortSpec(data: seq<Bien>, s: SortState, isLocation: bool, chargesMode: string)
    ensures var r := ApplySort(data, s, isLocation, chargesMode);
            multiset(r) == multiset(data) && |r| == |data|
    ensures s.column.None? || s.column == Some("") ==> ApplySort(data, s, isLocation, chargesMode) == data
    ensures s.column.Some? && s.column.value != "" ==>
              var o := Order(s.column.value, isLocation, chargesMode, s.direction == "asc");
              var r := ApplySort(data, s, isLocation, chargesMode);
              forall i, j :: 0 <= i < j < |r| ==>
                match (Key(r[i], o), Key(r[j], o))
                case (Num(a), Num(b)) => if s.direction == "asc" then a <= b else b <= a
                case (Str(a), Str(b)) => if s.direction == "asc" then !Lt(b, a) else !Lt(a, b)
                case _ => false
  {
    if s.column.Some? && s.column.value != "" {
      var o := Order(s.column.value, isLocation, chargesMode, s.direction == "asc");
      BeforeInIsWeakOrder(o);
      SortWithSorted(data, BeforeIn(o));
      var r := SortWith(data, BeforeIn(o));
      forall i, j | 0 <= i < j < |r|
        ensures match (Key(r[i], o), Key(r[j], o))
                case (Num(a), Num(b)) => if s.direction == "asc" then a <= b else b <= a
                case (Str(a), Str(b)) => if s.direction == "asc" then !Lt(b, a) else !Lt(a, b)
                case _ => false
      {
        assert !BeforeIn(o)(r[j], r[i]);
      }
    }
  }

  /** A column the key function does not know gives every listing the key
      0, so the order is kept. */
  lemma UnknownColumnKeepsOrder(data: seq<Bien>, s: SortState, isLocation: bool, chargesMode: string)
    requires s.column.Some? && !IsTextColumn(s.column.value)
    requires s.column.value !in {"loyer", "prix", "surface", "prixM2", "charges"}
    ensures ApplySort(data, s, isLocation, chargesMode) == data
  {
    if s.column.value != "" {
      var o := Order(s.column.value, isLocation, chargesMode, s.direction == "asc");
      assert forall b :: Key(b, o) == Num(0.0);
      assert SortedBy(data, BeforeIn(o));
      SortWithSortedIsIdentity(data, BeforeIn(o));
    }
  }
}
