/** The table filters (js/table/filters.js): the criteria read from the
    filter controls, the predicate every shown listing satisfies, clearing,
    the neighbourhood choices and the status choices. */
module Filters {
  import opened Wrappers
  import opened Config
  import opened Listing
  import opened Seqs
  import opened Text
  import State

  /** The pieces selector: empty (no constraint), or a value that `parseInt`
      turns into a count or into NaN. */
  datatype PiecesChoice = AnyPieces | PiecesCount(n: int) | PiecesNaN

  /** The values read from the controls. A numeric bound is `None` when its
      box is empty or does not parse; `quartier` is "" when "Tous" is
      selected; `dpe` and `etats` are the ticked boxes. */
  datatype Criteria = Criteria(prixMin: Option<real>, prixMax: Option<real>,
                               surfaceMin: Option<real>, surfaceMax: Option<real>,
                               pieces: PiecesChoice, quartier: string,
                               dpe: seq<string>, etats: seq<string>)

  /** The controls after `clearFilters`. */
  const NoCriteria := Criteria(None, None, None, None, AnyPieces, "", [], [])

  /** `parseFloat(v) || Infinity`: `None` stands for Infinity, so an upper
      bound of 0 is no bound at all. */
  function UpperBound(x: Option<real>): (r: Option<real>)
    ensures r.None? <==> !Truthy(x)
    ensures r.Some? ==> r == x
  {
    if Truthy(x) then x else None
  }

  predicate Below(v: real, bound: Option<real>) {
    bound.None? || v <= bound.value
  }

  /** The surface test: a listing without a surface is never rejected,
      since both comparisons with an undefined value are false. */
  predicate SurfaceOk(surface: Option<real>, c: Criteria) {
    surface.None? ||
    (OrElse(c.surfaceMin, 0.0) <= surface.value && Below(surface.value, UpperBound(c.surfaceMax)))
  }

  predicate PiecesOk(pieces: Option<int>, choice: PiecesChoice) {
    match choice
    case AnyPieces => true
    case PiecesCount(n) => pieces == Some(n)
    case PiecesNaN => false
  }

  /** The filter callback of `applyFilters`. */
  predicate Admits(b: Bien, c: Criteria, isLocation: bool) {
    var prix := ProjectedPrice(b, isLocation);
    && OrElse(c.prixMin, 0.0) <= prix && Below(prix, UpperBound(c.prixMax))
    && SurfaceOk(b.surface, c)
    && PiecesOk(b.pieces, c.pieces)
    && (c.quartier == "" || b.quartier == c.quartier)
    && (|c.dpe| == 0 || b.dpe in c.dpe)
    && (|c.etats| == 0 || b.etat in c.etats)
  }

  function ApplyFilter(biens: seq<Bien>, c: Criteria, isLocation: bool): seq<Bien> {
    Filter(biens, (b: Bien) => Admits(b, c, isLocation))
  }

  /** The filtered view is the listings meeting every active criterion, in
      their original order; a listing is dropped exactly when one criterion
      rejects it. */
  lemma ApplyFilterSpec(biens: seq<Bien>, c: Criteria, isLocation: bool)
    ensures IsSubsequence(ApplyFilter(biens, c, isLocation), biens)
    ensures forall b :: b in ApplyFilter(biens, c, isLocation) <==>
              b in biens &&
              OrElse(c.prixMin, 0.0) <= ProjectedPrice(b, isLocation) &&
              (Truthy(c.prixMax) ==> ProjectedPrice(b, isLocation) <= c.prixMax.value) &&
              (b.surface.Some? ==> OrElse(c.surfaceMin, 0.0) <= b.surface.value) &&
              (b.surface.Some? && Truthy(c.surfaceMax) ==> b.surface.value <= c.surfaceMax.value) &&
              (c.pieces.PiecesCount? ==> b.pieces == Some(c.pieces.n)) &&
              !c.pieces.PiecesNaN? &&
              (c.quartier != "" ==> b.quartier == c.quartier) &&
              (|c.dpe| > 0 ==> b.dpe in c.dpe) &&
              (|c.etats| > 0 ==> b.etat in c.etats)
  {
    FilterIsSubsequence(biens, (b: Bien) => Admits(b, c, isLocation));
    FilterMembers(biens, (b: Bien) => Admits(b, c, isLocation));
  }

  /** Applying the same criteria to the filtered view changes nothing. */
  lemma ApplyFilterIdempotent(biens: seq<Bien>, c: Criteria, isLocation: bool)
    ensures ApplyFilter(ApplyFilter(biens, c, isLocation), c, isLocation) == ApplyFilter(biens, c, isLocation)
  {
    FilterIdempotent(biens, (b: Bien) => Admits(b, c, isLocation));
  }

  /** Cleared controls admit every listing whose projected price and surface
      are not negative, so `applyFilters` after `clearFilters` shows what
      `clearFilters` shows. */
  lemma NoCriteriaAdmitsAll(biens: seq<Bien>, isLocation: bool)
    requires forall i :: 0 <= i < |biens| ==> ProjectedPrice(biens[i], isLocation) >= 0.0
    requires forall i :: 0 <= i < |biens| ==> biens[i].surface.GetOr(0.0) >= 0.0
    ensures ApplyFilter(biens, NoCriteria, isLocation) == biens
  {
    FilterAllPass(biens, (b: Bien) => Admits(b, NoCriteria, isLocation));
  }

  /** The hypothesis above is needed: the cleared price minimum is 0, so a
      negative price is hidden by `applyFilters` though `clearFilters`
      shows it. */
  lemma NoCriteriaHidesNegativePrice(b: Bien)
    requires b.prix == Some(-1.0)
    ensures ApplyFilter([b], NoCriteria, false) == []
  {
    assert !Admits(b, NoCriteria, false);
  }

  /** An upper bound of 0 does not constrain: `0 || Infinity` is Infinity. */
  lemma {:induction false} ZeroMaximumIsUnbounded(biens: seq<Bien>, c: Criteria, isLocation: bool)
    requires c.prixMax == Some(0.0) && c.surfaceMax == Some(0.0)
    ensures ApplyFilter(biens, c, isLocation) == ApplyFilter(biens, c.(prixMax := None, surfaceMax := None), isLocation)
  {
    if |biens| > 0 {
      ZeroMaximumIsUnbounded(biens[1..], c, isLocation);
    }
  }

  /** Two purchase listings at 125 000 and 185 000 with a maximum of
      150 000: only the first is shown. */
  lemma PriceMaximumExample(a: Bien, b: Bien)
    requires a.prix == Some(125000.0) && b.prix == Some(185000.0) && a.surface.None?
    ensures ApplyFilter([a, b], NoCriteria.(prixMax := Some(150000.0)), false) == [a]
  {
    var c := NoCriteria.(prixMax := Some(150000.0));
    assert Admits(a, c, false);
    assert !Admits(b, c, false);
    assert [b][1..] == [];
    assert ApplyFilter([b], c, false) == [];
    assert [a, b][1..] == [b];
    assert ApplyFilter([a, b], c, false) == [a] + ApplyFilter([b], c, false);
  }

  /** `applyFilters`: recomputes the filtered view from all listings. */
  method ApplyFilters(st: State.AppState, c: Criteria)
    modifies st`filteredBiens
    ensures st.filteredBiens == ApplyFilter(st.biens, c, st.IsLocation())
  {
    st.SetFilteredBiens(ApplyFilter(st.biens, c, st.IsLocation()));
  }

  /** `clearFilters`: the controls are emptied and the view is a copy of all
      listings. */
  method ClearFilters(st: State.AppState) returns (c: Criteria)
    modifies st`filteredBiens
    ensures c == NoCriteria && st.filteredBiens == st.biens
  {
    st.SetFilteredBiens(st.biens);
    return NoCriteria;
  }

  predicate StrictlySorted(s: seq<string>) {
    forall i, j :: 0 <= i < j < |s| ==> Lt(s[i], s[j])
  }

  /** Inserts a name into a strictly sorted list unless it is already there. */
  function InsertName(x: string, s: seq<string>): (r: seq<string>)
    requires StrictlySorted(s)
    ensures StrictlySorted(r)
    ensures forall y :: y in r <==> y in s || y == x
    decreases |s|
  {
    if |s| == 0 then [x]
    else if x == s[0] then s
    else if Lt(x, s[0]) then
      assert forall j :: 0 < j < |s| ==> Lt(x, s[j]) by {
        forall j | 0 < j < |s| ensures Lt(x, s[j]) { LtTransitive(x, s[0], s[j]); }
      }
      [x] + s
    else
      LtTrichotomy(x, s[0]);
      var t := InsertName(x, s[1..]);
      assert forall y :: y in t ==> Lt(s[0], y);
      [s[0]] + t
  }

  /** `[...new Set(names)].sort()`. */
  function SortedDistinct(names: seq<string>): (r: seq<string>)
    ensures StrictlySorted(r)
    ensures forall y :: y in r <==> y in names
  {
    if |names| == 0 then [] else InsertName(names[|names| - 1], SortedDistinct(names[..|names| - 1]))
  }

  /** `populateQuartierFilter`: "Tous" (value "") first, then each
      neighbourhood once, in ascending order. */
  function QuartierOptions(biens: seq<Bien>): (r: seq<string>)
    ensures |r| >= 1 && r[0] == ""
    ensures StrictlySorted(r[1..])
    ensures forall q :: q in r[1..] <==> exists i :: 0 <= i < |biens| && biens[i].quartier == q
  {
    var names := seq(|biens|, i requires 0 <= i < |biens| => biens[i].quartier);
    var sorted := SortedDistinct(names);
    assert forall q :: q in names <==> exists i :: 0 <= i < |biens| && biens[i].quartier == q by {
      forall q ensures q in names ==> exists i :: 0 <= i < |biens| && biens[i].quartier == q {
        if q in names {
          var i :| 0 <= i < |names| && names[i] == q;
          assert biens[i].quartier == q;
        }
      }
      forall i | 0 <= i < |biens| ensures biens[i].quartier in names {
        assert names[i] == biens[i].quartier;
      }
    }
    assert ([""] + sorted)[1..] == sorted;
    [""] + sorted
  }

  /** One status checkbox: its value, its caption, and the coloured
      indicator class drawn before the caption. */
  datatype EtatCheckbox = EtatCheckbox(value: string, caption: string, indicator: Option<string>)

  /** `updateEtatFilters`: one checkbox per status of the mode, in order;
      the indicator only in rental mode. */
  function EtatCheckboxes(isLocation: bool): (r: seq<EtatCheckbox>)
    ensures var states := if isLocation then LOCATION_STATES else ACHAT_STATES;
            |r| == |states| &&
            forall i :: 0 <= i < |r| ==>
              r[i].value == states[i].value && r[i].caption == " " + states[i].caption &&
              (r[i].indicator.Some? <==> isLocation && states[i].cssClass.Some?)
    ensures forall i :: 0 <= i < |r| ==> r[i].value in (if isLocation then LOCATION_ETATS else ACHAT_ETATS)
  {
    var states := if isLocation then LOCATION_STATES else ACHAT_STATES;
    seq(|states|, i requires 0 <= i < |states| =>
      EtatCheckbox(states[i].value, " " + states[i].caption,
                   if isLocation then states[i].cssClass else None))
  }
}
