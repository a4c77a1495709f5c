/** The listings table (js/table/render.js): what each row shows, the
    charges cell, the equipment icons, and the choice between rows and the
    "no results" message. HTML markup and price formatting are not modelled;
    a row is the tuple of values it displays. */
module Render {
  import opened Wrappers
  import opened Config
  import opened Listing
  import opened Seqs
  import opened Text
  import Format
  import Sort

  /** The text of the charges cell: "-" or an amount per month / per year. */
  datatype ChargesLabel = Dash | PerMonth(amount: real) | PerYear(amount: real)

  datatype ChargesDisplay = ChargesDisplay(value: real, text: ChargesLabel)

  /** `getChargesDisplay(bien)`. In annual mode the stored annual amount is
      used whenever it is defined, even when it is 0. */
  function GetChargesDisplay(b: Bien, chargesMode: string): (d: ChargesDisplay)
    ensures chargesMode == MENSUELLES ==> d.value == OrElse(b.charges, 0.0)
    ensures chargesMode != MENSUELLES && b.chargesAnnuelles.Some? ==> d.value == b.chargesAnnuelles.value
    ensures chargesMode != MENSUELLES && b.chargesAnnuelles.None? ==> d.value == OrElse(b.charges, 0.0) * 12.0
    ensures d.text == Dash <==> d.value == 0.0
    ensures d.text.PerMonth? ==> chargesMode == MENSUELLES && d.text.amount == d.value
    ensures d.text.PerYear? ==> chargesMode != MENSUELLES && d.text.amount == d.value
  {
    if chargesMode == MENSUELLES then
      var v := OrElse(b.charges, 0.0);
      ChargesDisplay(v, if v != 0.0 then PerMonth(v) else Dash)
    else
      var v := if b.chargesAnnuelles.Some? then b.chargesAnnuelles.value else OrElse(b.charges, 0.0) * 12.0;
      ChargesDisplay(v, if v != 0.0 then PerYear(v) else Dash)
  }

  /** The table and the charges sort key agree on every listing except one
      whose stored annual amount is 0. */
  lemma AnnualFallbacksAgree(b: Bien, chargesMode: string)
    requires b.chargesAnnuelles != Some(0.0)
    ensures GetChargesDisplay(b, chargesMode).value == Sort.ChargesKey(b, chargesMode)
  {
  }

  /** With an annual amount of 0 and non-zero monthly charges the table
      shows "-" while the sort key uses twelve times the monthly charges. */
  lemma AnnualFallbacksDiffer(b: Bien)
    requires b.chargesAnnuelles == Some(0.0) && Truthy(b.charges)
    ensures GetChargesDisplay(b, ANNUELLES).text == Dash
    ensures Sort.ChargesKey(b, ANNUELLES) == b.charges.value * 12.0 != 0.0
  {
  }

  datatype Equipment = Parking | Cave | Terrasse | Clim | Ascenseur | Balcon

  /** The equipment list in display order. */
  const EQUIPMENT: seq<Equipment> := [Parking, Cave, Terrasse, Clim, Ascenseur, Balcon]

  function Has(b: Bien, e: Equipment): bool {
    match e
    case Parking => b.parking
    case Cave => b.cave
    case Terrasse => b.terrasse
    case Clim => b.clim
    case Ascenseur => b.ascenseur
    case Balcon => b.balcon
  }

  function HasFor(b: Bien): Equipment -> bool {
    (e: Equipment) => Has(b, e)
  }

  function Icon(e: Equipment): string {
    match e
    case Parking => "\U{1F697}"
    case Cave => "\U{1F4E6}"
    case Terrasse => "\U{1F33F}"
    case Clim => "\U{2744}\U{FE0F}"
    case Ascenseur => "\U{1F6D7}"
    case Balcon => "\U{1F338}"
  }

  function Title(e: Equipment): string {
    match e
    case Parking => "Parking"
    case Cave => "Cave"
    case Terrasse => "Terrasse"
    case Clim => "Climatisation"
    case Ascenseur => "Ascenseur"
    case Balcon => "Balcon"
  }

  /** One icon: `<span class="equipment-icon" title="…">…</span>`. */
  function IconSpan(e: Equipment): string {
    "<span class=\"equipment-icon\" title=\"" + Title(e) + "\">" + Icon(e) + "</span>"
  }

  /** The equipment a listing has, in display order. */
  function Equipped(b: Bien): seq<Equipment> {
    Filter(EQUIPMENT, HasFor(b))
  }

  /** Every equipment value is in the display list. */
  lemma EquipmentComplete(e: Equipment)
    ensures e in EQUIPMENT
  {
    match e
    case Parking => assert EQUIPMENT[0] == e;
    case Cave => assert EQUIPMENT[1] == e;
    case Terrasse => assert EQUIPMENT[2] == e;
    case Clim => assert EQUIPMENT[3] == e;
    case Ascenseur => assert EQUIPMENT[4] == e;
    case Balcon => assert EQUIPMENT[5] == e;
  }

  /** One entry per equipment the listing has and none for the others,
      each at most once, in the fixed order parking, cave, terrasse, clim,
      ascenseur, balcon. */
  lemma EquippedSpec(b: Bien)
    ensures forall e :: e in Equipped(b) <==> Has(b, e)
    ensures IsSubsequence(Equipped(b), EQUIPMENT)
  {
    var r := Equipped(b);
    FilterIsSubsequence(EQUIPMENT, HasFor(b));
    FilterMembers(EQUIPMENT, HasFor(b));
    forall e: Equipment ensures e in r <==> Has(b, e) {
      EquipmentComplete(e);
      assert HasFor(b)(e) == Has(b, e);
    }
  }

  function Spans(es: seq<Equipment>): (r: seq<string>)
    ensures |r| == |es| && forall i :: 0 <= i < |es| ==> r[i] == IconSpan(es[i])
  {
    seq(|es|, i requires 0 <= i < |es| => IconSpan(es[i]))
  }

  lemma SpansSnoc(es: seq<Equipment>, e: Equipment)
    ensures Spans(es + [e]) == Spans(es) + [IconSpan(e)]
  {
    assert (es + [e])[|es|] == e;
  }

  /** `getEquipmentIcons(bien)`: walks the equipment list and pushes an
      icon for each equipment the listing has; the cell is their
      concatenation. */
  method EquipmentIcons(b: Bien) returns (icons: seq<string>, html: string)
    ensures icons == Spans(Equipped(b))
    ensures html == Join(icons, "")
  {
    icons := [];
    var i := 0;
    while i < |EQUIPMENT|
      invariant 0 <= i <= |EQUIPMENT|
      invariant icons == Spans(Filter(EQUIPMENT[..i], HasFor(b)))
    {
      var e := EQUIPMENT[i];
      FilterSnoc(EQUIPMENT[..i], e, HasFor(b));
      assert EQUIPMENT[..i + 1] == EQUIPMENT[..i] + [e];
      if Has(b, e) {
        SpansSnoc(Filter(EQUIPMENT[..i], HasFor(b)), e);
        icons := icons + [IconSpan(e)];
      }
      i := i + 1;
    }
    assert EQUIPMENT[..i] == EQUIPMENT;
    html := Join(icons, "");
  }

  /** The furnished cell: Oui/Non in rental mode, a house or nothing in
      purchase mode. */
  function MeubleLabel(meuble: bool, isLocation: bool): (s: string)
    ensures isLocation ==> s == (if meuble then "Oui" else "Non")
    ensures !isLocation ==> (s == "" <==> !meuble)
  {
    if isLocation then (if meuble then "Oui" else "Non")
    else if meuble then "\U{1F3E0}" else ""
  }

  /** The price per m² cell, `Math.round(prix / surface)`: not a finite
      number (`None`) when the surface is missing or 0. */
  function PricePerM2(prix: real, surface: Option<real>): (r: Option<int>)
    ensures r.Some? <==> Truthy(surface)
    ensures r.Some? ==> r.value as real - 0.5 <= prix / surface.value < r.value as real + 0.5
  {
    if Truthy(surface) then Some(Round(prix / surface.value)) else None
  }

  /** The values one table row displays. */
  datatype RowView = RowView(
    id: int, quartier: string, typ: string, prix: real, surface: Option<real>,
    meubleLabel: string, pieces: Option<int>, prixM2: Option<int>,
    charges: ChargesDisplay, dpe: string, dpeClass: string,
    etat: string, statusClass: string, equipment: seq<Equipment>)

  /** `renderRow(bien, isLocation)`. */
  function RenderRow(b: Bien, isLocation: bool, chargesMode: string): (r: RowView)
    ensures r.id == b.id && r.quartier == b.quartier && r.etat == b.etat && r.dpe == b.dpe
    ensures r.prix == ProjectedPrice(b, isLocation)
    ensures r.prixM2 == PricePerM2(ProjectedPrice(b, isLocation), b.surface)
    ensures r.charges == GetChargesDisplay(b, chargesMode)
    ensures r.statusClass == Format.StatusClass(b.etat)
    ensures r.dpeClass == "badge-dpe-" + Lower(b.dpe)
    ensures r.equipment == Equipped(b)
    ensures r.meubleLabel == MeubleLabel(b.meuble, isLocation)
  {
    var prix := ProjectedPrice(b, isLocation);
    RowView(b.id, b.quartier, b.typ, prix, b.surface, MeubleLabel(b.meuble, isLocation),
            b.pieces, PricePerM2(prix, b.surface), GetChargesDisplay(b, chargesMode),
            b.dpe, "badge-dpe-" + Lower(b.dpe), b.etat, Format.StatusClass(b.etat), Equipped(b))
  }

  datatype TableView = NoResults | Rows(rows: seq<RowView>)

  /** `renderTable()`: the "no results" message for an empty filtered
      view, otherwise one row per filtered listing, in order. */
  function RenderTable(filtered: seq<Bien>, isLocation: bool, chargesMode: string): (t: TableView)
    ensures t.NoResults? <==> |filtered| == 0
    ensures t.Rows? ==> |t.rows| == |filtered|
    ensures t.Rows? ==>
              forall i :: 0 <= i < |filtered| ==> t.rows[i] == RenderRow(filtered[i], isLocation, chargesMode)
  {
    if |filtered| == 0 then NoResults
    else Rows(seq(|filtered|, i requires 0 <= i < |filtered| => RenderRow(filtered[i], isLocation, chargesMode)))
  }
}
