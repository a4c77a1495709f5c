/** The listing record ("bien") and the mode projection shared by the table,
    the filter engine and the sort engine. */
module Listing {
  import opened Wrappers

  /** One listing as stored. A numeric field is `None` when the record lacks
      it or holds `NaN`; a free-text field the record lacks is "". Rental
      listings carry `loyer` and `depotGarantie`, purchase listings `prix`. */
  datatype Bien = Bien(
    id: int,
    quartier: string,
    typ: string,
    prix: Option<real>,
    loyer: Option<real>,
    surface: Option<real>,
    pieces: Option<int>,
    meuble: bool,
    dpe: string,
    chauffage: string,
    charges: Option<real>,
    chargesAnnuelles: Option<real>,
    depotGarantie: Option<real>,
    parking: bool,
    cave: bool,
    terrasse: bool,
    clim: bool,
    ascenseur: bool,
    balcon: bool,
    etat: string,
    datePublication: string,
    dateContact: string,
    dateVisite: string,
    contact: string,
    tel: string,
    siteWeb: string,
    adresse: string,
    notes: string)

  /** A JavaScript number is truthy when it is neither undefined, NaN nor 0. */
  predicate Truthy(x: Option<real>) {
    x.Some? && x.value != 0.0
  }

  /** JavaScript `x || d` on an optional number. */
  function OrElse(x: Option<real>, d: real): (r: real)
    ensures Truthy(x) ==> r == x.value
    ensures !Truthy(x) ==> r == d
  {
    if Truthy(x) then x.value else d
  }

  /** `x || 0` is the value itself whenever it is present (0 stays 0). */
  lemma OrZeroIsGetOr(x: Option<real>)
    ensures OrElse(x, 0.0) == x.GetOr(0.0)
  {
  }

  /** The price the table, the filter and the sort key show for a listing:
      `loyer || 0` in rental mode, `prix || 0` in purchase mode. */
  function ProjectedPrice(b: Bien, isLocation: bool): (p: real)
    ensures isLocation ==> p == b.loyer.GetOr(0.0)
    ensures !isLocation ==> p == b.prix.GetOr(0.0)
  {
    if isLocation then OrElse(b.loyer, 0.0) else OrElse(b.prix, 0.0)
  }

  /** `Math.round` on an exact number: the nearest integer, halves rounded up. */
  function Round(x: real): (n: int)
    ensures n as real - 0.5 <= x < n as real + 0.5
  {
    (x + 0.5).Floor
  }
}
