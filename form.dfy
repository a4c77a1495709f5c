/** The add/edit form (js/modals/form.js): the record built from the form,
    the form filled from a record, and the submit that stores the record. */
module Form {
  import opened Wrappers
  import opened Config
  import opened Listing
  import State
  import Data

  /** The form controls as `collectFormData` reads them. Numeric boxes are
      already parsed (`parseFloat` / `parseInt`); `None` stands for NaN, that
      is an empty or unparsable box. `meuble` is the furnished selector's
      value. */
  datatype FormInput = FormInput(
    quartier: string, typ: string, prix: Option<real>, surface: Option<real>,
    pieces: Option<int>, meuble: string, dpe: string, chauffage: string,
    charges: Option<real>, depotGarantie: Option<real>,
    parking: bool, cave: bool, terrasse: bool, clim: bool, ascenseur: bool, balcon: bool,
    etat: string, datePublication: string, dateContact: string, dateVisite: string,
    contact: string, tel: string, siteWeb: string, adresse: string, notes: string)

  /** `state.editingId` is truthy: set and not 0. */
  predicate Editing(editingId: Option<int>) {
    editingId.Some? && editingId.value != 0
  }

  /** `x * 2` where x may be NaN. */
  function Twice(x: Option<real>): Option<real> {
    if x.Some? then Some(x.value * 2.0) else None
  }

  /** The two stored charge amounts (monthly, annual) for a charges box
      value: the box holds monthly charges in monthly mode and annual ones
      otherwise; an empty or unparsable box counts as 0. The annual amount
      is twelve times the monthly one either way. */
  function StoredCharges(input: Option<real>, chargesMode: string): (r: (real, real))
    ensures r.1 == r.0 * 12.0
    ensures chargesMode == MENSUELLES ==> r.0 == OrElse(input, 0.0)
    ensures chargesMode != MENSUELLES ==> r.1 == OrElse(input, 0.0)
    ensures !Truthy(input) ==> r == (0.0, 0.0)
  {
    var v := OrElse(input, 0.0);
    if chargesMode == MENSUELLES then (v, v * 12.0) else (v / 12.0, v)
  }

  /** The stored deposit in rental mode: the deposit box unless it is zero
      or empty, else twice the rent. */
  function Deposit(depot: Option<real>, loyer: Option<real>): (r: Option<real>)
    ensures Truthy(depot) ==> r == depot
    ensures !Truthy(depot) && loyer.Some? ==> r == Some(2.0 * loyer.value)
    ensures !Truthy(depot) && loyer.None? ==> r.None?
  {
    if Truthy(depot) then depot else Twice(loyer)
  }

  /** `collectFormData()`: `now` is the `Date.now()` used as a fresh id. */
  function CollectFormData(f: FormInput, isLocation: bool, chargesMode: string,
                           editingId: Option<int>, now: int): (b: Bien)
    ensures b.id == (if Editing(editingId) then editingId.value else now)
    ensures isLocation ==> b.loyer == f.prix && b.prix.None? &&
                           b.depotGarantie == Deposit(f.depotGarantie, f.prix)
    ensures !isLocation ==> b.prix == f.prix && b.loyer.None? && b.depotGarantie.None?
    ensures var (monthly, annual) := StoredCharges(f.charges, chargesMode);
            b.charges == Some(monthly) && b.chargesAnnuelles == Some(annual)
    ensures b.meuble <==> f.meuble == "true"
  {
    var id := if Editing(editingId) then editingId.value else now;
    var (monthly, annual) := StoredCharges(f.charges, chargesMode);
    var prix := if isLocation then None else f.prix;
    var loyer := if isLocation then f.prix else None;
    var depot := if isLocation then Deposit(f.depotGarantie, f.prix) else None;
    Bien(id, f.quartier, f.typ, prix, loyer,
         f.surface, f.pieces, f.meuble == "true", f.dpe, f.chauffage,
         Some(monthly), Some(annual), depot,
         f.parking, f.cave, f.terrasse, f.clim, f.ascenseur, f.balcon,
         f.etat, f.datePublication, f.dateContact, f.dateVisite,
         f.contact, f.tel, f.siteWeb, f.adresse, f.notes)
  }

  /** The charges box of `fillForm`: monthly charges in monthly mode, else
      the annual charges unless falsy, else twelve times the monthly ones;
      shown empty (`None`) when that value is 0. */
  function FillCharges(b: Bien, chargesMode: string): (r: Option<real>)
    ensures r.Some? ==> r.value != 0.0
    ensures chargesMode == MENSUELLES ==> r == (if Truthy(b.charges) then b.charges else None)
    ensures chargesMode != MENSUELLES && Truthy(b.chargesAnnuelles) ==> r == b.chargesAnnuelles
    ensures chargesMode != MENSUELLES && !Truthy(b.chargesAnnuelles) && Truthy(b.charges) ==>
              r == Some(b.charges.value * 12.0)
    ensures chargesMode != MENSUELLES && !Truthy(b.chargesAnnuelles) && !Truthy(b.charges) ==> r.None?
  {
    var value := if chargesMode == MENSUELLES then OrElse(b.charges, 0.0)
                 else OrElse(b.chargesAnnuelles, OrElse(b.charges, 0.0) * 12.0);
    if value != 0.0 then Some(value) else None
  }

  /** The price box of `fillForm`: in rental mode the rent, else the price,
      else 0; in purchase mode the price, else 0. */
  function FillPrice(b: Bien, isLocation: bool): (r: real)
    ensures isLocation && Truthy(b.loyer) ==> r == b.loyer.value
    ensures isLocation && !Truthy(b.loyer) ==> r == OrElse(b.prix, 0.0)
    ensures !isLocation ==> r == OrElse(b.prix, 0.0)
  {
    if isLocation then OrElse(b.loyer, OrElse(b.prix, 0.0)) else OrElse(b.prix, 0.0)
  }

  /** `fillForm(bien)`: the form as it reads after filling. Boxes the
      function does not write (the deposit in purchase mode) keep the empty
      value `form.reset()` gave them. */
  function FillForm(b: Bien, isLocation: bool, chargesMode: string): (f: FormInput)
    ensures f.prix == Some(FillPrice(b, isLocation))
    ensures f.charges == FillCharges(b, chargesMode)
    ensures f.meuble == (if b.meuble then "true" else "false")
    ensures isLocation ==> f.depotGarantie == (if Truthy(b.depotGarantie) then b.depotGarantie else None)
    ensures !isLocation ==> f.depotGarantie.None?
  {
    FormInput(b.quartier, b.typ, Some(FillPrice(b, isLocation)), b.surface, b.pieces,
              if b.meuble then "true" else "false", b.dpe, b.chauffage,
              FillCharges(b, chargesMode),
              if isLocation && Truthy(b.depotGarantie) then b.depotGarantie else None,
              b.parking, b.cave, b.terrasse, b.clim, b.ascenseur, b.balcon,
              b.etat, b.datePublication, b.dateContact, b.dateVisite,
              b.contact, b.tel, b.siteWeb, b.adresse, b.notes)
  }

  /** Opening a saved listing for editing and submitting the form untouched
      stores the same record again, provided the price box held a number
      and the record's id is truthy. */
  lemma EditRoundTrip(f: FormInput, isLocation: bool, chargesMode: string,
                      editingId: Option<int>, now: int, later: int)
    requires f.prix.Some?
    requires CollectFormData(f, isLocation, chargesMode, editingId, now).id != 0
    ensures var b := CollectFormData(f, isLocation, chargesMode, editingId, now);
            CollectFormData(FillForm(b, isLocation, chargesMode), isLocation, chargesMode, Some(b.id), later) == b
  {
    var b := CollectFormData(f, isLocation, chargesMode, editingId, now);
    var g := FillForm(b, isLocation, chargesMode);
    ChargesRoundTrip(f.charges, chargesMode, b);
    PriceRoundTrip(f, isLocation, chargesMode, b);
    if isLocation {
      DepositRoundTrip(f.depotGarantie, f.prix, b);
    }
  }

  /** Charges shown by `fillForm` are stored back as they were. */
  lemma ChargesRoundTrip(input: Option<real>, chargesMode: string, b: Bien)
    requires b.charges == Some(StoredCharges(input, chargesMode).0)
    requires b.chargesAnnuelles == Some(StoredCharges(input, chargesMode).1)
    ensures StoredCharges(FillCharges(b, chargesMode), chargesMode) == StoredCharges(input, chargesMode)
  {
    var v := OrElse(input, 0.0);
    if chargesMode != MENSUELLES && v == 0.0 {
      assert b.chargesAnnuelles == Some(0.0);
      assert b.charges == Some(0.0 / 12.0);
    }
  }

  lemma PriceRoundTrip(f: FormInput, isLocation: bool, chargesMode: string, b: Bien)
    requires f.prix.Some?
    requires isLocation ==> b.loyer == f.prix && b.prix.None?
    requires !isLocation ==> b.prix == f.prix
    ensures FillForm(b, isLocation, chargesMode).prix == f.prix
  {
  }

  lemma DepositRoundTrip(depot: Option<real>, loyer: Option<real>, b: Bien)
    requires b.depotGarantie == Deposit(depot, loyer)
    ensures Deposit(if Truthy(b.depotGarantie) then b.depotGarantie else None, loyer) == b.depotGarantie
  {
  }

  /** `handleFormSubmit`: builds the record, replaces the listing with its id
      when editing or appends it otherwise, saves all listings under the
      current mode, and closes the form, which clears the edited id. */
  method HandleFormSubmit(st: State.AppState, db: Data.LocalStorage, f: FormInput, now: int)
    returns (b: Bien)
    modifies st`biens, st`filteredBiens, st`editingId, db`lists
    ensures b == CollectFormData(f, old(st.IsLocation()), old(st.displayChargesMode), old(st.editingId), now)
    ensures !Editing(old(st.editingId)) ==> st.biens == old(st.biens) + [b] && st.filteredBiens == st.biens
    ensures Editing(old(st.editingId)) ==>
              var k := State.FindIndex(old(st.biens), b.id);
              if k == -1 then st.biens == old(st.biens) && st.filteredBiens == old(st.filteredBiens)
              else st.biens == old(st.biens)[k := b] && st.filteredBiens == st.biens
    ensures db.lists == Data.Save(old(db.lists), st.biens, st.currentMode)
    ensures st.editingId == None
  {
    b := CollectFormData(f, st.IsLocation(), st.displayChargesMode, st.editingId, now);
    if Editing(st.editingId) {
      st.UpdateBien(b);
    } else {
      st.AddBien(b);
    }
    db.SaveData(st.biens, st.currentMode);
    st.SetEditingId(None);
  }
}
