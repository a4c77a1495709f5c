/** Persistence of the listings in a key-value store, the purchase-mode seed
    dataset, and the rows and text of the CSV export (js/data.js). */
module Data {
  import opened Wrappers
  import opened Config
  import opened Listing
  import opened Text

  /** The storage key of a mode's listings: the rental key for "location",
      the purchase key for every other value. */
  function BiensKey(mode: string): (k: string)
    ensures k == KEY_BIENS_LOCATION <==> mode == LOCATION
    ensures k == KEY_BIENS_ACHAT <==> mode != LOCATION
  {
    if mode == LOCATION then KEY_BIENS_LOCATION else KEY_BIENS_ACHAT
  }

  /** A seed listing: a purchase listing with no rent, deposit, furnishing,
      annual charges, address, site or notes. */
  function Sample(id: int, quartier: string, typ: string, prix: real, surface: real,
                  pieces: int, dpe: string, chauffage: string, charges: real,
                  parking: bool, cave: bool, terrasse: bool, clim: bool,
                  ascenseur: bool, balcon: bool, etat: string,
                  datePublication: string, contact: string, tel: string): Bien
  {
    Bien(id, quartier, typ, Some(prix), None, Some(surface), Some(pieces), false,
         dpe, chauffage, Some(charges), None, None,
         parking, cave, terrasse, clim, ascenseur, balcon, etat,
         datePublication, "", "", contact, tel, "", "", "")
  }

  /** The eight purchase listings written on first run. */
  function SampleDataAchat(): (r: seq<Bien>)
    ensures |r| == 8
    ensures forall i :: 0 <= i < |r| ==> r[i].id == i + 1
  {
    [
      Sample(1, "Centre-ville", "T2", 125000.0, 45.0, 2, "D", "Électrique", 1200.0, true, true, false, false, true, false, "À voir", "2024-01-15", "Agence Immo Sud", "04 67 00 00 00"),
      Sample(2, "Antigone", "T3", 185000.0, 65.0, 3, "C", "Gaz", 1500.0, false, true, true, false, true, false, "Vu", "2024-01-10", "Propriétaire", "06 12 34 56 78"),
      Sample(3, "Comédie", "T2", 165000.0, 50.0, 2, "E", "Électrique", 900.0, false, false, false, false, false, true, "Retenu", "2024-01-12", "Agence Centre", "04 67 11 11 11"),
      Sample(4, "Ecusson", "Studio", 95000.0, 25.0, 1, "F", "Électrique", 600.0, false, false, false, false, false, false, "Refusé", "2024-01-08", "Agence Vieux", "04 67 22 22 22"),
      Sample(5, "Port Marianne", "T4", 245000.0, 85.0, 4, "B", "Pompe à chaleur", 1800.0, true, true, true, true, true, false, "À voir", "2024-01-18", "Promoteur Neuf", "04 67 33 33 33"),
      Sample(6, "Coursan", "Duplex", 195000.0, 75.0, 4, "C", "Bois", 800.0, true, true, false, false, false, false, "Vu", "2024-01-14", "Propriétaire", "06 98 76 54 32"),
      Sample(7, "Beaux-Arts", "T3", 210000.0, 60.0, 3, "D", "Gaz", 1400.0, false, true, false, false, true, true, "Retenu", "2024-01-16", "Agence Artistes", "04 67 44 44 44"),
      Sample(8, "Polygone", "T2", 140000.0, 48.0, 2, "E", "Électrique", 1100.0, false, false, false, false, true, false, "Refusé", "2024-01-11", "Agence Commerciale", "04 67 55 55 55")

    ]
  }

  /** The seed's ids are pairwise distinct. */
  lemma SampleIdsDistinct()
    ensures forall i, j :: 0 <= i < j < |SampleDataAchat()| ==>
              SampleDataAchat()[i].id != SampleDataAchat()[j].id
  {
  }

  /** The seed's états are purchase états and its energy classes are
      letters A..G. */
  lemma SampleVocabulary()
    ensures forall i :: 0 <= i < |SampleDataAchat()| ==>
              SampleDataAchat()[i].etat in ACHAT_ETATS && SampleDataAchat()[i].dpe in DPE_LETTERS
  {
    EtatValues();
    var r := SampleDataAchat();
    forall i | 0 <= i < |r| ensures r[i].etat in ACHAT_ETATS && r[i].dpe in DPE_LETTERS {
      if i < 4 {
        if i == 0 {} else if i == 1 {} else if i == 2 {} else {}
      } else {
        if i == 4 {} else if i == 5 {} else if i == 6 {} else {}
      }
    }
  }

  /** What `loadData` returns, and the store it leaves behind. */
  datatype Loaded = Loaded(biens: seq<Bien>, lists: map<string, seq<Bien>>)

  /** `loadData(mode)` over a store given as a map from key to list. */
  function Load(lists: map<string, seq<Bien>>, mode: string): Loaded {
    var key := BiensKey(mode);
    if key in lists then Loaded(lists[key], lists)
    else if mode == ACHAT then Loaded(SampleDataAchat(), lists[key := SampleDataAchat()])
    else Loaded([], lists)
  }

  /** `saveData(biens, mode)` over the same map. */
  function Save(lists: map<string, seq<Bien>>, biens: seq<Bien>, mode: string): map<string, seq<Bien>> {
    lists[BiensKey(mode) := biens]
  }

  /** A load after a save for the same mode returns the saved list and
      writes nothing. */
  lemma LoadAfterSave(lists: map<string, seq<Bien>>, biens: seq<Bien>, mode: string)
    ensures Load(Save(lists, biens, mode), mode) == Loaded(biens, Save(lists, biens, mode))
  {
  }

  /** Loading twice is loading once: the first load persists the seed, so
      the second returns the same list from the store. */
  lemma LoadIdempotent(lists: map<string, seq<Bien>>, mode: string)
    ensures var first := Load(lists, mode);
            Load(first.lists, mode) == (if mode == ACHAT || BiensKey(mode) in lists then first
                                        else Loaded([], lists))
  {
  }

  /** Only the purchase mode falls back to the seed; the rental mode falls
      back to the empty list and leaves the store as it was. */
  lemma LoadFallbacks(lists: map<string, seq<Bien>>)
    ensures KEY_BIENS_ACHAT !in lists ==>
              Load(lists, ACHAT).biens == SampleDataAchat() &&
              Load(lists, ACHAT).lists[KEY_BIENS_ACHAT] == SampleDataAchat()
    ensures KEY_BIENS_LOCATION !in lists ==> Load(lists, LOCATION) == Loaded([], lists)
  {
  }

  /** Saving under one mode never changes what the other mode loads. */
  lemma SaveIsolation(lists: map<string, seq<Bien>>, biens: seq<Bien>, saved: string, other: string)
    requires (saved == LOCATION) != (other == LOCATION)
    ensures Load(Save(lists, biens, saved), other).biens == Load(lists, other).biens
    ensures Save(lists, biens, saved)[BiensKey(other) := []] == lists[BiensKey(saved) := biens][BiensKey(other) := []]
  {
  }

  /** The browser's local storage as far as the core uses it: one list per
      listing key, and the persisted current mode. */
  class LocalStorage {
    var lists: map<string, seq<Bien>>
    var modeItem: Option<string>

    constructor (lists: map<string, seq<Bien>>, modeItem: Option<string>)
      ensures this.lists == lists && this.modeItem == modeItem
    {
      this.lists := lists;
      this.modeItem := modeItem;
    }

    /** `loadData(mode)`. */
    method LoadData(mode: string) returns (r: seq<Bien>)
      modifies this`lists
      ensures Loaded(r, lists) == Load(old(lists), mode)
      ensures BiensKey(mode) in old(lists) ==> r == old(lists)[BiensKey(mode)] && lists == old(lists)
      ensures BiensKey(mode) !in old(lists) && mode == ACHAT ==>
                r == SampleDataAchat() && lists == old(lists)[KEY_BIENS_ACHAT := r]
      ensures BiensKey(mode) !in old(lists) && mode != ACHAT ==> r == [] && lists == old(lists)
    {
      var key := BiensKey(mode);
      if key in lists {
        return lists[key];
      }
      if mode == ACHAT {
        lists := lists[key := SampleDataAchat()];
        return SampleDataAchat();
      }
      return [];
    }

    /** `saveData(biens, mode)`: writes the mode's key and no other. */
    method SaveData(biens: seq<Bien>, mode: string)
      modifies this`lists
      ensures lists == Save(old(lists), biens, mode)
      ensures forall k :: k in old(lists) && k != BiensKey(mode) ==> k in lists && lists[k] == old(lists)[k]
      ensures lists.Keys == old(lists).Keys + {BiensKey(mode)}
    {
      lists := lists[BiensKey(mode) := biens];
    }
  }

  // ---------------------------------------------------------------- CSV export

  /** One CSV cell before quoting: text, a number (rendered by the
      JavaScript number-to-string conversion), or a NaN number, which the
      template literal renders as "NaN". A surface or room count is NaN
      when the form that stored it was submitted with that box empty. */
  datatype Cell = Text(s: string) | Number(n: real) | NotANumber

  /** `x || ''`. */
  function NumberOrBlank(x: Option<real>): (c: Cell)
    ensures Truthy(x) ==> c == Number(x.value)
    ensures !Truthy(x) ==> c == Text("")
  {
    if Truthy(x) then Number(x.value) else Text("")
  }

  /** A numeric field written without fallback: `None` is the NaN that
      `parseFloat("")` stores. */
  function Raw(x: Option<real>): Cell {
    match x
    case Some(v) => Number(v)
    case None => NotANumber
  }

  function YesNo(flag: bool): string {
    if flag then "Oui" else "Non"
  }

  /** The export's columns, in order; the deposit column exists only in
      rental mode. */
  datatype Column =
    | Quartier | Type | Price | Surface | Furnished | Pieces | Dpe | Heating
    | MonthlyCharges | AnnualCharges | Deposit
    | Parking | Cave | Terrasse | Clim | Ascenseur | Balcon
    | Etat | DatePublication | DateContact | DateVisite
    | Contact | Telephone | Address | Website | Notes

  function Columns(isLocation: bool): (cs: seq<Column>)
    ensures |cs| == if isLocation then 26 else 25
    ensures isLocation <==> Deposit in cs
  {
    [Quartier, Type, Price, Surface, Furnished, Pieces, Dpe, Heating,
     MonthlyCharges, AnnualCharges]
    + (if isLocation then [Deposit] else [])
    + [Parking, Cave, Terrasse, Clim, Ascenseur, Balcon,
       Etat, DatePublication, DateContact, DateVisite,
       Contact, Telephone, Address, Website, Notes]
  }

  function HeaderName(c: Column, isLocation: bool): string {
    match c
    case Quartier => "Quartier"
    case Type => "Type"
    case Price => if isLocation then "Loyer" else "Prix"
    case Surface => "Surface"
    case Furnished => "Meublé"
    case Pieces => "Nb Pièces"
    case Dpe => "DPE"
    case Heating => "Chauffage"
    case MonthlyCharges => "Charges mensuelles"
    case AnnualCharges => "Charges annuelles"
    case Deposit => "Dépôt de garantie"
    case Parking => "Parking"
    case Cave => "Cave"
    case Terrasse => "Terrasse"
    case Clim => "Clim"
    case Ascenseur => "Ascenseur"
    case Balcon => "Balcon"
    case Etat => "État"
    case DatePublication => "Date Publication"
    case DateContact => "Date Contact"
    case DateVisite => "Date Visite"
    case Contact => "Contact"
    case Telephone => "Téléphone"
    case Address => "Adresse"
    case Website => "Site Web"
    case Notes => "Notes"
  }

  /** The annual-charges cell: `charges_annuelles || (charges ? charges * 12 : '')`. */
  function AnnualChargesCell(b: Bien): (c: Cell)
    ensures Truthy(b.chargesAnnuelles) ==> c == Number(b.chargesAnnuelles.value)
    ensures !Truthy(b.chargesAnnuelles) && Truthy(b.charges) ==> c == Number(b.charges.value * 12.0)
    ensures !Truthy(b.chargesAnnuelles) && !Truthy(b.charges) ==> c == Text("")
  {
    if Truthy(b.chargesAnnuelles) then Number(b.chargesAnnuelles.value)
    else if Truthy(b.charges) then Number(b.charges.value * 12.0)
    else Text("")
  }

  /** The cell a listing contributes to one column. */
  function CellOf(b: Bien, c: Column, isLocation: bool): Cell {
    match c
    case Quartier => Text(b.quartier)
    case Type => Text(b.typ)
    case Price => NumberOrBlank(if isLocation then b.loyer else b.prix)
    case Surface => Raw(b.surface)
    case Furnished => Text(YesNo(b.meuble))
    case Pieces => (match b.pieces { case Some(n) => Number(n as real) case None => NotANumber })
    case Dpe => Text(b.dpe)
    case Heating => Text(b.chauffage)
    case MonthlyCharges => NumberOrBlank(b.charges)
    case AnnualCharges => AnnualChargesCell(b)
    case Deposit => NumberOrBlank(b.depotGarantie)
    case Parking => Text(YesNo(b.parking))
    case Cave => Text(YesNo(b.cave))
    case Terrasse => Text(YesNo(b.terrasse))
    case Clim => Text(YesNo(b.clim))
    case Ascenseur => Text(YesNo(b.ascenseur))
    case Balcon => Text(YesNo(b.balcon))
    case Etat => Text(b.etat)
    case DatePublication => Text(b.datePublication)
    case DateContact => Text(b.dateContact)
    case DateVisite => Text(b.dateVisite)
    case Contact => Text(b.contact)
    case Telephone => Text(b.tel)
    case Address => Text(b.adresse)
    case Website => Text(b.siteWeb)
    case Notes => Text(b.notes)
  }

  /** The header row. */
  function Headers(isLocation: bool): (h: seq<string>)
    ensures |h| == |Columns(isLocation)|
    ensures forall i :: 0 <= i < |h| ==> h[i] == HeaderName(Columns(isLocation)[i], isLocation)
  {
    var cs := Columns(isLocation);
    seq(|cs|, i requires 0 <= i < |cs| => HeaderName(cs[i], isLocation))
  }

  /** One listing's row: as many cells as the header, each under its column. */
  function Row(b: Bien, isLocation: bool): (r: seq<Cell>)
    ensures |r| == |Headers(isLocation)|
    ensures forall i :: 0 <= i < |r| ==> r[i] == CellOf(b, Columns(isLocation)[i], isLocation)
  {
    var cs := Columns(isLocation);
    seq(|cs|, i requires 0 <= i < |cs| => CellOf(b, cs[i], isLocation))
  }

  /** The header adapts to the mode: 26 columns with "Loyer" and the deposit
      in rental mode, 25 with "Prix" in purchase mode. */
  lemma HeaderShape(isLocation: bool)
    ensures |Headers(isLocation)| == if isLocation then 26 else 25
    ensures Headers(isLocation)[2] == if isLocation then "Loyer" else "Prix"
    ensures isLocation <==> "Dépôt de garantie" in Headers(isLocation)
  {
    var h, cs := Headers(isLocation), Columns(isLocation);
    if isLocation {
      assert h[10] == HeaderName(cs[10], true);
    } else {
      forall i | 0 <= i < |h| ensures h[i] != "Dépôt de garantie" {
        DepositHeaderOnlyForDeposit(cs[i], false);
      }
    }
  }

  lemma DepositHeaderOnlyForDeposit(c: Column, isLocation: bool)
    ensures HeaderName(c, isLocation) == "Dépôt de garantie" <==> c == Deposit
  {
  }

  function CellText(c: Cell, show: real -> string): string {
    match c
    case Text(s) => s
    case Number(n) => show(n)
    case NotANumber => "NaN"
  }

  /** A cell wrapped in double quotes (embedded quotes are not doubled). */
  function Quoted(c: Cell, show: real -> string): (q: string)
    ensures |q| == |CellText(c, show)| + 2 && q[0] == '"' && q[|q| - 1] == '"'
    ensures q[1..|q| - 1] == CellText(c, show)
  {
    "\"" + CellText(c, show) + "\""
  }

  function QuotedCells(cells: seq<Cell>, show: real -> string): (r: seq<string>)
    ensures |r| == |cells| && forall i :: 0 <= i < |cells| ==> r[i] == Quoted(cells[i], show)
  {
    if |cells| == 0 then [] else [Quoted(cells[0], show)] + QuotedCells(cells[1..], show)
  }

  function RowLine(b: Bien, isLocation: bool, show: real -> string): string {
    Join(QuotedCells(Row(b, isLocation), show), ";")
  }

  function RowLines(biens: seq<Bien>, isLocation: bool, show: real -> string): (r: seq<string>)
    ensures |r| == |biens| && forall i :: 0 <= i < |biens| ==> r[i] == RowLine(biens[i], isLocation, show)
  {
    if |biens| == 0 then [] else [RowLine(biens[0], isLocation, show)] + RowLines(biens[1..], isLocation, show)
  }

  /** `exportCSV(biens, mode)` up to the download: no text for an empty list,
      otherwise the unquoted header line and one quoted line per listing.
      `show` is JavaScript's number-to-string conversion. */
  function ExportCsv(biens: seq<Bien>, mode: string, show: real -> string): (r: Option<string>)
    ensures r.None? <==> |biens| == 0
  {
    if |biens| == 0 then None else Some(CsvText(biens, mode == LOCATION, show))
  }

  function CsvText(biens: seq<Bien>, isLocation: bool, show: real -> string): string {
    Join(Headers(isLocation), ";") + "\n" + Join(RowLines(biens, isLocation, show), "\n")
  }

  lemma JoinCons(x: string, rest: seq<string>, sep: string)
    requires |rest| >= 1
    ensures Join([x] + rest, sep) == x + sep + Join(rest, sep)
  {
    assert ([x] + rest)[1..] == rest;
  }

  /** Read back line by line, the export is the header line followed by one
      line per listing in input order (when no cell contains a line break). */
  lemma ExportLines(biens: seq<Bien>, isLocation: bool, show: real -> string)
    requires |biens| > 0
    requires forall b, c :: b in biens ==> '\n' !in CellText(CellOf(b, c, isLocation), show)
    ensures Split(CsvText(biens, isLocation, show), '\n') ==
            [Join(Headers(isLocation), ";")] + RowLines(biens, isLocation, show)
  {
    var header := Join(Headers(isLocation), ";");
    var lines := RowLines(biens, isLocation, show);
    JoinCons(header, lines, "\n");
    HeaderHasNoBreak(isLocation);
    var all := [header] + lines;
    forall k | 0 <= k < |all| ensures '\n' !in all[k] {
      if k > 0 {
        assert all[k] == lines[k - 1];
        assert biens[k - 1] in biens;
        RowLineHasNoBreak(biens[k - 1], isLocation, show);
      }
    }
    SplitJoin(all, '\n');
  }

  lemma RowLineHasNoBreak(b: Bien, isLocation: bool, show: real -> string)
    requires forall c :: '\n' !in CellText(CellOf(b, c, isLocation), show)
    ensures '\n' !in RowLine(b, isLocation, show)
  {
    var row := Row(b, isLocation);
    var cells := QuotedCells(row, show);
    forall j | 0 <= j < |cells| ensures '\n' !in cells[j] {
      var t := CellText(row[j], show);
      assert '\n' !in t;
      assert cells[j] == "\"" + t + "\"";
    }
    JoinAvoids(cells, ";", '\n');
  }

  /** A join contains a character only if a part or the separator does. */
  lemma {:induction false} JoinAvoids(parts: seq<string>, sep: string, c: char)
    requires c !in sep
    requires forall i :: 0 <= i < |parts| ==> c !in parts[i]
    ensures c !in Join(parts, sep)
    decreases |parts|
  {
    if |parts| > 1 { JoinAvoids(parts[1..], sep, c); }
  }

  /** Text holding neither a line break nor the separator. */
  predicate Plain(s: string) {
    forall i :: 0 <= i < |s| ==> PlainChar(s[i])
  }

  predicate PlainChar(c: char) {
    c != '\n' && c != ';'
  }

  lemma HeaderLiteralsPlain1()
    ensures Plain("Quartier") && Plain("Type") && Plain("Loyer") && Plain("Prix")
  {
  }

  lemma HeaderLiteralsPlain2()
    ensures Plain("Surface") && Plain("Meublé") && Plain("Nb Pièces") && Plain("DPE")
  {
  }

  lemma HeaderLiteralsPlain3()
    ensures Plain("Chauffage") && Plain("Charges mensuelles")
  {
  }

  lemma HeaderLiteralsPlain4()
    ensures Plain("Charges annuelles") && Plain("Dépôt de garantie")
  {
  }

  lemma HeaderLiteralsPlain5()
    ensures Plain("Parking") && Plain("Cave") && Plain("Terrasse") && Plain("Clim")
  {
  }

  lemma HeaderLiteralsPlain6()
    ensures Plain("Ascenseur") && Plain("Balcon") && Plain("État") && Plain("Date Publication")
  {
  }

  lemma HeaderLiteralsPlain7()
    ensures Plain("Date Contact") && Plain("Date Visite") && Plain("Contact") && Plain("Téléphone")
  {
  }

  lemma HeaderLiteralsPlain8()
    ensures Plain("Adresse") && Plain("Site Web") && Plain("Notes")
  {
  }

  lemma HeaderNamesPlain(c: Column, isLocation: bool)
    ensures var h := HeaderName(c, isLocation); '\n' !in h && ';' !in h
  {
    HeaderLiteralsPlain1();
    HeaderLiteralsPlain2();
    HeaderLiteralsPlain3();
    HeaderLiteralsPlain4();
    HeaderLiteralsPlain5();
    HeaderLiteralsPlain6();
    HeaderLiteralsPlain7();
    HeaderLiteralsPlain8();
    assert Plain(HeaderName(c, isLocation));
  }

  lemma HeaderHasNoBreak(isLocation: bool)
    ensures '\n' !in Join(Headers(isLocation), ";")
  {
    var h := Headers(isLocation);
    forall i | 0 <= i < |h| ensures '\n' !in h[i] {
      HeaderNamesPlain(Columns(isLocation)[i], isLocation);
    }
    JoinAvoids(h, ";", '\n');
  }

  /** The header line splits on ';' back into the header names. */
  lemma HeaderLineFields(isLocation: bool)
    ensures Split(Join(Headers(isLocation), ";"), ';') == Headers(isLocation)
  {
    var h := Headers(isLocation);
    forall i | 0 <= i < |h| ensures ';' !in h[i] {
      HeaderNamesPlain(Columns(isLocation)[i], isLocation);
    }
    SplitJoin(h, ';');
  }
}
