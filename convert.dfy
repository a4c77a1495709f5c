/** The spreadsheet-to-JSON converter for rental listings
    (scripts/convert_xlsx.py): phone number cleaning, equipment parsing,
    the room-count type, and the per-row filtering and field derivation.
    Python conversions whose results this model does not define (the text of
    a float, `float()` and `int()` on text, `round(x, 2)`) are taken as a
    `Builtins` parameter. */
module Convert {
  import opened Wrappers
  import opened Listing
  import opened Text
  import opened Seqs

  /** A cell value as the spreadsheet reader returns it. A date cell carries
      its `strftime("%Y-%m-%d")` form and its `str()` form. */
  datatype Cell = Blank | Str(s: string) | Int(i: int) | Float(f: real) | Bool(b: bool)
                | Date(day: string, text: string)

  /** Python truthiness of a cell. */
  predicate CellTruthy(c: Cell) {
    match c
    case Blank => false
    case Str(s) => s != ""
    case Int(i) => i != 0
    case Float(f) => f != 0.0
    case Bool(b) => b
    case Date(_, _) => true
  }

  /** `repr` of a float, `float(text)` and `int(text)` (`None` when they
      raise), and `round(x, 2)`. */
  datatype Builtins = Builtins(floatText: real -> string, parseFloat: string -> Option<real>,
                               parseInt: string -> Option<int>, round2: real -> real)

  function DigitChar(d: int): (c: char)
    requires 0 <= d < 10
    ensures '0' <= c <= '9'
  {
    ('0' as int + d) as char
  }

  function NatText(n: nat): (s: string)
    ensures |s| >= 1 && forall i :: 0 <= i < |s| ==> '0' <= s[i] <= '9'
  {
    if n < 10 then [DigitChar(n)] else NatText(n / 10) + [DigitChar(n % 10)]
  }

  /** `str(n)` for an integer. */
  function IntText(n: int): string {
    if n < 0 then "-" + NatText(-n) else NatText(n)
  }

  /** `str(cell)`. */
  function StrOf(c: Cell, py: Builtins): string {
    match c
    case Blank => "None"
    case Str(s) => s
    case Int(i) => IntText(i)
    case Float(f) => py.floatText(f)
    case Bool(b) => if b then "True" else "False"
    case Date(_, text) => text
  }

  /** The characters `str.isspace()` accepts. */
  predicate IsSpace(c: char) {
    c == ' ' || '\t' <= c <= '\r' || '\U{1c}' <= c <= '\U{1f}' || c == '\U{85}' ||
    c == '\U{a0}' || c == '\U{1680}' || '\U{2000}' <= c <= '\U{200a}' ||
    c == '\U{2028}' || c == '\U{2029}' || c == '\U{202f}' || c == '\U{205f}' || c == '\U{3000}'
  }

  /** `str.isdigit()` on ASCII and Latin-1: the ten digits and the
      superscripts one, two and three. */
  predicate IsDigit(c: char) {
    '0' <= c <= '9' || c == '²' || c == '³' || c == '¹'
  }

  function StripLeft(s: string): (r: string)
    ensures |r| <= |s| && r == s[|s| - |r|..]
    ensures r == "" || !IsSpace(r[0])
    ensures forall i :: 0 <= i < |s| - |r| ==> IsSpace(s[i])
  {
    if |s| > 0 && IsSpace(s[0]) then StripLeft(s[1..]) else s
  }

  function StripRight(s: string): (r: string)
    ensures |r| <= |s| && r == s[..|r|]
    ensures r == "" || !IsSpace(r[|r| - 1])
    ensures r != "" ==> !IsSpace(r[0]) || (|s| > 0 && IsSpace(s[0]) && r[0] == s[0])
    ensures forall i :: |r| <= i < |s| ==> IsSpace(s[i])
  {
    if |s| > 0 && IsSpace(s[|s| - 1]) then StripRight(s[..|s| - 1]) else s
  }

  /** `s.strip()`: the middle of `s` with only whitespace cut off either
      end; it neither starts nor ends with a space, and leaves such a string
      unchanged. */
  function Strip(s: string): (r: string)
    ensures |r| <= |s|
    ensures r == "" || (!IsSpace(r[0]) && !IsSpace(r[|r| - 1]))
    ensures (s == "" || (!IsSpace(s[0]) && !IsSpace(s[|s| - 1]))) ==> r == s
    ensures exists a, b :: 0 <= a <= b <= |s| && r == s[a..b] &&
              (forall i :: 0 <= i < a ==> IsSpace(s[i])) && (forall i :: b <= i < |s| ==> IsSpace(s[i]))
  {
    var l := StripLeft(s);
    var r := StripRight(l);
    var a := |s| - |l|;
    assert r == s[a..a + |r|];
    r
  }

  // ------------------------------------------------------------ phone numbers

  function WithoutEquals(s: string): (r: string)
    ensures |s| > 0 && s[0] == '=' ==> r == s[1..]
    ensures (|s| == 0 || s[0] != '=') ==> r == s
  {
    if |s| > 0 && s[0] == '=' then s[1..] else s
  }

  function DigitsOf(s: string): (r: string)
    ensures forall c :: c in r ==> IsDigit(c)
    ensures forall c :: c in s && IsDigit(c) ==> c in r
    ensures |r| == CountIf(s, IsDigit)
    ensures IsSubsequence(r, s)
  {
    FilterIsSubsequence(s, IsDigit);
    FilterMembers(s, IsDigit);
    CountIfIsFilterLength(s, IsDigit);
    Filter(s, IsDigit)
  }

  /** A leading "33" on more than nine digits becomes "0". */
  function NationalForm(d: string): (r: string)
    ensures |d| > 9 && d[..2] == "33" ==> r == "0" + d[2..] && |r| == |d| - 1
    ensures !(|d| > 9 && d[..2] == "33") ==> r == d
  {
    if |d| > 9 && d[..2] == "33" then "0" + d[2..] else d
  }

  /** Ten characters as their five pairs joined by single spaces. */
  function Grouped(n: string): (r: string)
    requires |n| == 10
  {
    [n[0], n[1], ' ', n[2], n[3], ' ', n[4], n[5], ' ', n[6], n[7], ' ', n[8], n[9]]
  }

  /** Pair `k` sits at positions `3k` and `3k + 1`, with a space after
      every pair but the last. */
  lemma GroupedPositions(n: string)
    requires |n| == 10
    ensures |Grouped(n)| == 14
    ensures forall k :: 0 <= k < 5 ==> Grouped(n)[3 * k] == n[2 * k] && Grouped(n)[3 * k + 1] == n[2 * k + 1]
    ensures forall k :: 0 <= k < 4 ==> Grouped(n)[3 * k + 2] == ' '
  {
    var g := Grouped(n);
    forall k | 0 <= k < 5 ensures g[3 * k] == n[2 * k] && g[3 * k + 1] == n[2 * k + 1] {
      if k == 0 {} else if k == 1 {} else if k == 2 {} else if k == 3 {} else {}
    }
    forall k | 0 <= k < 4 ensures g[3 * k + 2] == ' ' {
      if k == 0 {} else if k == 1 {} else if k == 2 {} else {}
    }
  }

  /** The digits kept from a stripped text, in national form and grouped. */
  function PhoneDigits(stripped: string): string {
    var n := NationalForm(DigitsOf(WithoutEquals(stripped)));
    if |n| == 10 then Grouped(n) else n
  }

  /** `clean_phone_number(tel)` as a value. */
  function CleanPhone(tel: Cell, py: Builtins): string {
    if !CellTruthy(tel) then "" else PhoneDigits(Strip(StrOf(tel, py)))
  }

  /** `"".join(c for c in s if c.isdigit())`. */
  method KeepDigits(s: string) returns (digits: string)
    ensures digits == DigitsOf(s)
  {
    digits := "";
    for i := 0 to |s|
      invariant digits == Filter(s[..i], IsDigit)
    {
      FilterSnoc(s[..i], s[i], IsDigit);
      assert s[..i + 1] == s[..i] + [s[i]];
      if IsDigit(s[i]) {
        digits := digits + [s[i]];
      }
    }
    assert s[..|s|] == s;
  }

  /** `clean_phone_number(tel)`: strips, drops a leading "=", keeps the
      digits, replaces a leading "33" by "0", and groups ten digits in
      pairs. */
  method CleanPhoneNumber(tel: Cell, py: Builtins) returns (r: string)
    ensures r == CleanPhone(tel, py)
  {
    if !CellTruthy(tel) {
      return "";
    }
    var telStr := Strip(StrOf(tel, py));
    ghost var stripped := telStr;
    assert CleanPhone(tel, py) == PhoneDigits(stripped);
    if |telStr| > 0 && telStr[0] == '=' {
      telStr := telStr[1..];
    }
    assert telStr == WithoutEquals(stripped);
    var digits := KeepDigits(telStr);
    assert digits == DigitsOf(WithoutEquals(stripped));
    telStr := digits;
    if |telStr| > 9 && telStr[..2] == "33" {
      telStr := "0" + telStr[2..];
    }
    assert telStr == NationalForm(digits);
    if |telStr| == 10 {
      return Grouped(telStr);
    }
    return telStr;
  }

  /** Five pairs of digits separated by single spaces, or digits only. */
  predicate PhoneShaped(r: string) {
    (|r| == 14 && (forall k :: 0 <= k < 5 ==> IsDigit(r[3 * k]) && IsDigit(r[3 * k + 1])) &&
     forall k :: 0 <= k < 4 ==> r[3 * k + 2] == ' ') ||
    (forall c :: c in r ==> IsDigit(c))
  }

  /** An empty cell gives ""; otherwise the result is either five pairs of
      digits separated by single spaces, or digits only. */
  lemma PhoneShape(tel: Cell, py: Builtins)
    ensures !CellTruthy(tel) ==> CleanPhone(tel, py) == ""
    ensures PhoneShaped(CleanPhone(tel, py))
  {
    if CellTruthy(tel) {
      PhoneDigitsShape(Strip(StrOf(tel, py)));
    }
  }

  lemma PhoneDigitsShape(stripped: string)
    ensures PhoneShaped(PhoneDigits(stripped))
  {
    var d := DigitsOf(WithoutEquals(stripped));
    var n := NationalForm(d);
    NationalFormDigits(d);
    if |n| == 10 {
      GroupedPositions(n);
      forall k | 0 <= k < 5 ensures IsDigit(Grouped(n)[3 * k]) && IsDigit(Grouped(n)[3 * k + 1]) {
        assert n[2 * k] in n && n[2 * k + 1] in n;
      }
    }
  }

  lemma NationalFormDigits(d: string)
    requires forall c :: c in d ==> IsDigit(c)
    ensures forall c :: c in NationalForm(d) ==> IsDigit(c)
  {
    var n := NationalForm(d);
    if |d| > 9 && d[..2] == "33" {
      forall c | c in n ensures IsDigit(c) {
        if c != '0' {
          var j :| 0 <= j < |n| && n[j] == c;
          assert n[j] == d[j + 1];
          assert d[j + 1] in d;
        }
      }
    }
  }

  /** The documented example: the number 33467603160 is cleaned to
      "04 67 60 31 60". */
  lemma PhoneExample(py: Builtins)
    ensures CleanPhone(Str("33467603160"), py) == "04 67 60 31 60"
  {
    ExampleStripped();
    ExampleDigits();
    ExampleNational();
    ExampleGrouped();
  }

  lemma ExampleStripped()
    ensures WithoutEquals(Strip("33467603160")) == "33467603160"
  {}

  lemma ExampleDigits()
    ensures DigitsOf("33467603160") == "33467603160"
  {
    var s := "33467603160";
    assert forall i :: 0 <= i < |s| ==> '0' <= s[i] <= '9';
    AllDigitsKept(s);
  }

  lemma ExampleNational()
    ensures NationalForm("33467603160") == "0467603160"
  {
    assert "33467603160"[..2] == "33";
  }

  lemma ExampleGrouped()
    ensures Grouped("0467603160") == "04 67 60 31 60"
  {
  }

  lemma AllDigitsKept(s: string)
    requires forall i :: 0 <= i < |s| ==> '0' <= s[i] <= '9'
    ensures DigitsOf(s) == s
  {
    FilterAllPass(s, IsDigit);
  }

  // ------------------------------------------------------------ equipment

  datatype Equipments = Equipments(parking: bool, cave: bool, terrasse: bool, clim: bool)

  lemma ClimatisationMentionsClim(t: string)
    ensures Contains(t, "climatisation") ==> Contains(t, "clim")
  {
    if Contains(t, "climatisation") {
      assert IsPrefix("clim", "climatisation");
      ContainsPrefixOf(t, "climatisation", "clim");
    }
  }

  /** `parse_equipments(cell)`: all false for an empty cell, else each flag
      tells whether its word occurs in the lower-cased text. Looking for
      "climatisation" adds nothing to looking for "clim". */
  function ParseEquipments(c: Cell, py: Builtins): (r: Equipments)
    ensures !CellTruthy(c) ==> r == Equipments(false, false, false, false)
    ensures CellTruthy(c) ==>
              var t := Lower(StrOf(c, py));
              r.parking == Contains(t, "parking") && r.cave == Contains(t, "cave") &&
              r.terrasse == Contains(t, "terrasse") && r.clim == Contains(t, "clim")
  {
    if !CellTruthy(c) then Equipments(false, false, false, false)
    else
      var t := Lower(StrOf(c, py));
      ClimatisationMentionsClim(t);
      Equipments(Contains(t, "parking"), Contains(t, "cave"), Contains(t, "terrasse"),
                 Contains(t, "clim") || Contains(t, "climatisation"))
  }

  /** `get_type_format(nb_pieces)`. */
  function TypeFormat(n: int): (r: string)
    ensures n == 1 <==> r == "Studio"
    ensures n == 2 <==> r == "T2"
    ensures n == 3 <==> r == "T3"
    ensures n == 4 <==> r == "T4"
    ensures !(1 <= n <= 4) <==> r == "T5+"
  {
    if n == 1 then "Studio" else if n == 2 then "T2" else if n == 3 then "T3"
    else if n == 4 then "T4" else "T5+"
  }

  // ------------------------------------------------------------ rows

  /** The cells of one sheet row, by header. */
  datatype SheetRow = SheetRow(
    quartier: Cell, typ: Cell, prix: Cell, surface: Cell, pieces: Cell, dpe: Cell,
    chauffage: Cell, chargesAnnuelles: Cell, equipements: Cell, etat: Cell,
    datePublication: Cell, dateContact: Cell, dateVisite: Cell,
    contact: Cell, tel: Cell, adresse: Cell, siteWeb: Cell, notes: Cell)

  /** `float(x) if x else 0`, with 0 when `float` raises. */
  function ToFloat(c: Cell, py: Builtins): real {
    match c
    case Blank => 0.0
    case Str(s) => if s == "" then 0.0 else py.parseFloat(s).GetOr(0.0)
    case Int(i) => i as real
    case Float(f) => f
    case Bool(b) => if b then 1.0 else 0.0
    case Date(_, _) => 0.0
  }

  /** `int(x) if x else 0`, with 0 when `int` raises; a float is truncated
      toward zero. */
  function ToInt(c: Cell, py: Builtins): int {
    match c
    case Blank => 0
    case Str(s) => if s == "" then 0 else py.parseInt(s).GetOr(0)
    case Int(i) => i
    case Float(f) => if f >= 0.0 then f.Floor else -((-f).Floor)
    case Bool(b) => if b then 1 else 0
    case Date(_, _) => 0
  }

  /** `str(x).strip() if x else ""`. */
  function TextOf(c: Cell, py: Builtins): (r: string)
    ensures !CellTruthy(c) ==> r == ""
    ensures CellTruthy(c) ==> r == Strip(StrOf(c, py))
  {
    if CellTruthy(c) then Strip(StrOf(c, py)) else ""
  }

  /** A date column: the ISO day of a date cell, else the stripped text. */
  function DateText(c: Cell, py: Builtins): string {
    if c.Date? then c.day else TextOf(c, py)
  }

  /** A row is kept when its neighbourhood is neither empty nor blank. */
  predicate Keep(row: SheetRow, py: Builtins) {
    CellTruthy(row.quartier) && Strip(StrOf(row.quartier, py)) != ""
  }

  function KeepFor(py: Builtins): SheetRow -> bool {
    (row: SheetRow) => Keep(row, py)
  }

  /** Monthly charges before rounding: a twelfth of positive annual
      charges, else 0. */
  function MonthlyCharges(annual: real): (m: real)
    ensures annual > 0.0 ==> m * 12.0 == annual
    ensures annual <= 0.0 ==> m == 0.0
  {
    if annual > 0.0 then annual / 12.0 else 0.0
  }

  /** The record built for a kept row: the given id; the price column as
      rent and as deposit, no purchase price; the charges rounded, the
      monthly ones a twelfth of positive annual ones; the type from the room
      count, kept too; no lift or balcony; a furnished flag only for the
      exact text "Meublé"; the DPE stripped and upper-cased; the equipment
      flags parsed; a date cell as its ISO day and any other cell stripped;
      the phone number cleaned. */
  function ConvertRow(row: SheetRow, id: int, py: Builtins): (b: Bien)
    ensures b.id == id && b.quartier == Strip(StrOf(row.quartier, py))
    ensures b.loyer == Some(ToFloat(row.prix, py)) && b.depotGarantie == b.loyer && b.prix.None?
    ensures b.chargesAnnuelles == Some(py.round2(ToFloat(row.chargesAnnuelles, py)))
    ensures b.charges == Some(py.round2(MonthlyCharges(ToFloat(row.chargesAnnuelles, py))))
    ensures b.typ == TypeFormat(ToInt(row.pieces, py))
    ensures b.meuble <==> Strip(StrOf(row.typ, py)) == "Meublé"
    ensures !b.ascenseur && !b.balcon
    ensures b.tel == CleanPhone(row.tel, py)
    ensures b.surface == Some(ToInt(row.surface, py) as real) && b.pieces == Some(ToInt(row.pieces, py))
    ensures b.dpe == (if CellTruthy(row.dpe) then Upper(Strip(StrOf(row.dpe, py))) else "")
    ensures var eq := ParseEquipments(row.equipements, py);
            b.parking == eq.parking && b.cave == eq.cave && b.terrasse == eq.terrasse && b.clim == eq.clim
    ensures row.datePublication.Date? ==> b.datePublication == row.datePublication.day
    ensures row.dateContact.Date? ==> b.dateContact == row.dateContact.day
    ensures row.dateVisite.Date? ==> b.dateVisite == row.dateVisite.day
    ensures !row.datePublication.Date? ==> b.datePublication == TextOf(row.datePublication, py)
    ensures !row.dateContact.Date? ==> b.dateContact == TextOf(row.dateContact, py)
    ensures !row.dateVisite.Date? ==> b.dateVisite == TextOf(row.dateVisite, py)
    ensures b.chauffage == TextOf(row.chauffage, py) && b.etat == TextOf(row.etat, py)
    ensures b.contact == TextOf(row.contact, py) && b.adresse == TextOf(row.adresse, py)
    ensures b.siteWeb == TextOf(row.siteWeb, py) && b.notes == TextOf(row.notes, py)
  {
    var loyer := ToFloat(row.prix, py);
    var annual := ToFloat(row.chargesAnnuelles, py);
    var pieces := ToInt(row.pieces, py);
    var eq := ParseEquipments(row.equipements, py);
    Bien(id, Strip(StrOf(row.quartier, py)), TypeFormat(pieces),
         None, Some(loyer), Some(ToInt(row.surface, py) as real), Some(pieces),
         Strip(StrOf(row.typ, py)) == "Meublé",
         if CellTruthy(row.dpe) then Upper(Strip(StrOf(row.dpe, py))) else "",
         TextOf(row.chauffage, py),
         Some(py.round2(MonthlyCharges(annual))), Some(py.round2(annual)), Some(loyer),
         eq.parking, eq.cave, eq.terrasse, eq.clim, false, false,
         TextOf(row.etat, py),
         DateText(row.datePublication, py), DateText(row.dateContact, py), DateText(row.dateVisite, py),
         TextOf(row.contact, py), CleanPhone(row.tel, py), TextOf(row.siteWeb, py),
         TextOf(row.adresse, py), TextOf(row.notes, py))
  }

  function ConvertFor(py: Builtins): (SheetRow, int) -> Bien {
    (row: SheetRow, id: int) => ConvertRow(row, id, py)
  }

  /** The records for the sheet's rows, as the loop builds them: the kept
      rows converted in order, numbered from 1. */
  function Converted(rows: seq<SheetRow>, py: Builtins): seq<Bien> {
    KeptNumbered(rows, KeepFor(py), ConvertFor(py))
  }

  /** The output is the kept rows, in sheet order, converted and numbered
      from 1; blank rows leave no gap in the numbering. */
  lemma ConvertedSpec(rows: seq<SheetRow>, py: Builtins)
    ensures var kept := Filter(rows, KeepFor(py));
            var out := Converted(rows, py);
            |out| == |kept| &&
            forall i :: 0 <= i < |out| ==> out[i] == ConvertRow(kept[i], i + 1, py)
  {
    KeptNumberedSpec(rows, KeepFor(py), ConvertFor(py));
  }

  /** Ids are 1, 2, 3, … and every neighbourhood is non-blank. */
  lemma ConvertedIds(rows: seq<SheetRow>, py: Builtins)
    ensures var out := Converted(rows, py);
            |out| == CountIf(rows, KeepFor(py)) &&
            forall i :: 0 <= i < |out| ==> out[i].id == i + 1 && out[i].quartier != ""
  {
    ConvertedSpec(rows, py);
    CountIfIsFilterLength(rows, KeepFor(py));
    var kept := Filter(rows, KeepFor(py));
    FilterMembers(rows, KeepFor(py));
    forall i | 0 <= i < |kept| ensures Keep(kept[i], py) {
      assert kept[i] in kept;
    }
  }

  /** `convert_xlsx_to_json`'s loop over the data rows. */
  method ConvertRows(rows: seq<SheetRow>, py: Builtins) returns (appartements: seq<Bien>)
    ensures appartements == Converted(rows, py)
  {
    appartements := [];
    var idCounter := 1;
    var i := 0;
    while i < |rows|
      invariant 0 <= i <= |rows|
      invariant appartements == Converted(rows[..i], py)
      invariant idCounter == |appartements| + 1
    {
      var row := rows[i];
      assert rows[..i + 1][..i] == rows[..i];
      if Keep(row, py) {
        appartements := appartements + [ConvertRow(row, idCounter, py)];
        idCounter := idCounter + 1;
      }
      i := i + 1;
    }
    assert rows[..i] == rows;
  }
}
