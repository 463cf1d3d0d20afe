/** The field normalisers of the customer-export conversion script and the
    mapping from one export row to one contact-template row. */
module Conversion {
  import opened Strings
  import opened CsvInput
  import opened Results

  /** The country code written for every contact (Mexico). */
  const MexicoCountryCode := "52"
  /** Prefix of a WhatsApp number built from a ten-digit local number. */
  const MobilePrefix := "521"

  datatype NameParts = NameParts(first: string, rest: string)

  /** `split_name`: the name is stripped and split once on whitespace. */
  function SplitName(fullName: string): (r: NameParts)
    ensures Split(fullName) == [] ==> r == NameParts("", "")
    ensures Split(fullName) != [] ==>
      r.first == Split(fullName)[0] && Split(r.rest) == Split(fullName)[1..]
    ensures NoWhitespace(r.first)
    ensures Trimmed(r.rest)
  {
    var t := Strip(fullName);
    SplitOfStrip(fullName);
    if t == [] then NameParts("", "")
    else
      var w := Token(t);
      var rest := TrimStart(t[|w|..]);
      StrippedWords(fullName);
      SplitOfTrimStart(t[|w|..]);
      RestEnds(t);
      NameParts(w, rest)
  }

  /** The stripped name is the first part, a run of whitespace, and the
      rest: nothing but that one run is dropped. */
  lemma SplitNameGap(fullName: string)
    ensures var r := SplitName(fullName);
      SplitsAtGap(Strip(fullName), r.first, r.rest)
  {
    var t := Strip(fullName);
    if t != [] {
      GapAfterToken(t);
    }
  }

  /** A one-word name has an empty remainder; a name of two or more words
      has a non-empty one. */
  lemma SplitNameWordCount(fullName: string)
    ensures |Split(fullName)| == 1 ==> SplitName(fullName) == NameParts(Split(fullName)[0], "")
    ensures |Split(fullName)| >= 2 ==> SplitName(fullName).rest != []
  {
    var r := SplitName(fullName);
    assert r.rest != [] ==> !IsWhitespace(r.rest[0]);
  }

  /** `t` is `first`, then a run of whitespace, then `rest`; the run is
      not empty when `rest` is not. */
  predicate SplitsAtGap(t: string, first: string, rest: string) {
    && |first| + |rest| <= |t|
    && t[..|first|] == first
    && t[|t| - |rest|..] == rest
    && AllWhitespace(t[|first|..|t| - |rest|])
    && (rest != [] ==> |first| + |rest| < |t|)
  }

  /** After the first token comes the whitespace run `strip().split(maxsplit=1)`
      drops, then the remainder. */
  lemma GapAfterToken(t: string)
    ensures SplitsAtGap(t, Token(t), TrimStart(t[|Token(t)|..]))
  {
    var w := Token(t);
    var u := t[|w|..];
    var rest := TrimStart(u);
    assert t[|t| - |rest|..] == u[|u| - |rest|..];
    assert t[|w|..|t| - |rest|] == u[..|u| - |rest|];
    assert u != [] ==> IsWhitespace(u[0]);
    assert rest != [] ==> rest[0] == u[|u| - |rest|];
  }

  /** Neither end is whitespace: what `strip()` leaves. */
  predicate Trimmed(s: string) {
    s == [] || (!IsWhitespace(s[0]) && !IsWhitespace(s[|s| - 1]))
  }

  /** What follows the first word of a stripped name, once its leading
      whitespace is gone, starts and ends with non-whitespace. */
  lemma RestEnds(t: string)
    requires t != [] && !IsWhitespace(t[|t| - 1])
    ensures Trimmed(TrimStart(t[|Token(t)|..]))
  {
    var u := t[|Token(t)|..];
    var rest := TrimStart(u);
    if rest != [] {
      assert rest[|rest| - 1] == u[|u| - 1] == t[|t| - 1];
    }
  }

  /** A stripped, non-blank name starts and ends with a non-whitespace
      character, and its words are its first token followed by the words
      of what comes after it. */
  lemma StrippedWords(s: string)
    requires Strip(s) != []
    ensures var t := Strip(s);
      && !IsWhitespace(t[0]) && !IsWhitespace(t[|t| - 1])
      && Split(t) == [Token(t)] + Split(t[|Token(t)|..])
  {
    var t := Strip(s);
    var u := TrimStart(s);
    assert t[0] == u[0];
    assert TrimStart(t) == t;
    SplitUnfold(t);
  }

  datatype LocationInfo = LocationInfo(country: string, location: string)

  /** `extract_location_info`: the country is always Mexico's code, and the
      location is kept unless it is blank or a lone dash. */
  function ExtractLocationInfo(location: string): (r: LocationInfo)
    ensures r.country == MexicoCountryCode
    ensures r.location == [] <==> (location == [] || location == "-")
    ensures r.location != [] ==> r.location == location
  {
    if location == [] || location == "-" then LocationInfo(MexicoCountryCode, "")
    else LocationInfo(MexicoCountryCode, location)
  }

  predicate IsSeparator(c: char) {
    c == '+' || c == '-' || c == ' '
  }

  predicate NoSeparators(s: string) {
    forall i :: 0 <= i < |s| ==> !IsSeparator(s[i])
  }

  /** The phone text with every separator dropped in one pass, the digits
      and other characters kept in their order. */
  function RemoveSeparators(s: string): string
  {
    if s == [] then []
    else (if IsSeparator(s[0]) then [] else [s[0]]) + RemoveSeparators(s[1..])
  }

  /** Dropping '+', then '-', then ' ' is the same as dropping all three
      separators at once. */
  lemma {:induction false} ThreeFiltersRemoveSeparators(s: string)
    ensures Without(Without(Without(s, '+'), '-'), ' ') == RemoveSeparators(s)
    decreases |s|
  {
    if s != [] {
      var x, a := s[0], Without(s[1..], '+');
      var b := Without(a, '-');
      var tail := Without(b, ' ');
      assert tail == RemoveSeparators(s[1..]) by {
        ThreeFiltersRemoveSeparators(s[1..]);
      }
      assert s == [x] + s[1..];
      WithoutCons(x, s[1..], '+');
      RemoveSeparatorsCons(x, s[1..]);
      if x == '+' {
        assert [] + a == a;
      } else {
        WithoutCons(x, a, '-');
        if x == '-' {
          assert [] + b == b;
        } else {
          WithoutCons(x, b, ' ');
        }
      }
    }
  }

  lemma RemoveSeparatorsCons(x: char, t: string)
    ensures RemoveSeparators([x] + t) == (if IsSeparator(x) then [] else [x]) + RemoveSeparators(t)
  {
    assert ([x] + t)[1..] == t;
  }

  lemma WithoutCons(x: char, t: string, c: char)
    ensures Without([x] + t, c) == (if x == c then [] else [x]) + Without(t, c)
  {
    assert ([x] + t)[1..] == t;
  }

  /** The phone text with every '+', '-' and ' ' removed, in the order
      `clean_phone` removes them. */
  function Compact(phone: string): (r: string)
    ensures r == RemoveSeparators(phone)
    ensures forall c :: c in r <==> c in phone && !IsSeparator(c)
  {
    var a := Replace(phone, "+", "");
    var b := Replace(a, "-", "");
    ReplaceDeletes(phone, '+');
    ReplaceDeletes(a, '-');
    ReplaceDeletes(b, ' ');
    ThreeFiltersRemoveSeparators(phone);
    Replace(b, " ", "")
  }

  function Min(a: int, b: int): int {
    if a < b then a else b
  }

  /** `clean_phone`: separators dropped, then either the "52" country code
      cut off a long number or the number cut to its last ten characters. */
  function CleanPhone(phone: string): (r: string)
    ensures phone == [] || phone == "-" ==> r == []
    ensures NoSeparators(r)
    ensures forall c :: c in r ==> c in phone
    ensures phone != [] && phone != "-" ==>
      var p := Compact(phone);
      if |p| > 10 && p[..2] == MexicoCountryCode then r == p[2..]
      else |r| == Min(|p|, 10) && r == p[|p| - |r|..]
  {
    if phone == [] || phone == "-" then []
    else
      var p := Compact(phone);
      var r :=
        if |p| >= 2 && p[..2] == MexicoCountryCode && |p| > 10 then p[2..]
        else if |p| >= 10 then p[|p| - 10..]
        else p;
      assert forall i :: 0 <= i < |r| ==> r[i] in p;
      r
  }

  /** `format_whatsapp`: Mexico's code in front of the cleaned number, with
      the mobile "1" as well when the number has exactly ten characters. */
  function FormatWhatsapp(phone: string): (r: string)
    ensures r == [] <==> CleanPhone(phone) == []
    ensures r != [] ==>
      var c := CleanPhone(phone);
      |r| > |c| && r[..2] == MexicoCountryCode && r[|r| - |c|..] == c
      && (r[..|r| - |c|] == MobilePrefix <==> |c| == 10)
      && (r[..|r| - |c|] == MexicoCountryCode <==> |c| != 10)
  {
    if phone == [] then []
    else
      var c := CleanPhone(phone);
      if c != [] then
        if |c| == 10 then MobilePrefix + c else MexicoCountryCode + c
      else []
  }

  /** A row of the contact template, one field per output column. */
  datatype ContactRow = ContactRow(
    nombre: string, apellidos: string, telefono: string, whatsapp: string,
    pais: string, email: string, presupuesto: string, estadoCivil: string,
    genero: string, ocupacion: string, ingreso: string, nombreConyuge: string,
    telefonoConyuge: string, ocupacionConyuge: string, ingresoConyuge: string,
    notas: string)

  /** The nine survey and spouse columns the export has no data for. */
  predicate SurveyFieldsEmpty(c: ContactRow) {
    c.presupuesto == [] && c.estadoCivil == [] && c.genero == [] && c.ocupacion == []
    && c.ingreso == [] && c.nombreConyuge == [] && c.telefonoConyuge == []
    && c.ocupacionConyuge == [] && c.ingresoConyuge == []
  }

  function Notes(row: Row): string {
    "Subscribed via " + Get(row, PopupColumn, "popup") + " on " + Get(row, SubscriptionDateColumn, "")
  }

  /** The body of the conversion loop for one export row; a missing name or
      email column raises `KeyError`, reported here by the column's name. */
  function ConvertRow(row: Row): (r: Result<ContactRow, string>)
    ensures NameColumn !in row ==> r == Err(NameColumn)
    ensures NameColumn in row && EmailColumn !in row ==> r == Err(EmailColumn)
    ensures NameColumn in row && EmailColumn in row ==>
      && r.Ok?
      && r.value.email == row[EmailColumn]
      && SurveyFieldsEmpty(r.value)
      && r.value.notas == Notes(row)
      && r.value.pais == MexicoCountryCode
      && r.value.nombre == SplitName(row[NameColumn]).first
      && r.value.apellidos == SplitName(row[NameColumn]).rest
      && r.value.telefono == CleanPhone(Get(row, PhoneColumn, ""))
      && r.value.whatsapp == FormatWhatsapp(Get(row, PhoneColumn, ""))
  {
    if NameColumn !in row then Err(NameColumn)
    else
      var name := SplitName(row[NameColumn]);
      var phone := Get(row, PhoneColumn, "");
      var loc := ExtractLocationInfo(Get(row, LocationColumn, ""));
      if EmailColumn !in row then Err(EmailColumn)
      else Ok(ContactRow(
        name.first, name.rest, CleanPhone(phone), FormatWhatsapp(phone), loc.country,
        row[EmailColumn], "", "", "", "", "", "", "", "", "", Notes(row)))
  }

  /** The WhatsApp column of a converted row always ends with its phone
      column, behind a "52" prefix. */
  lemma WhatsappExtendsTelefono(row: Row)
    requires ConvertRow(row).Ok?
    ensures var c := ConvertRow(row).value;
      c.whatsapp == [] <==> c.telefono == []
    ensures var c := ConvertRow(row).value;
      c.whatsapp != [] ==>
        c.whatsapp[..2] == MexicoCountryCode && c.whatsapp[|c.whatsapp| - |c.telefono|..] == c.telefono
  {
  }

  /** `written` holds, in order, what `convert` makes of the first
      `|written|` export rows. */
  predicate ConvertedPrefix(convert: Row -> Result<ContactRow, string>, rows: seq<Row>, written: seq<ContactRow>) {
    |written| <= |rows| && forall k :: 0 <= k < |written| ==> convert(rows[k]) == Ok(written[k])
  }

  lemma ConvertedPrefixStep(convert: Row -> Result<ContactRow, string>, rows: seq<Row>,
                            written: seq<ContactRow>, c: ContactRow)
    requires ConvertedPrefix(convert, rows, written) && |written| < |rows|
    requires convert(rows[|written|]) == Ok(c)
    ensures ConvertedPrefix(convert, rows, written + [c])
  {
    var w := written + [c];
    forall k | 0 <= k < |w| ensures convert(rows[k]) == Ok(w[k]) {
      if k < |written| {
        assert w[k] == written[k];
      } else {
        assert w[k] == c;
      }
    }
  }

  /** `convert_customers`: one contact row written per export row, in order;
      `crash` is the missing column of the row that stopped the loop. */
  method ConvertCustomers(content: string, parse: string -> seq<Row>)
    returns (written: seq<ContactRow>, converted: nat, crash: Option<string>)
    ensures var rows := parse(StripBom(content));
      && converted == |written| <= |rows|
      && (forall k :: 0 <= k < |written| ==> ConvertRow(rows[k]) == Ok(written[k]))
      && (crash.None? <==> |written| == |rows|)
      && (crash.Some? ==> ConvertRow(rows[|written|]) == Err(crash.value))
  {
    var rows := parse(StripBom(content));
    written, converted, crash := [], 0, None;
    for i := 0 to |rows|
      invariant converted == |written| == i
      invariant ConvertedPrefix(ConvertRow, rows, written)
    {
      var out := ConvertRow(rows[i]);
      if out.Err? {
        crash := Some(out.error);
        return;
      }
      ConvertedPrefixStep(ConvertRow, rows, written, out.value);
      written := written + [out.value];
      converted := converted + 1;
    }
  }
}
