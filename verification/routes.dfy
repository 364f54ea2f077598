/** The `/countries...` route handlers. Each is a pure function of the
    dataset (loaded once and never written), the route's parameter and the
    optional `fields` query parameter, and returns the status and JSON body
    the handler would send. */
module Routes {
  import opened Assoc
  import opened Json
  import opened Text
  import opened Projection
  import opened Countries
  import opened Selection

  /** What a handler sends: an HTTP status and a JSON body. */
  datatype Response = Response(status: nat, body: Json)

  const CodesRequired: string := "Query parameter 'codes' is required"

  // ---------------------------------------------------------------------
  // Match rules, one per route
  // ---------------------------------------------------------------------

  /** `/name`: the lower-cased parameter occurs in the lower-cased common
      or official name. */
  function NameIncludes(c: Country, name: string): (b: bool)
    ensures b <==> ((exists i :: OccursAt(Lower(c.name.common), Lower(name), i)) ||
                    (exists i :: OccursAt(Lower(c.name.official), Lower(name), i)))
  {
    Includes(Lower(c.name.common), Lower(name)) || Includes(Lower(c.name.official), Lower(name))
  }

  /** `/fullname`: the common or official name equals the parameter,
      ignoring case. */
  predicate NameEquals(c: Country, name: string) {
    Lower(c.name.common) == Lower(name) || Lower(c.name.official) == Lower(name)
  }

  /** `country.cioc` is truthy: present and not the empty string. */
  predicate HasCioc(c: Country) {
    c.cioc.Some? && c.cioc.value != ""
  }

  /** `/code` and `/alpha`: the letter codes ignore case, the numeric code
      is compared as is, and a record without an IOC code never matches on it. */
  function CodeMatches(c: Country, code: string): (b: bool)
    ensures HasRawCode(c, code) ==> b
  {
    || Lower(c.cca2) == Lower(code)
    || Lower(c.cca3) == Lower(code)
    || c.ccn3 == Some(code)
    || (HasCioc(c) && Lower(c.cioc.value) == Lower(code))
  }

  /** `/codes`: one of the record's raw codes is in the list (case matters). */
  function InCodeList(c: Country, codes: seq<string>): (b: bool)
    ensures b <==> exists k :: k in codes && HasRawCode(c, k)
  {
    || c.cca2 in codes
    || c.cca3 in codes
    || (c.ccn3.Some? && c.ccn3.value in codes)
    || (HasCioc(c) && c.cioc.value in codes)
  }

  /** One raw code of the record is exactly `code`. */
  predicate HasRawCode(c: Country, code: string) {
    c.cca2 == code || c.cca3 == code || c.ccn3 == Some(code) || (HasCioc(c) && c.cioc.value == code)
  }

  /** `/currency`: the currency code is a key of the record's currencies. */
  function HasCurrency(c: Country, currency: string): (b: bool)
    ensures b <==> c.currencies.Some? && currency in KeySet(c.currencies.value)
  {
    c.currencies.Some? && Lookup(c.currencies.value, currency).Some?
  }

  /** `/demonym`: the English masculine or feminine demonym equals the
      parameter, ignoring case; no demonyms or no English entry never match. */
  function DemonymEquals(c: Country, demonym: string): (b: bool)
    ensures b ==> c.demonyms.Some? && "eng" in KeySet(c.demonyms.value)
  {
    c.demonyms.Some? &&
    match Lookup(c.demonyms.value, "eng")
    case None => false
    case Some(d) => Lower(d.m) == Lower(demonym) || Lower(d.f) == Lower(demonym)
  }

  /** `/lang`: the parameter is one of the language names, exactly. */
  function SpeaksLanguage(c: Country, language: string): (b: bool)
    ensures b <==> c.languages.Some? && exists i :: 0 <= i < |c.languages.value| && c.languages.value[i].1 == language
  {
    c.languages.Some? && language in Values(c.languages.value)
  }

  /** `/capital`: the parameter is one of the capitals, exactly. */
  predicate HasCapital(c: Country, capital: string) {
    c.capital.Some? && capital in c.capital.value
  }

  /** `/region`: equal region, ignoring case. */
  predicate InRegion(c: Country, region: string) {
    Lower(c.region) == Lower(region)
  }

  /** `/subregion`: equal subregion, ignoring case. */
  predicate InSubregion(c: Country, subregion: string) {
    Lower(c.subregion) == Lower(subregion)
  }

  /** `/translation`: some translation's common name equals the parameter,
      ignoring case. */
  function TranslationEquals(c: Country, translation: string): (b: bool)
    ensures b <==> c.translations.Some? && exists t :: t in Values(c.translations.value) && Lower(t.common) == Lower(translation)
  {
    c.translations.Some? &&
    exists i :: 0 <= i < |c.translations.value| && Lower(c.translations.value[i].1.common) == Lower(translation)
  }

  // ---------------------------------------------------------------------
  // Selections: which records a route answers with
  // ---------------------------------------------------------------------

  function ByName(ds: seq<Country>, name: string): (r: seq<Country>)
    ensures forall i :: 0 <= i < |r| ==> NameIncludes(r[i], name)
    ensures forall i :: 0 <= i < |ds| && NameIncludes(ds[i], name) ==> ds[i] in r
    ensures forall c :: c in r ==> c in ds
  {
    Filter(ds, c => NameIncludes(c, name))
  }

  function ByFullName(ds: seq<Country>, name: string): (r: seq<Country>)
    ensures forall i :: 0 <= i < |r| ==> NameEquals(r[i], name)
    ensures forall i :: 0 <= i < |ds| && NameEquals(ds[i], name) ==> ds[i] in r
    ensures forall c :: c in r ==> c in ds
  {
    Filter(ds, c => NameEquals(c, name))
  }

  /** The first record, in dataset order, whose code matches. */
  function FindByCode(ds: seq<Country>, code: string): (r: Option<Country>)
    ensures r.Some? ==> CodeMatches(r.value, code)
    ensures r.Some? ==> exists i :: 0 <= i < |ds| && ds[i] == r.value && forall j :: 0 <= j < i ==> !CodeMatches(ds[j], code)
    ensures r.None? <==> forall i :: 0 <= i < |ds| ==> !CodeMatches(ds[i], code)
  {
    Find(ds, c => CodeMatches(c, code))
  }

  function ByCodes(ds: seq<Country>, codes: seq<string>): (r: seq<Country>)
    ensures forall i :: 0 <= i < |r| ==> InCodeList(r[i], codes)
    ensures forall i :: 0 <= i < |ds| && InCodeList(ds[i], codes) ==> ds[i] in r
    ensures forall c :: c in r ==> c in ds
  {
    Filter(ds, c => InCodeList(c, codes))
  }

  function ByCurrency(ds: seq<Country>, currency: string): (r: seq<Country>)
    ensures forall i :: 0 <= i < |r| ==> HasCurrency(r[i], currency)
    ensures forall i :: 0 <= i < |ds| && HasCurrency(ds[i], currency) ==> ds[i] in r
    ensures forall c :: c in r ==> c in ds
  {
    Filter(ds, c => HasCurrency(c, currency))
  }

  function ByDemonym(ds: seq<Country>, demonym: string): (r: seq<Country>)
    ensures forall i :: 0 <= i < |r| ==> DemonymEquals(r[i], demonym)
    ensures forall i :: 0 <= i < |ds| && DemonymEquals(ds[i], demonym) ==> ds[i] in r
    ensures forall c :: c in r ==> c in ds
  {
    Filter(ds, c => DemonymEquals(c, demonym))
  }

  function ByLanguage(ds: seq<Country>, language: string): (r: seq<Country>)
    ensures forall i :: 0 <= i < |r| ==> SpeaksLanguage(r[i], language)
    ensures forall i :: 0 <= i < |ds| && SpeaksLanguage(ds[i], language) ==> ds[i] in r
    ensures forall c :: c in r ==> c in ds
  {
    Filter(ds, c => SpeaksLanguage(c, language))
  }

  function ByCapital(ds: seq<Country>, capital: string): (r: seq<Country>)
    ensures forall i :: 0 <= i < |r| ==> HasCapital(r[i], capital)
    ensures forall i :: 0 <= i < |ds| && HasCapital(ds[i], capital) ==> ds[i] in r
    ensures forall c :: c in r ==> c in ds
  {
    Filter(ds, c => HasCapital(c, capital))
  }

  function ByRegion(ds: seq<Country>, region: string): (r: seq<Country>)
    ensures forall i :: 0 <= i < |r| ==> InRegion(r[i], region)
    ensures forall i :: 0 <= i < |ds| && InRegion(ds[i], region) ==> ds[i] in r
    ensures forall c :: c in r ==> c in ds
  {
    Filter(ds, c => InRegion(c, region))
  }

  function BySubregion(ds: seq<Country>, subregion: string): (r: seq<Country>)
    ensures forall i :: 0 <= i < |r| ==> InSubregion(r[i], subregion)
    ensures forall i :: 0 <= i < |ds| && InSubregion(ds[i], subregion) ==> ds[i] in r
    ensures forall c :: c in r ==> c in ds
  {
    Filter(ds, c => InSubregion(c, subregion))
  }

  function ByTranslation(ds: seq<Country>, translation: string): (r: seq<Country>)
    ensures forall i :: 0 <= i < |r| ==> TranslationEquals(r[i], translation)
    ensures forall i :: 0 <= i < |ds| && TranslationEquals(ds[i], translation) ==> ds[i] in r
    ensures forall c :: c in r ==> c in ds
  {
    Filter(ds, c => TranslationEquals(c, translation))
  }

  // ---------------------------------------------------------------------
  // Responses
  // ---------------------------------------------------------------------

  function EncodeAll(cs: seq<Country>): seq<Json> {
    seq(|cs|, i requires 0 <= i < |cs| => ToJson(cs[i]))
  }

  /** A 200 answer listing the records in order, each trimmed to `fields`. */
  function ListResponse(cs: seq<Country>, fields: Option<string>): (r: Response)
    ensures r.status == 200 && r.body.Arr? && |r.body.items| == |cs|
    ensures forall i :: 0 <= i < |cs| ==> r.body.items[i] == FilterFields(ToJson(cs[i]), fields)
  {
    var items := EncodeAll(cs);
    assert forall i :: 0 <= i < |cs| ==> !items[i].Arr?;
    Response(200, FilterFields(Arr(items), fields))
  }

  /** A 200 answer with the found record trimmed to `fields`, or `{}` when
      nothing was found, whatever `fields` asks for. */
  function SingleResponse(found: Option<Country>, fields: Option<string>): (r: Response)
    ensures r.status == 200
    ensures found.Some? ==> r.body == FilterFields(ToJson(found.value), fields)
    ensures found.None? ==> r.body == Obj([])
  {
    if found.Some? then Response(200, FilterFields(ToJson(found.value), fields))
    else
      assert fields.Some? && fields.value != "" ==> FilterFields(Obj([]), fields) == Obj([]) by {
        if fields.Some? && fields.value != "" {
          ProjectEmpty(FieldList(fields.value));
        }
      }
      Response(200, FilterFields(Obj([]), fields))
  }

  /** GET /countries */
  function AllRoute(ds: seq<Country>, fields: Option<string>): (r: Response)
    ensures r.status == 200 && r.body.Arr? && |r.body.items| == |ds|
    ensures forall i :: 0 <= i < |ds| ==> r.body.items[i] == FilterFields(ToJson(ds[i]), fields)
  {
    ListResponse(ds, fields)
  }

  /** GET /countries/name/:name */
  function NameRoute(ds: seq<Country>, name: string, fields: Option<string>): (r: Response)
    ensures r.status == 200 && r.body.Arr? && |r.body.items| == |ByName(ds, name)|
    ensures forall i :: 0 <= i < |ByName(ds, name)| ==> r.body.items[i] == FilterFields(ToJson(ByName(ds, name)[i]), fields)
  {
    ListResponse(ByName(ds, name), fields)
  }

  /** GET /countries/fullname/:name */
  function FullNameRoute(ds: seq<Country>, name: string, fields: Option<string>): (r: Response)
    ensures r.status == 200 && r.body.Arr? && |r.body.items| == |ByFullName(ds, name)|
    ensures forall i :: 0 <= i < |ByFullName(ds, name)| ==> r.body.items[i] == FilterFields(ToJson(ByFullName(ds, name)[i]), fields)
  {
    ListResponse(ByFullName(ds, name), fields)
  }

  /** GET /countries/code/:code */
  function CodeRoute(ds: seq<Country>, code: string, fields: Option<string>): (r: Response)
    ensures r.status == 200
    ensures FindByCode(ds, code).Some? ==> r.body == FilterFields(ToJson(FindByCode(ds, code).value), fields)
    ensures FindByCode(ds, code).None? ==> r.body == Obj([])
  {
    SingleResponse(FindByCode(ds, code), fields)
  }

  /** GET /countries/alpha/:code, the same lookup under a second path. */
  function AlphaRoute(ds: seq<Country>, code: string, fields: Option<string>): (r: Response)
    ensures r.status == 200
    ensures FindByCode(ds, code).Some? ==> r.body == FilterFields(ToJson(FindByCode(ds, code).value), fields)
    ensures FindByCode(ds, code).None? ==> r.body == Obj([])
  {
    SingleResponse(FindByCode(ds, code), fields)
  }

  /** GET /countries/codes?codes=a,b,...: without a (non-empty) `codes`
      parameter the answer is a 400 and nothing is looked up. */
  function CodesRoute(ds: seq<Country>, codes: Option<string>, fields: Option<string>): (r: Response)
    ensures codes.None? || codes.value == "" ==> r == Response(400, Obj([("error", Str(CodesRequired))]))
    ensures codes.Some? && codes.value != "" ==>
      var sel := ByCodes(ds, Split(codes.value, ','));
      r.status == 200 && r.body.Arr? && |r.body.items| == |sel| &&
      forall i :: 0 <= i < |sel| ==> r.body.items[i] == FilterFields(ToJson(sel[i]), fields)
  {
    if codes.None? || codes.value == "" then Response(400, Obj([("error", Str(CodesRequired))]))
    else ListResponse(ByCodes(ds, Split(codes.value, ',')), fields)
  }

  /** GET /countries/currency/:currency */
  function CurrencyRoute(ds: seq<Country>, currency: string, fields: Option<string>): (r: Response)
    ensures r.status == 200 && r.body.Arr? && |r.body.items| == |ByCurrency(ds, currency)|
    ensures forall i :: 0 <= i < |ByCurrency(ds, currency)| ==> r.body.items[i] == FilterFields(ToJson(ByCurrency(ds, currency)[i]), fields)
  {
    ListResponse(ByCurrency(ds, currency), fields)
  }

  /** GET /countries/demonym/:demonym */
  function DemonymRoute(ds: seq<Country>, demonym: string, fields: Option<string>): (r: Response)
    ensures r.status == 200 && r.body.Arr? && |r.body.items| == |ByDemonym(ds, demonym)|
    ensures forall i :: 0 <= i < |ByDemonym(ds, demonym)| ==> r.body.items[i] == FilterFields(ToJson(ByDemonym(ds, demonym)[i]), fields)
  {
    ListResponse(ByDemonym(ds, demonym), fields)
  }

  /** GET /countries/lang/:language */
  function LanguageRoute(ds: seq<Country>, language: string, fields: Option<string>): (r: Response)
    ensures r.status == 200 && r.body.Arr? && |r.body.items| == |ByLanguage(ds, language)|
    ensures forall i :: 0 <= i < |ByLanguage(ds, language)| ==> r.body.items[i] == FilterFields(ToJson(ByLanguage(ds, language)[i]), fields)
  {
    ListResponse(ByLanguage(ds, language), fields)
  }

  /** GET /countries/capital/:capital */
  function CapitalRoute(ds: seq<Country>, capital: string, fields: Option<string>): (r: Response)
    ensures r.status == 200 && r.body.Arr? && |r.body.items| == |ByCapital(ds, capital)|
    ensures forall i :: 0 <= i < |ByCapital(ds, capital)| ==> r.body.items[i] == FilterFields(ToJson(ByCapital(ds, capital)[i]), fields)
  {
    ListResponse(ByCapital(ds, capital), fields)
  }

  /** GET /countries/region/:region */
  function RegionRoute(ds: seq<Country>, region: string, fields: Option<string>): (r: Response)
    ensures r.status == 200 && r.body.Arr? && |r.body.items| == |ByRegion(ds, region)|
    ensures forall i :: 0 <= i < |ByRegion(ds, region)| ==> r.body.items[i] == FilterFields(ToJson(ByRegion(ds, region)[i]), fields)
  {
    ListResponse(ByRegion(ds, region), fields)
  }

  /** GET /countries/subregion/:subregion */
  function SubregionRoute(ds: seq<Country>, subregion: string, fields: Option<string>): (r: Response)
    ensures r.status == 200 && r.body.Arr? && |r.body.items| == |BySubregion(ds, subregion)|
    ensures forall i :: 0 <= i < |BySubregion(ds, subregion)| ==> r.body.items[i] == FilterFields(ToJson(BySubregion(ds, subregion)[i]), fields)
  {
    ListResponse(BySubregion(ds, subregion), fields)
  }

  /** GET /countries/translation/:translation */
  function TranslationRoute(ds: seq<Country>, translation: string, fields: Option<string>): (r: Response)
    ensures r.status == 200 && r.body.Arr? && |r.body.items| == |ByTranslation(ds, translation)|
    ensures forall i :: 0 <= i < |ByTranslation(ds, translation)| ==> r.body.items[i] == FilterFields(ToJson(ByTranslation(ds, translation)[i]), fields)
  {
    ListResponse(ByTranslation(ds, translation), fields)
  }
}
