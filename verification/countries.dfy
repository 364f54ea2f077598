/** The country record the service answers with, with the members its
    routes inspect typed and every other member kept as raw JSON. */
module Countries {
  import opened Assoc
  import opened Json
  import Text

  datatype Name = Name(common: string, official: string, nativeName: Option<Json>)

  datatype Translation = Translation(official: string, common: string)

  /** The feminine and masculine demonym of one language. */
  datatype Demonym = Demonym(f: string, m: string)

  /** One country. Absent members are None; objects keyed by currency or
      language code keep their dataset order. `others` holds the members
      no route inspects (tld, flags, population, ...). */
  datatype Country = Country(
    name: Name,
    cca2: string,
    ccn3: Option<string>,
    cca3: string,
    cioc: Option<string>,
    currencies: Option<seq<(string, Json)>>,
    capital: Option<seq<string>>,
    region: string,
    subregion: string,
    languages: Option<seq<(string, string)>>,
    translations: Option<seq<(string, Translation)>>,
    demonyms: Option<seq<(string, Demonym)>>,
    others: seq<(string, Json)>)

  /** A member that is there only when the optional value is. */
  function Optional<T>(key: string, o: Option<T>, enc: T -> Json): seq<(string, Json)> {
    if o.Some? then [(key, enc(o.value))] else []
  }

  function NameJson(n: Name): Json {
    Obj([("common", Str(n.common)), ("official", Str(n.official))]
      + Optional("nativeName", n.nativeName, (j: Json) => j))
  }

  function TranslationJson(t: Translation): Json {
    Obj([("official", Str(t.official)), ("common", Str(t.common))])
  }

  function DemonymJson(d: Demonym): Json {
    Obj([("f", Str(d.f)), ("m", Str(d.m))])
  }

  function MapValues<T>(m: seq<(string, T)>, enc: T -> Json): seq<(string, Json)> {
    seq(|m|, i requires 0 <= i < |m| => (m[i].0, enc(m[i].1)))
  }

  /** The members that lead the encoded record, in dataset order. */
  function Head(c: Country): seq<(string, Json)> {
    [("name", NameJson(c.name)), ("cca2", Str(c.cca2))]
      + Optional("ccn3", c.ccn3, (s: string) => Str(s))
      + [("cca3", Str(c.cca3))]
      + Optional("cioc", c.cioc, (s: string) => Str(s))
  }

  /** The record as the JSON object the service serialises: an object
      holding the name, the letter codes, the region and the subregion. */
  function ToJson(c: Country): (r: Json)
    ensures r.Obj?
    ensures ("name", NameJson(c.name)) in r.members && ("cca2", Str(c.cca2)) in r.members
    ensures ("cca3", Str(c.cca3)) in r.members
    ensures ("region", Str(c.region)) in r.members && ("subregion", Str(c.subregion)) in r.members
  {
    var head := Head(c);
    var rest := Rest(c);
    assert head[0] == ("name", NameJson(c.name)) && head[1] == ("cca2", Str(c.cca2));
    assert ("cca3", Str(c.cca3)) in head;
    assert ("region", Str(c.region)) in rest && ("subregion", Str(c.subregion)) in rest;
    Obj(head + rest)
  }

  /** The members after the codes, in dataset order, then the untyped ones. */
  function Rest(c: Country): seq<(string, Json)> {
    Optional("currencies", c.currencies, (m: seq<(string, Json)>) => Obj(m))
      + Optional("capital", c.capital, (cs: seq<string>) => Arr(seq(|cs|, i requires 0 <= i < |cs| => Str(cs[i]))))
      + [("region", Str(c.region)), ("subregion", Str(c.subregion))]
      + Optional("languages", c.languages, (m: seq<(string, string)>) => Obj(MapValues(m, (s: string) => Str(s))))
      + Optional("translations", c.translations, (m: seq<(string, Translation)>) => Obj(MapValues(m, TranslationJson)))
      + Optional("demonyms", c.demonyms, (m: seq<(string, Demonym)>) => Obj(MapValues(m, DemonymJson)))
      + c.others
  }

  /** The name and the two letter codes lead the record. */
  lemma HeadMembers(c: Country)
    ensures Lookup(Head(c), "name") == Some(NameJson(c.name))
    ensures Lookup(Head(c), "cca2") == Some(Str(c.cca2))
    ensures Lookup(Head(c), "cca3") == Some(Str(c.cca3))
    ensures "name" in KeySet(Head(c)) && "cca2" in KeySet(Head(c)) && "cca3" in KeySet(Head(c))
  {
    var head := Head(c);
    var codes := [("cca3", Str(c.cca3))] + Optional("cioc", c.cioc, (s: string) => Str(s));
    var numeric := Optional("ccn3", c.ccn3, (s: string) => Str(s)) + codes;
    assert head == [("name", NameJson(c.name))] + ([("cca2", Str(c.cca2))] + numeric);
    assert Lookup(codes, "cca3") == Some(Str(c.cca3));
    if c.ccn3.Some? {
      assert numeric == [("ccn3", Str(c.ccn3.value))] + codes;
      assert Lookup(numeric, "cca3") == Some(Str(c.cca3));
    } else {
      assert numeric == codes;
    }
  }

  /** The name and the two letter codes are members of the encoded record. */
  lemma EncodedMembers(c: Country)
    ensures Member(ToJson(c), "name") == Some(NameJson(c.name))
    ensures Member(ToJson(c), "cca2") == Some(Str(c.cca2))
    ensures Member(ToJson(c), "cca3") == Some(Str(c.cca3))
  {
    HeadMembers(c);
    LookupAppend(Head(c), Rest(c), "name");
    LookupAppend(Head(c), Rest(c), "cca2");
    LookupAppend(Head(c), Rest(c), "cca3");
  }

  /** The name object holds the common and official names. */
  lemma NameJsonMembers(n: Name)
    ensures Member(NameJson(n), "common") == Some(Str(n.common))
    ensures Member(NameJson(n), "official") == Some(Str(n.official))
  {
    var m := NameJson(n).members;
    assert m[0] == ("common", Str(n.common)) && m[1] == ("official", Str(n.official));
    assert m[1..][0] == m[1];
  }

  /** The name object's common and official members. */
  lemma NameMembers(c: Country)
    ensures ResolveSegments(ToJson(c), ["name", "common"]) == Some(Str(c.name.common))
    ensures ResolveSegments(ToJson(c), ["name", "official"]) == Some(Str(c.name.official))
  {
    EncodedMembers(c);
    NameJsonMembers(c.name);
    ResolveTwo(ToJson(c), "name", "common");
    ResolveTwo(ToJson(c), "name", "official");
  }

  lemma SplitNamePaths()
    ensures Text.Split("name.common", '.') == ["name", "common"]
    ensures Text.Split("name.official", '.') == ["name", "official"]
  {
    assert Text.Join(["name", "common"], '.') == "name.common";
    assert Text.Join(["name", "official"], '.') == "name.official";
    Text.SplitJoin(["name", "common"], '.');
    Text.SplitJoin(["name", "official"], '.');
  }

  /** The encoding is faithful on the paths clients ask for most: the
      common and official names resolve to the record's own strings. */
  lemma EncodedNamePaths(c: Country)
    ensures Resolve(ToJson(c), "name.common") == Some(Str(c.name.common))
    ensures Resolve(ToJson(c), "name.official") == Some(Str(c.name.official))
  {
    SplitNamePaths();
    NameMembers(c);
  }

  /** The two and three letter codes resolve to the record's own codes. */
  lemma EncodedCodePaths(c: Country)
    ensures Resolve(ToJson(c), "cca2") == Some(Str(c.cca2))
    ensures Resolve(ToJson(c), "cca3") == Some(Str(c.cca3))
  {
    EncodedMembers(c);
    ResolveKey(ToJson(c), "cca2");
    ResolveKey(ToJson(c), "cca3");
  }
}
