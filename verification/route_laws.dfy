/** Properties of the routes that relate several calls: case-insensitive
    routes answer alike for parameters that fold to the same lower case,
    `/codes` answers with the union of its codes, an exact name match is
    also a partial one, and a concrete projection of the whole list. */
module RouteLaws {
  import opened Assoc
  import opened Json
  import opened Text
  import opened Projection
  import opened Countries
  import opened Selection
  import opened Routes

  // ---------------------------------------------------------------------
  // Case-insensitive routes
  // ---------------------------------------------------------------------

  lemma ByNameIgnoresCase(ds: seq<Country>, p: string, q: string)
    requires Lower(p) == Lower(q)
    ensures ByName(ds, p) == ByName(ds, q)
  {
    FilterAgrees(ds, c => NameIncludes(c, p), c => NameIncludes(c, q));
  }

  lemma ByFullNameIgnoresCase(ds: seq<Country>, p: string, q: string)
    requires Lower(p) == Lower(q)
    ensures ByFullName(ds, p) == ByFullName(ds, q)
  {
    FilterAgrees(ds, c => NameEquals(c, p), c => NameEquals(c, q));
  }

  lemma ByDemonymIgnoresCase(ds: seq<Country>, p: string, q: string)
    requires Lower(p) == Lower(q)
    ensures ByDemonym(ds, p) == ByDemonym(ds, q)
  {
    FilterAgrees(ds, c => DemonymEquals(c, p), c => DemonymEquals(c, q));
  }

  lemma ByRegionIgnoresCase(ds: seq<Country>, p: string, q: string)
    requires Lower(p) == Lower(q)
    ensures ByRegion(ds, p) == ByRegion(ds, q)
  {
    FilterAgrees(ds, c => InRegion(c, p), c => InRegion(c, q));
  }

  lemma BySubregionIgnoresCase(ds: seq<Country>, p: string, q: string)
    requires Lower(p) == Lower(q)
    ensures BySubregion(ds, p) == BySubregion(ds, q)
  {
    FilterAgrees(ds, c => InSubregion(c, p), c => InSubregion(c, q));
  }

  lemma ByTranslationIgnoresCase(ds: seq<Country>, p: string, q: string)
    requires Lower(p) == Lower(q)
    ensures ByTranslation(ds, p) == ByTranslation(ds, q)
  {
    FilterAgrees(ds, c => TranslationEquals(c, p), c => TranslationEquals(c, q));
  }

  /** The numeric codes of the dataset are strings of digits. */
  ghost predicate NumericCodesAreDigits(ds: seq<Country>) {
    forall i :: 0 <= i < |ds| && ds[i].ccn3.Some? ==> AllDigits(ds[i].ccn3.value)
  }

  /** The exact comparison on the numeric code does not break case
      insensitivity as long as numeric codes hold only digits. */
  lemma CodeMatchesIgnoresCase(c: Country, p: string, q: string)
    requires Lower(p) == Lower(q)
    requires c.ccn3.Some? ==> AllDigits(c.ccn3.value)
    ensures CodeMatches(c, p) == CodeMatches(c, q)
  {
    if c.ccn3 == Some(p) {
      assert Lower(p) == p;
      LowerDigitsFixed(q);
    }
    if c.ccn3 == Some(q) {
      assert Lower(q) == q;
      LowerDigitsFixed(p);
    }
  }

  lemma FindByCodeIgnoresCase(ds: seq<Country>, p: string, q: string)
    requires Lower(p) == Lower(q)
    requires NumericCodesAreDigits(ds)
    ensures FindByCode(ds, p) == FindByCode(ds, q)
  {
    forall i | 0 <= i < |ds| ensures CodeMatches(ds[i], p) == CodeMatches(ds[i], q) {
      CodeMatchesIgnoresCase(ds[i], p, q);
    }
    FilterAgrees(ds, c => CodeMatches(c, p), c => CodeMatches(c, q));
    FindIsFirstOfFilter(ds, c => CodeMatches(c, p));
    FindIsFirstOfFilter(ds, c => CodeMatches(c, q));
  }

  /** A name, its upper-case and its lower-case spelling give the same
      `/name` response. */
  lemma NameRouteIgnoresCase(ds: seq<Country>, name: string, fields: Option<string>)
    ensures NameRoute(ds, Upper(name), fields) == NameRoute(ds, name, fields)
    ensures NameRoute(ds, Lower(name), fields) == NameRoute(ds, name, fields)
  {
    LowerOfUpper(name);
    LowerIdempotent(name);
    ByNameIgnoresCase(ds, Upper(name), name);
    ByNameIgnoresCase(ds, Lower(name), name);
  }

  /** A code, its upper-case and its lower-case spelling give the same
      `/code` response. */
  lemma CodeRouteIgnoresCase(ds: seq<Country>, code: string, fields: Option<string>)
    requires NumericCodesAreDigits(ds)
    ensures CodeRoute(ds, Upper(code), fields) == CodeRoute(ds, code, fields)
    ensures CodeRoute(ds, Lower(code), fields) == CodeRoute(ds, code, fields)
  {
    LowerOfUpper(code);
    LowerIdempotent(code);
    FindByCodeIgnoresCase(ds, Upper(code), code);
    FindByCodeIgnoresCase(ds, Lower(code), code);
  }

  /** `/name` answers with the matching records in dataset order: record j
      of the answer is the record at the j-th matching position. */
  lemma ByNameInOrder(ds: seq<Country>, name: string)
    ensures |ByName(ds, name)| == |MatchIndices(ds, c => NameIncludes(c, name))|
    ensures forall j :: 0 <= j < |ByName(ds, name)| ==>
      ByName(ds, name)[j] == ds[MatchIndices(ds, c => NameIncludes(c, name))[j]]
  {
    FilterPicksMatches(ds, c => NameIncludes(c, name));
  }

  // ---------------------------------------------------------------------
  // Relations between routes
  // ---------------------------------------------------------------------

  /** Every record `/fullname` returns is also returned by `/name`. */
  lemma FullNameWithinName(ds: seq<Country>, name: string)
    ensures forall c :: c in ByFullName(ds, name) ==> c in ByName(ds, name)
  {
    forall c | c in ByFullName(ds, name) ensures c in ByName(ds, name) {
      var i :| 0 <= i < |ByFullName(ds, name)| && ByFullName(ds, name)[i] == c;
      var k :| 0 <= k < |ds| && ds[k] == c;
      assert OccursAt(Lower(c.name.common), Lower(c.name.common), 0);
      assert OccursAt(Lower(c.name.official), Lower(c.name.official), 0);
      assert NameIncludes(ds[k], name);
    }
  }

  /** A one-element code list selects exactly the records with that raw code. */
  lemma InCodeListOne(c: Country, k: string)
    ensures InCodeList(c, [k]) <==> HasRawCode(c, k)
  {
  }

  /** `/codes?codes=a,b` answers with the union of the single-code
      answers: a record is in it iff one of the listed codes selects it. */
  lemma ByCodesIsUnion(ds: seq<Country>, codes: seq<string>, c: Country)
    requires c in ds
    ensures c in ByCodes(ds, codes) <==> exists k :: k in codes && c in ByCodes(ds, [k])
  {
    var i :| 0 <= i < |ds| && ds[i] == c;
    if c in ByCodes(ds, codes) {
      var j :| 0 <= j < |ByCodes(ds, codes)| && ByCodes(ds, codes)[j] == c;
      var k :| k in codes && HasRawCode(c, k);
      InCodeListOne(c, k);
      assert c in ByCodes(ds, [k]);
    }
    if exists k :: k in codes && c in ByCodes(ds, [k]) {
      var k :| k in codes && c in ByCodes(ds, [k]);
      var j :| 0 <= j < |ByCodes(ds, [k])| && ByCodes(ds, [k])[j] == c;
      InCodeListOne(c, k);
    }
  }

  /** `/codes` compares raw codes: `codes=usa` does not select a record
      whose codes are upper case, though `/code/usa` finds it. */
  lemma CodesAreCaseSensitive(c: Country)
    requires c.cca2 == "US" && c.cca3 == "USA" && c.ccn3 == Some("840") && c.cioc == Some("USA")
    ensures ByCodes([c], Split("usa", ',')) == []
    ensures FindByCode([c], "usa") == Some(c)
  {
    SplitJoin(["usa"], ',');
    assert Split("usa", ',') == ["usa"];
    assert !InCodeList(c, ["usa"]);
    assert Lower("USA") == "usa";
    assert Lower("usa") == "usa";
    assert CodeMatches(c, "usa");
  }

  // ---------------------------------------------------------------------
  // Projection of the whole list
  // ---------------------------------------------------------------------

  /** `/countries?fields=name.common,cca2` answers with every record
      reduced to exactly the flat keys `name.common` and `cca2`, in that
      order, holding the record's own name and code. */
  lemma AllRouteNameAndCode(ds: seq<Country>)
    ensures AllRoute(ds, Some("name.common,cca2")).body ==
      Arr(seq(|ds|, i requires 0 <= i < |ds| =>
        Obj([("name.common", Str(ds[i].name.common)), ("cca2", Str(ds[i].cca2))])))
  {
    var r := AllRoute(ds, Some("name.common,cca2"));
    var expected := seq(|ds|, i requires 0 <= i < |ds| =>
      Obj([("name.common", Str(ds[i].name.common)), ("cca2", Str(ds[i].cca2))]));
    forall i | 0 <= i < |ds|
      ensures r.body.items[i] == expected[i]
    {
      NameAndCodeItem(ds, i);
    }
    assert r.body.items == expected;
  }

  lemma NameAndCodeItem(ds: seq<Country>, i: int)
    requires 0 <= i < |ds|
    ensures AllRoute(ds, Some("name.common,cca2")).body.items[i] ==
      Obj([("name.common", Str(ds[i].name.common)), ("cca2", Str(ds[i].cca2))])
  {
    SplitNameAndCode();
    ProjectedNameAndCode(ds[i], ["name.common", "cca2"]);
  }

  lemma SplitNameAndCode()
    ensures FieldList("name.common,cca2") == ["name.common", "cca2"]
  {
    assert Join(["name.common", "cca2"], ',') == "name.common,cca2";
    SplitJoin(["name.common", "cca2"], ',');
  }

  lemma ProjectedNameAndCode(c: Country, fl: seq<string>)
    requires fl == ["name.common", "cca2"]
    ensures ProjectRecord(ToJson(c), fl) == Obj([("name.common", Str(c.name.common)), ("cca2", Str(c.cca2))])
  {
    EncodedNamePaths(c);
    EncodedCodePaths(c);
    ProjectTwo(ToJson(c), "name.common", "cca2", Str(c.name.common), Str(c.cca2));
  }
}
