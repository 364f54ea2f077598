# Country lookup service — Dafny model

The service answers `GET /countries...` requests from a fixed list of
country records. It loads the list once and never writes it. Each route
picks records with one match rule. Some routes keep every match in
dataset order (`filter`). The `/code` and `/alpha` routes keep the first
match (`find`) and fall back to `{}`. The answer then goes through
`filterFields`. That function trims every record to the comma-separated
dotted paths of the `fields` query parameter. The trimmed record is flat:
its keys are the path strings themselves.

The model is pure, like the source: datatypes, functions and lemmas.

- `Text` (text.dfy): ASCII case folding, `includes`, and `split` on one
  character, with its `join` round trip in both directions.
- `Assoc` (assoc.dfy): JS objects as ordered `(key, value)` lists, with
  property assignment (`Put`) and `Object.fromEntries`.
- `Json` (json.dfy): JSON values as a tree, and the dotted-path walk
  (`Resolve`) that stands for radash's `get`.
- `Projection` (projection.dfy): `filterFields`.
- `Countries` (countries.dfy): the country record, with optional members
  as `Option`, and its JSON form.
- `Selection` (selection.dfy): generic `filter` and `find`, each with an
  independent reference definition (`MatchIndices`, `FirstIndex`).
- `Routes` (routes.dfy): one match rule, one selection and one handler per
  route. A handler returns a `Response(status, body)` instead of calling
  `res.json`.
- `RouteLaws` (route_laws.dfy): case insensitivity, the union behaviour
  of `/codes`, and how the routes relate to each other.

Every route is a function of the dataset and its parameters. So two
identical requests get identical answers by construction, and no lemma
states it. The order property of every multi-result route comes from the
generic `Selection.FilterPicksMatches`. The result is the dataset at the
matching positions, in increasing order.

## Model

| member | source | states |
|---|---|---|
| `Text.Lower` | index.js:40 | `toLowerCase` on ASCII: same length, no upper-case letter left, other characters kept, each upper-case letter turned into the lower-case letter that upper-cases back to it |
| `Text.Includes` | index.js:40-41 | true exactly when the needle occurs at some position of the text; the empty needle occurs everywhere |
| `Text.Split` | index.js:20 | at least one piece; no piece contains the separator; joining the pieces with the separator gives the input back |
| `Text.SplitJoin` | index.js:85 | pieces free of the separator come back unchanged from join-then-split |
| `Text.LowerIdempotent` | index.js:40 | lower-casing twice equals lower-casing once |
| `Text.LowerOfUpper` | index.js:40 | upper-casing first does not change the lower-cased form |
| `Text.LowerDigitsFixed` | index.js:62 | a string whose lower-cased form is all digits is already that form |
| `Assoc.Lookup` | index.js:98 | finds a value iff the key is among the object's keys, and the value belongs to an entry with that key |
| `Assoc.Values` | index.js:115 | `Object.values`: one value per entry, every entry's value is among them and nothing else is |
| `Assoc.PutOrder` | index.js:22 | the keys after `o[k] = v`: an existing key keeps its place, a new key is added last |
| `Assoc.PutLookup` | index.js:22 | after `o[k] = v`, k holds v and every other key keeps its value |
| `Assoc.PutKeys` | index.js:22 | assignment adds k to the key set and keeps keys distinct |
| `Assoc.PutNew` | index.js:22 | assigning a new key appends it at the end |
| `Assoc.FromEntries` | index.js:22-23 | result keys are distinct and are exactly the entry keys; each key holds the value of its last entry; entries with no repeated key come back unchanged, in order |
| `Assoc.FromEntriesOrder` | index.js:22-23 | the result's keys are the distinct entry keys in the order of their first entry, against an independent reference definition |
| `Json.Resolve` | index.js:22 | `get(v, path)`: nothing resolves inside a value that is not an object; characterised by `Json.ResolveKey` and `Json.ResolveDotted` |
| `Json.ResolveKey` | index.js:22 | a path without a dot resolves to that member of an object, and to nothing on any other value |
| `Json.ResolveDotted` | index.js:22 | `head.rest` resolves to `rest` resolved inside member `head`; a missing head member gives nothing |
| `Projection.DefinedEntries` | index.js:22 | every kept pair is a listed path with the value it resolves to; the kept keys are exactly the listed paths that resolve |
| `Projection.DefinedEntriesOrder` | index.js:22 | one entry per listed path that resolves, in the order the paths are listed, repeats included (the in-order subsequence of the field list that `filter` keeps) |
| `Projection.ProjectRecord` | index.js:22-23 | one trimmed record: an object whose keys are distinct and are exactly the listed paths that resolve; its values are given by `Projection.ProjectRecordLookup` |
| `Projection.FilterFields` | index.js:18-24 | no or empty `fields` returns the data unchanged; a list keeps its length and element i is element i projected; any other value is projected as one record |
| `Projection.LastForDefined` | index.js:22 | the last entry for a key holds that path's resolved value when the path is listed, and there is none otherwise |
| `Projection.ProjectRecordLookup` | index.js:22-23 | a projected record maps key k to v iff k is a listed path that resolves to v; `null` values are kept and unknown paths are dropped |
| `Projection.ProjectRecordInOrder` | index.js:22-23 | with no path listed twice, the projected members are exactly the resolving entries, so by `Projection.DefinedEntriesOrder` they come in the order the paths were listed |
| `Projection.ProjectTwo` | index.js:22-23 | two distinct resolving paths project to exactly those two flat entries |
| `Projection.ProjectEmpty` | index.js:65 | `{}` projects to `{}` whatever the field list |
| `Projection.FilterFieldsElementwise` | index.js:21-22 | filtering a list equals filtering each record alone, with or without `fields` |
| `Countries.ToJson` | index.js:10-12 | the parsed record is an object holding `name`, `cca2`, `cca3`, `region` and `subregion` with the record's own values |
| `Countries.EncodedMembers` | index.js:10-12 | the JSON form of a record has members `name`, `cca2` and `cca3` holding the record's name and codes |
| `Countries.EncodedNamePaths` | index.js:22 | `name.common` and `name.official` resolve to the record's own names |
| `Countries.EncodedCodePaths` | index.js:22 | `cca2` and `cca3` resolve to the record's own codes |
| `Selection.Filter` | index.js:39-42 | no longer than the input; every element satisfies the predicate; every satisfying element of the input is in it; nothing else is |
| `Selection.MatchIndices` | index.js:39-42 | strictly increasing in-range positions; a position is listed iff its element satisfies the predicate |
| `Selection.FilterPicksMatches` | index.js:39-42 | the filter result is the input at the matching positions, in increasing order |
| `Selection.FilterAgrees` | index.js:39-42 | predicates that agree on every element give the same filter result |
| `Selection.FilterCons` | index.js:39-42 | filtering `[x] + s` gives x, if it matches, then the filtered s |
| `Selection.FirstIndex` | index.js:59-64 | an in-range position whose element matches, with no match before it; none only when nothing matches |
| `Selection.Find` | index.js:59-64 | the element at the first matching position; nothing iff no element matches |
| `Selection.FindIsFirstOfFilter` | index.js:59-64 | `find` returns the head of `filter` with the same predicate, or nothing when the filter is empty |
| `Routes.NameIncludes` | index.js:39-42 | the lower-cased parameter occurs at some position of the lower-cased common or official name |
| `Routes.NameEquals` | index.js:49-52 | definition: the common or official name equals the parameter after lower-casing both; characterised by `RouteLaws.ByFullNameIgnoresCase` and `RouteLaws.FullNameWithinName` |
| `Routes.CodeMatches` | index.js:59-64 | a record that has the code as one of its raw codes always matches; characterised further by `RouteLaws.CodeMatchesIgnoresCase` and `RouteLaws.CodesAreCaseSensitive` |
| `Routes.InCodeList` | index.js:86-91 | true iff some listed code is one of the record's raw codes (cca2, cca3, a present ccn3, a truthy cioc) |
| `Routes.HasCurrency` | index.js:98 | true iff the record has currencies and the parameter is one of their keys |
| `Routes.DemonymEquals` | index.js:105-108 | a match needs demonyms with an `eng` entry; characterised by `RouteLaws.ByDemonymIgnoresCase` |
| `Routes.SpeaksLanguage` | index.js:115 | true iff the record has languages and one language entry has the parameter as its value |
| `Routes.HasCapital` | index.js:122 | definition: the record has capitals and the parameter is one of them |
| `Routes.InRegion` | index.js:129 | definition: equal regions after lower-casing; characterised by `RouteLaws.ByRegionIgnoresCase` |
| `Routes.InSubregion` | index.js:136 | definition: equal subregions after lower-casing; characterised by `RouteLaws.BySubregionIgnoresCase` |
| `Routes.TranslationEquals` | index.js:143-145 | true iff the record has translations and some value of `Object.values(translations)` has the parameter as its common name, ignoring case |
| `Routes.ByName` | index.js:39-42 | exactly the records whose lower-cased common or official name contains the lower-cased parameter |
| `Routes.ByFullName` | index.js:49-52 | exactly the records whose common or official name equals the parameter, ignoring case |
| `Routes.FindByCode` | index.js:59-64 | the first record whose cca2 or cca3 equals the code ignoring case, whose ccn3 equals it exactly, or whose present, non-empty cioc equals it ignoring case; nothing iff none does |
| `Routes.ByCodes` | index.js:86-91 | exactly the records with cca2, cca3, ccn3 or a present, non-empty cioc in the code list, compared as is |
| `Routes.ByCurrency` | index.js:98 | exactly the records that have currencies with the parameter as a key |
| `Routes.ByDemonym` | index.js:105-108 | exactly the records whose English masculine or feminine demonym equals the parameter, ignoring case; no demonyms means no match |
| `Routes.ByLanguage` | index.js:115 | exactly the records whose language names include the parameter, compared as is |
| `Routes.ByCapital` | index.js:122 | exactly the records whose capitals include the parameter, compared as is |
| `Routes.ByRegion` | index.js:129 | exactly the records whose region equals the parameter, ignoring case |
| `Routes.BySubregion` | index.js:136 | exactly the records whose subregion equals the parameter, ignoring case |
| `Routes.ByTranslation` | index.js:143-145 | exactly the records with some translation whose common name equals the parameter, ignoring case |
| `Routes.ListResponse` | index.js:43 | status 200 and an array with one entry per record, in order, each being that record filtered by `fields` |
| `Routes.SingleResponse` | index.js:65 | status 200; the found record filtered by `fields`, or `{}` when nothing was found, whatever `fields` asks for |
| `Routes.AllRoute` | index.js:32-34 | status 200; every record of the dataset in order, each filtered by `fields` |
| `Routes.NameRoute` | index.js:37-44 | status 200; the `/name` selection in order, each record filtered by `fields` |
| `Routes.FullNameRoute` | index.js:47-54 | status 200; the `/fullname` selection in order, each record filtered by `fields` |
| `Routes.CodeRoute` | index.js:57-66 | status 200; the first code match filtered by `fields`, or `{}` when no record matches |
| `Routes.AlphaRoute` | index.js:69-78 | status 200; the first code match filtered by `fields`, or `{}` when no record matches, with the same match rule as `/code` |
| `Routes.CodesRoute` | index.js:81-93 | a missing or empty `codes` gives status 400 with the error `Query parameter 'codes' is required` and no lookup; otherwise status 200 and the records matching the comma-split list, in order, filtered by `fields` |
| `Routes.CurrencyRoute` | index.js:96-100 | status 200; the `/currency` selection in order, each record filtered by `fields` |
| `Routes.DemonymRoute` | index.js:103-110 | status 200; the `/demonym` selection in order, each record filtered by `fields` |
| `Routes.LanguageRoute` | index.js:113-117 | status 200; the `/lang` selection in order, each record filtered by `fields` |
| `Routes.CapitalRoute` | index.js:120-124 | status 200; the `/capital` selection in order, each record filtered by `fields` |
| `Routes.RegionRoute` | index.js:127-131 | status 200; the `/region` selection in order, each record filtered by `fields` |
| `Routes.SubregionRoute` | index.js:134-138 | status 200; the `/subregion` selection in order, each record filtered by `fields` |
| `Routes.TranslationRoute` | index.js:141-147 | status 200; the `/translation` selection in order, each record filtered by `fields` |
| `RouteLaws.ByNameInOrder` | index.js:39-42 | the `/name` answer has one record per matching position of the dataset, record j being the record at the j-th matching position |
| `RouteLaws.ByNameIgnoresCase` | index.js:39-42 | two names with the same lower-case form select the same records |
| `RouteLaws.ByFullNameIgnoresCase` | index.js:49-52 | two names with the same lower-case form select the same records |
| `RouteLaws.ByDemonymIgnoresCase` | index.js:105-108 | two demonyms with the same lower-case form select the same records |
| `RouteLaws.ByRegionIgnoresCase` | index.js:129 | two regions with the same lower-case form select the same records |
| `RouteLaws.BySubregionIgnoresCase` | index.js:136 | two subregions with the same lower-case form select the same records |
| `RouteLaws.ByTranslationIgnoresCase` | index.js:143-145 | two translations with the same lower-case form select the same records |
| `RouteLaws.CodeMatchesIgnoresCase` | index.js:59-64 | with an all-digit ccn3, a record matches two codes with the same lower-case form alike |
| `RouteLaws.FindByCodeIgnoresCase` | index.js:59-64 | with all-digit numeric codes, two codes with the same lower-case form find the same record |
| `RouteLaws.NameRouteIgnoresCase` | index.js:37-44 | a name, its upper-case and its lower-case spelling give the same `/name` response |
| `RouteLaws.CodeRouteIgnoresCase` | index.js:57-66 | a code, its upper-case and its lower-case spelling give the same `/code` response |
| `RouteLaws.FullNameWithinName` | index.js:39-52 | every record `/fullname` returns is also returned by `/name` for the same parameter |
| `RouteLaws.InCodeListOne` | index.js:86-91 | a one-code list selects exactly the records that have that raw code |
| `RouteLaws.ByCodesIsUnion` | index.js:85-91 | a record is in the `/codes` answer iff some listed code alone selects it |
| `RouteLaws.CodesAreCaseSensitive` | index.js:59-91 | `codes=usa` does not select a record whose codes are `US`/`USA`/`840`, yet `/code/usa` finds it |
| `RouteLaws.AllRouteNameAndCode` | index.js:32-34 | `/countries?fields=name.common,cca2` gives every record as exactly `{"name.common": its common name, "cca2": its code}`, in that key order |

## Choices where the code decides

- `/codes` compares the raw codes, so the case matters: `codes=usa` does
  not match `USA` (`RouteLaws.CodesAreCaseSensitive`). `/code` and `/alpha`
  ignore case for the letter codes.
- `cioc` takes part only when it is truthy, that is present and not `""`.
  `ccn3` is optional. An absent `ccn3` never equals a string parameter,
  and it is never in a code list.
- No route in index.js answers 500, so the model has no internal-error
  response.

## Left out

- HTTP plumbing: Express setup, the JSON middleware, route registration,
  status and JSON serialisation, `sendFile` for `/`, `app.listen` and `PORT`.
- Loading `countriesV3.1.json` from disk. The dataset is the parameter
  `ds` of every route.
- radash's `get` is not part of this model. `Json.Resolve` walks object
  members along the `.`-separated segments. Bracket segments, numeric
  array indices (`capital.0`), properties of strings (`length`), the
  stripping of quote characters from segments and the skipping of empty or
  blank segments are not captured.
- Routes.SingleResponse: states `{}` for a failed lookup whatever `fields`
  asks for. With radash, a blank path such as the one in `fields=,`
  resolves to the value itself, so the source answers `{"": {}}` there.
  Projection.ProjectEmpty states the same `{}` for the same reason.
- `toLowerCase` is ASCII-only here. Unicode case mappings are not modelled.
- JavaScript truthiness and prototype quirks. `currencies[currency]` is
  key presence, so inherited names such as `constructor` are not modelled.
  The model assumes an English demonym entry has both `m` and `f`. It
  assumes `name`, `cca2`, `cca3`, `region` and `subregion` are present
  strings. The source would throw on a record without one of them.
- A query parameter given several times is parsed by Express into an
  array. `.split` would then throw. `fields` and `codes` are modelled as an
  optional string.
- URL decoding of path parameters. JSON numbers are mathematical reals,
  and serialisation to text is not modelled.
- `Countries.ToJson` puts the typed members first, in dataset order, and
  the untyped ones (`others`) after them. The key order of an unprojected
  record can therefore differ from the file's.
- Assoc.Put: the new-key-goes-last order holds for keys that are not
  array indices. A JS object lists array-index keys such as "7" or "840"
  first, in numeric order.
- Assoc.PutNew: the same array-index exception to appending at the end.
- Assoc.FromEntries: `r == e` for distinct keys holds in JS only when no
  key is an array index, for the same reason.
- Assoc.FromEntriesOrder: first-entry order, again only for keys that are
  not array indices.
- Projection.ProjectRecordInOrder: listed order only for paths that are
  not array indices; `fields=cca2,7` on a record with a top-level member
  "7" gives `{"7": …, "cca2": …}` in the source.
- Projection.ProjectTwo: the same array-index exception to the stated key
  order.
- Countries.ToJson: `others` may repeat a typed key or one of its own
  keys. Lookups then see the first entry, while `JSON.parse` keeps the last
  value. A parsed record has no repeated key, so this shows only on inputs
  that no parsed file produces.
- RouteLaws.FindByCodeIgnoresCase: stated only for datasets whose numeric
  codes are all digits. `ccn3` is compared without case folding, so a
  numeric code with letters would break the property.
- RouteLaws.CodeRouteIgnoresCase: the same all-digit restriction, for the
  same reason.
