# Geocoding adapters and batch runners, modelled in Dafny

The repository turns table rows into vendor geocoding requests and back.
Addresses become coordinates (forward geocoding) and coordinates become
addresses (reverse geocoding). It has two Python modules:

- `geocoding.py` supports two providers, Kakao Local and Naver Maps. It
  picks the adapter by name through the cache `_provider_instances`.
- `kakao_geocoding.py` is an older Kakao-only module. It uses a lazily
  built singleton adapter.

This project models the deterministic part of both modules: from "HTTP
response received" to "row written". It covers:

- **Response normalisers.** Kakao and Naver forward and reverse geocoding
  turn a decoded JSON body, or a failed request, into a flat result dict or
  None. Naver adds entry selection and text helpers.
- **Provider dispatch.** The name rule and per-name cache of
  `_get_provider`, and the `_get_api_instance` singleton.
- **Batch runners.** `geocode` and `reverse_geocode` of both modules:
  column checks, output-column initialisation, the row loop and the
  per-row writes.
- **Dump path naming.** The base name and the per-row file name of the
  JSON debug dumps.

Modules:

- `Python` (python.dfy) models the Python values the code handles.
  `Value` is None, bool, int, float, str, list or dict. `Null` also stands
  for a missing (NaN) table cell. The module also holds the operations the
  code applies to values: truthiness, `or`, `dict.get`, `in`, `[ ]`,
  `float()`, `str()`, `strip`, `lower` and `join`. Exceptions raised inside
  the adapters' `try` blocks are `Outcome.Raised`. Exceptions that reach
  the caller are `Result.Failure`.
- `Schema` (schema.dfy) holds the result keys, the key sets of each
  namespace, the eighteen detail columns and the HTTP outcome `Response`.
- `Dispatch` (dispatch.dfy) holds `ProviderRegistry`, a class whose map
  field is `_provider_instances`, and `ApiSlot`, a class whose field is
  `_api_instance`.
- `KakaoAdapter` (kakao.dfy) and `NaverAdapter` (naver.dfy) are the two
  adapters of `geocoding.py`.
- `KakaoStandalone` (kakao_standalone.dfy) is the adapter and the runners
  of `kakao_geocoding.py`.
- `Batch` (batch.dfy) holds the runners of `geocoding.py`. A table is a
  sequence of rows with index labels. A row maps column names to cells.

Where the source builds something step by step, the model does too:

- the reverse result dicts, key by key;
- the entry-picking loop with its early return;
- the text builder;
- the row loops;
- the registry.

Each such method except the registry's is proved equal to a declarative
function, and the properties are proved about that function. The registry
methods, `_get_provider` and `_get_api_instance`, state their new cache or
slot directly in two-state contracts.

### Behaviour of the code worth knowing

- **Zero reverse results.** An empty `documents` (Kakao) or `results`
  (Naver) makes both adapters return None rather than a dict of empty texts
  (`geocoding.py:117-119`, `geocoding.py:320-322`,
  `kakao_geocoding.py:165-166`). The batch runners then leave every output
  cell of that row None, not `""` (`Batch.ReverseNoResultLeavesNone`).
- **A null `road_address` in the Kakao-only module.** `kakao_geocoding.py`
  tests only `key in doc` (`kakao_geocoding.py:171`, `kakao_geocoding.py:199`).
  A key that is present but JSON null therefore raises, and the whole result
  is lost. This is listed under Findings.

## Model

| member | source | states |
|---|---|---|
| Python.Strip | geocoding.py:379 | `str.strip()` leaves no whitespace at either end and never lengthens the text |
| Python.StripInfix | geocoding.py:379 | the stripped text is an infix of the original with only whitespace before and after it, so stripping removes the surrounding whitespace and nothing else |
| Python.StripStripped | geocoding.py:379 | stripping a text that is already stripped changes nothing |
| Python.Lower | geocoding.py:379 | `str.lower()` keeps the length and maps each character on its own |
| Python.JoinStripped | geocoding.py:649 | joining non-empty stripped pieces with one space gives a stripped text, and a non-empty one when there is a piece |
| Python.NatToStringInjective | geocoding.py:524 | distinct row labels render as distinct decimal texts |
| Schema.NameInjective | geocoding.py:479-498 | no two result keys share a column name |
| Schema.KeySetsByConstructor | geocoding.py:124-178 | the road and lot-number key sets are exactly the keys of each namespace, with or without details |
| Schema.DetailColumnsCompleteSchema | kakao_geocoding.py:386-397 | the eighteen detail columns are exactly the detail-mode result keys other than the two address lines; without details a Kakao result has exactly road_address, road_zone_no and address |
| Dispatch.VendorOf | geocoding.py:380-389 | only "kakao" selects Kakao and only "naver" selects Naver; any other name selects nothing |
| Dispatch.DefaultProvider | geocoding.py:379 | None or "" normalises to "kakao" |
| Dispatch.NormalizeProviderNormal | geocoding.py:379 | the name rule is `NormalizeProvider`, `(provider or "kakao").strip().lower()`; a normalised name has no surrounding whitespace and no upper-case ASCII letter, and normalising it again changes nothing |
| Dispatch.ProviderRegistry.constructor | geocoding.py:375 | the cache starts empty |
| Dispatch.ProviderRegistry.GetProvider | geocoding.py:378-392 | an unknown name raises without touching the cache; a cached name returns the cached instance unchanged; otherwise exactly one new instance of the right vendor is built and cached, or construction raises and nothing is cached; the cache only ever holds "kakao" and "naver" under their own vendors |
| Dispatch.ProviderRegistry.GetProviderTwice | geocoding.py:383-384 | two requests whose names normalise alike return the identical object, and only that name is added to the cache |
| Dispatch.ApiSlot.constructor | kakao_geocoding.py:240 | the slot starts empty |
| Dispatch.ApiSlot.GetApiInstance | kakao_geocoding.py:243-248 | the adapter is built on the first call that finds credentials and the same instance is returned on every later call |
| KakaoAdapter.GeocodeAddress | geocoding.py:49-81 | a missing or empty address, a failed request or no documents gives None; a result has exactly the four forward keys read from the first document, missing or falsy x/y count as 0; a first document whose x and y convert always gives a result |
| KakaoAdapter.NamespaceObject | geocoding.py:125-126 | on a dict document the namespace object is `doc[key]` when present and truthy and blanked otherwise, and it raises exactly when that object is truthy but no dict; a used object is a non-empty dict; on any other document the namespace survives only when the membership test gives False |
| KakaoAdapter.ReverseObjects | geocoding.py:83-187 | a missing coordinate, a failed request, a failed dump or no documents gives None; a result is read from the first document's truthy `road_address`/`address` objects |
| KakaoAdapter.ReverseSucceeds | geocoding.py:117-180 | a first document whose two namespace objects are each falsy or a dict always gives a result |
| KakaoAdapter.BlankedNamespace | geocoding.py:139-178 | every key of a blanked namespace is "" |
| KakaoAdapter.ReverseGeocodeCoords | geocoding.py:83-187 | returns a dict exactly when ReverseObjects does; its key set is exactly the reverse key set for the detail mode, and each value is the vendor field of its namespace, "" when absent |
| KakaoAdapter.RoadBlock | geocoding.py:124-150 | the road block succeeds exactly when the namespace object can be read; it adds exactly the road keys and keeps every other key |
| KakaoAdapter.AddressBlock | geocoding.py:152-178 | the lot-number block succeeds exactly when its object can be read; it adds exactly the lot-number keys and keeps every other key |
| KakaoAdapter.Present | geocoding.py:125 | `key in doc and doc[key]` fails exactly when the membership test or the subscript raises, and otherwise yields the object or None |
| KakaoAdapter.FillRoad | geocoding.py:127-150 | the road keys of the detail mode are set from the matching vendor fields and nothing else changes |
| KakaoAdapter.FillAddress | geocoding.py:155-178 | the lot-number keys of the detail mode are set from the matching vendor fields and nothing else changes |
| NaverAdapter.GeocodeAddress | geocoding.py:246-282 | a missing or empty address, a failed request or no addresses gives None; a result has exactly the four Naver forward keys read from the first address; a truthy `roadAddress`/`jibunAddress` is copied and a missing or falsy one becomes ""; a first address whose x and y convert always gives a result |
| NaverAdapter.FirstNamedIsFirst | geocoding.py:615-619 | an entry is found exactly when some dict entry carries the name, and the one found is the first such entry |
| NaverAdapter.PickNaverResult | geocoding.py:615-619 | the loop with its early return computes the first-match selection; a non-iterable `results` raises |
| NaverAdapter.Truthies | geocoding.py:638 | kept parts are truthy, and a value is kept exactly when it is a truthy part; the filter never lengthens the list |
| NaverAdapter.TruthiesConcat | geocoding.py:638 | filtering a concatenation concatenates the filtered halves, so every truthy part is kept in its original order |
| NaverAdapter.KeepTruthy | geocoding.py:638 | the filtering loop keeps exactly the truthy names, in order |
| NaverAdapter.Cleaned | geocoding.py:649 | one text per part, each `str(part).strip()`, each without surrounding whitespace |
| NaverAdapter.NonEmpty | geocoding.py:649 | no empty piece survives the filter |
| NaverAdapter.NonEmptyIsEmpty | geocoding.py:649 | the filter leaves nothing exactly when every piece is empty |
| NaverAdapter.NonEmptyStripped | geocoding.py:649 | the filter keeps stripped pieces stripped |
| NaverAdapter.NonEmptyStep | geocoding.py:649 | filtering one more piece appends it unless it is empty |
| NaverAdapter.CleanPieces | geocoding.py:649 | the loop computes the stripped non-empty pieces in order |
| NaverAdapter.TextOf | geocoding.py:622-649 | "" for an empty or non-dict entry; a non-blank `text` is returned stripped; otherwise "" exactly when no fallback part shows anything; the result never has surrounding whitespace |
| NaverAdapter.NaverResultText | geocoding.py:622-649 | the step-by-step text builder computes TextOf |
| NaverAdapter.AppendLand | geocoding.py:640-647 | the land name and then `number1` or `number1-number2` are appended, and a land value that is no dict raises |
| NaverAdapter.StrippedName | geocoding.py:658 | `str(name).strip() if name else ""` is stripped, "" for a falsy name and the stripped text for a string |
| NaverAdapter.RoadNameOf | geocoding.py:652-658 | the stripped `land.name`, "" when there is none, raising exactly when `land` is truthy but no dict |
| NaverAdapter.BuildingNameOf | geocoding.py:661-667 | the stripped `land.addition0.value`, "" when `addition0` is no dict, raising exactly when `land` is truthy but no dict |
| NaverAdapter.AdditionValue | geocoding.py:664-665 | the value under `addition0`, or a falsy value when `addition0` is no dict |
| NaverAdapter.FieldsFromBody | geocoding.py:320-358 | an empty or missing `results`, or a body that is no dict, gives no result; every text read is stripped (FieldsSucceed gives the success direction) |
| NaverAdapter.RegionReadable | geocoding.py:335-338 | the area names of an entry whose region and areas are each falsy or a dict are read without raising |
| NaverAdapter.EntryReadable | geocoding.py:622-667 | the text, road name and building name of such an entry, with a falsy-or-dict `land`, are read without raising |
| NaverAdapter.PickedReadable | geocoding.py:615-619 | a picked entry is one of the entries, so it is readable when every entry is |
| NaverAdapter.FieldsSucceed | geocoding.py:320-358 | a body whose `results` is a non-empty list of readable entries always yields the values of a result, whichever entries are picked |
| NaverAdapter.EntryFields | geocoding.py:328-358 | the two address lines are the texts of the picked entries ("" when none was picked) and every text is stripped |
| NaverAdapter.TextSources | geocoding.py:324-331 | road_address and address are the texts of the first `roadaddr` and `addr` entries, "" when none was picked |
| NaverAdapter.DetailSources | geocoding.py:326-347 | the area names come from the roadaddr entry, else the addr entry, else the first entry; road and building names come from the roadaddr entry only |
| NaverAdapter.ReverseSelection | geocoding.py:284-372 | a missing coordinate, a failed request or a failed dump gives None; otherwise the decoded body decides, and a raising read gives None |
| NaverAdapter.ReverseSucceeds | geocoding.py:284-358 | with both coordinates, any requested dump written and such a body, `reverse_geocode_coords` always returns a dict |
| NaverAdapter.NaverKeys | geocoding.py:328-358 | in detail mode Naver fills the same twenty keys as Kakao, otherwise only the two address lines |
| NaverAdapter.ReverseGeocodeCoords | geocoding.py:284-372 | the key set is the Kakao reverse key set in detail mode and the two address lines otherwise; ten detail values are always ""; the area names are the same in both namespaces |
| NaverAdapter.ReadFields | geocoding.py:320-358 | the reads of the try block compute FieldsFromBody |
| NaverAdapter.ReadEntryFields | geocoding.py:328-358 | the reads after the entries are picked compute EntryFields |
| NaverAdapter.Assemble | geocoding.py:328-358 | the result dict has exactly the Naver keys of the mode, each with its Naver value |
| NaverAdapter.FillRoad | geocoding.py:340-348 | the nine road detail keys are set and nothing else changes |
| NaverAdapter.FillAddress | geocoding.py:350-358 | the nine lot-number detail keys are set and nothing else changes |
| Batch.AddColumn | geocoding.py:420-421 | `df[col] = None` keeps the rows, labels and old columns in place, appends the column once, and sets only that cell of each row to None |
| Batch.AddColumnsShape | geocoding.py:499-501 | initialising several columns keeps rows and labels and adds exactly the listed columns |
| Batch.AddColumnsCells | geocoding.py:499-501 | every listed cell of a row becomes None and every other cell is kept |
| Batch.AddColumnsWellFormed | geocoding.py:499-501 | every row still has a cell for exactly the table's columns |
| Batch.InitColumns | geocoding.py:499-501 | the initialisation loop adds the listed columns in order |
| Batch.ForwardTableSpec | geocoding.py:425-431 | one row is `ForwardRow`, the table `ForwardTable`: rows, labels and columns are kept; a row without a truthy result is unchanged; otherwise only the two coordinate cells change, to the result's values |
| Batch.ForwardRows | geocoding.py:425-437 | the row loop of `geocode` computes ForwardTable |
| Batch.GeocodeNoResultLeavesNone | geocoding.py:420-431 | a row whose address is not found keeps None in both coordinate columns |
| Batch.Geocode | geocoding.py:395-440 | a missing address column raises before the provider is looked up; an unsupported provider raises; a supported one runs exactly when its adapter is cached or finds credentials, and the result is then the initialised table run through that vendor's adapter; the cache gains one fresh adapter when one is built and is otherwise unchanged |
| Batch.DetailNames | geocoding.py:479-498 | the column names of the eighteen detail keys, in order |
| Batch.DetailWritesSpec | geocoding.py:534-536 | after the detail writes each detail column holds the result value, "" when absent, and every other cell is kept |
| Batch.WriteDetails | geocoding.py:535-536 | the detail-write loop computes DetailWrites |
| Batch.JsonBaseSpec | geocoding.py:507-513 | the base name is `JsonBase`: a dump is asked for exactly when `save_json` is truthy, and its base is never empty; True or "auto" name it after the provider and the timestamp; any other text is used as given |
| Batch.RowJsonPathsDistinct | geocoding.py:519-524 | the per-row path is `RowJsonPath` (`<base>.json` for one row, `<base>_<index>.json` otherwise); in a table of several rows, rows with different labels dump to different files |
| Batch.ReverseRows | geocoding.py:515-542 | the row loop of `reverse_geocode` computes ReverseTable |
| Batch.ReverseTableSpec | geocoding.py:519-536 | one row is `ReverseRow`, the table `ReverseTable`: rows, labels and columns are kept; a row without a truthy result is unchanged; otherwise the road and lot-number columns take the result's `road_address` and `address` ("" when absent, the later write winning where columns coincide), in detail mode each detail column takes its result value or "", and no other cell changes |
| Batch.ReverseNoResultLeavesNone | geocoding.py:476-501 | a row without a result keeps None in both address columns and, in detail mode, in every detail column |
| Batch.ReverseGeocode | geocoding.py:443-546 | a missing longitude then latitude column raises before the provider is looked up; an unsupported provider raises; a supported one runs exactly when its adapter is cached or finds credentials, and the result is the initialised table run through the chosen adapter with the dump names of JsonBase; the cache gains one fresh adapter when one is built and is otherwise unchanged |
| KakaoStandalone.GeocodeAddress | kakao_geocoding.py:46-93 | a missing or empty address or a failed request gives None; a result has the four forward keys of the first document; a missing x/y counts as 0, while a null or empty one loses the match; a first document whose x and y convert always gives a result |
| KakaoStandalone.ForwardAgreesOnTruthyCoordinates | kakao_geocoding.py:78-83 | where the first document's coordinates are truthy both Kakao adapters give the same answer |
| KakaoStandalone.NamespaceObject | kakao_geocoding.py:171-172 | the namespace test is key membership only; a present key must hold a dict, and anything else raises |
| KakaoStandalone.ReverseObjects | kakao_geocoding.py:95-236 | a missing coordinate, a failed request, a failed dump or no documents gives None; a result reads the objects under the two keys of the first document |
| KakaoStandalone.NonDictNamespaceLosesResult | kakao_geocoding.py:171-173 | a present namespace key holding null or any other non-dict loses the whole result |
| KakaoStandalone.ReverseSucceeds | kakao_geocoding.py:165-226 | a first document whose present namespace keys hold dicts always gives a result; with NonDictNamespaceLosesResult, a result exists exactly when this holds |
| KakaoStandalone.ReverseGeocodeCoords | kakao_geocoding.py:95-236 | returns a dict exactly when ReverseObjects does, with exactly the reverse key set of the mode and each value read from its namespace |
| KakaoStandalone.RoadBlock | kakao_geocoding.py:170-196 | an absent key blanks the road keys, and a present dict fills them |
| KakaoStandalone.AddressBlock | kakao_geocoding.py:198-224 | an absent key blanks the lot-number keys, and a present dict fills them |
| KakaoStandalone.NullRoadAddressLosesResult | kakao_geocoding.py:171-173 | on a document with a null `road_address` this module returns nothing, while the two-provider adapter keeps the lot-number address |
| KakaoStandalone.ReverseAgreesWhereDefined | kakao_geocoding.py:165-226 | wherever this module returns a result, the two-provider adapter returns one with the same value under every key |
| KakaoStandalone.StrictForwardRows | kakao_geocoding.py:292-306 | one row is `StrictRow`; the row loop computes StrictTable: rows in order, and the first found result without a coordinate raises KeyError |
| KakaoStandalone.StrictRowsAgree | kakao_geocoding.py:296-298 | when every found result carries both coordinates, the rows are written as the two-provider runner writes them |
| KakaoStandalone.StrictNeverFailsOnKakao | kakao_geocoding.py:296-298 | driven by this module's adapter the runner never raises KeyError |
| KakaoStandalone.Geocode | kakao_geocoding.py:251-310 | a missing column raises before the adapter is built; missing credentials raise when no adapter exists yet; otherwise the initialised table runs through the strict row loop; the slot gets a fresh adapter exactly when the first run past the column check finds credentials, and is otherwise unchanged |
| KakaoStandalone.JsonBaseMatches | kakao_geocoding.py:406-413 | this module's base name is `KakaoStandalone.JsonBase`; it names dumps as the two-provider module does, except that no provider goes before the timestamp |
| KakaoStandalone.ReverseGeocode | kakao_geocoding.py:313-471 | missing columns raise; with both columns the run succeeds exactly when an adapter exists or credentials are found, and then the initialised table is run through the adapter with this module's dump names, the eighteen explicit detail writes being the shared detail loop; the slot gets a fresh adapter exactly when one is built, and is otherwise unchanged |

## Left out

- HTTP: `requests.get`, headers, URLs, timeouts and `raise_for_status` are not modelled. Each call receives a `Response`: a decoded body, an HTTP error or a failure.
- Credential lookup: environment variables, `import config` and `importlib.reload` are not modelled. Adapter construction succeeds or raises according to the parameter `credentialsFound`.
- Dump writes: `_save_api_json` and the inline dump of `kakao_geocoding.py` are file I/O. Only whether the write succeeded (`written`) and the path naming are modelled.
- Console output is left out: the 403/401 diagnostics, the progress and summary prints, and the success count. It does not affect any result.
- Delays and clocks: `time.sleep` is left out. `datetime.now()` becomes the `timestamp` text parameter.
- `float()` of a non-empty string is the parameter `parseText`, which may fail. `str()` of a float, list or dict is the parameter `show`. Floating-point values are reals.
- The wrappers `kakao_geocode`, `naver_geocode`, `kakao_reverse_geocode` and `naver_reverse_geocode` (`geocoding.py:549-566`) are left out. Each only fixes `provider`, so they are `Batch.Geocode` and `Batch.ReverseGeocode` called with that provider.
- Batch.Row: index labels are natural numbers, assumed distinct (a RangeIndex). With duplicate labels, pandas `df.at` would write every row sharing a label.
- KakaoStandalone.Geocode: its progress test `(idx + 1) % 10` would raise TypeError for string labels. With natural-number labels it never raises.
- KakaoAdapter.GeocodeAddress: `pd.isna` is modelled as "the cell is None". The same applies to every other adapter. The model has no NaN, and a list-valued cell, whose `pd.isna` array raises when truth-tested, counts as present.
- Python.Lower: only ASCII letters and KELVIN SIGN are lower-cased. These are the only characters whose lower-case form can spell "kakao" or "naver". Other letters are left as they are, which can change only the text of the "unsupported provider" error.
- Dispatch.ProviderRegistry.GetProvider: the provider is `None` or a string. A non-string provider, which would raise AttributeError on `.strip()`, is not modelled. One flag says whether construction finds credentials, whichever vendor is built.
- The two adapter objects' API keys and headers are not modelled. Only object identity and the vendor matter to the callers.

## Findings

| source | as written | input that shows it | evidently intended | confidence | as-written member | corrected member |
|---|---|---|---|---|---|---|
| kakao_geocoding.py:171-173 | `if "road_address" in doc:` then `road.get(...)`; a present key holding JSON null raises AttributeError, which the `except` turns into None for the whole call | a first document `{"road_address": null, "address": {"address_name": "1-1"}}` | blank the road namespace and keep the lot-number address, as the truthiness test of `geocoding.py:125` does | medium; not executed | KakaoStandalone.NullRoadAddressLosesResult | KakaoAdapter.ReverseSucceeds |
