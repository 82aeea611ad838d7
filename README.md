# geo-garry, modelled in Dafny

geo-garry is a small geo library for Russian delivery services. It does three jobs:

- It measures the distance in kilometres from a point to a city boundary: the MKAD ring road around Moscow and the KAD ring road around Saint Petersburg.
- It turns an address into a point and a point into an address, through Google Maps. It also formats OpenStreetMap answers.
- It finds the federal-subject code (the Russian region number) of an address.

Every provider answer goes through a cache-aside layer. A service reads a key-value store first. On a miss it computes the value, writes it back with a 30-day expiry and returns it. Some namespaces also cache "nothing found" (a negative cache).

This project models that core and proves its properties. It is made of these modules:

- `Wrappers`, `Text` and `Numbers` model `Option`/`Result`, the Python string operations `join`, `split` and `replace`, and Python numbers. Numbers are exact decimals; the module covers `str`, `float()`, `int()`, `round` with ties to even, and `+`/`*` on int and float.
- `DataClasses` models the `Coordinates` value and the `CoordinatesAddress` record.
- `Cache` models the storage classes, the get-or-refresh protocol and the key-value store. The store is a class whose calls are recorded, so the model can state which reads and writes happen.
- `GmapsCache` models the four storage namespaces, with their keys and codecs.
- `FederalSubjects` models the table of 86 federal subjects.
- `Distance` models the distance calculators. The nearest-exits strategy works on the MKAD exits; the polygon-centre strategy walks the route backwards. There is also the cached calculator.
- `GmapsAddress` models the current Google Maps address formatter, with schemas made of names, lists (AND) and tuples (OR). `GmapsLegacy` models the older duplicate of it.
- `Osm` models the OpenStreetMap formatter.
- `GmapsGeocode` models the forward, reverse and reverse-by-address geocoding services.
- In the modules whose name ends in `Examples`, and in the worked examples of `Distance`, the test scenarios of the repository are stated as lemmas. The scenarios stated only in part, or not at all, are listed under "## Left out".

Some code works by changing state step by step, and the model keeps that form:

- the key-value store and the services are classes;
- the loops of the source are methods with loop invariants: the address constructor, `format`, the exits collection, the route walk and the reverse refresh loop.

Each such method is proved equal to a specification function. The lemmas are stated over those functions.

External parts are parameters, given from outside:

- the Google Maps client (`get_coordinates`, `get_addresses`, `get_coordinates_and_addresses`, the distance matrix, the driving route);
- the point-in-polygon test and the outside fraction of a segment;
- the k-d tree query.

### Where the code and its surroundings disagree

The model follows the code in each of these cases.

- `geo_garry/distance.py:9`, `geo_garry/gmaps/geocode.py:3` and `tests/test_cache_gmaps.py:3` import `CacheableServiceAbstract`, but `geo_garry/cache.py:62` defines `CacheableServiceAbstractMixin`. The model treats both names as the mixin.
- `CoordinatesAddress` is imported from `geo_garry/dataclasses.py`, but that file does not define it. The record's fields and wire form are taken from its uses (`geo_garry/gmaps/cache.py:40-54`, `tests/test_cache_gmaps.py:82-91`).
- `get_addresses` (`geo_garry/gmaps/api.py:117-119`) returns a generator. The reverse refresh (`geo_garry/gmaps/geocode.py:57`) accepts only a `list`, so against the real client every reverse refresh gives `None`. `get_coordinates_and_addresses` (`geo_garry/gmaps/api.py:138-140`) also builds its `addresses` as a generator, so every by-address refresh gives `None` too and caches `''`. The tests pass lists. The model keeps both shapes (`GmapsGeocode.GeneratorGivesNone`).
- The distance storage writes `str(value)`. A `None` distance is therefore written as `None`, and that text does not read back (`GmapsCache.DistanceNoneDoesNotRoundTrip`).
- Address records whose city is the empty string come back from the store with no city (`GmapsCache.AddressRoundTrip`).
- The MKAD calculator test mocks `calc_distance` to return the int 12345 (`tests/test_distance.py:182`) and expects `12345` to be written. The real nearest-exits strategy wraps the provider's answer in `float(...)` (`geo_garry/distance.py:159`), so it never returns an int, and through it a miss writes `12345.0` (`Distance.MkadMissExample`).
- Keys print the coordinates with `str`, so the int and float forms of one point (`Coordinates(1, 2)` and `Coordinates(1.0, 2.0)`, equal under Python's `==`) get separate cache entries (`GmapsCache.DistanceKeyInjective`).

## Model

| member | source | states |
|---|---|---|
| Text.Split | geo_garry/gmaps/cache.py:26 | `split` on one character yields at least one piece |
| Text.RemoveChar | geo_garry/gmaps/address.py:57 | `replace(c, '')` leaves no `c`, only drops characters, and changes nothing when `c` is absent |
| Text.SplitJoin | geo_garry/gmaps/cache.py:43-44 | splitting a join of separator-free parts gives back the parts |
| Text.JoinSplit | geo_garry/gmaps/cache.py:43-44 | joining the pieces of a split gives back the string |
| Text.SplitPiecesHaveNoSep | geo_garry/gmaps/cache.py:26 | no piece of a split holds the separator |
| Text.SplitPair | geo_garry/gmaps/cache.py:26 | `a,b` with separator-free sides splits into exactly `[a, b]` |
| Text.PairInjective | geo_garry/dataclasses.py:11-12 | two `prefix + a,b` strings are equal exactly when both sides are equal |
| Numbers.NatStrValue | geo_garry/gmaps/cache.py:14-15 | the decimal digits printed for a natural number denote that number |
| Numbers.ShiftLowDigits | geo_garry/gmaps/cache.py:14-15 | the integer part and the fraction digits printed for a mantissa rebuild it |
| Numbers.ParseShow | geo_garry/gmaps/cache.py:11-15 | every printed number parses back to exactly itself |
| Numbers.ShowInjective | geo_garry/gmaps/cache.py:14-15 | two numbers print the same exactly when they are equal in type (int or float) and value; `1` and `1.0` print differently, though Python's `==` equates them |
| Numbers.ShowHasNoSeparator | geo_garry/gmaps/cache.py:26 | a printed number is non-empty and holds neither `,` nor `;` |
| Numbers.ParseIntShow | geo_garry/gmaps/cache.py:50 | `int(str(n)) == n` |
| Numbers.ParseFloat | geo_garry/gmaps/cache.py:11-12 | `float(s)` succeeds exactly on signed decimal literals, the only form `str` writes, and gives a canonical float of the literal's value |
| Numbers.AsFloat | geo_garry/distance.py:129 | `float(x)` keeps the value, is canonical, and leaves a canonical float unchanged |
| Numbers.CanonicalUnique | geo_garry/gmaps/cache.py:11-12 | two canonical floats with the same value are the same number |
| Numbers.RoundHalfEven | geo_garry/gmaps/cache.py:38 | the rounded quotient is within half a unit, and a tie goes to the even neighbour |
| Numbers.Round | geo_garry/gmaps/cache.py:38 | `round(x, n)` keeps an int, gives a canonical float for a float, and keeps the value when there are no more than `n` digits |
| Numbers.RoundIdempotent | geo_garry/gmaps/cache.py:38 | rounding twice to the same digits equals rounding once |
| Numbers.RoundReal | geo_garry/distance.py:129 | `round(v)` is the nearest integer, ties to even |
| Numbers.Add | geo_garry/distance.py:182-186 | `a + b` has the sum's value and is a float exactly when an operand is |
| Numbers.Mul | geo_garry/distance.py:182-184 | `a * b` has the product's value and is a float exactly when an operand is |
| Numbers.ValueScaled | geo_garry/gmaps/cache.py:11-12 | trailing fraction zeros do not change a number's value |
| Numbers.SameScaleSameValue | geo_garry/gmaps/cache.py:11-12 | at equal scale, equal values mean equal numbers |
| DataClasses.AsStrSplits | geo_garry/dataclasses.py:11-12 | `as_str()` splits at its comma into the two printed coordinates, and each reads back exactly |
| DataClasses.AsStrInjective | geo_garry/dataclasses.py:11-12 | `as_str()` of two points is equal exactly when the points are equal in type and value, coordinate by coordinate |
| DataClasses.AsTupleInjective | geo_garry/dataclasses.py:14-15 | `as_tuple()` is latitude first, then longitude, and loses nothing |
| DataClasses.IntegerCoordinatesAsStr | tests/test_cache_gmaps.py:35-40 | `Coordinates(1, 2).as_str()` is `1,2` |
| Cache.KeyValueStore.Get | geo_garry/cache.py:41 | the store answers its stored value or nothing, and records one `get` |
| Cache.KeyValueStore.Exists | geo_garry/cache.py:57 | the store answers whether it holds the key, and records one `exists` |
| Cache.KeyValueStore.Set | geo_garry/cache.py:48 | the store holds the new value under the key, and records one `set` with its expiry |
| Cache.StorageGet | geo_garry/cache.py:39-59 | `storage.get` answers `ProbeOf` on the old contents, changes no data, and makes exactly the probe's store calls |
| Cache.StorageSet | geo_garry/cache.py:46-48 | `storage.set` writes the serialized value under the key with the 30-day expiry |
| Cache.CacheableService.Get | geo_garry/cache.py:74-87 | `get(key)` answers, refreshes and changes the store exactly as the protocol `GetOutcome` says |
| Cache.NewService | geo_garry/cache.py:63-67 | a service without a store fails with `CacheStorageNotFound`, and otherwise holds the given parts |
| Cache.AtMostOneWrite | geo_garry/cache.py:74-87 | a `get` writes at most once; it writes exactly when the refresh succeeded; the write is the refreshed value under the key for 30 days; with no write the data is unchanged |
| Cache.HitDoesNotRefresh | geo_garry/cache.py:82-83 | a truthy cached value is returned after one `get`, with no refresh and no write |
| Cache.EmptyHitUnderAllowEmpty | geo_garry/cache.py:51-59 | under the negative cache an existing empty value is a hit after `get` and `exists`, with no refresh |
| Cache.MissRefreshes | geo_garry/cache.py:85-87 | an absent key is refreshed under either policy, and the refreshed value is returned |
| Cache.FalsyValueRecomputed | geo_garry/cache.py:82 | under the standard policy a falsy cached value is recomputed |
| Cache.StandardFalsyIsNone | geo_garry/cache.py:42-43 | the standard read answers `None` for a falsy raw value, whatever the decoder |
| Cache.NotFoundExactly | geo_garry/cache.py:56-59 | the negative-cache read raises `CacheValueNotFound` exactly when the value is falsy and the key is absent; otherwise it decodes |
| Cache.SecondGetHits | geo_garry/cache.py:74-87 | after a refreshing `get` whose value reads back and counts as a hit, a second `get` hits with the same answer and no write |
| GmapsCache.DistanceKeyInjective | geo_garry/gmaps/cache.py:8-9 | two points share a distance key exactly when they are equal in type and value; so `Coordinates(1, 2)` and `Coordinates(1.0, 2.0)`, equal under Python's `==`, get separate cache entries (`distance:1,2` and `distance:1.0,2.0`) |
| GmapsCache.DistanceRoundTrip | geo_garry/gmaps/cache.py:11-15 | a written distance reads back as a float of the same value, truthy exactly when the original was |
| GmapsCache.DistanceCodecRoundTrips | geo_garry/gmaps/cache.py:11-15 | a canonical float distance reads back unchanged |
| GmapsCache.DistanceNoneDoesNotRoundTrip | geo_garry/gmaps/cache.py:11-15 | a `None` distance is written as `None`, and reading it raises `ValueError` |
| GmapsCache.CoordinatesRoundTrip | geo_garry/gmaps/cache.py:23-30 | a written point reads back with equal values, as floats |
| GmapsCache.CoordinatesCodecRoundTrips | geo_garry/gmaps/cache.py:23-30 | `None`, and points printed as Python floats, read back unchanged |
| GmapsCache.CoordinatesMalformed | geo_garry/gmaps/cache.py:26 | non-empty text that is not two comma-separated fields raises `ValueError` |
| GmapsCache.AddressKeyShared | geo_garry/gmaps/cache.py:37-38 | two points share an address key exactly when their coordinates are equal after rounding to 4 digits |
| GmapsCache.AddressKeySharedByValue | geo_garry/gmaps/cache.py:37-38 | for float points, sharing an address key means the rounded values are equal |
| GmapsCache.AddressKeyExample | tests/test_geocode_gmaps.py:173-174 | the key of the point `1.22339,4.56561` is `geo:1.2234,4.5656` |
| GmapsCache.AddressRoundTrip | geo_garry/gmaps/cache.py:40-54 | a record with no `;` reads back field by field, with float coordinates; an empty city comes back as `None` |
| GmapsCache.AddressCodecRoundTrips | geo_garry/gmaps/cache.py:40-63 | records with float coordinates, a non-empty city and no `;` read back unchanged in both address namespaces |
| GmapsCache.AddressSerializeExample | tests/test_cache_gmaps.py:82-87 | `CoordinatesAddress(1, 2, 'address2')` is written as `1,2;address2;;` |
| GmapsCache.AddressDeserializeExample | tests/test_cache_gmaps.py:90-91 | `5,7;address2;;1` reads as the point (5.0, 7.0), no city and code 1 |
| GmapsCache.AddressMalformed | geo_garry/gmaps/cache.py:43 | non-empty text without exactly four `;`-fields raises `ValueError` |
| GmapsCache.StoragePolicies | geo_garry/gmaps/cache.py:6-63 | distances use the standard policy; the coordinates, address and by-address namespaces use the negative cache; by-address shares the address codec |
| GmapsCache.NamespacesDisjoint | geo_garry/gmaps/cache.py:9-63 | the four namespaces never share a key |
| FederalSubjects.InTable | geo_garry/federal_subjects.py:1-88 | every name in the dictionary comes from an entry, with that entry's code |
| FederalSubjects.EntryInTable | geo_garry/federal_subjects.py:1-88 | every entry's name is in the dictionary |
| FederalSubjects.LastWins | geo_garry/federal_subjects.py:1-88 | a name's code is the code of its last entry |
| FederalSubjects.Absent | geo_garry/federal_subjects.py:1-88 | a name no entry has is not in the dictionary |
| FederalSubjects.CodesInRange | geo_garry/federal_subjects.py:1-88 | every code found lies in 1..99, so it is never falsy |
| FederalSubjects.CodesDistinct | geo_garry/federal_subjects.py:1-88 | two names have the same code exactly when they are the same name |
| FederalSubjects.EntryCodesDistinct | geo_garry/federal_subjects.py:1-88 | no two entries share a code |
| FederalSubjects.PositionOfCodeAt | geo_garry/federal_subjects.py:1-88 | each code identifies its entry |
| FederalSubjects.MoscowCode | geo_garry/federal_subjects.py:32 | `Москва` has code 77 |
| FederalSubjects.SaintPetersburgCode | geo_garry/federal_subjects.py:66 | `Санкт-Петербург` has code 78 |
| FederalSubjects.MoscowRegionCode | geo_garry/federal_subjects.py:33 | `Московская область` has code 50 |
| FederalSubjects.SevastopolCode | geo_garry/federal_subjects.py:70 | `Севастополь` has code 92 |
| FederalSubjects.BaikonurCode | geo_garry/federal_subjects.py:6 | `Байконур` has code 99 |
| FederalSubjects.AbbreviatedPetersburgHasNoCode | tests/test_geocode_gmaps.py:140-151 | the abbreviation `С.-Петербург` is in no entry and has no code |
| Distance.Kilometres | geo_garry/distance.py:129 | the result is at least 1; it is 1 up to 1000 m; above that it is the nearest whole kilometre, ties to even |
| Distance.GetDistance | geo_garry/distance.py:122-130 | 0 with no computation for a point that is not outside the polygon; otherwise the computation runs and gives at least 1 |
| Distance.CalcDistance | geo_garry/distance.py:153-191 | `calc_distance` gives the strategy's raw distance |
| Distance.Origins | geo_garry/distance.py:155-157 | the exits at the tree's indices, in order; `IndexError` exactly when an index is past the end |
| Distance.CollectOrigins | geo_garry/distance.py:155-157 | the collection loop gives `Origins` |
| Distance.NearestExitsSendsOrigins | geo_garry/distance.py:153-164 | with valid indices, the provider is asked about exactly those exits and the point, and its answer, as a float, is the distance |
| Distance.LastInside | geo_garry/distance.py:178-185 | the last step starting inside the polygon, or `None` when no step does |
| Distance.WalkPath | geo_garry/distance.py:175-191 | the reversed walk with its `break` gives `PathDistance` |
| Distance.WalkBackValue | geo_garry/distance.py:177-186 | the walk adds the reference value of the route to its starting value |
| Distance.PathDistanceValue | geo_garry/distance.py:175-191 | the route distance is the outside part of the last step starting inside, plus every later step; with no such step it is every step |
| Distance.AllOutsideIsTotal | geo_garry/distance.py:177-186 | a route none of whose steps starts inside counts in full as an integer; an empty route is the integer 0 |
| Distance.PrefixIgnored | geo_garry/distance.py:180-185 | the steps before a later step that starts inside do not count |
| Distance.PathDistanceBounds | geo_garry/distance.py:175-191 | with outside fractions in [0, 1], the route distance is between 0 and the route's total length |
| Distance.ReferenceStep | geo_garry/distance.py:186 | a last step that starts outside adds its whole length |
| Distance.OutsidePartBounds | geo_garry/distance.py:182-184 | the outside part of a step is between 0 and its length |
| Distance.LegsTotalAppend | geo_garry/distance.py:186 | the length of a route is additive over concatenation |
| Distance.CachedDistanceCalculator.GetDistance | geo_garry/distance.py:194-201 | 0 with no store access for a point not outside; otherwise the kilometres of the cached `get` |
| Distance.CachedMissAgrees | geo_garry/distance.py:197-201 | a cache miss computes once, writes under the point's distance key, and answers what the uncached calculator answers |
| Distance.CachedHitAgrees | geo_garry/distance.py:197-201 | after a miss stored a non-zero distance, the next call hits with the uncached answer and no computation |
| Distance.KilometresByValue | geo_garry/distance.py:129 | kilometres depend only on the value, not on int or float form |
| Distance.MkadCalculator | geo_garry/distance.py:204-215 | the MKAD calculator uses the nearest-exits strategy over the 93 MKAD exits |
| Distance.KadCalculator | geo_garry/distance.py:218-228 | the KAD calculator uses the polygon-centre strategy from the float point (59.95, 30.305) |
| Distance.KilometresExamples | tests/test_distance.py:14-22 | 100590.1234 m is 101 km and 63 m is 1 km; a cached 12345 is 12 km |
| Distance.ExampleKey | tests/test_distance.py:160-162 | the distance key of (50.4254225, 36.9020654) is `distance:50.4254225,36.9020654` |
| Distance.CachedHitExample | tests/test_distance.py:157-163 | a cached `12345` is 12 km after one `get`, with no computation |
| Distance.CachedMissExample | tests/test_distance.py:165-170 | on an empty store a computed 12345 m is written as `12345` for 30 days and answered as 12 km |
| Distance.MkadHitExample | tests/test_distance.py:173-179 | for the MKAD calculator and the point (50.4254225, 36.9020654) outside its polygon, a cached `12345` is 12 km after one `get` of `distance:50.4254225,36.9020654`, with no computation |
| Distance.ShowFloatDistance | geo_garry/gmaps/cache.py:14-15 | `str(12345.0)` is `12345.0` |
| Distance.MkadMissExample | geo_garry/distance.py:153-159 | through the real nearest-exits strategy, valid tree indices and a provider answer of 12345 m give the float 12345.0, so a miss on an empty store writes `12345.0` under `distance:50.4254225,36.9020654` for 30 days and answers 12 km |
| Distance.KadExampleKey | tests/test_distance.py:194-196 | the distance key of (59.991988, 29.775469) is `distance:59.991988,29.775469` |
| Distance.KadCalculatorExample | tests/test_distance.py:190-204 | the same cached and computed cases for the KAD calculator and the point (59.991988, 29.775469) outside its polygon |
| GmapsAddress.LongName | geo_garry/gmaps/address.py:57 | the stored name has no accent when stripping, and is the long name itself when nothing is stripped |
| GmapsAddress.LastWith | geo_garry/gmaps/address.py:54-58 | the position of the last component having a type, or `None` exactly when no component has it |
| GmapsAddress.CollectComponents | geo_garry/gmaps/address.py:52-58 | the nested constructor loops build `ComponentsOf` |
| GmapsAddress.RecordTypesAt | geo_garry/gmaps/address.py:55-58 | one component stores its name under each of its known types, and leaves other keys alone |
| GmapsAddress.ComponentsOfMeaning | geo_garry/gmaps/address.py:52-58 | a key is stored exactly when it is a known type that some component has; its value is the name of the last such component |
| GmapsAddress.StoredKeysAreTerms | geo_garry/gmaps/address.py:39-49 | only the nine known types are stored |
| GmapsAddress.StrippedHasNoAccent | geo_garry/gmaps/address.py:57 | no stored name contains U+0301 |
| GmapsAddress.StripIsHarmless | geo_garry/gmaps/address.py:57 | without accents in the input, stripping changes nothing |
| GmapsAddress.NameRendering | geo_garry/gmaps/address.py:61-64 | a name renders as nothing when absent, its value when present, and with `ост. ` for a stop |
| GmapsAddress.HandleAllAppend | geo_garry/gmaps/address.py:65-69 | a list's rendering distributes over concatenation |
| GmapsAddress.HandleAllSingle | geo_garry/gmaps/address.py:65-69 | a one-member list renders as its member |
| GmapsAddress.FirstNonEmpty | geo_garry/gmaps/address.py:70-74 | the first member of a tuple with a non-empty rendering, or `None` exactly when all are empty |
| GmapsAddress.HandleFirstMeaning | geo_garry/gmaps/address.py:70-75 | a tuple renders as its first member with a non-empty rendering, or as nothing |
| GmapsAddress.RenderingFromComponents | geo_garry/gmaps/address.py:60-75 | every rendered piece is a stored value, possibly with the stop prefix |
| GmapsAddress.AllFromComponents | geo_garry/gmaps/address.py:65-69 | the same for lists |
| GmapsAddress.FirstFromComponents | geo_garry/gmaps/address.py:70-74 | the same for tuples |
| GmapsAddress.SchemaTerms | geo_garry/gmaps/address.py:83-84 | a non-empty list schema is used as given; anything else falls back to the default |
| GmapsAddress.DefaultSchema | geo_garry/gmaps/address.py:83-84 | a missing, empty or non-list schema formats as the default schema |
| GmapsAddress.Present | geo_garry/gmaps/address.py:61-64 | the value under a key as a list of one, or nothing exactly when the key is absent |
| GmapsAddress.AllNames | geo_garry/gmaps/address.py:65-69 | a list of plain names renders the present ones, in order |
| GmapsAddress.SettlementMeaning | geo_garry/gmaps/address.py:7-13 | the settlement part is the locality, or else the present administrative areas |
| GmapsAddress.StreetMeaning | geo_garry/gmaps/address.py:14-22 | the street part is the route and number when that is non-empty, or else the bus stop, or else the transit stop |
| GmapsAddress.AsDescStringMeaning | geo_garry/gmaps/address.py:6-23 | the default schema is the settlement part followed by the street part |
| GmapsAddress.FederalSubjectMeaning | geo_garry/gmaps/address.py:24-31 | the federal subject is the first present of area levels 1, 2, 3 and the locality, or the empty string |
| GmapsAddress.CityMeaning | geo_garry/gmaps/address.py:32-34 | the city is the locality, or the empty string |
| GmapsAddress.GoogleMapsAddress.constructor | geo_garry/gmaps/address.py:52-58 | the stored components are `ComponentsOf` the input, with accents removed |
| GmapsAddress.GoogleMapsAddress.Format | geo_garry/gmaps/address.py:77-89 | `format` joins the schema's renderings with `, ` |
| GmapsAddressExamples.Terms4Format | tests/test_geocode_gmaps.py:86-107 | the bus-stop address is `Челюскинский, ост. Сельхозтехника`, in `Московская область` |
| GmapsAddressExamples.StopAddressFormat | tests/test_geocode_gmaps.py:104-107 | a locality, a bus stop and a region with no street render as `locality, ост. stop`, with the region as subject |
| GmapsAddressExamples.Terms1Format | tests/test_geocode_gmaps.py:8-32 | the street address is `Санкт-Петербург, улица Профессора Качалова, 9а`, in `Санкт-Петербург` |
| GmapsAddressExamples.StreetAddressFormat | tests/test_geocode_gmaps.py:29-32 | a locality, route and number with a level-2 area render as `locality, route, number`, with that area as subject |
| GmapsLegacy.GoogleMapsAddress.constructor | geo_garry/gmaps.py:121-127 | the stored components are `ComponentsOf` the input, nothing stripped |
| GmapsLegacy.GoogleMapsAddress.Format | geo_garry/gmaps.py:146-158 | `format` joins the schema's renderings under the legacy default schema |
| GmapsLegacy.StoresLongNameVerbatim | geo_garry/gmaps.py:121-127 | a known type is stored with the exact long name of its last component |
| GmapsLegacy.AgreesWithCurrent | geo_garry/gmaps.py:86-158 | with no accent in the input, the legacy and current formatters agree on every schema |
| GmapsLegacy.AccentKept | geo_garry/gmaps.py:127 | an accented locality keeps its accent in the legacy formatter and loses it in the current one |
| Osm.MatchState | geo_garry/osm.py:43-49 | only `Автономная Республика Крым` is renamed, to `Республика Крым` |
| Osm.MatchStateIdempotent | geo_garry/osm.py:43-49 | renaming twice equals renaming once |
| Osm.SchemaKeys | geo_garry/osm.py:56-57 | a non-empty list schema is used as given; anything else falls back to the default |
| Osm.OpenStreetMapsAddress.constructor | geo_garry/osm.py:40-41 | the dictionary is the response's `address`, or empty |
| Osm.OpenStreetMapsAddress.Format | geo_garry/osm.py:51-68 | `format` joins the pieces of the schema's truthy keys with `, ` |
| Osm.PiecesAppend | geo_garry/osm.py:60-67 | rendering distributes over concatenation of key lists |
| Osm.PiecesSingle | geo_garry/osm.py:61-67 | a key renders as its piece when truthy and is skipped otherwise |
| Osm.OtherKeysVerbatim | geo_garry/osm.py:61-67 | every key but `state` is copied verbatim |
| Osm.StateRendering | geo_garry/osm.py:63-66 | inside `Байконыр Г.А.` the state is `Байконур`; elsewhere it is the renamed state |
| Osm.PiecesNonEmpty | geo_garry/osm.py:61-67 | no rendered piece is empty, and there are no more pieces than keys |
| Osm.PiecesFromComponents | geo_garry/osm.py:61-67 | every piece but the state comes from the dictionary |
| Osm.DefaultSchema | geo_garry/osm.py:56-57 | a missing, empty or non-list schema renders the default keys |
| Osm.FederalSubjectMeaning | geo_garry/osm.py:32-34 | the federal subject is the state piece, or the empty string |
| Osm.PiecesOfEmpty | geo_garry/osm.py:61-62 | an empty dictionary renders nothing |
| Osm.NoAddressIsEmpty | geo_garry/osm.py:41 | a response without `address` renders the empty string |
| OsmExamples.BaikonurExample | tests/test_geocode_osm.py:97-99 | the Baikonur response is `Байконур, улица Гагарина, Больница Акай`, subject `Байконур` |
| OsmExamples.ThreeKeys | geo_garry/osm.py:60-68 | three truthy default keys render as three pieces, in schema order |
| OsmExamples.MoscowExample | tests/test_geocode_osm.py:89-91 | the Moscow response renders its four default keys in order, subject `Москва` |
| OsmExamples.FourKeys | geo_garry/osm.py:60-68 | four truthy default keys render as four pieces, in schema order |
| GmapsGeocode.ForwardRefresh | geo_garry/gmaps/geocode.py:20-32 | the refresh never fails; it is `None` exactly when the provider found nothing, and otherwise the provider's point |
| GmapsGeocode.GmapsCacheableGeocodeService.GetCoordinates | geo_garry/gmaps/geocode.py:34-35 | `get_coordinates` is the cache protocol over the coordinates namespace |
| GmapsGeocode.ForwardCachedEmpty | tests/test_geocode_gmaps.py:119-121 | an address cached as empty answers `None` with no provider call |
| GmapsGeocode.ForwardMiss | tests/test_geocode_gmaps.py:123-128 | an unknown address asks the provider once and caches the answer under `coordinates:` |
| GmapsGeocode.BuildRecord | geo_garry/gmaps/geocode.py:60-89 | the record holds the point, the first result's address and city, and the code of `RecordCode` |
| GmapsGeocode.RefreshFromData | geo_garry/gmaps/geocode.py:51-89 | the refresh never fails; it builds a record exactly when the data is a non-empty list |
| GmapsGeocode.RefreshLoop | geo_garry/gmaps/geocode.py:51-89 | the pop-and-scan loop gives `RefreshFromData` |
| GmapsGeocode.FirstWithCode | geo_garry/gmaps/geocode.py:66-72 | the first result whose federal subject has a code, or `None` exactly when none has |
| GmapsGeocode.ScanMeaning | geo_garry/gmaps/geocode.py:66-72 | the loop stops at the first result with a code, or leaves the last result's lookup |
| GmapsGeocode.RecordCodeMeaning | geo_garry/gmaps/geocode.py:63-72 | the record's code is that of the first result with a code, or else the last result's lookup |
| GmapsGeocode.RecordCodeFromTable | geo_garry/gmaps/geocode.py:64-70 | a record's code is always a code of the table |
| GmapsGeocode.LaterRecordsOnlyAffectCode | geo_garry/gmaps/geocode.py:60-62 | later results change only the code, never the address or city |
| GmapsGeocode.GeneratorGivesNone | geo_garry/gmaps/geocode.py:57 | a generator of results is not a list, so nothing is built |
| GmapsGeocode.ReverseKeepsPoint | geo_garry/gmaps/geocode.py:45-89 | a record built from the provider's results for a point carries that point |
| GmapsGeocode.GmapsCacheableReverseGeocodeService.GetAddress | geo_garry/gmaps/geocode.py:91-93 | the record's address through the cache protocol, or `None` |
| GmapsGeocode.GmapsCacheableReverseGeocodeService.GetFederalCode | geo_garry/gmaps/geocode.py:95-97 | the record's code through the cache protocol, or `None` |
| GmapsGeocode.GmapsCacheableReverseGeocodeService.GetCity | geo_garry/gmaps/geocode.py:99-101 | the record's city through the cache protocol, or `None` |
| GmapsGeocode.ReverseMiss | tests/test_geocode_gmaps.py:169-182 | an uncached point asks the provider once and caches the record it built under `geo:` |
| GmapsGeocode.ReverseCachedHit | tests/test_geocode_gmaps.py:132-139 | a cached record answers its own address, code and city with no provider call |
| GmapsGeocode.ByAddressUsesProviderPoint | geo_garry/gmaps/geocode.py:107-114 | a record found by address carries the provider's point |
| GmapsGeocode.ByAddressUnknownGivesNone | geo_garry/gmaps/geocode.py:107-110 | an address the provider does not know gives no record |
| GmapsGeocode.GmapsCacheableReverseByAddressService.GetGeo | geo_garry/gmaps/geocode.py:116-117 | `get_geo` is the cache protocol over the `geo_by_address:` namespace |
| GmapsGeocode.ByAddressCachedEmpty | tests/test_geocode_gmaps.py:212-216 | an address cached as empty answers `None` with no provider call |
| GmapsGeocode.ByAddressMiss | geo_garry/cache.py:74-87 | an uncached address is refreshed once after `get` and `exists`, and its serialized answer is written once under `geo_by_address:` for 30 days |
| GmapsGeocodeExamples.ForwardExample | tests/test_geocode_gmaps.py:123-128 | an unknown `Moscow City` found at (1.22339, 4.56561) is answered with that point after `get` and `exists`, and written once as `1.22339,4.56561` under `coordinates:Moscow City` for 30 days |
| GmapsGeocodeExamples.AbbreviatedFormats | tests/test_geocode_gmaps.py:140-168 | the first result formats as `С.-Петербург, улица Профессора Качалова, 9а`, city and subject `С.-Петербург` |
| GmapsGeocodeExamples.CityStreetFormat | geo_garry/gmaps/address.py:5-34 | a locality, route and number with no area render as `locality, route, number`, with the locality as city and subject |
| GmapsGeocodeExamples.ExampleCodes | tests/test_geocode_gmaps.py:140-166 | the first result has no code; the second has 78 |
| GmapsGeocodeExamples.RecordCodeOfTwo | geo_garry/gmaps/geocode.py:66-72 | with two results, a first without a code defers to the second |
| GmapsGeocodeExamples.ExampleRecordCode | tests/test_geocode_gmaps.py:173-177 | the test's two results give the code 78 |
| GmapsGeocodeExamples.ReverseExample | tests/test_geocode_gmaps.py:167-182 | the refresh builds the record with the first result's address and city and the second result's code 78 |
| GmapsGeocodeExamples.ByAddressHitExample | tests/test_geocode_gmaps.py:186-192 | a cached `1,2;address;city;` under `geo_by_address:Уруру` is answered as (1.0, 2.0, `address`, `city`, no code) after one `get`, with no provider call and no write |
| GmapsGeocodeExamples.CachedRecordExample | tests/test_geocode_gmaps.py:187-189 | `1,2;address;city;` reads as the point (1.0, 2.0), which Python's `==` equates with (1, 2), address `address`, city `city` and no code |
| GmapsGeocodeExamples.PlaceResultAddress | tests/test_geocode_gmaps.py:194-219 | the one by-address result renders as `Санкт-Петербург, улица Профессора Качалова, 9а` |
| GmapsGeocodeExamples.PlaceResultCity | tests/test_geocode_gmaps.py:194-221 | its city is `Санкт-Петербург` |
| GmapsGeocodeExamples.PlaceResultCode | tests/test_geocode_gmaps.py:194-221 | its federal subject is the second-level area `Санкт-Петербург`, so its code is 78 |
| GmapsGeocodeExamples.PlaceRecordExample | tests/test_geocode_gmaps.py:192-221 | the provider's answer for `Assa` at (100, 200) refreshes to `CoordinatesAddress(100, 200, 'Санкт-Петербург, улица Профессора Качалова, 9а', 'Санкт-Петербург', 78)` |
| GmapsGeocodeExamples.PlaceRecordWritten | tests/test_geocode_gmaps.py:223-225 | that record is written as `100,200;Санкт-Петербург, улица Профессора Качалова, 9а;Санкт-Петербург;78` |

## Left out

- Python's binary floating point is not modelled. A number is an exact decimal, and a float is the shortest decimal Python prints for it. Exponent forms of `repr` (`1e-05`), negative zero, binary rounding error and whitespace accepted by `float()` are not modelled.
- Numbers.ParseFloat: `float()` also accepts `inf`, `infinity` and `nan` in any case, `_` digit groups and non-ASCII digits; the model gives `None` on those forms, where Python would give a number. The serializers never write them.
- Numbers.ParseInt: `int()` (`geo_garry/gmaps/cache.py:50`) also accepts surrounding whitespace and `_` digit groups; the model gives `None` on those forms, where Python would give a number. The serializers never write them.
- Geometry (shapely polygons, `is_inside_polygon`, `get_line`, `get_part_outside_polygon`) is a parameter of the polygon. The polygon datasets `MKAD_POLYGON` and `KAD_POLYGON` (`geo_garry.polygons`) are not part of this model.
- scipy's `KDTree` is a parameter. Building a tree from the exits when none is given (`geo_garry/distance.py:151`) is not modelled. The distances the tree returns beside the indices are unused by the source and are left out.
- The Google Maps client and its response parsing (`geo_garry/gmaps/api.py`) are parameters: the answers to `get_coordinates`, `get_addresses`, `get_coordinates_and_addresses`, `get_distance_from_points` and `get_driving_path`. Their fallbacks (0, no steps, `None`) are among the values these parameters may take.
- The OpenStreetMap HTTP request (`geo_garry/osm.py:11-22`) and the `geo_garry/geocode.py` facade are left out: they are network calls and wiring. The facade also imports services that no longer exist.
- GmapsGeocode.RefreshLoop: the loop pops from its own copy of the provider's results. The source's `pop(0)` (`geo_garry/gmaps/geocode.py:60`, `geo_garry/gmaps/geocode.py:68`) consumes, in place, the list the provider returned. The model's provider is a pure function, so the emptying of a list shared with the provider, and a different record on a second miss when the provider hands back that same list, are not modelled.
- Logging is left out everywhere; it changes no value.
- Expiry inside the store is the store's business. The model records the `ex` argument of each `set` but does not let values expire.
- Osm.Formatted: only string keys are modelled. A schema term is looked up with `self.address_components.get(term)` (`geo_garry/osm.py:61`). A list or dict term raises `TypeError` there, because it is unhashable. Any other non-string term, such as a tuple, a number or `None`, matches no key, since every key is a string, and `if val:` (`geo_garry/osm.py:62`) skips it. Neither case is modelled.
- GmapsGeocode.GmapsCacheableReverseByAddressService: the `get_address`, `get_federal_code` and `get_city` methods it inherits are not repeated. They are the projections of `get_geo` in the other class's form.
- The test case where the store's `exists` is mocked true while `get` returns `None` for the key is stated generically (`GmapsGeocode.ByAddressCachedEmpty` and `GmapsGeocode.ForwardCachedEmpty`), with the store holding an empty value.
- The nearest-exits test with its concrete tree answer (`tests/test_distance.py:26-60`) and the polygon-centre test with its concrete route (`tests/test_distance.py:62-153`) depend on geometry and the real tree. They are covered by the generic lemmas `Distance.NearestExitsSendsOrigins` and `Distance.PathDistanceValue`.
- OsmExamples.MoscowExample: it states its result as the concatenation of the four pieces with `, ` rather than as one literal.
- The Google Maps formatter tests for the second and third addresses (`tests/test_geocode_gmaps.py:33-85`) are not restated. The first and fourth are, and every schema has a general lemma.
- The Sevastopol OpenStreetMap response (`tests/test_geocode_osm.py:93-95`) is not restated.
- The reverse-geocoding test is stated for the refresh (`GmapsGeocodeExamples.ReverseExample`) and for the generic miss (`GmapsGeocode.ReverseMiss`). It is not stated as one end-to-end service call on the concrete point.
- The by-address miss test (`tests/test_geocode_gmaps.py:218-225`) is stated in three parts: the refresh of the provider's answer (`GmapsGeocodeExamples.PlaceRecordExample`), the text that record is written as (`GmapsGeocodeExamples.PlaceRecordWritten`) and the generic miss (`GmapsGeocode.ByAddressMiss`). It is not stated as one end-to-end service call on `Assa`.
- Distance.MkadHitExample, Distance.MkadMissExample and Distance.KadCalculatorExample take it as given that the test point lies outside the polygon, because the polygon's geometry is a parameter. For the same reason the polygon-centre calculation that the KAD test mocks out is not unfolded.
