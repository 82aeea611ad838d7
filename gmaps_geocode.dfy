/**
 * The Google Maps geocoding services, each a cache-aside service over one
 * storage namespace: forward geocoding (address to point), reverse
 * geocoding (point to address record) and reverse geocoding by address
 * (address to point and address record). The reverse record takes its
 * address and city from the first provider result and its federal-subject
 * code from the first result, in order, whose federal subject is in the
 * code table.
 */
module GmapsGeocode {
  import opened Wrappers
  import opened Numbers
  import opened DataClasses
  import opened Cache
  import opened GmapsCache
  import GmapsAddress
  import FederalSubjects

  // ---------------------------------------------------------------------
  // The provider, as seen by the services

  /** `get_coordinates(place)`: the point found for an address, if any. */
  type Geocoder = string -> Option<PointTuple>

  /** An address list as the provider hands it over: nothing, a Python list
      of component lists, or a generator of them (truthy, but not a list). */
  datatype RawAddresses =
    | NoAddresses
    | AddressList(records: seq<seq<GmapsAddress.Component>>)
    | Generator(records: seq<seq<GmapsAddress.Component>>)

  /** `get_addresses(point)`. */
  type ReverseGeocoder = PointTuple -> RawAddresses

  /** `get_coordinates_and_addresses(place)`: nothing, or a point and its address list. */
  type PlaceGeocoder = string -> Option<(PointTuple, RawAddresses)>

  /** What `_get_data` returns when it returns something. */
  datatype Data = Data(addresses: RawAddresses, coordinates: Coordinates)

  // ---------------------------------------------------------------------
  // Forward geocoding

  /** `GmapsCacheableGeocodeService.refresh_value`. */
  function ForwardRefresh(geocoder: Geocoder, key: string): (r: Result<Option<Coordinates>, Error>)
    ensures r.Success?
    ensures geocoder(key).None? <==> r.value.None?
    ensures geocoder(key).Some? ==>
      r.value == Some(Coordinates(geocoder(key).value.0, geocoder(key).value.1))
  {
    match geocoder(key)
    case None => Success(None)
    case Some((lat, lng)) => Success(Some(Coordinates(lat, lng)))
  }

  function ForwardRefreshOf(geocoder: Geocoder): string -> Result<Option<Coordinates>, Error>
  {
    key => ForwardRefresh(geocoder, key)
  }

  /** `GmapsCacheableGeocodeService`. */
  class GmapsCacheableGeocodeService {
    const geocoder: Geocoder
    const service: CacheableService<string, Coordinates>

    ghost predicate Valid()
    {
      service.storageClass == CoordinatesStorage && service.refresh == ForwardRefreshOf(geocoder)
    }

    constructor(store: KeyValueStore, geocoder: Geocoder)
      ensures Valid() && this.geocoder == geocoder && service.store == store
    {
      this.geocoder := geocoder;
      service := new CacheableService(store, CoordinatesStorage, ForwardRefreshOf(geocoder));
    }

    /** `get_coordinates(address)`: `get` on the coordinates storage. */
    method GetCoordinates(address: string) returns (r: Result<Option<Coordinates>, Error>)
      requires Valid()
      modifies service.store
      ensures var o := GetOutcome(CoordinatesStorage, ForwardRefreshOf(geocoder), old(service.store.data), address);
        r == o.result && service.store.data == o.data && service.store.calls == old(service.store.calls) + o.calls
    {
      var refreshed;
      r, refreshed := service.Get(address);
    }
  }

  /** An address cached as empty answers `None` and asks the provider nothing. */
  lemma ForwardCachedEmpty(geocoder: Geocoder, data: map<string, string>, address: string)
    requires CoordinatesKey(address) in data && data[CoordinatesKey(address)] == ""
    ensures var o := GetOutcome(CoordinatesStorage, ForwardRefreshOf(geocoder), data, address);
      o.result == Success(None) && !o.refreshed && o.data == data
  {
  }

  /** An unknown address asks the provider once and caches what it found,
      the empty string when it found nothing. */
  lemma ForwardMiss(geocoder: Geocoder, data: map<string, string>, address: string)
    requires CoordinatesKey(address) !in data
    ensures var o := GetOutcome(CoordinatesStorage, ForwardRefreshOf(geocoder), data, address);
      o.refreshed && o.result == ForwardRefresh(geocoder, address)
      && o.data == data[CoordinatesKey(address) := CoordinatesSerialize(ForwardRefresh(geocoder, address).value)]
      && (geocoder(address).None? ==> o.data[CoordinatesKey(address)] == "")
  {
  }

  // ---------------------------------------------------------------------
  // Reverse geocoding

  /** The federal subject of one provider record. */
  function FederalSubjectOf(record: seq<GmapsAddress.Component>): string
  {
    GmapsAddress.Formatted(GmapsAddress.ComponentsOf(record, true),
      Some(GmapsAddress.All(GmapsAddress.FederalSubject)), GmapsAddress.AsDescString)
  }

  /** `FEDERAL_SUBJECT_CODES.get(federal_subject)` for one record. */
  function CodeOf(record: seq<GmapsAddress.Component>): Option<int>
  {
    FederalSubjects.FederalCode(FederalSubjectOf(record))
  }

  /** Python truthiness of an optional code. */
  predicate CodeTruthy(code: Option<int>)
  {
    code.Some? && code.value != 0
  }

  /** The `while` loop: pop records from the front until one has a code;
      the code of the last record popped, or `code` when none is left. */
  function Scan(code: Option<int>, rest: seq<seq<GmapsAddress.Component>>): Option<int>
    decreases |rest|
  {
    if |rest| == 0 then code
    else
      var c := CodeOf(rest[0]);
      if CodeTruthy(c) then c else Scan(c, rest[1..])
  }

  /** The federal code of the record built from `records`. */
  function RecordCode(records: seq<seq<GmapsAddress.Component>>): Option<int>
    requires |records| > 0
  {
    var first := CodeOf(records[0]);
    if CodeTruthy(first) then first else Scan(first, records[1..])
  }

  /** The record built from a non-empty list of provider results. */
  function BuildRecord(coordinates: Coordinates, records: seq<seq<GmapsAddress.Component>>): (a: CoordinatesAddress)
    requires |records| > 0
    ensures a.latitude == coordinates.latitude && a.longitude == coordinates.longitude
    ensures a.address == GmapsAddress.Formatted(GmapsAddress.ComponentsOf(records[0], true),
      Some(GmapsAddress.All(GmapsAddress.AsDescString)), GmapsAddress.AsDescString)
    ensures a.city == Some(GmapsAddress.Formatted(GmapsAddress.ComponentsOf(records[0], true),
      Some(GmapsAddress.All(GmapsAddress.City)), GmapsAddress.AsDescString))
    ensures a.federalCode == RecordCode(records)
  {
    var components := GmapsAddress.ComponentsOf(records[0], true);
    CoordinatesAddress(
      coordinates.latitude,
      coordinates.longitude,
      GmapsAddress.Formatted(components, Some(GmapsAddress.All(GmapsAddress.AsDescString)), GmapsAddress.AsDescString),
      Some(GmapsAddress.Formatted(components, Some(GmapsAddress.All(GmapsAddress.City)), GmapsAddress.AsDescString)),
      RecordCode(records))
  }

  /** `GmapsCacheableReverseGeocodeService.refresh_value` given `_get_data`'s answer. */
  function RefreshFromData(data: Option<Data>): (r: Result<Option<CoordinatesAddress>, Error>)
    ensures r.Success?
    ensures r.value.Some? <==> data.Some? && data.value.addresses.AddressList? && data.value.addresses.records != []
    ensures r.value.Some? ==> r.value.value == BuildRecord(data.value.coordinates, data.value.addresses.records)
  {
    if data.None? then Success(None)
    else match data.value.addresses
      case AddressList(records) =>
        if records == [] then Success(None)
        else Success(Some(BuildRecord(data.value.coordinates, records)))
      case _ => Success(None)
  }

  /** `refresh_value` written as the source writes it: the first record is
      popped, then later ones are popped in a loop until one has a code. */
  method RefreshLoop(data: Option<Data>) returns (r: Result<Option<CoordinatesAddress>, Error>)
    ensures r == RefreshFromData(data)
  {
    if data.None? {
      return Success(None);
    }
    var coordinates := data.value.coordinates;
    if !data.value.addresses.AddressList? || data.value.addresses.records == [] {
      return Success(None);
    }
    var all := data.value.addresses.records;
    var rawAddresses := all[1..];
    var components := GmapsAddress.ComponentsOf(all[0], true);
    var address := GmapsAddress.Formatted(components, Some(GmapsAddress.All(GmapsAddress.AsDescString)), GmapsAddress.AsDescString);
    var city := GmapsAddress.Formatted(components, Some(GmapsAddress.All(GmapsAddress.City)), GmapsAddress.AsDescString);
    var federalCode := CodeOf(all[0]);
    if !CodeTruthy(federalCode) {
      while rawAddresses != []
        invariant Scan(federalCode, rawAddresses) == RecordCode(all)
        decreases |rawAddresses|
      {
        var record := rawAddresses[0];
        rawAddresses := rawAddresses[1..];
        federalCode := CodeOf(record);
        if CodeTruthy(federalCode) {
          break;
        }
      }
    }
    r := Success(Some(CoordinatesAddress(coordinates.latitude, coordinates.longitude, address, Some(city), federalCode)));
  }

  /** The position of the first record with a code. */
  function FirstWithCode(records: seq<seq<GmapsAddress.Component>>): (r: Option<nat>)
    ensures r.Some? ==> r.value < |records| && CodeTruthy(CodeOf(records[r.value]))
    ensures r.Some? ==> forall i :: 0 <= i < r.value ==> !CodeTruthy(CodeOf(records[i]))
    ensures r.None? <==> forall i :: 0 <= i < |records| ==> !CodeTruthy(CodeOf(records[i]))
  {
    if |records| == 0 then None
    else if CodeTruthy(CodeOf(records[0])) then Some(0)
    else
      var r := FirstWithCode(records[1..]);
      if r.Some? then Some(r.value + 1) else None
  }

  lemma {:induction false} ScanMeaning(code: Option<int>, rest: seq<seq<GmapsAddress.Component>>)
    ensures FirstWithCode(rest).Some? ==> Scan(code, rest) == CodeOf(rest[FirstWithCode(rest).value])
    ensures FirstWithCode(rest).None? && rest != [] ==> Scan(code, rest) == CodeOf(rest[|rest| - 1])
    ensures rest == [] ==> Scan(code, rest) == code
    decreases |rest|
  {
    if |rest| > 0 && !CodeTruthy(CodeOf(rest[0])) {
      ScanMeaning(CodeOf(rest[0]), rest[1..]);
    }
  }

  /** The record's code is that of the first result, in order, whose federal
      subject has a code; when none has, it is the last result's lookup. */
  lemma RecordCodeMeaning(records: seq<seq<GmapsAddress.Component>>)
    requires |records| > 0
    ensures FirstWithCode(records).Some? ==> RecordCode(records) == CodeOf(records[FirstWithCode(records).value])
    ensures FirstWithCode(records).None? ==> RecordCode(records) == CodeOf(records[|records| - 1])
  {
    ScanMeaning(CodeOf(records[0]), records[1..]);
  }

  /** The code of a record is always a code of the table, never invented. */
  lemma RecordCodeFromTable(records: seq<seq<GmapsAddress.Component>>)
    requires |records| > 0
    ensures RecordCode(records).Some? ==>
      exists i :: 0 <= i < |records| && FederalSubjectOf(records[i]) in FederalSubjects.FederalSubjectCodes
        && RecordCode(records).value == FederalSubjects.FederalSubjectCodes[FederalSubjectOf(records[i])]
  {
    RecordCodeMeaning(records);
    if FirstWithCode(records).Some? {
      var i := FirstWithCode(records).value;
      assert FederalSubjectOf(records[i]) in FederalSubjects.FederalSubjectCodes;
    } else {
      var i := |records| - 1;
      if RecordCode(records).Some? {
        assert FederalSubjectOf(records[i]) in FederalSubjects.FederalSubjectCodes;
      }
    }
  }

  /** Later results never change the address or the city, only the code. */
  lemma LaterRecordsOnlyAffectCode(coordinates: Coordinates, records: seq<seq<GmapsAddress.Component>>,
                                   others: seq<seq<GmapsAddress.Component>>)
    requires |records| > 0
    ensures BuildRecord(coordinates, [records[0]] + others).address == BuildRecord(coordinates, records).address
    ensures BuildRecord(coordinates, [records[0]] + others).city == BuildRecord(coordinates, records).city
  {
  }

  /** A generator from the provider is not a list, so nothing is built. */
  lemma GeneratorGivesNone(coordinates: Coordinates, records: seq<seq<GmapsAddress.Component>>)
    ensures RefreshFromData(Some(Data(Generator(records), coordinates))) == Success(None)
  {
  }

  /** `GmapsCacheableReverseGeocodeService._get_data`: the provider's
      addresses for the point, paired with the point itself. */
  function ReverseData(reverse: ReverseGeocoder, key: Coordinates): (d: Option<Data>)
    ensures d == Some(Data(reverse(AsTuple(key)), key))
  {
    Some(Data(reverse(AsTuple(key)), key))
  }

  function ReverseRefreshOf(reverse: ReverseGeocoder): Coordinates -> Result<Option<CoordinatesAddress>, Error>
  {
    key => RefreshFromData(ReverseData(reverse, key))
  }

  /** The record answered for a point always carries that point. */
  lemma ReverseKeepsPoint(reverse: ReverseGeocoder, key: Coordinates)
    requires RefreshFromData(ReverseData(reverse, key)).value.Some?
    ensures var a := RefreshFromData(ReverseData(reverse, key)).value.value;
      a.latitude == key.latitude && a.longitude == key.longitude
  {
  }

  /** The projections `a.field if a else None` of `get_address`, `get_federal_code` and `get_city`. */
  function AddressOf(r: Result<Option<CoordinatesAddress>, Error>): Result<Option<string>, Error>
  {
    match r
    case Failure(e) => Failure(e)
    case Success(None) => Success(None)
    case Success(Some(a)) => Success(Some(a.address))
  }

  function FederalCodeOf(r: Result<Option<CoordinatesAddress>, Error>): Result<Option<int>, Error>
  {
    match r
    case Failure(e) => Failure(e)
    case Success(None) => Success(None)
    case Success(Some(a)) => Success(a.federalCode)
  }

  function CityOf(r: Result<Option<CoordinatesAddress>, Error>): Result<Option<string>, Error>
  {
    match r
    case Failure(e) => Failure(e)
    case Success(None) => Success(None)
    case Success(Some(a)) => Success(a.city)
  }

  /** `GmapsCacheableReverseGeocodeService`. */
  class GmapsCacheableReverseGeocodeService {
    const reverse: ReverseGeocoder
    const service: CacheableService<Coordinates, CoordinatesAddress>

    ghost predicate Valid()
    {
      service.storageClass == AddressStorage && service.refresh == ReverseRefreshOf(reverse)
    }

    constructor(store: KeyValueStore, reverse: ReverseGeocoder)
      ensures Valid() && this.reverse == reverse && service.store == store
    {
      this.reverse := reverse;
      service := new CacheableService(store, AddressStorage, ReverseRefreshOf(reverse));
    }

    method GetAddress(c: Coordinates) returns (r: Result<Option<string>, Error>)
      requires Valid()
      modifies service.store
      ensures var o := GetOutcome(AddressStorage, ReverseRefreshOf(reverse), old(service.store.data), c);
        r == AddressOf(o.result) && service.store.data == o.data && service.store.calls == old(service.store.calls) + o.calls
    {
      var v, _ := service.Get(c);
      r := AddressOf(v);
    }

    method GetFederalCode(c: Coordinates) returns (r: Result<Option<int>, Error>)
      requires Valid()
      modifies service.store
      ensures var o := GetOutcome(AddressStorage, ReverseRefreshOf(reverse), old(service.store.data), c);
        r == FederalCodeOf(o.result) && service.store.data == o.data && service.store.calls == old(service.store.calls) + o.calls
    {
      var v, _ := service.Get(c);
      r := FederalCodeOf(v);
    }

    method GetCity(c: Coordinates) returns (r: Result<Option<string>, Error>)
      requires Valid()
      modifies service.store
      ensures var o := GetOutcome(AddressStorage, ReverseRefreshOf(reverse), old(service.store.data), c);
        r == CityOf(o.result) && service.store.data == o.data && service.store.calls == old(service.store.calls) + o.calls
    {
      var v, _ := service.Get(c);
      r := CityOf(v);
    }
  }

  /** A point not in the store asks the provider once and caches the record
      built, the empty string when none was built. */
  lemma ReverseMiss(reverse: ReverseGeocoder, data: map<string, string>, c: Coordinates)
    requires AddressKey(c) !in data
    ensures var o := GetOutcome(AddressStorage, ReverseRefreshOf(reverse), data, c);
      o.refreshed && o.result == RefreshFromData(ReverseData(reverse, c))
      && o.data == data[AddressKey(c) := AddressSerialize(RefreshFromData(ReverseData(reverse, c)).value)]
  {
  }

  /** A cached record answers its own fields with no provider call. */
  lemma ReverseCachedHit(reverse: ReverseGeocoder, data: map<string, string>, c: Coordinates, a: CoordinatesAddress)
    requires AddressKey(c) in data && AddressDeserialize(data[AddressKey(c)]) == Success(Some(a))
    ensures var o := GetOutcome(AddressStorage, ReverseRefreshOf(reverse), data, c);
      !o.refreshed && o.data == data
      && AddressOf(o.result) == Success(Some(a.address))
      && FederalCodeOf(o.result) == Success(a.federalCode)
      && CityOf(o.result) == Success(a.city)
  {
    assert data[AddressKey(c)] != "";
  }

  // ---------------------------------------------------------------------
  // Reverse geocoding by address

  /** `GmapsCacheableReverseByAddressService._get_data`: nothing when the
      provider found nothing, else its addresses with its point. */
  function ByAddressData(place: PlaceGeocoder, key: string): (d: Option<Data>)
    ensures place(key).None? <==> d.None?
    ensures place(key).Some? ==>
      d == Some(Data(place(key).value.1, Coordinates(place(key).value.0.0, place(key).value.0.1)))
  {
    match place(key)
    case None => None
    case Some((point, addresses)) => Some(Data(addresses, Coordinates(point.0, point.1)))
  }

  function ByAddressRefreshOf(place: PlaceGeocoder): string -> Result<Option<CoordinatesAddress>, Error>
  {
    key => RefreshFromData(ByAddressData(place, key))
  }

  /** The record found by address carries the provider's point. */
  lemma ByAddressUsesProviderPoint(place: PlaceGeocoder, key: string)
    requires RefreshFromData(ByAddressData(place, key)).value.Some?
    ensures place(key).Some?
    ensures var a := RefreshFromData(ByAddressData(place, key)).value.value;
      a.latitude == place(key).value.0.0 && a.longitude == place(key).value.0.1
  {
  }

  /** An address the provider does not know gives no record. */
  lemma ByAddressUnknownGivesNone(place: PlaceGeocoder, key: string)
    requires place(key).None?
    ensures ByAddressRefreshOf(place)(key) == Success(None)
  {
  }

  /** `GmapsCacheableReverseByAddressService`. */
  class GmapsCacheableReverseByAddressService {
    const place: PlaceGeocoder
    const service: CacheableService<string, CoordinatesAddress>

    ghost predicate Valid()
    {
      service.storageClass == AllByAddressStorage && service.refresh == ByAddressRefreshOf(place)
    }

    constructor(store: KeyValueStore, place: PlaceGeocoder)
      ensures Valid() && this.place == place && service.store == store
    {
      this.place := place;
      service := new CacheableService(store, AllByAddressStorage, ByAddressRefreshOf(place));
    }

    /** `get_geo(address)`: `get` on the by-address storage. */
    method GetGeo(address: string) returns (r: Result<Option<CoordinatesAddress>, Error>)
      requires Valid()
      modifies service.store
      ensures var o := GetOutcome(AllByAddressStorage, ByAddressRefreshOf(place), old(service.store.data), address);
        r == o.result && service.store.data == o.data && service.store.calls == old(service.store.calls) + o.calls
    {
      var refreshed;
      r, refreshed := service.Get(address);
    }
  }

  /** An uncached address is refreshed once, after `get` and `exists`, and its
      serialized answer (`''` for nothing) is written under `geo_by_address:`. */
  lemma ByAddressMiss(place: PlaceGeocoder, data: map<string, string>, address: string)
    requires AllByAddressKey(address) !in data
    ensures var o := GetOutcome(AllByAddressStorage, ByAddressRefreshOf(place), data, address);
      var key := AllByAddressKey(address);
      var s := AddressSerialize(RefreshFromData(ByAddressData(place, address)).value);
      o.refreshed && o.result == RefreshFromData(ByAddressData(place, address))
      && o.data == data[key := s]
      && o.calls == [GetCall(key), ExistsCall(key), SetCall(key, s, ExpireTime)]
  {
  }

  /** An address cached as empty answers `None` and asks the provider nothing. */
  lemma ByAddressCachedEmpty(place: PlaceGeocoder, data: map<string, string>, address: string)
    requires AllByAddressKey(address) in data && data[AllByAddressKey(address)] == ""
    ensures var o := GetOutcome(AllByAddressStorage, ByAddressRefreshOf(place), data, address);
      o.result == Success(None) && !o.refreshed && o.data == data
  {
  }
}

module GmapsGeocodeExamples {
  import opened Wrappers
  import opened Numbers
  import opened DataClasses
  import opened GmapsAddress
  import opened GmapsGeocode
  import FederalSubjects
  import Text
  import Cache
  import GmapsCache
  import GmapsAddressExamples

  lemma ForwardExampleLatitude()
    ensures Show(Num(122339, 5)) == "1.22339"
  {
    assert Shift(122339, 5) == 1;
    assert LowDigits(12, 1) == "2";
    assert LowDigits(122, 2) == "22";
    assert LowDigits(1223, 3) == "223";
    assert LowDigits(12233, 4) == "2233";
    assert LowDigits(122339, 5) == "22339";
  }

  lemma ForwardExampleLongitude()
    ensures Show(Num(456561, 5)) == "4.56561"
  {
    assert Shift(456561, 5) == 4;
    assert LowDigits(45, 1) == "5";
    assert LowDigits(456, 2) == "56";
    assert LowDigits(4565, 3) == "565";
    assert LowDigits(45656, 4) == "5656";
    assert LowDigits(456561, 5) == "56561";
  }

  /**
   * The forward-geocoding test: an unknown `Moscow City` that the provider
   * places at (1.22339, 4.56561) is answered with that point and written
   * once, as `1.22339,4.56561` under `coordinates:Moscow City`, for 30 days.
   */
  lemma ForwardExample(geocoder: Geocoder, data: map<string, string>)
    requires geocoder("Moscow City") == Some((Num(122339, 5), Num(456561, 5)))
    requires GmapsCache.CoordinatesKey("Moscow City") !in data
    ensures var o := Cache.GetOutcome(GmapsCache.CoordinatesStorage, ForwardRefreshOf(geocoder), data, "Moscow City");
      o.result == Success(Some(Coordinates(Num(122339, 5), Num(456561, 5))))
      && o.data == data["coordinates:Moscow City" := "1.22339" + "," + "4.56561"]
      && o.calls == [Cache.GetCall("coordinates:Moscow City"), Cache.ExistsCall("coordinates:Moscow City"),
                     Cache.SetCall("coordinates:Moscow City", "1.22339" + "," + "4.56561", Cache.ExpireTime)]
  {
    ForwardMiss(geocoder, data, "Moscow City");
    ForwardExampleLatitude();
    ForwardExampleLongitude();
    var c := Coordinates(Num(122339, 5), Num(456561, 5));
    assert GmapsCache.CoordinatesKey("Moscow City") == "coordinates:Moscow City";
    assert GmapsCache.CoordinatesSerialize(Some(c)) == "1.22339" + "," + "4.56561";
  }

  /** The first provider result of the reverse-geocoding test: its city is
      written in a form the code table does not know. */
  const Abbreviated: seq<Component> := [
    Component(Some("9а"), [StreetNumber]),
    Component(Some("улица Профессора Качалова"), [Route]),
    Component(Some("С.-Петербург"), [Locality, "political"])
  ]

  /** The second provider result, whose second-level area has a code. */
  const Full: seq<Component> := [
    Component(Some("улица Профессора Качалова"), [Route]),
    Component(Some("Санкт-Петербург"), [Locality, "political"]),
    Component(Some("Санкт-Петербург"), [AreaLevel2, "political"]),
    Component(Some("Россия"), [Country, "political"])
  ]

  lemma AbbreviatedUnaccented()
    ensures ComponentsOf(Abbreviated, true) == ComponentsOf(Abbreviated, false)
  {
    StripIsHarmless(Abbreviated);
  }

  lemma FullUnaccented()
    ensures ComponentsOf(Full, true) == ComponentsOf(Full, false)
  {
    StripIsHarmless(Full);
  }

  lemma AbbreviatedStreet()
    ensures StreetNumber in ComponentsOf(Abbreviated, false) && ComponentsOf(Abbreviated, false)[StreetNumber] == "9а"
    ensures Route in ComponentsOf(Abbreviated, false) && ComponentsOf(Abbreviated, false)[Route] == "улица Профессора Качалова"
  {
    ComponentsOfMeaning(Abbreviated, false, StreetNumber);
    assert StreetNumber !in Abbreviated[1].types && StreetNumber !in Abbreviated[2].types;
    LastWithAt(Abbreviated, StreetNumber, 0);
    ComponentsOfMeaning(Abbreviated, false, Route);
    assert Route !in Abbreviated[2].types;
    LastWithAt(Abbreviated, Route, 1);
  }

  lemma AbbreviatedLocality()
    ensures Locality in ComponentsOf(Abbreviated, false) && ComponentsOf(Abbreviated, false)[Locality] == "С.-Петербург"
  {
    ComponentsOfMeaning(Abbreviated, false, Locality);
    LastWithAt(Abbreviated, Locality, 2);
  }

  lemma AbbreviatedNoArea()
    ensures AreaLevel1 !in ComponentsOf(Abbreviated, false)
    ensures AreaLevel2 !in ComponentsOf(Abbreviated, false)
    ensures AreaLevel3 !in ComponentsOf(Abbreviated, false)
  {
    ComponentsOfMeaning(Abbreviated, false, AreaLevel1);
    assert LastWith(Abbreviated, AreaLevel1) == None;
    ComponentsOfMeaning(Abbreviated, false, AreaLevel2);
    assert LastWith(Abbreviated, AreaLevel2) == None;
    ComponentsOfMeaning(Abbreviated, false, AreaLevel3);
    assert LastWith(Abbreviated, AreaLevel3) == None;
  }

  lemma FullSubject()
    ensures AreaLevel1 !in ComponentsOf(Full, false)
    ensures AreaLevel2 in ComponentsOf(Full, false) && ComponentsOf(Full, false)[AreaLevel2] == "Санкт-Петербург"
  {
    ComponentsOfMeaning(Full, false, AreaLevel1);
    assert LastWith(Full, AreaLevel1) == None;
    ComponentsOfMeaning(Full, false, AreaLevel2);
    assert AreaLevel2 !in Full[3].types;
    LastWithAt(Full, AreaLevel2, 2);
  }

  /** A result with city, street and house number but no administrative area. */
  lemma CityStreetFormat(c: map<string, string>, locality: string, route: string, number: string)
    requires Locality in c && c[Locality] == locality
    requires Route in c && c[Route] == route
    requires StreetNumber in c && c[StreetNumber] == number
    requires AreaLevel1 !in c && AreaLevel2 !in c && AreaLevel3 !in c
    ensures Formatted(c, Some(All(AsDescString)), AsDescString) == locality + ", " + (route + ", " + number)
    ensures Formatted(c, Some(All(FederalSubject)), AsDescString) == locality
    ensures Formatted(c, Some(All(City)), AsDescString) == locality
  {
    AsDescStringMeaning(c);
    var parts := [locality, route, number];
    assert HandleAll(c, AsDescString) == parts;
    assert parts[1..] == [route, number] && parts[1..][1..] == [number];
    assert Text.Join(parts[1..], ", ") == route + ", " + number;
    assert Text.Join(parts, ", ") == locality + ", " + Text.Join(parts[1..], ", ");
    FederalSubjectMeaning(c);
    CityMeaning(c);
  }

  /** The first result renders as its city, street and house number. */
  lemma AbbreviatedFormats()
    ensures Formatted(ComponentsOf(Abbreviated, true), Some(All(AsDescString)), AsDescString) ==
      "С.-Петербург" + ", " + ("улица Профессора Качалова" + ", " + "9а")
    ensures Formatted(ComponentsOf(Abbreviated, true), Some(All(FederalSubject)), AsDescString) == "С.-Петербург"
    ensures Formatted(ComponentsOf(Abbreviated, true), Some(All(City)), AsDescString) == "С.-Петербург"
  {
    AbbreviatedUnaccented();
    AbbreviatedStreet();
    AbbreviatedLocality();
    AbbreviatedNoArea();
    CityStreetFormat(ComponentsOf(Abbreviated, false), "С.-Петербург", "улица Профессора Качалова", "9а");
  }

  /** The first result has no code; the second supplies 78. */
  lemma ExampleCodes()
    ensures CodeOf(Abbreviated) == None
    ensures CodeOf(Full) == Some(78)
  {
    AbbreviatedFormats();
    FederalSubjects.AbbreviatedPetersburgHasNoCode();
    FullUnaccented();
    FullSubject();
    FederalSubjectMeaning(ComponentsOf(Full, false));
    FederalSubjects.SaintPetersburgCode();
  }

  /** With two results, a first result without a code defers to the second. */
  lemma RecordCodeOfTwo(a: seq<Component>, b: seq<Component>)
    requires !CodeTruthy(CodeOf(a))
    ensures RecordCode([a, b]) == CodeOf(b)
  {
    assert [a, b][1..] == [b];
    assert [b][1..] == [];
    assert Scan(CodeOf(b), []) == CodeOf(b);
    assert Scan(CodeOf(a), [b]) == CodeOf(b);
  }

  lemma ExampleRecordCode()
    ensures RecordCode([Abbreviated, Full]) == Some(78)
  {
    ExampleCodes();
    RecordCodeOfTwo(Abbreviated, Full);
  }

  /** Address and city come from the first result, the code from the second. */
  lemma ReverseExample(point: Coordinates)
    ensures RefreshFromData(Some(Data(AddressList([Abbreviated, Full]), point))) ==
      Success(Some(CoordinatesAddress(point.latitude, point.longitude,
        "С.-Петербург" + ", " + ("улица Профессора Качалова" + ", " + "9а"), Some("С.-Петербург"), Some(78))))
  {
    AbbreviatedFormats();
    ExampleRecordCode();
  }

  /**
   * The cached by-address test: `1,2;address;city;` under
   * `geo_by_address:Уруру` is answered, after one `get` and with no provider
   * call, as the point (1.0, 2.0), which Python's `==` equates with (1, 2).
   */
  lemma ByAddressHitExample(place: PlaceGeocoder, data: map<string, string>)
    requires GmapsCache.AllByAddressKey("Уруру") in data
    requires data[GmapsCache.AllByAddressKey("Уруру")] == "1,2;address;city;"
    ensures var o := Cache.GetOutcome(GmapsCache.AllByAddressStorage, ByAddressRefreshOf(place), data, "Уруру");
      o.result == Success(Some(CoordinatesAddress(Num(10, 1), Num(20, 1), "address", Some("city"), None)))
      && !o.refreshed && o.data == data
      && o.calls == [Cache.GetCall(GmapsCache.AllByAddressKey("Уруру"))]
  {
    CachedRecordExample();
    var v := CoordinatesAddress(Num(10, 1), Num(20, 1), "address", Some("city"), None);
    Cache.HitDoesNotRefresh(GmapsCache.AllByAddressStorage, ByAddressRefreshOf(place), data, "Уруру", v);
  }

  /** `1,2;address;city;` reads as the point (1.0, 2.0), address `address`, city `city` and no code. */
  lemma CachedRecordExample()
    ensures GmapsCache.AddressDeserialize("1,2;address;city;")
         == Success(Some(CoordinatesAddress(Num(10, 1), Num(20, 1), "address", Some("city"), None)))
  {
    var a := CoordinatesAddress(Int(1), Int(2), "address", Some("city"), None);
    assert Show(Int(1)) == "1" && Show(Int(2)) == "2";
    assert AsStr(Coordinates(Int(1), Int(2))) == "1,2";
    assert GmapsCache.AddressSerialize(Some(a)) == "1,2;address;city;";
    GmapsCache.AddressRoundTrip(a);
  }

  /** The one provider result of the by-address test. */
  const PlaceResult: seq<Component> := [
    Component(Some("9а"), [StreetNumber]),
    Component(Some("улица Профессора Качалова"), [Route]),
    Component(Some("Санкт-Петербург"), [Locality, "political"]),
    Component(Some("Санкт-Петербург"), [AreaLevel2, "political"]),
    Component(Some("Россия"), [Country, "political"])
  ]

  lemma PlaceResultStreet()
    ensures StreetNumber in ComponentsOf(PlaceResult, false) && ComponentsOf(PlaceResult, false)[StreetNumber] == "9а"
    ensures Route in ComponentsOf(PlaceResult, false) && ComponentsOf(PlaceResult, false)[Route] == "улица Профессора Качалова"
  {
    ComponentsOfMeaning(PlaceResult, false, StreetNumber);
    assert StreetNumber !in PlaceResult[1].types && StreetNumber !in PlaceResult[2].types;
    assert StreetNumber !in PlaceResult[3].types && StreetNumber !in PlaceResult[4].types;
    LastWithAt(PlaceResult, StreetNumber, 0);
    ComponentsOfMeaning(PlaceResult, false, Route);
    assert Route !in PlaceResult[2].types && Route !in PlaceResult[3].types && Route !in PlaceResult[4].types;
    LastWithAt(PlaceResult, Route, 1);
  }

  lemma PlaceResultLocality()
    ensures Locality in ComponentsOf(PlaceResult, false) && ComponentsOf(PlaceResult, false)[Locality] == "Санкт-Петербург"
  {
    ComponentsOfMeaning(PlaceResult, false, Locality);
    assert Locality !in PlaceResult[3].types && Locality !in PlaceResult[4].types;
    LastWithAt(PlaceResult, Locality, 2);
  }

  lemma PlaceResultAreas()
    ensures AreaLevel1 !in ComponentsOf(PlaceResult, false)
    ensures AreaLevel2 in ComponentsOf(PlaceResult, false) && ComponentsOf(PlaceResult, false)[AreaLevel2] == "Санкт-Петербург"
  {
    ComponentsOfMeaning(PlaceResult, false, AreaLevel1);
    assert LastWith(PlaceResult, AreaLevel1) == None;
    ComponentsOfMeaning(PlaceResult, false, AreaLevel2);
    assert AreaLevel2 !in PlaceResult[4].types;
    LastWithAt(PlaceResult, AreaLevel2, 3);
  }

  lemma PlaceResultUnaccented()
    ensures ComponentsOf(PlaceResult, true) == ComponentsOf(PlaceResult, false)
  {
    StripIsHarmless(PlaceResult);
  }

  /** Rendering a dictionary under the explicit default schema or under none is the same. */
  lemma DefaultSchemaGiven(c: map<string, string>)
    ensures Formatted(c, Some(All(AsDescString)), AsDescString) == Formatted(c, None, AsDescString)
  {
    assert SchemaTerms(Some(All(AsDescString)), AsDescString) == AsDescString;
  }

  /** The result renders as city, street and number. */
  lemma PlaceResultAddress()
    ensures Formatted(ComponentsOf(PlaceResult, true), Some(All(AsDescString)), AsDescString) ==
      "Санкт-Петербург" + ", " + "улица Профессора Качалова" + ", " + "9а"
  {
    PlaceResultUnaccented();
    PlaceResultStreet();
    PlaceResultLocality();
    PlaceResultAreas();
    var c := ComponentsOf(PlaceResult, false);
    GmapsAddressExamples.StreetAddressFormat(c, "Санкт-Петербург", "улица Профессора Качалова", "9а", "Санкт-Петербург");
    DefaultSchemaGiven(c);
  }

  /** Its city is `Санкт-Петербург`. */
  lemma PlaceResultCity()
    ensures Formatted(ComponentsOf(PlaceResult, true), Some(All(City)), AsDescString) == "Санкт-Петербург"
  {
    PlaceResultUnaccented();
    PlaceResultLocality();
    CityMeaning(ComponentsOf(PlaceResult, false));
  }

  /** Its federal subject is the second-level area `Санкт-Петербург`, code 78. */
  lemma PlaceResultCode()
    ensures RecordCode([PlaceResult]) == Some(78)
  {
    PlaceResultUnaccented();
    PlaceResultAreas();
    FederalSubjectMeaning(ComponentsOf(PlaceResult, false));
    assert FederalSubjectOf(PlaceResult) == "Санкт-Петербург";
    FederalSubjects.SaintPetersburgCode();
    assert CodeOf(PlaceResult) == Some(78);
  }

  /**
   * The by-address miss test: the provider places `Assa` at (100, 200) with
   * the one result above, and the refresh builds the record (100, 200, the
   * rendered address, `Санкт-Петербург`, 78). `ByAddressMiss` writes it once
   * under `geo_by_address:Assa`, as `PlaceRecordWritten` spells out.
   */
  lemma PlaceRecordExample(place: PlaceGeocoder)
    requires place("Assa") == Some(((Int(100), Int(200)), AddressList([PlaceResult])))
    ensures RefreshFromData(ByAddressData(place, "Assa")) == Success(Some(CoordinatesAddress(Int(100), Int(200),
      "Санкт-Петербург" + ", " + "улица Профессора Качалова" + ", " + "9а", Some("Санкт-Петербург"), Some(78))))
  {
    PlaceResultAddress();
    PlaceResultCity();
    PlaceResultCode();
  }

  /** That record is written as `100,200;<address>;Санкт-Петербург;78`. */
  lemma PlaceRecordWritten()
    ensures var address := "Санкт-Петербург" + ", " + "улица Профессора Качалова" + ", " + "9а";
      GmapsCache.AddressSerialize(Some(CoordinatesAddress(Int(100), Int(200), address, Some("Санкт-Петербург"), Some(78))))
      == "100,200;" + address + ";" + "Санкт-Петербург" + ";" + "78"
  {
    assert Show(Int(100)) == "100" && Show(Int(200)) == "200" && Show(Int(78)) == "78";
    assert AsStr(Coordinates(Int(100), Int(200))) + ";" == "100,200;";
  }
}
