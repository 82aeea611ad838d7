/**
 * The four storage classes of the Google Maps services: how each derives
 * its key in the shared store and how it writes and reads its values.
 */
module GmapsCache {
  import opened Wrappers
  import opened Numbers
  import opened DataClasses
  import opened Cache
  import Text

  // ---------------------------------------------------------------------
  // CacheStorageDistance: standard policy

  function DistanceKey(c: Coordinates): string
  {
    "distance:" + AsStr(c)
  }

  /** `str(value)`; a `None` would be written as `None`. */
  function DistanceSerialize(v: Option<Num>): string
  {
    match v
    case None => "None"
    case Some(x) => Show(x)
  }

  /** `float(value)`, raising `ValueError` on anything that is not a number. */
  function DistanceDeserialize(raw: string): Result<Option<Num>, Error>
  {
    match ParseFloat(raw)
    case None => Failure(ValueError)
    case Some(x) => Success(Some(x))
  }

  /** A distance is falsy exactly when it is zero. */
  predicate DistanceTruthy(x: Num)
  {
    x.mantissa != 0
  }

  const DistanceStorage: StorageClass<Coordinates, Num> :=
    StorageClass(DistanceKey, DistanceSerialize, DistanceDeserialize, DistanceTruthy, false)

  // ---------------------------------------------------------------------
  // CacheStorageCoordinates: negative-cache policy

  function CoordinatesKey(address: string): string
  {
    "coordinates:" + address
  }

  /** `value.as_str() if value else ''`. */
  function CoordinatesSerialize(v: Option<Coordinates>): string
  {
    match v
    case None => ""
    case Some(c) => AsStr(c)
  }

  /** Two comma-separated floats; an empty value is `None`; anything else raises `ValueError`. */
  function CoordinatesDeserialize(raw: string): Result<Option<Coordinates>, Error>
  {
    if raw == "" then Success(None)
    else match ParsePoint(raw)
      case None => Failure(ValueError)
      case Some(c) => Success(Some(c))
  }

  /** `lat, lng = s.split(','); Coordinates(float(lat), float(lng))`. */
  function ParsePoint(s: string): Option<Coordinates>
  {
    var parts := Text.Split(s, ',');
    if |parts| != 2 then None
    else match (ParseFloat(parts[0]), ParseFloat(parts[1]))
      case (Some(lat), Some(lng)) => Some(Coordinates(lat, lng))
      case _ => None
  }

  /** A dataclass instance is always truthy. */
  predicate AlwaysTruthy<T>(v: T)
  {
    true
  }

  const CoordinatesStorage: StorageClass<string, Coordinates> :=
    StorageClass(CoordinatesKey, CoordinatesSerialize, CoordinatesDeserialize, AlwaysTruthy, true)

  // ---------------------------------------------------------------------
  // CacheStorageAddress and CacheStorageAllByAddress: negative-cache policy

  /** `geo:` and both coordinates rounded to 4 decimals. */
  function AddressKey(c: Coordinates): string
  {
    "geo:" + Show(Round(c.latitude, 4)) + "," + Show(Round(c.longitude, 4))
  }

  function AddressSerialize(v: Option<CoordinatesAddress>): string
  {
    match v
    case None => ""
    case Some(a) => RecordAsStr(a)
  }

  /**
   * Four `;`-separated fields: the point, the address, the city (empty for
   * none) and the federal code (empty for none, else an `int`). An empty
   * value is `None`; any other shape raises `ValueError`.
   */
  function AddressDeserialize(raw: string): Result<Option<CoordinatesAddress>, Error>
  {
    if raw == "" then Success(None)
    else
      var fields := Text.Split(raw, ';');
      if |fields| != 4 then Failure(ValueError)
      else match (ParsePoint(fields[0]), ParseCode(fields[3]))
        case (Some(p), Some(code)) =>
          Success(Some(CoordinatesAddress(p.latitude, p.longitude, fields[1],
                                          if fields[2] == "" then None else Some(fields[2]), code)))
        case _ => Failure(ValueError)
  }

  /** `int(code) if code else None`; `None` here means the text is not an integer. */
  function ParseCode(s: string): Option<Option<int>>
  {
    if s == "" then Some(None)
    else match ParseInt(s)
      case None => None
      case Some(n) => Some(Some(n))
  }

  const AddressStorage: StorageClass<Coordinates, CoordinatesAddress> :=
    StorageClass(AddressKey, AddressSerialize, AddressDeserialize, AlwaysTruthy, true)

  function AllByAddressKey(address: string): string
  {
    "geo_by_address:" + address
  }

  /** The address storage's codec under the `geo_by_address:` namespace. */
  const AllByAddressStorage: StorageClass<string, CoordinatesAddress> :=
    StorageClass(AllByAddressKey, AddressSerialize, AddressDeserialize, AlwaysTruthy, true)

  // ---------------------------------------------------------------------
  // Properties

  /** Each point has its own distance entry. */
  lemma DistanceKeyInjective(c: Coordinates, d: Coordinates)
    ensures DistanceKey(c) == DistanceKey(d) <==> c == d
  {
    AsStrInjective(c, d);
    if DistanceKey(c) == DistanceKey(d) {
      assert AsStr(c) == DistanceKey(c)[9..] == DistanceKey(d)[9..] == AsStr(d);
    }
  }

  /** A written distance reads back with the same value, as a float, and is truthy exactly when it was. */
  lemma DistanceRoundTrip(x: Num)
    ensures DistanceDeserialize(DistanceSerialize(Some(x))) == Success(Some(AsFloat(x)))
    ensures Value(AsFloat(x)) == Value(x)
    ensures DistanceTruthy(AsFloat(x)) <==> DistanceTruthy(x)
  {
    ParseShow(x);
    ZeroValue(x);
    ZeroValue(AsFloat(x));
  }

  /** A canonical float distance is written and read back unchanged. */
  lemma DistanceCodecRoundTrips(x: Num)
    requires IsFloat(x) && Canonical(x)
    ensures RoundTrips(DistanceStorage, Some(x))
  {
    DistanceRoundTrip(x);
  }

  /** A `None` distance is written as `None`, which does not read back. */
  lemma DistanceNoneDoesNotRoundTrip()
    ensures DistanceDeserialize(DistanceSerialize(None)) == Failure(ValueError)
  {
    assert DistanceSerialize(None) == "None";
    assert ParseUnsigned("None") == None by {
      Text.SplitNoSep("None", '.');
    }
  }

  /** A written point reads back with equal values, both as floats. */
  lemma CoordinatesRoundTrip(c: Coordinates)
    ensures CoordinatesDeserialize(CoordinatesSerialize(Some(c)))
         == Success(Some(Coordinates(AsFloat(c.latitude), AsFloat(c.longitude))))
  {
    AsStrSplits(c);
  }

  /** A point whose fields are floats as Python prints them is written and read back unchanged, and so is `None`. */
  lemma CoordinatesCodecRoundTrips(v: Option<Coordinates>)
    requires v.Some? ==>
      (IsFloat(v.value.latitude) && Canonical(v.value.latitude)
       && IsFloat(v.value.longitude) && Canonical(v.value.longitude))
    ensures RoundTrips(CoordinatesStorage, v)
  {
    if v.Some? {
      CoordinatesRoundTrip(v.value);
    }
  }

  /** Text that is neither empty nor two comma-separated numbers raises `ValueError`. */
  lemma CoordinatesMalformed(raw: string)
    requires raw != "" && |Text.Split(raw, ',')| != 2
    ensures CoordinatesDeserialize(raw) == Failure(ValueError)
  {
  }

  /** Two points share an address entry exactly when they agree after rounding to 4 decimals. */
  lemma AddressKeyShared(c: Coordinates, d: Coordinates)
    ensures AddressKey(c) == AddressKey(d) <==>
      (Round(c.latitude, 4) == Round(d.latitude, 4) && Round(c.longitude, 4) == Round(d.longitude, 4))
  {
    var x1, y1 := Round(c.latitude, 4), Round(c.longitude, 4);
    var x2, y2 := Round(d.latitude, 4), Round(d.longitude, 4);
    ShowHasNoSeparator(x1);
    ShowHasNoSeparator(y1);
    ShowHasNoSeparator(x2);
    ShowHasNoSeparator(y2);
    Text.PairInjective("geo:", Show(x1), Show(y1), Show(x2), Show(y2), ',');
    ShowInjective(x1, x2);
    ShowInjective(y1, y2);
  }

  /** For float coordinates, sharing an entry means the rounded values are equal. */
  lemma AddressKeySharedByValue(c: Coordinates, d: Coordinates)
    requires IsFloat(c.latitude) && IsFloat(c.longitude) && IsFloat(d.latitude) && IsFloat(d.longitude)
    ensures AddressKey(c) == AddressKey(d) <==>
      (Value(Round(c.latitude, 4)) == Value(Round(d.latitude, 4))
       && Value(Round(c.longitude, 4)) == Value(Round(d.longitude, 4)))
  {
    AddressKeyShared(c, d);
    if Value(Round(c.latitude, 4)) == Value(Round(d.latitude, 4))
       && Value(Round(c.longitude, 4)) == Value(Round(d.longitude, 4)) {
      CanonicalUnique(Round(c.latitude, 4), Round(d.latitude, 4));
      CanonicalUnique(Round(c.longitude, 4), Round(d.longitude, 4));
    }
  }

  /** The key of the point written `1.22339,4.56561` is `geo:1.2234,4.5656`. */
  lemma AddressKeyExample()
    ensures AddressKey(Coordinates(Num(122339, 5), Num(456561, 5))) == "geo:" + "1.2234" + "," + "4.5656"
  {
    LatitudeExample();
    LongitudeExample();
  }

  lemma LatitudeExample()
    ensures Show(Round(Num(122339, 5), 4)) == "1.2234"
  {
    assert Pow10(1) == 10;
    assert RoundHalfEven(122339, 10) == 12234;
    assert Round(Num(122339, 5), 4) == Num(12234, 4);
    assert Shift(12234, 4) == 1 && LowDigits(12234, 4) == "2234";
  }

  lemma LongitudeExample()
    ensures Show(Round(Num(456561, 5), 4)) == "4.5656"
  {
    assert Pow10(1) == 10;
    assert RoundHalfEven(456561, 10) == 45656;
    assert Round(Num(456561, 5), 4) == Num(45656, 4);
    assert Shift(45656, 4) == 4 && LowDigits(45656, 4) == "5656";
  }

  /** No field of a record may hold `;` for its form to split back into four fields. */
  predicate Writable(a: CoordinatesAddress)
  {
    ';' !in a.address && (a.city.Some? ==> ';' !in a.city.value)
  }

  /**
   * A record whose address and city hold no `;` reads back with the same
   * fields, its coordinates as floats, except that an empty city comes back
   * as `None`.
   */
  lemma AddressRoundTrip(a: CoordinatesAddress)
    requires Writable(a)
    ensures AddressDeserialize(AddressSerialize(Some(a))) == Success(Some(CoordinatesAddress(
      AsFloat(a.latitude), AsFloat(a.longitude), a.address,
      if a.city == Some("") then None else a.city, a.federalCode)))
  {
    var point := AsStr(Coordinates(a.latitude, a.longitude));
    var city := a.city.GetOr("");
    var code := match a.federalCode case None => "" case Some(n) => Show(Int(n));
    AsStrSplits(Coordinates(a.latitude, a.longitude));
    var fields := [point, a.address, city, code];
    if a.federalCode.Some? {
      ShowHasNoSeparator(Int(a.federalCode.value));
      ParseIntShow(a.federalCode.value);
    }
    Text.Join4(point, a.address, city, code, ";");
    Text.SplitJoin(fields, ';');
  }

  /** A record with a non-empty city, float coordinates as Python prints them and no `;` is written and read back unchanged. */
  lemma AddressCodecRoundTrips(v: Option<CoordinatesAddress>)
    requires v.Some? ==>
      (Writable(v.value) && v.value.city != Some("")
       && IsFloat(v.value.latitude) && Canonical(v.value.latitude)
       && IsFloat(v.value.longitude) && Canonical(v.value.longitude))
    ensures RoundTrips(AddressStorage, v) && RoundTrips(AllByAddressStorage, v)
  {
    if v.Some? {
      AddressRoundTrip(v.value);
    }
  }

  /** The wire form of `CoordinatesAddress(1, 2, 'address2')`. */
  lemma AddressSerializeExample()
    ensures AddressSerialize(Some(CoordinatesAddress(Int(1), Int(2), "address2", None, None))) == "1,2;address2;;"
  {
  }

  /** `5,7;address2;;1` reads as the point (5.0, 7.0), no city and code 1. */
  lemma AddressDeserializeExample()
    ensures AddressDeserialize("5,7;address2;;1")
         == Success(Some(CoordinatesAddress(Num(50, 1), Num(70, 1), "address2", None, Some(1))))
  {
    var a := CoordinatesAddress(Int(5), Int(7), "address2", None, Some(1));
    assert AddressSerialize(Some(a)) == "5,7;address2;;1";
    AddressRoundTrip(a);
  }

  /** Text that does not split into exactly four `;`-fields raises `ValueError`. */
  lemma AddressMalformed(raw: string)
    requires raw != "" && |Text.Split(raw, ';')| != 4
    ensures AddressDeserialize(raw) == Failure(ValueError)
  {
  }

  /** Distances follow the standard policy; the other three namespaces cache "nothing found". */
  lemma StoragePolicies()
    ensures !DistanceStorage.allowEmpty
    ensures CoordinatesStorage.allowEmpty && AddressStorage.allowEmpty && AllByAddressStorage.allowEmpty
    ensures AllByAddressStorage.serialize == AddressStorage.serialize
    ensures AllByAddressStorage.deserialize == AddressStorage.deserialize
  {
  }

  /** The four namespaces never share a key. */
  lemma NamespacesDisjoint(c: Coordinates, d: Coordinates, s: string, t: string)
    ensures DistanceKey(c) != CoordinatesKey(s) && DistanceKey(c) != AddressKey(d)
    ensures DistanceKey(c) != AllByAddressKey(t) && CoordinatesKey(s) != AddressKey(d)
    ensures CoordinatesKey(s) != AllByAddressKey(t) && AddressKey(d) != AllByAddressKey(t)
  {
    assert DistanceKey(c)[0] == 'd' && CoordinatesKey(s)[0] == 'c' && AddressKey(d)[0] == 'g';
    assert AllByAddressKey(t)[0] == 'g' && AddressKey(d)[3] == ':' && AllByAddressKey(t)[3] == '_';
  }
}
