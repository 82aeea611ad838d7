/**
 * The value types the services exchange: a frozen pair of coordinates and
 * the address record that reverse geocoding produces.
 */
module DataClasses {
  import opened Wrappers
  import opened Numbers
  import Text

  /** A frozen point; equality is field-wise. */
  datatype Coordinates = Coordinates(latitude: Num, longitude: Num)

  type PointTuple = (Num, Num)

  /** `as_str()`: the two numbers printed and separated by a comma. */
  function AsStr(c: Coordinates): string
  {
    Show(c.latitude) + "," + Show(c.longitude)
  }

  /** `as_tuple()`: latitude first. */
  function AsTuple(c: Coordinates): PointTuple
  {
    (c.latitude, c.longitude)
  }

  /** An address found for a point, with the optional city and federal-subject code. */
  datatype CoordinatesAddress = CoordinatesAddress(
    latitude: Num,
    longitude: Num,
    address: string,
    city: Option<string>,
    federalCode: Option<int>)

  /** The record's wire form `lat,lng;address;city;code`, an absent city or code written as nothing. */
  function RecordAsStr(a: CoordinatesAddress): string
  {
    AsStr(Coordinates(a.latitude, a.longitude)) + ";" + a.address + ";" + a.city.GetOr("") + ";"
      + (match a.federalCode case None => "" case Some(code) => Show(Int(code)))
  }

  /** The comma in `as_str()` splits it back into the two printed numbers, which read back exactly. */
  lemma AsStrSplits(c: Coordinates)
    ensures Text.Split(AsStr(c), ',') == [Show(c.latitude), Show(c.longitude)]
    ensures ParseLiteral(Show(c.latitude)) == Some(c.latitude)
    ensures ParseLiteral(Show(c.longitude)) == Some(c.longitude)
    ensures ';' !in AsStr(c) && AsStr(c) != ""
  {
    ShowHasNoSeparator(c.latitude);
    ShowHasNoSeparator(c.longitude);
    Text.SplitPair(Show(c.latitude), Show(c.longitude), ',');
    ParseShow(c.latitude);
    ParseShow(c.longitude);
  }

  /** Distinct points have distinct `as_str()` forms. */
  lemma AsStrInjective(c: Coordinates, d: Coordinates)
    ensures AsStr(c) == AsStr(d) <==> c == d
  {
    AsStrSplits(c);
    AsStrSplits(d);
    if AsStr(c) == AsStr(d) {
      ShowInjective(c.latitude, d.latitude);
      ShowInjective(c.longitude, d.longitude);
    }
  }

  /** `as_tuple()` keeps the order latitude, longitude and loses nothing. */
  lemma AsTupleInjective(c: Coordinates, d: Coordinates)
    ensures AsTuple(c) == AsTuple(d) <==> c == d
    ensures AsTuple(c).0 == c.latitude && AsTuple(c).1 == c.longitude
  {
  }

  /** Integer-valued fields print without decimals: `Coordinates(1, 2).as_str() == "1,2"`. */
  lemma IntegerCoordinatesAsStr()
    ensures AsStr(Coordinates(Int(1), Int(2))) == "1,2"
  {
  }
}
