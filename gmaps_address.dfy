/**
 * The Google Maps address formatter: a reverse-geocoding result is a list of
 * address components, each with a long name and a list of types. The
 * formatter keeps the long name of every component type it knows (the last
 * component of a type wins) and then renders a schema: a name picks one
 * component, a list (`All`) concatenates the renderings of its members (a
 * logical AND), a tuple (`First`) takes the first member whose rendering is
 * not empty (a logical OR). Bus and transit stops are prefixed with "ост. ".
 */
module GmapsAddress {
  import opened Wrappers
  import Text

  /** A schema term: a component type name, a list, a tuple, or a value of
      any other Python type (which renders to nothing). */
  datatype Term = Name(name: string) | All(terms: seq<Term>) | First(options: seq<Term>) | Other

  /** One element of `address_components`; `types` is `[]` when the key is missing. */
  datatype Component = Component(longName: Option<string>, types: seq<string>)

  const Country := "country"
  const Locality := "locality"
  const AreaLevel1 := "administrative_area_level_1"
  const AreaLevel2 := "administrative_area_level_2"
  const AreaLevel3 := "administrative_area_level_3"
  const Route := "route"
  const StreetNumber := "street_number"
  const BusStation := "bus_station"
  const TransitStation := "transit_station"

  /** The component types the formatter keeps. */
  const Terms: seq<string> :=
    [Country, Locality, AreaLevel1, AreaLevel2, AreaLevel3, Route, StreetNumber, BusStation, TransitStation]

  /** The types rendered as a public-transport stop. */
  const StopTerms: seq<string> := [BusStation, TransitStation]
  const StopPrefix := "ост. "

  /** U+0301 COMBINING ACUTE ACCENT, removed from long names. */
  const Accent: char := '\U{0301}'

  /** `ADDRESS_SCHEMAS['as_desc_string']`: settlement, then street and house or stop. */
  const AsDescString: seq<Term> := [
    First([Name(Locality), All([Name(AreaLevel1), Name(AreaLevel2), Name(AreaLevel3)])]),
    First([All([Name(Route), Name(StreetNumber)]), Name(BusStation), Name(TransitStation)])
  ]

  /** `ADDRESS_SCHEMAS['federal_subject']`: the most general administrative area present. */
  const FederalSubject: seq<Term> := [First([Name(AreaLevel1), Name(AreaLevel2), Name(AreaLevel3), Name(Locality)])]

  /** `ADDRESS_SCHEMAS['city']`. */
  const City: seq<Term> := [Name(Locality)]

  // ---------------------------------------------------------------------
  // Collecting the components

  /** The stored name of a component: its long name (or `''`), with the
      accent removed when `strip` is set. */
  function LongName(c: Component, strip: bool): (r: string)
    ensures strip ==> Accent !in r
    ensures !strip || Accent !in c.longName.GetOr("") ==> r == c.longName.GetOr("")
  {
    var name := c.longName.GetOr("");
    if strip then Text.RemoveChar(name, Accent) else name
  }

  /** Stores `v` under every known type in `types`, in order. */
  function RecordTypes(m: map<string, string>, types: seq<string>, v: string): map<string, string>
  {
    if |types| == 0 then m
    else
      var m' := RecordTypes(m, types[..|types| - 1], v);
      var t := types[|types| - 1];
      if t in Terms then m'[t := v] else m'
  }

  /** The `components` dictionary built from a component list. */
  function ComponentsOf(cs: seq<Component>, strip: bool): map<string, string>
  {
    if |cs| == 0 then map[]
    else
      var last := cs[|cs| - 1];
      RecordTypes(ComponentsOf(cs[..|cs| - 1], strip), last.types, LongName(last, strip))
  }

  /** The position of the last component that has type `k`, if any. */
  function LastWith(cs: seq<Component>, k: string): (r: Option<nat>)
    ensures r.Some? ==> r.value < |cs| && k in cs[r.value].types
    ensures r.Some? ==> forall i :: r.value < i < |cs| ==> k !in cs[i].types
    ensures r.None? <==> forall i :: 0 <= i < |cs| ==> k !in cs[i].types
  {
    if |cs| == 0 then None
    else if k in cs[|cs| - 1].types then Some(|cs| - 1)
    else LastWith(cs[..|cs| - 1], k)
  }

  /** `LastWith` is determined by where the type occurs. */
  lemma LastWithAt(cs: seq<Component>, k: string, j: nat)
    requires j < |cs| && k in cs[j].types
    requires forall i :: j < i < |cs| ==> k !in cs[i].types
    ensures LastWith(cs, k) == Some(j)
  {
  }

  /** The loops of the constructor: for each component, for each of its types. */
  method CollectComponents(cs: seq<Component>, strip: bool) returns (m: map<string, string>)
    ensures m == ComponentsOf(cs, strip)
  {
    m := map[];
    var i := 0;
    while i < |cs|
      invariant 0 <= i <= |cs|
      invariant m == ComponentsOf(cs[..i], strip)
    {
      var c := cs[i];
      var v := LongName(c, strip);
      var m0 := m;
      var j := 0;
      while j < |c.types|
        invariant 0 <= j <= |c.types|
        invariant m == RecordTypes(m0, c.types[..j], v)
      {
        var t := c.types[j];
        if t in Terms {
          m := m[t := v];
        }
        assert c.types[..j + 1][..j] == c.types[..j];
        j := j + 1;
      }
      assert c.types[..j] == c.types;
      assert cs[..i + 1][..i] == cs[..i];
      i := i + 1;
    }
    assert cs[..i] == cs;
  }

  /** What `RecordTypes` stores under one key. */
  lemma {:induction false} RecordTypesAt(m: map<string, string>, types: seq<string>, v: string, k: string)
    ensures k in RecordTypes(m, types, v) <==> k in m || (k in Terms && k in types)
    ensures k in RecordTypes(m, types, v) ==>
      RecordTypes(m, types, v)[k] == if k in Terms && k in types then v else m[k]
    decreases |types|
  {
    if |types| > 0 {
      var n := |types| - 1;
      RecordTypesAt(m, types[..n], v, k);
      assert types == types[..n] + [types[n]];
      assert k in types <==> k in types[..n] || k == types[n];
    }
  }

  /** Meaning of the constructor: a key is stored exactly when it is a known
      type that some component carries, and its value is the name of the last
      component carrying it. */
  lemma {:induction false} ComponentsOfMeaning(cs: seq<Component>, strip: bool, k: string)
    ensures k in ComponentsOf(cs, strip) <==> k in Terms && LastWith(cs, k).Some?
    ensures k in ComponentsOf(cs, strip) ==>
      ComponentsOf(cs, strip)[k] == LongName(cs[LastWith(cs, k).value], strip)
    decreases |cs|
  {
    if |cs| > 0 {
      var n := |cs| - 1;
      ComponentsOfMeaning(cs[..n], strip, k);
      RecordTypesAt(ComponentsOf(cs[..n], strip), cs[n].types, LongName(cs[n], strip), k);
      if k !in cs[n].types {
        assert LastWith(cs, k) == LastWith(cs[..n], k);
      }
    }
  }

  /** Only the known types are ever stored. */
  lemma StoredKeysAreTerms(cs: seq<Component>, strip: bool)
    ensures forall k | k in ComponentsOf(cs, strip) :: k in Terms
  {
    forall k | k in ComponentsOf(cs, strip)
      ensures k in Terms
    {
      ComponentsOfMeaning(cs, strip, k);
    }
  }

  /** With stripping, no stored name contains the combining accent. */
  lemma StrippedHasNoAccent(cs: seq<Component>, k: string)
    requires k in ComponentsOf(cs, true)
    ensures Accent !in ComponentsOf(cs, true)[k]
  {
    ComponentsOfMeaning(cs, true, k);
  }

  /** When no long name carries the accent, stripping changes nothing. */
  lemma {:induction false} StripIsHarmless(cs: seq<Component>)
    requires forall i :: 0 <= i < |cs| ==> Accent !in cs[i].longName.GetOr("")
    ensures ComponentsOf(cs, true) == ComponentsOf(cs, false)
    decreases |cs|
  {
    if |cs| > 0 {
      var n := |cs| - 1;
      StripIsHarmless(cs[..n]);
      assert LongName(cs[n], true) == LongName(cs[n], false);
    }
  }

  // ---------------------------------------------------------------------
  // Rendering a schema

  /** `_handle_term`. */
  function HandleTerm(components: map<string, string>, t: Term): seq<string>
    decreases t, 1
  {
    match t
    case Name(n) =>
      if n !in components then []
      else if n in StopTerms then [StopPrefix + components[n]]
      else [components[n]]
    case All(ts) => HandleAll(components, ts)
    case First(ts) => HandleFirst(components, ts)
    case Other => []
  }

  /** The list case: the concatenation of the members' renderings. */
  function HandleAll(components: map<string, string>, ts: seq<Term>): seq<string>
    decreases ts, 0
  {
    if |ts| == 0 then []
    else HandleAll(components, ts[..|ts| - 1]) + HandleTerm(components, ts[|ts| - 1])
  }

  /** The tuple case: the first non-empty rendering of a member. */
  function HandleFirst(components: map<string, string>, ts: seq<Term>): seq<string>
    decreases ts, 0
  {
    if |ts| == 0 then []
    else
      var r := HandleTerm(components, ts[0]);
      if r != [] then r else HandleFirst(components, ts[1..])
  }

  /** The schema `format` renders: the given list when it is a non-empty
      list, the default otherwise. */
  function SchemaTerms(schema: Option<Term>, default: seq<Term>): (ts: seq<Term>)
    ensures schema.Some? && schema.value.All? && schema.value.terms != [] ==> ts == schema.value.terms
    ensures !(schema.Some? && schema.value.All? && schema.value.terms != []) ==> ts == default
  {
    if schema.Some? && schema.value.All? && schema.value.terms != [] then schema.value.terms else default
  }

  /** `format`: the joined rendering of the schema. */
  function Formatted(components: map<string, string>, schema: Option<Term>, default: seq<Term>): string
  {
    Text.Join(HandleAll(components, SchemaTerms(schema, default)), ", ")
  }

  /** Rendering a name: nothing when absent, the stored value (prefixed for stops) when present. */
  lemma NameRendering(components: map<string, string>, n: string)
    ensures n !in components ==> HandleTerm(components, Name(n)) == []
    ensures n in components && n !in StopTerms ==> HandleTerm(components, Name(n)) == [components[n]]
    ensures n in components && n in StopTerms ==> HandleTerm(components, Name(n)) == [StopPrefix + components[n]]
  {
  }

  /** Rendering a list is associative over concatenation of its members. */
  lemma {:induction false} HandleAllAppend(components: map<string, string>, a: seq<Term>, b: seq<Term>)
    ensures HandleAll(components, a + b) == HandleAll(components, a) + HandleAll(components, b)
    decreases |b|
  {
    if |b| == 0 {
      assert a + b == a;
    } else {
      var n := |b| - 1;
      HandleAllAppend(components, a, b[..n]);
      assert (a + b)[..|a + b| - 1] == a + b[..n];
      assert (a + b)[|a + b| - 1] == b[n];
    }
  }

  /** A one-member list renders as its member. */
  lemma HandleAllSingle(components: map<string, string>, t: Term)
    ensures HandleAll(components, [t]) == HandleTerm(components, t)
  {
    assert [t][..0] == [];
  }

  /** The position of the first member whose rendering is not empty. */
  function FirstNonEmpty(components: map<string, string>, ts: seq<Term>): (r: Option<nat>)
    ensures r.Some? ==> r.value < |ts| && HandleTerm(components, ts[r.value]) != []
    ensures r.Some? ==> forall i :: 0 <= i < r.value ==> HandleTerm(components, ts[i]) == []
    ensures r.None? <==> forall i :: 0 <= i < |ts| ==> HandleTerm(components, ts[i]) == []
  {
    if |ts| == 0 then None
    else if HandleTerm(components, ts[0]) != [] then Some(0)
    else
      var r := FirstNonEmpty(components, ts[1..]);
      if r.Some? then Some(r.value + 1) else None
  }

  /** A tuple renders as its first member with a non-empty rendering, or as nothing. */
  lemma {:induction false} HandleFirstMeaning(components: map<string, string>, ts: seq<Term>)
    ensures FirstNonEmpty(components, ts).None? ==> HandleFirst(components, ts) == []
    ensures FirstNonEmpty(components, ts).Some? ==>
      HandleFirst(components, ts) == HandleTerm(components, ts[FirstNonEmpty(components, ts).value])
    decreases |ts|
  {
    if |ts| > 0 && HandleTerm(components, ts[0]) == [] {
      HandleFirstMeaning(components, ts[1..]);
    }
  }

  /** Every rendered piece is a stored value, possibly with the stop prefix. */
  predicate FromComponents(components: map<string, string>, pieces: seq<string>)
  {
    forall p | p in pieces :: exists k | k in components :: p == components[k] || p == StopPrefix + components[k]
  }

  lemma {:induction false} RenderingFromComponents(components: map<string, string>, t: Term)
    ensures FromComponents(components, HandleTerm(components, t))
    decreases t, 1
  {
    match t
    case Name(n) =>
    case All(ts) => AllFromComponents(components, ts);
    case First(ts) => FirstFromComponents(components, ts);
    case Other =>
  }

  lemma {:induction false} AllFromComponents(components: map<string, string>, ts: seq<Term>)
    ensures FromComponents(components, HandleAll(components, ts))
    decreases ts, 0
  {
    if |ts| > 0 {
      AllFromComponents(components, ts[..|ts| - 1]);
      RenderingFromComponents(components, ts[|ts| - 1]);
    }
  }

  lemma {:induction false} FirstFromComponents(components: map<string, string>, ts: seq<Term>)
    ensures FromComponents(components, HandleFirst(components, ts))
    decreases ts, 0
  {
    if |ts| > 0 {
      RenderingFromComponents(components, ts[0]);
      FirstFromComponents(components, ts[1..]);
    }
  }

  /** A missing, empty or non-list schema falls back to the default. */
  lemma DefaultSchema(components: map<string, string>, schema: Option<Term>, default: seq<Term>)
    requires schema.None? || !schema.value.All? || schema.value.terms == []
    ensures Formatted(components, schema, default) == Formatted(components, None, default)
  {
  }

  /** The federal subject schema yields the first present of the three
      administrative levels and the locality, or the empty string. */
  lemma FederalSubjectMeaning(components: map<string, string>)
    ensures Formatted(components, Some(All(FederalSubject)), AsDescString) ==
      if AreaLevel1 in components then components[AreaLevel1]
      else if AreaLevel2 in components then components[AreaLevel2]
      else if AreaLevel3 in components then components[AreaLevel3]
      else if Locality in components then components[Locality]
      else ""
  {
    var options := [Name(AreaLevel1), Name(AreaLevel2), Name(AreaLevel3), Name(Locality)];
    assert SchemaTerms(Some(All(FederalSubject)), AsDescString) == [First(options)];
    HandleAllSingle(components, First(options));
    var pieces := HandleFirst(components, options);
    assert options[1..] == [Name(AreaLevel2), Name(AreaLevel3), Name(Locality)];
    assert options[1..][1..] == [Name(AreaLevel3), Name(Locality)];
    assert options[1..][1..][1..] == [Name(Locality)];
    assert AreaLevel1 !in StopTerms && AreaLevel2 !in StopTerms && AreaLevel3 !in StopTerms && Locality !in StopTerms;
    var o3 := options[1..][1..][1..];
    assert HandleFirst(components, o3[1..]) == [];
    assert HandleFirst(components, o3) ==
      if Locality in components then [components[Locality]] else [];
    assert HandleFirst(components, options[1..][1..]) ==
      if AreaLevel3 in components then [components[AreaLevel3]] else HandleFirst(components, o3);
    assert HandleFirst(components, options[1..]) ==
      if AreaLevel2 in components then [components[AreaLevel2]] else HandleFirst(components, options[1..][1..]);
    assert options[0] == Name(AreaLevel1);
    assert HandleTerm(components, options[0]) == if AreaLevel1 in components then [components[AreaLevel1]] else [];
    assert pieces == if AreaLevel1 in components then [components[AreaLevel1]] else HandleFirst(components, options[1..]);
    assert pieces ==
      if AreaLevel1 in components then [components[AreaLevel1]]
      else if AreaLevel2 in components then [components[AreaLevel2]]
      else if AreaLevel3 in components then [components[AreaLevel3]]
      else if Locality in components then [components[Locality]]
      else [];
  }

  /** The value stored under `k`, as a zero- or one-element list. */
  function Present(components: map<string, string>, k: string): (r: seq<string>)
    ensures k in components <==> r != []
    ensures k in components ==> r == [components[k]]
  {
    if k in components then [components[k]] else []
  }

  /** A list of plain names renders as the stored values of those names, in order. */
  lemma {:induction false} AllNames(components: map<string, string>, a: string, b: string, c: string)
    requires a !in StopTerms && b !in StopTerms && c !in StopTerms
    ensures HandleAll(components, [Name(a), Name(b), Name(c)]) ==
      Present(components, a) + Present(components, b) + Present(components, c)
    ensures HandleAll(components, [Name(a), Name(b)]) == Present(components, a) + Present(components, b)
  {
    var ts := [Name(a), Name(b), Name(c)];
    assert ts[..2] == [Name(a), Name(b)];
    assert ts[..2][..1] == [Name(a)];
    HandleAllSingle(components, Name(a));
    assert HandleTerm(components, Name(a)) == Present(components, a);
    assert HandleTerm(components, Name(b)) == Present(components, b);
    assert HandleTerm(components, Name(c)) == Present(components, c);
    assert HandleAll(components, ts[..2]) == HandleAll(components, ts[..2][..1]) + HandleTerm(components, Name(b));
    assert HandleAll(components, ts) == HandleAll(components, ts[..2]) + HandleTerm(components, Name(c));
  }

  /** The settlement part of the default schema: the locality, or else the
      present administrative levels. */
  lemma SettlementMeaning(components: map<string, string>)
    ensures HandleFirst(components, [Name(Locality), All([Name(AreaLevel1), Name(AreaLevel2), Name(AreaLevel3)])]) ==
      if Locality in components then [components[Locality]]
      else Present(components, AreaLevel1) + Present(components, AreaLevel2) + Present(components, AreaLevel3)
  {
    var settlement := [Name(Locality), All([Name(AreaLevel1), Name(AreaLevel2), Name(AreaLevel3)])];
    assert Locality !in StopTerms && AreaLevel1 !in StopTerms && AreaLevel2 !in StopTerms && AreaLevel3 !in StopTerms;
    AllNames(components, AreaLevel1, AreaLevel2, AreaLevel3);
    assert settlement[0] == Name(Locality);
    assert settlement[1..][0] == All([Name(AreaLevel1), Name(AreaLevel2), Name(AreaLevel3)]);
    assert settlement[1..][1..] == [];
    assert HandleFirst(components, settlement[1..]) ==
      Present(components, AreaLevel1) + Present(components, AreaLevel2) + Present(components, AreaLevel3);
  }

  /** The street part of the default schema: the route and house number when
      either is present, or else the bus stop, or else the transit stop. */
  lemma StreetMeaning(components: map<string, string>)
    ensures HandleFirst(components, [All([Name(Route), Name(StreetNumber)]), Name(BusStation), Name(TransitStation)]) ==
      if Route in components || StreetNumber in components
      then Present(components, Route) + Present(components, StreetNumber)
      else if BusStation in components then [StopPrefix + components[BusStation]]
      else if TransitStation in components then [StopPrefix + components[TransitStation]]
      else []
  {
    var street := [All([Name(Route), Name(StreetNumber)]), Name(BusStation), Name(TransitStation)];
    assert Route !in StopTerms && StreetNumber !in StopTerms;
    AllNames(components, Route, StreetNumber, Route);
    assert street[0] == All([Name(Route), Name(StreetNumber)]);
    var rest := street[1..];
    assert rest[0] == Name(BusStation);
    assert rest[1..][0] == Name(TransitStation);
    assert rest[1..][1..] == [];
    assert HandleFirst(components, rest[1..]) ==
      if TransitStation in components then [StopPrefix + components[TransitStation]] else [];
    assert HandleFirst(components, rest) ==
      if BusStation in components then [StopPrefix + components[BusStation]] else HandleFirst(components, rest[1..]);
  }

  /** The default schema: the settlement part followed by the street part. */
  lemma AsDescStringMeaning(components: map<string, string>)
    ensures HandleAll(components, AsDescString) ==
      (if Locality in components then [components[Locality]]
       else Present(components, AreaLevel1) + Present(components, AreaLevel2) + Present(components, AreaLevel3))
      +
      (if Route in components || StreetNumber in components
       then Present(components, Route) + Present(components, StreetNumber)
       else if BusStation in components then [StopPrefix + components[BusStation]]
       else if TransitStation in components then [StopPrefix + components[TransitStation]]
       else [])
  {
    var settlement := [Name(Locality), All([Name(AreaLevel1), Name(AreaLevel2), Name(AreaLevel3)])];
    var street := [All([Name(Route), Name(StreetNumber)]), Name(BusStation), Name(TransitStation)];
    assert AsDescString == [First(settlement)] + [First(street)];
    HandleAllAppend(components, [First(settlement)], [First(street)]);
    HandleAllSingle(components, First(settlement));
    HandleAllSingle(components, First(street));
    SettlementMeaning(components);
    StreetMeaning(components);
  }

  /** The city schema yields the locality, or the empty string. */
  lemma CityMeaning(components: map<string, string>)
    ensures Formatted(components, Some(All(City)), AsDescString) ==
      if Locality in components then components[Locality] else ""
  {
    HandleAllSingle(components, Name(Locality));
    assert Locality !in StopTerms;
  }

  // ---------------------------------------------------------------------
  // The formatter object

  /** `gmaps/address.py` `GoogleMapsAddress`. */
  class GoogleMapsAddress {
    var components: map<string, string>

    constructor(addressComponents: seq<Component>)
      ensures components == ComponentsOf(addressComponents, true)
    {
      var m := CollectComponents(addressComponents, true);
      components := m;
    }

    /** `format`, with its loop over the schema's terms. */
    method Format(schema: Option<Term>) returns (s: string)
      ensures s == Formatted(components, schema, AsDescString)
    {
      var terms := SchemaTerms(schema, AsDescString);
      var result: seq<string> := [];
      var i := 0;
      while i < |terms|
        invariant 0 <= i <= |terms|
        invariant result == HandleAll(components, terms[..i])
      {
        assert terms[..i + 1][..i] == terms[..i];
        result := result + HandleTerm(components, terms[i]);
        i := i + 1;
      }
      assert terms[..i] == terms;
      s := Text.Join(result, ", ");
    }
  }
}

module GmapsAddressExamples {
  import opened Wrappers
  import opened GmapsAddress
  import Text

  const Stop := Component(Some("Сельхозтехника"), [BusStation, "establishment", "point_of_interest", TransitStation])
  const Terms4: seq<Component> := [
    Stop,
    Component(Some("Челюскинский"), [Locality, "political"]),
    Component(Some("Пушкинский район"), [AreaLevel2, "political"]),
    Component(Some("Московская область"), [AreaLevel1, "political"]),
    Component(Some("Россия"), [Country, "political"]),
    Component(Some("141220"), ["postal_code"])
  ]

  /** No long name of the fourth test address carries the accent, so
      stripping it changes nothing. */
  lemma Terms4Unaccented()
    ensures ComponentsOf(Terms4, true) == ComponentsOf(Terms4, false)
  {
    StripIsHarmless(Terms4);
  }

  /** The stored values of the fourth test address, one key at a time. */
  lemma Terms4Locality()
    ensures Locality in ComponentsOf(Terms4, false) && ComponentsOf(Terms4, false)[Locality] == "Челюскинский"
  {
    ComponentsOfMeaning(Terms4, false, Locality);
    assert Locality !in Terms4[2].types && Locality !in Terms4[3].types;
    assert Locality !in Terms4[4].types && Locality !in Terms4[5].types;
    LastWithAt(Terms4, Locality, 1);
  }

  lemma Terms4Stop()
    ensures BusStation in ComponentsOf(Terms4, false) && ComponentsOf(Terms4, false)[BusStation] == "Сельхозтехника"
  {
    ComponentsOfMeaning(Terms4, false, BusStation);
    assert BusStation !in Terms4[1].types && BusStation !in Terms4[2].types && BusStation !in Terms4[3].types;
    assert BusStation !in Terms4[4].types && BusStation !in Terms4[5].types;
    LastWithAt(Terms4, BusStation, 0);
  }

  lemma Terms4Region()
    ensures AreaLevel1 in ComponentsOf(Terms4, false) && ComponentsOf(Terms4, false)[AreaLevel1] == "Московская область"
  {
    ComponentsOfMeaning(Terms4, false, AreaLevel1);
    assert AreaLevel1 !in Terms4[4].types && AreaLevel1 !in Terms4[5].types;
    LastWithAt(Terms4, AreaLevel1, 3);
  }

  lemma Terms4NoStreet()
    ensures Route !in ComponentsOf(Terms4, false) && StreetNumber !in ComponentsOf(Terms4, false)
  {
    ComponentsOfMeaning(Terms4, false, Route);
    assert LastWith(Terms4, Route) == None;
    ComponentsOfMeaning(Terms4, false, StreetNumber);
    assert LastWith(Terms4, StreetNumber) == None;
  }

  /** Rendering a dictionary with a locality, a bus stop, a region and no street. */
  lemma StopAddressFormat(c: map<string, string>, locality: string, stop: string, region: string)
    requires Locality in c && c[Locality] == locality
    requires BusStation in c && c[BusStation] == stop
    requires AreaLevel1 in c && c[AreaLevel1] == region
    requires Route !in c && StreetNumber !in c
    ensures Formatted(c, None, AsDescString) == locality + ", " + StopPrefix + stop
    ensures Formatted(c, Some(All(FederalSubject)), AsDescString) == region
  {
    AsDescStringMeaning(c);
    assert HandleAll(c, AsDescString) == [locality, StopPrefix + stop];
    assert Text.Join([locality, StopPrefix + stop], ", ") == locality + ", " + (StopPrefix + stop);
    FederalSubjectMeaning(c);
  }

  /** Helper: the expected string of the stop example, in concatenated form. */
  lemma Terms4Text()
    ensures "Челюскинский, ост. Сельхозтехника" == "Челюскинский" + ", " + StopPrefix + "Сельхозтехника"
  {
  }

  /** The fourth test address renders as its locality and its bus stop, and
      its federal subject is the region. */
  lemma Terms4Format()
    ensures Formatted(ComponentsOf(Terms4, true), None, AsDescString) == "Челюскинский, ост. Сельхозтехника"
    ensures Formatted(ComponentsOf(Terms4, true), Some(All(FederalSubject)), AsDescString) == "Московская область"
  {
    Terms4Unaccented();
    Terms4Locality();
    Terms4Stop();
    Terms4Region();
    Terms4NoStreet();
    StopAddressFormat(ComponentsOf(Terms4, false), "Челюскинский", "Сельхозтехника", "Московская область");
    Terms4Text();
  }

  const Terms1: seq<Component> := [
    Component(Some("9а"), [StreetNumber]),
    Component(Some("улица Профессора Качалова"), [Route]),
    Component(Some("Санкт-Петербург"), [Locality, "political"]),
    Component(Some("Невский"), [AreaLevel3, "political"]),
    Component(Some("Санкт-Петербург"), [AreaLevel2, "political"]),
    Component(Some("Россия"), [Country, "political"]),
    Component(Some("192019"), ["postal_code"])
  ]

  lemma Terms1Unaccented()
    ensures ComponentsOf(Terms1, true) == ComponentsOf(Terms1, false)
  {
    StripIsHarmless(Terms1);
  }

  lemma Terms1Number()
    ensures StreetNumber in ComponentsOf(Terms1, false) && ComponentsOf(Terms1, false)[StreetNumber] == "9а"
  {
    ComponentsOfMeaning(Terms1, false, StreetNumber);
    assert StreetNumber !in Terms1[1].types && StreetNumber !in Terms1[2].types && StreetNumber !in Terms1[3].types;
    assert StreetNumber !in Terms1[4].types && StreetNumber !in Terms1[5].types && StreetNumber !in Terms1[6].types;
    LastWithAt(Terms1, StreetNumber, 0);
  }

  lemma Terms1Street()
    ensures Route in ComponentsOf(Terms1, false) && ComponentsOf(Terms1, false)[Route] == "улица Профессора Качалова"
  {
    ComponentsOfMeaning(Terms1, false, Route);
    assert Route !in Terms1[2].types && Route !in Terms1[3].types;
    assert Route !in Terms1[4].types && Route !in Terms1[5].types && Route !in Terms1[6].types;
    LastWithAt(Terms1, Route, 1);
  }

  lemma Terms1Locality()
    ensures Locality in ComponentsOf(Terms1, false) && ComponentsOf(Terms1, false)[Locality] == "Санкт-Петербург"
  {
    ComponentsOfMeaning(Terms1, false, Locality);
    assert Locality !in Terms1[3].types && Locality !in Terms1[4].types;
    assert Locality !in Terms1[5].types && Locality !in Terms1[6].types;
    LastWithAt(Terms1, Locality, 2);
  }

  lemma Terms1NoRegion()
    ensures AreaLevel1 !in ComponentsOf(Terms1, false)
  {
    ComponentsOfMeaning(Terms1, false, AreaLevel1);
    assert LastWith(Terms1, AreaLevel1) == None;
  }

  lemma Terms1Subject()
    ensures AreaLevel2 in ComponentsOf(Terms1, false) && ComponentsOf(Terms1, false)[AreaLevel2] == "Санкт-Петербург"
  {
    ComponentsOfMeaning(Terms1, false, AreaLevel2);
    assert AreaLevel2 !in Terms1[5].types && AreaLevel2 !in Terms1[6].types;
    LastWithAt(Terms1, AreaLevel2, 4);
  }

  /** Rendering a dictionary with a locality, a route and a house number, and
      a second-level area but no first-level one. */
  lemma StreetAddressFormat(c: map<string, string>, locality: string, route: string, number: string, area: string)
    requires Locality in c && c[Locality] == locality
    requires Route in c && c[Route] == route
    requires StreetNumber in c && c[StreetNumber] == number
    requires AreaLevel1 !in c && AreaLevel2 in c && c[AreaLevel2] == area
    ensures Formatted(c, None, AsDescString) == locality + ", " + route + ", " + number
    ensures Formatted(c, Some(All(FederalSubject)), AsDescString) == area
  {
    AsDescStringMeaning(c);
    assert HandleAll(c, AsDescString) == [locality, route, number];
    var parts := [locality, route, number];
    assert parts[1..] == [route, number] && parts[1..][1..] == [number];
    assert Text.Join(parts[1..], ", ") == route + ", " + number;
    assert Text.Join(parts, ", ") == locality + ", " + (route + ", " + number);
    FederalSubjectMeaning(c);
  }

  /** Helper: the expected string of the street example, in concatenated form. */
  lemma Terms1Text()
    ensures "Санкт-Петербург, улица Профессора Качалова, 9а" == "Санкт-Петербург" + ", " + "улица Профессора Качалова" + ", " + "9а"
  {
  }

  /** The first test address renders as city, street and house number, and
      its federal subject is the second-level area, as the first level is missing. */
  lemma Terms1Format()
    ensures Formatted(ComponentsOf(Terms1, true), None, AsDescString) == "Санкт-Петербург, улица Профессора Качалова, 9а"
    ensures Formatted(ComponentsOf(Terms1, true), Some(All(FederalSubject)), AsDescString) == "Санкт-Петербург"
  {
    Terms1Unaccented();
    Terms1Number();
    Terms1Street();
    Terms1Locality();
    Terms1NoRegion();
    Terms1Subject();
    StreetAddressFormat(ComponentsOf(Terms1, false), "Санкт-Петербург", "улица Профессора Качалова", "9а", "Санкт-Петербург");
    Terms1Text();
  }
}
