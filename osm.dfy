/**
 * The OpenStreetMap address formatter: a reverse-geocoding response carries
 * an `address` dictionary, and a flat schema lists the keys to render. A
 * missing or empty value is skipped; the `state` value goes through a small
 * alias table and becomes "Байконур" inside the Baikonur county.
 */
module Osm {
  import opened Wrappers
  import Text

  /** A schema as `format` receives it: a list of keys, or a value that is not a list. */
  datatype Schema = Keys(keys: seq<string>) | NotAList

  /** The decoded response; only its `address` member is used. */
  datatype RawResults = RawResults(address: Option<map<string, string>>)

  const State := "state"
  const Road := "road"
  const Building := "building"
  const HouseNumber := "house_number"
  const County := "county"

  /** `OSM_ADDRESS_SCHEMAS['as_desc_string']`. */
  const AsDescString: seq<string> := [State, Road, Building, HouseNumber]

  /** `OSM_ADDRESS_SCHEMAS['federal_subject']`. */
  const FederalSubject: seq<string> := [State]

  const Crimea := "Автономная Республика Крым"
  const CrimeaAlias := "Республика Крым"
  const BaikonurCounty := "Байконыр Г.А."
  const Baikonur := "Байконур"

  /** `match_state`: the one state alias; every other name is kept. */
  function MatchState(state: string): (r: string)
    ensures state == Crimea ==> r == CrimeaAlias
    ensures state != Crimea ==> r == state
  {
    if state == Crimea then CrimeaAlias else state
  }

  /** The alias table maps onto names it does not rename again. */
  lemma MatchStateIdempotent(state: string)
    ensures MatchState(MatchState(state)) == MatchState(state)
  {
    assert CrimeaAlias != Crimea by {
      assert |CrimeaAlias| != |Crimea|;
    }
  }

  /** A key is rendered when its value is present and not empty (truthy). */
  predicate Truthy(components: map<string, string>, key: string)
  {
    key in components && components[key] != ""
  }

  /** The rendering of one truthy key. */
  function Piece(components: map<string, string>, key: string): (r: string)
    requires Truthy(components, key)
  {
    if key != State then components[key]
    else if County in components && components[County] == BaikonurCounty then Baikonur
    else MatchState(components[key])
  }

  /** The rendered pieces of a list of keys, in order. */
  function Pieces(components: map<string, string>, keys: seq<string>): seq<string>
  {
    if |keys| == 0 then []
    else
      var key := keys[|keys| - 1];
      Pieces(components, keys[..|keys| - 1]) + (if Truthy(components, key) then [Piece(components, key)] else [])
  }

  /** The keys `format` renders: the given list when it is a non-empty list, the default otherwise. */
  function SchemaKeys(schema: Option<Schema>): (keys: seq<string>)
    ensures schema.Some? && schema.value.Keys? && schema.value.keys != [] ==> keys == schema.value.keys
    ensures !(schema.Some? && schema.value.Keys? && schema.value.keys != []) ==> keys == AsDescString
  {
    if schema.Some? && schema.value.Keys? && schema.value.keys != [] then schema.value.keys else AsDescString
  }

  /** `format`. */
  function Formatted(components: map<string, string>, schema: Option<Schema>): string
  {
    Text.Join(Pieces(components, SchemaKeys(schema)), ", ")
  }

  /** `geo_garry/osm.py` `OpenStreetMapsAddress`. */
  class OpenStreetMapsAddress {
    var addressComponents: map<string, string>

    constructor(rawResults: RawResults)
      ensures addressComponents == rawResults.address.GetOr(map[])
    {
      addressComponents := rawResults.address.GetOr(map[]);
    }

    /** `format`, with its loop over the schema's keys. */
    method Format(schema: Option<Schema>) returns (s: string)
      ensures s == Formatted(addressComponents, schema)
    {
      var keys := SchemaKeys(schema);
      var result: seq<string> := [];
      var i := 0;
      while i < |keys|
        invariant 0 <= i <= |keys|
        invariant result == Pieces(addressComponents, keys[..i])
      {
        var key := keys[i];
        assert keys[..i + 1][..i] == keys[..i];
        if key in addressComponents && addressComponents[key] != "" {
          var val := addressComponents[key];
          if key == State {
            val := MatchState(val);
            if County in addressComponents && addressComponents[County] == BaikonurCounty {
              val := Baikonur;
            }
          }
          result := result + [val];
        }
        i := i + 1;
      }
      assert keys[..i] == keys;
      s := Text.Join(result, ", ");
    }
  }

  /** Rendering a list of keys distributes over concatenation. */
  lemma {:induction false} PiecesAppend(components: map<string, string>, a: seq<string>, b: seq<string>)
    ensures Pieces(components, a + b) == Pieces(components, a) + Pieces(components, b)
    decreases |b|
  {
    if |b| == 0 {
      assert a + b == a;
    } else {
      var n := |b| - 1;
      PiecesAppend(components, a, b[..n]);
      assert (a + b)[..|a + b| - 1] == a + b[..n];
    }
  }

  /** One key renders as its piece when truthy and is skipped otherwise. */
  lemma PiecesSingle(components: map<string, string>, key: string)
    ensures Truthy(components, key) ==> Pieces(components, [key]) == [Piece(components, key)]
    ensures !Truthy(components, key) ==> Pieces(components, [key]) == []
  {
    assert [key][..0] == [];
  }

  /** Only `state` is transformed: every other key is copied verbatim. */
  lemma OtherKeysVerbatim(components: map<string, string>, key: string)
    requires Truthy(components, key) && key != State
    ensures Piece(components, key) == components[key]
  {
  }

  /** Inside the Baikonur county the state is always "Байконур", whatever its
      value and alias; elsewhere it is the aliased value. */
  lemma StateRendering(components: map<string, string>)
    requires Truthy(components, State)
    ensures County in components && components[County] == BaikonurCounty ==> Piece(components, State) == Baikonur
    ensures !(County in components && components[County] == BaikonurCounty) ==>
      Piece(components, State) == MatchState(components[State])
  {
  }

  /** No rendered piece is empty, so the output never holds an empty segment. */
  lemma {:induction false} PiecesNonEmpty(components: map<string, string>, keys: seq<string>)
    ensures forall p | p in Pieces(components, keys) :: p != ""
    ensures |Pieces(components, keys)| <= |keys|
    decreases |keys|
  {
    if |keys| > 0 {
      var n := |keys| - 1;
      PiecesNonEmpty(components, keys[..n]);
      if Truthy(components, keys[n]) && keys[n] == State {
        assert |Baikonur| > 0 && |CrimeaAlias| > 0;
      }
    }
  }

  /** Every non-state piece is a value of the dictionary. */
  lemma {:induction false} PiecesFromComponents(components: map<string, string>, keys: seq<string>)
    ensures forall p | p in Pieces(components, keys) ::
      p == Baikonur || p == CrimeaAlias || exists k | k in components :: components[k] == p
    decreases |keys|
  {
    if |keys| > 0 {
      PiecesFromComponents(components, keys[..|keys| - 1]);
    }
  }

  /** A missing, empty or non-list schema renders the default keys. */
  lemma DefaultSchema(components: map<string, string>, schema: Option<Schema>)
    requires schema.None? || schema.value.NotAList? || schema.value.keys == []
    ensures Formatted(components, schema) == Formatted(components, Some(Keys(AsDescString)))
  {
  }

  /** The federal subject schema renders the state piece, or the empty string. */
  lemma FederalSubjectMeaning(components: map<string, string>)
    ensures Formatted(components, Some(Keys(FederalSubject))) ==
      if Truthy(components, State) then Piece(components, State) else ""
  {
    PiecesSingle(components, State);
  }

  /** An empty dictionary renders nothing. */
  lemma {:induction false} PiecesOfEmpty(keys: seq<string>)
    ensures Pieces(map[], keys) == []
    decreases |keys|
  {
    if |keys| > 0 {
      PiecesOfEmpty(keys[..|keys| - 1]);
    }
  }

  /** A response without an `address` member renders as the empty string. */
  lemma NoAddressIsEmpty(schema: Option<Schema>)
    ensures Formatted(RawResults(None).address.GetOr(map[]), schema) == ""
  {
    PiecesOfEmpty(SchemaKeys(schema));
  }
}

module OsmExamples {
  import opened Wrappers
  import opened Osm
  import Text

  /** The `address` member of the third test response. */
  const BaikonurAddress: map<string, string> := map[
    Building := "Больница Акай",
    Road := "улица Гагарина",
    "village" := "Ахай",
    County := BaikonurCounty,
    State := "Кызылординская область",
    "postcode" := "468320",
    "country" := "Казахстан",
    "country_code" := "kz"
  ]

  /** Rendering the default keys when all but the house number are truthy. */
  lemma ThreeKeys(c: map<string, string>)
    requires Truthy(c, State) && Truthy(c, Road) && Truthy(c, Building) && !Truthy(c, HouseNumber)
    ensures Formatted(c, None) == Piece(c, State) + ", " + (c[Road] + ", " + c[Building])
  {
    assert AsDescString == [State] + [Road] + [Building] + [HouseNumber];
    PiecesAppend(c, [State] + [Road] + [Building], [HouseNumber]);
    PiecesAppend(c, [State] + [Road], [Building]);
    PiecesAppend(c, [State], [Road]);
    PiecesSingle(c, State);
    PiecesSingle(c, Road);
    PiecesSingle(c, Building);
    PiecesSingle(c, HouseNumber);
    var parts := [Piece(c, State), c[Road], c[Building]];
    assert Pieces(c, AsDescString) == parts;
    assert parts[1..] == [c[Road], c[Building]] && parts[1..][1..] == [c[Building]];
    assert Text.Join(parts[1..], ", ") == c[Road] + ", " + c[Building];
    assert Text.Join(parts, ", ") == Piece(c, State) + ", " + Text.Join(parts[1..], ", ");
  }

  lemma BaikonurFacts()
    ensures Truthy(BaikonurAddress, State) && Piece(BaikonurAddress, State) == Baikonur
    ensures Truthy(BaikonurAddress, Road) && BaikonurAddress[Road] == "улица Гагарина"
    ensures Truthy(BaikonurAddress, Building) && BaikonurAddress[Building] == "Больница Акай"
    ensures !Truthy(BaikonurAddress, HouseNumber)
  {
  }

  /** Helper: the expected Baikonur string, in concatenated form. */
  lemma BaikonurText()
    ensures "Байконур, улица Гагарина, Больница Акай" == Baikonur + ", " + ("улица Гагарина" + ", " + "Больница Акай")
  {
  }

  /** Inside the Baikonur county the state renders as "Байконур", in both schemas. */
  lemma BaikonurExample()
    ensures Formatted(BaikonurAddress, None) == "Байконур, улица Гагарина, Больница Акай"
    ensures Formatted(BaikonurAddress, Some(Keys(FederalSubject))) == "Байконур"
  {
    BaikonurText();
    BaikonurFacts();
    ThreeKeys(BaikonurAddress);
    FederalSubjectMeaning(BaikonurAddress);
  }

  /** The `address` member of the first test response. */
  const MoscowAddress: map<string, string> := map[
    Building := "Башня Эволюция",
    HouseNumber := "4 с2",
    Road := "Пресненская набережная",
    "suburb" := "Пресненский район",
    "state_district" := "Центральный административный округ",
    State := "Москва",
    "postcode" := "123317",
    "country" := "РФ",
    "country_code" := "ru"
  ]

  /** Rendering the default keys when all four are truthy. */
  lemma FourKeys(c: map<string, string>)
    requires Truthy(c, State) && Truthy(c, Road) && Truthy(c, Building) && Truthy(c, HouseNumber)
    ensures Formatted(c, None) == Piece(c, State) + ", " + (c[Road] + ", " + (c[Building] + ", " + c[HouseNumber]))
  {
    assert AsDescString == [State] + [Road] + [Building] + [HouseNumber];
    PiecesAppend(c, [State] + [Road] + [Building], [HouseNumber]);
    PiecesAppend(c, [State] + [Road], [Building]);
    PiecesAppend(c, [State], [Road]);
    PiecesSingle(c, State);
    PiecesSingle(c, Road);
    PiecesSingle(c, Building);
    PiecesSingle(c, HouseNumber);
    var parts := [Piece(c, State), c[Road], c[Building], c[HouseNumber]];
    assert Pieces(c, AsDescString) == parts;
    var tail := parts[1..];
    assert tail == [c[Road], c[Building], c[HouseNumber]];
    assert tail[1..] == [c[Building], c[HouseNumber]] && tail[1..][1..] == [c[HouseNumber]];
    assert Text.Join(tail[1..], ", ") == c[Building] + ", " + c[HouseNumber];
    assert Text.Join(tail, ", ") == c[Road] + ", " + Text.Join(tail[1..], ", ");
    assert Text.Join(parts, ", ") == Piece(c, State) + ", " + Text.Join(tail, ", ");
  }

  lemma MoscowFacts()
    ensures Truthy(MoscowAddress, State) && Piece(MoscowAddress, State) == "Москва"
    ensures Truthy(MoscowAddress, Road) && MoscowAddress[Road] == "Пресненская набережная"
    ensures Truthy(MoscowAddress, Building) && MoscowAddress[Building] == "Башня Эволюция"
    ensures Truthy(MoscowAddress, HouseNumber) && MoscowAddress[HouseNumber] == "4 с2"
  {
    assert County !in MoscowAddress;
    assert "Москва" != Crimea;
  }

  /** A response with all four default keys renders them in schema order. */
  lemma MoscowExample()
    ensures Formatted(MoscowAddress, None) ==
      "Москва" + ", " + ("Пресненская набережная" + ", " + ("Башня Эволюция" + ", " + "4 с2"))
    ensures Formatted(MoscowAddress, Some(Keys(FederalSubject))) == "Москва"
  {
    MoscowFacts();
    FourKeys(MoscowAddress);
    FederalSubjectMeaning(MoscowAddress);
  }
}
