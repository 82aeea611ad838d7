/**
 * The older Google Maps address formatter, a self-contained duplicate of the
 * current one: the same schema evaluator and the same default schema, but
 * long names are stored exactly as received (no accent is removed).
 */
module GmapsLegacy {
  import opened Wrappers
  import Text
  import GmapsAddress

  /** `GOOGLE_MAPS_ADDRESS_SCHEMAS['as_desc_string']`, written out again. */
  const AsDescString: seq<GmapsAddress.Term> := [
    GmapsAddress.First([
      GmapsAddress.Name(GmapsAddress.Locality),
      GmapsAddress.All([
        GmapsAddress.Name(GmapsAddress.AreaLevel1),
        GmapsAddress.Name(GmapsAddress.AreaLevel2),
        GmapsAddress.Name(GmapsAddress.AreaLevel3)])]),
    GmapsAddress.First([
      GmapsAddress.All([GmapsAddress.Name(GmapsAddress.Route), GmapsAddress.Name(GmapsAddress.StreetNumber)]),
      GmapsAddress.Name(GmapsAddress.BusStation),
      GmapsAddress.Name(GmapsAddress.TransitStation)])
  ]

  /** `geo_garry/gmaps.py` `GoogleMapsAddress`. */
  class GoogleMapsAddress {
    var components: map<string, string>

    constructor(addressComponents: seq<GmapsAddress.Component>)
      ensures components == GmapsAddress.ComponentsOf(addressComponents, false)
    {
      var m := GmapsAddress.CollectComponents(addressComponents, false);
      components := m;
    }

    /** `format`, with its loop over the schema's terms. */
    method Format(schema: Option<GmapsAddress.Term>) returns (s: string)
      ensures s == GmapsAddress.Formatted(components, schema, AsDescString)
    {
      var terms := GmapsAddress.SchemaTerms(schema, AsDescString);
      var result: seq<string> := [];
      var i := 0;
      while i < |terms|
        invariant 0 <= i <= |terms|
        invariant result == GmapsAddress.HandleAll(components, terms[..i])
      {
        assert terms[..i + 1][..i] == terms[..i];
        result := result + GmapsAddress.HandleTerm(components, terms[i]);
        i := i + 1;
      }
      assert terms[..i] == terms;
      s := Text.Join(result, ", ");
    }
  }

  /** The older formatter keeps every long name verbatim: a key is stored
      exactly when it is a known type that some component carries, with the
      unmodified long name (or `''`) of the last such component. */
  lemma StoresLongNameVerbatim(cs: seq<GmapsAddress.Component>, k: string)
    ensures k in GmapsAddress.ComponentsOf(cs, false) <==> k in GmapsAddress.Terms && GmapsAddress.LastWith(cs, k).Some?
    ensures k in GmapsAddress.ComponentsOf(cs, false) ==>
      GmapsAddress.ComponentsOf(cs, false)[k] == cs[GmapsAddress.LastWith(cs, k).value].longName.GetOr("")
  {
    GmapsAddress.ComponentsOfMeaning(cs, false, k);
  }

  /** The two formatters agree on every schema whenever no long name carries
      the combining accent. */
  lemma AgreesWithCurrent(cs: seq<GmapsAddress.Component>, schema: Option<GmapsAddress.Term>)
    requires forall i :: 0 <= i < |cs| ==> GmapsAddress.Accent !in cs[i].longName.GetOr("")
    ensures GmapsAddress.Formatted(GmapsAddress.ComponentsOf(cs, false), schema, AsDescString) ==
      GmapsAddress.Formatted(GmapsAddress.ComponentsOf(cs, true), schema, GmapsAddress.AsDescString)
  {
    GmapsAddress.StripIsHarmless(cs);
    assert AsDescString == GmapsAddress.AsDescString;
  }

  /** An accented locality keeps its accent in the older formatter and loses
      it in the current one. */
  lemma AccentKept()
    ensures GmapsAddress.Formatted(
      GmapsAddress.ComponentsOf([GmapsAddress.Component(Some("а\U{0301}"), [GmapsAddress.Locality])], false),
      None, AsDescString) == "а\U{0301}"
    ensures GmapsAddress.Formatted(
      GmapsAddress.ComponentsOf([GmapsAddress.Component(Some("а\U{0301}"), [GmapsAddress.Locality])], true),
      None, GmapsAddress.AsDescString) == "а"
  {
    var cs := [GmapsAddress.Component(Some("а\U{0301}"), [GmapsAddress.Locality])];
    assert Text.RemoveChar("\U{0301}", GmapsAddress.Accent) == "";
    assert Text.RemoveChar("а\U{0301}", GmapsAddress.Accent) == "а";
    forall strip: bool, k | k != GmapsAddress.Locality
      ensures k !in GmapsAddress.ComponentsOf(cs, strip)
    {
      GmapsAddress.ComponentsOfMeaning(cs, strip, k);
    }
    GmapsAddress.ComponentsOfMeaning(cs, false, GmapsAddress.Locality);
    GmapsAddress.ComponentsOfMeaning(cs, true, GmapsAddress.Locality);
    assert AsDescString == GmapsAddress.AsDescString;
    GmapsAddress.AsDescStringMeaning(GmapsAddress.ComponentsOf(cs, false));
    GmapsAddress.AsDescStringMeaning(GmapsAddress.ComponentsOf(cs, true));
  }
}
