/**
 * `CatalogSearcher.search_images`: the request parameters become the keyword
 * arguments of a STAC item search, and Sentinel-1 results are narrowed to
 * the interferometric wide swath ("IW") acquisition mode.
 */
module CatalogSearcher {
  import opened PyRuntime
  import opened PyDicts

  /** The one collection that has no cloud cover and is filtered by instrument mode. */
  const Sentinel1 := "sentinel-1-grd"

  function Collection(params: map<string, Value>): Value { Get(params, "collection", Null) }
  function Platforms(params: map<string, Value>): Value { Get(params, "platforms", Null) }
  function FeatureGeojson(params: map<string, Value>): Value { Get(params, "feature_geojson", Dict(map[])) }

  function CloudClause(params: map<string, Value>): Value {
    Dict(map["lte" := Get(params, "max_cloud_cover", Null)])
  }

  function PlatformClause(params: map<string, Value>): Value {
    Dict(map["in" := Platforms(params)])
  }

  /**
   * The `query` argument: a cloud-cover bound unless the collection is
   * Sentinel-1, and a platform restriction when platforms are given.
   */
  function Query(params: map<string, Value>): (q: map<string, Value>)
    ensures q.Keys <= {"eo:cloud_cover", "platform"}
    ensures "eo:cloud_cover" in q <==> Collection(params) != Str(Sentinel1)
    ensures "eo:cloud_cover" in q ==> q["eo:cloud_cover"] == CloudClause(params)
    ensures "platform" in q <==> Truthy(Platforms(params))
    ensures "platform" in q ==> q["platform"] == PlatformClause(params)
  {
    var cloud: map<string, Value> :=
      if Collection(params) != Str(Sentinel1) then map["eo:cloud_cover" := CloudClause(params)] else map[];
    if Truthy(Platforms(params)) then cloud["platform" := PlatformClause(params)] else cloud
  }

  /**
   * The keyword arguments of `get_items`, or the AttributeError raised when
   * `feature_geojson` is not a dict (it has no `.get`).
   */
  function SearchKwargs(params: map<string, Value>): (r: Result<map<string, Value>>)
    ensures r.Err? <==> !FeatureGeojson(params).Dict?
    ensures r.Err? ==> r.error == AttributeError
    ensures r.Ok? ==> r.value.Keys == {"datetime", "max_items", "collections", "intersects", "query"}
    ensures r.Ok? ==> r.value["datetime"] == Get(params, "date_string", Null)
    ensures r.Ok? ==> r.value["max_items"] == Get(params, "max_items", Null)
    ensures r.Ok? ==> r.value["collections"] == List([Collection(params)])
    ensures r.Ok? ==> r.value["intersects"] == Get(FeatureGeojson(params).entries, "geometry", Null)
    ensures r.Ok? ==> r.value["query"] == Dict(Query(params))
  {
    var fg := FeatureGeojson(params);
    if !fg.Dict? then Err(AttributeError)
    else Ok(map[
      "datetime" := Get(params, "date_string", Null),
      "max_items" := Get(params, "max_items", Null),
      "collections" := List([Collection(params)]),
      "intersects" := Get(fg.entries, "geometry", Null),
      "query" := Dict(Query(params))])
  }

  // ---------------------------------------------------------------------
  // The Sentinel-1 post-filter

  /** `result.get("properties", {})` answers `.get`. */
  predicate HasDictProperties(item: Item) {
    Get(item, "properties", Dict(map[])).Dict?
  }

  /** `result.get("properties", {}).get("sar:instrument_mode", "") == "IW"` */
  predicate IsIW(item: Item)
    requires HasDictProperties(item)
  {
    Get(Get(item, "properties", Dict(map[])).entries, "sar:instrument_mode", Str("")) == Str("IW")
  }

  /**
   * The list comprehension keeping the IW items, in order; AttributeError
   * when some item's `properties` is present but not a dict.
   */
  function FilterIW(items: seq<Item>): (r: Result<seq<Item>>)
    ensures r.Ok? <==> forall i :: 0 <= i < |items| ==> HasDictProperties(items[i])
    ensures r.Err? ==> r.error == AttributeError
    ensures r.Ok? ==> |r.value| <= |items|
    ensures r.Ok? ==> forall i :: 0 <= i < |r.value| ==> HasDictProperties(r.value[i]) && IsIW(r.value[i])
    ensures r.Ok? ==> forall x :: x in r.value ==> x in items
    ensures r.Ok? ==> forall i :: 0 <= i < |items| && IsIW(items[i]) ==> items[i] in r.value
    decreases |items|
  {
    if |items| == 0 then Ok([])
    else if !HasDictProperties(items[0]) then Err(AttributeError)
    else match FilterIW(items[1..])
      case Err(e) => Err(e)
      case Ok(rest) =>
        assert forall i :: 1 <= i < |items| ==> items[i] == items[1..][i - 1];
        if IsIW(items[0]) then Ok([items[0]] + rest) else Ok(rest)
  }

  /** The filter works item by item: it distributes over concatenation, so it keeps the original order. */
  lemma {:induction false} FilterIWConcat(a: seq<Item>, b: seq<Item>)
    ensures FilterIW(a + b) ==
      match (FilterIW(a), FilterIW(b))
      case (Ok(x), Ok(y)) => Ok(x + y)
      case _ => Err(AttributeError)
    decreases |a|
  {
    if |a| > 0 {
      assert (a + b)[1..] == a[1..] + b;
      assert (a + b)[0] == a[0];
      FilterIWConcat(a[1..], b);
      if HasDictProperties(a[0]) && FilterIW(a[1..]).Ok? && FilterIW(b).Ok? {
        if IsIW(a[0]) {
          assert [a[0]] + (FilterIW(a[1..]).value + FilterIW(b).value)
              == ([a[0]] + FilterIW(a[1..]).value) + FilterIW(b).value;
        }
      }
    } else {
      assert a + b == b;
      if FilterIW(b).Ok? {
        assert [] + FilterIW(b).value == FilterIW(b).value;
      }
    }
  }

  /** One item: kept exactly when its mode is IW; an item without `properties` is dropped. */
  lemma FilterIWSingle(x: Item)
    ensures FilterIW([x]) ==
      if !HasDictProperties(x) then Err(AttributeError)
      else if IsIW(x) then Ok([x]) else Ok([])
    ensures "properties" !in x ==> FilterIW([x]) == Ok([])
  {
    assert [x][1..] == [];
    assert FilterIW([]) == Ok([]);
    assert [x] + [] == [x];
  }

  // ---------------------------------------------------------------------

  /** What `search_images(params)` returns or raises, for the item source `getItems`. */
  function SearchResult(params: map<string, Value>, getItems: map<string, Value> -> seq<Item>): Result<seq<Item>> {
    match SearchKwargs(params)
    case Err(e) => Err(e)
    case Ok(kwargs) =>
      var results := getItems(kwargs);
      if Collection(params) == Str(Sentinel1) then FilterIW(results) else Ok(results)
  }

  /** The searcher; `getItems` stands for `SearchSTAC.get_items` on the configured catalog. */
  class Searcher {
    const getItems: map<string, Value> -> seq<Item>

    constructor (getItems: map<string, Value> -> seq<Item>)
      ensures this.getItems == getItems
    {
      this.getItems := getItems;
    }

    /** `search_images`: build the keyword arguments, query the catalog, filter Sentinel-1 results. */
    method SearchImages(params: map<string, Value>) returns (r: Result<seq<Item>>)
      ensures r == SearchResult(params, getItems)
    {
      var featureGeojson := Get(params, "feature_geojson", Dict(map[]));
      if !featureGeojson.Dict? {
        return Err(AttributeError);
      }
      var geometry := Get(featureGeojson.entries, "geometry", Null);
      var query := new PyDict(map[]);
      var collection := Get(params, "collection", Null);
      if collection != Str(Sentinel1) {
        query.Update(map["eo:cloud_cover" := Dict(map["lte" := Get(params, "max_cloud_cover", Null)])]);
      }
      var platforms := Get(params, "platforms", Null);
      if Truthy(platforms) {
        query.Update(map["platform" := Dict(map["in" := platforms])]);
      }
      var kwargs := map[
        "datetime" := Get(params, "date_string", Null),
        "max_items" := Get(params, "max_items", Null),
        "collections" := List([collection]),
        "intersects" := geometry,
        "query" := Dict(query.entries)];
      assert query.entries == Query(params);
      assert kwargs == SearchKwargs(params).value;
      var results := getItems(kwargs);
      if collection == Str(Sentinel1) {
        r := FilterIW(results);
      } else {
        r := Ok(results);
      }
    }
  }

  // ---------------------------------------------------------------------
  // Properties of the search

  /** Sentinel-1 without platforms sends an empty query. */
  lemma Sentinel1WithoutPlatformsHasEmptyQuery(params: map<string, Value>)
    requires Collection(params) == Str(Sentinel1) && !Truthy(Platforms(params))
    requires FeatureGeojson(params).Dict?
    ensures SearchKwargs(params).value["query"] == Dict(map[])
  {
    var q := Query(params);
    assert q.Keys == {};
  }

  /** Without `feature_geojson` the search is not restricted to a geometry. */
  lemma NoFeatureMeansNoGeometry(params: map<string, Value>)
    requires "feature_geojson" !in params
    ensures SearchKwargs(params).Ok?
    ensures SearchKwargs(params).value["intersects"] == Null
  {
  }

  /** Every collection but Sentinel-1 gets the catalog's items back unchanged. */
  lemma OtherCollectionsUnfiltered(params: map<string, Value>, getItems: map<string, Value> -> seq<Item>)
    requires Collection(params) != Str(Sentinel1) && FeatureGeojson(params).Dict?
    ensures SearchResult(params, getItems) == Ok(getItems(SearchKwargs(params).value))
  {
  }

  /** Sentinel-1 results are exactly the IW items of the catalog's answer, in its order. */
  lemma Sentinel1KeepsOnlyIW(params: map<string, Value>, getItems: map<string, Value> -> seq<Item>)
    requires Collection(params) == Str(Sentinel1) && FeatureGeojson(params).Dict?
    ensures SearchResult(params, getItems) == FilterIW(getItems(SearchKwargs(params).value))
  {
  }
}
