/**
 * `ReadSTAC`: the georeferencing and packaging around a rendered mosaic.
 * The mosaic itself (reading the items, compositing, colour correction,
 * encoding and reprojecting the bounds) is done by raster libraries and
 * enters the model as the `mosaicReader` and `render` parameters.
 */
module ReadStac {
  import opened PyRuntime

  /** The accepted image formats and the world-file extension of each. */
  const Formats: map<string, string> := map["PNG" := "PGW", "JPEG" := "JGW"]

  /** `__parse_image_format` */
  function ParseImageFormat(imageFormat: string): (r: string)
    ensures r == imageFormat
  {
    if imageFormat == "JPEG" then "JPEG" else imageFormat
  }

  // ---------------------------------------------------------------------
  // Bounds and the world file

  /** `[[south, west], [north, east]]`, the shape every consumer of the bounds indexes into. */
  predicate IsBounds(b: seq<seq<real>>) {
    |b| == 2 && |b[0]| == 2 && |b[1]| == 2
  }

  /** `__get_image_bounds` after reprojection: (left, bottom, right, top) reordered. */
  function ImageBounds(left: real, bottom: real, right: real, top: real): (b: seq<seq<real>>)
    ensures IsBounds(b)
  {
    [[bottom, left], [top, right]]
  }

  /** Reading (left, bottom, right, top) back out of the bounds. */
  function Edges(b: seq<seq<real>>): (real, real, real, real)
    requires IsBounds(b)
  {
    (b[0][1], b[0][0], b[1][1], b[1][0])
  }

  /** The reorder loses nothing: it and `Edges` are inverse to each other. */
  lemma BoundsRoundTrip(left: real, bottom: real, right: real, top: real, b: seq<seq<real>>)
    requires IsBounds(b)
    ensures Edges(ImageBounds(left, bottom, right, top)) == (left, bottom, right, top)
    ensures ImageBounds(Edges(b).0, Edges(b).1, Edges(b).2, Edges(b).3) == b
  {
    assert b == [b[0], b[1]];
    assert b[0] == [b[0][0], b[0][1]] && b[1] == [b[1][0], b[1][1]];
  }

  function Abs(x: real): (r: real)
    ensures r >= 0.0 && (r == x || r == -x)
  {
    if x < 0.0 then -x else x
  }

  /**
   * `__get_world_file_content` as its six numbers: pixel width, two zero
   * rotation terms, pixel height (negative), and the west and north edges.
   * An image with no columns or no rows divides by zero.
   */
  function WorldFile(b: seq<seq<real>>, width: int, height: int): (r: Result<seq<real>>)
    requires IsBounds(b)
    ensures r.Err? <==> width == 0 || height == 0
    ensures r.Err? ==> r.error == ZeroDivisionError
    ensures r.Ok? ==> |r.value| == 6 && r.value[1] == 0.0 && r.value[2] == 0.0
    ensures r.Ok? && width > 0 ==> r.value[0] >= 0.0
    ensures r.Ok? && height > 0 ==> r.value[3] <= 0.0
    ensures r.Ok? ==> r.value[4] == b[0][1] && r.value[5] == b[1][0]
    ensures r.Ok? ==> r.value[0] == Abs(b[0][1] - b[1][1]) / width as real
    ensures r.Ok? ==> r.value[3] == -Abs(b[0][0] - b[1][0]) / height as real
  {
    if width == 0 || height == 0 then Err(ZeroDivisionError)
    else Ok([Abs(b[0][1] - b[1][1]) / width as real, 0.0, 0.0,
             -Abs(b[0][0] - b[1][0]) / height as real, b[0][1], b[1][0]])
  }

  /**
   * The world file places the image: pixel (0, 0) lands on the north-west
   * corner and pixel (width, height) on the south-east corner.
   */
  lemma WorldFileCorners(left: real, bottom: real, right: real, top: real, width: int, height: int)
    requires left <= right && bottom <= top && width > 0 && height > 0
    ensures var t := WorldFile(ImageBounds(left, bottom, right, top), width, height).value;
      && t[4] == left && t[5] == top
      && t[4] + t[0] * width as real + t[2] * height as real == right
      && t[5] + t[1] * width as real + t[3] * height as real == bottom
  {
    var t := WorldFile(ImageBounds(left, bottom, right, top), width, height).value;
    assert t[0] == (right - left) / width as real;
    assert t[3] == -(top - bottom) / height as real;
    assert t[0] * width as real == right - left;
    assert t[3] * height as real == bottom - top;
  }

  /** A one-degree square rendered at 100 by 100 pixels has pixels of 0.01 degrees. */
  lemma WorldFileExample()
    ensures WorldFile([[0.0, 0.0], [1.0, 1.0]], 100, 100) == Ok([0.01, 0.0, 0.0, -0.01, 0.0, 1.0])
  {
  }

  // ---------------------------------------------------------------------
  // The zip archive

  /** What an archive entry holds; the world file is kept as its six numbers. */
  datatype Content = Bytes(data: seq<bv8>) | WorldFileText(terms: seq<real>) | Json(value: Value)

  /** The `ZipFile` being written into the in-memory buffer. */
  class ZipBuffer {
    var entries: seq<(string, Content)>

    constructor ()
      ensures entries == []
    {
      entries := [];
    }

    /** `zip_file.writestr(name, data)` */
    method WriteStr(name: string, data: Content)
      modifies this
      ensures entries == old(entries) + [(name, data)]
    {
      entries := entries + [(name, data)];
    }
  }

  /** The metadata document: the assets used, as a GeoJSON FeatureCollection. */
  function ImageMetadata(assetsUsed: seq<Item>): Value {
    Dict(map["type" := Str("FeatureCollection"), "features" := ItemsValue(assetsUsed)])
  }

  /** The archive `__create_zip_geoimage` writes, or its KeyError for a format without world-file extension. */
  function ZipEntries(image: seq<bv8>, worldFile: seq<real>, imageFormat: string, geometry: Value, assetsUsed: seq<Item>)
    : (r: Result<seq<(string, Content)>>)
    ensures r.Err? <==> imageFormat !in Formats
    ensures r.Ok? ==> |r.value| == 4
  {
    if imageFormat !in Formats then Err(KeyError(imageFormat))
    else Ok([("image." + Lower(imageFormat), Bytes(image)),
             ("image." + Lower(Formats[imageFormat]), WorldFileText(worldFile)),
             ("polygon.geojson", Json(geometry)),
             ("image_metadata.geojson", Json(ImageMetadata(assetsUsed)))])
  }

  /** `__create_zip_geoimage`: four entries written one after the other. */
  method CreateZipGeoImage(image: seq<bv8>, worldFile: seq<real>, imageFormat: string, geometry: Value, assetsUsed: seq<Item>)
    returns (r: Result<seq<(string, Content)>>)
    ensures r == ZipEntries(image, worldFile, imageFormat, geometry, assetsUsed)
  {
    var extension := Lower(imageFormat);
    if imageFormat !in Formats {
      return Err(KeyError(imageFormat));
    }
    var extensionWorldFile := Lower(Formats[imageFormat]);
    var zipBuffer := new ZipBuffer();
    var imageMetadata := Dict(map["type" := Str("FeatureCollection"), "features" := ItemsValue(assetsUsed)]);
    zipBuffer.WriteStr("image." + extension, Bytes(image));
    zipBuffer.WriteStr("image." + extensionWorldFile, WorldFileText(worldFile));
    zipBuffer.WriteStr("polygon.geojson", Json(geometry));
    zipBuffer.WriteStr("image_metadata.geojson", Json(imageMetadata));
    assert zipBuffer.entries == ZipEntries(image, worldFile, imageFormat, geometry, assetsUsed).value;
    r := Ok(zipBuffer.entries);
  }

  function EntryNames(entries: seq<(string, Content)>): (names: seq<string>)
    ensures |names| == |entries|
  {
    seq(|entries|, i requires 0 <= i < |entries| => entries[i].0)
  }

  lemma FourNames(e: seq<(string, Content)>)
    requires |e| == 4
    ensures EntryNames(e) == [e[0].0, e[1].0, e[2].0, e[3].0]
  {
  }

  /**
   * The archive's entry names for each accepted format; the four names are
   * distinct, so no entry hides another.
   */
  lemma ZipEntryNames(image: seq<bv8>, worldFile: seq<real>, geometry: Value, assetsUsed: seq<Item>)
    ensures EntryNames(ZipEntries(image, worldFile, "PNG", geometry, assetsUsed).value)
      == ["image.png", "image.pgw", "polygon.geojson", "image_metadata.geojson"]
    ensures EntryNames(ZipEntries(image, worldFile, "JPEG", geometry, assetsUsed).value)
      == ["image.jpeg", "image.jgw", "polygon.geojson", "image_metadata.geojson"]
    ensures forall f, i, j :: f in Formats && 0 <= i < j < 4 ==>
      EntryNames(ZipEntries(image, worldFile, f, geometry, assetsUsed).value)[i] !=
      EntryNames(ZipEntries(image, worldFile, f, geometry, assetsUsed).value)[j]
  {
    var png := ZipEntries(image, worldFile, "PNG", geometry, assetsUsed).value;
    var jpeg := ZipEntries(image, worldFile, "JPEG", geometry, assetsUsed).value;
    FourNames(png);
    FourNames(jpeg);
    assert Lower("PNG") == "png" by { assert forall i | 0 <= i < 3 :: Lower("PNG")[i] == "png"[i]; }
    assert Lower("PGW") == "pgw" by { assert forall i | 0 <= i < 3 :: Lower("PGW")[i] == "pgw"[i]; }
    assert Lower("JPEG") == "jpeg" by { assert forall i | 0 <= i < 4 :: Lower("JPEG")[i] == "jpeg"[i]; }
    assert Lower("JGW") == "jgw" by { assert forall i | 0 <= i < 3 :: Lower("JGW")[i] == "jgw"[i]; }
    assert png[0].0 == "image.png" && png[1].0 == "image.pgw";
    assert jpeg[0].0 == "image.jpeg" && jpeg[1].0 == "image.jgw";
    forall f, i, j | f in Formats && 0 <= i < j < 4
      ensures EntryNames(ZipEntries(image, worldFile, f, geometry, assetsUsed).value)[i] !=
              EntryNames(ZipEntries(image, worldFile, f, geometry, assetsUsed).value)[j]
    {
      var names := EntryNames(ZipEntries(image, worldFile, f, geometry, assetsUsed).value);
      assert f == "PNG" || f == "JPEG";
      assert names[0][7] != names[1][7];
      assert names[0][0] != names[2][0] && names[0][5] != names[3][5];
      assert names[1][0] != names[2][0] && names[1][5] != names[3][5];
      assert names[2][0] != names[3][0];
    }
  }

  /** The image bytes, the world file and the geometry go into the first three entries, in that order. */
  lemma ZipEntryContents(image: seq<bv8>, worldFile: seq<real>, imageFormat: string, geometry: Value, assetsUsed: seq<Item>)
    requires imageFormat in Formats
    ensures var e := ZipEntries(image, worldFile, imageFormat, geometry, assetsUsed).value;
      e[0].1 == Bytes(image) && e[1].1 == WorldFileText(worldFile) && e[2].1 == Json(geometry)
  {
  }

  /** The metadata entry is a FeatureCollection holding exactly the assets used. */
  lemma MetadataIsFeatureCollection(image: seq<bv8>, worldFile: seq<real>, imageFormat: string, geometry: Value, assetsUsed: seq<Item>)
    requires imageFormat in Formats
    ensures var e := ZipEntries(image, worldFile, imageFormat, geometry, assetsUsed).value;
      e[3].1.Json? && e[3].1.value.Dict? && e[3].1.value.entries["type"] == Str("FeatureCollection")
      && e[3].1.value.entries["features"] == ItemsValue(assetsUsed)
  {
  }

  // ---------------------------------------------------------------------
  // The scene name

  predicate AllHaveIds(assets: seq<Item>) {
    forall x: Item :: x in assets ==> "id" in x
  }

  predicate AllStringIds(assets: seq<Item>) {
    forall x: Item :: x in assets ==> "id" in x && x["id"].Str?
  }

  /** `[item["id"] for item in assets_used]` when every id is a string. */
  function IdStrings(assets: seq<Item>): (ids: seq<string>)
    requires AllStringIds(assets)
    ensures |ids| == |assets|
    decreases |assets|
  {
    if |assets| == 0 then []
    else
      assert assets[0] in assets;
      assert forall x :: x in assets[1..] ==> x in assets;
      [assets[0]["id"].s] + IdStrings(assets[1..])
  }

  /** The i-th id is the id of the i-th asset. */
  lemma {:induction false} IdStringsAt(assets: seq<Item>, i: int)
    requires AllStringIds(assets) && 0 <= i < |assets|
    ensures assets[i] in assets && IdStrings(assets)[i] == assets[i]["id"].s
    decreases i
  {
    if i > 0 {
      assert forall x :: x in assets[1..] ==> x in assets;
      IdStringsAt(assets[1..], i - 1);
    }
  }

  /**
   * `", ".join(sorted([item["id"] for item in assets_used]))`: KeyError for
   * an asset without id, TypeError when some id is not a string (sorting
   * or joining refuses it).
   */
  function SceneName(assets: seq<Item>): (r: Result<string>)
    ensures r.Ok? <==> AllStringIds(assets)
    ensures !AllHaveIds(assets) ==> r == Err(KeyError("id"))
    ensures AllHaveIds(assets) && !AllStringIds(assets) ==> r == Err(TypeError)
    ensures r.Ok? ==> exists ids :: Sorted(ids) && multiset(ids) == multiset(IdStrings(assets)) && r.value == Join(ids, ", ")
  {
    if !AllHaveIds(assets) then Err(KeyError("id"))
    else if !AllStringIds(assets) then Err(TypeError)
    else Ok(Join(Sort(IdStrings(assets)), ", "))
  }

  lemma {:induction false} IdStringsConcat(a: seq<Item>, b: seq<Item>)
    requires AllStringIds(a) && AllStringIds(b)
    ensures AllStringIds(a + b)
    ensures IdStrings(a + b) == IdStrings(a) + IdStrings(b)
    decreases |a|
  {
    if |a| == 0 {
      assert a + b == b;
    } else {
      assert forall x :: x in a[1..] ==> x in a;
      assert (a + b)[1..] == a[1..] + b;
      IdStringsConcat(a[1..], b);
    }
  }

  /** Whether every id is a string depends only on which assets there are. */
  lemma StringIdsOfPermutation(a: seq<Item>, b: seq<Item>)
    requires AllStringIds(a) && multiset(a) == multiset(b)
    ensures AllStringIds(b)
  {
    assert forall x :: x in b ==> x in multiset(a);
  }

  /** The pieces of `b` around its k-th asset keep string ids. */
  lemma StringIdsAround(b: seq<Item>, k: int)
    requires AllStringIds(b) && 0 <= k < |b|
    ensures AllStringIds(b[..k]) && AllStringIds(b[k + 1..]) && AllStringIds([b[k]])
    ensures "id" in b[k] && b[k]["id"].Str?
  {
    assert b[k] in b;
    assert forall x :: x in b[..k] ==> x in b;
    assert forall x :: x in b[k + 1..] ==> x in b;
  }

  /** One element in the middle of a sequence adds one copy of it to the multiset. */
  lemma MultisetMiddle<T>(x: seq<T>, m: T, y: seq<T>)
    ensures multiset(x + [m] + y) == multiset(x + y) + multiset{m}
  {
  }

  /** The ids of `b` around its k-th asset. */
  lemma IdStringsAround(b: seq<Item>, k: int)
    requires AllStringIds(b) && 0 <= k < |b|
    ensures AllStringIds(b[..k] + b[k + 1..]) && "id" in b[k] && b[k]["id"].Str?
    ensures multiset(IdStrings(b)) == multiset(IdStrings(b[..k] + b[k + 1..])) + multiset{b[k]["id"].s}
  {
    var front, back := b[..k], b[k + 1..];
    StringIdsAround(b, k);
    assert front + [b[k]] == b[..k + 1];
    assert b[..k + 1] + back == b;
    IdStringsConcat(front, back);
    IdStringsConcat(front, [b[k]]);
    IdStringsConcat(front + [b[k]], back);
    assert IdStrings([b[k]]) == [b[k]["id"].s];
    MultisetMiddle(IdStrings(front), b[k]["id"].s, IdStrings(back));
  }

  /** Taking out the k-th element takes one copy of it out of the multiset. */
  lemma MultisetRemove<T>(b: seq<T>, k: int)
    requires 0 <= k < |b|
    ensures multiset(b[..k] + b[k + 1..]) == multiset(b) - multiset{b[k]}
  {
    assert b[..k] + [b[k]] == b[..k + 1];
    assert b[..k + 1] + b[k + 1..] == b;
  }

  /** Matching the first asset of `a` with the k-th of `b` leaves two rearrangements of each other. */
  lemma PermutationStep<T>(a: seq<T>, b: seq<T>, k: int)
    requires |a| > 0 && 0 <= k < |b| && b[k] == a[0] && multiset(a) == multiset(b)
    ensures multiset(a[1..]) == multiset(b[..k] + b[k + 1..])
  {
    MultisetRemove(b, k);
    MultisetRemove(a, 0);
    assert a[..0] + a[1..] == a[1..];
  }

  /** Putting the matched asset back on both sides. */
  lemma PermutationCombine(a: seq<Item>, b: seq<Item>, k: int)
    requires AllStringIds(a) && AllStringIds(b) && |a| > 0 && 0 <= k < |b| && b[k] == a[0]
    requires AllStringIds(a[1..]) && AllStringIds(b[..k] + b[k + 1..])
    requires multiset(IdStrings(a[1..])) == multiset(IdStrings(b[..k] + b[k + 1..]))
    ensures multiset(IdStrings(a)) == multiset(IdStrings(b))
  {
    IdStringsAround(b, k);
    assert IdStrings(a) == [a[0]["id"].s] + IdStrings(a[1..]);
  }

  /** Rearranging the assets rearranges their ids. */
  lemma {:induction false} IdStringsPermutation(a: seq<Item>, b: seq<Item>)
    requires AllStringIds(a) && multiset(a) == multiset(b)
    ensures AllStringIds(b)
    ensures multiset(IdStrings(a)) == multiset(IdStrings(b))
    decreases |a|
  {
    StringIdsOfPermutation(a, b);
    if |a| > 0 {
      assert a[0] in multiset(b);
      var k :| 0 <= k < |b| && b[k] == a[0];
      PermutationStep(a, b, k);
      assert AllStringIds(a[1..]) by { assert forall x :: x in a[1..] ==> x in a; }
      IdStringsPermutation(a[1..], b[..k] + b[k + 1..]);
      PermutationCombine(a, b, k);
    }
  }

  /** The scene name does not depend on the order of the assets. */
  lemma SceneNameOrderIndependent(a: seq<Item>, b: seq<Item>)
    requires multiset(a) == multiset(b)
    ensures SceneName(a) == SceneName(b)
  {
    assert forall x :: x in a <==> x in multiset(a);
    assert forall x :: x in b <==> x in multiset(b);
    if AllStringIds(a) {
      IdStringsPermutation(a, b);
      SortPermutationInvariant(IdStrings(a), IdStrings(b));
    }
  }

  // ---------------------------------------------------------------------
  // render_mosaic_from_stac

  /** What the raster libraries hand back: the mosaic's size, its bounds in EPSG:4326 and the assets used. */
  datatype Mosaic = Mosaic(width: nat, height: nat, left: real, bottom: real, right: real, top: real, assetsUsed: seq<Item>)

  /** The values of the result dict. */
  datatype Field =
    | ImageField(bytes: seq<bv8>)
    | BoundsField(bounds: seq<seq<real>>)
    | ZipField(entries: seq<(string, Content)>)
    | ProjectionField(terms: seq<real>)
    | AssetsField(assets: seq<Item>)
    | NameField(name: string)

  /** The result dict once every piece is computed: the archive fields, or the separate ones. */
  function Packaged(image: seq<bv8>, bounds: seq<seq<real>>, worldFile: seq<real>, name: string, zipFile: Value,
                    imageFormat: string, geometry: Value, assetsUsed: seq<Item>): (d: map<string, Field>)
    requires imageFormat in Formats
    ensures "image" in d && "bounds" in d && "name" in d
    ensures d["image"] == ImageField(image) && d["bounds"] == BoundsField(bounds) && d["name"] == NameField(name)
    ensures Truthy(zipFile) ==> (d.Keys == {"image", "bounds", "zip_file", "name"}
      && d["zip_file"] == ZipField(ZipEntries(image, worldFile, imageFormat, geometry, assetsUsed).value))
    ensures !Truthy(zipFile) ==> (d.Keys == {"image", "projection_file", "bounds", "assets_used", "name"}
      && d["projection_file"] == ProjectionField(worldFile) && d["assets_used"] == AssetsField(assetsUsed))
  {
    if Truthy(zipFile) then
      map["image" := ImageField(image), "bounds" := BoundsField(bounds),
          "zip_file" := ZipField(ZipEntries(image, worldFile, imageFormat, geometry, assetsUsed).value),
          "name" := NameField(name)]
    else
      map["image" := ImageField(image), "projection_file" := ProjectionField(worldFile),
          "bounds" := BoundsField(bounds), "assets_used" := AssetsField(assetsUsed),
          "name" := NameField(name)]
  }

  /** What `render_mosaic_from_stac` returns or raises. */
  function RenderResult(stacList: seq<Item>, geometry: Value, imageFormat: string, zipFile: Value,
                        mosaicReader: (seq<Item>, Value) -> Mosaic, render: (Mosaic, string) -> seq<bv8>)
    : (r: Result<map<string, Field>>)
    ensures imageFormat !in Formats ==> r == Err(ValueError("Format not accepted"))
    ensures r.Ok? && Truthy(zipFile) ==> r.value.Keys == {"image", "bounds", "zip_file", "name"}
    ensures r.Ok? && !Truthy(zipFile) ==> r.value.Keys == {"image", "projection_file", "bounds", "assets_used", "name"}
    ensures r.Ok? ==> var m := mosaicReader(stacList, geometry);
      && imageFormat in Formats
      && SceneName(m.assetsUsed).Ok?
      && WorldFile(ImageBounds(m.left, m.bottom, m.right, m.top), m.width, m.height).Ok?
      && r.value == Packaged(render(m, imageFormat), ImageBounds(m.left, m.bottom, m.right, m.top),
                             WorldFile(ImageBounds(m.left, m.bottom, m.right, m.top), m.width, m.height).value,
                             SceneName(m.assetsUsed).value, zipFile, imageFormat, geometry, m.assetsUsed)
    ensures imageFormat in Formats && r.Err? ==> var m := mosaicReader(stacList, geometry);
      var wf := WorldFile(ImageBounds(m.left, m.bottom, m.right, m.top), m.width, m.height);
      || (wf.Err? && r.error == wf.error)
      || (wf.Ok? && SceneName(m.assetsUsed).Err? && r.error == SceneName(m.assetsUsed).error)
  {
    if imageFormat !in Formats then Err(ValueError("Format not accepted"))
    else
      var m := mosaicReader(stacList, geometry);
      var image := render(m, ParseImageFormat(imageFormat));
      var bounds := ImageBounds(m.left, m.bottom, m.right, m.top);
      match WorldFile(bounds, m.width, m.height)
      case Err(e) => Err(e)
      case Ok(worldFile) =>
        match SceneName(m.assetsUsed)
        case Err(e) => Err(e)
        case Ok(name) => Ok(Packaged(image, bounds, worldFile, name, zipFile, imageFormat, geometry, m.assetsUsed))
  }

  /** The reader, with the STAC items and the geometry it was constructed with. */
  class StacReader {
    const stacList: seq<Item>
    const geojsonGeometry: Value

    constructor (stacList: seq<Item>, geojsonGeometry: Value)
      ensures this.stacList == stacList && this.geojsonGeometry == geojsonGeometry
    {
      this.stacList := stacList;
      this.geojsonGeometry := geojsonGeometry;
    }

    /**
     * `render_mosaic_from_stac`: refuse unknown formats before reading
     * anything, then render, georeference, and package either as a zip
     * archive or as separate fields.
     */
    method RenderMosaicFromStac(imageFormat: string, zipFile: Value,
                                mosaicReader: (seq<Item>, Value) -> Mosaic, render: (Mosaic, string) -> seq<bv8>)
      returns (r: Result<map<string, Field>>)
      ensures r == RenderResult(stacList, geojsonGeometry, imageFormat, zipFile, mosaicReader, render)
    {
      if imageFormat !in Formats {
        return Err(ValueError("Format not accepted"));
      }
      var imageData := mosaicReader(stacList, geojsonGeometry);
      var image := render(imageData, ParseImageFormat(imageFormat));
      var imageBounds := ImageBounds(imageData.left, imageData.bottom, imageData.right, imageData.top);
      var worldFile := WorldFile(imageBounds, imageData.width, imageData.height);
      if worldFile.Err? {
        return Err(worldFile.error);
      }
      if Truthy(zipFile) {
        var archive := CreateZipGeoImage(image, worldFile.value, imageFormat, geojsonGeometry, imageData.assetsUsed);
        var name := SceneName(imageData.assetsUsed);
        if name.Err? {
          return Err(name.error);
        }
        return Ok(map["image" := ImageField(image), "bounds" := BoundsField(imageBounds),
                      "zip_file" := ZipField(archive.value), "name" := NameField(name.value)]);
      }
      var name := SceneName(imageData.assetsUsed);
      if name.Err? {
        return Err(name.error);
      }
      r := Ok(map["image" := ImageField(image), "projection_file" := ProjectionField(worldFile.value),
                  "bounds" := BoundsField(imageBounds), "assets_used" := AssetsField(imageData.assetsUsed),
                  "name" := NameField(name.value)]);
    }
  }

  /** The call succeeds exactly for an accepted format, a non-empty image and string asset ids. */
  lemma RenderSucceeds(stacList: seq<Item>, geometry: Value, imageFormat: string, zipFile: Value,
                       mosaicReader: (seq<Item>, Value) -> Mosaic, render: (Mosaic, string) -> seq<bv8>)
    ensures var m := mosaicReader(stacList, geometry);
      RenderResult(stacList, geometry, imageFormat, zipFile, mosaicReader, render).Ok? <==>
        imageFormat in Formats && m.width > 0 && m.height > 0 && AllStringIds(m.assetsUsed)
  {
  }

  /** The defaults of `render_mosaic_from_stac`: a PNG image and no archive. */
  const DefaultImageFormat := "PNG"
  const DefaultZipFile := Bool(false)

  /** Called with its defaults, the format is accepted and a success carries the separate fields. */
  lemma DefaultCall(stacList: seq<Item>, geometry: Value,
                    mosaicReader: (seq<Item>, Value) -> Mosaic, render: (Mosaic, string) -> seq<bv8>)
    ensures DefaultImageFormat in Formats
    ensures var r := RenderResult(stacList, geometry, DefaultImageFormat, DefaultZipFile, mosaicReader, render);
      r.Ok? ==> r.value.Keys == {"image", "projection_file", "bounds", "assets_used", "name"}
  {
  }
}
