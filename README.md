# Satellite image viewer: a verified model of its orchestration logic

The satellite image viewer is a Streamlit application. It searches a STAC
catalog for satellite scenes over a place and a date range, renders them
through raster libraries into a georeferenced image or a zip archive, and
can animate a long date range as a GIF with one frame per time window.
This project models, in Dafny, the parts of that application that have
behaviour of their own:

- **Animation builder** (`src/controller/animation_creator.py`).
  - A "start/end" range is split into consecutive windows of at most
    `period_time_break` days.
  - Windows whose catalog search finds nothing are skipped.
  - Every other window becomes a frame labelled with the window's end date.
  - When no window had images, a `ValueError("No image found")` is raised.
  - Dates are `datetime` day numbers (1 = 0001-01-01). `strftime` and
    `strptime` with `%Y-%m-%d` are modelled character by character.
- **Catalog searcher** (`src/controller/catalog_searcher.py`).
  - The query's cloud-cover and platform clauses.
  - The keyword arguments sent to the STAC client.
  - The Sentinel-1 filter on instrument mode "IW".
- **Environment context manager**
  (`src/controller/environment_variable_manager.py`). Snapshot the named
  variables, overwrite them, and write the snapshot back on exit. The
  environment is a class holding a `map<string, string>` that is updated in
  place.
- **STAC reader packaging** (`src/model/read_stac.py`).
  - The format guard.
  - The bounds reorder.
  - The six world-file terms, as `real`s.
  - The zip entry names and contents.
  - The sorted, comma-joined scene name.
  - The key set of the result dict with and without a zip file.
- **Front-end helpers** (`src/main.py`).
  - The date-range string.
  - Geocoding with bounded retries. The geocoder is a parameter.
  - The "Location not found." fallback.
  - The download file name.

Calls into code that is not modelled are parameters of the operations that
make them:
- the STAC client's `get_items`;
- the renderer;
- `mosaic_reader` together with the reprojected bounds;
- the encoder;
- the geocoder.

Python's runtime pieces are modelled in `pyruntime.dfy`:
- exceptions as a `Result`;
- dict values;
- truthiness;
- `split`, `join` and `lower`;
- `sorted` on strings.

The calendar is modelled in `calendar.dfy` and `datetext.dfy`.

Two facts about the archive that `read_stac.py` writes:
- The metadata entry of the zip archive holds the assets used themselves,
  not only their identifiers.
- No contour data is written to the archive.

## Model

| member | source | states |
|---|---|---|
| PyRuntime.Split | src/controller/animation_creator.py:23 | `str.split` gives at least one field and no field contains the separator |
| PyRuntime.SplitJoin | src/controller/animation_creator.py:23 | splitting what was joined with the separator gives the fields back |
| PyRuntime.SplitAtFirst | src/controller/animation_creator.py:23 | the first field is everything before the first separator |
| PyRuntime.Sort | src/model/read_stac.py:103 | `sorted` returns an ordered permutation of its input |
| PyRuntime.SortPermutationInvariant | src/model/read_stac.py:103 | `sorted` depends only on the multiset of its input |
| Calendar.FromOrdinalCorrect | src/controller/animation_creator.py:36 | every day number a `datetime` can hold is a real calendar date and maps back to itself |
| Calendar.ToOrdinalInRange | src/controller/animation_creator.py:24-25 | every calendar date `strptime` can produce has a day number in `datetime`'s range |
| DateText.FormatDate | src/controller/animation_creator.py:18-19 | `%Y-%m-%d` output is ten characters, digits apart from the two dashes |
| DateText.ParseDate | src/controller/animation_creator.py:24-25 | whatever `strptime` accepts is a valid calendar date |
| DateText.ParseFormatDate | src/controller/animation_creator.py:18-25 | `strptime` of `strftime` output gives back the same date |
| DateText.ParseFormatDay | src/controller/animation_creator.py:18-25 | the round trip holds for every `datetime` day |
| DateText.FormatDay | src/controller/animation_creator.py:18-19 | a formatted date never contains '/' |
| DateText.RangeString | src/controller/animation_creator.py:39 | splitting "start/end" on '/' gives exactly the two formatted dates |
| AnimationCreator.ParseDateString | src/controller/animation_creator.py:21-26 | the parse succeeds iff the split has two fields and `strptime` accepts both, giving those two days; a bad first field is a ValueError, a single good field an IndexError |
| AnimationCreator.ParseRangeString | src/controller/animation_creator.py:22-26 | parsing a window string gives back its two days |
| AnimationCreator.RangeStringEnd | src/controller/animation_creator.py:102 | the last '/' field of a window string is its end date |
| AnimationCreator.Windows | src/controller/animation_creator.py:34-40 | no windows exactly when start >= end; each window lies inside [start, end] and ends at min(start + each, end) |
| AnimationCreator.WindowsContiguous | src/controller/animation_creator.py:34-40 | the first window starts at start, the last ends at end, each starts where the previous ended |
| AnimationCreator.WindowsIncreasing | src/controller/animation_creator.py:35-40 | windows come in increasing order and do not overlap |
| AnimationCreator.WindowsCount | src/controller/animation_creator.py:35-40 | there are ceil((end - start) / each) windows |
| AnimationCreator.PeriodDays | src/controller/animation_creator.py:33 | `timedelta(days=n)` accepts at most 999999999 days either way; an int in range is taken as is, a bool as 1 or 0, a whole float as its integer; an int out of range is an OverflowError; a string, None, list or dict is a TypeError |
| AnimationCreator.WholeFloatPeriod | src/controller/animation_creator.py:33 | a whole float gives the same period as the equal integer |
| AnimationCreator.DefaultPeriod | src/controller/animation_creator.py:87 | the default window length is 90 days |
| AnimationCreator.SubdivideTimeRange | src/controller/animation_creator.py:28-41 | returns the parse or `timedelta` error, `[]` for an empty range whatever the period, OverflowError for a negative period, otherwise the window strings or the OverflowError past year 9999; only a 0-day period on a non-empty range, where the loop never ends, is excluded |
| AnimationCreator.CutWindows | src/controller/animation_creator.py:34-41 | the while loop equals WindowRanges: `[]` when start >= end for any period, OverflowError when a negative period walks past 0001-01-01, otherwise one "start/end" string per window, in order, or OverflowError when `start + interval` passes the last date |
| AnimationCreator.SubdivisionEdgeCases | src/controller/animation_creator.py:33-35 | a parsed empty or reversed range gives `[]` for every valid period, and a negative period on a non-empty range raises OverflowError |
| AnimationCreator.CutOverflow | src/controller/animation_creator.py:36 | a window whose `start + interval` is past 9999-12-31 makes the whole subdivision overflow |
| AnimationCreator.SubdivisionWindows | src/controller/animation_creator.py:33-41 | a subdivision with at least one window had a parsed range and a positive period, and its strings are exactly those of the windows |
| AnimationCreator.ZeroPeriodNeverEnds | src/controller/animation_creator.py:35-40 | with a 0-day period `date_range_start` never moves, so the loop condition holds after any number of turns |
| AnimationCreator.GuardedSubdivision | src/controller/animation_creator.py:28-41 | with the period checked first, a result always exists; a success had a positive period and a non-positive one is a ValueError |
| AnimationCreator.GuardedAgrees | src/controller/animation_creator.py:28-41 | for every positive period the guarded subdivision equals the one as written |
| AnimationCreator.SubdivisionRoundTrip | src/controller/animation_creator.py:37-39 | every returned range string parses back to the days of its window |
| AnimationCreator.KeptIndices | src/controller/animation_creator.py:101-106 | exactly the windows whose search found items are kept, in increasing order |
| AnimationCreator.SearchUpdate | src/controller/animation_creator.py:103 | updating the search dict with a window's range gives that window's full search parameters |
| AnimationCreator.RenderUpdate | src/controller/animation_creator.py:107 | updating the render dict gives the window's items and the PNG format |
| AnimationCreator.FrameLoop | src/controller/animation_creator.py:101-115 | the frames are those of the kept windows, in window order; both dicts end in the state of the last search and the last render |
| AnimationCreator.Animate | src/controller/animation_creator.py:98-124 | the result is the GIF of the kept windows, or "No image found" when none |
| AnimationCreator.CreateGif | src/controller/animation_creator.py:84-124 | pops `feature_geojson`; gives the parse or subdivision error unchanged, and otherwise the GIF of the windows of `date_string` and the final state of both dicts; excluded only where the subdivision never ends |
| AnimationCreator.NoImageIffAllEmpty | src/controller/animation_creator.py:117-118 | "No image found" is raised exactly when every window's search is empty |
| AnimationCreator.IndicesBound | src/controller/animation_creator.py:101-106 | a strictly increasing list of window positions has no more entries than there are windows |
| AnimationCreator.FrameCountBound | src/controller/animation_creator.py:101-115 | there are never more frames than windows |
| AnimationCreator.FramesFollowWindows | src/controller/animation_creator.py:101-124 | frame j is the rendering of the j-th non-empty window with its end date as label; the bounds and projection come from the last rendered window |
| AnimationCreator.FrameLabelsAreIncreasingEndDates | src/controller/animation_creator.py:102-115 | frame labels are the windows' formatted end dates, and a later frame has a strictly later end date |
| CatalogSearcher.Query | src/controller/catalog_searcher.py:19-27 | the cloud clause is present iff the collection is not "sentinel-1-grd"; the platform clause iff `platforms` is truthy; no other clause |
| CatalogSearcher.SearchKwargs | src/controller/catalog_searcher.py:12-20 | the five keywords: `collections` is `[collection]`, `intersects` is the feature's geometry or None, AttributeError when `feature_geojson` is not a dict |
| CatalogSearcher.FilterIW | src/controller/catalog_searcher.py:32 | keeps only IW items and every IW item, from the input; AttributeError iff some `properties` is not a dict |
| CatalogSearcher.FilterIWConcat | src/controller/catalog_searcher.py:32 | the filter distributes over concatenation, so it preserves order |
| CatalogSearcher.FilterIWSingle | src/controller/catalog_searcher.py:32 | one item is kept iff its mode is "IW"; an item without `properties` is dropped |
| CatalogSearcher.Searcher.constructor | src/controller/catalog_searcher.py:4-9 | the searcher holds the catalog client it was built with |
| CatalogSearcher.Searcher.SearchImages | src/controller/catalog_searcher.py:11-33 | building the query in place gives SearchResult, whose clauses and filter are proved below |
| CatalogSearcher.Sentinel1WithoutPlatformsHasEmptyQuery | src/controller/catalog_searcher.py:19-27 | Sentinel-1 without platforms sends `query = {}` |
| CatalogSearcher.NoFeatureMeansNoGeometry | src/controller/catalog_searcher.py:12-18 | with no `feature_geojson`, `intersects` is None |
| CatalogSearcher.OtherCollectionsUnfiltered | src/controller/catalog_searcher.py:29-33 | every other collection gets the client's items back unchanged |
| CatalogSearcher.Sentinel1KeepsOnlyIW | src/controller/catalog_searcher.py:31-32 | Sentinel-1 results are the IW filter of the client's items |
| EnvironmentVariableManager.Environ.Update | src/controller/environment_variable_manager.py:9 | `os.environ.update` overrides the given keys |
| EnvironmentVariableManager.Snapshot | src/controller/environment_variable_manager.py:8 | `old_values` has exactly the named keys, each with its prior value or "" |
| EnvironmentVariableManager.EnvContextManager.constructor | src/controller/environment_variable_manager.py:4-5 | keeps the keyword arguments; nothing is remembered yet |
| EnvironmentVariableManager.EnvContextManager.Enter | src/controller/environment_variable_manager.py:7-9 | remembers the snapshot and sets the new values |
| EnvironmentVariableManager.EnvContextManager.Exit | src/controller/environment_variable_manager.py:11-12 | writes the snapshot back and never suppresses the exception; AttributeError if never entered |
| EnvironmentVariableManager.WithScope | src/controller/environment_variable_manager.py:7-12 | after a `with` block the snapshot is written over whatever the body left, and the body's exception comes out unchanged |
| EnvironmentVariableManager.EnterSetsNamedKeys | src/controller/environment_variable_manager.py:9 | inside the block every named key has its new value; other keys are unchanged |
| EnvironmentVariableManager.EnterExitRestores | src/controller/environment_variable_manager.py:8-12 | enter then exit restores the environment, except that named keys that were unset are now "" |
| EnvironmentVariableManager.EnterExitIdentity | src/controller/environment_variable_manager.py:8-12 | when all named keys were set, enter then exit is the identity |
| EnvironmentVariableManager.NestedRestore | src/controller/environment_variable_manager.py:7-12 | two managers nested on the same keys, as the download path and the renderer nest them: the inner exit restores the outer values, the outer exit the original |
| ReadStac.ParseImageFormat | src/model/read_stac.py:34-38 | the identity on the format |
| ReadStac.ImageBounds | src/model/read_stac.py:51 | the bounds are a 2x2 list |
| ReadStac.BoundsRoundTrip | src/model/read_stac.py:51 | (left, bottom, right, top) becomes [[bottom, left], [top, right]] and can be read back without loss |
| ReadStac.WorldFile | src/model/read_stac.py:53-61 | six terms: abs(W-E)/width, 0, 0, -abs(S-N)/height, W, N; ZeroDivisionError iff the image has no width or no height |
| ReadStac.WorldFileCorners | src/model/read_stac.py:53-61 | the affine map takes pixel (0,0) to the north-west corner and (width, height) to the south-east corner |
| ReadStac.WorldFileExample | src/model/read_stac.py:53-61 | a one-degree square at 100x100 pixels has 0.01-degree pixels |
| ReadStac.ZipBuffer.WriteStr | src/model/read_stac.py:69-72 | `writestr` appends one entry |
| ReadStac.ZipEntries | src/model/read_stac.py:63-74 | four entries; KeyError iff the format has no world-file extension |
| ReadStac.ZipEntryContents | src/model/read_stac.py:69-71 | the image bytes, the world file and the geometry are the contents of the first three entries, in that order |
| ReadStac.CreateZipGeoImage | src/model/read_stac.py:63-74 | writing the entries one at a time gives ZipEntries, lowercasing before the KeyError as the code does |
| ReadStac.ZipEntryNames | src/model/read_stac.py:64-72 | PNG gives image.png/image.pgw and JPEG gives image.jpeg/image.jgw, then polygon.geojson and image_metadata.geojson; the four names are distinct |
| ReadStac.MetadataIsFeatureCollection | src/model/read_stac.py:67 | the metadata entry is a FeatureCollection of the assets used |
| ReadStac.SceneName | src/model/read_stac.py:103 | KeyError for an asset without id, TypeError for a non-string id, otherwise the ids in sorted order joined with ", " |
| ReadStac.IdStringsAt | src/model/read_stac.py:103 | the i-th id listed is the `id` of the i-th asset |
| ReadStac.IdStringsPermutation | src/model/read_stac.py:103 | reordering the assets reorders their ids |
| ReadStac.SceneNameOrderIndependent | src/model/read_stac.py:111 | the name does not depend on the order of `assets_used` |
| ReadStac.Packaged | src/model/read_stac.py:91-112 | the zip result has keys {image, bounds, zip_file, name}, with `zip_file` the archive of the image, world file, geometry and assets; otherwise keys {image, projection_file, bounds, assets_used, name}, with the world-file terms and the assets; `image`, `bounds` and `name` are the given pieces in both |
| ReadStac.RenderResult | src/model/read_stac.py:76-112 | an unknown format raises "Format not accepted" before any read; on success the format was accepted, the scene name and world file exist, and the dict is Packaged from the rendering in the requested format, the reordered mosaic bounds, the world-file terms, the scene name of the assets used and the zip flag; when the format is accepted, a failure is the world file's ZeroDivisionError, or else the scene name's KeyError or TypeError |
| ReadStac.StacReader.constructor | src/model/read_stac.py:9-23 | the reader holds its item list and geometry |
| ReadStac.StacReader.RenderMosaicFromStac | src/model/read_stac.py:76-112 | the method computes RenderResult, errors included |
| ReadStac.DefaultCall | src/model/read_stac.py:76 | with the defaults `image_format="PNG"` and `zip_file=False` the format is accepted and a success has the five separate fields |
| ReadStac.RenderSucceeds | src/model/read_stac.py:79-112 | rendering succeeds iff the format is accepted, the image is non-empty and every asset id is a string |
| MainApp.DateStringFromSelectedDates | src/main.py:136-139 | IndexError iff fewer than two dates are selected; otherwise a string that splits on '/' into exactly the two formatted dates |
| MainApp.SelectedDatesRoundTrip | src/main.py:136-139 | the animation's parser reads back the two selected dates |
| MainApp.DoGeocodeAsWritten | src/main.py:43-53 | at least one call and at most 1 + max(6 - attempt, 1) calls whatever `max_attempts` is; with the default limit at most max(7 - attempt, 1) |
| MainApp.AsWrittenBoundIgnoresLimit | src/main.py:47-53 | from the first attempt, six calls at most, whatever limit was asked for |
| MainApp.DoGeocode | src/main.py:43-53 | at most max_attempts - attempt + 2 calls with the limit passed on |
| MainApp.DoGeocodeFirstAnswer | src/main.py:44-53 | for any limit, when calls attempt..j-1 fail transiently and call j within the limit does not, the answer of call j is returned after j - attempt + 1 calls |
| MainApp.AsWrittenFirstAnswer | src/main.py:44-53 | the same for the code as written, at the default limit the application uses |
| MainApp.DefaultLimitAgrees | src/main.py:43-53 | with the default limit, the code as written and the corrected version agree |
| MainApp.GeocodeRetryBound | src/main.py:43-53 | with the defaults, at most six calls; "Too many searches" exactly when all six calls fail with Unavailable or TimedOut |
| MainApp.AsWrittenIgnoresLimit | src/main.py:47-48 | max_attempts=2 still makes six calls as written, three when passed on |
| MainApp.AsWrittenCrashesOnUnknownAddress | src/main.py:59-61 | as written, an address the geocoder does not know raises AttributeError |
| MainApp.SearchPlace | src/main.py:56-61 | the corrected lookup never raises AttributeError |
| MainApp.SearchPlaceOutcomes | src/main.py:57-61 | an empty address gives None without geocoding; a found place is returned; the corrected lookup differs from the code as written exactly where that one crashes |
| MainApp.ParseLocation | src/main.py:141-158 | the warning is empty iff a location was found; a found location's coordinates, otherwise (0, 0, "Location not found.") |
| MainApp.DownloadName | src/main.py:127-132 | no commas; exactly min(len(name), 128) characters of the name are kept and then ".zip"; each kept character is the name's with ',' made '-' |
| MainApp.DownloadNameKeepsPlainNames | src/main.py:128 | a short name without commas is kept as it is |

## Left out

- The GIF pipeline's image work. The model does not decode, resize to
  `width` by `height`, draw the date with a font derived from `font_size`,
  or encode the GIF. A frame is the rendered image bytes together with its
  label.
- The `font_size`, `width` and `height` parameters. They only feed that
  image work. An error raised by them (for example a non-numeric `height`
  in `height*font_size`) is not modelled.
- Missing `image_search` or `image_render` dicts. The model receives both
  dicts. A missing one would raise AttributeError at `update` after the
  subdivision.
- PeriodDays: a `period_time_break` that is a float with a fractional
  part is reported as Unmodelled. `timedelta` accepts those, but date
  arithmetic in fractions of a day is not modelled. Whole floats such as
  90.0 are modelled as their number of days.
- SubdivideTimeRange: requires Terminates, which excludes one case only: a
  period of 0 days (`0`, `0.0` or `False`) on a range that parses with start
  before end. There the Python `while` loop never ends (ZeroPeriodNeverEnds).
  Every other input, a negative period or an empty range included, is
  modelled.
- CreateGif: requires ParamsTerminate, the same single exclusion for the
  `date_string` and `period_time_break` it reads.
- CreateGif: the catalog search is a total function from the search dict
  to a list of items. The errors `search_images` can raise are not
  propagated. For example a `feature_geojson` that is not a dict makes
  SearchKwargs give AttributeError on the first window, while the model
  goes on to a GIF or "No image found".
- CreateGif: the dicts stored under "image_search" and "image_render" are
  two separate objects passed beside `params`. Their in-place updates do not
  show through `params`' entries, which the model says keep their values.
  A single dict stored under both keys, which the Python code accepts, is
  excluded (`imageSearch != imageRender`).
- CreateGif: the renderer is a function of the render dict and is taken
  to leave that dict as it found it. The Python renderer also rewrites
  "geojson_geometry" in the same dict (`src/controller/image_renderer.py:22-23`, which is not
  part of this model), so the final render-dict state ensured here omits
  that key's change.
- ParseDateString: the ValueError messages of `strptime` are not reproduced.
- DateText.ParseDate: only ASCII digits are accepted. `strptime`'s `\d`
  also matches other Unicode digits.
- DateText.FormatDate: `%Y` is zero-padded to four digits. glibc's
  `strftime` does not pad years before 1000.
- The STAC client (`SearchSTAC`), the renderer, `mosaic_reader`, the
  `STACReader` tiler, `post_process`/`render` and `warp.transform_bounds`.
  These are foreign raster and network code and enter the model as
  parameters. Their own failures are not modelled.
- `stac_url` and building the client.
- The reader's `default_crs`, `assets`, `nodata`, `min_value`,
  `max_value` and `color_formula`. They are passed only to the foreign
  raster code.
- The decimal text of the world file. Its six terms are kept as `real`
  numbers. The ZIP and JSON byte encodings are kept as entry-name/content
  lists.
- Values the model cannot represent. Python values are the JSON-like
  `Value` type. A `feature_geojson`, `zip_file` or `image_format` that is
  some other Python object is not modelled (for example an unhashable
  format raising TypeError).
- Environment variables with non-string values. Writing them raises
  TypeError in `os.environ`. The process-level `putenv` side effects are
  not modelled.
- Geocoder exceptions other than unavailable or timed out. They reach the
  caller as GeocoderError.
- The Streamlit UI and its caching: `main`, `startup_session_variables`,
  the download button itself, `catalog_search`, `mosaic_render`, the area
  and buffer computations, and the geopy client.

## Findings

| source | as written | input that shows it | evidently intended | confidence | as-written member | corrected member |
|---|---|---|---|---|---|---|
| src/main.py:59-61 | `search_place` reads `location.latitude` on whatever `do_geocode` returns, and the geocoder returns None for an address it does not know | a non-empty address such as "nowhere" that the geocoder cannot match | return None, so that `parse_location` shows "Location not found." | not executed | MainApp.AsWrittenCrashesOnUnknownAddress | MainApp.SearchPlace |
| src/controller/animation_creator.py:33-40 | with `each_days` 0, `date_range_end` is `min(date_range_start, end_date)`, which is `date_range_start` itself, so the loop never advances | `"2020-01-01/2020-02-01"` with a period of 0 days | refuse a period of zero or fewer days with an error; the model of the code as written keeps this one input out by its precondition | not executed | AnimationCreator.ZeroPeriodNeverEnds | AnimationCreator.GuardedSubdivision |
| src/main.py:47-53 | the retry calls `do_geocode(address, attempt=attempt+1)` without `max_attempts`, so every retry uses the default limit of 5 | `do_geocode(address, max_attempts=2)` against a geocoder that is always unavailable makes six calls | pass `max_attempts` on, giving at most `max_attempts + 1` calls | not executed | MainApp.AsWrittenIgnoresLimit | MainApp.DoGeocode |
