/**
 * The pure helpers of the Streamlit front end: the date-range string handed
 * to the animation and search code, the place lookup with its retries, the
 * location fallback, and the name of the downloaded archive.
 */
module MainApp {
  import opened PyRuntime
  import opened Calendar
  import opened DateText
  import opened AnimationCreator

  // ---------------------------------------------------------------------
  // Dates

  /**
   * `create_datestring_from_selected_dates`: "start/end" from the two dates
   * of the date picker; a selection with fewer than two dates has no
   * element to index.
   */
  function DateStringFromSelectedDates(selected: seq<Day>): (r: Result<string>)
    ensures r.Err? <==> |selected| < 2
    ensures r.Err? ==> r.error == IndexError
    ensures r.Ok? ==> Split(r.value, '/') == [FormatDay(selected[0]), FormatDay(selected[1])]
  {
    if |selected| < 2 then Err(IndexError)
    else Ok(RangeString(selected[0], selected[1]))
  }

  /** The animation's parser reads back exactly the two selected dates. */
  lemma SelectedDatesRoundTrip(selected: seq<Day>)
    requires |selected| >= 2
    ensures ParseDateString(DateStringFromSelectedDates(selected).value) == Ok((selected[0], selected[1]))
  {
    ParseRangeString(selected[0], selected[1]);
  }

  // ---------------------------------------------------------------------
  // Geocoding

  datatype Location = Location(latitude: real, longitude: real)

  /** What one call of the geocoder does: a match, no match, or one of its exceptions. */
  datatype GeoOutcome =
    | Found(location: Location)
    | NotFound
    | Unavailable
    | TimedOut
    | Failed(message: string)

  /** The exceptions after which `do_geocode` tries again. */
  predicate Transient(o: GeoOutcome) {
    o.Unavailable? || o.TimedOut?
  }

  /**
   * The outcome of a lookup and the number of geocoder calls it made.  The
   * geocoder is a parameter: `geocode(address, attempt)` is what the
   * service answers on the call made with that attempt number.
   */
  datatype Geocoded = Geocoded(result: Result<Option<Location>>, calls: nat)

  function Answer(o: GeoOutcome): Result<Option<Location>>
    requires !Transient(o)
  {
    match o
    case Found(l) => Ok(Some(l))
    case NotFound => Ok(None)
    case Failed(m) => Err(GeocoderError(m))
  }

  const TooManySearches := Exception("Too many searches")
  const DefaultMaxAttempts := 5

  function Max(a: int, b: int): int {
    if a >= b then a else b
  }

  /**
   * `do_geocode(address, attempt, max_attempts)` as written: the retry
   * passes only `attempt + 1`, so every retry runs with the default
   * `max_attempts` of 5.
   */
  function DoGeocodeAsWritten(address: string, attempt: int, maxAttempts: int, geocode: (string, int) -> GeoOutcome)
    : (g: Geocoded)
    ensures 1 <= g.calls <= 1 + Max(DefaultMaxAttempts - attempt + 1, 1)
    ensures maxAttempts == DefaultMaxAttempts ==> g.calls <= Max(DefaultMaxAttempts - attempt + 2, 1)
    decreases Max(maxAttempts, DefaultMaxAttempts) - attempt + 1
  {
    var o := geocode(address, attempt);
    if !Transient(o) then Geocoded(Answer(o), 1)
    else if attempt <= maxAttempts then
      var rest := DoGeocodeAsWritten(address, attempt + 1, DefaultMaxAttempts, geocode);
      Geocoded(rest.result, rest.calls + 1)
    else Geocoded(Err(TooManySearches), 1)
  }

  /** `do_geocode` with the limit passed on to the retries, as its parameter list promises. */
  function DoGeocode(address: string, attempt: int, maxAttempts: int, geocode: (string, int) -> GeoOutcome)
    : (g: Geocoded)
    ensures 1 <= g.calls <= Max(maxAttempts - attempt + 2, 1)
    decreases Max(maxAttempts - attempt + 1, 0)
  {
    var o := geocode(address, attempt);
    if !Transient(o) then Geocoded(Answer(o), 1)
    else if attempt <= maxAttempts then
      var rest := DoGeocode(address, attempt + 1, maxAttempts, geocode);
      Geocoded(rest.result, rest.calls + 1)
    else Geocoded(Err(TooManySearches), 1)
  }

  /** With the default limit, as the application calls it, the two agree. */
  lemma {:induction false} DefaultLimitAgrees(address: string, attempt: int, geocode: (string, int) -> GeoOutcome)
    ensures DoGeocodeAsWritten(address, attempt, DefaultMaxAttempts, geocode)
         == DoGeocode(address, attempt, DefaultMaxAttempts, geocode)
    decreases DefaultMaxAttempts - attempt + 1
  {
    if Transient(geocode(address, attempt)) && attempt <= DefaultMaxAttempts {
      DefaultLimitAgrees(address, attempt + 1, geocode);
    }
  }

  /**
   * The lookup retries exactly while the geocoder fails transiently: when
   * calls `attempt` to `j - 1` are unavailable or time out and call `j`,
   * within the limit, answers, that answer is returned after
   * `j - attempt + 1` calls.
   */
  lemma {:induction false} DoGeocodeFirstAnswer(address: string, attempt: int, maxAttempts: int,
                                                geocode: (string, int) -> GeoOutcome, j: int)
    requires attempt <= j <= maxAttempts + 1
    requires forall k :: attempt <= k < j ==> Transient(geocode(address, k))
    requires !Transient(geocode(address, j))
    ensures DoGeocode(address, attempt, maxAttempts, geocode) == Geocoded(Answer(geocode(address, j)), j - attempt + 1)
    decreases j - attempt
  {
    if attempt < j {
      assert Transient(geocode(address, attempt));
      DoGeocodeFirstAnswer(address, attempt + 1, maxAttempts, geocode, j);
    }
  }

  /** As written, with the default limit as the application calls it, the same holds. */
  lemma AsWrittenFirstAnswer(address: string, attempt: int, geocode: (string, int) -> GeoOutcome, j: int)
    requires attempt <= j <= DefaultMaxAttempts + 1
    requires forall k :: attempt <= k < j ==> Transient(geocode(address, k))
    requires !Transient(geocode(address, j))
    ensures DoGeocodeAsWritten(address, attempt, DefaultMaxAttempts, geocode)
         == Geocoded(Answer(geocode(address, j)), j - attempt + 1)
  {
    DefaultLimitAgrees(address, attempt, geocode);
    DoGeocodeFirstAnswer(address, attempt, DefaultMaxAttempts, geocode, j);
  }

  /** A geocoder that is always unavailable. */
  function AlwaysUnavailable(address: string, attempt: int): GeoOutcome {
    Unavailable
  }

  /**
   * As written the bound on calls does not depend on `max_attempts`: from
   * the first attempt it is six, whatever limit was asked for.
   */
  lemma AsWrittenBoundIgnoresLimit(address: string, maxAttempts: int, geocode: (string, int) -> GeoOutcome)
    ensures DoGeocodeAsWritten(address, 1, maxAttempts, geocode).calls <= DefaultMaxAttempts + 1
  {
  }

  /** Asking for at most two retries still makes six calls before giving up. */
  lemma AsWrittenIgnoresLimit()
    ensures DoGeocodeAsWritten("Rio de Janeiro", 1, 2, AlwaysUnavailable) == Geocoded(Err(TooManySearches), 6)
    ensures DoGeocode("Rio de Janeiro", 1, 2, AlwaysUnavailable) == Geocoded(Err(TooManySearches), 3)
  {
  }

  /**
   * With the defaults the geocoder is called at most six times, and the
   * lookup gives up exactly when the first six calls all fail transiently.
   */
  lemma {:induction false} GeocodeRetryBound(address: string, attempt: int, geocode: (string, int) -> GeoOutcome)
    requires 1 <= attempt <= DefaultMaxAttempts + 1
    ensures DoGeocode(address, attempt, DefaultMaxAttempts, geocode).calls <= DefaultMaxAttempts + 2 - attempt
    ensures DoGeocode(address, attempt, DefaultMaxAttempts, geocode).result == Err(TooManySearches)
      <==> (forall k :: attempt <= k <= DefaultMaxAttempts + 1 ==> Transient(geocode(address, k)))
    decreases DefaultMaxAttempts + 1 - attempt
  {
    var o := geocode(address, attempt);
    if Transient(o) && attempt <= DefaultMaxAttempts {
      GeocodeRetryBound(address, attempt + 1, geocode);
    }
  }

  /**
   * `search_place` as written: an empty address is not looked up, and an
   * address the geocoder does not know makes `location.latitude` fail on
   * None.
   */
  function SearchPlaceAsWritten(address: string, geocode: (string, int) -> GeoOutcome): Result<Option<Location>> {
    if address == "" then Ok(None)
    else
      match DoGeocodeAsWritten(address, 1, DefaultMaxAttempts, geocode).result
      case Err(e) => Err(e)
      case Ok(None) => Err(AttributeError)
      case Ok(Some(l)) => Ok(Some(l))
  }

  /** A geocoder that knows no place. */
  function KnowsNothing(address: string, attempt: int): GeoOutcome {
    NotFound
  }

  /** An unknown address crashes the lookup instead of reaching "Location not found.". */
  lemma AsWrittenCrashesOnUnknownAddress()
    ensures SearchPlaceAsWritten("nowhere", KnowsNothing) == Err(AttributeError)
  {
  }

  /** `search_place` with an unknown address answered by None, which `parse_location` turns into its warning. */
  function SearchPlace(address: string, geocode: (string, int) -> GeoOutcome): (r: Result<Option<Location>>)
    ensures r.Err? ==> r.error != AttributeError
  {
    if address == "" then Ok(None)
    else DoGeocode(address, 1, DefaultMaxAttempts, geocode).result
  }

  /**
   * An empty address never reaches the geocoder; a known or unknown place
   * is answered; and the corrected lookup differs from the one as written
   * exactly where that one crashes.
   */
  lemma SearchPlaceOutcomes(address: string, geocode: (string, int) -> GeoOutcome, other: (string, int) -> GeoOutcome)
    ensures address == "" ==> SearchPlace(address, geocode) == Ok(None) == SearchPlace(address, other)
    ensures address != "" && geocode(address, 1) == NotFound ==> SearchPlace(address, geocode) == Ok(None)
    ensures address != "" && geocode(address, 1).Found? ==> SearchPlace(address, geocode) == Ok(Some(geocode(address, 1).location))
    ensures (SearchPlaceAsWritten(address, geocode) == Err(AttributeError))
        <==> (address != "" && SearchPlace(address, geocode) == Ok(None))
    ensures SearchPlaceAsWritten(address, geocode) != Err(AttributeError) ==>
        SearchPlace(address, geocode) == SearchPlaceAsWritten(address, geocode)
  {
    if address != "" {
      DefaultLimitAgrees(address, 1, geocode);
    }
  }

  // ---------------------------------------------------------------------
  // Location and file name

  /** The dict `parse_location` returns. */
  datatype ParsedLocation = ParsedLocation(latitude: real, longitude: real, warning: string)

  /** `parse_location`: the found coordinates, or (0, 0) with a warning. */
  function ParseLocation(location: Option<Location>): (p: ParsedLocation)
    ensures p.warning == "" <==> location.Some?
    ensures location.Some? ==> p.latitude == location.value.latitude && p.longitude == location.value.longitude
    ensures location.None? ==> p == ParsedLocation(0.0, 0.0, "Location not found.")
  {
    match location
    case Some(l) => ParsedLocation(l.latitude, l.longitude, "")
    case None => ParsedLocation(0.0, 0.0, "Location not found.")
  }

  const MaxNameLength := 128

  /** The `file_name` of the download button: at most 128 characters of the name, commas made dashes. */
  function DownloadName(name: string): (r: string)
    ensures ',' !in r
    ensures |r| == (if |name| <= MaxNameLength then |name| else MaxNameLength) + 4
    ensures |r| >= 4 && r[|r| - 4..] == ".zip"
    ensures forall i :: 0 <= i < |r| - 4 ==> i < |name| && r[i] == (if name[i] == ',' then '-' else name[i])
  {
    var kept := if |name| <= MaxNameLength then name else name[..MaxNameLength];
    var zipName := ReplaceChar(kept, ',', '-');
    zipName + ".zip"
  }

  /** A short name without commas is kept as it is. */
  lemma DownloadNameKeepsPlainNames(name: string)
    requires |name| <= MaxNameLength && ',' !in name
    ensures DownloadName(name) == name + ".zip"
  {
    var r := DownloadName(name);
    assert |r| == |name| + 4;
    assert r[..|name|] == name;
    assert r == r[..|name|] + r[|name|..];
  }
}
