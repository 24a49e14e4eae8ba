/**
 The home page's screen state and the rules that change it: the paired
 current-weather/forecast fetch by city or by coordinates, the geolocation
 fallback to the first saved city, and the saved-list handlers.

 Each fetch is split into the synchronous start (`setLoading(true)`,
 `setError(null)`, then the two requests go out) and the completion that runs
 when `Promise.all` settles. Completions are applied in whatever order the
 responses arrive, with no check of which request they answer: the last one to
 finish writes the screen.
 */
module Home {
  import opened Common
  import opened CityList
  import opened SavedStore
  import opened ForecastCard

  /** The current-weather payload; the page only passes it on to the card. */
  datatype CurrentWeather = CurrentWeather(name: string)

  /** What the page asks the provider for. */
  datatype Query = ByCity(city: string) | ByCoords(lat: real, lon: real)

  /** A rejected request: `err.response.data.message` and `err.message`,
      either possibly missing. */
  datatype FetchError = FetchError(responseMessage: Option<string>, message: Option<string>)

  datatype Response<T> = Ok(data: T) | Rejected(err: FetchError)

  /** How `Promise.all` over the two requests settled. */
  datatype Outcome = Fetched(current: CurrentWeather, forecast: Forecast) | Failed(err: FetchError)

  /** The page's state hooks. */
  datatype Screen = Screen(
    current: Option<CurrentWeather>,
    forecast: Option<Forecast>,
    loading: bool,
    error: Option<string>,
    savedCities: seq<string>)

  /** The page's state after an event, and the query it sent out, if any. */
  datatype Dispatch = Dispatch(screen: Screen, query: Option<Query>)

  /** What the geolocation request reported. */
  datatype Geolocation =
    | Unsupported            // `navigator.geolocation` is missing
    | Position(lat: real, lon: real)
    | PositionError          // denied, unavailable, or the 8000 ms timeout

  const FallbackError: string := "Failed to fetch"

  /** The page on mount: nothing shown, not loading, the saved list loaded. */
  function Mount(st: Stored): (r: Screen)
    ensures r.current.None? && r.forecast.None? && !r.loading && r.error.None?
    ensures st.Valid? ==> r.savedCities == st.cities
    ensures !st.Valid? ==> r.savedCities == []
  {
    Screen(None, None, false, None, LoadSaved(st))
  }

  /** `Promise.all`: both responses when both arrive, otherwise the first
      rejection; which of two rejections comes first is a matter of timing. */
  function Settle(cur: Response<CurrentWeather>, fc: Response<Forecast>, currentRejectsFirst: bool): (r: Outcome)
    ensures r.Fetched? <==> cur.Ok? && fc.Ok?
    ensures r.Fetched? ==> r.current == cur.data && r.forecast == fc.data
    ensures r.Failed? ==> (cur.Rejected? && r.err == cur.err) || (fc.Rejected? && r.err == fc.err)
    ensures cur.Rejected? && fc.Ok? ==> r == Failed(cur.err)
    ensures cur.Ok? && fc.Rejected? ==> r == Failed(fc.err)
  {
    match (cur, fc)
    case (Ok(c), Ok(f)) => Fetched(c, f)
    case (Rejected(e), Ok(_)) => Failed(e)
    case (Ok(_), Rejected(e)) => Failed(e)
    case (Rejected(e1), Rejected(e2)) => if currentRejectsFirst then Failed(e1) else Failed(e2)
  }

  /** `err?.response?.data?.message || err.message || "Failed to fetch"`. */
  function ErrorMessage(e: FetchError): (r: string)
    ensures r != ""
    ensures Truthy(e.responseMessage) ==> r == e.responseMessage.value
    ensures !Truthy(e.responseMessage) && Truthy(e.message) ==> r == e.message.value
    ensures !Truthy(e.responseMessage) && !Truthy(e.message) ==> r == FallbackError
  {
    if Truthy(e.responseMessage) then e.responseMessage.value
    else if Truthy(e.message) then e.message.value
    else FallbackError
  }

  /** The synchronous start of a fetch. */
  function Begin(s: Screen): (r: Screen)
    ensures r.loading && r.error.None?
    ensures r.current == s.current && r.forecast == s.forecast && r.savedCities == s.savedCities
  {
    s.(loading := true, error := None)
  }

  /** The completion of a fetch: on success show both payloads, on failure
      clear them and show the message; either way stop loading. */
  function Complete(s: Screen, o: Outcome): (r: Screen)
    ensures !r.loading && r.savedCities == s.savedCities
    ensures o.Fetched? ==> r.current == Some(o.current) && r.forecast == Some(o.forecast) && r.error == s.error
    ensures o.Failed? ==> r.current.None? && r.forecast.None? && r.error == Some(ErrorMessage(o.err))
  {
    match o
    case Fetched(c, f) => s.(current := Some(c), forecast := Some(f), loading := false)
    case Failed(e) => s.(current := None, forecast := None, error := Some(ErrorMessage(e)), loading := false)
  }

  /** `handleSearch(city)`: start a fetch of that city. */
  function HandleSearch(s: Screen, city: string): (r: Dispatch)
    ensures r.query == Some(ByCity(city))
    ensures r.screen.loading && r.screen.error.None?
    ensures r.screen.current == s.current && r.screen.forecast == s.forecast && r.screen.savedCities == s.savedCities
  {
    Dispatch(Begin(s), Some(ByCity(city)))
  }

  /** `fetchByCoords(lat, lon)`: start a fetch of that position. */
  function FetchByCoords(s: Screen, lat: real, lon: real): (r: Dispatch)
    ensures r.query == Some(ByCoords(lat, lon))
    ensures r.screen.loading && r.screen.error.None?
    ensures r.screen.current == s.current && r.screen.forecast == s.forecast && r.screen.savedCities == s.savedCities
  {
    Dispatch(Begin(s), Some(ByCoords(lat, lon)))
  }

  /** `handleSelectSaved(city)`: search for the city. */
  function HandleSelectSaved(s: Screen, city: string): (r: Dispatch)
    ensures r.query == Some(ByCity(city))
    ensures r.screen.loading && r.screen.error.None?
    ensures r.screen.current == s.current && r.screen.forecast == s.forecast && r.screen.savedCities == s.savedCities
  {
    HandleSearch(s, city)
  }

  /** `tryGeolocation` as run by one pass of the mount effect: fetch by
      position when one is reported; otherwise search the first city of
      `captured`, or do nothing when it is empty. `captured` is the saved list
      that effect pass closed over, which need not be the list on screen when
      the callback fires; the fetch starts from the screen `s` of that moment. */
  function TryGeolocation(s: Screen, captured: seq<string>, g: Geolocation): (r: Dispatch)
    ensures g.Position? ==> r == FetchByCoords(s, g.lat, g.lon)
    ensures !g.Position? && |captured| > 0 ==> r == HandleSearch(s, captured[0])
    ensures !g.Position? && |captured| == 0 ==> r == Dispatch(s, None)
  {
    match g
    case Position(lat, lon) => FetchByCoords(s, lat, lon)
    case _ =>
      if |captured| > 0 then HandleSearch(s, captured[0]) else Dispatch(s, None)
  }

  /** The saved lists the geolocation effect closes over on mount, one per
      pass. The first pass runs in the same commit as the load, so it sees the
      initial `[]`; the load's update triggers a second pass only when it
      changes the list's length, the effect's one dependency. */
  function MountCaptures(st: Stored): (r: seq<seq<string>>)
    ensures |r| > 0 && r[0] == []
    ensures |r| == 2 <==> |LoadSaved(st)| > 0
    ensures |r| == 2 ==> r[1] == LoadSaved(st) == Mount(st).savedCities
    ensures |r| <= 2
  {
    if |LoadSaved(st)| > 0 then [[], LoadSaved(st)] else [[]]
  }

  /** `handleSavedChange(list)`: adopt the list the weather card reports. */
  function HandleSavedChange(s: Screen, list: seq<string>): (r: Screen)
    ensures r.savedCities == list
    ensures r.current == s.current && r.forecast == s.forecast && r.loading == s.loading && r.error == s.error
  {
    s.(savedCities := list)
  }

  /** The page's state and what it writes to storage. */
  datatype Removal = Removal(screen: Screen, written: Stored)

  /** `handleRemoveCity(city)`: drop every exact match from the in-memory
      list, persist exactly that list, and show it. */
  function HandleRemoveCity(s: Screen, city: string): (r: Removal)
    ensures r.written == Valid(r.screen.savedCities)
    ensures r.screen.savedCities == Without(s.savedCities, city)
    ensures forall c :: c in r.screen.savedCities <==> c in s.savedCities && c != city
    ensures r.screen.current == s.current && r.screen.forecast == s.forecast
    ensures r.screen.loading == s.loading && r.screen.error == s.error
  {
    var updated := Without(s.savedCities, city);
    Removal(s.(savedCities := updated), Valid(updated))
  }

  /** A fetch that runs undisturbed from start to finish: on success both
      payloads are shown with no error, on failure nothing is shown and the
      message is; in both cases loading is over. */
  lemma FetchResult(s: Screen, o: Outcome)
    ensures var r := Complete(Begin(s), o);
            && !r.loading
            && (o.Fetched? <==> r.current.Some?)
            && (o.Fetched? ==> r.current == Some(o.current) && r.forecast == Some(o.forecast) && r.error.None?)
            && (o.Failed? ==> r.current.None? && r.forecast.None? && r.error == Some(ErrorMessage(o.err)))
  {
  }

  /** A search by city and a fetch by coordinates change the screen the same
      way, at the start and at every completion; selecting a saved city is
      exactly a search. */
  lemma SearchAndCoordsAgree(s: Screen, city: string, lat: real, lon: real, o: Outcome)
    ensures HandleSearch(s, city).screen == FetchByCoords(s, lat, lon).screen
    ensures Complete(HandleSearch(s, city).screen, o) == Complete(FetchByCoords(s, lat, lon).screen, o)
    ensures HandleSelectSaved(s, city) == HandleSearch(s, city)
  {
  }

  /** Without a position, unsupported geolocation and a failed request take
      the same fallback, and an empty captured list leaves the screen
      untouched with no query. */
  lemma GeolocationFallback(s: Screen, captured: seq<string>)
    ensures TryGeolocation(s, captured, Unsupported) == TryGeolocation(s, captured, PositionError)
    ensures |captured| == 0 ==> TryGeolocation(s, captured, PositionError) == Dispatch(s, None)
    ensures |captured| > 0 ==> TryGeolocation(s, captured, PositionError).query == Some(ByCity(captured[0]))
  {
  }

  /** On mount without a position, the first effect pass searches nothing even
      when storage holds cities; a city is searched only by the second pass,
      and only the first stored city. */
  lemma MountFallback(st: Stored, s: Screen, g: Geolocation)
    requires !g.Position?
    ensures TryGeolocation(s, MountCaptures(st)[0], g) == Dispatch(s, None)
    ensures |MountCaptures(st)| == 2 ==>
              TryGeolocation(s, MountCaptures(st)[1], g) == HandleSearch(s, LoadSaved(st)[0])
    ensures st.Valid? && |st.cities| > 0 ==>
              exists i :: 0 <= i < |MountCaptures(st)| && TryGeolocation(s, MountCaptures(st)[i], g).query == Some(ByCity(st.cities[0]))
  {
    if st.Valid? && |st.cities| > 0 {
      assert TryGeolocation(s, MountCaptures(st)[1], g).query == Some(ByCity(st.cities[0]));
    }
  }

  /** Whatever the screen showed before, a completion's payloads are the
      ones it carries: the last fetch to finish decides the weather shown,
      even when it was started first. A failure decides the whole screen;
      a success keeps whatever error was already there. */
  lemma LastCompletionWins(s: Screen, t: Screen, o: Outcome)
    requires s.savedCities == t.savedCities
    ensures Complete(s, o).current == Complete(t, o).current
    ensures Complete(s, o).forecast == Complete(t, o).forecast
    ensures o.Failed? ==> Complete(s, o) == Complete(t, o)
    ensures o.Fetched? ==> Complete(s, o).error == s.error
  {
  }

  /** A search for "Lahore" and then one for "Karachi": when Karachi's
      response arrives first and Lahore's after it, Lahore is what the page
      ends up showing. */
  lemma StaleResponseIsShown(s: Screen, lahore: CurrentWeather, lf: Forecast, karachi: CurrentWeather, kf: Forecast)
    ensures var first := HandleSearch(s, "Lahore");
            var second := HandleSearch(first.screen, "Karachi");
            var afterKarachi := Complete(second.screen, Fetched(karachi, kf));
            var afterLahore := Complete(afterKarachi, Fetched(lahore, lf));
            && afterKarachi.current == Some(karachi)
            && afterLahore.current == Some(lahore)
            && afterLahore.forecast == Some(lf)
  {
  }

  /** A failure that lands between the start and the success of another
      fetch leaves its message on screen next to the fetched weather, since
      only the start of a fetch clears the error. */
  lemma ErrorSurvivesLaterSuccess(s: Screen, e: FetchError, c: CurrentWeather, f: Forecast)
    ensures var started := Begin(Begin(s));
            var r := Complete(Complete(started, Failed(e)), Fetched(c, f));
            r.current == Some(c) && r.error == Some(ErrorMessage(e))
  {
  }

  /** Removing a city the page does not list leaves the list as it was, and
      the list written is the one shown. */
  lemma RemoveAbsentCity(s: Screen, city: string)
    requires city !in s.savedCities
    ensures HandleRemoveCity(s, city).screen == s
    ensures HandleRemoveCity(s, city).written == Valid(s.savedCities)
  {
    WithoutAbsent(s.savedCities, city);
  }

  /** The page's remove handler keeps the other cities in their order, and
      writes exactly what the card's remove button writes for the same list. */
  lemma HandleRemoveKeepsOrder(s: Screen, city: string, xs: seq<string>, ys: seq<string>, flag: bool)
    requires s.savedCities == xs + ys
    ensures HandleRemoveCity(s, city).screen.savedCities == Without(xs, city) + Without(ys, city)
    ensures HandleRemoveCity(s, city).written == RemoveCity(Valid(s.savedCities), flag, city).store
  {
    WithoutAppend(xs, ys, city);
  }

  /** The page's list mirrors storage. */
  predicate InSync(s: Screen, st: Stored) {
    s.savedCities == LoadSaved(st)
  }

  /** The page's list mirrors storage before and after the card's star
      button (the card reports what it wrote) and the page's own remove
      handler (which writes what it shows); no duplicates appear. */
  lemma SavedListStaysInSync(s: Screen, st: Stored, flag: bool, name: string, city: string)
    requires InSync(s, st) && Distinct(LoadSaved(st))
    ensures var step := Toggle(st, flag, name);
            var s' := match step.notified
                      case Some(list) => HandleSavedChange(s, list)
                      case None => s;
            InSync(s', step.store) && Distinct(s'.savedCities)
    ensures var r := HandleRemoveCity(s, city);
            InSync(r.screen, r.written) && Distinct(r.screen.savedCities)
  {
    if flag {
      RemoveKeepsDistinct(st, flag, name);
    } else {
      SaveKeepsDistinct(st, flag, name);
    }
    WithoutKeepsDistinct(s.savedCities, city);
  }
}
