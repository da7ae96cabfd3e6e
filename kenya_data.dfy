/** The Kenya county data function: the signed-in user's county is looked up
    from their profile's location, its recent daily weather is stored per
    county and date, and the county's rainfall seasons are reported. */
module KenyaData {
  import opened Wrappers
  import opened JsText
  import opened JsNumber
  import opened Tables
  import opened OpenMeteo
  import Location

  /** A row of the counties table; the rain-season bounds and the average
      rainfall are nullable columns. */
  datatype County = County(
    id: string, name: string, zone: string, pattern: string,
    longStart: Option<string>, longEnd: Option<string>,
    shortStart: Option<string>, shortEnd: Option<string>,
    averageRainfall: Option<real>)

  /** The weather service's answer: a failure (network error, a body that is
      not JSON), or a body that may lack the `daily` object. */
  datatype WeatherReply = WeatherFailed | WeatherBody(daily: Option<Daily>)

  /** The services the function calls: the name search over the counties
      table (`ilike '%name%'` with `single()`, which yields no row when none or
      several match), the geocoder, the weather service, and whether the
      database accepts the bulk weather upsert. */
  datatype Services = Services(
    counties: string -> Option<County>,
    geocode: Location.Geocoder,
    weather: Location.Coordinate -> WeatherReply,
    storeAccepted: bool)

  datatype Season = OffSeason | LongRains | ShortRains | MainSeason

  /** One stored weather row; a field whose series is too short is left out
      of the JSON and so stored as null. */
  datatype WeatherRecord = WeatherRecord(
    countyId: string, date: string,
    tempMax: Option<real>, tempMin: Option<real>, precipitation: Option<real>,
    humidity: Option<real>, windSpeed: Option<real>, source: string)

  /** The conflict key `county_id,date,source`. */
  type WeatherKey = (string, string, string)

  datatype Summary = Summary(
    name: string, zone: string, pattern: string, season: Season,
    longRains: Option<string>, shortRains: Option<string>, averageRainfall: Option<real>)

  /** Why the function answers 500. The last two carry a message made by the
      runtime, which the model does not know. */
  datatype Failure = NotAuthenticated | CountyNotFound(query: string) | NoGeocodeHit
                   | GeocodeFailed | WeatherRequestFailed

  datatype Reply = Success(county: Summary, weatherDataStored: nat) | ServerError(failure: Failure)

  datatype Outcome = Outcome(reply: Reply, rows: map<WeatherKey, WeatherRecord>)

  const Source := "open-meteo"

  /** The message of a 500 reply, when the function itself wrote it. */
  function Message(f: Failure): (m: Option<string>)
    ensures m.Some? <==> !(f.GeocodeFailed? || f.WeatherRequestFailed?)
  {
    match f
    case NotAuthenticated => Some("Not authenticated")
    case CountyNotFound(q) => Some("County " + q + " not found in database")
    case NoGeocodeHit => Some("Could not geocode county")
    case GeocodeFailed => None
    case WeatherRequestFailed => None
  }

  /** The texts of the messages the function writes itself. */
  lemma Messages()
    ensures Message(NotAuthenticated) == Some("Not authenticated")
    ensures forall q :: Message(CountyNotFound(q)) == Some("County " + q + " not found in database")
    ensures Message(NoGeocodeHit) == Some("Could not geocode county")
  {
  }

  /** `profile?.location || 'Nairobi'`: a missing profile, a null location and
      an empty one all fall back to Nairobi. */
  function CountyQuery(location: Option<string>): (q: string)
    ensures location.Some? && location.value != "" ==> q == location.value
    ensures location.None? || location.value == "" ==> q == "Nairobi"
  {
    if location.Some? && location.value != "" then location.value else "Nairobi"
  }

  /** The season of a calendar month (1 to 12) under a rainfall pattern. */
  function SeasonOf(pattern: string, month: int): Season {
    if pattern == "bimodal" then
      if 3 <= month <= 5 then LongRains
      else if 10 <= month <= 12 then ShortRains
      else OffSeason
    else if pattern == "unimodal" then
      if 4 <= month <= 10 then MainSeason else OffSeason
    else OffSeason
  }

  /** A nullable text column read as a JavaScript condition. */
  predicate Truthy(t: Option<string>) {
    t.Some? && t.value != ""
  }

  /** `start && end ? \`${start} - ${end}\` : null`. */
  function RainWindow(start: Option<string>, end: Option<string>): (w: Option<string>)
    ensures w.Some? <==> Truthy(start) && Truthy(end)
  {
    if Truthy(start) && Truthy(end) then Some(start.value + " - " + end.value) else None
  }

  /** The rows built from the daily series, one per entry of `time`. */
  function WeatherRecords(countyId: string, d: Daily): (rs: seq<WeatherRecord>)
    ensures |rs| == |d.time|
  {
    seq(|d.time|, i requires 0 <= i < |d.time| =>
      WeatherRecord(countyId, d.time[i], At(d.tempMax, i), At(d.tempMin, i),
                    At(d.precipitation, i), At(d.humidity, i), At(d.windSpeed, i), Source))
  }

  /** The upsert batch: each row with its conflict key. */
  function WeatherBatch(countyId: string, d: Daily): (b: seq<(WeatherKey, WeatherRecord)>)
    ensures |b| == |d.time|
  {
    var rs := WeatherRecords(countyId, d);
    seq(|rs|, i requires 0 <= i < |rs| => ((rs[i].countyId, rs[i].date, rs[i].source), rs[i]))
  }

  function Summarize(c: County, month: int): Summary {
    Summary(c.name, c.zone, c.pattern, SeasonOf(c.pattern, month),
            RainWindow(c.longStart, c.longEnd), RainWindow(c.shortStart, c.shortEnd),
            c.averageRainfall)
  }

  /** The steps before the weather request: the signed-in user, the county
      row found for the profile's location, and the county's coordinates from
      the first geocoding hit for "<county name>, Kenya". */
  function Locate(user: Option<string>, location: Option<string>, s: Services)
    : Result<(County, Location.Coordinate), Failure>
  {
    if user.None? then Err(NotAuthenticated)
    else
      var query := CountyQuery(location);
      match s.counties(query)
      case None => Err(CountyNotFound(query))
      case Some(c) =>
        match s.geocode(c.name + ", Kenya")
        case LookupFailed => Err(GeocodeFailed)
        case Places(ps) =>
          if ps == [] then Err(NoGeocodeHit)
          else Ok((c, Location.Coordinate(ParseFloat(ps[0].lat), ParseFloat(ps[0].lon))))
  }

  /** One request. `user` is the signed-in user, `location` their profile's
      location (absent when there is no profile row or the column is null),
      `month` the current month and `rows` the weather table before the call.
      The bulk upsert's outcome is never read. */
  function FetchKenyaData(user: Option<string>, location: Option<string>, month: int,
                          s: Services, rows: map<WeatherKey, WeatherRecord>): Outcome
  {
    match Locate(user, location, s)
    case Err(f) => Outcome(ServerError(f), rows)
    case Ok((c, at)) =>
      match s.weather(at)
      case WeatherFailed => Outcome(ServerError(WeatherRequestFailed), rows)
      case WeatherBody(daily) =>
        var rows' := if daily.Some? && s.storeAccepted && DistinctKeys(WeatherBatch(c.id, daily.value))
                     then UpsertAll(rows, WeatherBatch(c.id, daily.value)) else rows;
        var stored := if daily.Some? then |daily.value.time| else 0;
        Outcome(Success(Summarize(c, month), stored), rows')
  }

  // ---------------------------------------------------------------------
  // Properties

  /** The season rule: under a bimodal pattern the long rains are March to
      May and the short rains October to December; under a unimodal pattern
      the main season is April to October; every other month, and every month
      under another pattern, is off-season. */
  lemma SeasonRule(pattern: string, month: int)
    ensures SeasonOf(pattern, month) == LongRains <==> pattern == "bimodal" && 3 <= month <= 5
    ensures SeasonOf(pattern, month) == ShortRains <==> pattern == "bimodal" && 10 <= month <= 12
    ensures SeasonOf(pattern, month) == MainSeason <==> pattern == "unimodal" && 4 <= month <= 10
  {
  }

  /** Over the twelve months a bimodal county has six rainy months and a
      unimodal one seven. */
  lemma RainyMonthCounts()
    ensures |set m | 1 <= m <= 12 && SeasonOf("bimodal", m) != OffSeason| == 6
    ensures |set m | 1 <= m <= 12 && SeasonOf("unimodal", m) != OffSeason| == 7
  {
    RainyMonths("bimodal");
    RainyMonths("unimodal");
  }

  /** The rainy months of each pattern, listed. */
  lemma RainyMonths(pattern: string)
    ensures pattern == "bimodal" ==>
      (set m | 1 <= m <= 12 && SeasonOf(pattern, m) != OffSeason) == {3, 4, 5, 10, 11, 12}
    ensures pattern == "unimodal" ==>
      (set m | 1 <= m <= 12 && SeasonOf(pattern, m) != OffSeason) == {4, 5, 6, 7, 8, 9, 10}
  {
  }

  /** A rain window splits back into its two bounds at the dash, when the
      bounds have no dash of their own. */
  lemma RainWindowSplits(start: string, end: string)
    requires start != "" && end != "" && '-' !in start && '-' !in end
    ensures Split(RainWindow(Some(start), Some(end)).value, '-') == [start + " ", " " + end]
  {
    var parts := [start + " ", " " + end];
    assert '-' !in parts[0] && '-' !in parts[1];
    assert Join(parts, '-') == start + " - " + end;
    SplitJoin(parts, '-');
  }

  /** The `i`-th stored row carries the `i`-th date, the `i`-th entry of each
      series (null past a short series) and the source tag. */
  lemma RecordFields(countyId: string, d: Daily, i: nat)
    requires i < |d.time|
    ensures WeatherRecords(countyId, d)[i].countyId == countyId
    ensures WeatherRecords(countyId, d)[i].date == d.time[i]
    ensures WeatherRecords(countyId, d)[i].source == "open-meteo"
    ensures WeatherRecords(countyId, d)[i].precipitation.Some? <==> i < |d.precipitation|
    ensures i < |d.precipitation| ==> WeatherRecords(countyId, d)[i].precipitation.value == d.precipitation[i]
    ensures WeatherRecords(countyId, d)[i].tempMax == At(d.tempMax, i)
    ensures WeatherRecords(countyId, d)[i].tempMin == At(d.tempMin, i)
    ensures WeatherRecords(countyId, d)[i].humidity == At(d.humidity, i)
    ensures WeatherRecords(countyId, d)[i].windSpeed == At(d.windSpeed, i)
  {
  }

  /** The rows a stored batch leaves behind are keyed by this county, the
      dates of the series and the source tag; when the dates are distinct, the
      row for the `i`-th date is the `i`-th record. */
  lemma {:induction false} StoredRows(countyId: string, d: Daily)
    ensures forall k: WeatherKey :: k in BatchRows(WeatherBatch(countyId, d)) <==>
      k.0 == countyId && k.2 == Source && k.1 in d.time
    ensures (forall i, j :: 0 <= i < j < |d.time| ==> d.time[i] != d.time[j]) ==>
      forall i :: 0 <= i < |d.time| ==>
        BatchRows(WeatherBatch(countyId, d))[(countyId, d.time[i], Source)] == WeatherRecords(countyId, d)[i]
  {
    var b := WeatherBatch(countyId, d);
    BatchRowsContent(b);
    StoredKeys(countyId, d);
    if forall i, j :: 0 <= i < j < |d.time| ==> d.time[i] != d.time[j] {
      StoredValues(countyId, d);
      forall i | 0 <= i < |d.time|
        ensures BatchRows(b)[(countyId, d.time[i], Source)] == WeatherRecords(countyId, d)[i]
      {
        BatchEntry(countyId, d, i);
      }
    }
  }

  /** The `i`-th batch entry: the `i`-th record under its own key. */
  lemma BatchEntry(countyId: string, d: Daily, i: nat)
    requires i < |d.time|
    ensures WeatherBatch(countyId, d)[i] == ((countyId, d.time[i], Source), WeatherRecords(countyId, d)[i])
  {
  }

  lemma StoredKeys(countyId: string, d: Daily)
    ensures forall k: WeatherKey :: (exists i :: 0 <= i < |WeatherBatch(countyId, d)| && WeatherBatch(countyId, d)[i].0 == k) <==>
      k.0 == countyId && k.2 == Source && k.1 in d.time
  {
    var b := WeatherBatch(countyId, d);
    forall k: WeatherKey ensures (exists i :: 0 <= i < |b| && b[i].0 == k) <==> k.0 == countyId && k.2 == Source && k.1 in d.time {
      if k.0 == countyId && k.2 == Source && k.1 in d.time {
        var i :| 0 <= i < |d.time| && d.time[i] == k.1;
        BatchEntry(countyId, d, i);
      }
      if exists i :: 0 <= i < |b| && b[i].0 == k {
        var i :| 0 <= i < |b| && b[i].0 == k;
        BatchEntry(countyId, d, i);
      }
    }
  }

  lemma StoredValues(countyId: string, d: Daily)
    requires forall i, j :: 0 <= i < j < |d.time| ==> d.time[i] != d.time[j]
    ensures forall i :: 0 <= i < |d.time| ==> KeyOnlyAt(WeatherBatch(countyId, d), i)
  {
    var b := WeatherBatch(countyId, d);
    forall i | 0 <= i < |d.time| ensures KeyOnlyAt(b, i) {
      forall j | 0 <= j < |b| && j != i ensures b[j].0 != b[i].0 {
        BatchEntry(countyId, d, i);
        BatchEntry(countyId, d, j);
        if j < i { assert d.time[j] != d.time[i]; } else { assert d.time[i] != d.time[j]; }
      }
    }
  }

  /** Without a signed-in user nothing is read and nothing is stored. */
  lemma UnauthenticatedRefused(location: Option<string>, month: int, s: Services, rows: map<WeatherKey, WeatherRecord>)
    ensures FetchKenyaData(None, location, month, s, rows) == Outcome(ServerError(NotAuthenticated), rows)
    ensures Message(NotAuthenticated) == Some("Not authenticated")
  {
    Messages();
  }

  /** A county name that matches no single county row is reported with the
      name searched for, which is Nairobi when the profile has no location. */
  lemma MissingCounty(user: string, location: Option<string>, month: int, s: Services, rows: map<WeatherKey, WeatherRecord>)
    requires s.counties(CountyQuery(location)).None?
    ensures var o := FetchKenyaData(Some(user), location, month, s, rows);
      o.rows == rows && o.reply.ServerError? &&
      Message(o.reply.failure) == Some("County " + CountyQuery(location) + " not found in database")
  {
    Messages();
  }

  /** The geocoder is asked for "<county name>, Kenya"; no hit is a 500 with
      "Could not geocode county" and nothing stored. */
  lemma UngeocodableCounty(user: string, location: Option<string>, month: int, s: Services,
                           rows: map<WeatherKey, WeatherRecord>, c: County)
    requires s.counties(CountyQuery(location)) == Some(c)
    requires s.geocode(c.name + ", Kenya") == Location.Places([])
    ensures FetchKenyaData(Some(user), location, month, s, rows) == Outcome(ServerError(NoGeocodeHit), rows)
    ensures Message(NoGeocodeHit) == Some("Could not geocode county")
  {
    Messages();
  }

  /** A successful call reports the county's season and windows for the
      month, counts the entries of the daily series (0 without one) whether or
      not the upsert was accepted, and an accepted upsert overrides the table
      with exactly the batch's rows. */
  lemma SuccessfulFetch(user: string, location: Option<string>, month: int, s: Services,
                        rows: map<WeatherKey, WeatherRecord>, c: County, p: Location.Place, daily: Option<Daily>)
    requires s.counties(CountyQuery(location)) == Some(c)
    requires s.geocode(c.name + ", Kenya").Places? && s.geocode(c.name + ", Kenya").places != []
    requires p == s.geocode(c.name + ", Kenya").places[0]
    requires s.weather(Location.Coordinate(ParseFloat(p.lat), ParseFloat(p.lon))) == WeatherBody(daily)
    ensures var o := FetchKenyaData(Some(user), location, month, s, rows);
      && o.reply.Success?
      && o.reply.county.season == SeasonOf(c.pattern, month)
      && o.reply.county.longRains == RainWindow(c.longStart, c.longEnd)
      && o.reply.county.shortRains == RainWindow(c.shortStart, c.shortEnd)
      && o.reply.weatherDataStored == (if daily.Some? then |daily.value.time| else 0)
      && o.rows == (if daily.Some? && s.storeAccepted && DistinctDates(daily.value)
                    then rows + BatchRows(WeatherBatch(c.id, daily.value)) else rows)
  {
    if daily.Some? {
      BatchKeysDistinct(c.id, daily.value);
      if s.storeAccepted && DistinctKeys(WeatherBatch(c.id, daily.value)) {
        UpsertAllOverrides(rows, WeatherBatch(c.id, daily.value));
      }
    }
  }

  /** The batch repeats a conflict key exactly when the series repeats a
      date, and then the database rejects the whole upsert. */
  lemma BatchKeysDistinct(countyId: string, d: Daily)
    ensures DistinctKeys(WeatherBatch(countyId, d)) <==> DistinctDates(d)
  {
    var b := WeatherBatch(countyId, d);
    forall i, j | 0 <= i < j < |d.time|
      ensures b[i].0 != b[j].0 <==> d.time[i] != d.time[j]
    {
      BatchEntry(countyId, d, i);
      BatchEntry(countyId, d, j);
    }
  }

  /** The reply never depends on whether the database accepted the upsert. */
  lemma ReplyIgnoresStore(user: Option<string>, location: Option<string>, month: int, s: Services,
                          rows: map<WeatherKey, WeatherRecord>)
    ensures FetchKenyaData(user, location, month, s, rows).reply
         == FetchKenyaData(user, location, month, s.(storeAccepted := !s.storeAccepted), rows).reply
  {
    var s' := s.(storeAccepted := !s.storeAccepted);
    assert s'.counties == s.counties && s'.geocode == s.geocode && s'.weather == s.weather;
    assert Locate(user, location, s') == Locate(user, location, s);
  }

  /** Fetching twice in a row with the same answers stores what fetching once
      stores. */
  lemma RefetchIsIdempotent(user: Option<string>, location: Option<string>, month: int, s: Services,
                            rows: map<WeatherKey, WeatherRecord>)
    ensures var once := FetchKenyaData(user, location, month, s, rows);
      FetchKenyaData(user, location, month, s, once.rows) == once
  {
    match Locate(user, location, s)
    case Err(_) =>
    case Ok((c, at)) =>
      var w := s.weather(at);
      if w.WeatherBody? && w.daily.Some? && s.storeAccepted && DistinctKeys(WeatherBatch(c.id, w.daily.value)) {
        UpsertAllIdempotent(rows, WeatherBatch(c.id, w.daily.value));
      }
  }
}
