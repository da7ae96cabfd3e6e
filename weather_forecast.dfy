/** The weather-forecast function: the signed-in user's location becomes
    coordinates, the seven-day forecast for them is labelled day by day and
    stored per user and date. */
module Forecast {
  import opened Wrappers
  import opened JsText
  import opened JsNumber
  import opened Tables
  import opened OpenMeteo
  import Location

  /** The forecast service's answer: a failed request (network error, a
      body that is not JSON), a reply whose status is not ok, or a body that
      may lack the `daily` object. */
  datatype ForecastReply = RequestFailed | NotOk | ForecastBody(daily: Option<Daily>)

  /** The services the function calls: the geocoder, the forecast service,
      and whether the database accepts the bulk upsert. */
  datatype Services = Services(
    geocode: Location.Geocoder,
    forecast: Location.Coordinate -> ForecastReply,
    storeAccepted: bool)

  datatype Conditions = Sunny | PartlyCloudy | Rainy

  datatype ForecastRecord = ForecastRecord(
    userId: string, date: string,
    high: Option<real>, low: Option<real>, precipitation: Option<real>,
    humidity: Option<real>, windSpeed: Option<real>, conditions: Conditions)

  /** The conflict key `user_id,forecast_date`. */
  type ForecastKey = (string, string)

  /** Why the function answers 500. The last four carry a message made by
      the runtime or the database client, which the model does not know. */
  datatype Failure = NotAuthenticated | LocationNotSet | LocationNotFound | ForecastNotOk
                   | GeocodeFailed | ForecastFailed | MissingDaily | StoreFailed

  datatype Reply = Success(forecast: seq<ForecastRecord>) | ServerError(failure: Failure)

  datatype Outcome = Outcome(reply: Reply, rows: map<ForecastKey, ForecastRecord>)

  /** The message of a 500 reply, when the function itself wrote it. */
  function Message(f: Failure): (m: Option<string>)
    ensures m.Some? <==> (f.NotAuthenticated? || f.LocationNotSet? || f.LocationNotFound? || f.ForecastNotOk?)
  {
    match f
    case NotAuthenticated => Some("Not authenticated")
    case LocationNotSet => Some("User location not set")
    case LocationNotFound => Some("Location not found")
    case ForecastNotOk => Some("Failed to fetch weather forecast")
    case _ => None
  }

  /** The texts of the messages the function writes itself. */
  lemma Messages()
    ensures Message(NotAuthenticated) == Some("Not authenticated")
    ensures Message(LocationNotSet) == Some("User location not set")
    ensures Message(LocationNotFound) == Some("Location not found")
    ensures Message(ForecastNotOk) == Some("Failed to fetch weather forecast")
  {
  }

  /** The label of a day from its precipitation; a missing value compares
      false with both thresholds and so reads as sunny. */
  function ConditionsOf(p: Option<real>): (c: Conditions)
    ensures c == Rainy <==> p.Some? && p.value > 10.0
    ensures c == PartlyCloudy <==> p.Some? && 0.0 < p.value <= 10.0
    ensures c == Sunny <==> p.None? || p.value <= 0.0
  {
    if p.Some? && p.value > 10.0 then Rainy
    else if p.Some? && p.value > 0.0 then PartlyCloudy
    else Sunny
  }

  /** How wet a label is. */
  function Wetness(c: Conditions): nat {
    match c
    case Sunny => 0
    case PartlyCloudy => 1
    case Rainy => 2
  }

  /** The coordinates of a location: a location with a comma is split on
      commas and its first two pieces go through `parseFloat`, with no lookup;
      any other location is asked of the geocoder. */
  function Coordinates(location: string, geocode: Location.Geocoder): Result<Location.Coordinate, Failure> {
    if ',' in location then
      var parts := Split(location, ',');
      Ok(Location.Coordinate(ParseFloat(parts[0]), ParseFloat(parts[1])))
    else
      match geocode(location)
      case LookupFailed => Err(GeocodeFailed)
      case Places(ps) =>
        if ps == [] then Err(LocationNotFound)
        else Ok(Location.Coordinate(ParseFloat(ps[0].lat), ParseFloat(ps[0].lon)))
  }

  /** The records built from the daily series, one per entry of `time`. */
  function ForecastRecords(userId: string, d: Daily): (rs: seq<ForecastRecord>)
    ensures |rs| == |d.time|
  {
    seq(|d.time|, i requires 0 <= i < |d.time| =>
      ForecastRecord(userId, d.time[i], At(d.tempMax, i), At(d.tempMin, i),
                     At(d.precipitation, i), At(d.humidity, i), At(d.windSpeed, i),
                     ConditionsOf(At(d.precipitation, i))))
  }

  /** The upsert batch: each record with its conflict key. */
  function ForecastBatch(userId: string, d: Daily): (b: seq<(ForecastKey, ForecastRecord)>)
    ensures |b| == |d.time|
  {
    var rs := ForecastRecords(userId, d);
    seq(|rs|, i requires 0 <= i < |rs| => ((rs[i].userId, rs[i].date), rs[i]))
  }

  /** One request. `user` is the signed-in user, `location` their profile's
      location (absent when there is no profile row or the column is null) and
      `rows` the forecast table before the call. A rejected upsert is
      rethrown. */
  function FetchForecast(user: Option<string>, location: Option<string>, s: Services,
                         rows: map<ForecastKey, ForecastRecord>): Outcome
  {
    if user.None? then Outcome(ServerError(NotAuthenticated), rows)
    else if location.None? || location.value == "" then Outcome(ServerError(LocationNotSet), rows)
    else
      match Coordinates(location.value, s.geocode)
      case Err(f) => Outcome(ServerError(f), rows)
      case Ok(at) => Answer(user.value, s.forecast(at), s.storeAccepted, rows)
  }

  /** The rest of a request once the forecast service has answered: a
      missing `daily` object throws, and so does a rejected upsert. */
  function Answer(userId: string, r: ForecastReply, storeAccepted: bool,
                  rows: map<ForecastKey, ForecastRecord>): Outcome
  {
    match r
    case RequestFailed => Outcome(ServerError(ForecastFailed), rows)
    case NotOk => Outcome(ServerError(ForecastNotOk), rows)
    case ForecastBody(daily) =>
      if daily.None? then Outcome(ServerError(MissingDaily), rows)
      else if !storeAccepted || !DistinctKeys(ForecastBatch(userId, daily.value)) then
        Outcome(ServerError(StoreFailed), rows)
      else
        var d := daily.value;
        Outcome(Success(ForecastRecords(userId, d)), UpsertAll(rows, ForecastBatch(userId, d)))
  }

  // ---------------------------------------------------------------------
  // Properties

  /** More precipitation never gives a drier label. */
  lemma ConditionsMonotone(p: real, q: real)
    requires p <= q
    ensures Wetness(ConditionsOf(Some(p))) <= Wetness(ConditionsOf(Some(q)))
  {
  }

  /** A location with a comma is never geocoded: its coordinates are the
      numbers read from its first two comma-separated pieces, whatever the
      geocoder would answer. */
  lemma CommaLocationNotGeocoded(location: string, g1: Location.Geocoder, g2: Location.Geocoder)
    requires ',' in location
    ensures Coordinates(location, g1) == Coordinates(location, g2)
    ensures |Split(location, ',')| >= 2
    ensures Coordinates(location, g1) ==
      Ok(Location.Coordinate(ParseFloat(Split(location, ',')[0]), ParseFloat(Split(location, ',')[1])))
  {
  }

  /** Comma-free pieces joined by commas ("lat,lng", with or without more
      pieces after it) read back as the two numbers `parseFloat` finds in the
      first two pieces. */
  lemma CommaPairRoundTrip(parts: seq<string>, g: Location.Geocoder)
    requires |parts| >= 2
    requires forall i :: 0 <= i < |parts| ==> ',' !in parts[i]
    ensures Coordinates(Join(parts, ','), g) == Ok(Location.Coordinate(ParseFloat(parts[0]), ParseFloat(parts[1])))
  {
    var s := Join(parts, ',');
    SplitJoin(parts, ',');
    assert s == parts[0] + [','] + Join(parts[1..], ',');
    assert s[|parts[0]|] == ',';
  }

  /** A place name with a comma, such as "Nairobi, Kenya", reads as two NaN
      coordinates and is never geocoded, where the batch pipeline's stricter
      pattern sends the same text to the geocoder. */
  lemma PlaceNameWithComma(name: string, gap: string, country: string, g: Location.Geocoder)
    requires ',' !in name && ',' !in country && AllSpace(gap)
    requires name != [] && !IsSpace(name[0]) && StartsWithoutNumber(name)
    requires country != [] && !IsSpace(country[0]) && StartsWithoutNumber(country)
    ensures Coordinates(name + "," + gap + country, g) == Ok(Location.Coordinate(NotFinite, NotFinite))
    ensures Location.MatchPair(name + "," + gap + country).None?
  {
    PlaceNameCoordinates(name, gap, country, g);
    Location.MatchPairParts(name, gap, country);
    assert TrimStart(name) == name;
    assert LeadingDigits(name) == 0;
  }

  /** The coordinate half of the above: both comma pieces read as NaN. */
  lemma PlaceNameCoordinates(name: string, gap: string, country: string, g: Location.Geocoder)
    requires ',' !in name && ',' !in country && AllSpace(gap)
    requires name != [] && !IsSpace(name[0]) && StartsWithoutNumber(name)
    requires country != [] && !IsSpace(country[0]) && StartsWithoutNumber(country)
    ensures Coordinates(name + "," + gap + country, g) == Ok(Location.Coordinate(NotFinite, NotFinite))
  {
    assert ',' !in gap by {
      assert forall i :: 0 <= i < |gap| ==> IsSpace(gap[i]);
    }
    var parts := [name, gap + country];
    assert Join(parts, ',') == name + "," + gap + country;
    CommaPairRoundTrip(parts, g);
    Location.TrimStartAfterSpace(gap, country);
    ParseFloatNoNumber(name);
    ParseFloatNoNumber(gap + country);
  }

  /** A location without a comma is asked of the geocoder; no hit is a 500
      with "Location not found" and nothing stored. */
  lemma UnknownPlace(user: string, location: string, s: Services, rows: map<ForecastKey, ForecastRecord>)
    requires location != "" && ',' !in location
    requires s.geocode(location) == Location.Places([])
    ensures FetchForecast(Some(user), Some(location), s, rows) == Outcome(ServerError(LocationNotFound), rows)
    ensures Message(LocationNotFound) == Some("Location not found")
  {
    Messages();
  }

  /** A missing or empty location is a 500 with "User location not set". */
  lemma LocationRequired(user: string, location: Option<string>, s: Services, rows: map<ForecastKey, ForecastRecord>)
    requires location.None? || location.value == ""
    ensures FetchForecast(Some(user), location, s, rows) == Outcome(ServerError(LocationNotSet), rows)
  {
  }

  /** A forecast reply that is not ok stores nothing. */
  lemma NotOkStoresNothing(user: string, location: string, s: Services,
                           rows: map<ForecastKey, ForecastRecord>, at: Location.Coordinate)
    requires location != ""
    requires Coordinates(location, s.geocode) == Ok(at)
    requires s.forecast(at) == NotOk
    ensures FetchForecast(Some(user), Some(location), s, rows) == Outcome(ServerError(ForecastNotOk), rows)
    ensures Message(ForecastNotOk) == Some("Failed to fetch weather forecast")
  {
    Messages();
    Located(user, location, s, rows, at);
  }

  /** Once the location has coordinates, the rest is the forecast service's
      answer. */
  lemma Located(user: string, location: string, s: Services,
                rows: map<ForecastKey, ForecastRecord>, at: Location.Coordinate)
    requires location != ""
    requires Coordinates(location, s.geocode) == Ok(at)
    ensures FetchForecast(Some(user), Some(location), s, rows) == Answer(user, s.forecast(at), s.storeAccepted, rows)
  {
  }

  /** The `i`-th record carries the user, the `i`-th date, the `i`-th entry
      of each series and the label of the `i`-th precipitation. */
  lemma RecordFields(userId: string, d: Daily, i: nat)
    requires i < |d.time|
    ensures ForecastRecords(userId, d)[i].userId == userId
    ensures ForecastRecords(userId, d)[i].date == d.time[i]
    ensures ForecastRecords(userId, d)[i].precipitation == At(d.precipitation, i)
    ensures ForecastRecords(userId, d)[i].high == At(d.tempMax, i)
    ensures ForecastRecords(userId, d)[i].low == At(d.tempMin, i)
    ensures ForecastRecords(userId, d)[i].humidity == At(d.humidity, i)
    ensures ForecastRecords(userId, d)[i].windSpeed == At(d.windSpeed, i)
    ensures ForecastRecords(userId, d)[i].conditions == Rainy <==> i < |d.precipitation| && d.precipitation[i] > 10.0
    ensures ForecastRecords(userId, d)[i].conditions == Sunny <==> i >= |d.precipitation| || d.precipitation[i] <= 0.0
  {
  }

  /** The rows a stored batch leaves behind are keyed by this user and the
      dates of the series; when the dates are distinct, the row for the `i`-th
      date is the `i`-th record. */
  lemma {:induction false} StoredRows(userId: string, d: Daily)
    ensures forall k: ForecastKey :: k in BatchRows(ForecastBatch(userId, d)) <==> k.0 == userId && k.1 in d.time
    ensures (forall i, j :: 0 <= i < j < |d.time| ==> d.time[i] != d.time[j]) ==>
      forall i :: 0 <= i < |d.time| ==>
        BatchRows(ForecastBatch(userId, d))[(userId, d.time[i])] == ForecastRecords(userId, d)[i]
  {
    var b := ForecastBatch(userId, d);
    BatchRowsContent(b);
    StoredKeys(userId, d);
    if forall i, j :: 0 <= i < j < |d.time| ==> d.time[i] != d.time[j] {
      StoredValues(userId, d);
      forall i | 0 <= i < |d.time|
        ensures BatchRows(b)[(userId, d.time[i])] == ForecastRecords(userId, d)[i]
      {
        BatchEntry(userId, d, i);
      }
    }
  }

  /** The `i`-th batch entry: the `i`-th record under its own key. */
  lemma BatchEntry(userId: string, d: Daily, i: nat)
    requires i < |d.time|
    ensures ForecastBatch(userId, d)[i] == ((userId, d.time[i]), ForecastRecords(userId, d)[i])
  {
  }

  lemma StoredKeys(userId: string, d: Daily)
    ensures forall k: ForecastKey :: (exists i :: 0 <= i < |ForecastBatch(userId, d)| && ForecastBatch(userId, d)[i].0 == k) <==>
      k.0 == userId && k.1 in d.time
  {
    var b := ForecastBatch(userId, d);
    forall k: ForecastKey ensures (exists i :: 0 <= i < |b| && b[i].0 == k) <==> k.0 == userId && k.1 in d.time {
      if k.0 == userId && k.1 in d.time {
        var i :| 0 <= i < |d.time| && d.time[i] == k.1;
        BatchEntry(userId, d, i);
      }
      if exists i :: 0 <= i < |b| && b[i].0 == k {
        var i :| 0 <= i < |b| && b[i].0 == k;
        BatchEntry(userId, d, i);
      }
    }
  }

  lemma StoredValues(userId: string, d: Daily)
    requires forall i, j :: 0 <= i < j < |d.time| ==> d.time[i] != d.time[j]
    ensures forall i :: 0 <= i < |d.time| ==> KeyOnlyAt(ForecastBatch(userId, d), i)
  {
    var b := ForecastBatch(userId, d);
    forall i | 0 <= i < |d.time| ensures KeyOnlyAt(b, i) {
      forall j | 0 <= j < |b| && j != i ensures b[j].0 != b[i].0 {
        BatchEntry(userId, d, i);
        BatchEntry(userId, d, j);
        if j < i { assert d.time[j] != d.time[i]; } else { assert d.time[i] != d.time[j]; }
      }
    }
  }

  /** The batch repeats a conflict key exactly when the forecast repeats a
      date. */
  lemma BatchKeysDistinct(userId: string, d: Daily)
    ensures DistinctKeys(ForecastBatch(userId, d)) <==> DistinctDates(d)
  {
    var b := ForecastBatch(userId, d);
    forall i, j | 0 <= i < j < |d.time|
      ensures b[i].0 != b[j].0 <==> d.time[i] != d.time[j]
    {
      BatchEntry(userId, d, i);
      BatchEntry(userId, d, j);
    }
  }

  /** A successful call answers the records it built and overrides the
      table with exactly the batch's rows; an upsert the database rejects,
      which it does when two days share a date, is a 500 that leaves the
      table as it was. */
  lemma StoredForecast(user: string, location: string, s: Services,
                       rows: map<ForecastKey, ForecastRecord>, at: Location.Coordinate, d: Daily)
    requires location != ""
    requires Coordinates(location, s.geocode) == Ok(at)
    requires s.forecast(at) == ForecastBody(Some(d))
    ensures var o := FetchForecast(Some(user), Some(location), s, rows);
      if s.storeAccepted && DistinctDates(d) then
        o.reply == Success(ForecastRecords(user, d)) && o.rows == rows + BatchRows(ForecastBatch(user, d))
      else
        o.reply == ServerError(StoreFailed) && o.rows == rows
  {
    Located(user, location, s, rows, at);
    BatchKeysDistinct(user, d);
    if s.storeAccepted && DistinctKeys(ForecastBatch(user, d)) {
      UpsertAllOverrides(rows, ForecastBatch(user, d));
    }
  }

  /** Refreshing twice with the same answers stores what refreshing once
      stores. */
  lemma RefreshIsIdempotent(user: Option<string>, location: Option<string>, s: Services,
                            rows: map<ForecastKey, ForecastRecord>)
    ensures var once := FetchForecast(user, location, s, rows);
      FetchForecast(user, location, s, once.rows) == once
  {
    if user.Some? && location.Some? && location.value != "" {
      match Coordinates(location.value, s.geocode)
      case Err(_) =>
      case Ok(at) =>
        var r := s.forecast(at);
        if r.ForecastBody? && r.daily.Some? && s.storeAccepted && DistinctKeys(ForecastBatch(user.value, r.daily.value)) {
          UpsertAllIdempotent(rows, ForecastBatch(user.value, r.daily.value));
        }
    }
  }
}
