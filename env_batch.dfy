/** The `fetch-environmental-data` handler: every profile with a location is
    processed in turn (coordinates, Open-Meteo history, NASA POWER history,
    then the rainfall, vegetation and metrics rows); one profile's failure
    is caught and the batch goes on. */
module EnvBatch {
  import opened Wrappers
  import opened JsNumber
  import opened Tables
  import opened Location
  import opened Monthly
  import opened Rainfall
  import opened Vegetation
  import opened Metrics
  import opened Writes

  /** A `profiles` row selected by the handler (`location` is not null). */
  datatype Profile = Profile(id: string, location: string)

  /** The Open-Meteo call: `WeatherFailed` for a network error, a body that is
      not JSON, or a reply without `daily` (all of which throw). */
  datatype WeatherReply = WeatherFailed | WeatherOk(daily: Daily)

  /** The NASA POWER call: `PowerFailed` for a network error or a body that is
      not JSON; any JSON body is handed on unchecked. */
  datatype PowerReply = PowerFailed | PowerOk(power: Power)

  /** The outside services one run consults, as functions of their input. */
  datatype Services = Services(geocode: Geocoder, weather: Coordinate -> WeatherReply, power: Coordinate -> PowerReply)

  /** The profile query: an error (which the handler throws; `isError` tells
      whether it is an `Error` instance) or the rows. A missing database
      configuration fails the same way, before any profile is read. */
  datatype ProfileQuery = QueryFailed(isError: bool, message: string) | QueryRows(profiles: seq<Profile>)

  datatype Body = Message(text: string) | ErrorBody(error: string)
  datatype Response = Response(status: nat, body: Body)

  /** How one profile's processing ended; only the logs tell them apart. */
  datatype Outcome = Skipped | Failed | Processed

  /** The database refusals in force during a run, one set per table. */
  datatype Refusals = Refusals(rainfall: set<(string, string)>, vegetation: set<(string, string)>,
                               metrics: set<(string, MetricType)>)

  /** How the processing of `p` ends. */
  function UserOutcome(p: Profile, s: Services): Outcome {
    match GetCoordinates(p.location, s.geocode)
    case None => Skipped
    case Some(c) =>
      if s.weather(c).WeatherFailed? || s.power(c).PowerFailed? then Failed
      else if Malformed(s.power(c).power) then Failed
      else Processed
  }

  /** The rows written once both replies are in: the rainfall rows, then,
      unless the NASA reply is malformed, the vegetation and metrics rows. */
  function FetchedWrites(id: string, d: Daily, pw: Power, r: Refusals): Writes {
    var rain := RainfallWrites(id, d, r.rainfall);
    if Malformed(pw) then Writes(rain, map[], map[])
    else Writes(rain, VegetationWrites(id, pw, r.vegetation), MetricWrites(id, d.precipitation, r.metrics))
  }

  /** The rows the processing of `p` writes: nothing when it is skipped or a
      fetch fails, otherwise what the stores write. */
  function UserWrites(p: Profile, s: Services, r: Refusals): Writes {
    match GetCoordinates(p.location, s.geocode)
    case None => NoWrites
    case Some(c) =>
      match s.weather(c)
      case WeatherFailed => NoWrites
      case WeatherOk(d) =>
        match s.power(c)
        case PowerFailed => NoWrites
        case PowerOk(pw) => FetchedWrites(p.id, d, pw, r)
  }

  function PerUser(s: Services, r: Refusals): Profile -> Writes {
    p => UserWrites(p, s, r)
  }

  function UserOf(p: Profile): string {
    p.id
  }

  /** The rows a batch over `ps` writes, profile after profile. */
  function BatchWrites(ps: seq<Profile>, s: Services, r: Refusals): Writes {
    Fold(ps, PerUser(s, r))
  }

  /** The handler's reply: 500 with the error's message when the profile query
      fails, 200 otherwise, whatever happened to each profile. */
  function ResponseFor(q: ProfileQuery): Response {
    match q
    case QueryFailed(isError, message) =>
      Response(500, ErrorBody(if isError then message else "Unknown error occurred"))
    case QueryRows(ps) =>
      if ps == [] then Response(200, Message("No profiles with location data found"))
      else Response(200, Message("Environmental data fetch completed successfully"))
  }

  function RefusalsOf(rain: MonthTable, veg: MonthTable, met: MetricTable): Refusals
    reads rain, veg, met
  {
    Refusals(rain.refused, veg.refused, met.refused)
  }

  /** The three stores, in order, once both replies are in; `failed` when
      the vegetation store throws. */
  method StoreUser(id: string, d: Daily, pw: Power, rain: MonthTable, veg: MonthTable, met: MetricTable)
    returns (failed: bool)
    requires rain != veg
    modifies rain`rows, veg`rows, met`rows
    ensures failed == Malformed(pw)
    ensures rain.rows == old(rain.rows) + FetchedWrites(id, d, pw, RefusalsOf(rain, veg, met)).rainfall
    ensures veg.rows == old(veg.rows) + FetchedWrites(id, d, pw, RefusalsOf(rain, veg, met)).vegetation
    ensures met.rows == old(met.rows) + FetchedWrites(id, d, pw, RefusalsOf(rain, veg, met)).metrics
  {
    StoreRainfall(rain, id, d);
    failed := StoreVegetation(veg, id, pw);
    if failed {
      UnionEmpty(met.rows);
      return;
    }
    CalculateMetrics(met, id, d.precipitation);
  }

  /** One iteration of the loop over profiles, inside its `try`. */
  method ProcessUser(p: Profile, s: Services, rain: MonthTable, veg: MonthTable, met: MetricTable)
    returns (outcome: Outcome)
    requires rain != veg
    modifies rain`rows, veg`rows, met`rows
    ensures outcome == UserOutcome(p, s)
    ensures rain.rows == old(rain.rows) + UserWrites(p, s, RefusalsOf(rain, veg, met)).rainfall
    ensures veg.rows == old(veg.rows) + UserWrites(p, s, RefusalsOf(rain, veg, met)).vegetation
    ensures met.rows == old(met.rows) + UserWrites(p, s, RefusalsOf(rain, veg, met)).metrics
  {
    UnionEmpty(rain.rows);
    UnionEmpty(veg.rows);
    UnionEmpty(met.rows);
    var coords := GetCoordinates(p.location, s.geocode);
    if coords.None? {
      return Skipped;
    }
    var weather := s.weather(coords.value);
    if weather.WeatherFailed? {
      return Failed;
    }
    var nasa := s.power(coords.value);
    if nasa.PowerFailed? {
      return Failed;
    }
    var failed := StoreUser(p.id, weather.daily, nasa.power, rain, veg, met);
    outcome := if failed then Failed else Processed;
  }

  /** The rows a run of the handler writes: none when the profile query fails. */
  function BatchOf(q: ProfileQuery, s: Services, r: Refusals): Writes {
    if q.QueryRows? then BatchWrites(q.profiles, s, r) else NoWrites
  }

  /** The handler: query the profiles, then process each in turn. */
  method Serve(q: ProfileQuery, s: Services, rain: MonthTable, veg: MonthTable, met: MetricTable)
    returns (response: Response)
    requires rain != veg
    modifies rain`rows, veg`rows, met`rows
    ensures response == ResponseFor(q)
    ensures Contents(rain, veg, met) == Then(old(Contents(rain, veg, met)), BatchOf(q, s, RefusalsOf(rain, veg, met)))
  {
    UnionEmpty(rain.rows);
    UnionEmpty(veg.rows);
    UnionEmpty(met.rows);
    if q.QueryFailed? {
      return ResponseFor(q);
    }
    var ps := q.profiles;
    if ps == [] {
      return ResponseFor(q);
    }
    ProcessAll(ps, s, rain, veg, met);
    response := ResponseFor(q);
  }

  /** The loop over profiles: each is processed in turn, and its outcome is
      only logged. */
  method ProcessAll(ps: seq<Profile>, s: Services, rain: MonthTable, veg: MonthTable, met: MetricTable)
    requires rain != veg
    modifies rain`rows, veg`rows, met`rows
    ensures Contents(rain, veg, met) == Then(old(Contents(rain, veg, met)), BatchWrites(ps, s, RefusalsOf(rain, veg, met)))
  {
    var r := RefusalsOf(rain, veg, met);
    var f := PerUser(s, r);
    var start := Contents(rain, veg, met);
    UnionEmpty(rain.rows);
    UnionEmpty(veg.rows);
    UnionEmpty(met.rows);
    for i := 0 to |ps|
      invariant RefusalsOf(rain, veg, met) == r
      invariant Contents(rain, veg, met) == Then(start, Fold(ps[..i], f))
    {
      ProcessOne(ps[i], s, r, f, rain, veg, met);
      FoldStep(start, ps, f, i);
    }
    assert ps[..|ps|] == ps;
  }

  /** The rows of the three tables. */
  function Contents(rain: MonthTable, veg: MonthTable, met: MetricTable): Writes
    reads rain, veg, met
  {
    Writes(rain.rows, veg.rows, met.rows)
  }

  /** `ProcessUser` seen from the loop: the tables take `f(p)`'s rows. */
  method ProcessOne(p: Profile, s: Services, r: Refusals, f: Profile -> Writes,
                    rain: MonthTable, veg: MonthTable, met: MetricTable)
    requires rain != veg && r == RefusalsOf(rain, veg, met) && f == PerUser(s, r)
    modifies rain`rows, veg`rows, met`rows
    ensures Contents(rain, veg, met) == Then(old(Contents(rain, veg, met)), f(p))
  {
    var outcome := ProcessUser(p, s, rain, veg, met);
  }

  lemma FetchedWritesOwned(id: string, d: Daily, pw: Power, r: Refusals)
    ensures OwnedBy(FetchedWrites(id, d, pw, r), id)
  {
    RainfallWritesOwnUser(id, d, r.rainfall);
    if !Malformed(pw) {
      VegetationWritesOwnUser(id, pw, r.vegetation);
    }
  }

  /** Every row the processing of `p` writes is a row of `p`'s user. */
  lemma UserWritesOwned(p: Profile, s: Services, r: Refusals)
    ensures OwnedBy(UserWrites(p, s, r), p.id)
  {
    var c := GetCoordinates(p.location, s.geocode);
    if c.Some? && s.weather(c.value).WeatherOk? && s.power(c.value).PowerOk? {
      FetchedWritesOwned(p.id, s.weather(c.value).daily, s.power(c.value).power, r);
    }
  }

  /** Users are isolated: in what a batch writes, the rows of a user listed
      once are exactly the rows its own processing writes, whatever happened
      to the other profiles. */
  lemma BatchIsolatesUsers(ps: seq<Profile>, s: Services, r: Refusals, i: nat)
    requires i < |ps| && UniqueAt(ps, UserOf, i)
    ensures Own(BatchWrites(ps, s, r).rainfall, ps[i].id) == UserWrites(ps[i], s, r).rainfall
    ensures Own(BatchWrites(ps, s, r).vegetation, ps[i].id) == UserWrites(ps[i], s, r).vegetation
    ensures Own(BatchWrites(ps, s, r).metrics, ps[i].id) == UserWrites(ps[i], s, r).metrics
  {
    forall p ensures OwnedBy(PerUser(s, r)(p), UserOf(p)) {
      UserWritesOwned(p, s, r);
    }
    FoldIsolatesUsers(ps, PerUser(s, r), UserOf, i);
  }

  /** The reply depends on the profile query alone: 500 exactly when it
      fails, otherwise 200, with the completion message whenever there was a
      profile to process, however each profile fared. */
  lemma ResponseRule(q: ProfileQuery)
    ensures ResponseFor(q).status == 500 <==> q.QueryFailed?
    ensures ResponseFor(q).status == 200 <==> q.QueryRows?
    ensures q.QueryRows? && q.profiles != [] ==>
      ResponseFor(q).body == Message("Environmental data fetch completed successfully")
    ensures q == QueryRows([]) ==> ResponseFor(q).body == Message("No profiles with location data found")
    ensures q.QueryFailed? && q.isError ==> ResponseFor(q).body == ErrorBody(q.message)
  {
  }

  /** Running the handler again with the same profiles, replies and refusals
      leaves the tables as one run left them: every row is overwritten with the
      value it already holds, and no row is duplicated. */
  lemma RerunConverges(start: Writes, q: ProfileQuery, s: Services, r: Refusals)
    ensures Then(Then(start, BatchOf(q, s, r)), BatchOf(q, s, r)) == Then(start, BatchOf(q, s, r))
  {
    ThenTwice(start, BatchOf(q, s, r));
  }

  /** A profile whose location yields no coordinates is skipped: it writes
      nothing, and the batch writes what it would without that profile. */
  lemma SkippedProfile(ps: seq<Profile>, s: Services, r: Refusals, i: nat)
    requires i < |ps| && GetCoordinates(ps[i].location, s.geocode).None?
    ensures UserOutcome(ps[i], s) == Skipped
    ensures BatchWrites(ps[..i] + ps[i + 1..], s, r) == BatchWrites(ps, s, r)
  {
    assert PerUser(s, r)(ps[i]) == NoWrites;
    FoldSkip(ps, PerUser(s, r), i);
  }

  /** A fetch that fails stops the profile before any write. */
  lemma FailedFetchWritesNothing(p: Profile, s: Services, r: Refusals)
    requires GetCoordinates(p.location, s.geocode).Some?
    requires var c := GetCoordinates(p.location, s.geocode).value;
      s.weather(c).WeatherFailed? || s.power(c).PowerFailed?
    ensures UserOutcome(p, s) == Failed && UserWrites(p, s, r) == NoWrites
  {
  }

  /** Partial persistence: when the NASA reply is malformed the profile fails
      after its rainfall rows are written, and those rows stay. */
  lemma MalformedPowerKeepsRainfall(p: Profile, s: Services, r: Refusals)
    requires GetCoordinates(p.location, s.geocode).Some?
    requires var c := GetCoordinates(p.location, s.geocode).value;
      s.weather(c).WeatherOk? && s.power(c).PowerOk? && Malformed(s.power(c).power)
    ensures var c := GetCoordinates(p.location, s.geocode).value;
      && UserOutcome(p, s) == Failed
      && UserWrites(p, s, r) == Writes(RainfallWrites(p.id, s.weather(c).daily, r.rainfall), map[], map[])
  {
    var c := GetCoordinates(p.location, s.geocode).value;
    assert UserWrites(p, s, r) == FetchedWrites(p.id, s.weather(c).daily, s.power(c).power, r);
  }
}
