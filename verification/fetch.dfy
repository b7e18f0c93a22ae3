/** `MapPosterGenerator.fetch_map_data`: resolving the location, choosing the road filter, and
    the three-attempt retry loop around geocoding and street-graph retrieval. */
module Fetch {
  import opened Wrappers

  const MaxRetries: nat := 3
  const RetryDelaySeconds: nat := 5

  /** Above this radius (metres) only major roads are requested. */
  const FilterThreshold: int := 6000
  const MajorRoadFilter: string := "[\"highway\"~\"motorway|trunk|primary|secondary\"]"

  datatype Point = Point(lat: real, lon: real)

  /** The display label of the resolved place: the location text itself, or the coordinate
      string formatted from `lat` and `lon` (kept abstract: for finite coordinates its text has no
      cased letters). */
  datatype Label = Written(text: string) | Coordinates(lat: real, lon: real)

  /** An exception raised by a remote service. */
  datatype Fault = Fault(message: string)

  /** An opaque street network handle. */
  datatype Graph = Graph(id: nat)

  /** What the remote services answer during one attempt. */
  datatype Service = Service(geocode: Result<Point, Fault>, graph: Result<Graph, Fault>)

  datatype FetchError =
    | LocationMissing        // the ValueError for neither location nor coordinates
    | Remote(fault: Fault)

  datatype Fetched = Fetched(graph: Graph, place: Label, center: Point)

  /** The external effects of the fetch, in the order they happen. */
  datatype Call =
    | Geocode(query: string)
    | GraphFromPoint(center: Point, dist: int, filter: Option<string>)
    | Sleep(seconds: nat)

  /** The result and the calls of one pass through the `try` block. */
  datatype Try = Try(outcome: Result<Fetched, FetchError>, calls: seq<Call>)

  /** `if location:` — a location is used only when it is a non-empty string. */
  predicate Named(location: Option<string>) {
    location.Some? && location.value != ""
  }

  /** A radius above 6000 m selects the major-road filter; 6000 m or less selects none. */
  function RoadFilter(radius: int): (f: Option<string>)
    ensures f.Some? <==> radius > 6000
    ensures f.Some? ==> f.value == MajorRoadFilter
  {
    if radius > FilterThreshold then Some(MajorRoadFilter) else None
  }

  /** Loads the street graph around a resolved center. */
  function LoadGraph(service: Service, center: Point, place: Label, radius: int, before: seq<Call>): Try {
    var calls := before + [GraphFromPoint(center, radius, RoadFilter(radius))];
    match service.graph
    case Failure(f) => Try(Failure(Remote(f)), calls)
    case Success(g) => Try(Success(Fetched(g, place, center)), calls)
  }

  /** One pass through the `try` block: a named location is geocoded, and a failed geocoding ends
      the attempt; a geocoded location, or else two given coordinates, always leads to the graph
      request at that center; with neither, the attempt fails with LocationMissing and calls nothing.
      It succeeds exactly when it reaches the graph request and that request answers, and then ends
      with that request; a remote failure carries the fault of the service that raised it. */
  function Attempt(service: Service, location: Option<string>, lat: Option<real>, lon: Option<real>, radius: int)
    : (t: Try)
    ensures |t.calls| <= 2
    ensures t.outcome.Success? <==>
      |t.calls| >= 1 && t.calls[|t.calls| - 1].GraphFromPoint? && service.graph.Success?
    ensures t.outcome.Success? ==>
      && t.outcome.value.graph == service.graph.value
      && t.calls[|t.calls| - 1] == GraphFromPoint(t.outcome.value.center, radius, RoadFilter(radius))
    ensures t.outcome.Failure? && t.outcome.error.Remote? ==>
      || (service.geocode.Failure? && t.outcome.error.fault == service.geocode.error)
      || (service.graph.Failure? && t.outcome.error.fault == service.graph.error)
    ensures Named(location) && service.geocode.Failure? ==>
      t == Try(Failure(Remote(service.geocode.error)), [Geocode(location.value)])
    ensures Named(location) && service.geocode.Success? ==>
      t.calls == [Geocode(location.value), GraphFromPoint(service.geocode.value, radius, RoadFilter(radius))]
    ensures !Named(location) && lat.Some? && lon.Some? ==>
      t.calls == [GraphFromPoint(Point(lat.value, lon.value), radius, RoadFilter(radius))]
    ensures t.outcome == Failure(LocationMissing) <==> !Named(location) && (lat.None? || lon.None?)
  {
    if Named(location) then
      var query := location.value;
      match service.geocode
      case Failure(f) => Try(Failure(Remote(f)), [Geocode(query)])
      case Success(center) => LoadGraph(service, center, Written(query), radius, [Geocode(query)])
    else if lat.Some? && lon.Some? then
      LoadGraph(service, Point(lat.value, lon.value), Coordinates(lat.value, lon.value), radius, [])
    else
      Try(Failure(LocationMissing), [])
  }

  /** Location precedence within one attempt: a named location is geocoded and the coordinates
      are ignored; otherwise both coordinates are used as given, with no geocoding, and the attempt
      succeeds iff the graph request answers; otherwise the attempt fails with LocationMissing
      before calling anything. Every graph request carries the radius and its road filter. */
  lemma LocationPrecedence(service: Service, location: Option<string>, lat: Option<real>, lon: Option<real>,
                           radius: int)
    ensures var t := Attempt(service, location, lat, lon, radius);
      && (Named(location) ==>
            && |t.calls| >= 1 && t.calls[0] == Geocode(location.value)
            && (t.outcome.Success? ==>
                  && service.geocode.Success?
                  && t.outcome.value.center == service.geocode.value
                  && t.outcome.value.place == Written(location.value)))
      && (!Named(location) ==> forall i :: 0 <= i < |t.calls| ==> !t.calls[i].Geocode?)
      && (Named(location) ==> t == Attempt(service, location, None, None, radius))
      && (Named(location) && service.geocode.Success? ==> (t.outcome.Success? <==> service.graph.Success?))
      && (!Named(location) && lat.Some? && lon.Some? ==> (t.outcome.Success? <==> service.graph.Success?))
      && (!Named(location) && lat.Some? && lon.Some? && t.outcome.Success? ==>
            && t.outcome.value.center == Point(lat.value, lon.value)
            && t.outcome.value.place == Coordinates(lat.value, lon.value))
      && (!Named(location) && (lat.None? || lon.None?) ==> t == Try(Failure(LocationMissing), []))
      && (forall i :: 0 <= i < |t.calls| && t.calls[i].GraphFromPoint? ==>
            t.calls[i].filter == RoadFilter(radius) && t.calls[i].dist == radius)
  {
  }

  /** An attempt never waits and keeps the call discipline. */
  lemma AttemptIsQuiet(service: Service, location: Option<string>, lat: Option<real>, lon: Option<real>,
                       radius: int)
    ensures var t := Attempt(service, location, lat, lon, radius);
      Disciplined(t.calls, location, radius) && Sleeps(t.calls) == 0
  {
    var t := Attempt(service, location, lat, lon, radius);
    LocationPrecedence(service, location, lat, lon, radius);
    assert forall i :: 0 <= i < |t.calls| ==> !t.calls[i].Sleep?;
    NoSleeps(t.calls);
  }

  /** The number of waits among the calls. */
  function Sleeps(calls: seq<Call>): nat {
    if calls == [] then 0
    else Sleeps(calls[..|calls| - 1]) + (if calls[|calls| - 1].Sleep? then 1 else 0)
  }

  lemma {:induction false} SleepsAppend(a: seq<Call>, b: seq<Call>)
    ensures Sleeps(a + b) == Sleeps(a) + Sleeps(b)
    decreases |b|
  {
    if b == [] {
      assert a + b == a;
    } else {
      var b' := b[..|b| - 1];
      assert (a + b)[..|a + b| - 1] == a + b';
      SleepsAppend(a, b');
    }
  }

  /** No call of an attempt is a wait. */
  lemma {:induction false} NoSleeps(calls: seq<Call>)
    requires forall i :: 0 <= i < |calls| ==> !calls[i].Sleep?
    ensures Sleeps(calls) == 0
    decreases |calls|
  {
    if calls != [] {
      NoSleeps(calls[..|calls| - 1]);
    }
  }

  /** The shape every stretch of calls has: waits last five seconds, graph requests carry the
      radius's filter, and nothing is geocoded unless a location is named. */
  predicate Disciplined(calls: seq<Call>, location: Option<string>, radius: int) {
    && (forall i :: 0 <= i < |calls| && calls[i].Sleep? ==> calls[i].seconds == RetryDelaySeconds)
    && (forall i :: 0 <= i < |calls| && calls[i].GraphFromPoint? ==> calls[i].filter == RoadFilter(radius))
    && (!Named(location) ==> forall i :: 0 <= i < |calls| ==> !calls[i].Geocode?)
  }

  lemma DisciplinedAppend(a: seq<Call>, b: seq<Call>, location: Option<string>, radius: int)
    requires Disciplined(a, location, radius) && Disciplined(b, location, radius)
    ensures Disciplined(a + b, location, radius)
  {
    assert forall i :: |a| <= i < |a + b| ==> (a + b)[i] == b[i - |a|];
  }

  /** An attempt's calls contain no wait. */
  predicate Quiet(t: Try) {
    Sleeps(t.calls) == 0
  }

  /** The calls of a run of attempts, with a five-second wait between consecutive attempts. */
  function Joined(ts: seq<Try>): seq<Call> {
    if |ts| == 0 then []
    else if |ts| == 1 then ts[0].calls
    else Joined(ts[..|ts| - 1]) + [Sleep(RetryDelaySeconds)] + ts[|ts| - 1].calls
  }

  lemma JoinedStep(ts: seq<Try>, k: nat)
    requires 1 <= k < |ts|
    ensures Joined(ts[..k + 1]) == Joined(ts[..k]) + [Sleep(RetryDelaySeconds)] + ts[k].calls
  {
    assert ts[..k + 1][..k] == ts[..k];
  }

  /** Joined quiet attempts hold one wait fewer than there are attempts. */
  lemma {:induction false} JoinedSleeps(ts: seq<Try>)
    requires |ts| >= 1
    requires forall j :: 0 <= j < |ts| ==> Quiet(ts[j])
    ensures Sleeps(Joined(ts)) == |ts| - 1
    decreases |ts|
  {
    if |ts| > 1 {
      var init := ts[..|ts| - 1];
      JoinedSleeps(init);
      SleepsAppend(Joined(init), [Sleep(RetryDelaySeconds)]);
      SleepsAppend(Joined(init) + [Sleep(RetryDelaySeconds)], ts[|ts| - 1].calls);
      assert Sleeps([Sleep(RetryDelaySeconds)]) == Sleeps([]) + 1;
    }
  }

  /** Joining disciplined attempts keeps the discipline. */
  lemma {:induction false} JoinedDisciplined(ts: seq<Try>, location: Option<string>, radius: int)
    requires forall j :: 0 <= j < |ts| ==> Disciplined(ts[j].calls, location, radius)
    ensures Disciplined(Joined(ts), location, radius)
    decreases |ts|
  {
    if |ts| > 1 {
      var init := ts[..|ts| - 1];
      JoinedDisciplined(init, location, radius);
      DisciplinedAppend(Joined(init), [Sleep(RetryDelaySeconds)], location, radius);
      DisciplinedAppend(Joined(init) + [Sleep(RetryDelaySeconds)], ts[|ts| - 1].calls, location, radius);
    }
  }

  /** The retry loop of `fetch_map_data`, over the results each attempt would have: attempts run
      in order until one succeeds or three have failed, with a five-second wait after each failed
      attempt but the last; the last attempt's error is re-raised. */
  method Retry(tries: seq<Try>, location: Option<string>, radius: int)
    returns (r: Result<Fetched, FetchError>, calls: seq<Call>, attempts: nat)
    requires |tries| == MaxRetries
    requires forall j :: 0 <= j < |tries| ==> Quiet(tries[j]) && Disciplined(tries[j].calls, location, radius)
    ensures 1 <= attempts <= MaxRetries
    ensures forall j :: 0 <= j < attempts - 1 ==> tries[j].outcome.Failure?
    ensures r == tries[attempts - 1].outcome
    ensures r.Failure? ==> attempts == MaxRetries
    ensures calls == Joined(tries[..attempts])
    ensures Sleeps(calls) == attempts - 1
    ensures Disciplined(calls, location, radius)
  {
    calls := [];
    var attempt: nat := 0;
    while true
      invariant attempt < MaxRetries
      invariant forall j :: 0 <= j < attempt ==> tries[j].outcome.Failure?
      invariant attempt == 0 ==> calls == []
      invariant attempt > 0 ==> calls == Joined(tries[..attempt]) + [Sleep(RetryDelaySeconds)]
      decreases MaxRetries - attempt
    {
      var t := tries[attempt];
      if attempt == 0 {
        assert calls + t.calls == Joined(tries[..1]);
      } else {
        JoinedStep(tries, attempt);
      }
      calls := calls + t.calls;
      if t.outcome.Success? || attempt == MaxRetries - 1 {
        attempts := attempt + 1;
        r := t.outcome;
        JoinedSleeps(tries[..attempts]);
        JoinedDisciplined(tries[..attempts], location, radius);
        return;
      }
      calls := calls + [Sleep(RetryDelaySeconds)];
      attempt := attempt + 1;
    }
  }

  /** One attempt per service answer, in order. */
  function Attempts(services: seq<Service>, location: Option<string>, lat: Option<real>, lon: Option<real>,
                    radius: int): seq<Try>
  {
    seq(|services|, j requires 0 <= j < |services| => Attempt(services[j], location, lat, lon, radius))
  }

  lemma AttemptsAreQuiet(services: seq<Service>, location: Option<string>, lat: Option<real>, lon: Option<real>,
                         radius: int)
    ensures var ts := Attempts(services, location, lat, lon, radius);
      && |ts| == |services|
      && forall j :: 0 <= j < |ts| ==> Quiet(ts[j]) && Disciplined(ts[j].calls, location, radius)
  {
    var ts := Attempts(services, location, lat, lon, radius);
    forall j | 0 <= j < |ts|
      ensures Quiet(ts[j]) && Disciplined(ts[j].calls, location, radius)
    {
      AttemptIsQuiet(services[j], location, lat, lon, radius);
    }
  }

  /** `fetch_map_data`: the retry loop around one `try` block per attempt. */
  method FetchMapData(services: seq<Service>, location: Option<string>, lat: Option<real>, lon: Option<real>,
                      radius: int)
    returns (r: Result<Fetched, FetchError>, calls: seq<Call>, attempts: nat)
    requires |services| == MaxRetries
    ensures 1 <= attempts <= MaxRetries
    ensures forall j :: 0 <= j < attempts - 1 ==> Attempt(services[j], location, lat, lon, radius).outcome.Failure?
    ensures r == Attempt(services[attempts - 1], location, lat, lon, radius).outcome
    ensures r.Failure? ==> attempts == MaxRetries
    ensures calls == Joined(Attempts(services, location, lat, lon, radius)[..attempts])
    ensures Sleeps(calls) == attempts - 1
    ensures Disciplined(calls, location, radius)
  {
    var tries := Attempts(services, location, lat, lon, radius);
    AttemptsAreQuiet(services, location, lat, lon, radius);
    r, calls, attempts := Retry(tries, location, radius);
    assert forall j :: 0 <= j < attempts - 1 ==> tries[j] == Attempt(services[j], location, lat, lon, radius);
  }
}
