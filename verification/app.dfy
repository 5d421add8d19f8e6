/** The home screen's state and the decisions taken on it: whether a fetch
    result replaces the event list, how the fetch and the location request
    set the error message and the loading flag, which of four things the
    home screen shows, and which icon each tab gets. */
module App {
  import opened JsValues
  import opened Console
  import Events

  const FetchFailedMessage := "Failed to fetch events. Please try again later."
  const PermissionDeniedMessage := "Permission to access location was denied"
  const LocationFailedMessage := "Error getting current location"

  const FetchErrorLog := "Error fetching events:"
  const NoEventsWarning := "No events found in the API response or events array is empty"
  const LocationErrorLog := "Error getting current location:"

  const LoadingCaption := "Loading map..."
  const NoEventsCaption := "No events found or location not available."

  /** The permission status that lets the app ask for the position. */
  const Granted := "granted"

  datatype Coords = Coords(latitude: real, longitude: real)

  /** A device position as the location library reports it. */
  datatype Position = Position(coords: Coords)

  /** The four pieces of state of the app component. The events are kept as
      the JSON values the endpoint returned. */
  datatype AppState = AppState(
    events: seq<Json>,
    location: Option<Position>,
    errorMsg: Option<string>,
    loading: bool)

  datatype Step = Step(state: AppState, log: seq<Entry>)

  /** Before anything has settled: no events, no location, no error, loading. */
  function Initial(): (s: AppState)
    ensures s.loading && s.events == [] && s.location.None? && s.errorMsg.None?
  {
    AppState([], None, None, true)
  }

  /** How the event fetch ended: the request rejected, or a response arrived
      with its `ok` flag and, when read, its body (`None` where
      `response.json()` rejects). */
  datatype FetchOutcome =
    | RequestFailed
    | Response(ok: bool, body: Option<Json>)

  /** The outcomes that land in the `catch` block. */
  predicate FetchFails(outcome: FetchOutcome)
  {
    outcome.RequestFailed? || !outcome.ok || outcome.body.None?
  }

  /** `data && Array.isArray(data.events) && data.events.length > 0`, giving
      the array when it holds. */
  function AcceptedEvents(data: Json): (r: Option<seq<Json>>)
    ensures r.Some? <==>
      data.JObject? && "events" in data.fields && data.fields["events"].JArray? && |data.fields["events"].items| > 0
    ensures r.Some? ==> r.value == data.fields["events"].items
  {
    if !Truthy(data) then None
    else match Field(data, "events")
      case Some(JArray(items)) => if |items| > 0 then Some(items) else None
      case _ => None
  }

  /** `fetchData` once the request has settled. */
  function FetchSettled(s: AppState, outcome: FetchOutcome): (r: Step)
    ensures !r.state.loading
    ensures r.state.location == s.location
    ensures FetchFails(outcome) ==>
      r.state.events == s.events && r.state.errorMsg == Some(FetchFailedMessage) && r.log == [Error(FetchErrorLog)]
    ensures !FetchFails(outcome) ==> r.state.errorMsg == s.errorMsg
    ensures !FetchFails(outcome) && AcceptedEvents(outcome.body.value).Some? ==>
      r.state.events == AcceptedEvents(outcome.body.value).value && r.log == []
    ensures !FetchFails(outcome) && AcceptedEvents(outcome.body.value).None? ==>
      r.state.events == s.events && r.log == [Warning(NoEventsWarning)]
    ensures r.state.events != s.events ==> |r.state.events| > 0
  {
    match outcome
    case RequestFailed =>
      Step(s.(errorMsg := Some(FetchFailedMessage), loading := false), [Error(FetchErrorLog)])
    case Response(ok, body) =>
      if !ok || body.None? then
        Step(s.(errorMsg := Some(FetchFailedMessage), loading := false), [Error(FetchErrorLog)])
      else match AcceptedEvents(body.value)
        case Some(items) => Step(s.(events := items, loading := false), [])
        case None => Step(s.(loading := false), [Warning(NoEventsWarning)])
  }

  /** How the permission request ended. The request is awaited outside any
      `try`, so when it rejects the task just stops: nothing is logged and
      neither the error message nor the location is set. */
  datatype PermissionOutcome = PermissionRequestFailed | PermissionResolved(status: string)

  /** A status other than "granted" came back. */
  predicate Denied(permission: PermissionOutcome)
  {
    permission.PermissionResolved? && permission.status != Granted
  }

  /** How the position request ended, when it was made. */
  datatype PositionOutcome = PositionFailed | PositionFound(position: Position)

  /** The outcomes of the location task that set the error message. */
  predicate LocationFails(permission: PermissionOutcome, outcome: PositionOutcome)
  {
    Denied(permission) || (permission == PermissionResolved(Granted) && outcome.PositionFailed?)
  }

  /** The location task once it has settled: a rejected permission request
      changes nothing; a status other than "granted" sets the denial message
      and asks for no position; otherwise the position is stored, or its
      failure is logged and reported. */
  function LocationSettled(s: AppState, permission: PermissionOutcome, outcome: PositionOutcome): (r: Step)
    ensures r.state.events == s.events && r.state.loading == s.loading
    ensures permission.PermissionRequestFailed? ==> r.state == s && r.log == []
    ensures Denied(permission) ==>
      r.state.errorMsg == Some(PermissionDeniedMessage) && r.state.location == s.location && r.log == []
    ensures permission == PermissionResolved(Granted) && outcome.PositionFailed? ==>
      r.state.errorMsg == Some(LocationFailedMessage) && r.state.location == s.location && r.log == [Error(LocationErrorLog)]
    ensures permission == PermissionResolved(Granted) && outcome.PositionFound? ==>
      r.state.location == Some(outcome.position) && r.state.errorMsg == s.errorMsg && r.log == []
  {
    match permission
    case PermissionRequestFailed => Step(s, [])
    case PermissionResolved(status) =>
      if status != Granted then Step(s.(errorMsg := Some(PermissionDeniedMessage)), [])
      else match outcome
        case PositionFailed => Step(s.(errorMsg := Some(LocationFailedMessage)), [Error(LocationErrorLog)])
        case PositionFound(p) => Step(s.(location := Some(p)), [])
  }

  /** Both startup tasks from the initial state, in either order. */
  function Startup(fetch: FetchOutcome, permission: PermissionOutcome, position: PositionOutcome, fetchFirst: bool): AppState
  {
    if fetchFirst then LocationSettled(FetchSettled(Initial(), fetch).state, permission, position).state
    else FetchSettled(LocationSettled(Initial(), permission, position).state, fetch).state
  }

  /** The two tasks touch different state except the error message, so the
      order they settle in matters only when both fail. */
  lemma StartupOrderMattersOnlyWhenBothFail(fetch: FetchOutcome, permission: PermissionOutcome, position: PositionOutcome)
    requires !(FetchFails(fetch) && LocationFails(permission, position))
    ensures Startup(fetch, permission, position, true) == Startup(fetch, permission, position, false)
  {
  }

  /** When both fail, the message of the task that settles last is kept. */
  lemma StartupLastErrorWins(fetch: FetchOutcome, permission: PermissionOutcome, position: PositionOutcome)
    requires FetchFails(fetch) && LocationFails(permission, position)
    ensures Startup(fetch, permission, position, false).errorMsg == Some(FetchFailedMessage)
    ensures Startup(fetch, permission, position, true).errorMsg ==
      Some(if Denied(permission) then PermissionDeniedMessage else LocationFailedMessage)
  {
  }

  /** A rejected permission request leaves no trace: there is never a
      location, and the only possible error message is the fetch's. */
  lemma PermissionRequestFailureLeavesNoLocation(fetch: FetchOutcome, position: PositionOutcome, fetchFirst: bool)
    ensures
      var s := Startup(fetch, PermissionRequestFailed, position, fetchFirst);
      && s.location.None?
      && s.errorMsg == (if FetchFails(fetch) then Some(FetchFailedMessage) else None)
      && View(s) == (if FetchFails(fetch) then ErrorText(FetchFailedMessage) else NoEventsText)
  {
  }

  /** A map marker: `key`, coordinate, title and description read off one
      event with property access (`None` for an undefined property). */
  datatype Marker = Marker(
    key: Option<Json>,
    latitude: Option<Json>,
    longitude: Option<Json>,
    title: Option<Json>,
    description: Option<Json>)

  function MarkerOf(event: Json): Marker
  {
    Marker(Field(event, "id"), Field(event, "latitude"), Field(event, "longitude"),
           Field(event, "title"), Field(event, "description"))
  }

  /** `events.map(event => <Marker .../>)`: one marker per event, in order. */
  function Markers(events: seq<Json>): (r: seq<Marker>)
    ensures |r| == |events|
    ensures forall i :: 0 <= i < |events| ==> r[i] == MarkerOf(events[i])
  {
    if events == [] then [] else [MarkerOf(events[0])] + Markers(events[1..])
  }

  /** The marker of an event record carries that event's id, coordinates,
      title and description. */
  lemma MarkerOfEvent(e: Events.Event)
    ensures MarkerOf(Events.ToJson(e)) == Marker(
      Some(Events.IdToJson(e.id)), Some(JNumber(e.latitude)), Some(JNumber(e.longitude)),
      Some(JString(e.title)), Some(JString(e.description)))
  {
  }

  /** What the home screen shows. */
  datatype Screen =
    | LoadingText
    | ErrorText(message: string)
    | MapScreen(center: Coords, markers: seq<Marker>)
    | NoEventsText

  /** `errorMsg ? ... : ...`: only a non-empty message is shown. */
  predicate ShowsError(errorMsg: Option<string>)
  {
    errorMsg.Some? && errorMsg.value != ""
  }

  /** The priority rule of the map view: loading, then the error, then the
      map (which needs a location and at least one event), then the
      "no events" text. */
  function View(s: AppState): (v: Screen)
    ensures v.LoadingText? <==> s.loading
    ensures v.ErrorText? <==> !s.loading && ShowsError(s.errorMsg)
    ensures v.ErrorText? ==> s.errorMsg == Some(v.message)
    ensures v.MapScreen? <==> !s.loading && !ShowsError(s.errorMsg) && s.location.Some? && |s.events| > 0
    ensures v.MapScreen? ==> v.center == s.location.value.coords && v.markers == Markers(s.events)
    ensures v.NoEventsText? <==> !s.loading && !ShowsError(s.errorMsg) && (s.location.None? || s.events == [])
  {
    if s.loading then LoadingText
    else if ShowsError(s.errorMsg) then ErrorText(s.errorMsg.value)
    else if s.location.Some? && |s.events| > 0 then MapScreen(s.location.value.coords, Markers(s.events))
    else NoEventsText
  }

  /** The text on a screen that shows text. */
  function Caption(screen: Screen): (r: Option<string>)
    ensures r.None? <==> screen.MapScreen?
    ensures screen.ErrorText? ==> r == Some(screen.message)
    ensures screen.LoadingText? ==> r == Some(LoadingCaption)
    ensures screen.NoEventsText? ==> r == Some(NoEventsCaption)
    ensures LoadingCaption != NoEventsCaption && LoadingCaption != "" && NoEventsCaption != ""
  {
    match screen
    case LoadingText => Some(LoadingCaption)
    case ErrorText(m) => Some(m)
    case MapScreen(_, _) => None
    case NoEventsText => Some(NoEventsCaption)
  }

  /** Whatever the fetch outcome, the screen has left the loading text once
      the fetch has settled. */
  lemma NotLoadingAfterFetch(s: AppState, outcome: FetchOutcome)
    ensures View(FetchSettled(s, outcome).state) != LoadingText
  {
  }

  /** A fetch that returns events and a granted, found position show the map
      with one marker per fetched event, whichever task settles first. */
  lemma MapAfterSuccessfulStartup(data: Json, position: Position, fetchFirst: bool)
    requires AcceptedEvents(data).Some?
    ensures
      var screen := View(Startup(Response(true, Some(data)), PermissionResolved(Granted), PositionFound(position), fetchFirst));
      && screen.MapScreen?
      && screen.center == position.coords
      && |screen.markers| == |data.fields["events"].items|
      && forall i :: 0 <= i < |screen.markers| ==> screen.markers[i] == MarkerOf(data.fields["events"].items[i])
  {
  }

  /** A denied permission is shown as an error whenever the fetch itself
      succeeds, whichever task settles first. */
  lemma DeniedPermissionShown(fetch: FetchOutcome, permission: PermissionOutcome, position: PositionOutcome, fetchFirst: bool)
    requires Denied(permission) && !FetchFails(fetch)
    ensures View(Startup(fetch, permission, position, fetchFirst)) == ErrorText(PermissionDeniedMessage)
  {
  }

  /** The `tabBarIcon` name for a route: "home" for Home, "settings" for
      Settings, undefined for any other route. */
  function TabIcon(routeName: string): (icon: Option<string>)
    ensures icon == Some("home") <==> routeName == "Home"
    ensures icon == Some("settings") <==> routeName == "Settings"
    ensures icon.None? <==> routeName != "Home" && routeName != "Settings"
  {
    if routeName == "Home" then Some("home")
    else if routeName == "Settings" then Some("settings")
    else None
  }
}
