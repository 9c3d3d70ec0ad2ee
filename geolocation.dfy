/** The geolocation screen: it waits for one location fix from the platform's location
    service and returns its coordinates to the calling screen, or gives up with an error
    code on a missing permission, an unavailable service, a timeout or an interruption.
    Each platform callback is a method of GeolocationActivity; what the platform reports
    (grants, availability, fixes) arrives as arguments. */
module Geolocation {
  import opened JavaValues
  import opened Permissions

  /** Error codes passed to exitActivity. */
  const PERMISSIONS_NOT_GRANTED: int32 := 1
  const API_ERROR: int32 := 2
  const NEED_GOOGLE_PLAY_SERVICES: int32 := 3
  const PROCESS_INTERRUPTED: int32 := 4
  const TIMEOUT: int32 := 5

  /** Delay of the timeout timer. */
  const MILLISECONDS_TO_WAIT: int32 := 10000
  /** Interval and fastest interval of the location updates. */
  const UPDATE_INTERVAL_MS: int64 := 100

  /** Android's activity result codes. */
  const RESULT_OK: int32 := -1
  const RESULT_CANCELED: int32 := 0

  /** The availability code that means the location services are present and usable. */
  const SUCCESS: int32 := 0

  datatype ToastLength = Short | Long

  /** A message shown to the user, identified by the error code it explains. */
  datatype Toast = Toast(errorCode: int32, length: ToastLength)

  /** A result set with setResult: the code and the extras of the Intent (None for no Intent). */
  datatype ActivityResult = ActivityResult(code: int32, data: Option<map<string, Double>>)

  /** The result of every failed run: RESULT_CANCELED with an empty Intent. */
  const CANCELED_RESULT: ActivityResult := ActivityResult(RESULT_CANCELED, Some(map[]))

  /** The result of a run that obtained coordinates. */
  function CoordinatesResult(longitude: Double, latitude: Double): (result: ActivityResult) {
    ActivityResult(RESULT_OK, Some(map["LONGITUDE" := longitude, "LATITUDE" := latitude]))
  }

  /** A fix delivered by the location service. */
  datatype Location = Location(latitude: Double, longitude: Double)

  datatype Priority = HighAccuracy
  datatype LocationRequest = LocationRequest(priority: Priority, intervalMs: int64, fastestIntervalMs: int64)

  /** The request with which location updates are asked for once the client is connected. */
  const UPDATES_REQUEST: LocationRequest := LocationRequest(HighAccuracy, UPDATE_INTERVAL_MS, UPDATE_INTERVAL_MS)

  /** The timeout timer: not yet created, its one task still to run, run, or cancelled. */
  datatype TimerState = NoTimer | Pending(delayMs: int32) | Fired | Cancelled

  /** The location-service client: not built, built, or asked to connect. */
  datatype ClientState = NoClient | Built | Connecting

  /** What the calling screen and the user see of a run. */
  datatype Outcome = Outcome(result: ActivityResult, finishes: seq<ActivityResult>, toasts: seq<Toast>)

  /** The message exitActivity shows for an error code, if any. */
  function ExitToast(errorCode: int32): (toast: Option<Toast>)
    ensures toast.Some? <==> errorCode in {PERMISSIONS_NOT_GRANTED, API_ERROR, NEED_GOOGLE_PLAY_SERVICES, TIMEOUT}
    ensures toast.Some? ==> toast.value.errorCode == errorCode
    ensures toast.Some? ==> (toast.value.length == Long <==> errorCode == PERMISSIONS_NOT_GRANTED)
  {
    if errorCode == PERMISSIONS_NOT_GRANTED then Some(Toast(errorCode, Long))
    else if errorCode == API_ERROR || errorCode == NEED_GOOGLE_PLAY_SERVICES || errorCode == TIMEOUT then
      Some(Toast(errorCode, Short))
    else None  // PROCESS_INTERRUPTED, and any code the switch does not name
  }

  function Shown(toast: Option<Toast>): (shown: seq<Toast>) {
    if toast.Some? then [toast.value] else []
  }

  /** Effect of exitActivity on the outcome: cancelled result, one more finish, and the code's message if it has one. */
  function Exited(o: Outcome, errorCode: int32): (after: Outcome) {
    Outcome(CANCELED_RESULT, o.finishes + [CANCELED_RESULT], o.toasts + Shown(ExitToast(errorCode)))
  }

  /** Whatever the error code, exitActivity finishes once more with RESULT_CANCELED and an empty
      Intent, and it adds a message exactly when the code is not PROCESS_INTERRUPTED. */
  lemma ExitAlwaysCancels(o: Outcome, errorCode: int32)
    requires 1 <= errorCode <= 5
    ensures var o' := Exited(o, errorCode);
      o'.result == CANCELED_RESULT && o'.result.code == RESULT_CANCELED
      && o'.finishes == o.finishes + [CANCELED_RESULT]
      && (o'.toasts == o.toasts <==> errorCode == PROCESS_INTERRUPTED)
  {
  }

  /** Which error, if any, an availability code leads to. `userResolvable` is the platform's
      verdict on whether the user can fix the problem. */
  function PlayServicesVerdict(resultCode: int32, userResolvable: bool): (exit: Option<int32>)
    ensures exit.None? <==> resultCode == SUCCESS
    ensures exit.Some? ==> (exit.value == NEED_GOOGLE_PLAY_SERVICES <==> userResolvable)
    ensures exit.Some? ==> exit.value in {NEED_GOOGLE_PLAY_SERVICES, API_ERROR}
  {
    if resultCode != SUCCESS then
      if userResolvable then Some(NEED_GOOGLE_PLAY_SERVICES) else Some(API_ERROR)
    else None
  }

  /** Location permission is held when both location permissions are granted. */
  lemma LocationRequestsBothLocationPermissions(granted: set<Permission>)
    ensures Requested(LOCATION) == [AccessFineLocation, AccessCoarseLocation]
    ensures AllGranted(Requested(LOCATION), granted)
            <==> AccessFineLocation in granted && AccessCoarseLocation in granted
  {
    RequestedShape(LOCATION);
    assert Requested(LOCATION)[0] == AccessFineLocation && Requested(LOCATION)[1] == AccessCoarseLocation;
  }

  predicate LocationGranted(granted: set<Permission>) {
    AccessFineLocation in granted && AccessCoarseLocation in granted
  }

  class GeolocationActivity {
    /** The result set by the last setResult; an activity starts with RESULT_CANCELED and no Intent. */
    var result: ActivityResult
    /** The result in force at each call of finish(), oldest first. */
    var finishes: seq<ActivityResult>
    /** Messages shown, oldest first. */
    var toasts: seq<Toast>
    var timer: TimerState
    var client: ClientState
    /** The request for location updates, once updates have been asked for. */
    var locationRequest: Option<LocationRequest>
    var longitude: Double
    var latitude: Double

    function CurrentOutcome(): Outcome
      reads this
    {
      Outcome(result, finishes, toasts)
    }

    constructor ()
      ensures CurrentOutcome() == Outcome(ActivityResult(RESULT_CANCELED, None), [], [])
      ensures timer == NoTimer && client == NoClient && locationRequest == None
      ensures longitude == ZERO && latitude == ZERO
    {
      result := ActivityResult(RESULT_CANCELED, None);
      finishes := [];
      toasts := [];
      timer := NoTimer;
      client := NoClient;
      locationRequest := None;
      longitude := ZERO;
      latitude := ZERO;
    }

    /** Asks for location permission, leaving when it is not held, and then (even when it was
        not held) builds the client and starts the timer. */
    method OnCreate(utility: PermissionsUtility, granted: set<Permission>)
      modifies this`result, this`finishes, this`toasts, this`client, this`timer, utility
      ensures utility.activity == this
      ensures utility.requests ==
        if LocationGranted(granted) then old(utility.requests)
        else old(utility.requests) + [PermissionRequest(this, [AccessFineLocation, AccessCoarseLocation], ALL)]
      ensures CurrentOutcome() ==
        if LocationGranted(granted) then old(CurrentOutcome()) else Exited(old(CurrentOutcome()), PERMISSIONS_NOT_GRANTED)
      ensures client == Built && timer == Pending(MILLISECONDS_TO_WAIT)
    {
      LocationRequestsBothLocationPermissions(granted);
      var ok := utility.GetPermissions(this, LOCATION, granted);
      assert ok == LocationGranted(granted);
      if !ok {
        ExitActivity(PERMISSIONS_NOT_GRANTED);
      }
      BuildApiClient();
      StartTimer();
    }

    method BuildApiClient()
      modifies this`client
      ensures client == Built
    {
      client := Built;
    }

    /** Schedules the one timeout task; its running is OnTimerFired. */
    method StartTimer()
      modifies this`timer
      ensures timer == Pending(MILLISECONDS_TO_WAIT)
    {
      timer := Pending(MILLISECONDS_TO_WAIT);
    }

    /** The timeout task runs: the activity exits with TIMEOUT. */
    method OnTimerFired()
      requires timer.Pending?
      modifies this`timer, this`result, this`finishes, this`toasts
      ensures timer == Fired
      ensures CurrentOutcome() == Exited(old(CurrentOutcome()), TIMEOUT)
    {
      timer := Fired;
      ExitActivity(TIMEOUT);
    }

    /** Connects the client when there is one, and otherwise exits with API_ERROR. */
    method OnStart()
      modifies this`client, this`result, this`finishes, this`toasts
      ensures old(client) != NoClient ==> client == Connecting && CurrentOutcome() == old(CurrentOutcome())
      ensures old(client) == NoClient ==> client == NoClient && CurrentOutcome() == Exited(old(CurrentOutcome()), API_ERROR)
    {
      if client != NoClient {
        client := Connecting;
      } else {
        ExitActivity(API_ERROR);
      }
    }

    /** Checks the location services, given the availability code the platform reports. */
    method OnResume(resultCode: int32, userResolvable: bool)
      modifies this`result, this`finishes, this`toasts
      ensures CurrentOutcome() == match PlayServicesVerdict(resultCode, userResolvable)
                           case None => old(CurrentOutcome())
                           case Some(errorCode) => Exited(old(CurrentOutcome()), errorCode)
    {
      CheckPlayServices(resultCode, userResolvable);
    }

    /** Exits with NEED_GOOGLE_PLAY_SERVICES or API_ERROR unless the services are available. */
    method CheckPlayServices(resultCode: int32, userResolvable: bool)
      modifies this`result, this`finishes, this`toasts
      ensures CurrentOutcome() == match PlayServicesVerdict(resultCode, userResolvable)
                           case None => old(CurrentOutcome())
                           case Some(errorCode) => Exited(old(CurrentOutcome()), errorCode)
    {
      var exit := PlayServicesVerdict(resultCode, userResolvable);
      if exit.Some? {
        ExitActivity(exit.value);
      }
    }

    /** Cancels the timer, then exits with PROCESS_INTERRUPTED (no message). The timer exists
        because onCreate always precedes onStop. */
    method OnStop()
      requires timer != NoTimer
      modifies this`timer, this`result, this`finishes, this`toasts
      ensures timer == Cancelled
      ensures CurrentOutcome() == Exited(old(CurrentOutcome()), PROCESS_INTERRUPTED)
    {
      timer := Cancelled;
      ExitActivity(PROCESS_INTERRUPTED);
    }

    /** The client is connected: location updates are asked for every 100 ms at high accuracy. */
    method OnConnected()
      modifies this`locationRequest
      ensures locationRequest == Some(UPDATES_REQUEST)
    {
      locationRequest := Some(UPDATES_REQUEST);
    }

    /** A null location is ignored; a fix is stored and returned to the caller. */
    method OnLocationChanged(location: Option<Location>)
      modifies this`longitude, this`latitude, this`result, this`finishes
      ensures location.None? ==>
        longitude == old(longitude) && latitude == old(latitude) && CurrentOutcome() == old(CurrentOutcome())
      ensures location.Some? ==>
        longitude == location.value.longitude && latitude == location.value.latitude
        && result == CoordinatesResult(location.value.longitude, location.value.latitude)
        && finishes == old(finishes) + [result]
    {
      if location.Some? {
        longitude := location.value.longitude;
        latitude := location.value.latitude;
        ReturnGeolocation();
      }
    }

    /** Finishes with RESULT_OK and the stored coordinates as LONGITUDE and LATITUDE extras.
        The timer is left running. */
    method ReturnGeolocation()
      modifies this`result, this`finishes
      ensures result == CoordinatesResult(longitude, latitude)
      ensures finishes == old(finishes) + [result]
    {
      result := CoordinatesResult(longitude, latitude);
      finishes := finishes + [result];
    }

    /** Shows the code's message, if it has one, and finishes with RESULT_CANCELED. */
    method ExitActivity(errorCode: int32)
      modifies this`result, this`finishes, this`toasts
      ensures result == CANCELED_RESULT
      ensures finishes == old(finishes) + [CANCELED_RESULT]
      ensures toasts == old(toasts) + Shown(ExitToast(errorCode))
    {
      var toast := ExitToast(errorCode);
      if toast.Some? {
        toasts := toasts + [toast.value];
      }
      result := CANCELED_RESULT;
      finishes := finishes + [result];
    }
  }

  /** A run without location permission: onCreate exits but still starts the timer, which
      later makes the activity exit a second time. Android delivers no onStart after a finish
      inside onCreate, so none is sent here. */
  method PermissionDeniedRun(granted: set<Permission>)
    returns (finishes: seq<ActivityResult>, toasts: seq<Toast>, requests: seq<PermissionRequest>)
    requires AccessFineLocation !in granted
    ensures finishes == [CANCELED_RESULT, CANCELED_RESULT]
    ensures toasts == [Toast(PERMISSIONS_NOT_GRANTED, Long), Toast(TIMEOUT, Short)]
    ensures |requests| == 1
    ensures requests[0].permissions == [AccessFineLocation, AccessCoarseLocation] && requests[0].requestCode == ALL
  {
    var utility := new PermissionsUtility();
    var activity := new GeolocationActivity();
    activity.OnCreate(utility, granted);
    activity.OnTimerFired();
    finishes, toasts, requests := activity.finishes, activity.toasts, utility.requests;
  }

  /** A run that gets a fix: the activity finishes with RESULT_OK and the coordinates; the
      onStop that follows finishing exits again, silently, leaving RESULT_CANCELED set. */
  method FixThenStopRun(granted: set<Permission>, fix: Location)
    returns (finishes: seq<ActivityResult>, toasts: seq<Toast>, lastResult: ActivityResult)
    requires LocationGranted(granted)
    ensures finishes == [CoordinatesResult(fix.longitude, fix.latitude), CANCELED_RESULT]
    ensures toasts == []
    ensures lastResult == CANCELED_RESULT
  {
    var utility := new PermissionsUtility();
    var activity := new GeolocationActivity();
    activity.OnCreate(utility, granted);
    activity.OnStart();
    activity.OnResume(SUCCESS, false);
    activity.OnConnected();
    activity.OnLocationChanged(None);
    activity.OnLocationChanged(Some(fix));
    activity.OnStop();
    finishes, toasts, lastResult := activity.finishes, activity.toasts, activity.result;
  }
}
