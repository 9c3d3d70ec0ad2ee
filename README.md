# Field notes: permission decoding, the Stop record and the geolocation screen

A Dafny model of the three pieces of the field-notes Android app that hold logic of their own:

- **Permissions** (`permissions.dfy`): the permission utility. A request mask built from the flags
  `CAMERA` (1), `EXTERNAL_STORAGE` (2) and `LOCATION` (4) is decoded into an ordered list of
  Android permission names. The list is copied into an array with an index loop, and the array is
  scanned against what the platform has granted. When something is missing, one permission
  request with request code `ALL` (decimal 111) is issued. The list is specified as the catalogue
  of all five names filtered by the mask. The if-chain that builds it is proved equal to that
  filter. Lemmas then state what the list holds, in what order, how long it is, and that other
  mask bits have no effect. The utility's static `activity` field and the requests it issues are
  the state of the class `PermissionsUtility`.
- **Stops** (`stop.dfy`): the `Stop` entity as a class with the source's eight fields and its
  three constructors: in memory, from the database, and key only. Each setter's frame is just
  the fields it assigns, and its postcondition gives the whole new state as the old state with
  those fields replaced. The view model's two synchronous queries are a value (`ViewModel`):
  the stored rows by key, and a function from a parent key to its pictures.
- **Geolocation** (`geolocation.dfy`): the geolocation screen as an event-driven class. Each
  lifecycle or platform callback is a method. The state is the result last set, the result in
  force at every `finish()` call, the messages shown, the timer, the client, the location
  request and the stored coordinates. The error-code switch of `exitActivity` and the
  availability classification of `checkPlayServices` are pure functions.
- `java_values.dfy` holds the Java value types: `int32`, `int64`, `Double` (opaque 64 bits),
  and `Option` for references that may be null.

The code does not guarantee one outcome per run, so the model does not promise one. `onCreate`
carries on after `exitActivity(PERMISSIONS_NOT_GRANTED)`: it builds the client and starts the
timer anyway, and that timer later exits the screen a second time. Nothing in the code prevents a
second exit, and neither `returnGeolocation` nor `exitActivity` cancels the timer; only `onStop`
does. After `returnGeolocation` has finished a started screen, the `onStop` that follows exits
once more. The two `...Run` methods in `geolocation.dfy` show two such runs, each of which calls
`finish()` twice. The model follows the code.

## Model

| member | source | states |
|---|---|---|
| `Permissions.FlagsAreDistinctSingleBits` | app/src/main/java/com/example/fieldnotes/utilities/PermissionsUtility.java:49-51 | CAMERA, EXTERNAL_STORAGE and LOCATION are 1, 2 and 4. Each is a single bit and no two share a bit. |
| `Permissions.AllRequestsEverything` | app/src/main/java/com/example/fieldnotes/utilities/PermissionsUtility.java:45-51 | ALL (111) has all three flag bits set, so as a mask it requests the whole catalogue. It is not the plain union 7 of the flags. |
| `Permissions.ListedIffFlagSet` | app/src/main/java/com/example/fieldnotes/utilities/PermissionsUtility.java:71-81 | A permission name is in the decoded list iff the mask has its group's flag set (CAMERA iff `(request & CAMERA) == CAMERA`, and likewise for the two pairs). |
| `Permissions.RequestedShape` | app/src/main/java/com/example/fieldnotes/utilities/PermissionsUtility.java:71-81 | The filtered catalogue is the camera group, then the storage pair, then the location pair, each present iff its flag is set. |
| `Permissions.StoragePairIff` | app/src/main/java/com/example/fieldnotes/utilities/PermissionsUtility.java:74-77 | WRITE_EXTERNAL_STORAGE immediately followed by READ_EXTERNAL_STORAGE occurs iff the EXTERNAL_STORAGE bit is set. |
| `Permissions.LocationPairIff` | app/src/main/java/com/example/fieldnotes/utilities/PermissionsUtility.java:78-81 | ACCESS_FINE_LOCATION immediately followed by ACCESS_COARSE_LOCATION occurs iff the LOCATION bit is set. |
| `Permissions.RequestedLength` | app/src/main/java/com/example/fieldnotes/utilities/PermissionsUtility.java:71-81 | The list has length [camera] + 2·[storage] + 2·[location]. |
| `Permissions.OtherBitsIgnored` | app/src/main/java/com/example/fieldnotes/utilities/PermissionsUtility.java:71-81 | Setting mask bits other than 1, 2 and 4 does not change the list. |
| `Permissions.RequestedInCatalogueOrder` | app/src/main/java/com/example/fieldnotes/utilities/PermissionsUtility.java:71-81 | Entries are in strictly increasing catalogue position: camera, then storage, then location, with no name twice. |
| `Permissions.EmptyRequestIsGranted` | app/src/main/java/com/example/fieldnotes/utilities/PermissionsUtility.java:103-110 | A mask with none of the three flags (such as 0) decodes to the empty list, which counts as all granted. |
| `Permissions.BuildPermissionList` | app/src/main/java/com/example/fieldnotes/utilities/PermissionsUtility.java:71-81 | The chain of conditional appends yields exactly the catalogue filtered by the mask. |
| `Permissions.CopyToArray` | app/src/main/java/com/example/fieldnotes/utilities/PermissionsUtility.java:83-86 | The index loop gives an array of the list's length, equal to the list element by element. |
| `Permissions.CheckPermissions` | app/src/main/java/com/example/fieldnotes/utilities/PermissionsUtility.java:103-110 | The scan with early return answers true iff every entry of the array is granted. It is vacuously true for an empty array. |
| `Permissions.PermissionsUtility.constructor` | app/src/main/java/com/example/fieldnotes/utilities/PermissionsUtility.java:53 | The static state starts with no activity and no request issued. |
| `Permissions.PermissionsUtility.GetPermissions` | app/src/main/java/com/example/fieldnotes/utilities/PermissionsUtility.java:67-94 | The activity field becomes the caller. The result is true iff every requested name is granted. Exactly when it is false, one request is appended, holding the requested list and request code ALL. |
| `Stops.Stop.constructor` | app/src/main/java/com/example/fieldnotes/java/Stop.java:100-108 | Each argument lands in its own field, `time` equals `unixTime`, and there is no picture list. |
| `Stops.Stop.FromDatabase` | app/src/main/java/com/example/fieldnotes/java/Stop.java:119-133 | The key is the argument. Name, parent, notes, coordinates and time come from the stored row. The picture list is, in order, the pictures whose parent is the stored row's own key. |
| `Stops.Stop.WithUnixTime` | app/src/main/java/com/example/fieldnotes/java/Stop.java:141-143 | Only `unixTime` is set; every other field keeps its Java default. |
| `Stops.Stop.SetStopName` | app/src/main/java/com/example/fieldnotes/java/Stop.java:168-170 | The new state is the old one with only `stopName` replaced. |
| `Stops.Stop.SetNotes` | app/src/main/java/com/example/fieldnotes/java/Stop.java:177-179 | The new state is the old one with only `notes` replaced. |
| `Stops.Stop.SetLocation` | app/src/main/java/com/example/fieldnotes/java/Stop.java:187-190 | The new state is the old one with only `latitude` and `longitude` replaced. |
| `Stops.Stop.SetParentUnixTime` | app/src/main/java/com/example/fieldnotes/java/Stop.java:216-218 | The new state is the old one with only `parentUnixTime` replaced. |
| `Stops.Stop.SetLongitude` | app/src/main/java/com/example/fieldnotes/java/Stop.java:235-237 | The new state is the old one with only `longitude` replaced. |
| `Stops.Stop.SetLatitude` | app/src/main/java/com/example/fieldnotes/java/Stop.java:254-256 | The new state is the old one with only `latitude` replaced. |
| `Stops.Stop.SetTime` | app/src/main/java/com/example/fieldnotes/java/Stop.java:287-289 | Only `time` changes and `unixTime` is kept, so the two may differ from then on. |
| `Stops.Stop.PictureAtIndex` | app/src/main/java/com/example/fieldnotes/java/Stop.java:298-304 | With no list, the result is null for every index. With a list and a non-negative index, the result is a picture iff the index is below the list's size, and then it is the element at that index; otherwise it is null. |
| `Geolocation.ExitToast` | app/src/main/java/com/example/fieldnotes/activities/GeolocationActivity.java:285-302 | A message is shown iff the code is PERMISSIONS_NOT_GRANTED, API_ERROR, NEED_GOOGLE_PLAY_SERVICES or TIMEOUT, never for PROCESS_INTERRUPTED. It names that code and is long only for the permission message. |
| `Geolocation.ExitAlwaysCancels` | app/src/main/java/com/example/fieldnotes/activities/GeolocationActivity.java:284-306 | Whatever the error code, the exit sets RESULT_CANCELED with an empty Intent and finishes once more. The messages grow iff the code is not PROCESS_INTERRUPTED. |
| `Geolocation.PlayServicesVerdict` | app/src/main/java/com/example/fieldnotes/activities/GeolocationActivity.java:250-261 | SUCCESS leads to no exit. Any other code exits with NEED_GOOGLE_PLAY_SERVICES when user-resolvable, and with API_ERROR otherwise. |
| `Geolocation.LocationRequestsBothLocationPermissions` | app/src/main/java/com/example/fieldnotes/activities/GeolocationActivity.java:111-112 | The LOCATION request is fine then coarse location, and it is granted iff both are. |
| `Geolocation.GeolocationActivity.constructor` | app/src/main/java/com/example/fieldnotes/activities/GeolocationActivity.java:90-95 | The screen starts with RESULT_CANCELED and no Intent, nothing finished or shown, and no timer, client or request. |
| `Geolocation.GeolocationActivity.OnCreate` | app/src/main/java/com/example/fieldnotes/activities/GeolocationActivity.java:107-116 | Without both location permissions, a permission request is issued and the screen exits with PERMISSIONS_NOT_GRANTED. In every case the client is then built and the 10000 ms timer started. |
| `Geolocation.GeolocationActivity.BuildApiClient` | app/src/main/java/com/example/fieldnotes/activities/GeolocationActivity.java:121-123 | The client exists afterwards. |
| `Geolocation.GeolocationActivity.StartTimer` | app/src/main/java/com/example/fieldnotes/activities/GeolocationActivity.java:131-146 | One timeout task is pending, with delay MILLISECONDS_TO_WAIT = 10000. |
| `Geolocation.GeolocationActivity.OnTimerFired` | app/src/main/java/com/example/fieldnotes/activities/GeolocationActivity.java:134-143 | The pending task has run, and the screen exits with TIMEOUT. |
| `Geolocation.GeolocationActivity.OnStart` | app/src/main/java/com/example/fieldnotes/activities/GeolocationActivity.java:153-161 | With a client, it is asked to connect and nothing else changes. Without one, the screen exits with API_ERROR. |
| `Geolocation.GeolocationActivity.OnResume` | app/src/main/java/com/example/fieldnotes/activities/GeolocationActivity.java:168-171 | The outcome is unchanged, or the exit that the availability classification chooses. |
| `Geolocation.GeolocationActivity.CheckPlayServices` | app/src/main/java/com/example/fieldnotes/activities/GeolocationActivity.java:250-261 | With the availability code SUCCESS nothing changes. Any other code exits the screen, with NEED_GOOGLE_PLAY_SERVICES when the platform says the user can resolve it and API_ERROR otherwise, as PlayServicesVerdict classifies it. |
| `Geolocation.GeolocationActivity.OnStop` | app/src/main/java/com/example/fieldnotes/activities/GeolocationActivity.java:178-183 | The timer is cancelled, and the screen exits silently with PROCESS_INTERRUPTED. |
| `Geolocation.GeolocationActivity.OnConnected` | app/src/main/java/com/example/fieldnotes/activities/GeolocationActivity.java:198-201 | Through startLocationUpdates (lines 235-242), updates are requested at high accuracy, with interval and fastest interval both 100 ms. |
| `Geolocation.GeolocationActivity.OnLocationChanged` | app/src/main/java/com/example/fieldnotes/activities/GeolocationActivity.java:219-225 | A null location changes nothing. A fix is stored, and the screen finishes with RESULT_OK and its LONGITUDE and LATITUDE. |
| `Geolocation.GeolocationActivity.ReturnGeolocation` | app/src/main/java/com/example/fieldnotes/activities/GeolocationActivity.java:268-274 | It finishes with RESULT_OK and extras LONGITUDE and LATITUDE equal to the stored coordinates. The timer is untouched. |
| `Geolocation.GeolocationActivity.ExitActivity` | app/src/main/java/com/example/fieldnotes/activities/GeolocationActivity.java:284-306 | It shows the code's message, if the code has one. It then sets RESULT_CANCELED with an empty Intent and finishes. |
| `Geolocation.PermissionDeniedRun` | app/src/main/java/com/example/fieldnotes/activities/GeolocationActivity.java:107-116 | Without location permission, one request is issued and the screen exits twice: once in onCreate and once more on the timeout its timer still raises. |
| `Geolocation.FixThenStopRun` | app/src/main/java/com/example/fieldnotes/activities/GeolocationActivity.java:178-183 | After a fix, the first finish carries RESULT_OK and the coordinates. The onStop that follows finishes again silently, leaving RESULT_CANCELED as the last result set. |

## Left out

- Request masks are the 32 bits of the Java `int` (`bv32`), so Java's `&` on them is exact.
- Permission names are a datatype, not the `android.permission.*` strings.
- What the platform has granted is a set passed in. The permission dialog and its answer callback are not part of this model.
- Permissions.CopyToArray does not state that the array is newly allocated. No caller depends on it.
- The getters of `Stop` (`getUnixTime`, `getStopName`, `getParentUnixTime`, `getLongitude`, `getLatitude`, `notes`, `getTime`, `getPictureArrayList`) only return a field. The model reads the field directly.
- `pictureList` is a value (`seq`), not a shared `ArrayList`. Aliasing through `getPictureArrayList` is not captured.
- Stops.Stop.FromDatabase requires that the row exists. The source dereferences a missing row and throws NullPointerException.
- Stops.Stop.PictureAtIndex requires a non-negative index only when there is a list. With a list the source then throws IndexOutOfBoundsException; with none it returns null for any index, as the model does.
- `Picture` is an abstract type. The Room annotations and persistence (`NotebookDao`, `PictureDao`, `FieldNotesViewModelFactory`) are not part of this model.
- `NotebookViewAdapter` (list binding) and `KeyboardUtility` (input-method calls) are not part of this model.
- Latitudes and longitudes are opaque 64-bit values. No floating-point arithmetic is modelled.
- Geolocation.GeolocationActivity.OnStop requires that a timer exists. `onCreate` always precedes `onStop`; otherwise the source throws NullPointerException.
- Geolocation.GeolocationActivity.OnTimerFired requires a pending task. The handler thread is not modelled, so a task that ran just before `onStop` cancelled the timer, and whose posted exit runs after, is not represented.
- Toast texts, `super.onCreate`, `setContentView`, and the Intent other than its two double extras are left out.
- The Google Play services objects are left out. The availability code and the platform's user-resolvable verdict are arguments.
- The discarded `getLastLocation` result and the empty `onConnectionSuspended` and `onConnectionFailed` bodies are left out.
- What Android does with a second `finish()` is not modelled. Every call is recorded in `finishes`.
- Callbacks are accepted in any order, including ones Android does not deliver after a `finish()` inside `onCreate` (`onStart`, `onResume`, `onConnected`, `onStop`). The location permission is not a precondition of `OnConnected`; the app only reaches `onConnected` once it is granted.
