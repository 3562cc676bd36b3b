# HazardReporter permission state machines in Dafny

HazardReporter is an iOS app for reporting hazards. Apart from SwiftUI layout, its logic
is a set of small permission-driven state machines. Each reads an OS authorization status,
switches on it, and updates published flags and the "location updates running" state.
Asynchronous OS callbacks arrive later and update the same state.

This project models four of them:

- `LocationManagerModel` (`location_manager.dfy`): the location manager of
  `HazardReporter/Managers/LocationManager.swift`. It has two Combine subjects,
  `locationAuthorizationNeeded` and `isLocationAuthorized`.
- `CameraAuthorizationModel` (`camera_authorization_manager.dfy`): the camera manager of
  `HazardReporter/Managers/CameraAuthorizationManager.swift`. It has two subjects,
  `needCameraAuthorization` and `cameraAuthorized`.
- `EditHazardModel` (`edit_hazard_view.dfy`): the earlier `LocationManager` and
  `CameraManager` of `HazardReporter/Views/EditHazardView.swift`. They publish the
  `showLocationAlert` / `showCameraAlert` flags. The file also holds
  `EditHazardViewModel`, whose Combine sinks copy those flags into its own fields.
- `CaptureImageModel` (`capture_image_view.dfy`): the image-picker `Coordinator` of
  `HazardReporter/Views/CaptureImageView.swift`, which writes through three bindings.

`platform.dfy` holds the framework vocabulary:

- `CLAuthorizationStatus`, `CLLocation` and `AVAuthorizationStatus` as closed datatypes.
- Swift's `Optional` and `Array.last`.
- Combine's `CurrentValueSubject`, as a value: the current value plus every value ever
  sent. It does not remove duplicates, so sending `false` to a subject that already holds
  `false` is still recorded.

`traces.dfy` holds `Traces.Run`, which feeds a sequence of events to a state machine one
at a time. Each module's `Run` applies it to that module's `Step`.

Each module is built the same way:

- A value datatype records everything the class changes. Effects on the OS are state too:
  whether the delegate is registered, how many permission requests were made, and whether
  the location stream runs.
- One specification function `After<Operation>` per Swift method, except `init`, whose
  starting state is a plain function (`Initial`, `InitialLocation`, `InitialCamera`,
  `Fresh`). The view model also has one per OS callback as it receives the callback
  through its sinks. Each function's `ensures` state the switch's behaviour case by case.
- An `Event` datatype with `Step`/`Run`, and lemmas about any sequence of events. OS
  callbacks may arrive in any order, and lemmas by induction show what holds whatever
  that order is.
- A `class` with the Swift class's fields. Its methods are written imperatively, like
  the Swift, and each `ensures` the new state equals the specification function applied
  to the old state.

Values the code reads from the OS become method parameters:

- `authorizationStatus()`
- `locationServicesEnabled()`
- the `accessGranted` argument of the completion handler
- the picker's info dictionary

Both source files declare a class named `LocationManager`. The model keeps the two
apart in separate modules.

## Model

| member | source | states |
|---|---|---|
| LocationManagerModel.AfterStartUpdating | HazardReporter/Managers/LocationManager.swift:25-41 | delegate registered whatever the status; not determined: one more authorization request, stream and both subjects unchanged; authorized with services on: stream started, false sent to "needed", true to "authorized"; authorized with services off: only the delegate changes; restricted/denied: true sent to "needed", "authorized" and stream unchanged |
| LocationManagerModel.AfterDidUpdateLocations | HazardReporter/Managers/LocationManager.swift:43-46 | `lastKnownLocation` becomes the last fix of the batch (nil for an empty batch), replacing the old one; nothing else changes |
| LocationManagerModel.AfterLocationServicesEnabled | HazardReporter/Managers/LocationManager.swift:48-52 | stream running, false emitted on "needed", true on "authorized", delegate/requests/location unchanged |
| LocationManagerModel.AfterDidChangeAuthorization | HazardReporter/Managers/LocationManager.swift:54-59 | an authorized status has the effect of the authorized-with-services branch of startUpdating (delegate aside); any other status changes nothing, so a denied callback does not raise "needed" |
| LocationManagerModel.AfterAlertLocationAccessNeeded | HazardReporter/Managers/LocationManager.swift:61-63 | true is sent to "needed"; nothing else changes |
| LocationManagerModel.AfterDeinit | HazardReporter/Managers/LocationManager.swift:65-67 | the stream is stopped; nothing else changes |
| LocationManagerModel.NothingIsUndone | HazardReporter/Managers/LocationManager.swift:17-67 | over any event sequence: the delegate stays registered, `isLocationAuthorized` never goes back to false and only true is ever sent to it, no emission of either subject is lost, requests never decrease |
| LocationManagerModel.UpdatesOnlyWhenAuthorized | HazardReporter/Managers/LocationManager.swift:48-67 | over any event sequence, the stream runs only while `isLocationAuthorized` holds true |
| LocationManagerModel.NeededFollowsLatestVerdict | HazardReporter/Managers/LocationManager.swift:31-63 | `locationAuthorizationNeeded` equals what the latest authorized start (services on), authorized callback or refused start set; refused callbacks never set it |
| LocationManagerModel.LastKnownLocationIsLatestFix | HazardReporter/Managers/LocationManager.swift:43-46 | after any event sequence `lastKnownLocation` is the last fix of the latest batch (overwritten, never merged) |
| LocationManagerModel.FreshManagerInvariants | HazardReporter/Managers/LocationManager.swift:17-18 | from a manager initialised with the default `CLLocationManager()`, only true is ever sent to `isLocationAuthorized` and the stream runs only while it holds true |
| LocationManagerModel.LocationManager.constructor | HazardReporter/Managers/LocationManager.swift:20-23 | with the default, fresh `CLLocationManager()`: both subjects start at false with nothing sent; no delegate, no request, no stream, no location |
| LocationManagerModel.LocationManager.StartUpdating | HazardReporter/Managers/LocationManager.swift:25-41 | new state is AfterStartUpdating of the old |
| LocationManagerModel.LocationManager.DidUpdateLocations | HazardReporter/Managers/LocationManager.swift:43-46 | new state is AfterDidUpdateLocations of the old |
| LocationManagerModel.LocationManager.LocationServicesEnabled | HazardReporter/Managers/LocationManager.swift:48-52 | new state is AfterLocationServicesEnabled of the old |
| LocationManagerModel.LocationManager.DidChangeAuthorization | HazardReporter/Managers/LocationManager.swift:54-59 | new state is AfterDidChangeAuthorization of the old |
| LocationManagerModel.LocationManager.AlertLocationAccessNeeded | HazardReporter/Managers/LocationManager.swift:61-63 | new state is AfterAlertLocationAccessNeeded of the old |
| LocationManagerModel.LocationManager.Deinit | HazardReporter/Managers/LocationManager.swift:65-67 | new state is AfterDeinit of the old: updates stopped |
| CameraAuthorizationModel.AfterAuthorizeCamera | HazardReporter/Managers/CameraAuthorizationManager.swift:17-27 | not determined: one more access request, both subjects unchanged; authorized: false sent to "need", true to "authorized"; restricted/denied: true sent to "need", "authorized" unchanged |
| CameraAuthorizationModel.AfterRequestCameraPermission | HazardReporter/Managers/CameraAuthorizationManager.swift:29-30 | one more access request; no subject changes until the completion arrives |
| CameraAuthorizationModel.AfterAccessCompleted | HazardReporter/Managers/CameraAuthorizationManager.swift:31-34 | granted is exactly authorizeCamera with an authorized status; refused changes nothing, the "need" flag included |
| CameraAuthorizationModel.AfterCameraAuthorizationGranted | HazardReporter/Managers/CameraAuthorizationManager.swift:37-40 | "need" false and "authorized" true, each by one emission; requests unchanged |
| CameraAuthorizationModel.AfterCameraAuthorizationNeeded | HazardReporter/Managers/CameraAuthorizationManager.swift:42-44 | true sent to "need"; "authorized" unchanged |
| CameraAuthorizationModel.AuthorizeTwiceSameFlags | HazardReporter/Managers/CameraAuthorizationManager.swift:37-40 | a second authorizeCamera with an authorized status leaves both flag values as the first left them, while still emitting again |
| CameraAuthorizationModel.CameraAuthorizedNeverRevoked | HazardReporter/Managers/CameraAuthorizationManager.swift:14-44 | over any sequence of calls to the four non-private methods and of access completions, `cameraAuthorized` never goes back to false, only true is ever sent to it, and no emission of either subject is lost |
| CameraAuthorizationModel.NeedFollowsLatestVerdict | HazardReporter/Managers/CameraAuthorizationManager.swift:17-44 | `needCameraAuthorization` equals what the latest authorized status, refused status, granted completion or direct `cameraAuthorizationGranted()`/`cameraAuthorizationNeeded()` call set; refused completions and direct permission requests never set it |
| CameraAuthorizationModel.RequestsOnlyWhenUndetermined | HazardReporter/Managers/CameraAuthorizationManager.swift:17-35 | access requests issued = number of authorizeCamera calls that found the status not determined plus direct requestCameraPermission calls; completions and flag updates never issue one |
| CameraAuthorizationModel.CameraAuthorizationManager.constructor | HazardReporter/Managers/CameraAuthorizationManager.swift:13-15 | both subjects start at false with nothing sent, no request |
| CameraAuthorizationModel.CameraAuthorizationManager.AuthorizeCamera | HazardReporter/Managers/CameraAuthorizationManager.swift:17-27 | new state is AfterAuthorizeCamera of the old |
| CameraAuthorizationModel.CameraAuthorizationManager.RequestCameraPermission | HazardReporter/Managers/CameraAuthorizationManager.swift:29-30 | new state is AfterRequestCameraPermission of the old |
| CameraAuthorizationModel.CameraAuthorizationManager.AccessCompleted | HazardReporter/Managers/CameraAuthorizationManager.swift:31-34 | new state is AfterAccessCompleted of the old |
| CameraAuthorizationModel.CameraAuthorizationManager.CameraAuthorizationGranted | HazardReporter/Managers/CameraAuthorizationManager.swift:37-40 | new state is AfterCameraAuthorizationGranted of the old |
| CameraAuthorizationModel.CameraAuthorizationManager.CameraAuthorizationNeeded | HazardReporter/Managers/CameraAuthorizationManager.swift:42-44 | new state is AfterCameraAuthorizationNeeded of the old |
| EditHazardModel.AfterStartUpdating | HazardReporter/Views/EditHazardView.swift:25-41 | delegate registered whatever the status; not determined: one more request, alert and stream unchanged; authorized with services on: stream started, alert cleared; services off: only the delegate; restricted/denied: alert raised, stream unchanged |
| EditHazardModel.AfterDidUpdateLocations | HazardReporter/Views/EditHazardView.swift:43-46 | `lastKnownLocation` becomes `locations.last`; nothing else changes |
| EditHazardModel.AfterLocationServicesEnabled | HazardReporter/Views/EditHazardView.swift:48-51 | stream running and alert cleared; nothing else changes |
| EditHazardModel.AfterDidChangeAuthorization | HazardReporter/Views/EditHazardView.swift:53-57 | authorized: the authorized-with-services branch of startUpdating (delegate aside); otherwise nothing changes |
| EditHazardModel.AfterAlertLocationAccessNeeded | HazardReporter/Views/EditHazardView.swift:59-61 | alert raised; nothing else changes |
| EditHazardModel.AfterDeinit | HazardReporter/Views/EditHazardView.swift:63-65 | the stream is stopped; nothing else changes |
| EditHazardModel.AfterTakePicture | HazardReporter/Views/EditHazardView.swift:71-81 | authorized: presentCamera (alert cleared, a picker built); restricted/denied: alert raised, no request; not determined: one more permission request, alert unchanged; any other status issues no request |
| EditHazardModel.AfterRequestCameraPermission | HazardReporter/Views/EditHazardView.swift:83-84 | one more access request; nothing else changes |
| EditHazardModel.AfterCameraAccessCompleted | HazardReporter/Views/EditHazardView.swift:85-88 | granted is exactly takePicture with an authorized status; refused changes nothing, the alert included |
| EditHazardModel.AfterPresentCamera | HazardReporter/Views/EditHazardView.swift:91-99 | alert cleared, one more picker built, requests unchanged |
| EditHazardModel.AfterAlertCameraAccessNeeded | HazardReporter/Views/EditHazardView.swift:101-103 | alert raised; nothing else changes |
| EditHazardModel.AfterSetUp | HazardReporter/Views/EditHazardView.swift:117-122 | after setUp the view model's flags equal the managers'; the location manager has run startUpdating; from fresh managers the location alert shows iff the status was restricted or denied |
| EditHazardModel.AfterTakeSnapShot | HazardReporter/Views/EditHazardView.swift:148-150 | only the camera changes, by takePicture; the sink copies the camera's flag unless the status was not determined, when takePicture assigns nothing; mirrored flags stay mirrored and no alert outlives its manager's flag |
| EditHazardModel.AfterLocationAuthorizationChanged | HazardReporter/Views/EditHazardView.swift:118 | the location manager takes its authorization callback; an authorized status clears both location flags, any other status changes nothing; mirrored flags stay mirrored and no alert outlives its manager's flag |
| EditHazardModel.AfterLocationsUpdated | HazardReporter/Views/EditHazardView.swift:43-46 | only the location manager's `lastKnownLocation` changes; no flag is published |
| EditHazardModel.AfterCameraAccessCompletedThroughSink | HazardReporter/Views/EditHazardView.swift:121 | the camera manager takes its access completion; a grant clears both camera flags, a refusal changes nothing; mirrored flags stay mirrored and no alert outlives its manager's flag |
| EditHazardModel.AfterDismissLocationAlert | HazardReporter/Views/EditHazardView.swift:194-196 | dismissing the location alert clears the view model's flag only; the manager's flag and all else stay, and no alert outlives its manager's flag |
| EditHazardModel.AfterDismissCameraAlert | HazardReporter/Views/EditHazardView.swift:197-199 | dismissing the camera alert clears the view model's flag only; the manager's flag and all else stay, and no alert outlives its manager's flag |
| EditHazardModel.SinksKeepMirroring | HazardReporter/Views/EditHazardView.swift:117-122 | once mirrored, the view model's flags equal the managers' after any event sequence without a dismissal |
| EditHazardModel.AlertsNeverOutliveManagers | HazardReporter/Views/EditHazardView.swift:194-199 | over any event sequence, dismissals included, the view model shows no alert whose manager flag is down |
| EditHazardModel.LocationAlertClearedOnlyByGrant | HazardReporter/Views/EditHazardView.swift:53-61 | after any event sequence the manager's location flag is up iff it was before and no authorized callback arrived; the view model's iff it was before and neither such a callback nor a dismissal came |
| EditHazardModel.LocationAlertAfterSetUp | HazardReporter/Views/EditHazardView.swift:113-122 | after init and any events: no alert outlives its manager's flag, the flags mirror until the first dismissal, the location alert shows iff the status at setUp was restricted/denied and neither an authorized callback nor a dismissal followed, and the manager's flag iff no authorized callback followed |
| EditHazardModel.CameraAlertFollowsLatestAssignment | HazardReporter/Views/EditHazardView.swift:71-103 | the view model's camera alert equals what the latest authorized/refused snapshot, granted completion or dismissal set |
| EditHazardModel.LocationManager.constructor | HazardReporter/Views/EditHazardView.swift:20-23 | with the default, fresh `CLLocationManager()`: alert false; no delegate, request, stream or location |
| EditHazardModel.LocationManager.StartUpdating | HazardReporter/Views/EditHazardView.swift:25-41 | new state is AfterStartUpdating of the old |
| EditHazardModel.LocationManager.DidUpdateLocations | HazardReporter/Views/EditHazardView.swift:43-46 | new state is AfterDidUpdateLocations of the old |
| EditHazardModel.LocationManager.LocationServicesEnabled | HazardReporter/Views/EditHazardView.swift:48-51 | new state is AfterLocationServicesEnabled of the old |
| EditHazardModel.LocationManager.DidChangeAuthorization | HazardReporter/Views/EditHazardView.swift:53-57 | new state is AfterDidChangeAuthorization of the old |
| EditHazardModel.LocationManager.AlertLocationAccessNeeded | HazardReporter/Views/EditHazardView.swift:59-61 | new state is AfterAlertLocationAccessNeeded of the old |
| EditHazardModel.LocationManager.Deinit | HazardReporter/Views/EditHazardView.swift:63-65 | new state is AfterDeinit of the old |
| EditHazardModel.CameraManager.constructor | HazardReporter/Views/EditHazardView.swift:68-69 | alert false, no request, no picker |
| EditHazardModel.CameraManager.TakePicture | HazardReporter/Views/EditHazardView.swift:71-81 | new state is AfterTakePicture of the old |
| EditHazardModel.CameraManager.RequestCameraPermission | HazardReporter/Views/EditHazardView.swift:83-84 | new state is AfterRequestCameraPermission of the old |
| EditHazardModel.CameraManager.CameraAccessCompleted | HazardReporter/Views/EditHazardView.swift:85-88 | new state is AfterCameraAccessCompleted of the old |
| EditHazardModel.CameraManager.PresentCamera | HazardReporter/Views/EditHazardView.swift:91-99 | new state is AfterPresentCamera of the old |
| EditHazardModel.CameraManager.AlertCameraAccessNeeded | HazardReporter/Views/EditHazardView.swift:101-103 | new state is AfterAlertCameraAccessNeeded of the old |
| EditHazardModel.EditHazardViewModel.constructor | HazardReporter/Views/EditHazardView.swift:113-115 | fresh managers, then setUp: the state is AfterSetUp from fresh managers, the flags mirror, and the invariant holds |
| EditHazardModel.EditHazardViewModel.SetUp | HazardReporter/Views/EditHazardView.swift:117-122 | new state is AfterSetUp of the old |
| EditHazardModel.EditHazardViewModel.TakeSnapShot | HazardReporter/Views/EditHazardView.swift:148-150 | keeps the invariant that no alert outlives its manager's flag; new state is AfterTakeSnapShot of the old |
| EditHazardModel.EditHazardViewModel.LocationAuthorizationChanged | HazardReporter/Views/EditHazardView.swift:118 | keeps the invariant that no alert outlives its manager's flag; new state is AfterLocationAuthorizationChanged of the old |
| EditHazardModel.EditHazardViewModel.LocationsUpdated | HazardReporter/Views/EditHazardView.swift:43-46 | keeps the invariant that no alert outlives its manager's flag; new state is AfterLocationsUpdated of the old |
| EditHazardModel.EditHazardViewModel.CameraAccessCompleted | HazardReporter/Views/EditHazardView.swift:121 | keeps the invariant that no alert outlives its manager's flag; new state is AfterCameraAccessCompletedThroughSink of the old |
| EditHazardModel.EditHazardViewModel.DismissLocationAlert | HazardReporter/Views/EditHazardView.swift:194-196 | keeps the invariant; new state is AfterDismissLocationAlert of the old |
| EditHazardModel.EditHazardViewModel.DismissCameraAlert | HazardReporter/Views/EditHazardView.swift:197-199 | keeps the invariant; new state is AfterDismissCameraAlert of the old |
| CaptureImageModel.OriginalImageOf | HazardReporter/Views/CaptureImageView.swift:25 | an image is found iff the info has the original-image key and its value is a UIImage, and it is that value |
| CaptureImageModel.AfterFinishPicking | HazardReporter/Views/CaptureImageView.swift:23-29 | with an original image: both images set to it together and shown false; without: early return, nothing changes |
| CaptureImageModel.AfterCancel | HazardReporter/Views/CaptureImageView.swift:31-33 | shown false, both images untouched |
| CaptureImageModel.SecondCaptureOverwrites | HazardReporter/Views/CaptureImageView.swift:26-27 | a second successful capture gives the same bindings as that capture alone |
| CaptureImageModel.CoordinatorKeepsImagesPaired | HazardReporter/Views/CaptureImageView.swift:23-33 | over any events, paired images stay paired, and a hidden picker is never shown again by the coordinator |
| CaptureImageModel.ImageIsLatestCapture | HazardReporter/Views/CaptureImageView.swift:23-33 | the bound UIImage is that of the latest pick carrying an original image; cancels and image-less picks leave it |
| CaptureImageModel.Coordinator.constructor | HazardReporter/Views/CaptureImageView.swift:17-21 | the bindings hold the values given |
| CaptureImageModel.Coordinator.DidFinishPickingMediaWithInfo | HazardReporter/Views/CaptureImageView.swift:23-29 | new bindings are AfterFinishPicking of the old |
| CaptureImageModel.Coordinator.DidCancel | HazardReporter/Views/CaptureImageView.swift:31-33 | new bindings are AfterCancel of the old |

## Left out

- SwiftUI views and layout are not modelled because they hold no logic of their own. This covers all of `ContentView.swift`, `EditHazardView.body`, and `CaptureImageView.makeUIViewController` / `updateUIViewController` / `makeCoordinator`. Two writes of `EditHazardView.body` are modelled: its `.alert(isPresented:)` bindings clear the view model's flag when the user dismisses an alert (the `DismissLocationAlert` and `DismissCameraAlert` events and methods of `EditHazardModel`).
- `getLocationAlert` / `getCameraAlert` are not modelled. They build alerts and open the Settings URL through `UIApplication`, which is UI and I/O.
- `desiredAccuracy` is not modelled. It is a configuration write to CoreLocation with no effect on the state machine.
- `CLLocationManager`, `AVCaptureDevice` and `UIImagePickerController` internals are not modelled. Statuses, the services answer, completion arguments and images are inputs, and the model records the managers' effects on them as state.
- The `@unknown default: fatalError()` branches are not modelled. The status datatypes are closed, so those branches cannot be reached.
- `print` calls are not modelled.
- `LocationManagerModel.LocationManager.constructor` and `EditHazardModel.LocationManager.constructor`: `init(manager:)` is modelled without its parameter. They model `LocationManager()` with the default, fresh `CLLocationManager()`, the form `HazardReporter/Views/EditHazardView.swift:107` uses for its own class; the class of `HazardReporter/Managers/LocationManager.swift` is constructed nowhere in the repository's code, so the no-argument form is the one modelled for it too. A manager passed in that already has a delegate or a running update stream is not modelled.
- `LocationManagerModel.FreshManagerInvariants`: for the same reason it holds from the default manager only. An injected manager that is already updating would break "the stream runs only while `isLocationAuthorized` holds true".
- Threads are not modelled. The `requestAccess` completion runs on an arbitrary queue; the model treats every callback as a sequential event that may come at any point.
- Combine's subscription machinery is not modelled: `sink`, `AnyCancellable`, `store(in:)`. Each sink is a copy of the manager's flag right after a call that assigns it.
- Reference identity of the subjects is not modelled. A manager's `CurrentValueSubject` is a value field that the manager reassigns. This is sound because nothing else in the core holds a reference to it.
- Bindings are not modelled as references. The Coordinator's fields stand for the storage its bindings write to, so aliasing with `CaptureImageView`'s own bindings is not captured.
- `EditHazardModel.CameraManager.PresentCamera`: the picker it builds is never presented, because the presentation lines are commented out in the source. The model only counts the pickers it builds.
- Behaviour the code does not have is not modelled:
  - de-duplication of status emissions;
  - dropping location callbacks that arrive after `deinit`;
  - one capture session at a time;
  - failing closed on an unknown status;
  - resetting `isLocationAuthorized` / `cameraAuthorized` to false;
  - assembling and saving a hazard report.

  The model follows the code, so a callback after `Deinit` still updates state, and the location stream can still run after a later refused `startUpdating`. Only one direction of "updates run iff authorized" holds: `UpdatesOnlyWhenAuthorized`.
