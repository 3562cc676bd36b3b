/** The earlier managers and the view model of Views/EditHazardView.swift.

    This LocationManager follows the same switch as the one in
    Managers/LocationManager.swift but publishes a single `showLocationAlert`
    flag; CameraManager publishes `showCameraAlert`; EditHazardViewModel owns one
    of each and, through Combine sinks, copies every published flag into its
    own `showLocationAlert` / `showCameraAlert`. */
module EditHazardModel {
  import opened Optionals
  import Traces
  import opened CoreLocation
  import opened AVFoundation

  // ---------------------------------------------------------------------------
  // LocationManager (showLocationAlert variant)

  /** Everything this LocationManager changes. */
  datatype LocationState = LocationState(
    delegateSet: bool,                 // manager.delegate is this manager
    authorizationRequests: nat,        // calls to requestWhenInUseAuthorization()
    updating: bool,                    // startUpdatingLocation() is in effect
    lastKnownLocation: Option<CLLocation>,
    showLocationAlert: bool)

  function InitialLocation(): LocationState {
    LocationState(false, 0, false, None, false)
  }

  /** `locationServicesEnabled()`: start the stream and clear the alert. */
  function AfterLocationServicesEnabled(s: LocationState): (r: LocationState)
    ensures r.updating && !r.showLocationAlert
    ensures r.(updating := s.updating, showLocationAlert := s.showLocationAlert) == s
  {
    s.(updating := true, showLocationAlert := false)
  }

  /** `alertLocationAccessNeeded()`: raise the alert. */
  function AfterAlertLocationAccessNeeded(s: LocationState): (r: LocationState)
    ensures r.showLocationAlert
    ensures r.(showLocationAlert := s.showLocationAlert) == s
  {
    s.(showLocationAlert := true)
  }

  /** `startUpdating()` when the OS reports `status` and `servicesEnabled` is
      what `CLLocationManager.locationServicesEnabled()` answers. */
  function AfterStartUpdating(s: LocationState, status: CLAuthorizationStatus, servicesEnabled: bool): (r: LocationState)
    ensures r.delegateSet
    ensures r.lastKnownLocation == s.lastKnownLocation
    ensures r.authorizationRequests == if status.NotDetermined? then s.authorizationRequests + 1
                                       else s.authorizationRequests
    ensures status.NotDetermined? ==> r.updating == s.updating && r.showLocationAlert == s.showLocationAlert
    ensures status.IsAuthorized() && servicesEnabled ==> r.updating && !r.showLocationAlert
    ensures status.IsAuthorized() && !servicesEnabled ==> r == s.(delegateSet := true)
    ensures status.IsRefused() ==> r.showLocationAlert && r.updating == s.updating
  {
    var d := s.(delegateSet := true);
    match status
    case NotDetermined => d.(authorizationRequests := d.authorizationRequests + 1)
    case AuthorizedWhenInUse | AuthorizedAlways =>
      if servicesEnabled then AfterLocationServicesEnabled(d) else d
    case Restricted | Denied => AfterAlertLocationAccessNeeded(d)
  }

  /** `locationManager(_:didUpdateLocations:)`: store `locations.last`. */
  function AfterDidUpdateLocations(s: LocationState, locations: seq<CLLocation>): (r: LocationState)
    ensures r.lastKnownLocation == Last(locations)
    ensures r.(lastKnownLocation := s.lastKnownLocation) == s
  {
    s.(lastKnownLocation := Last(locations))
  }

  /** `locationManager(_:didChangeAuthorization:)`: only an authorized status
      has an effect, that of the authorized branch of `startUpdating` with
      services on (the delegate aside). */
  function AfterDidChangeAuthorization(s: LocationState, status: CLAuthorizationStatus): (r: LocationState)
    ensures status.IsAuthorized() ==> r == AfterStartUpdating(s, status, true).(delegateSet := s.delegateSet)
    ensures !status.IsAuthorized() ==> r == s
  {
    if status.IsAuthorized() then AfterLocationServicesEnabled(s) else s
  }

  /** `deinit`: the location stream is stopped. */
  function AfterDeinit(s: LocationState): (r: LocationState)
    ensures !r.updating
    ensures r.(updating := s.updating) == s
  {
    s.(updating := false)
  }

  // ---------------------------------------------------------------------------
  // CameraManager

  /** Everything a CameraManager changes. `presentCamera()` builds an image
      picker that it never presents, so what it leaves behind is a count. */
  datatype CameraState = CameraState(
    permissionRequests: nat,           // calls to AVCaptureDevice.requestAccess(for: .video)
    pickersCreated: nat,               // UIImagePickerController instances built by presentCamera()
    showCameraAlert: bool)

  function InitialCamera(): CameraState {
    CameraState(0, 0, false)
  }

  /** `presentCamera()`: clear the alert and build a picker. */
  function AfterPresentCamera(s: CameraState): (r: CameraState)
    ensures !r.showCameraAlert
    ensures r.pickersCreated == s.pickersCreated + 1 && r.permissionRequests == s.permissionRequests
  {
    s.(showCameraAlert := false, pickersCreated := s.pickersCreated + 1)
  }

  /** `alertCameraAccessNeeded()`: raise the alert. */
  function AfterAlertCameraAccessNeeded(s: CameraState): (r: CameraState)
    ensures r.showCameraAlert
    ensures r.(showCameraAlert := s.showCameraAlert) == s
  {
    s.(showCameraAlert := true)
  }

  /** `requestCameraPermission()`: one more access request, nothing else. */
  function AfterRequestCameraPermission(s: CameraState): (r: CameraState)
    ensures r.permissionRequests == s.permissionRequests + 1
    ensures r.(permissionRequests := s.permissionRequests) == s
  {
    s.(permissionRequests := s.permissionRequests + 1)
  }

  /** `takePicture()` when AVFoundation reports `status`. */
  function AfterTakePicture(s: CameraState, status: AVAuthorizationStatus): (r: CameraState)
    ensures status.Authorized? ==> !r.showCameraAlert && r.pickersCreated == s.pickersCreated + 1
    ensures !status.Authorized? ==> r.pickersCreated == s.pickersCreated
    ensures !status.NotDetermined? ==> r.permissionRequests == s.permissionRequests
    ensures status.IsRefused() ==> r.showCameraAlert && r.permissionRequests == s.permissionRequests
    ensures status.NotDetermined? ==>
              r.permissionRequests == s.permissionRequests + 1 && r.showCameraAlert == s.showCameraAlert
  {
    match status
    case NotDetermined => AfterRequestCameraPermission(s)
    case Authorized => AfterPresentCamera(s)
    case Restricted | Denied => AfterAlertCameraAccessNeeded(s)
  }

  /** The completion handler of `requestAccess`: granted presents the camera as
      `takePicture()` does with an authorized status; refused is ignored, the
      alert included. */
  function AfterCameraAccessCompleted(s: CameraState, accessGranted: bool): (r: CameraState)
    ensures accessGranted ==> r == AfterTakePicture(s, Authorized)
    ensures !accessGranted ==> r == s
  {
    if accessGranted then AfterPresentCamera(s) else s
  }

  // ---------------------------------------------------------------------------
  // EditHazardViewModel

  /** The view model: its two managers and its own published flags. */
  datatype ViewModelState = ViewModelState(
    location: LocationState,
    camera: CameraState,
    showLocationAlert: bool,
    showCameraAlert: bool)

  /** The view model's flags equal its managers' flags. */
  predicate Mirrors(s: ViewModelState) {
    s.showLocationAlert == s.location.showLocationAlert &&
    s.showCameraAlert == s.camera.showCameraAlert
  }

  /** The view model shows no alert its manager has not raised. Dismissing an
      alert clears only the view model's flag, so this is what survives
      dismissals of the mirroring. */
  predicate Shadows(s: ViewModelState) {
    (s.showLocationAlert ==> s.location.showLocationAlert) &&
    (s.showCameraAlert ==> s.camera.showCameraAlert)
  }

  /** A view model whose managers are fresh and which has not run `setUp()`. */
  function Fresh(): ViewModelState {
    ViewModelState(InitialLocation(), InitialCamera(), false, false)
  }

  /** `setUp()`: subscribing to `$showLocationAlert` copies its current value at
      once, `startUpdating()` runs (its assignment to the flag is copied too),
      then subscribing to `$showCameraAlert` copies that flag. */
  function AfterSetUp(s: ViewModelState, status: CLAuthorizationStatus, servicesEnabled: bool): (r: ViewModelState)
    ensures Mirrors(r)
    ensures r.location == AfterStartUpdating(s.location, status, servicesEnabled)
    ensures r.camera == s.camera
    ensures s == Fresh() ==> (r.showLocationAlert <==> status.IsRefused())
  {
    var l := AfterStartUpdating(s.location, status, servicesEnabled);
    ViewModelState(l, s.camera, l.showLocationAlert, s.camera.showCameraAlert)
  }

  /** `takeSnapShot()`: hands over to `camera.takePicture()`; the sink copies
      `showCameraAlert` when takePicture assigns it. */
  function AfterTakeSnapShot(s: ViewModelState, status: AVAuthorizationStatus): (r: ViewModelState)
    ensures r.camera == AfterTakePicture(s.camera, status)
    ensures r.location == s.location && r.showLocationAlert == s.showLocationAlert
    ensures !status.NotDetermined? ==> r.showCameraAlert == r.camera.showCameraAlert
    ensures status.NotDetermined? ==> r.showCameraAlert == s.showCameraAlert
    ensures Mirrors(s) ==> Mirrors(r)
    ensures Shadows(s) ==> Shadows(r)
  {
    var c := AfterTakePicture(s.camera, status);
    s.(camera := c, showCameraAlert := if status.NotDetermined? then s.showCameraAlert else c.showCameraAlert)
  }

  /** The location manager's authorization callback, seen through the sink. */
  function AfterLocationAuthorizationChanged(s: ViewModelState, status: CLAuthorizationStatus): (r: ViewModelState)
    ensures r.location == AfterDidChangeAuthorization(s.location, status)
    ensures r.camera == s.camera && r.showCameraAlert == s.showCameraAlert
    ensures status.IsAuthorized() ==> !r.showLocationAlert && !r.location.showLocationAlert
    ensures !status.IsAuthorized() ==> r == s
    ensures Mirrors(s) ==> Mirrors(r)
    ensures Shadows(s) ==> Shadows(r)
  {
    var l := AfterDidChangeAuthorization(s.location, status);
    s.(location := l, showLocationAlert := if status.IsAuthorized() then l.showLocationAlert else s.showLocationAlert)
  }

  /** A batch of fixes for the location manager; `lastKnownLocation` is not
      published, so no sink fires. */
  function AfterLocationsUpdated(s: ViewModelState, locations: seq<CLLocation>): (r: ViewModelState)
    ensures r.location == AfterDidUpdateLocations(s.location, locations)
    ensures r.(location := s.location) == s
  {
    s.(location := AfterDidUpdateLocations(s.location, locations))
  }

  /** The camera manager's access completion, seen through the sink. */
  function AfterCameraAccessCompletedThroughSink(s: ViewModelState, accessGranted: bool): (r: ViewModelState)
    ensures r.camera == AfterCameraAccessCompleted(s.camera, accessGranted)
    ensures r.location == s.location && r.showLocationAlert == s.showLocationAlert
    ensures accessGranted ==> !r.showCameraAlert && !r.camera.showCameraAlert
    ensures !accessGranted ==> r == s
    ensures Mirrors(s) ==> Mirrors(r)
    ensures Shadows(s) ==> Shadows(r)
  {
    var c := AfterCameraAccessCompleted(s.camera, accessGranted);
    s.(camera := c, showCameraAlert := if accessGranted then c.showCameraAlert else s.showCameraAlert)
  }

  /** Dismissing the location alert: SwiftUI writes false through the
      `$viewModel.showLocationAlert` binding. The manager's flag stays as it was. */
  function AfterDismissLocationAlert(s: ViewModelState): (r: ViewModelState)
    ensures !r.showLocationAlert
    ensures r.location == s.location && r.camera == s.camera && r.showCameraAlert == s.showCameraAlert
    ensures Shadows(s) ==> Shadows(r)
  {
    s.(showLocationAlert := false)
  }

  /** Dismissing the camera alert: SwiftUI writes false through the
      `$viewModel.showCameraAlert` binding. The manager's flag stays as it was. */
  function AfterDismissCameraAlert(s: ViewModelState): (r: ViewModelState)
    ensures !r.showCameraAlert
    ensures r.location == s.location && r.camera == s.camera && r.showLocationAlert == s.showLocationAlert
    ensures Shadows(s) ==> Shadows(r)
  {
    s.(showCameraAlert := false)
  }

  /** What can happen to a view model after `setUp()`: the user taps
      "Snap picture" or dismisses an alert, or the OS calls back into one of
      its managers. */
  datatype Event =
    | TakeSnapShot(cameraStatus: AVAuthorizationStatus)
    | LocationAuthorizationChanged(locationStatus: CLAuthorizationStatus)
    | LocationsUpdated(locations: seq<CLLocation>)
    | CameraAccessCompleted(accessGranted: bool)
    | DismissLocationAlert
    | DismissCameraAlert
  {
    /** An authorization callback with an authorized status. */
    predicate GrantsLocation() {
      LocationAuthorizationChanged? && locationStatus.IsAuthorized()
    }

    /** An event after which the view model's location alert is down. */
    predicate ClearsLocationAlert() {
      GrantsLocation() || DismissLocationAlert?
    }

    /** The user dismissing either alert. */
    predicate Dismisses() {
      DismissLocationAlert? || DismissCameraAlert?
    }
  }

  function Step(s: ViewModelState, e: Event): ViewModelState {
    match e
    case TakeSnapShot(status) => AfterTakeSnapShot(s, status)
    case LocationAuthorizationChanged(status) => AfterLocationAuthorizationChanged(s, status)
    case LocationsUpdated(locations) => AfterLocationsUpdated(s, locations)
    case CameraAccessCompleted(granted) => AfterCameraAccessCompletedThroughSink(s, granted)
    case DismissLocationAlert => AfterDismissLocationAlert(s)
    case DismissCameraAlert => AfterDismissCameraAlert(s)
  }

  /** The state after the events `es`, first one first. */
  function Run(s: ViewModelState, es: seq<Event>): ViewModelState {
    Traces.Run(Step, s, es)
  }

  /** Once the sinks mirror the managers' flags they keep doing so, whatever
      the order of user taps and OS callbacks, until the user dismisses an
      alert. */
  lemma {:induction false} SinksKeepMirroring(s: ViewModelState, es: seq<Event>)
    requires Mirrors(s)
    ensures (forall i :: 0 <= i < |es| ==> !es[i].Dismisses()) ==> Mirrors(Run(s, es))
    decreases |es|
  {
    if es != [] && !es[0].Dismisses() {
      SinksKeepMirroring(Step(s, es[0]), es[1..]);
      assert forall i :: 1 <= i < |es| ==> es[i] == es[1..][i - 1];
    }
  }

  /** Dismissals included, the view model never shows an alert its manager
      has not raised. */
  lemma {:induction false} AlertsNeverOutliveManagers(s: ViewModelState, es: seq<Event>)
    requires Shadows(s)
    ensures Shadows(Run(s, es))
    decreases |es|
  {
    if es != [] {
      AlertsNeverOutliveManagers(Step(s, es[0]), es[1..]);
    }
  }

  /** Nothing after `setUp()` raises the location alert. The manager's flag is
      cleared only by an authorized callback; the view model's flag also by a
      dismissal. */
  lemma {:induction false} LocationAlertClearedOnlyByGrant(s: ViewModelState, es: seq<Event>)
    ensures Run(s, es).location.showLocationAlert <==>
            s.location.showLocationAlert && forall i :: 0 <= i < |es| ==> !es[i].GrantsLocation()
    ensures Run(s, es).showLocationAlert <==>
            s.showLocationAlert && forall i :: 0 <= i < |es| ==> !es[i].ClearsLocationAlert()
    decreases |es|
  {
    if es != [] {
      LocationAlertClearedOnlyByGrant(Step(s, es[0]), es[1..]);
      assert forall i :: 1 <= i < |es| ==> es[i] == es[1..][i - 1];
    }
  }

  /** After `setUp()`, the view model shows the location alert exactly when the
      status found at setUp was restricted or denied and neither an authorized
      callback nor a dismissal has come since. Its alerts never outlive the
      managers' flags, and they mirror them until the first dismissal. */
  lemma LocationAlertAfterSetUp(status: CLAuthorizationStatus, servicesEnabled: bool, es: seq<Event>)
    ensures Shadows(Run(AfterSetUp(Fresh(), status, servicesEnabled), es))
    ensures (forall i :: 0 <= i < |es| ==> !es[i].Dismisses()) ==>
            Mirrors(Run(AfterSetUp(Fresh(), status, servicesEnabled), es))
    ensures Run(AfterSetUp(Fresh(), status, servicesEnabled), es).showLocationAlert <==>
            status.IsRefused() && forall i :: 0 <= i < |es| ==> !es[i].ClearsLocationAlert()
    ensures Run(AfterSetUp(Fresh(), status, servicesEnabled), es).location.showLocationAlert <==>
            status.IsRefused() && forall i :: 0 <= i < |es| ==> !es[i].GrantsLocation()
  {
    SinksKeepMirroring(AfterSetUp(Fresh(), status, servicesEnabled), es);
    AlertsNeverOutliveManagers(AfterSetUp(Fresh(), status, servicesEnabled), es);
    LocationAlertClearedOnlyByGrant(AfterSetUp(Fresh(), status, servicesEnabled), es);
  }

  /** What the latest event of `es` that assigns `showCameraAlert` assigned:
      an authorized snapshot, a granted completion or a dismissal clears it, a
      refused snapshot raises it. None when no event of `es` assigns it. */
  function LatestCameraAlert(es: seq<Event>): Option<bool>
    decreases |es|
  {
    if es == [] then None
    else
      match es[|es| - 1]
      case TakeSnapShot(status) =>
        if status.NotDetermined? then LatestCameraAlert(es[..|es| - 1]) else Some(status.IsRefused())
      case CameraAccessCompleted(granted) =>
        if granted then Some(false) else LatestCameraAlert(es[..|es| - 1])
      case DismissCameraAlert => Some(false)
      case _ => LatestCameraAlert(es[..|es| - 1])
  }

  /** The view model's camera alert is whatever the latest assignment made it. */
  lemma {:induction false} CameraAlertFollowsLatestAssignment(s: ViewModelState, es: seq<Event>)
    ensures Run(s, es).showCameraAlert == LatestCameraAlert(es).GetOr(s.showCameraAlert)
    decreases |es|
  {
    if es != [] {
      var init := es[..|es| - 1];
      assert es == init + [es[|es| - 1]];
      Traces.RunAppend(Step, s, init, es[|es| - 1]);
      CameraAlertFollowsLatestAssignment(s, init);
    }
  }

  // ---------------------------------------------------------------------------
  // The classes

  /** The LocationManager class: each method is the Swift method of the same
      name, with the values it reads from the OS passed in as parameters. */
  class LocationManager {
    var delegateSet: bool
    var authorizationRequests: nat
    var updating: bool
    var lastKnownLocation: Option<CLLocation>
    var showLocationAlert: bool

    function Model(): LocationState
      reads this
    {
      LocationState(delegateSet, authorizationRequests, updating, lastKnownLocation, showLocationAlert)
    }

    constructor ()
      ensures Model() == InitialLocation()
    {
      delegateSet, authorizationRequests, updating := false, 0, false;
      lastKnownLocation := None;
      showLocationAlert := false;
    }

    method StartUpdating(status: CLAuthorizationStatus, servicesEnabled: bool)
      modifies this
      ensures Model() == AfterStartUpdating(old(Model()), status, servicesEnabled)
    {
      delegateSet := true;
      match status {
        case NotDetermined =>
          authorizationRequests := authorizationRequests + 1;
        case AuthorizedWhenInUse | AuthorizedAlways =>
          if servicesEnabled {
            LocationServicesEnabled();
          }
        case Restricted | Denied =>
          AlertLocationAccessNeeded();
      }
    }

    method DidUpdateLocations(locations: seq<CLLocation>)
      modifies this
      ensures Model() == AfterDidUpdateLocations(old(Model()), locations)
    {
      lastKnownLocation := Last(locations);
    }

    method LocationServicesEnabled()
      modifies this
      ensures Model() == AfterLocationServicesEnabled(old(Model()))
    {
      updating := true;
      showLocationAlert := false;
    }

    method DidChangeAuthorization(status: CLAuthorizationStatus)
      modifies this
      ensures Model() == AfterDidChangeAuthorization(old(Model()), status)
    {
      if status == AuthorizedWhenInUse || status == AuthorizedAlways {
        LocationServicesEnabled();
      }
    }

    method AlertLocationAccessNeeded()
      modifies this
      ensures Model() == AfterAlertLocationAccessNeeded(old(Model()))
    {
      showLocationAlert := true;
    }

    method Deinit()
      modifies this
      ensures Model() == AfterDeinit(old(Model()))
    {
      updating := false;
    }
  }

  /** The CameraManager class; `status` is
      `AVCaptureDevice.authorizationStatus(for: .video)`. */
  class CameraManager {
    var permissionRequests: nat
    var pickersCreated: nat
    var showCameraAlert: bool

    function Model(): CameraState
      reads this
    {
      CameraState(permissionRequests, pickersCreated, showCameraAlert)
    }

    constructor ()
      ensures Model() == InitialCamera()
    {
      permissionRequests, pickersCreated, showCameraAlert := 0, 0, false;
    }

    method TakePicture(status: AVAuthorizationStatus)
      modifies this
      ensures Model() == AfterTakePicture(old(Model()), status)
    {
      match status {
        case NotDetermined => RequestCameraPermission();
        case Authorized => PresentCamera();
        case Restricted | Denied => AlertCameraAccessNeeded();
      }
    }

    method RequestCameraPermission()
      modifies this
      ensures Model() == AfterRequestCameraPermission(old(Model()))
    {
      permissionRequests := permissionRequests + 1;
    }

    /** The completion handler passed to `requestAccess`. */
    method CameraAccessCompleted(accessGranted: bool)
      modifies this
      ensures Model() == AfterCameraAccessCompleted(old(Model()), accessGranted)
    {
      if !accessGranted {
        return;
      }
      PresentCamera();
    }

    method PresentCamera()
      modifies this
      ensures Model() == AfterPresentCamera(old(Model()))
    {
      showCameraAlert := false;
      pickersCreated := pickersCreated + 1;
    }

    method AlertCameraAccessNeeded()
      modifies this
      ensures Model() == AfterAlertCameraAccessNeeded(old(Model()))
    {
      showCameraAlert := true;
    }
  }

  /** The EditHazardViewModel class. Its sinks are modelled as copies of the
      managers' flags made right after each call that may assign them. */
  class EditHazardViewModel {
    const location: LocationManager
    const camera: CameraManager
    var showLocationAlert: bool
    var showCameraAlert: bool

    function Model(): ViewModelState
      reads this, location, camera
    {
      ViewModelState(location.Model(), camera.Model(), showLocationAlert, showCameraAlert)
    }

    /** The view model shows no alert its manager has not raised. */
    ghost predicate Valid()
      reads this, location, camera
    {
      Shadows(Model())
    }

    /** `init()`: fresh managers, then `setUp()` with the location status and
        services answer the OS gives at that moment. */
    constructor (status: CLAuthorizationStatus, servicesEnabled: bool)
      ensures fresh(location) && fresh(camera)
      ensures Valid() && Mirrors(Model())
      ensures Model() == AfterSetUp(Fresh(), status, servicesEnabled)
    {
      location := new LocationManager();
      camera := new CameraManager();
      showLocationAlert, showCameraAlert := false, false;
      new;
      SetUp(status, servicesEnabled);
    }

    method SetUp(status: CLAuthorizationStatus, servicesEnabled: bool)
      modifies this, location
      ensures Model() == AfterSetUp(old(Model()), status, servicesEnabled)
    {
      showLocationAlert := location.showLocationAlert;
      location.StartUpdating(status, servicesEnabled);
      showLocationAlert := location.showLocationAlert;
      showCameraAlert := camera.showCameraAlert;
    }

    /** The sink fires only when `takePicture()` assigns the camera's flag,
        that is, unless the status is not determined. */
    method TakeSnapShot(status: AVAuthorizationStatus)
      modifies this, camera
      ensures old(Valid()) ==> Valid()
      ensures Model() == AfterTakeSnapShot(old(Model()), status)
    {
      camera.TakePicture(status);
      if !status.NotDetermined? {
        showCameraAlert := camera.showCameraAlert;
      }
    }

    method LocationAuthorizationChanged(status: CLAuthorizationStatus)
      modifies this, location
      ensures old(Valid()) ==> Valid()
      ensures Model() == AfterLocationAuthorizationChanged(old(Model()), status)
    {
      location.DidChangeAuthorization(status);
      if status.IsAuthorized() {
        showLocationAlert := location.showLocationAlert;
      }
    }

    method LocationsUpdated(locations: seq<CLLocation>)
      modifies location
      ensures old(Valid()) ==> Valid()
      ensures Model() == AfterLocationsUpdated(old(Model()), locations)
    {
      location.DidUpdateLocations(locations);
    }

    method CameraAccessCompleted(accessGranted: bool)
      modifies this, camera
      ensures old(Valid()) ==> Valid()
      ensures Model() == AfterCameraAccessCompletedThroughSink(old(Model()), accessGranted)
    {
      camera.CameraAccessCompleted(accessGranted);
      if accessGranted {
        showCameraAlert := camera.showCameraAlert;
      }
    }

    /** The write of the `.alert(isPresented: $viewModel.showLocationAlert)`
        binding when the user dismisses the alert. */
    method DismissLocationAlert()
      modifies this
      ensures old(Valid()) ==> Valid()
      ensures Model() == AfterDismissLocationAlert(old(Model()))
    {
      showLocationAlert := false;
    }

    /** The write of the `.alert(isPresented: $viewModel.showCameraAlert)`
        binding when the user dismisses the alert. */
    method DismissCameraAlert()
      modifies this
      ensures old(Valid()) ==> Valid()
      ensures Model() == AfterDismissCameraAlert(old(Model()))
    {
      showCameraAlert := false;
    }
  }
}
