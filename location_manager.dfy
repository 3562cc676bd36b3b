/** The location authorization manager of Managers/LocationManager.swift.

    It owns a CLLocationManager and publishes two boolean subjects,
    `locationAuthorizationNeeded` and `isLocationAuthorized`. What it does to the
    CLLocationManager is recorded as state: whether it registered itself as the
    delegate, how many times it asked for when-in-use authorization, and whether
    the location stream is running. */
module LocationManagerModel {
  import opened Optionals
  import Traces
  import opened CoreLocation
  import opened Combine

  /** Everything a LocationManager changes. */
  datatype State = State(
    delegateSet: bool,                 // manager.delegate is this manager
    authorizationRequests: nat,        // calls to requestWhenInUseAuthorization()
    updating: bool,                    // startUpdatingLocation() is in effect
    lastKnownLocation: Option<CLLocation>,
    locationAuthorizationNeeded: CurrentValueSubject<bool>,
    isLocationAuthorized: CurrentValueSubject<bool>)

  /** A freshly initialised manager: both subjects hold false. */
  function Initial(): State {
    State(false, 0, false, None, Subject(false), Subject(false))
  }

  /** `locationServicesEnabled()`: start the stream, send false to
      `locationAuthorizationNeeded` and true to `isLocationAuthorized`. */
  function AfterLocationServicesEnabled(s: State): (r: State)
    ensures r.updating
    ensures !r.locationAuthorizationNeeded.value && r.isLocationAuthorized.value
    ensures r.locationAuthorizationNeeded == s.locationAuthorizationNeeded.Send(false)
    ensures r.isLocationAuthorized == s.isLocationAuthorized.Send(true)
    ensures r.delegateSet == s.delegateSet && r.authorizationRequests == s.authorizationRequests
    ensures r.lastKnownLocation == s.lastKnownLocation
  {
    s.(updating := true,
       locationAuthorizationNeeded := s.locationAuthorizationNeeded.Send(false),
       isLocationAuthorized := s.isLocationAuthorized.Send(true))
  }

  /** `alertLocationAccessNeeded()`: send true to `locationAuthorizationNeeded`. */
  function AfterAlertLocationAccessNeeded(s: State): (r: State)
    ensures r.locationAuthorizationNeeded == s.locationAuthorizationNeeded.Send(true)
    ensures r.locationAuthorizationNeeded.value
    ensures r.(locationAuthorizationNeeded := s.locationAuthorizationNeeded) == s
  {
    s.(locationAuthorizationNeeded := s.locationAuthorizationNeeded.Send(true))
  }

  /** `startUpdating()` when the OS reports `status` and `servicesEnabled` is
      what `CLLocationManager.locationServicesEnabled()` answers. */
  function AfterStartUpdating(s: State, status: CLAuthorizationStatus, servicesEnabled: bool): (r: State)
    // the delegate is registered before the switch, whatever the status
    ensures r.delegateSet
    ensures r.lastKnownLocation == s.lastKnownLocation
    ensures r.authorizationRequests == if status.NotDetermined? then s.authorizationRequests + 1
                                       else s.authorizationRequests
    // not determined: only the permission request
    ensures status.NotDetermined? ==>
              r.updating == s.updating &&
              r.locationAuthorizationNeeded == s.locationAuthorizationNeeded &&
              r.isLocationAuthorized == s.isLocationAuthorized
    // authorized and services on: updates start, "authorized, not needed"
    ensures status.IsAuthorized() && servicesEnabled ==>
              r.updating && !r.locationAuthorizationNeeded.value && r.isLocationAuthorized.value &&
              r.locationAuthorizationNeeded == s.locationAuthorizationNeeded.Send(false) &&
              r.isLocationAuthorized == s.isLocationAuthorized.Send(true)
    // authorized but services off: nothing but the delegate
    ensures status.IsAuthorized() && !servicesEnabled ==> r == s.(delegateSet := true)
    // refused: "needed" is raised, "authorized" and the stream are left alone
    ensures status.IsRefused() ==>
              r.locationAuthorizationNeeded == s.locationAuthorizationNeeded.Send(true) &&
              r.isLocationAuthorized == s.isLocationAuthorized &&
              r.updating == s.updating
  {
    var d := s.(delegateSet := true);
    match status
    case NotDetermined => d.(authorizationRequests := d.authorizationRequests + 1)
    case AuthorizedWhenInUse | AuthorizedAlways =>
      if servicesEnabled then AfterLocationServicesEnabled(d) else d
    case Restricted | Denied => AfterAlertLocationAccessNeeded(d)
  }

  /** `locationManager(_:didUpdateLocations:)`: the last fix of the batch
      replaces the stored one; an empty batch stores nil. */
  function AfterDidUpdateLocations(s: State, locations: seq<CLLocation>): (r: State)
    ensures r.lastKnownLocation == Last(locations)
    ensures r.(lastKnownLocation := s.lastKnownLocation) == s
  {
    s.(lastKnownLocation := Last(locations))
  }

  /** `locationManager(_:didChangeAuthorization:)`: an authorized status has the
      effect of the authorized branch of `startUpdating` with services on, save
      for the delegate; any other status changes nothing. */
  function AfterDidChangeAuthorization(s: State, status: CLAuthorizationStatus): (r: State)
    ensures status.IsAuthorized() ==> r == AfterStartUpdating(s, status, true).(delegateSet := s.delegateSet)
    ensures !status.IsAuthorized() ==> r == s
  {
    if status.IsAuthorized() then AfterLocationServicesEnabled(s) else s
  }

  /** `deinit`: the location stream is stopped. */
  function AfterDeinit(s: State): (r: State)
    ensures !r.updating
    ensures r.(updating := s.updating) == s
  {
    s.(updating := false)
  }

  /** The calls the outside world makes into a LocationManager. Callbacks may
      arrive in any order, including after `Deinit`. */
  datatype Event =
    | StartUpdating(status: CLAuthorizationStatus, servicesEnabled: bool)
    | DidUpdateLocations(locations: seq<CLLocation>)
    | DidChangeAuthorization(changedTo: CLAuthorizationStatus)
    | Deinit

  function Step(s: State, e: Event): State {
    match e
    case StartUpdating(status, enabled) => AfterStartUpdating(s, status, enabled)
    case DidUpdateLocations(locations) => AfterDidUpdateLocations(s, locations)
    case DidChangeAuthorization(status) => AfterDidChangeAuthorization(s, status)
    case Deinit => AfterDeinit(s)
  }

  /** The state after the events `es`, first one first. */
  function Run(s: State, es: seq<Event>): State {
    Traces.Run(Step, s, es)
  }

  /** Nothing the manager does is ever undone by a later event: the delegate
      stays registered, `isLocationAuthorized` is only ever sent true so it never
      falls back to false, and every emission of both subjects stays recorded. */
  lemma {:induction false} NothingIsUndone(s: State, es: seq<Event>)
    ensures s.delegateSet ==> Run(s, es).delegateSet
    ensures s.isLocationAuthorized.value ==> Run(s, es).isLocationAuthorized.value
    ensures s.isLocationAuthorized.OnlyEverSent(true) ==> Run(s, es).isLocationAuthorized.OnlyEverSent(true)
    ensures s.isLocationAuthorized.sent <= Run(s, es).isLocationAuthorized.sent
    ensures s.locationAuthorizationNeeded.sent <= Run(s, es).locationAuthorizationNeeded.sent
    ensures s.authorizationRequests <= Run(s, es).authorizationRequests
    decreases |es|
  {
    if es != [] {
      var t := Step(s, es[0]);
      assert s.isLocationAuthorized.OnlyEverSent(true) ==> t.isLocationAuthorized.OnlyEverSent(true);
      NothingIsUndone(t, es[1..]);
    }
  }

  /** The location stream only ever runs once `isLocationAuthorized` has been
      sent true. */
  predicate UpdatesImplyAuthorized(s: State) {
    s.updating ==> s.isLocationAuthorized.value
  }

  lemma {:induction false} UpdatesOnlyWhenAuthorized(s: State, es: seq<Event>)
    requires UpdatesImplyAuthorized(s)
    ensures UpdatesImplyAuthorized(Run(s, es))
    decreases |es|
  {
    if es != [] {
      UpdatesOnlyWhenAuthorized(Step(s, es[0]), es[1..]);
    }
  }

  /** What the latest verdict-bearing event of `es` did to
      `locationAuthorizationNeeded`: an authorized start with services on, or an
      authorized callback, clears it; a refused start raises it; nothing else
      touches it. None when no event of `es` touches it. */
  function LatestNeededVerdict(es: seq<Event>): Option<bool>
    decreases |es|
  {
    if es == [] then None
    else
      match es[|es| - 1]
      case StartUpdating(status, enabled) =>
        if status.IsAuthorized() && enabled then Some(false)
        else if status.IsRefused() then Some(true)
        else LatestNeededVerdict(es[..|es| - 1])
      case DidChangeAuthorization(status) =>
        if status.IsAuthorized() then Some(false) else LatestNeededVerdict(es[..|es| - 1])
      case _ => LatestNeededVerdict(es[..|es| - 1])
  }

  /** `locationAuthorizationNeeded` holds what the latest verdict said; in
      particular a refused authorization callback never raises it. */
  lemma {:induction false} NeededFollowsLatestVerdict(s: State, es: seq<Event>)
    ensures Run(s, es).locationAuthorizationNeeded.value ==
            LatestNeededVerdict(es).GetOr(s.locationAuthorizationNeeded.value)
    decreases |es|
  {
    if es != [] {
      var init := es[..|es| - 1];
      assert es == init + [es[|es| - 1]];
      Traces.RunAppend(Step, s, init, es[|es| - 1]);
      NeededFollowsLatestVerdict(s, init);
    }
  }

  /** The last fix of the latest batch in `es`; `before` when `es` holds no batch. */
  function LatestFix(es: seq<Event>, before: Option<CLLocation>): Option<CLLocation>
    decreases |es|
  {
    if es == [] then before
    else
      match es[|es| - 1]
      case DidUpdateLocations(locations) => Last(locations)
      case _ => LatestFix(es[..|es| - 1], before)
  }

  /** `lastKnownLocation` is overwritten by every batch, never merged: it is the
      last fix of the latest batch. */
  lemma {:induction false} LastKnownLocationIsLatestFix(s: State, es: seq<Event>)
    ensures Run(s, es).lastKnownLocation == LatestFix(es, s.lastKnownLocation)
    decreases |es|
  {
    if es != [] {
      var init := es[..|es| - 1];
      assert es == init + [es[|es| - 1]];
      Traces.RunAppend(Step, s, init, es[|es| - 1]);
      LastKnownLocationIsLatestFix(s, init);
    }
  }

  /** From a fresh manager, whatever happens: `isLocationAuthorized` has only
      ever been sent true, and the stream runs only while it holds true. */
  lemma FreshManagerInvariants(es: seq<Event>)
    ensures Run(Initial(), es).isLocationAuthorized.OnlyEverSent(true)
    ensures UpdatesImplyAuthorized(Run(Initial(), es))
  {
    NothingIsUndone(Initial(), es);
    UpdatesOnlyWhenAuthorized(Initial(), es);
  }

  /** The class itself: each method is the Swift method of the same name, with
      the values it reads from the OS passed in as parameters. */
  class LocationManager {
    var delegateSet: bool
    var authorizationRequests: nat
    var updating: bool
    var lastKnownLocation: Option<CLLocation>
    var locationAuthorizationNeeded: CurrentValueSubject<bool>
    var isLocationAuthorized: CurrentValueSubject<bool>

    function Model(): State
      reads this
    {
      State(delegateSet, authorizationRequests, updating, lastKnownLocation,
            locationAuthorizationNeeded, isLocationAuthorized)
    }

    constructor ()
      ensures Model() == Initial()
    {
      delegateSet, authorizationRequests, updating := false, 0, false;
      lastKnownLocation := None;
      locationAuthorizationNeeded := Subject(false);
      isLocationAuthorized := Subject(false);
    }

    /** `status` is `CLLocationManager.authorizationStatus()` and
        `servicesEnabled` is `CLLocationManager.locationServicesEnabled()`. */
    method StartUpdating(status: CLAuthorizationStatus, servicesEnabled: bool)
      modifies this
      ensures Model() == AfterStartUpdating(old(Model()), status, servicesEnabled)
    {
      delegateSet := true;
      match status {
        case NotDetermined =>
          authorizationRequests := authorizationRequests + 1;
        case AuthorizedWhenInUse | AuthorizedAlways =>
          if servicesEnabled {
            LocationServicesEnabled();
          }
        case Restricted | Denied =>
          AlertLocationAccessNeeded();
      }
    }

    method DidUpdateLocations(locations: seq<CLLocation>)
      modifies this
      ensures Model() == AfterDidUpdateLocations(old(Model()), locations)
    {
      lastKnownLocation := Last(locations);
    }

    method LocationServicesEnabled()
      modifies this
      ensures Model() == AfterLocationServicesEnabled(old(Model()))
    {
      updating := true;
      locationAuthorizationNeeded := locationAuthorizationNeeded.Send(false);
      isLocationAuthorized := isLocationAuthorized.Send(true);
    }

    method DidChangeAuthorization(status: CLAuthorizationStatus)
      modifies this
      ensures Model() == AfterDidChangeAuthorization(old(Model()), status)
    {
      if status == AuthorizedWhenInUse || status == AuthorizedAlways {
        LocationServicesEnabled();
      }
    }

    method AlertLocationAccessNeeded()
      modifies this
      ensures Model() == AfterAlertLocationAccessNeeded(old(Model()))
    {
      locationAuthorizationNeeded := locationAuthorizationNeeded.Send(true);
    }

    method Deinit()
      modifies this
      ensures Model() == AfterDeinit(old(Model()))
    {
      updating := false;
    }
  }
}
