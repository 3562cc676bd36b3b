/** The camera authorization manager of Managers/CameraAuthorizationManager.swift.

    It publishes two boolean subjects, `needCameraAuthorization` and
    `cameraAuthorized`. Asking AVFoundation for access is recorded as a count of
    requests; the completion of such a request is a separate event. */
module CameraAuthorizationModel {
  import opened Optionals
  import Traces
  import opened AVFoundation
  import opened Combine

  /** Everything a CameraAuthorizationManager changes. */
  datatype State = State(
    accessRequests: nat,               // calls to AVCaptureDevice.requestAccess(for: .video)
    needCameraAuthorization: CurrentValueSubject<bool>,
    cameraAuthorized: CurrentValueSubject<bool>)

  /** A fresh manager: both subjects hold false. */
  function Initial(): State {
    State(0, Subject(false), Subject(false))
  }

  /** `cameraAuthorizationGranted()`: send false to `needCameraAuthorization`
      and true to `cameraAuthorized`. */
  function AfterCameraAuthorizationGranted(s: State): (r: State)
    ensures !r.needCameraAuthorization.value && r.cameraAuthorized.value
    ensures r.needCameraAuthorization == s.needCameraAuthorization.Send(false)
    ensures r.cameraAuthorized == s.cameraAuthorized.Send(true)
    ensures r.accessRequests == s.accessRequests
  {
    s.(needCameraAuthorization := s.needCameraAuthorization.Send(false),
       cameraAuthorized := s.cameraAuthorized.Send(true))
  }

  /** `cameraAuthorizationNeeded()`: send true to `needCameraAuthorization`. */
  function AfterCameraAuthorizationNeeded(s: State): (r: State)
    ensures r.needCameraAuthorization.value
    ensures r.needCameraAuthorization == s.needCameraAuthorization.Send(true)
    ensures r.cameraAuthorized == s.cameraAuthorized && r.accessRequests == s.accessRequests
  {
    s.(needCameraAuthorization := s.needCameraAuthorization.Send(true))
  }

  /** `requestCameraPermission()`: one more access request is outstanding; no
      subject is touched until its completion arrives. */
  function AfterRequestCameraPermission(s: State): (r: State)
    ensures r.accessRequests == s.accessRequests + 1
    ensures r.needCameraAuthorization == s.needCameraAuthorization && r.cameraAuthorized == s.cameraAuthorized
  {
    s.(accessRequests := s.accessRequests + 1)
  }

  /** `authorizeCamera()` when AVFoundation reports `status`. */
  function AfterAuthorizeCamera(s: State, status: AVAuthorizationStatus): (r: State)
    ensures status.NotDetermined? ==>
              r.accessRequests == s.accessRequests + 1 &&
              r.needCameraAuthorization == s.needCameraAuthorization &&
              r.cameraAuthorized == s.cameraAuthorized
    ensures !status.NotDetermined? ==> r.accessRequests == s.accessRequests
    ensures status.Authorized? ==>
              !r.needCameraAuthorization.value && r.cameraAuthorized.value &&
              r.needCameraAuthorization == s.needCameraAuthorization.Send(false) &&
              r.cameraAuthorized == s.cameraAuthorized.Send(true)
    ensures status.IsRefused() ==>
              r.needCameraAuthorization.value && r.cameraAuthorized == s.cameraAuthorized &&
              r.needCameraAuthorization == s.needCameraAuthorization.Send(true)
  {
    match status
    case NotDetermined => AfterRequestCameraPermission(s)
    case Authorized => AfterCameraAuthorizationGranted(s)
    case Restricted | Denied => AfterCameraAuthorizationNeeded(s)
  }

  /** The completion handler of `requestAccess`: granted behaves exactly like
      `authorizeCamera()` with an authorized status; refused is ignored, so it
      does not raise `needCameraAuthorization` either. */
  function AfterAccessCompleted(s: State, granted: bool): (r: State)
    ensures granted ==> r == AfterAuthorizeCamera(s, Authorized)
    ensures !granted ==> r == s
  {
    if granted then AfterCameraAuthorizationGranted(s) else s
  }

  /** Calling `authorizeCamera()` again with the same authorized status leaves
      both flags where the first call put them (it still emits again). */
  lemma AuthorizeTwiceSameFlags(s: State)
    ensures var once := AfterAuthorizeCamera(s, Authorized);
            var twice := AfterAuthorizeCamera(once, Authorized);
            twice.needCameraAuthorization.value == once.needCameraAuthorization.value &&
            twice.cameraAuthorized.value == once.cameraAuthorized.value &&
            |twice.cameraAuthorized.sent| == |once.cameraAuthorized.sent| + 1
  {
  }

  /** The calls that can reach a CameraAuthorizationManager: its four
      non-private methods, and the completion of an access request, which may
      arrive at any point, even with no request outstanding. */
  datatype Event =
    | AuthorizeCamera(status: AVAuthorizationStatus)
    | RequestCameraPermission
    | AccessCompleted(granted: bool)
    | CameraAuthorizationGranted
    | CameraAuthorizationNeeded

  function Step(s: State, e: Event): State {
    match e
    case AuthorizeCamera(status) => AfterAuthorizeCamera(s, status)
    case RequestCameraPermission => AfterRequestCameraPermission(s)
    case AccessCompleted(granted) => AfterAccessCompleted(s, granted)
    case CameraAuthorizationGranted => AfterCameraAuthorizationGranted(s)
    case CameraAuthorizationNeeded => AfterCameraAuthorizationNeeded(s)
  }

  /** The state after the events `es`, first one first. */
  function Run(s: State, es: seq<Event>): State {
    Traces.Run(Step, s, es)
  }

  /** `cameraAuthorized` is only ever sent true, so once true it stays true;
      no emission of either subject is ever lost. */
  lemma {:induction false} CameraAuthorizedNeverRevoked(s: State, es: seq<Event>)
    ensures s.cameraAuthorized.value ==> Run(s, es).cameraAuthorized.value
    ensures s.cameraAuthorized.OnlyEverSent(true) ==> Run(s, es).cameraAuthorized.OnlyEverSent(true)
    ensures s.cameraAuthorized.sent <= Run(s, es).cameraAuthorized.sent
    ensures s.needCameraAuthorization.sent <= Run(s, es).needCameraAuthorization.sent
    decreases |es|
  {
    if es != [] {
      var t := Step(s, es[0]);
      assert s.cameraAuthorized.OnlyEverSent(true) ==> t.cameraAuthorized.OnlyEverSent(true);
      CameraAuthorizedNeverRevoked(t, es[1..]);
    }
  }

  /** What the latest verdict-bearing event of `es` did to
      `needCameraAuthorization`: an authorized status, a granted completion or a
      direct `cameraAuthorizationGranted()` clears it; a refused status or a
      direct `cameraAuthorizationNeeded()` raises it. None when no event
      touches it. */
  function LatestNeedVerdict(es: seq<Event>): Option<bool>
    decreases |es|
  {
    if es == [] then None
    else
      match es[|es| - 1]
      case AuthorizeCamera(status) =>
        if status.Authorized? then Some(false)
        else if status.IsRefused() then Some(true)
        else LatestNeedVerdict(es[..|es| - 1])
      case AccessCompleted(granted) =>
        if granted then Some(false) else LatestNeedVerdict(es[..|es| - 1])
      case CameraAuthorizationGranted => Some(false)
      case CameraAuthorizationNeeded => Some(true)
      case RequestCameraPermission => LatestNeedVerdict(es[..|es| - 1])
  }

  /** `needCameraAuthorization` holds what the latest verdict said. */
  lemma {:induction false} NeedFollowsLatestVerdict(s: State, es: seq<Event>)
    ensures Run(s, es).needCameraAuthorization.value ==
            LatestNeedVerdict(es).GetOr(s.needCameraAuthorization.value)
    decreases |es|
  {
    if es != [] {
      var init := es[..|es| - 1];
      assert es == init + [es[|es| - 1]];
      Traces.RunAppend(Step, s, init, es[|es| - 1]);
      NeedFollowsLatestVerdict(s, init);
    }
  }

  /** The number of access requests `es` asks for: `authorizeCamera()` calls
      that found the status not determined, and direct
      `requestCameraPermission()` calls. */
  function RequestingCalls(es: seq<Event>): nat
    decreases |es|
  {
    if es == [] then 0
    else (if es[0] == AuthorizeCamera(NotDetermined) || es[0] == RequestCameraPermission then 1 else 0)
         + RequestingCalls(es[1..])
  }

  /** An access request is issued exactly once per `authorizeCamera()` that
      found the status not determined and per direct
      `requestCameraPermission()`; never by a completion or a flag update. */
  lemma {:induction false} RequestsOnlyWhenUndetermined(s: State, es: seq<Event>)
    ensures Run(s, es).accessRequests == s.accessRequests + RequestingCalls(es)
    decreases |es|
  {
    if es != [] {
      RequestsOnlyWhenUndetermined(Step(s, es[0]), es[1..]);
    }
  }

  /** The class itself: each method is the Swift method of the same name, with
      the status AVFoundation reports passed in as a parameter. */
  class CameraAuthorizationManager {
    var accessRequests: nat
    var needCameraAuthorization: CurrentValueSubject<bool>
    var cameraAuthorized: CurrentValueSubject<bool>

    function Model(): State
      reads this
    {
      State(accessRequests, needCameraAuthorization, cameraAuthorized)
    }

    constructor ()
      ensures Model() == Initial()
    {
      accessRequests := 0;
      needCameraAuthorization := Subject(false);
      cameraAuthorized := Subject(false);
    }

    /** `status` is `AVCaptureDevice.authorizationStatus(for: .video)`. */
    method AuthorizeCamera(status: AVAuthorizationStatus)
      modifies this
      ensures Model() == AfterAuthorizeCamera(old(Model()), status)
    {
      match status {
        case NotDetermined => RequestCameraPermission();
        case Authorized => CameraAuthorizationGranted();
        case Restricted | Denied => CameraAuthorizationNeeded();
      }
    }

    method RequestCameraPermission()
      modifies this
      ensures Model() == AfterRequestCameraPermission(old(Model()))
    {
      accessRequests := accessRequests + 1;
    }

    /** The completion handler passed to `requestAccess`. */
    method AccessCompleted(accessGranted: bool)
      modifies this
      ensures Model() == AfterAccessCompleted(old(Model()), accessGranted)
    {
      if !accessGranted {
        return;
      }
      CameraAuthorizationGranted();
    }

    method CameraAuthorizationGranted()
      modifies this
      ensures Model() == AfterCameraAuthorizationGranted(old(Model()))
    {
      needCameraAuthorization := needCameraAuthorization.Send(false);
      cameraAuthorized := cameraAuthorized.Send(true);
    }

    method CameraAuthorizationNeeded()
      modifies this
      ensures Model() == AfterCameraAuthorizationNeeded(old(Model()))
    {
      needCameraAuthorization := needCameraAuthorization.Send(true);
    }
  }
}
