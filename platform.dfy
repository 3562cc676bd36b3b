/** Swift's Optional, and `Array.last`. */
module Optionals {

  datatype Option<T> = None | Some(value: T) {

    /** The wrapped value, or `default` when there is none (Swift's `??`). */
    function GetOr(default: T): T {
      match this
      case Some(v) => v
      case None => default
    }
  }

  /** `xs.last`: the final element of `xs`, nil when `xs` is empty. */
  function Last<T>(xs: seq<T>): (r: Option<T>)
    ensures r.None? <==> |xs| == 0
    ensures r.Some? ==> r.value == xs[|xs| - 1]
  {
    if |xs| == 0 then None else Some(xs[|xs| - 1])
  }
}

/** The parts of CoreLocation the managers consult. Status values and fixes are
    inputs handed to the model by the operating system. */
module CoreLocation {

  /** CLAuthorizationStatus: the five cases a switch over it has to cover. */
  datatype CLAuthorizationStatus =
    | NotDetermined
    | Restricted
    | Denied
    | AuthorizedAlways
    | AuthorizedWhenInUse
  {
    /** `.authorizedWhenInUse` or `.authorizedAlways`. */
    predicate IsAuthorized() {
      AuthorizedAlways? || AuthorizedWhenInUse?
    }

    /** `.restricted` or `.denied`. */
    predicate IsRefused() {
      Restricted? || Denied?
    }
  }

  /** A location fix delivered by the location stream. */
  datatype CLLocation = CLLocation(latitude: real, longitude: real, timestamp: int)
}

/** The part of AVFoundation the camera managers consult. */
module AVFoundation {

  /** AVAuthorizationStatus for the `.video` media type. */
  datatype AVAuthorizationStatus =
    | NotDetermined
    | Restricted
    | Denied
    | Authorized
  {
    /** `.restricted` or `.denied`. */
    predicate IsRefused() {
      Restricted? || Denied?
    }
  }
}

/** Combine's CurrentValueSubject, reduced to what a subscriber can observe. */
module Combine {

  /** A subject holding `value`, with `sent` recording every value passed to
      `send`, oldest first. Sending a value equal to the current one is still an
      emission: the subject does not remove duplicates. */
  datatype CurrentValueSubject<T(==)> = CurrentValueSubject(value: T, sent: seq<T>) {

    /** `send(v)`: `v` becomes the current value and is emitted. */
    function Send(v: T): (r: CurrentValueSubject<T>)
      ensures r.value == v
      ensures |r.sent| == |sent| + 1 && r.sent[..|sent|] == sent && r.sent[|sent|] == v
    {
      CurrentValueSubject(v, sent + [v])
    }

    /** Every value ever sent equals `v`. */
    predicate OnlyEverSent(v: T) {
      forall i :: 0 <= i < |sent| ==> sent[i] == v
    }
  }

  /** `CurrentValueSubject<T, Never>(initial)`: nothing sent yet. */
  function Subject<T(==)>(initial: T): (r: CurrentValueSubject<T>)
    ensures r.value == initial && r.sent == []
  {
    CurrentValueSubject(initial, [])
  }
}
