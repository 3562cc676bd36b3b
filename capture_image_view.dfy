/** The image picker coordinator of Views/CaptureImageView.swift.

    The Coordinator writes through three bindings owned by CaptureImageView:
    whether the picker is shown, the SwiftUI image, and the UIKit image. The
    picker reports either a finished pick, with an info dictionary, or a
    cancellation. */
module CaptureImageModel {
  import opened Optionals
  import Traces

  /** A photo as UIKit hands it over; its content is opaque here. */
  datatype UIImage = UIImage(id: nat)

  /** SwiftUI's `Image(uiImage:)`, wrapping the UIKit image it was built from. */
  datatype Image = Image(uiImage: UIImage)

  /** Some keys of the picker's info dictionary; only `originalImage` is ever
      read, so the others stand for all the rest. */
  datatype InfoKey = MediaType | OriginalImage | EditedImage | CropRect | MediaURL | ImageURL

  /** A value of the info dictionary (`Any`): a UIImage or something else. */
  datatype InfoValue = ImageValue(image: UIImage) | OtherValue

  /** `info[.originalImage] as? UIImage`: present and of the right type. */
  function OriginalImageOf(info: map<InfoKey, InfoValue>): (r: Option<UIImage>)
    ensures r.Some? <==> OriginalImage in info && info[OriginalImage].ImageValue?
    ensures r.Some? ==> info[OriginalImage] == ImageValue(r.value)
  {
    if OriginalImage in info && info[OriginalImage].ImageValue? then Some(info[OriginalImage].image)
    else None
  }

  /** The three bound values. */
  datatype Bindings = Bindings(isShown: bool, image: Option<Image>, uiImage: Option<UIImage>)

  /** The two images describe the same capture: both nil, or the SwiftUI image
      built from the UIKit one. */
  predicate ImagesPaired(b: Bindings) {
    b.image == (if b.uiImage.Some? then Some(Image(b.uiImage.value)) else None)
  }

  /** `imagePickerController(_:didFinishPickingMediaWithInfo:)`. */
  function AfterFinishPicking(b: Bindings, info: map<InfoKey, InfoValue>): (r: Bindings)
    // with an original image: both images are that capture, the picker is hidden
    ensures OriginalImageOf(info).Some? ==>
              r.uiImage == OriginalImageOf(info) && ImagesPaired(r) && !r.isShown
    // without one: the guard returns early and nothing changes
    ensures OriginalImageOf(info).None? ==> r == b
  {
    match OriginalImageOf(info)
    case None => b
    case Some(picked) => Bindings(false, Some(Image(picked)), Some(picked))
  }

  /** `imagePickerControllerDidCancel(_:)`: hide the picker, keep any image. */
  function AfterCancel(b: Bindings): (r: Bindings)
    ensures !r.isShown
    ensures r.image == b.image && r.uiImage == b.uiImage
  {
    b.(isShown := false)
  }

  /** A second successful capture replaces the first; nothing accumulates. */
  lemma SecondCaptureOverwrites(b: Bindings, first: map<InfoKey, InfoValue>, second: map<InfoKey, InfoValue>)
    requires OriginalImageOf(second).Some?
    ensures AfterFinishPicking(AfterFinishPicking(b, first), second) == AfterFinishPicking(b, second)
  {
  }

  /** What the picker reports to the coordinator. */
  datatype Event = FinishPicking(info: map<InfoKey, InfoValue>) | Cancel

  function Step(b: Bindings, e: Event): Bindings {
    match e
    case FinishPicking(info) => AfterFinishPicking(b, info)
    case Cancel => AfterCancel(b)
  }

  /** The bindings after the events `es`, first one first. */
  function Run(b: Bindings, es: seq<Event>): Bindings {
    Traces.Run(Step, b, es)
  }

  /** The coordinator never pairs a SwiftUI image with a different UIKit image,
      and never shows the picker: it only ever hides it. */
  lemma {:induction false} CoordinatorKeepsImagesPaired(b: Bindings, es: seq<Event>)
    ensures ImagesPaired(b) ==> ImagesPaired(Run(b, es))
    ensures !b.isShown ==> !Run(b, es).isShown
    decreases |es|
  {
    if es != [] {
      CoordinatorKeepsImagesPaired(Step(b, es[0]), es[1..]);
    }
  }

  /** The original image of the latest pick in `es` that carried one; `before`
      when none did. */
  function LatestCapture(es: seq<Event>, before: Option<UIImage>): Option<UIImage>
    decreases |es|
  {
    if es == [] then before
    else
      match es[|es| - 1]
      case FinishPicking(info) =>
        if OriginalImageOf(info).Some? then OriginalImageOf(info) else LatestCapture(es[..|es| - 1], before)
      case Cancel => LatestCapture(es[..|es| - 1], before)
  }

  /** The bound UIKit image is the one of the latest successful capture:
      cancellations and picks without an image leave it alone. */
  lemma {:induction false} ImageIsLatestCapture(b: Bindings, es: seq<Event>)
    ensures Run(b, es).uiImage == LatestCapture(es, b.uiImage)
    decreases |es|
  {
    if es != [] {
      var init := es[..|es| - 1];
      assert es == init + [es[|es| - 1]];
      Traces.RunAppend(Step, b, init, es[|es| - 1]);
      ImageIsLatestCapture(b, init);
    }
  }

  /** The Coordinator class; its fields stand for the storage its bindings
      write through to. */
  class Coordinator {
    var isCoordinatorShown: bool
    var imageInCoordinator: Option<Image>
    var uiImageInCoordinator: Option<UIImage>

    function Model(): Bindings
      reads this
    {
      Bindings(isCoordinatorShown, imageInCoordinator, uiImageInCoordinator)
    }

    constructor (isShown: bool, image: Option<Image>, uiImage: Option<UIImage>)
      ensures Model() == Bindings(isShown, image, uiImage)
    {
      isCoordinatorShown := isShown;
      imageInCoordinator := image;
      uiImageInCoordinator := uiImage;
    }

    method DidFinishPickingMediaWithInfo(info: map<InfoKey, InfoValue>)
      modifies this
      ensures Model() == AfterFinishPicking(old(Model()), info)
    {
      if OriginalImage !in info || !info[OriginalImage].ImageValue? {
        return;
      }
      var unwrapImage := info[OriginalImage].image;
      uiImageInCoordinator := Some(unwrapImage);
      imageInCoordinator := Some(Image(unwrapImage));
      isCoordinatorShown := false;
    }

    method DidCancel()
      modifies this
      ensures Model() == AfterCancel(old(Model()))
    {
      isCoordinatorShown := false;
    }
  }
}
