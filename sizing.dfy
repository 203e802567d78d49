/** Size derivation: `set_sizes` and `set_sizes_by_fit` on the four size fields
    `image_width`, `image_height`, `directive_width` and `directive_height`. */
module Sizing {
  import opened JsValues
  import opened ImageDirectives
  import opened Visibility

  /** The `fit` directive as the `switch` in `set_sizes_by_fit` sees it: any value other
      than the three names, absent included, takes the default branch. */
  datatype FitMode = Cropbox | Letterbox | Stretch | DefaultFit

  function FitModeOf(fit: Option<string>): FitMode {
    if fit == Some("cropbox") then Cropbox
    else if fit == Some("letterbox") then Letterbox
    else if fit == Some("stretch") then Stretch
    else DefaultFit
  }

  /** The image size fields (`image_width`, `image_height`): the width and height
      attributes of the rendered image. */
  datatype ImageSize = ImageSize(width: Option<int>, height: Option<int>)

  /** The four size fields of the component. */
  datatype SizeFields = SizeFields(image: ImageSize, directiveWidth: Option<int>, directiveHeight: Option<int>)

  const NoSizes := SizeFields(ImageSize(None, None), None, None)

  /** The grow trigger of the cropbox, letterbox and stretch branches: a truthy requested
      dimension exceeds the stored one, an absent stored value counting as 0. */
  predicate Grows(width: Option<int>, height: Option<int>, current: ImageSize) {
    (Truthy(width) && width.value > OrZero(current.width)) ||
    (Truthy(height) && height.value > OrZero(current.height))
  }

  /** The image size fields after the `switch` of `set_sizes_by_fit`, given the requested
      width and height and the fields before it. */
  function FitImageSize(mode: FitMode, width: Option<int>, height: Option<int>, current: ImageSize): (r: ImageSize)
    // every field is kept, cleared, or set to the requested value of that dimension
    ensures r.width == current.width || r.width == width || r.width == None
    ensures r.height == current.height || r.height == height || r.height == None
    // the three named modes only act on the grow trigger
    ensures mode != DefaultFit && !Grows(width, height, current) ==> r == current
    // letterbox and stretch take the request exactly, absent values included
    ensures (mode == Letterbox || mode == Stretch) && Grows(width, height, current) ==> r == ImageSize(width, height)
    // cropbox keeps a single dimension, and a request without a truthy width changes nothing
    ensures mode == Cropbox ==> r == current || r == ImageSize(None, height) || r == ImageSize(width, None)
    ensures mode == Cropbox && !Truthy(width) ==> r == current
    ensures && mode == Cropbox && Grows(width, height, current)
            && Truthy(width) && Truthy(height) && width.value >= height.value
            ==> r == ImageSize(None, height)
    ensures && mode == Cropbox && Grows(width, height, current)
            && Truthy(width) && !(Truthy(height) && width.value >= height.value)
            ==> r == ImageSize(width, None)
    // the default mode ignores the stored fields and keeps one dimension
    ensures mode == DefaultFit && Truthy(width) && width.value >= OrZero(height) ==> r == ImageSize(width, None)
    ensures mode == DefaultFit && Truthy(height) && !(Truthy(width) && width.value >= OrZero(height)) ==> r == ImageSize(None, height)
    ensures mode == DefaultFit && !Truthy(width) && !Truthy(height) ==> r == current
    ensures && mode == DefaultFit && (Truthy(width) || Truthy(height))
            && OrZero(width) >= 0 && OrZero(height) >= 0
            ==> r.width.Some? != r.height.Some?
  {
    match mode
    case Cropbox =>
      if Grows(width, height, current) then
        if Truthy(width) && Truthy(height) && width.value >= OrZero(height) then ImageSize(None, height)
        else if Truthy(width) then ImageSize(width, None)
        else current
      else current
    case Letterbox | Stretch =>
      if Grows(width, height, current) then ImageSize(width, height) else current
    case DefaultFit =>
      if Truthy(width) && width.value >= OrZero(height) then ImageSize(width, None)
      else if Truthy(height) then ImageSize(None, height)
      else current
  }

  /** `set_sizes_by_fit(width, height)`: the request goes to the directive fields as it is
      (rounding is the identity on whole pixels) and the image fields follow the fit mode. */
  function SizesByFit(fit: Option<string>, width: Option<int>, height: Option<int>, s: SizeFields): (r: SizeFields)
    ensures r.directiveWidth == width && r.directiveHeight == height
    ensures FitModeOf(fit) == DefaultFit && Truthy(width) && width.value >= OrZero(height) ==> r.image == ImageSize(width, None)
    ensures FitModeOf(fit) != DefaultFit && !Grows(width, height, s.image) ==> r.image == s.image
  {
    SizeFields(FitImageSize(FitModeOf(fit), width, height, s.image), width, height)
  }

  /** `set_sizes`: with `derive_size` the request is the measured wrapper rect; otherwise a
      truthy `no_optimization` clears all four fields, and else the request is the
      directives' own width and height. */
  function SetSizes(deriveSize: bool, d: Directives, rect: Rect, s: SizeFields): (r: SizeFields)
    ensures !deriveSize && d.noOptimization ==> r == NoSizes
    ensures deriveSize ==> r.directiveWidth == Some(rect.width) && r.directiveHeight == Some(rect.height)
    ensures !deriveSize && !d.noOptimization ==> r.directiveWidth == d.width && r.directiveHeight == d.height
    ensures deriveSize || !d.noOptimization ==>
              r.image.width in {s.image.width, r.directiveWidth, None} && r.image.height in {s.image.height, r.directiveHeight, None}
  {
    if deriveSize then SizesByFit(d.fit, Some(rect.width), Some(rect.height), s)
    else if d.noOptimization then NoSizes
    else SizesByFit(d.fit, d.width, d.height, s)
  }

  /** Running the fit a second time with the same request changes nothing, in every mode. */
  lemma FitIdempotent(mode: FitMode, width: Option<int>, height: Option<int>, current: ImageSize)
    ensures var once := FitImageSize(mode, width, height, current);
            FitImageSize(mode, width, height, once) == once
  {
  }

  /** A positive request with at least one dimension leaves at least one image field set in
      every mode; cropbox without a truthy width is the one exception, since it keeps the
      stored fields, which may both be absent. */
  lemma FitKeepsADimension(mode: FitMode, width: Option<int>, height: Option<int>, current: ImageSize)
    requires Truthy(width) ==> width.value > 0
    requires Truthy(height) ==> height.value > 0
    requires Truthy(width) || Truthy(height)
    requires !(mode == Cropbox && !Truthy(width))
    ensures var r := FitImageSize(mode, width, height, current);
            r.width.Some? || r.height.Some?
  {
  }

  /** Without `derive_size` the measured rect plays no part in the size fields. */
  lemma SetSizesIgnoresRectUnlessDerived(d: Directives, rect1: Rect, rect2: Rect, s: SizeFields)
    ensures SetSizes(false, d, rect1, s) == SetSizes(false, d, rect2, s)
  {
  }

  /** A request that does not exceed the stored image size in any truthy dimension. */
  predicate Dominated(width: Option<int>, height: Option<int>, current: ImageSize) {
    (Truthy(width) ==> width.value <= OrZero(current.width)) &&
    (Truthy(height) ==> height.value <= OrZero(current.height))
  }

  /** The image size after a series of `set_sizes_by_fit` calls in one mode. */
  function FitAll(mode: FitMode, requests: seq<(Option<int>, Option<int>)>, current: ImageSize): ImageSize
    decreases |requests|
  {
    if requests == [] then current
    else FitAll(mode, requests[1..], FitImageSize(mode, requests[0].0, requests[0].1, current))
  }

  /** The grow-only policy: in the cropbox, letterbox and stretch modes, any number of
      requests that are each equal or smaller than the stored size leave it unchanged. */
  lemma {:induction false} GrowOnlyUnderSmallerRequests(mode: FitMode, requests: seq<(Option<int>, Option<int>)>, current: ImageSize)
    requires mode != DefaultFit
    requires forall i :: 0 <= i < |requests| ==> Dominated(requests[i].0, requests[i].1, current)
    ensures FitAll(mode, requests, current) == current
    decreases |requests|
  {
    if requests != [] {
      assert FitImageSize(mode, requests[0].0, requests[0].1, current) == current;
      assert forall i :: 0 <= i < |requests[1..]| ==> requests[1..][i] == requests[i + 1];
      GrowOnlyUnderSmallerRequests(mode, requests[1..], current);
    }
  }

  /** Cropbox is not truly grow-only: once it has kept the height of a landscape request it
      has cleared the width, so the same request fires the grow trigger again. */
  lemma CropboxRetriggers(width: int, height: int, current: ImageSize)
    requires 0 < height <= width
    requires Grows(Some(width), Some(height), current)
    ensures var after := FitImageSize(Cropbox, Some(width), Some(height), current);
            after == ImageSize(None, Some(height)) && Grows(Some(width), Some(height), after)
  {
  }

  /** Under letterbox and stretch a larger height alone shrinks a stored width, since both
      fields take the request exactly. */
  lemma LetterboxMayShrinkWidth(mode: FitMode)
    requires mode == Letterbox || mode == Stretch
    ensures FitImageSize(mode, Some(100), Some(300), ImageSize(Some(400), Some(200))) == ImageSize(Some(100), Some(300))
  {
  }
}
