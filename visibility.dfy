/** The viewport snapshot and the intersection test `check_if_in_viewport`. */
module Visibility {
  import opened JsValues

  /** A bounding client rect, in whole pixels. */
  datatype Rect = Rect(top: int, bottom: int, left: int, right: int, width: int, height: int)

  /** The component's `viewport` field. */
  datatype Viewport = Viewport(width: int, height: int)

  /** What `set_viewport` queries: `window.innerWidth/innerHeight` and the document
      element's `clientWidth/clientHeight`. */
  datatype WindowSize = WindowSize(innerWidth: int, innerHeight: int, clientWidth: int, clientHeight: int)

  /** `innerWidth || clientWidth` and `innerHeight || clientHeight`. */
  function ViewportOf(w: WindowSize): Viewport {
    Viewport(OrNumber(w.innerWidth, w.clientWidth), OrNumber(w.innerHeight, w.clientHeight))
  }

  /** Whether any part of the element may be on screen. The test is approximate: it
      rejects every rect that lies wholly above, below, left or right of the viewport,
      and accepts every rect whose top-left corner lies strictly inside it. */
  function CheckIfInViewport(rect: Rect, viewport: Viewport): (visible: bool)
    ensures visible ==> 0 < rect.bottom || 0 < rect.top
    ensures visible ==> rect.top < viewport.height
    ensures visible ==> 0 < rect.right || 0 < rect.left
    ensures visible ==> rect.left < viewport.width
    ensures rect.bottom <= 0 && rect.top <= 0 ==> !visible
    ensures viewport.height <= rect.top ==> !visible
    ensures rect.right <= 0 && rect.left <= 0 ==> !visible
    ensures viewport.width <= rect.left ==> !visible
    ensures 0 < rect.top < viewport.height && 0 < rect.left < viewport.width ==> visible
    ensures 0 < rect.bottom && rect.top < viewport.height && 0 < rect.right && rect.left < viewport.width ==> visible
    ensures && (0 < rect.bottom || 0 < rect.top) && rect.top < viewport.height
            && (0 < rect.right || 0 < rect.left) && rect.left < viewport.width
            ==> visible
  {
    ((rect.top > 0 || rect.bottom > 0) && rect.top < viewport.height) &&
    ((rect.left > 0 || rect.right > 0) && rect.left < viewport.width)
  }

  /** The rect a detached or collapsed element reports is never in the viewport. */
  lemma ZeroRectNotVisible(width: int, height: int, viewport: Viewport)
    ensures !CheckIfInViewport(Rect(0, 0, 0, 0, width, height), viewport)
  {
  }
}
