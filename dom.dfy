/** The parts of the browser's layout that the components query: element rectangles and
    smooth-scroll targets. Pixel values are exact reals; no floating-point rounding. */
module Dom {
  import opened Js

  /** The vertical extent of `element.getBoundingClientRect()`, relative to the viewport. */
  datatype Rect = Rect(top: real, bottom: real)

  /** The rendered element of each id, as `document.getElementById(id)` followed by
      `getBoundingClientRect()` sees it; an id without an entry has no element. */
  type Layout = map<string, Rect>

  function GetElementById(layout: Layout, id: string): (element: Option<Rect>)
    ensures element.Some? <==> id in layout
    ensures element.Some? ==> element.value == layout[id]
  {
    if id in layout then Some(layout[id]) else None
  }

  /** The element id a same-page link `#id` points to: `href.substring(1)`. */
  function FragmentId(href: string): (id: string)
    ensures |href| > 0 ==> [href[0]] + id == href
    ensures |href| == 0 ==> id == ""
  {
    Substring(href, 1, |href|)
  }

  /** The document offset handed to `window.scrollTo` so that the element's top edge ends up
      `headerHeight` pixels below the top of the viewport; `None` when the element is absent,
      in which case nothing scrolls. */
  function ScrollTarget(element: Option<Rect>, pageYOffset: real, headerHeight: real): (target: Option<real>)
    ensures target.None? <==> element.None?
    ensures target.Some? ==> (element.value.top + pageYOffset) - target.value == headerHeight
  {
    match element
    case None => None
    case Some(rect) => Some(rect.top + pageYOffset - headerHeight)
  }
}
