/** The active-section tracker behind the navigation highlight (`useScrollSpy`). Each
    evaluation maps the scroll offset and the current layout to the id of the first section
    whose header-adjusted interval contains the scroll offset, or to `""`. */
module ScrollSpy {
  import opened Js
  import opened Dom

  /** A section's interval in document coordinates, shifted up by the header offset. */
  datatype Position = Position(id: string, top: real, bottom: real)

  /** The bound given to a section whose element is missing. */
  const MissingBound: real := -1.0

  function SectionPosition(id: string, layout: Layout, scroll: real, offset: real): (p: Position)
    ensures p.id == id
    ensures id !in layout ==> p.top == MissingBound && p.bottom == MissingBound
    ensures id in layout ==> p.top == layout[id].top + scroll - offset
    ensures id in layout ==> p.bottom - p.top == layout[id].bottom - layout[id].top
  {
    if id !in layout then Position(id, MissingBound, MissingBound)
    else
      var rect := layout[id];
      Position(id, rect.top + scroll - offset, rect.bottom + scroll - offset)
  }

  /** `ids.map(...)`: the position of every section, in the given order. */
  function Positions(ids: seq<string>, layout: Layout, scroll: real, offset: real): (ps: seq<Position>)
    ensures |ps| == |ids|
    ensures forall k :: 0 <= k < |ids| ==> ps[k] == SectionPosition(ids[k], layout, scroll, offset)
  {
    seq(|ids|, k requires 0 <= k < |ids| => SectionPosition(ids[k], layout, scroll, offset))
  }

  /** The matching rule, inclusive at both ends. */
  predicate Contains(p: Position, scroll: real)
  {
    scroll >= p.top && scroll <= p.bottom
  }

  predicate InView(id: string, layout: Layout, scroll: real, offset: real)
  {
    Contains(SectionPosition(id, layout, scroll, offset), scroll)
  }

  /** `positions.find(...)`, returning the index of the element found. */
  function Find(ps: seq<Position>, scroll: real): (r: Option<nat>)
    ensures r.Some? ==> r.value < |ps| && Contains(ps[r.value], scroll)
    ensures r.Some? ==> forall j :: 0 <= j < r.value ==> !Contains(ps[j], scroll)
    ensures r.None? <==> forall j :: 0 <= j < |ps| ==> !Contains(ps[j], scroll)
  {
    if ps == [] then None
    else if Contains(ps[0], scroll) then Some(0)
    else
      match Find(ps[1..], scroll)
      case None => None
      case Some(k) => Some(k + 1)
  }

  /** One run of the listener: `position?.id || ''`. */
  function ActiveId(ids: seq<string>, layout: Layout, scroll: real, offset: real): (active: string)
    ensures active == "" || active in ids
    ensures |ids| == 0 ==> active == ""
    ensures (forall k :: 0 <= k < |ids| ==> !InView(ids[k], layout, scroll, offset)) ==> active == ""
    ensures active != "" ==>
      exists k :: 0 <= k < |ids| && ids[k] == active && InView(ids[k], layout, scroll, offset) &&
        forall j :: 0 <= j < k ==> !InView(ids[j], layout, scroll, offset)
  {
    var ps := Positions(ids, layout, scroll, offset);
    match Find(ps, scroll)
    case None => ""
    case Some(k) => ps[k].id
  }

  /** First match wins: the earliest section in view is the active one, whatever follows it. */
  lemma FirstInViewIsActive(ids: seq<string>, layout: Layout, scroll: real, offset: real, k: nat)
    requires k < |ids| && InView(ids[k], layout, scroll, offset)
    requires forall j :: 0 <= j < k ==> !InView(ids[j], layout, scroll, offset)
    ensures ActiveId(ids, layout, scroll, offset) == ids[k]
  {
    var ps := Positions(ids, layout, scroll, offset);
    assert Contains(ps[k], scroll);
    var r := Find(ps, scroll);
    assert r.Some?;
  }

  /** A section without an element is never active once the page is scrolled to a
      non-negative offset. */
  lemma MissingSectionNeverActive(ids: seq<string>, layout: Layout, scroll: real, offset: real, id: string)
    requires scroll >= 0.0 && id != "" && id !in layout
    ensures ActiveId(ids, layout, scroll, offset) != id
  {
    assert !InView(id, layout, scroll, offset);
  }

  /** The three-section layout of a page with sections at document offsets [0, 800],
      [800, 1600] and [1600, 2400], seen from scroll offset `scroll`. */
  function SampleLayout(scroll: real): Layout
  {
    map["about" := Rect(0.0 - scroll, 800.0 - scroll),
        "skills" := Rect(800.0 - scroll, 1600.0 - scroll),
        "contact" := Rect(1600.0 - scroll, 2400.0 - scroll)]
  }

  /** The sample page's sections, in navigation order. */
  const SampleIds: seq<string> := ["about", "skills", "contact"]

  /** With a 100-pixel header the adjusted intervals are [-100, 700], [700, 1500] and
      [1500, 2300]: each offset inside one of them activates that section, a boundary shared
      by two sections goes to the earlier one, and offsets outside all three activate none. */
  lemma SampleEvaluations(scroll: real)
    ensures -100.0 <= scroll <= 700.0 ==> ActiveId(SampleIds, SampleLayout(scroll), scroll, 100.0) == "about"
    ensures 700.0 < scroll <= 1500.0 ==> ActiveId(SampleIds, SampleLayout(scroll), scroll, 100.0) == "skills"
    ensures 1500.0 < scroll <= 2300.0 ==> ActiveId(SampleIds, SampleLayout(scroll), scroll, 100.0) == "contact"
    ensures scroll < -100.0 || scroll > 2300.0 ==> ActiveId(SampleIds, SampleLayout(scroll), scroll, 100.0) == ""
  {
    var layout := SampleLayout(scroll);
    SampleBounds(scroll);
    assert SampleIds[0] == "about" && SampleIds[1] == "skills" && SampleIds[2] == "contact";
    if -100.0 <= scroll <= 700.0 {
      FirstInViewIsActive(SampleIds, layout, scroll, 100.0, 0);
    } else if 700.0 < scroll <= 1500.0 {
      FirstInViewIsActive(SampleIds, layout, scroll, 100.0, 1);
    } else if 1500.0 < scroll <= 2300.0 {
      FirstInViewIsActive(SampleIds, layout, scroll, 100.0, 2);
    }
  }

  /** The adjusted intervals of the sample layout do not depend on the scroll offset. */
  lemma SampleBounds(scroll: real)
    ensures SectionPosition("about", SampleLayout(scroll), scroll, 100.0) == Position("about", -100.0, 700.0)
    ensures SectionPosition("skills", SampleLayout(scroll), scroll, 100.0) == Position("skills", 700.0, 1500.0)
    ensures SectionPosition("contact", SampleLayout(scroll), scroll, 100.0) == Position("contact", 1500.0, 2300.0)
  {
    var layout := SampleLayout(scroll);
    assert "about" in layout && layout["about"] == Rect(0.0 - scroll, 800.0 - scroll);
    assert "skills" in layout && layout["skills"] == Rect(800.0 - scroll, 1600.0 - scroll);
    assert "contact" in layout && layout["contact"] == Rect(1600.0 - scroll, 2400.0 - scroll);
  }

  /** The hook's state: the ids and offset it was set up with, and the last published id. */
  class Tracker {
    const ids: seq<string>
    const offset: real
    var activeId: string

    /** Setting the hook up runs the listener once, before any scroll or resize event. */
    constructor (ids: seq<string>, offset: real, scroll: real, layout: Layout)
      ensures this.ids == ids && this.offset == offset
      ensures activeId == ActiveId(ids, layout, scroll, offset)
    {
      this.ids := ids;
      this.offset := offset;
      activeId := ActiveId(ids, layout, scroll, offset);
    }

    /** A scroll or resize event: the published id depends on the scroll offset and the
        layout only, never on the previous value, so re-running it changes nothing. */
    method Listen(scroll: real, layout: Layout)
      modifies this`activeId
      ensures activeId == ActiveId(ids, layout, scroll, offset)
    {
      var ps := Positions(ids, layout, scroll, offset);
      var found := Find(ps, scroll);
      activeId := if found.Some? then ps[found.value].id else "";
    }
  }
}
