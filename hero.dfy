/** The hero banner: the typewriter that rotates through the job titles, and the
    call-to-action link that scrolls to a section below a fixed 80-pixel header. */
module Hero {
  import opened Js
  import opened Dom

  /** The titles of the portfolio owner, in rotation order. */
  const Titles: seq<string> := ["Full Stack Developer", "AI/ML Enthusiast", "DevOps Automation Adept"]

  /** Delay before deleting starts, once a title is fully typed. */
  const FullTextPause: real := 2000.0
  /** Delay before the next title starts, once a title is fully deleted. */
  const EmptyTextPause: real := 500.0
  /** The header height the call-to-action scroll allows for. */
  const CtaHeaderOffset: real := 80.0

  /** The four state fields the typewriter's tick reads and writes. */
  datatype TypeState = TypeState(loopNum: nat, isDeleting: bool, text: string, delta: real)

  /** The state right after mounting; the first delay is random, so it is a parameter. */
  function InitialState(delta: real): (st: TypeState)
    ensures st.loopNum == 0 && !st.isDeleting && st.text == ""
  {
    TypeState(0, false, "", delta)
  }

  function CurrentTitle(titles: seq<string>, loopNum: nat): string
    requires |titles| > 0
  {
    titles[loopNum % |titles|]
  }

  function Min(a: int, b: int): int { if a <= b then a else b }
  function Max(a: int, b: int): int { if a >= b then a else b }

  /** One tick: type one more character of the current title, or delete one; at the full
      title switch to deleting, at the empty text advance to the next title. The state
      updates of one tick are batched, so the `500` delay replaces the halved one. */
  function Next(st: TypeState, titles: seq<string>): TypeState
    requires |titles| > 0
  {
    var fullText := CurrentTitle(titles, st.loopNum);
    var updatedText :=
      if st.isDeleting then Substring(fullText, 0, |st.text| - 1)
      else Substring(fullText, 0, |st.text| + 1);
    if !st.isDeleting && updatedText == fullText then
      TypeState(st.loopNum, true, updatedText, FullTextPause)
    else if st.isDeleting && updatedText == "" then
      TypeState(st.loopNum + 1, false, updatedText, EmptyTextPause)
    else if st.isDeleting then
      TypeState(st.loopNum, true, updatedText, st.delta / 2.0)
    else
      TypeState(st.loopNum, false, updatedText, st.delta)
  }

  /** What one tick does. The text stays a prefix of the current title (and of the next
      one once it is reset). Typing adds one character up to the full title; deleting a
      prefix removes one down to the empty text. The full title switches to deleting with
      the long pause; the empty text while deleting advances to the next title with the
      short pause, overriding the halving, since the updates of one tick are batched.
      Otherwise deleting halves the delay and typing keeps it. */
  lemma NextSpec(st: TypeState, titles: seq<string>)
    requires |titles| > 0
    ensures var r := Next(st, titles);
      r.text <= CurrentTitle(titles, st.loopNum) && r.text <= CurrentTitle(titles, r.loopNum) &&
      (!st.isDeleting ==> |r.text| == Min(|st.text| + 1, |CurrentTitle(titles, st.loopNum)|)) &&
      (st.isDeleting && st.text <= CurrentTitle(titles, st.loopNum) ==>
        |r.text| == Max(|st.text| - 1, 0)) &&
      (!st.isDeleting && r.text == CurrentTitle(titles, st.loopNum) ==>
        r.isDeleting && r.loopNum == st.loopNum && r.delta == FullTextPause) &&
      (!st.isDeleting && r.text != CurrentTitle(titles, st.loopNum) ==>
        !r.isDeleting && r.loopNum == st.loopNum && r.delta == st.delta) &&
      (st.isDeleting && r.text == "" ==>
        !r.isDeleting && r.loopNum == st.loopNum + 1 && r.delta == EmptyTextPause) &&
      (st.isDeleting && r.text != "" ==>
        r.isDeleting && r.loopNum == st.loopNum && r.delta == st.delta / 2.0)
  {
  }

  /** The state after `n` ticks. */
  function Run(st: TypeState, titles: seq<string>, n: nat): TypeState
    requires |titles| > 0
    decreases n
  {
    if n == 0 then st else Run(Next(st, titles), titles, n - 1)
  }

  /** `loopNum` never decreases, and grows by at most one per tick. */
  lemma {:induction false} LoopNumMonotone(st: TypeState, titles: seq<string>, n: nat)
    requires |titles| > 0
    ensures st.loopNum <= Run(st, titles, n).loopNum <= st.loopNum + n
    decreases n
  {
    if n > 0 {
      NextSpec(st, titles);
      LoopNumMonotone(Next(st, titles), titles, n - 1);
    }
  }

  /** Running `a` ticks and then `b` more is running `a + b` ticks. */
  lemma {:induction false} RunAdditive(st: TypeState, titles: seq<string>, a: nat, b: nat)
    requires |titles| > 0
    ensures Run(st, titles, a + b) == Run(Run(st, titles, a), titles, b)
    decreases a
  {
    if a > 0 {
      var st' := Next(st, titles);
      assert Run(st, titles, a + b) == Run(st', titles, (a - 1) + b);
      assert Run(st, titles, a) == Run(st', titles, a - 1);
      RunAdditive(st', titles, a - 1, b);
    }
  }

  /** While typing, each tick adds the next character of the title and keeps the delay. */
  lemma {:induction false} TypingPhase(st: TypeState, titles: seq<string>, k: nat)
    requires |titles| > 0 && !st.isDeleting
    requires st.text <= CurrentTitle(titles, st.loopNum)
    requires |st.text| + k < |CurrentTitle(titles, st.loopNum)|
    ensures Run(st, titles, k) ==
      TypeState(st.loopNum, false, CurrentTitle(titles, st.loopNum)[..|st.text| + k], st.delta)
    decreases k
  {
    var full := CurrentTitle(titles, st.loopNum);
    if k > 0 {
      var st' := Next(st, titles);
      NextSpec(st, titles);
      assert st' == TypeState(st.loopNum, false, full[..|st.text| + 1], st.delta);
      TypingPhase(st', titles, k - 1);
    }
  }

  /** A title typed from the empty text is complete after as many ticks as it has
      characters, and deleting starts with the long pause. */
  lemma TypesWholeTitle(loopNum: nat, delta: real, titles: seq<string>)
    requires |titles| > 0 && |CurrentTitle(titles, loopNum)| > 0
    ensures Run(TypeState(loopNum, false, "", delta), titles, |CurrentTitle(titles, loopNum)|) ==
      TypeState(loopNum, true, CurrentTitle(titles, loopNum), FullTextPause)
  {
    var full := CurrentTitle(titles, loopNum);
    var m := |full|;
    var st := TypeState(loopNum, false, "", delta);
    TypingPhase(st, titles, m - 1);
    RunAdditive(st, titles, m - 1, 1);
    var last := TypeState(loopNum, false, full[..m - 1], delta);
    NextSpec(last, titles);
    assert Next(last, titles).text == full;
  }

  /** `delta` halved `k` times. */
  function Halved(delta: real, k: nat): real
    decreases k
  {
    if k == 0 then delta else Halved(delta / 2.0, k - 1)
  }

  /** While deleting, each tick removes the last character and halves the delay. */
  lemma {:induction false} DeletingPhase(st: TypeState, titles: seq<string>, k: nat)
    requires |titles| > 0 && st.isDeleting
    requires st.text <= CurrentTitle(titles, st.loopNum)
    requires k < |st.text|
    ensures Run(st, titles, k) ==
      TypeState(st.loopNum, true, CurrentTitle(titles, st.loopNum)[..|st.text| - k], Halved(st.delta, k))
    decreases k
  {
    var full := CurrentTitle(titles, st.loopNum);
    if k > 0 {
      var st' := Next(st, titles);
      NextSpec(st, titles);
      assert st' == TypeState(st.loopNum, true, full[..|st.text| - 1], st.delta / 2.0);
      DeletingPhase(st', titles, k - 1);
    }
  }

  /** A fully typed title is erased after as many ticks as it has characters, and the
      rotation moves on to the next title with the short pause. */
  lemma DeletesWholeTitle(loopNum: nat, titles: seq<string>)
    requires |titles| > 0 && |CurrentTitle(titles, loopNum)| > 0
    ensures Run(TypeState(loopNum, true, CurrentTitle(titles, loopNum), FullTextPause), titles, |CurrentTitle(titles, loopNum)|) ==
      TypeState(loopNum + 1, false, "", EmptyTextPause)
  {
    var full := CurrentTitle(titles, loopNum);
    var m := |full|;
    var st := TypeState(loopNum, true, full, FullTextPause);
    DeletingPhase(st, titles, m - 1);
    RunAdditive(st, titles, m - 1, 1);
    var last := TypeState(loopNum, true, full[..1], Halved(FullTextPause, m - 1));
    NextSpec(last, titles);
    assert Next(last, titles).text == "";
  }

  /** The number of ticks one title occupies: type it, then delete it (an empty title takes
      one tick to "finish" typing and one to "finish" deleting). */
  function CycleLength(title: string): nat
  {
    if |title| == 0 then 2 else 2 * |title|
  }

  /** Starting from the empty text, the rotator types the current title in full, erases it and
      arrives at the empty text of the next title, whatever the initial delay. */
  lemma TitleCycle(loopNum: nat, delta: real, titles: seq<string>)
    requires |titles| > 0
    ensures Run(TypeState(loopNum, false, "", delta), titles, CycleLength(CurrentTitle(titles, loopNum))) ==
      TypeState(loopNum + 1, false, "", EmptyTextPause)
  {
    var full := CurrentTitle(titles, loopNum);
    var st := TypeState(loopNum, false, "", delta);
    if |full| == 0 {
      var typed := Next(st, titles);
      NextSpec(st, titles);
      assert typed == TypeState(loopNum, true, "", FullTextPause);
      var erased := Next(typed, titles);
      NextSpec(typed, titles);
      assert erased == TypeState(loopNum + 1, false, "", EmptyTextPause);
      assert Run(typed, titles, 1) == Run(erased, titles, 0);
    } else {
      var m := |full|;
      TypesWholeTitle(loopNum, delta, titles);
      RunAdditive(st, titles, m, m);
      DeletesWholeTitle(loopNum, titles);
      assert CycleLength(full) == m + m;
    }
  }

  /** The site's own titles are all non-empty, so each one occupies exactly twice its length
      in ticks before the rotation reaches the next. */
  lemma SiteTitleCycle(loopNum: nat, delta: real)
    ensures forall i :: 0 <= i < |Titles| ==> |Titles[i]| > 0
    ensures Run(TypeState(loopNum, false, "", delta), Titles, 2 * |CurrentTitle(Titles, loopNum)|) ==
      TypeState(loopNum + 1, false, "", EmptyTextPause)
  {
    var full := CurrentTitle(Titles, loopNum);
    assert full in Titles;
    assert |full| > 0;
    TitleCycle(loopNum, delta, Titles);
  }

  /** `handleCTAClick`: the scroll target of a `#id` link, or no scroll when the section is
      not rendered. */
  function CtaTarget(href: string, layout: Layout, pageYOffset: real): (target: Option<real>)
    ensures target.None? <==> FragmentId(href) !in layout
    ensures target.Some? ==>
      layout[FragmentId(href)].top + pageYOffset - target.value == CtaHeaderOffset
  {
    ScrollTarget(GetElementById(layout, FragmentId(href)), pageYOffset, CtaHeaderOffset)
  }

  /** The component's typewriter state. */
  class Typewriter {
    const titles: seq<string>
    var loopNum: nat
    var isDeleting: bool
    var text: string
    var delta: real

    function State(): TypeState
      reads this
    {
      TypeState(loopNum, isDeleting, text, delta)
    }

    constructor (titles: seq<string>, initialDelta: real)
      requires |titles| > 0
      ensures this.titles == titles && State() == InitialState(initialDelta)
    {
      this.titles := titles;
      loopNum, isDeleting, text, delta := 0, false, "", initialDelta;
    }

    /** `tick`: every condition reads the values of the render it belongs to. */
    method Tick()
      requires |titles| > 0
      modifies this
      ensures State() == Next(old(State()), titles)
    {
      var deleting := isDeleting;
      var i := loopNum % |titles|;
      var fullText := titles[i];
      var updatedText :=
        if deleting then Substring(fullText, 0, |text| - 1)
        else Substring(fullText, 0, |text| + 1);
      text := updatedText;
      if deleting {
        delta := delta / 2.0;
      }
      if !deleting && updatedText == fullText {
        isDeleting := true;
        delta := FullTextPause;
      } else if deleting && updatedText == "" {
        isDeleting := false;
        loopNum := loopNum + 1;
        delta := EmptyTextPause;
      }
    }
  }
}
