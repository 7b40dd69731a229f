/** The "Our Services" card carousel of the page script: a clamped index
    `currentIndex` over the cards, two arrow buttons whose `disabled` flags
    follow the index, and a track that is either scrolled (mobile layout) or
    translated (desktop layout) to `currentIndex * cardWidth` pixels.

    Every reading of the page (card width, carousel width, the media query,
    the computed `gap`, the track's `scrollLeft`) is a field of `Metrics`,
    taken at the moment a handler runs. */
module ServicesCarousel {
  import opened Wrappers
  import opened JsNumber

  /** Spacing added to a card's width in the desktop layout. */
  const DesktopSpacing := 24
  /** Gap used when the computed `gap` does not start with a number. */
  const FallbackGap := 24

  /** What the handlers read from the page. */
  datatype Metrics = Metrics(
    firstCardWidth: nat,  // `cards[0].offsetWidth`
    viewportWidth: nat,   // `carousel.offsetWidth`
    mobile: bool,         // `(max-width: 900px)` matches
    gapCss: string,       // the track's computed `gap`
    scrollLeft: int)      // the track's `scrollLeft`

  /** `getCardGap`: the computed gap read with `parseInt(gap || '0', 10)`,
      24 when that is NaN. */
  function CardGap(gapCss: string): (g: int)
    ensures gapCss == "" ==> g == 0
    ensures gapCss != "" && ParseInt(gapCss) == None ==> g == FallbackGap
    ensures ParseInt(gapCss).Some? ==> g == ParseInt(gapCss).value
  {
    ParseIntOfZero();
    ParseInt(if gapCss == "" then "0" else gapCss).GetOr(FallbackGap)
  }

  lemma ParseIntOfZero()
    ensures ParseInt("0") == Some(0)
  {
    UnsignedNumeral("0", "");
    SkipLeadingWhiteSpace([], "0");
    assert [] + "0" == "0" && "0" + [] == "0";
  }

  /** A computed gap such as `16px` gives back its number of pixels. */
  lemma CardGapOfPixels(n: nat)
    ensures CardGap(Decimal(n) + "px") == n
  {
    ParseIntOfBareNumeral(n, "px");
  }

  /** `getCardWidth`: the first card's width (0 without cards) plus the gap
      on mobile, plus a fixed 24 on desktop. */
  function CardWidth(cardCount: nat, m: Metrics): (cw: int)
    ensures !m.mobile ==> cw >= DesktopSpacing
    ensures !m.mobile && cardCount > 0 ==> cw == m.firstCardWidth + DesktopSpacing
    ensures m.mobile && cardCount > 0 ==> cw == m.firstCardWidth + CardGap(m.gapCss)
    ensures cardCount == 0 ==> cw == (if m.mobile then CardGap(m.gapCss) else DesktopSpacing)
  {
    var cardW := if cardCount > 0 then m.firstCardWidth else 0;
    cardW + if m.mobile then CardGap(m.gapCss) else DesktopSpacing
  }

  /** The layouts the arithmetic is defined for: a zero card width would make
      `viewport / cw` Infinity or NaN. */
  predicate Measurable(cardCount: nat, m: Metrics) {
    CardWidth(cardCount, m) != 0
  }

  /** `getVisibleCards`: how many whole card widths fit in the carousel, at
      least one. */
  function VisibleCards(cardCount: nat, m: Metrics): (v: int)
    requires Measurable(cardCount, m)
    ensures v >= 1
    ensures CardWidth(cardCount, m) > 0 && v > 1 ==> CardWidth(cardCount, m) * v <= m.viewportWidth
    ensures CardWidth(cardCount, m) > 0 ==> m.viewportWidth < CardWidth(cardCount, m) * v + CardWidth(cardCount, m)
    ensures CardWidth(cardCount, m) < 0 ==> v == 1
  {
    WholeCardsIn(m.viewportWidth, CardWidth(cardCount, m))
  }

  /** `Math.max(1, Math.floor(viewport / cw))`. */
  function WholeCardsIn(viewport: nat, cw: int): (v: int)
    requires cw != 0
    ensures v >= 1
    ensures cw > 0 && v > 1 ==> cw * v <= viewport
    ensures cw > 0 ==> viewport < cw * v + cw
    ensures cw < 0 ==> v == 1
  {
    var f := FloorDiv(viewport, cw);
    if cw > 0 then
      assert cw * f <= viewport < cw * f + cw;
      assert f >= 0;
      assert f < 1 ==> viewport < cw;
      Max(1, f)
    else
      assert cw * f >= viewport;
      assert f <= 0;
      Max(1, f)
  }

  /** `getMaxIndex`: the last index at which the carousel is still full. */
  function MaxIndex(cardCount: nat, m: Metrics): (r: int)
    requires Measurable(cardCount, m)
    ensures r >= 0
    ensures cardCount >= 1 ==> r <= cardCount - 1
    ensures r == 0 <==> cardCount <= VisibleCards(cardCount, m)
    ensures r > 0 ==> r + VisibleCards(cardCount, m) == cardCount
  {
    Max(0, cardCount - VisibleCards(cardCount, m))
  }

  /** The index `showNext` moves to. */
  function Next(i: int, maxIndex: int): (r: int)
    ensures 0 <= i <= maxIndex ==> 0 <= r <= maxIndex
    ensures i >= maxIndex ==> r == i
    ensures i < maxIndex ==> r == i + 1
  {
    if i < maxIndex then i + 1 else i
  }

  /** The index `showPrev` moves to. */
  function Prev(i: int): (r: int)
    ensures 0 <= i ==> 0 <= r <= i
    ensures i <= 0 ==> r == i
    ensures i > 0 ==> r == i - 1
  {
    if i > 0 then i - 1 else i
  }

  /** `max(0, min(x, maxIndex))`. */
  function Clamp(x: int, maxIndex: int): (r: int)
    ensures maxIndex >= 0 ==> 0 <= r <= maxIndex
    ensures 0 <= x <= maxIndex ==> r == x
    ensures x < 0 ==> r == 0
    ensures 0 <= maxIndex < x ==> r == maxIndex
  {
    Max(0, Min(x, maxIndex))
  }

  /** `k` presses of "next" in a row. */
  function NextTimes(i: int, k: nat, maxIndex: int): int {
    if k == 0 then i else Next(NextTimes(i, k - 1, maxIndex), maxIndex)
  }

  /** `k` presses of "previous" in a row. */
  function PrevTimes(i: int, k: nat): int {
    if k == 0 then i else Prev(PrevTimes(i, k - 1))
  }

  /** There is no wrap-around: repeated steps forward stop at the last index. */
  lemma {:induction false} NextTimesStops(i: int, k: nat, maxIndex: int)
    requires 0 <= i <= maxIndex
    ensures NextTimes(i, k, maxIndex) == Min(i + k, maxIndex)
  {
    if k > 0 {
      NextTimesStops(i, k - 1, maxIndex);
    }
  }

  /** Repeated steps backward stop at the first card. */
  lemma {:induction false} PrevTimesStops(i: int, k: nat)
    requires 0 <= i
    ensures PrevTimes(i, k) == Max(i - k, 0)
  {
    if k > 0 {
      PrevTimesStops(i, k - 1);
    }
  }

  /** Where the track was last placed: `scrollTo({left})` in the mobile
      layout, `translateX(-offset px)` in the desktop layout. */
  datatype Position =
    | Unplaced
    | ScrolledTo(left: int, smooth: bool)
    | Translated(offset: int, animated: bool)

  /** What the page shows of the carousel. */
  datatype View = View(index: int, prevDisabled: bool, nextDisabled: bool, position: Position)

  /** The index is in range and the buttons agree with it. */
  predicate Settled(v: View, cardCount: nat, m: Metrics)
    requires Measurable(cardCount, m)
  {
    0 <= v.index <= MaxIndex(cardCount, m)
    && v.prevDisabled == (v.index == 0)
    && v.nextDisabled == (v.index >= MaxIndex(cardCount, m))
  }

  /** `updateButtons`. */
  function WithButtons(v: View, cardCount: nat, m: Metrics): (r: View)
    requires Measurable(cardCount, m)
    ensures r.index == v.index && r.position == v.position
    ensures r.prevDisabled <==> v.index == 0
    ensures r.nextDisabled <==> v.index >= MaxIndex(cardCount, m)
    ensures 0 <= v.index <= MaxIndex(cardCount, m) ==> Settled(r, cardCount, m)
  {
    v.(prevDisabled := v.index == 0, nextDisabled := v.index >= MaxIndex(cardCount, m))
  }

  /** `updateCarousel(animate)`: without cards nothing happens; otherwise the
      track is moved to `index * cardWidth` and the buttons are updated. */
  function Placed(v: View, cardCount: nat, m: Metrics, animate: bool): (r: View)
    requires Measurable(cardCount, m)
    ensures cardCount == 0 ==> r == v
    ensures r.index == v.index
    ensures cardCount > 0 && m.mobile ==>
      r.position == ScrolledTo(v.index * CardWidth(cardCount, m), animate)
    ensures cardCount > 0 && !m.mobile ==>
      r.position == Translated(v.index * CardWidth(cardCount, m), animate)
    ensures cardCount > 0 ==> r == WithButtons(r, cardCount, m)
  {
    if cardCount == 0 then v
    else
      var cw := CardWidth(cardCount, m);
      var p := if m.mobile then ScrolledTo(v.index * cw, animate) else Translated(v.index * cw, animate);
      WithButtons(v.(position := p), cardCount, m)
  }

  /** `showNext`: one step forward unless already at the last index. */
  function AfterShowNext(v: View, cardCount: nat, m: Metrics): (r: View)
    requires Measurable(cardCount, m)
    ensures r.index == Next(v.index, MaxIndex(cardCount, m))
    ensures v.index >= MaxIndex(cardCount, m) ==> r == v
    ensures Settled(v, cardCount, m) ==> Settled(r, cardCount, m)
  {
    if v.index < MaxIndex(cardCount, m) then Placed(v.(index := v.index + 1), cardCount, m, true)
    else v
  }

  /** `showPrev`: one step back unless already at index 0. */
  function AfterShowPrev(v: View, cardCount: nat, m: Metrics): (r: View)
    requires Measurable(cardCount, m)
    ensures r.index == Prev(v.index)
    ensures v.index <= 0 ==> r == v
    ensures Settled(v, cardCount, m) ==> Settled(r, cardCount, m)
  {
    if v.index > 0 then Placed(v.(index := v.index - 1), cardCount, m, true)
    else v
  }

  /** The track's scroll listener: on mobile the index follows the scroll
      position, rounded to the nearest card and kept in range; on desktop
      nothing happens. */
  function AfterScroll(v: View, cardCount: nat, m: Metrics): (r: View)
    requires Measurable(cardCount, m)
    ensures !m.mobile ==> r == v
    ensures m.mobile ==> r.index == Clamp(Round(m.scrollLeft, CardWidth(cardCount, m)), MaxIndex(cardCount, m))
    ensures m.mobile ==> Settled(r, cardCount, m) && r.position == v.position
  {
    if !m.mobile then v
    else
      var idx := Round(m.scrollLeft, CardWidth(cardCount, m));
      WithButtons(v.(index := Clamp(idx, MaxIndex(cardCount, m))), cardCount, m)
  }

  /** The first resize listener: clamp the index down, then place the track
      without animation. */
  function AfterClampOnResize(v: View, cardCount: nat, m: Metrics): (r: View)
    requires Measurable(cardCount, m)
    ensures r.index == Min(v.index, MaxIndex(cardCount, m))
    ensures r.index <= v.index
    ensures 0 <= v.index && cardCount > 0 ==> Settled(r, cardCount, m)
  {
    Placed(v.(index := Min(v.index, MaxIndex(cardCount, m))), cardCount, m, false)
  }

  /** The second resize listener: place the track again, index unchanged. */
  function AfterRepositionOnResize(v: View, cardCount: nat, m: Metrics): (r: View)
    requires Measurable(cardCount, m)
    ensures r.index == v.index
    ensures Settled(v, cardCount, m) ==> Settled(r, cardCount, m)
  {
    Placed(v, cardCount, m, false)
  }

  /** The distinct listener functions of the carousel. `showNext` and
      `showPrev` are named functions, so registering them twice registers the
      same callback twice; each resize listener is its own arrow function. */
  datatype Handler = ShowNextFn | ShowPrevFn | SyncIndexOnScroll | ClampOnResize | RepositionOnResize

  datatype EventKind = NextClick | PrevClick | TrackScroll | WindowResize

  datatype Registration = Registration(kind: EventKind, handler: Handler)

  /** The `addEventListener` calls of the script for the carousel, in the
      order the script makes them: the second block registers the same
      named click callbacks again, but a new resize callback. */
  function PageRegistrations(): (r: seq<Registration>)
    ensures |r| == 7
    ensures r[4] == r[1] && r[5] == r[2]
    ensures r[3].kind == WindowResize && r[6].kind == WindowResize && r[3].handler != r[6].handler
  {
    [ Registration(TrackScroll, SyncIndexOnScroll),
      Registration(NextClick, ShowNextFn),
      Registration(PrevClick, ShowPrevFn),
      Registration(WindowResize, ClampOnResize),
      Registration(NextClick, ShowNextFn),
      Registration(PrevClick, ShowPrevFn),
      Registration(WindowResize, RepositionOnResize) ]
  }

  predicate NoDuplicates(hs: seq<Handler>) {
    forall i, j :: 0 <= i < j < |hs| ==> hs[i] != hs[j]
  }

  /** `addEventListener`: a callback already in the list for that event is
      not added a second time. */
  function AddListener(hs: seq<Handler>, h: Handler): (r: seq<Handler>)
    ensures forall x :: x in r <==> x in hs || x == h
    ensures |r| >= |hs| && r[..|hs|] == hs
    ensures NoDuplicates(hs) ==> NoDuplicates(r)
  {
    if h in hs then hs else hs + [h]
  }

  /** The listener list of one event after the registrations `regs`. */
  function ListenersAfter(regs: seq<Registration>, kind: EventKind): (r: seq<Handler>)
    ensures NoDuplicates(r)
    ensures forall h :: h in r <==> Registration(kind, h) in regs
  {
    if regs == [] then []
    else
      var prefix := regs[..|regs| - 1];
      var last := regs[|regs| - 1];
      assert regs == prefix + [last];
      var before := ListenersAfter(prefix, kind);
      if last.kind == kind then AddListener(before, last.handler) else before
  }

  function Listeners(kind: EventKind): seq<Handler> {
    ListenersAfter(PageRegistrations(), kind)
  }

  /** Registering one more listener changes the listener list of its own
      event only. */
  lemma ListenersAfterOneMore(regs: seq<Registration>, r: Registration, kind: EventKind)
    ensures ListenersAfter(regs + [r], kind)
         == if r.kind == kind then AddListener(ListenersAfter(regs, kind), r.handler)
            else ListenersAfter(regs, kind)
  {
    assert (regs + [r])[..|regs|] == regs;
  }

  /** An event whose registrations all name the same callback has exactly
      that one listener, however often it was registered. */
  lemma {:induction false} OneListener(regs: seq<Registration>, kind: EventKind, h: Handler)
    requires Registration(kind, h) in regs
    requires forall x :: Registration(kind, x) in regs ==> x == h
    ensures ListenersAfter(regs, kind) == [h]
  {
    var prefix := regs[..|regs| - 1];
    var last := regs[|regs| - 1];
    assert regs == prefix + [last];
    if Registration(kind, h) in prefix {
      OneListener(prefix, kind, h);
    } else {
      NoListener(prefix, kind);
    }
  }

  /** An event nobody registered for has no listener. */
  lemma {:induction false} NoListener(regs: seq<Registration>, kind: EventKind)
    requires forall x :: Registration(kind, x) !in regs
    ensures ListenersAfter(regs, kind) == []
  {
    if regs != [] {
      var prefix := regs[..|regs| - 1];
      assert regs == prefix + [regs[|regs| - 1]];
      NoListener(prefix, kind);
    }
  }

  /** Each click on "next" runs `showNext` once, each click on "previous"
      runs `showPrev` once, and a resize runs both resize listeners in the
      order they were registered. */
  lemma PageListeners()
    ensures Listeners(NextClick) == [ShowNextFn]
    ensures Listeners(PrevClick) == [ShowPrevFn]
    ensures Listeners(TrackScroll) == [SyncIndexOnScroll]
    ensures Listeners(WindowResize) == [ClampOnResize, RepositionOnResize]
  {
    var regs := PageRegistrations();
    assert regs[1] == Registration(NextClick, ShowNextFn);
    OneListener(regs, NextClick, ShowNextFn);
    assert regs[2] == Registration(PrevClick, ShowPrevFn);
    OneListener(regs, PrevClick, ShowPrevFn);
    assert regs[0] == Registration(TrackScroll, SyncIndexOnScroll);
    OneListener(regs, TrackScroll, SyncIndexOnScroll);
    ResizeListeners();
  }

  lemma ResizeListeners()
    ensures Listeners(WindowResize) == [ClampOnResize, RepositionOnResize]
  {
    var first := FirstRegistrations();
    FirstResizeListener();
    var next := Registration(NextClick, ShowNextFn);
    var prev := Registration(PrevClick, ShowPrevFn);
    var reposition := Registration(WindowResize, RepositionOnResize);
    assert PageRegistrations() == first + [next] + [prev] + [reposition];
    ResizeListenersAfter(first, next, prev, reposition);
  }

  /** The registrations made before `updateCarousel` runs for the first time. */
  function FirstRegistrations(): seq<Registration> {
    [ Registration(TrackScroll, SyncIndexOnScroll),
      Registration(NextClick, ShowNextFn),
      Registration(PrevClick, ShowPrevFn),
      Registration(WindowResize, ClampOnResize) ]
  }

  /** Before the second block of registrations the resize event has only the
      clamping listener. */
  lemma FirstResizeListener()
    ensures ListenersAfter(FirstRegistrations(), WindowResize) == [ClampOnResize]
  {
    var first := FirstRegistrations();
    assert first[3] == Registration(WindowResize, ClampOnResize);
    OneListener(first, WindowResize, ClampOnResize);
  }

  /** Two click registrations and one new resize callback after that. */
  lemma ResizeListenersAfter(first: seq<Registration>, next: Registration, prev: Registration,
                             reposition: Registration)
    requires ListenersAfter(first, WindowResize) == [ClampOnResize]
    requires next.kind != WindowResize && prev.kind != WindowResize
    requires reposition == Registration(WindowResize, RepositionOnResize)
    ensures ListenersAfter(first + [next] + [prev] + [reposition], WindowResize)
         == [ClampOnResize, RepositionOnResize]
  {
    ListenersAfterOneMore(first, next, WindowResize);
    ListenersAfterOneMore(first + [next], prev, WindowResize);
    ListenersAfterOneMore(first + [next] + [prev], reposition, WindowResize);
  }

  /** The effect of one listener. */
  function Run(v: View, h: Handler, cardCount: nat, m: Metrics): View
    requires Measurable(cardCount, m)
  {
    match h
    case ShowNextFn => AfterShowNext(v, cardCount, m)
    case ShowPrevFn => AfterShowPrev(v, cardCount, m)
    case SyncIndexOnScroll => AfterScroll(v, cardCount, m)
    case ClampOnResize => AfterClampOnResize(v, cardCount, m)
    case RepositionOnResize => AfterRepositionOnResize(v, cardCount, m)
  }

  /** The effect of running the listeners `hs` in order. */
  function RunAll(v: View, hs: seq<Handler>, cardCount: nat, m: Metrics): View
    requires Measurable(cardCount, m)
  {
    if hs == [] then v else Run(RunAll(v, hs[..|hs| - 1], cardCount, m), hs[|hs| - 1], cardCount, m)
  }

  /** The effect of one event on the carousel. */
  function Fire(v: View, kind: EventKind, cardCount: nat, m: Metrics): View
    requires Measurable(cardCount, m)
  {
    RunAll(v, Listeners(kind), cardCount, m)
  }

  lemma RunOne(v: View, h: Handler, cardCount: nat, m: Metrics)
    requires Measurable(cardCount, m)
    ensures RunAll(v, [h], cardCount, m) == Run(v, h, cardCount, m)
  {
    assert [h][..0] == [];
  }

  /** A click on "next" moves one card forward (not two), and stops at the
      last index; the buttons then agree with the new index. */
  lemma NextClickSteps(v: View, cardCount: nat, m: Metrics)
    requires Measurable(cardCount, m)
    ensures Fire(v, NextClick, cardCount, m) == AfterShowNext(v, cardCount, m)
    ensures Fire(v, NextClick, cardCount, m).index == Next(v.index, MaxIndex(cardCount, m))
    ensures Settled(v, cardCount, m) ==> Settled(Fire(v, NextClick, cardCount, m), cardCount, m)
  {
    PageListeners();
    RunOne(v, ShowNextFn, cardCount, m);
  }

  /** A click on "previous" moves one card back and stops at 0. */
  lemma PrevClickSteps(v: View, cardCount: nat, m: Metrics)
    requires Measurable(cardCount, m)
    ensures Fire(v, PrevClick, cardCount, m) == AfterShowPrev(v, cardCount, m)
    ensures Fire(v, PrevClick, cardCount, m).index == Prev(v.index)
    ensures Settled(v, cardCount, m) ==> Settled(Fire(v, PrevClick, cardCount, m), cardCount, m)
  {
    PageListeners();
    RunOne(v, ShowPrevFn, cardCount, m);
  }

  /** A resize never moves the index forward: it becomes
      `min(index, maxIndex)`, and with cards on the page the view is settled. */
  lemma ResizeClamps(v: View, cardCount: nat, m: Metrics)
    requires Measurable(cardCount, m)
    ensures Fire(v, WindowResize, cardCount, m).index == Min(v.index, MaxIndex(cardCount, m))
    ensures 0 <= v.index && cardCount > 0 ==> Settled(Fire(v, WindowResize, cardCount, m), cardCount, m)
  {
    PageListeners();
    var hs := [ClampOnResize, RepositionOnResize];
    assert hs[..1] == [ClampOnResize];
    RunOne(v, ClampOnResize, cardCount, m);
  }

  /** `k` clicks on "next" from a settled view reach `min(index + k, maxIndex)`. */
  lemma {:induction false} NextClicks(v: View, k: nat, cardCount: nat, m: Metrics)
    requires Measurable(cardCount, m) && Settled(v, cardCount, m)
    ensures FireTimes(v, NextClick, k, cardCount, m).index == Min(v.index + k, MaxIndex(cardCount, m))
    ensures Settled(FireTimes(v, NextClick, k, cardCount, m), cardCount, m)
  {
    if k > 0 {
      NextClicks(v, k - 1, cardCount, m);
      NextClickSteps(FireTimes(v, NextClick, k - 1, cardCount, m), cardCount, m);
    }
  }

  /** The same event `k` times in a row with unchanged metrics. */
  function FireTimes(v: View, kind: EventKind, k: nat, cardCount: nat, m: Metrics): View
    requires Measurable(cardCount, m)
  {
    if k == 0 then v else Fire(FireTimes(v, kind, k - 1, cardCount, m), kind, cardCount, m)
  }

  /** The script's initial state: index 0, then `updateCarousel(false)` at
      load time (it is called twice, with the same effect). */
  function Initial(cardCount: nat, m: Metrics, prevDisabled: bool, nextDisabled: bool): (r: View)
    requires Measurable(cardCount, m)
    ensures r.index == 0
    ensures cardCount > 0 ==> Settled(r, cardCount, m)
  {
    var v := View(0, prevDisabled, nextDisabled, Unplaced);
    Placed(Placed(v, cardCount, m, false), cardCount, m, false)
  }

  /** The carousel's state on the page: the module variable `currentIndex`,
      the two buttons' `disabled` flags and the track's placement. */
  class Carousel {
    const cardCount: nat
    var currentIndex: int
    var prevDisabled: bool
    var nextDisabled: bool
    var position: Position

    function Snapshot(): View
      reads this
    {
      View(currentIndex, prevDisabled, nextDisabled, position)
    }

    /** Loading the script; the buttons start with the markup's flags. */
    constructor (cardCount: nat, m: Metrics, prevDisabled: bool, nextDisabled: bool)
      requires Measurable(cardCount, m)
      ensures this.cardCount == cardCount
      ensures Snapshot() == Initial(cardCount, m, prevDisabled, nextDisabled)
    {
      this.cardCount := cardCount;
      currentIndex := 0;
      this.prevDisabled := prevDisabled;
      this.nextDisabled := nextDisabled;
      position := Unplaced;
      new;
      UpdateCarousel(m, false);
      UpdateCarousel(m, false);
    }

    method UpdateButtons(m: Metrics)
      requires Measurable(cardCount, m)
      modifies this
      ensures Snapshot() == WithButtons(old(Snapshot()), cardCount, m)
    {
      var maxIndex := MaxIndex(cardCount, m);
      prevDisabled := currentIndex == 0;
      nextDisabled := currentIndex >= maxIndex;
    }

    method UpdateCarousel(m: Metrics, animate: bool)
      requires Measurable(cardCount, m)
      modifies this
      ensures Snapshot() == Placed(old(Snapshot()), cardCount, m, animate)
    {
      if cardCount == 0 {
        return;
      }
      var cw := CardWidth(cardCount, m);
      if m.mobile {
        position := ScrolledTo(currentIndex * cw, animate);
      } else {
        position := Translated(currentIndex * cw, animate);
      }
      UpdateButtons(m);
    }

    method ShowNext(m: Metrics)
      requires Measurable(cardCount, m)
      modifies this
      ensures Snapshot() == AfterShowNext(old(Snapshot()), cardCount, m)
    {
      if currentIndex < MaxIndex(cardCount, m) {
        currentIndex := currentIndex + 1;
        UpdateCarousel(m, true);
      }
    }

    method ShowPrev(m: Metrics)
      requires Measurable(cardCount, m)
      modifies this
      ensures Snapshot() == AfterShowPrev(old(Snapshot()), cardCount, m)
    {
      if currentIndex > 0 {
        currentIndex := currentIndex - 1;
        UpdateCarousel(m, true);
      }
    }

    method SyncIndexOnScroll(m: Metrics)
      requires Measurable(cardCount, m)
      modifies this
      ensures Snapshot() == AfterScroll(old(Snapshot()), cardCount, m)
    {
      if !m.mobile {
        return;
      }
      var cw := CardWidth(cardCount, m);
      var idx := Round(m.scrollLeft, cw);
      currentIndex := Max(0, Min(idx, MaxIndex(cardCount, m)));
      UpdateButtons(m);
    }

    method ClampOnResize(m: Metrics)
      requires Measurable(cardCount, m)
      modifies this
      ensures Snapshot() == AfterClampOnResize(old(Snapshot()), cardCount, m)
    {
      currentIndex := Min(currentIndex, MaxIndex(cardCount, m));
      UpdateCarousel(m, false);
    }

    method RepositionOnResize(m: Metrics)
      requires Measurable(cardCount, m)
      modifies this
      ensures Snapshot() == AfterRepositionOnResize(old(Snapshot()), cardCount, m)
    {
      UpdateCarousel(m, false);
    }

    method RunListener(h: Handler, m: Metrics)
      requires Measurable(cardCount, m)
      modifies this
      ensures Snapshot() == Run(old(Snapshot()), h, cardCount, m)
    {
      match h
      case ShowNextFn => ShowNext(m);
      case ShowPrevFn => ShowPrev(m);
      case SyncIndexOnScroll => SyncIndexOnScroll(m);
      case ClampOnResize => ClampOnResize(m);
      case RepositionOnResize => RepositionOnResize(m);
    }

    /** Dispatching an event: the browser calls the event's listeners in the
      order they were registered. */
    method Dispatch(kind: EventKind, m: Metrics)
      requires Measurable(cardCount, m)
      modifies this
      ensures Snapshot() == Fire(old(Snapshot()), kind, cardCount, m)
    {
      RunListeners(Listeners(kind), m);
    }

    /** Running the listeners `hs` one after the other. */
    method RunListeners(hs: seq<Handler>, m: Metrics)
      requires Measurable(cardCount, m)
      modifies this
      ensures Snapshot() == RunAll(old(Snapshot()), hs, cardCount, m)
    {
      var i := 0;
      while i < |hs|
        invariant 0 <= i <= |hs|
        invariant Snapshot() == RunAll(old(Snapshot()), hs[..i], cardCount, m)
      {
        assert hs[..i + 1][..i] == hs[..i];
        RunListener(hs[i], m);
        i := i + 1;
      }
      assert hs[..|hs|] == hs;
    }
  }
}
