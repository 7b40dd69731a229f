/** The split gallery: a featured image, a list of thumbnails of which one
    carries the `active` class, and the index `current` of the thumbnail on
    show. Clicking a thumbnail shows it; the overlay buttons step through the
    thumbnails cyclically; clicking the featured image or double-clicking a
    thumbnail opens the lightbox. */
module Gallery {
  import opened Wrappers
  import opened JsNumber
  import opened GalleryLightbox

  /** A thumbnail image: its source and its `alt` attribute, if any. */
  datatype Thumb = Thumb(src: string, altAttr: Option<string>)

  /** The image's `alt` property: the attribute, or the empty text. */
  function Alt(t: Thumb): (a: string)
    ensures t.altAttr == None ==> a == ""
    ensures t.altAttr.Some? ==> a == t.altAttr.value
  {
    t.altAttr.GetOr("")
  }

  /** `findIndex`: the first position holding `true`, or -1. */
  function FirstActive(flags: seq<bool>): (r: int)
    ensures -1 <= r < |flags|
    ensures r >= 0 ==> flags[r] && forall j :: 0 <= j < r ==> !flags[j]
    ensures r == -1 <==> forall j :: 0 <= j < |flags| ==> !flags[j]
  {
    if |flags| == 0 then -1
    else if flags[0] then 0
    else
      var k := FirstActive(flags[1..]);
      assert forall j :: 1 <= j < |flags| ==> flags[j] == flags[1..][j - 1];
      if k < 0 then -1 else k + 1
  }

  /** The thumbnail shown first: the first one marked active, else the
      first one. */
  function InitialCurrent(flags: seq<bool>): (c: nat)
    ensures |flags| > 0 ==> c < |flags|
    ensures (exists j :: 0 <= j < |flags| && flags[j]) ==> flags[c] && forall j :: 0 <= j < c ==> !flags[j]
    ensures (forall j :: 0 <= j < |flags| ==> !flags[j]) ==> c == 0
  {
    var k := FirstActive(flags);
    if k < 0 then 0 else k
  }

  /** `changeFeatured(dir)`'s new index, `(current + dir + n) % n`: the
      neighbour in direction `dir`, wrapping around at both ends. */
  function Step(current: int, dir: int, n: int): (r: int)
    requires n > 0 && 0 <= current < n
    requires dir == 1 || dir == -1
    ensures 0 <= r < n
    ensures dir == 1 ==> r == if current == n - 1 then 0 else current + 1
    ensures dir == -1 ==> r == if current == 0 then n - 1 else current - 1
  {
    var sum := current + dir + n;
    var r := Rem(sum, n);
    assert r == sum % n;
    if dir == 1 && current == n - 1 then
      ModInRange(0, n);
      assert sum == 0 + 2 * n;
      r
    else if dir == -1 && current == 0 then
      ModInRange(n - 1, n);
      assert sum == n - 1;
      r
    else
      ModInRange(current + dir, n);
      r
  }

  /** Adding whole turns does not change a remainder already in range. */
  lemma ModInRange(x: int, n: int)
    requires n > 0 && 0 <= x < n
    ensures x % n == x
    ensures (x + n) % n == x
    ensures (x + 2 * n) % n == x
  {
    RemainderIsUnique(x, 0, x, n);
    RemainderIsUnique(x + n, 1, x, n);
    RemainderIsUnique(x + 2 * n, 2, x, n);
  }

  /** Euclidean division leaves only one remainder in `[0, n)`. */
  lemma RemainderIsUnique(a: int, q: int, r: int, n: int)
    requires n > 0 && 0 <= r < n && a == q * n + r
    ensures a % n == r
  {
    var q', r' := a / n, a % n;
    assert a == q' * n + r';
    var d := q' - q;
    assert d * n == q' * n - q * n;
    assert d * n == r - r';
    if d > 0 {
      AtLeastOneTurn(d, n);
    } else if d < 0 {
      AtLeastOneTurn(-d, n);
    }
  }

  lemma AtLeastOneTurn(d: int, n: int)
    requires d >= 1 && n > 0
    ensures d * n >= n
  {
    assert d * n == (d - 1) * n + n;
    assert (d - 1) * n >= 0;
  }

  /** Stepping forward then back, or back then forward, returns to the same
      thumbnail. */
  lemma StepBackAndForth(current: int, n: int)
    requires n > 0 && 0 <= current < n
    ensures Step(Step(current, 1, n), -1, n) == current
    ensures Step(Step(current, -1, n), 1, n) == current
  {
  }

  /** `k` presses of the "next" overlay button. */
  function StepTimes(current: int, k: nat, n: int): (r: int)
    requires n > 0 && 0 <= current < n
    ensures 0 <= r < n
  {
    if k == 0 then current else Step(StepTimes(current, k - 1, n), 1, n)
  }

  /** Up to one full turn, `k` steps forward land `k` places further on,
      counted modulo the number of thumbnails. */
  lemma {:induction false} StepTimesRotates(current: int, k: nat, n: int)
    requires n > 0 && 0 <= current < n && k <= n
    ensures StepTimes(current, k, n) == if current + k < n then current + k else current + k - n
  {
    if k > 0 {
      StepTimesRotates(current, k - 1, n);
    }
  }

  /** A full turn of `n` steps comes back to where it started. */
  lemma FullTurn(current: int, n: int)
    requires n > 0 && 0 <= current < n
    ensures StepTimes(current, n, n) == current
  {
    StepTimesRotates(current, n, n);
  }

  /** The `active` flags after `setActiveThumb(thumbs[k])`. */
  function OnlyActive(n: nat, k: nat): (flags: seq<bool>)
    ensures |flags| == n
    ensures forall j :: 0 <= j < n ==> (flags[j] <==> j == k)
  {
    seq(n, j => j == k)
  }

  function CountActive(flags: seq<bool>): nat {
    if flags == [] then 0
    else CountActive(flags[..|flags| - 1]) + if flags[|flags| - 1] then 1 else 0
  }

  /** After `setActiveThumb` exactly one thumbnail is active. */
  lemma {:induction false} ExactlyOneActive(n: nat, k: nat)
    ensures CountActive(OnlyActive(n, k)) == if k < n then 1 else 0
  {
    if n > 0 {
      assert OnlyActive(n, k)[..n - 1] == OnlyActive(n - 1, k);
      ExactlyOneActive(n - 1, k);
    }
  }

  /** What the gallery shows agrees with `current`: the featured image is
      thumbnail `current` and it is the one active thumbnail. */
  predicate Showing(thumbs: seq<Thumb>, flags: seq<bool>, current: int, src: string, alt: string) {
    0 <= current < |thumbs|
    && flags == OnlyActive(|thumbs|, current)
    && src == thumbs[current].src && alt == Alt(thumbs[current])
  }

  /** The gallery elements of the page and the closure's `current`. */
  class Gallery {
    const thumbs: seq<Thumb>
    const active: array<bool>
    var current: int
    var featuredSrc: string
    var featuredAlt: string

    ghost predicate Valid()
      reads this
    {
      active.Length == |thumbs| && 0 <= current && (|thumbs| > 0 ==> current < |thumbs|)
    }

    /** The gallery as the markup sets it up: `current` is the first thumbnail
        marked active, else 0. */
    constructor (thumbs: seq<Thumb>, initiallyActive: seq<bool>, featuredSrc: string, featuredAlt: string)
      requires |initiallyActive| == |thumbs|
      ensures Valid() && fresh(active)
      ensures this.thumbs == thumbs && active[..] == initiallyActive
      ensures current == InitialCurrent(initiallyActive)
      ensures this.featuredSrc == featuredSrc && this.featuredAlt == featuredAlt
    {
      this.thumbs := thumbs;
      active := new bool[|thumbs|](i requires 0 <= i < |thumbs| => initiallyActive[i]);
      current := InitialCurrent(initiallyActive);
      this.featuredSrc := featuredSrc;
      this.featuredAlt := featuredAlt;
    }

    /** `setFeatured(src, alt)`. */
    method SetFeatured(src: string, alt: Option<string>)
      modifies this
      ensures featuredSrc == src && featuredAlt == alt.GetOr("")
      ensures current == old(current)
    {
      featuredSrc := src;
      featuredAlt := alt.GetOr("");
    }

    /** `setActiveThumb(thumbs[k])`: clear every thumbnail, then mark `k`. */
    method SetActiveThumb(k: nat)
      requires Valid() && k < |thumbs|
      modifies active
      ensures active[..] == OnlyActive(|thumbs|, k)
    {
      var i := 0;
      while i < active.Length
        invariant 0 <= i <= active.Length
        invariant forall j :: 0 <= j < i ==> !active[j]
      {
        active[i] := false;
        i := i + 1;
      }
      active[k] := true;
    }

    /** A click on thumbnail `k`. */
    method ClickThumb(k: nat)
      requires Valid() && k < |thumbs|
      modifies this, active
      ensures Valid() && current == k
      ensures Showing(thumbs, active[..], current, featuredSrc, featuredAlt)
    {
      SetFeatured(thumbs[k].src, Some(Alt(thumbs[k])));
      SetActiveThumb(k);
      current := k;
    }

    /** `changeFeatured(dir)`, wired to the overlay buttons with -1 and +1.
        With no thumbnail at all the script fails (`thumbs[NaN]`), so a
        thumbnail is required. */
    method ChangeFeatured(dir: int)
      requires Valid() && |thumbs| > 0
      requires dir == 1 || dir == -1
      modifies this, active
      ensures Valid() && current == Step(old(current), dir, |thumbs|)
      ensures Showing(thumbs, active[..], current, featuredSrc, featuredAlt)
    {
      current := Rem(current + dir + |thumbs|, |thumbs|);
      var t := thumbs[current];
      SetFeatured(t.src, Some(Alt(t)));
      SetActiveThumb(current);
    }

    /** A click on the featured image zooms it. */
    method ClickFeatured(lightbox: Lightbox)
      modifies lightbox
      ensures lightbox.Snapshot() == Opened(old(lightbox.Snapshot()), featuredSrc, Some(featuredAlt))
    {
      lightbox.Open(featuredSrc, Some(featuredAlt));
    }

    /** A double click on thumbnail `k` zooms that thumbnail. */
    method DoubleClickThumb(k: nat, lightbox: Lightbox)
      requires k < |thumbs|
      modifies lightbox
      ensures lightbox.Snapshot() == Opened(old(lightbox.Snapshot()), thumbs[k].src, Some(Alt(thumbs[k])))
    {
      lightbox.Open(thumbs[k].src, Some(Alt(thumbs[k])));
    }
  }
}
