/** The zoom lightbox of the split gallery: an overlay element whose `show`
    class displays it, the image inside it (`src`, `alt`), and the page body's
    `overflow` style, set to `hidden` while the overlay is open so that the
    page behind it does not scroll. */
module GalleryLightbox {
  import opened Wrappers

  datatype State = State(shown: bool, src: string, alt: string, bodyOverflow: string)

  /** The overlay is shown exactly while the page is scroll-locked. */
  predicate Locked(s: State) {
    s.shown <==> s.bodyOverflow == "hidden"
  }

  /** `openLightbox(src, alt)`: an absent `alt` becomes the empty text. */
  function Opened(s: State, src: string, alt: Option<string>): (r: State)
    ensures r.shown && r.src == src && r.bodyOverflow == "hidden"
    ensures alt == None ==> r.alt == ""
    ensures alt.Some? ==> r.alt == alt.value
    ensures Locked(r)
  {
    State(true, src, alt.GetOr(""), "hidden")
  }

  /** `closeLightbox()`: hides the overlay, empties the image source and
      unlocks the page; the image's `alt` is left as it was. */
  function Closed(s: State): (r: State)
    ensures !r.shown && r.src == "" && r.bodyOverflow == ""
    ensures r.alt == s.alt
    ensures Locked(r)
  {
    s.(shown := false, src := "", bodyOverflow := "")
  }

  /** The document's `keydown` listener: only Escape closes. */
  function AfterKeyDown(s: State, key: string): (r: State)
    ensures key == "Escape" ==> !r.shown && r.src == "" && r.bodyOverflow == ""
    ensures key != "Escape" ==> r == s
    ensures Locked(s) ==> Locked(r)
  {
    if key == "Escape" then Closed(s) else s
  }

  /** Closing an already closed lightbox changes nothing. */
  lemma CloseIsIdempotent(s: State)
    ensures Closed(Closed(s)) == Closed(s)
  {
  }

  /** Opening forgets everything about the previous state: after
      open(a), close, open(b) the overlay is shown with image `b`. */
  lemma ReopenShowsLatest(s: State, a: string, altA: Option<string>, b: string, altB: Option<string>)
    ensures Opened(Closed(Opened(s, a, altA)), b, altB) == Opened(s, b, altB)
    ensures Opened(Closed(Opened(s, a, altA)), b, altB).shown
    ensures Opened(Closed(Opened(s, a, altA)), b, altB).src == b
  {
  }

  /** The lightbox elements of the page. */
  class Lightbox {
    var shown: bool
    var src: string
    var alt: string
    var bodyOverflow: string

    function Snapshot(): State
      reads this
    {
      State(shown, src, alt, bodyOverflow)
    }

    /** The state the markup and the page start in. */
    constructor (initial: State)
      ensures Snapshot() == initial
    {
      shown := initial.shown;
      src := initial.src;
      alt := initial.alt;
      bodyOverflow := initial.bodyOverflow;
    }

    method Open(src: string, alt: Option<string>)
      modifies this
      ensures Snapshot() == Opened(old(Snapshot()), src, alt)
    {
      this.src := src;
      this.alt := alt.GetOr("");
      shown := true;
      bodyOverflow := "hidden";
    }

    /** Also what a click on the close control or on the backdrop does. */
    method Close()
      modifies this
      ensures Snapshot() == Closed(old(Snapshot()))
    {
      shown := false;
      src := "";
      bodyOverflow := "";
    }

    method OnKeyDown(key: string)
      modifies this
      ensures Snapshot() == AfterKeyDown(old(Snapshot()), key)
    {
      if key == "Escape" {
        Close();
      }
    }
  }
}
