# TurboLab page logic in Dafny

A model of the interactive core of the TurboLab marketing site, with proofs
about it:

- **Services carousel** (`static/script.js`): the clamped index
  `currentIndex`, the layout arithmetic (card gap, card width, visible cards,
  last index), the arrow buttons, the mobile scroll sync, the two resize
  listeners and the way the browser dispatches the listeners the script
  registers.
- **Split gallery** (`static/script.js`): the thumbnail index `current`, its
  cyclic stepping, the single `active` thumbnail and the featured image.
- **Lightbox** (`static/script.js`): the shown flag, the image `src`/`alt` and
  the body's scroll lock.
- **Contact form** (`app.py`): `home()`, which strips the three fields and
  answers with an error or a success flash and a redirect.

Every page reading (card width, carousel width, the `(max-width: 900px)`
media query, the computed `gap`, `scrollLeft`) is a parameter:
`ServicesCarousel.Metrics` holds what a handler reads when it runs. State that
the script keeps in module or closure variables and in the DOM is held by
classes (`ServicesCarousel.Carousel`, `Gallery.Gallery`,
`GalleryLightbox.Lightbox`). Their methods are proved against pure transition
functions (`AfterShowNext`, `Closed`, `Step`, …), and the properties are
proved as lemmas about those functions. The JavaScript built-ins the script
uses (`parseInt(s, 10)`, `Math.floor` and `Math.round` of a quotient, `%`)
are written out over unbounded integers in `JsNumber`.

Two behaviours of the code are worth stating up front:

- **No wrap-around in the services carousel.** The comment at the head of
  `static/script.js` (line 1) says "Infinite carousel logic", but the
  services carousel clamps the index to `[0, maxIndex]`, and the model
  follows the code.
- **One click moves one card.** Lines 170-171 register `showNext` and
  `showPrev` a second time. Both are named functions, so the second
  registration passes the same callback for the same event. The DOM's
  `addEventListener` ignores such a duplicate (same type, callback and
  capture). One click on "next" therefore still runs `showNext` once.
  `ServicesCarousel.AddListener` models this deduplication.
  `ServicesCarousel.PageListeners` proves the resulting listener lists, and
  `ServicesCarousel.NextClickSteps` proves that one click moves from `i` to
  `min(i + 1, maxIndex)`. The resize listener at line 173 is a new arrow
  function, so it is added: a resize runs the clamping listener and then the
  repositioning one.

Files: `wrappers.dfy` (Option), `js_number.dfy` (JavaScript number
built-ins), `services_carousel.dfy`, `gallery.dfy`, `lightbox.dfy`,
`contact_form.dfy`.

## Model

| member | source | states |
|---|---|---|
| `JsNumber.ParseIntOfNumeral` | static/script.js:25 | `parseInt(s, 10)` reads back any decimal numeral after leading white space, whatever non-digit unit follows it |
| `JsNumber.ParseIntOfBareNumeral` | static/script.js:25 | a numeral with no white space before it and a unit such as `px` after it is read back as its value |
| `JsNumber.ParseIntOfNegativeNumeral` | static/script.js:25 | the same for a numeral preceded by a minus sign, which gives the negative number |
| `JsNumber.ParseInt` | static/script.js:25 | a number is produced only when the text holds a digit (NaN otherwise) |
| `JsNumber.FloorDiv` | static/script.js:38 | `Math.floor(p / q)` is the unique `r` with `q*r <= p < q*r + q` (reversed for negative `q`) |
| `JsNumber.Round` | static/script.js:80 | `Math.round(a / b)` is the nearest integer with halves rounded up: `r - 1/2 <= a/b < r + 1/2` |
| `JsNumber.Rem` | static/script.js:133 | JavaScript `%` takes the dividend's sign, and equals the mathematical remainder for a non-negative dividend |
| `ServicesCarousel.CardGap` | static/script.js:22-27 | an empty computed gap gives 0, an unparsable one gives 24, otherwise the leading integer |
| `ServicesCarousel.CardGapOfPixels` | static/script.js:22-27 | a gap written `<n>px` gives `n` |
| `ServicesCarousel.CardWidth` | static/script.js:29-33 | card width plus 24 on desktop (so at least 24), card width plus the gap on mobile, and 0 for the card width without cards |
| `ServicesCarousel.WholeCardsIn` | static/script.js:35-39 | `max(1, floor(viewport / cw))`: at least 1, and for `cw > 0` one more card would not fit |
| `ServicesCarousel.VisibleCards` | static/script.js:35-39 | at least one card is visible, and as many whole cards as fit |
| `ServicesCarousel.MaxIndex` | static/script.js:41-43 | `max(0, n - visible)` is at least 0, at most `n - 1` when there is a card, and 0 exactly when all cards fit |
| `ServicesCarousel.Next` | static/script.js:62-67 | one step forward, a no-op at `maxIndex`, stays in `[0, maxIndex]` |
| `ServicesCarousel.Prev` | static/script.js:69-74 | one step back, a no-op at 0, stays non-negative |
| `ServicesCarousel.Clamp` | static/script.js:81 | `max(0, min(x, maxIndex))` lies in `[0, maxIndex]` and keeps in-range values |
| `ServicesCarousel.NextTimesStops` | static/script.js:62-67 | `k` forward steps from `i` reach `min(i + k, maxIndex)`: no wrap-around |
| `ServicesCarousel.PrevTimesStops` | static/script.js:69-74 | `k` backward steps from `i` reach `max(i - k, 0)` |
| `ServicesCarousel.WithButtons` | static/script.js:45-48 | prev is disabled exactly at index 0, next exactly when the index is at least `maxIndex` |
| `ServicesCarousel.Placed` | static/script.js:50-60 | without cards nothing changes; otherwise the track goes to `index * cardWidth` (scroll on mobile, translate on desktop) and the buttons agree with the index |
| `ServicesCarousel.AfterShowNext` | static/script.js:62-67 | `showNext` moves to `Next(index, maxIndex)` and keeps a settled view settled |
| `ServicesCarousel.AfterShowPrev` | static/script.js:69-74 | `showPrev` moves to `Prev(index)` and keeps a settled view settled |
| `ServicesCarousel.AfterScroll` | static/script.js:77-83 | on desktop nothing changes; on mobile the index becomes `round(scrollLeft / cw)` clamped to `[0, maxIndex]` and the buttons follow |
| `ServicesCarousel.AfterClampOnResize` | static/script.js:88-92 | the first resize listener sets the index to `min(index, maxIndex)`, never higher |
| `ServicesCarousel.AfterRepositionOnResize` | static/script.js:173-175 | the second resize listener repositions without changing the index |
| `ServicesCarousel.PageRegistrations` | static/script.js:77-173 | the seven `addEventListener` calls at lines 77, 85, 86, 88, 170, 171 and 173, in order: the second block repeats the two named click callbacks and adds a second, different resize callback |
| `ServicesCarousel.AddListener` | static/script.js:170-171 | registering a callback already present leaves the listener list unchanged; lists stay free of duplicates and only grow at the end |
| `ServicesCarousel.ListenersAfter` | static/script.js:77-92 | an event's listeners are exactly the callbacks registered for it, each once |
| `ServicesCarousel.OneListener` | static/script.js:170-171 | a callback registered for an event any number of times is its single listener |
| `ServicesCarousel.PageListeners` | static/script.js:170-171 | "next" and "previous" clicks each have one listener; the track scroll has one; a resize has the clamping listener followed by the repositioning one |
| `ServicesCarousel.ResizeListeners` | static/script.js:173-175 | a resize runs the clamping listener and then the repositioning one |
| `ServicesCarousel.NextClickSteps` | static/script.js:85-86 | one click on "next" is one `showNext`: index `i` becomes `min(i + 1, maxIndex)` |
| `ServicesCarousel.PrevClickSteps` | static/script.js:86 | one click on "previous" is one `showPrev`: index `i` becomes `max(i - 1, 0)` |
| `ServicesCarousel.ResizeClamps` | static/script.js:88-92 | a resize event leaves the index at `min(index, maxIndex)`, settled when there are cards |
| `ServicesCarousel.NextClicks` | static/script.js:62-67 | `k` clicks on "next" from a settled view reach `min(i + k, maxIndex)` and stay settled |
| `ServicesCarousel.Initial` | static/script.js:94-95 | at load the index is 0 and, with cards, the buttons agree with it |
| `ServicesCarousel.Carousel.constructor` | static/script.js:16 | loading the script yields the initial view |
| `ServicesCarousel.Carousel.UpdateButtons` | static/script.js:45-48 | sets the two flags as `WithButtons` says |
| `ServicesCarousel.Carousel.UpdateCarousel` | static/script.js:50-60 | places the track as `Placed` says |
| `ServicesCarousel.Carousel.ShowNext` | static/script.js:62-67 | updates the carousel as `AfterShowNext` says |
| `ServicesCarousel.Carousel.ShowPrev` | static/script.js:69-74 | updates the carousel as `AfterShowPrev` says |
| `ServicesCarousel.Carousel.SyncIndexOnScroll` | static/script.js:77-83 | updates the carousel as `AfterScroll` says |
| `ServicesCarousel.Carousel.ClampOnResize` | static/script.js:88-92 | updates the carousel as `AfterClampOnResize` says |
| `ServicesCarousel.Carousel.RepositionOnResize` | static/script.js:173-175 | updates the carousel as `AfterRepositionOnResize` says |
| `ServicesCarousel.Carousel.Dispatch` | static/script.js:85-86 | an event runs its registered listeners in order |
| `ServicesCarousel.Carousel.RunListeners` | static/script.js:85-86 | a loop runs the given listeners one after the other, leaving the state `RunAll` gives |
| `Gallery.Alt` | static/script.js:112 | a thumbnail without an `alt` attribute has the empty text as `alt` |
| `Gallery.FirstActive` | static/script.js:108 | `findIndex` gives the first active position, or -1 exactly when none is active |
| `Gallery.InitialCurrent` | static/script.js:108-109 | the first active thumbnail, or 0 when none is active; in range when there are thumbnails |
| `Gallery.Step` | static/script.js:132-133 | `(current + dir + n) % n` stays in `[0, n)` and moves to the neighbour, wrapping from the last to the first and back |
| `Gallery.StepBackAndForth` | static/script.js:132-139 | stepping forward then back, or back then forward, returns to the same thumbnail |
| `Gallery.StepTimesRotates` | static/script.js:132-139 | `k <= n` forward steps land `k` places on, modulo `n` |
| `Gallery.FullTurn` | static/script.js:132-139 | `n` forward steps return to the start |
| `Gallery.OnlyActive` | static/script.js:114-117 | after `setActiveThumb`, a thumbnail is active exactly when it is the chosen one |
| `Gallery.ExactlyOneActive` | static/script.js:114-117 | exactly one thumbnail is active afterwards |
| `Gallery.Gallery.constructor` | static/script.js:103-109 | `current` starts at the first active thumbnail or 0 |
| `Gallery.Gallery.SetFeatured` | static/script.js:111-113 | the featured image takes the source and the alt text, '' when absent |
| `Gallery.Gallery.SetActiveThumb` | static/script.js:114-117 | clears every thumbnail, then marks the chosen one |
| `Gallery.Gallery.ClickThumb` | static/script.js:119-121 | the clicked thumbnail becomes current, featured and the one active thumbnail |
| `Gallery.Gallery.ChangeFeatured` | static/script.js:132-137 | `current` steps cyclically; the featured image is `thumbs[current]` and only it is active |
| `Gallery.Gallery.ClickFeatured` | static/script.js:161 | clicking the featured image opens the lightbox on it |
| `Gallery.Gallery.DoubleClickThumb` | static/script.js:163 | double-clicking a thumbnail opens the lightbox on it |
| `GalleryLightbox.Opened` | static/script.js:149-153 | open shows the overlay with the given source, alt '' when absent, and locks the page |
| `GalleryLightbox.Closed` | static/script.js:154-158 | close hides the overlay, clears the source, unlocks the page and keeps the alt |
| `GalleryLightbox.AfterKeyDown` | static/script.js:167 | Escape closes, any other key changes nothing |
| `GalleryLightbox.CloseIsIdempotent` | static/script.js:154-158 | closing twice is closing once |
| `GalleryLightbox.ReopenShowsLatest` | static/script.js:149-158 | open(a), close, open(b) leaves the overlay shown on `b` |
| `GalleryLightbox.Lightbox.Open` | static/script.js:149-153 | updates the elements as `Opened` says |
| `GalleryLightbox.Lightbox.Close` | static/script.js:154-158 | updates the elements as `Closed` says; also what the close control and the backdrop do |
| `GalleryLightbox.Lightbox.OnKeyDown` | static/script.js:167 | updates the elements as `AfterKeyDown` says |
| `ContactForm.Field` | app.py:9-11 | a missing field reads as the empty text |
| `ContactForm.Strip` | app.py:9-11 | the field is the stripped text with only white space before and after it; the stripped text is empty exactly when the field is blank, and otherwise starts and ends with a non-space |
| `ContactForm.StripIsIdempotent` | app.py:9-11 | stripping twice is stripping once |
| `ContactForm.Home` | app.py:6-21 | a POST with a blank field gives the error flash, with all fields non-blank the success flash, both with a redirect home; other requests render `index.html` with no flash |
| `ContactForm.MissingFieldIsRejected` | app.py:9-15 | a POST missing any of the three fields takes the error path |
| `ContactForm.EmailFormatIsNotChecked` | app.py:13-19 | any two non-blank e-mail texts get the same answer: only emptiness is checked |

## Left out

- Smooth anchor scrolling (static/script.js:2-9) and the thumbnail list's `scrollBy` buttons (static/script.js:124-129): these are page scrolling only, with no state of the script behind them.
- CSS transition strings, the `translateX(...)` text and the `scrollTo` behaviour: the model keeps the numeric offset and the animate flag only.
- `matchMedia`, `offsetWidth`, `getComputedStyle` and `scrollLeft` are inputs (`Metrics`); `scrollLeft` is taken as whole pixels, though browsers may report fractions.
- A zero card width (mobile layout, no card width and a zero gap): the script would divide by zero and compute with Infinity or NaN. The carousel members require `Measurable`, which excludes it; every non-zero width, negative ones included, is modelled.
- Scroll events that the script's own smooth `scrollTo` triggers on mobile arrive later and re-sync the index; the model handles one event at a time with the metrics the caller gives, and does not model that timing.
- `ServicesCarousel.Carousel.constructor`: the buttons' initial `disabled` flags come from the markup, so they are parameters; without cards the script never changes them.
- The gallery closure returns early when the featured image or the thumbnail track is missing (static/script.js:101), and the lightbox functions would throw when its elements are missing; the model assumes they are present.
- `Gallery.Gallery.ChangeFeatured`: requires at least one thumbnail, because with none the script evaluates `thumbs[NaN].src` and throws.
- `thumbs.indexOf(t)` (static/script.js:120) is modelled by the thumbnail's position: the thumbnails are distinct elements.
- Reading `featured.src` back gives the browser's resolved URL; the model keeps the text that was assigned.
- Flask itself (templates, the flash store, `redirect`, `url_for`, the secret key, `app.run`; app.py:1-4, 23-24): the handler's answer is the `Response` value. A HEAD request reaches `home()` (Werkzeug adds HEAD to every rule that allows GET) and takes the render path, as `Home` does; Flask answers OPTIONS itself and returns 405 for any other method, which `Home` does not model.
- A form field sent several times: `request.form.get` returns the first value; the model's form is a map with one value per key.
