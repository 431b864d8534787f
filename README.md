# Whimsy cyberspace: the sequential logic of main.js

The site's `main.js` is mostly DOM glue, but it holds five small pieces of
sequential logic, and this project models and proves them:

- **`clamp` and `seededNoise`.** The generator is mulberry32. Its counter is
  an exact integer that grows by `0x6d2b79f5` before each draw. The mixing
  step works on 32-bit patterns (`bv32`): `Math.imul` keeps the low 32 bits
  of the product and `>>>` is a logical shift. Each draw is the 32-bit result
  divided by 2^32. The closure is the class `Mulberry.SeededNoise`, whose one
  field is the counter.
- **The scatter layout of `buildField`.** Each entry is seeded from its
  index and the floored container size. It gets a centre bias from its
  weight, two base draws pulled towards the centre, and two jitter draws,
  and is then clamped to the padding. `Layout.BuildField` is the `forEach`
  loop. It uses a fresh generator per entry and takes its four draws in the
  source's order.
- **The Broadway zoom controller.** `ZoomModel` is a pure state machine:
  one function per handler, plus `Displayed` for what `setVars` writes.
  `ZoomController.BroadwayZoom` is the closure as an object, and its methods
  update the fields in place. Each method is tied to its handler function
  and keeps the written transform equal to the displayed one.
- **Enter-cycle navigation.** `Navigation` models `cycleIndex` and the
  overlay's open flag: `openRoom`, `closeRoom`, the keydown handler, and the
  touch hint. `NavigationController.Navigator` holds them as fields.
- **The hush toggle.** `Hush` models the body's `data-hush` attribute and
  the button's text.

Layout and zoom arithmetic are over `real`. Only the generator's arithmetic
is modelled bit-exactly. Inputs stand in for the browser:

- the frame rectangle (`getBoundingClientRect`) is an input;
- the container size is an input;
- `window.innerWidth` is an input;
- `isTouchDevice()` (`touch`) is an input.

Design notes:

- **First draw.** The closure starts its counter at `seed + 0x6d2b79f5` and
  adds the increment again before mixing. So draw `k` (from 0) mixes
  `seed + (k + 2) * 0x6d2b79f5`, one step later than the textbook
  mulberry32. `Mulberry.CounterAt` says so.
- **Two definitions of `clamp`.** The file defines `clamp` twice: once at
  module level and once inside `wireBroadwayZoom`. The bodies are the same,
  and `Clamping.Clamp` models both.
- **The buttons.** `buildField` creates one object button per catalog
  entry, in order. So the buttons that Enter and the hint walk through
  carry the catalog's keys in catalog order, and both branches of those
  handlers compute the same step.

## Model

| member | source | states |
|---|---|---|
| Clamping.Clamp | main.js:343-345 | Never below `min`. For `min <= max` the result lies in `[min, max]`, is `n` when `n` is in range, and is the nearer bound otherwise. For `max < min` it is `min`. The in-controller copy at main.js:61-63 is the same. |
| Mulberry.Draw | main.js:336-339 | A draw from an already advanced counter lies in [0, 1). |
| Mulberry.NthDraw | main.js:333-340 | Draw `k` of a generator seeded with `seed` lies in [0, 1) and depends on `seed` and `k` alone. |
| Mulberry.MixKnownValue | main.js:337-339 | The 32-bit mixing step maps the counter 3663146563, the first one of seed 14937, to 1713955878. |
| Mulberry.FirstDrawOfSeed14937 | main.js:333-339 | The first call of a generator made from seed 14937 returns 1713955878 / 2^32. |
| Mulberry.DrawPeriodic | main.js:336-338 | A draw sees only the counter's residue modulo 2^32. Counters that differ by a multiple of 2^32 draw the same value. |
| Mulberry.SeededNoise.constructor | main.js:334 | A new generator's counter is `seed + 0x6d2b79f5`. |
| Mulberry.SeededNoise.Next | main.js:335-339 | Each call adds `0x6d2b79f5` to the counter and returns the draw of the new counter. |
| Mulberry.NextOfBoth | main.js:333-340 | Two distinct generators with equal counters return equal values and keep equal counters. Since equal seeds give equal counters, by induction they produce the same sequence. |
| Objects.CatalogKeysDistinct | main.js:181-331 | The catalog has four pairwise different keys. Broadway is entry 1, with weight 92. |
| Layout.CenterBias | main.js:358 | The bias lies in [0.15, 0.92]. It is 0.15 for weights up to 15, 0.92 for weights from 92, and `weight / 100` in between. |
| Layout.Axis | main.js:390-398 | For a draw in [0, 1), the pre-jitter coordinate lies within `(1 - bias) / 2` times the absolute padded span `size - 2 * pad` of `size / 2`. |
| Layout.Jitter | main.js:400-401 | For a draw in [0, 1), the jitter lies within half its span of 0: ±90 horizontally, ±70 vertically. |
| Layout.Scatter | main.js:390-404 | Any four draws give `left >= 20` and `top >= 20`. `left <= w - 240` once `w >= 260`, and `top <= h - 130` once `h >= 150`. |
| Layout.Place | main.js:388-404 | The position of entry `i` is a function of the index, the weight and the container size, and it satisfies the padding bounds. |
| Layout.Seed | main.js:388 | In a container of non-negative size, the seed of entry `i` is at least `(i + 1) * 1337`. |
| Layout.SeedsDiffer | main.js:388 | In one container, different entries get different seeds. |
| Layout.FirstDrawOfEntryZero | main.js:388-391 | Entry 0 of a 1000 by 600 container is seeded with 14937, and its first draw (`xRaw`) is 1713955878 / 2^32. |
| Layout.SeedDependsOnFlooredSize | main.js:388 | Only the floored container size enters the seed. Sizes that floor alike seed every entry alike. |
| Layout.HeavyScatterNearCentre | main.js:390-404 | With bias 0.92 in a 1000 by 600 container, any draws put an entry within 38.4 + 90 px of the centre horizontally and 22.4 + 70 px vertically. |
| Layout.HeavyItemNearCentre | main.js:388-404 | The weight-92 entry (Broadway) in a 1000 by 600 container lands within those bounds for every index. |
| Layout.FourDraws | main.js:388-401 | A fresh generator's four calls yield draws 0 to 3 of its seed, in order. |
| Layout.PlaceEntry | main.js:387-404 | The per-entry positioning that runs the generator is exactly `Place`. |
| Layout.BuildField | main.js:347-405 | One result per catalog entry. In stacked mode (viewport at most 720 wide) no entry gets a position. Otherwise entry `i` gets `Place(i, ...)`. |
| ZoomModel.Displayed | main.js:65-71 | The `is-zoomed` class matches the zoom flag. Unzoomed shows exactly the identity transform (scale 1, no translation). Zoomed shows scale 1.65 and the stored translation. |
| ZoomModel.MaxX | main.js:73-76 | The horizontal bound is how far half the scaled width reaches past half the frame width. It is never negative for a rectangle, and positive for a frame of positive width. |
| ZoomModel.MaxY | main.js:73-77 | The same for the height. |
| ZoomModel.Target | main.js:84-88 | For a pointer fraction in [0, 1], the pan target lies in `[-max, max]`. It is 0 at the middle, `max` at the near edge and `-max` at the far edge. |
| ZoomModel.Fraction | main.js:84-85 | A pointer inside the frame gives a fraction in [0, 1]. The frame's middle gives 0.5. |
| ZoomModel.PanTargetX | main.js:84-87 | Inside the frame the horizontal target lies within `±(scale-1)·width/2`. At the frame's middle it is 0. |
| ZoomModel.PanTargetY | main.js:85-88 | Inside the frame the vertical target lies within `±(scale-1)·height/2`. At the middle it is 0. |
| ZoomModel.EaseToward | main.js:90-94 | The eased, clamped step always lands in the bounds. When both the start and the target are in bounds, the clamp does not engage and the step lands between them. |
| ZoomModel.Pan | main.js:80-97 | It is a no-op unless zoomed and not dragging. Otherwise only the translation changes and ends in bounds. Inside the frame, from in-bounds values, it is exactly 18% of the way to the target. |
| ZoomModel.ZoomOn | main.js:99-102 | Zoomed, and nothing else changes. |
| ZoomModel.ZoomOff | main.js:104-110 | Not zoomed, not dragging, translation (0, 0). The drag start fields are kept. |
| ZoomModel.OnMouseEnter | main.js:113-115 | Zooms in except on a touch device, where nothing changes. |
| ZoomModel.OnMouseLeave | main.js:116-118 | Zooms out except on a touch device, where nothing changes. |
| ZoomModel.OnMouseMove | main.js:121-123 | Pans except on a touch device, where nothing changes. |
| ZoomModel.OnClick | main.js:126-133 | On a touch device a tap flips the zoom flag and keeps the dragging flag. A tap that turns zoom off resets the translation to (0, 0). On other devices nothing changes. |
| ZoomModel.OnPointerDown | main.js:137-146 | No-op unless zoomed. Otherwise dragging starts, recording the pointer position and the current translation. |
| ZoomModel.DragTo | main.js:152-160 | The translation becomes the start translation plus the pointer delta, clamped to the bounds, and lies in them. With zero delta and an in-range start it equals the start translation. |
| ZoomModel.OnPointerMove | main.js:148-165 | No-op unless zoomed. When zoomed it drags while dragging and pans otherwise. |
| ZoomModel.OnPointerUp | main.js:167-171 | No-op unless zoomed. Otherwise only the dragging flag clears. |
| ZoomModel.Step | main.js:113-176 | The wiring of the seven listeners. On a touch device the mouse listeners change nothing, and elsewhere the click listener changes nothing. Only `mouseenter`, `mouseleave` and `click` change the zoom flag. `pointerdown` and `pointerup` never move the image. While not zoomed, the pointer listeners change nothing. |
| ZoomModel.SettledMoves | main.js:73-78 | The bounds read only the frame's width and height. A frame that moves on the page without changing size keeps a settled state settled. |
| ZoomModel.StepSettled | main.js:113-176 | Every handler keeps the translation within the frame's bounds, and keeps it zero while not zoomed. |
| ZoomModel.RunSettled | main.js:73-176 | Any sequence of events keeps both properties while the frame keeps one positive size. Each handler reads the frame's position and the device kind afresh. |
| ZoomModel.DisplayedWithinBounds | main.js:65-176 | From the wired state, the displayed translation always stays within `(scale-1)·dimension/2` in a frame of one size, wherever it sits and whichever device kind each handler sees. An unzoomed frame shows the identity and stores no translation. |
| ZoomController.BroadwayZoom.constructor | main.js:49-59 | All variables start at zero or false, and the closing `setVars()` (main.js:178) writes the matching transform. |
| ZoomController.BroadwayZoom.SetVars | main.js:65-71 | Writes the displayed transform of the current state, which is unchanged. |
| ZoomController.BroadwayZoom.ZoomOn | main.js:99-102 | The new state is `ZoomModel.ZoomOn` of the old. |
| ZoomController.BroadwayZoom.ZoomOff | main.js:104-110 | The new state is `ZoomModel.ZoomOff` of the old. |
| ZoomController.BroadwayZoom.PanTowardPointer | main.js:80-97 | The in-place update equals `ZoomModel.Pan`, and the written transform stays in step. |
| ZoomController.BroadwayZoom.OnMouseEnter | main.js:113-115 | Equals `ZoomModel.OnMouseEnter`. |
| ZoomController.BroadwayZoom.OnMouseLeave | main.js:116-118 | Equals `ZoomModel.OnMouseLeave`. |
| ZoomController.BroadwayZoom.OnMouseMove | main.js:121-123 | Equals `ZoomModel.OnMouseMove`. |
| ZoomController.BroadwayZoom.OnClick | main.js:126-133 | Equals `ZoomModel.OnClick`. |
| ZoomController.BroadwayZoom.OnPointerDown | main.js:137-146 | Equals `ZoomModel.OnPointerDown`. |
| ZoomController.BroadwayZoom.OnPointerMove | main.js:148-165 | Equals `ZoomModel.OnPointerMove`. |
| ZoomController.BroadwayZoom.OnPointerUp | main.js:167-176 | Equals `ZoomModel.OnPointerUp`. It is bound to `pointerup` and `pointercancel`. |
| Navigation.IndexOf | main.js:446 | `findIndex` gives -1 exactly when no entry has the key. Otherwise it gives the first position holding it. |
| Navigation.IndexOfDistinct | main.js:446 | With pairwise different keys, the key at position `i` is found at `i`. |
| Navigation.OpenRoom | main.js:427-450 | An unknown key changes nothing. A known key opens the overlay and sets `cycleIndex` to that key's first position. |
| Navigation.CloseRoom | main.js:452-456 | The overlay closes and `cycleIndex` is kept. |
| Navigation.JsRem | main.js:472 | JavaScript's `%`: for a non-negative dividend it equals the mathematical remainder in `[0, n)`. For a negative dividend it lies in `(-n, 0]`: it is 0 exactly when `n` divides the dividend, and otherwise the mathematical remainder minus `n` (so `-7 % 3` is -1). |
| Navigation.Advance | main.js:470-486 | An empty catalog changes nothing. From a valid state the overlay opens on the first position holding the key of entry `(cycleIndex + 1) mod n`. |
| Navigation.AdvanceDistinct | main.js:470-475 | With distinct keys, the new state from a valid one is `((cycleIndex + 1) mod n, open)`. |
| Navigation.Keydown | main.js:463-487 | Escape always ends at `(-1, closed)`. Enter advances. Other keys change nothing. |
| Navigation.HandlersKeepValid | main.js:427-522 | Every handler keeps `-1 <= cycleIndex < n`, and keeps `cycleIndex >= 0` while the overlay is open. |
| Navigation.NextPress | main.js:470-475 | A press from open entry `j` opens entry `(j + 1) mod n`. |
| Navigation.EnterCycle | main.js:463-486 | With distinct keys, press `k` from the page's start opens entry `(k - 1) mod n`: entries 0, 1, 2, … in turn, wrapping around. |
| Navigation.CatalogCycle | main.js:181-331 | On the site's catalog, Enter presses visit its four entries in order, wrapping around. |
| NavigationController.Navigator.constructor | main.js:13 | The page starts with `cycleIndex = -1` and the overlay closed. |
| NavigationController.Navigator.OpenRoom | main.js:427-450 | Equals `Navigation.OpenRoom`. |
| NavigationController.Navigator.CloseRoom | main.js:452-461 | Equals `Navigation.CloseRoom`. |
| NavigationController.Navigator.Advance | main.js:470-486 | Equals `Navigation.Advance`. |
| NavigationController.Navigator.OnKeydown | main.js:463-487 | Equals `Navigation.Keydown`. |
| NavigationController.Navigator.OnHintTap | main.js:507-522 | Equals `Navigation.Advance`, the same step as Enter. |
| Hush.Toggle | main.js:489-493 | Hushed-ness flips, and the attribute is written as "true" or "false". The button reads "speak" exactly when the page is now hushed, and "hush" otherwise. |
| Hush.ToggleTwice | main.js:489-493 | Two clicks restore hushed-ness and its button text. "true" or "false" comes back literally; an absent or other value comes back as "false". |

## Left out

- DOM construction and styling are not modelled: element creation, `innerHTML`, text content, focus, `aria-*`, and `body.style.overflow`. The overlay's display is the `open` flag, and `setVars` is `ZoomModel.Displayed`.
- The `--w` custom property `clamp(weight, 18, 96)` (main.js:366) is styling. The `clamp` it uses is modelled.
- The hover-glow `--mx`/`--my` percentages (main.js:410-416) are display code.
- Browser queries are parameters: `getBoundingClientRect`, `window.innerWidth` and `isTouchDevice()`.
- The touch hint handler is installed only on touch devices. That condition is outside the model.
- Deferred and timed work is not modelled: the `queueMicrotask` wiring (main.js:435-440), the resize debounce (main.js:495-499), and the mailto interception.
- Pointer capture (`setPointerCapture`, `releasePointerCapture` and its swallowed error) is not modelled. These are browser calls.
- Floating point is replaced by reals. A zero-size frame makes the page divide by zero; it produces NaN there. `ZoomModel.Pan` and its callers therefore require a positive frame size on the branch that divides. The counter's loss of precision beyond 2^53 is also not modelled.
- Each opening of the Broadway entry wires a fresh controller. The model follows one controller.
- ZoomModel.RunSettled: holds while the frame keeps one size; its position and the device kind may change between events. A frame resized between events only gets the per-update bounds of `Pan` and `DragTo`, because a translation within the old bounds can lie outside the new ones until the next pan or drag.
- Navigation.Advance: with the overlay open and an empty catalog, the page computes NaN and throws. The model leaves the state unchanged. No valid state reaches this, because an open overlay needs an entry.
- Navigation.Advance: an index below -1 would make the page throw after reassigning `cycleIndex`. The model keeps the reassignment and stops. `Valid` states never reach this.
- An Enter that leaves a focused object button also reaches that button's own handler (main.js:419-421). The combined effect of the bubbled event is not modelled; each handler is modelled on its own. The buttons' click handler (main.js:418) is `Navigator.OpenRoom`.
- The catalog's titles, meta lines and bodies are content, and only `key` and `weight` are kept.
