/**
 * The Broadway zoom/pan/drag controller of main.js (`wireBroadwayZoom`) as a
 * pure state machine: the controller's variables as one value, each event
 * handler as a function from the old state to the new one, and `setVars` as
 * the transform the state displays. The frame rectangle (what
 * `getBoundingClientRect` reports when a handler runs) and whether the device
 * is a touch device are inputs of the handlers.
 */
module ZoomModel {
  import opened Clamping
  import opened RealArith

  /** The zoom factor while zoomed. */
  const Scale: real := 1.65
  /** The fraction of the way to the pan target covered by one mouse move. */
  const Ease: real := 0.18

  /** The frame's bounding rectangle. */
  datatype Frame = Frame(left: real, top: real, width: real, height: real)

  /** A bounding rectangle has no negative extent. */
  predicate Sized(f: Frame) {
    f.width >= 0.0 && f.height >= 0.0
  }

  /** The largest translation that keeps the scaled image covering the
      frame: how far half the scaled width reaches past half the frame's
      width, which is never negative. */
  function MaxX(f: Frame): (m: real)
    ensures m == Scale * f.width / 2.0 - f.width / 2.0
    ensures f.width >= 0.0 ==> m >= 0.0
    ensures f.width > 0.0 ==> m > 0.0
  {
    (Scale - 1.0) * f.width / 2.0
  }

  /** The same bound on the vertical axis. */
  function MaxY(f: Frame): (m: real)
    ensures m == Scale * f.height / 2.0 - f.height / 2.0
    ensures f.height >= 0.0 ==> m >= 0.0
    ensures f.height > 0.0 ==> m > 0.0
  {
    (Scale - 1.0) * f.height / 2.0
  }

  datatype ZoomState = ZoomState(
    tx: real, ty: real,
    isZoomed: bool, isDragging: bool,
    dragStartX: real, dragStartY: real,
    dragStartTx: real, dragStartTy: real)

  /** Everything zero and false, as the controller is wired. */
  const Initial := ZoomState(0.0, 0.0, false, false, 0.0, 0.0, 0.0, 0.0)

  /** The translation lies within the bounds of frame `f`. */
  predicate InBounds(s: ZoomState, f: Frame) {
    -MaxX(f) <= s.tx <= MaxX(f) && -MaxY(f) <= s.ty <= MaxY(f)
  }

  /** The pointer lies inside the frame rectangle. */
  predicate Inside(f: Frame, clientX: real, clientY: real) {
    f.left <= clientX <= f.left + f.width && f.top <= clientY <= f.top + f.height
  }

  /** What `setVars` writes: the scale and translation custom properties and
      whether the frame carries the `is-zoomed` class. */
  datatype Transform = Transform(scale: real, tx: real, ty: real, zoomedClass: bool)

  /** The identity transform shown while not zoomed. */
  const Identity := Transform(1.0, 0.0, 0.0, false)

  /** An unzoomed controller shows the identity whatever translation it has
      stored; a zoomed one shows its scale and translation. */
  function Displayed(s: ZoomState): (d: Transform)
    ensures d.zoomedClass == s.isZoomed
    ensures !s.isZoomed <==> d == Identity
    ensures s.isZoomed ==> d.scale == Scale && d.tx == s.tx && d.ty == s.ty
  {
    if s.isZoomed then Transform(Scale, s.tx, s.ty, true) else Identity
  }

  /** The pan target on one axis for a pointer at fraction `p` of the frame:
      the far edge of the bounds when the pointer is at the near edge of the
      frame, nothing at the middle, and within the bounds throughout. */
  function Target(p: real, m: real): (r: real)
    requires m >= 0.0
    ensures 0.0 <= p <= 1.0 ==> -m <= r <= m
    ensures p == 0.5 ==> r == 0.0
    ensures p == 0.0 ==> r == m
    ensures p == 1.0 ==> r == -m
  {
    TargetBound(p, m);
    (0.5 - p) * 2.0 * m
  }

  lemma TargetBound(p: real, m: real)
    requires m >= 0.0
    ensures 0.0 <= p <= 1.0 ==> -m <= (0.5 - p) * 2.0 * m <= m
  {
    if 0.0 <= p <= 1.0 {
      var a, k := 0.5 - p, 2.0 * m;
      MulLe(-0.5, a, k);
      MulLe(a, 0.5, k);
      assert a * 2.0 * m == a * k;
    }
  }

  /** The fraction of the frame's extent at which a coordinate lies. */
  function Fraction(c: real, start: real, size: real): (p: real)
    requires size > 0.0
    ensures start <= c <= start + size ==> 0.0 <= p <= 1.0
    ensures c == start + size / 2.0 ==> p == 0.5
  {
    var d := c - start;
    QuotientFacts(d, size);
    d / size
  }

  lemma QuotientFacts(d: real, size: real)
    requires size > 0.0
    ensures d == size / 2.0 ==> d / size == 0.5
    ensures 0.0 <= d <= size ==> 0.0 <= d / size <= 1.0
  {
  }

  /** One eased step from `t` towards `target`, clamped to [-m, m]. The result
      is always in the bounds; when both ends already are, the clamp does not
      engage and the step lands between `t` and `target`. */
  function EaseToward(t: real, target: real, m: real): (r: real)
    requires m >= 0.0
    ensures -m <= r <= m
    ensures -m <= t <= m && -m <= target <= m ==>
      r == t + (target - t) * Ease
      && (t <= target ==> t <= r <= target)
      && (target <= t ==> target <= r <= t)
  {
    Clamp(t + (target - t) * Ease, -m, m)
  }

  /** `panTowardPointer`: a no-op unless zoomed and not dragging; otherwise
      only the translation moves, one eased step towards the target of the
      pointer, ending within the bounds. */
  function Pan(s: ZoomState, f: Frame, clientX: real, clientY: real): (s': ZoomState)
    requires s.isZoomed && !s.isDragging ==> f.width > 0.0 && f.height > 0.0
    ensures !s.isZoomed || s.isDragging ==> s' == s
    ensures s'.(tx := s.tx, ty := s.ty) == s
    ensures s.isZoomed && !s.isDragging ==> InBounds(s', f)
    ensures s.isZoomed && !s.isDragging && Inside(f, clientX, clientY) && InBounds(s, f) ==>
      s'.tx == s.tx + (PanTargetX(f, clientX) - s.tx) * Ease
      && s'.ty == s.ty + (PanTargetY(f, clientY) - s.ty) * Ease
  {
    if !s.isZoomed || s.isDragging then s
    else s.(tx := EaseToward(s.tx, PanTargetX(f, clientX), MaxX(f)),
            ty := EaseToward(s.ty, PanTargetY(f, clientY), MaxY(f)))
  }

  /** The horizontal pan target: within the bounds for a pointer inside the
      frame, zero at the frame's middle. */
  function PanTargetX(f: Frame, clientX: real): (r: real)
    requires f.width > 0.0
    ensures f.left <= clientX <= f.left + f.width ==> -MaxX(f) <= r <= MaxX(f)
    ensures clientX == f.left + f.width / 2.0 ==> r == 0.0
  {
    Target(Fraction(clientX, f.left, f.width), MaxX(f))
  }

  /** The vertical pan target, likewise. */
  function PanTargetY(f: Frame, clientY: real): (r: real)
    requires f.height > 0.0
    ensures f.top <= clientY <= f.top + f.height ==> -MaxY(f) <= r <= MaxY(f)
    ensures clientY == f.top + f.height / 2.0 ==> r == 0.0
  {
    Target(Fraction(clientY, f.top, f.height), MaxY(f))
  }

  /** `zoomOn`: only the zoom flag changes. */
  function ZoomOn(s: ZoomState): (s': ZoomState)
    ensures s'.isZoomed
    ensures s'.(isZoomed := s.isZoomed) == s
  {
    s.(isZoomed := true)
  }

  /** `zoomOff`: not zoomed, not dragging, no translation; the drag start
      fields are kept. */
  function ZoomOff(s: ZoomState): (s': ZoomState)
    ensures !s'.isZoomed && !s'.isDragging && s'.tx == 0.0 && s'.ty == 0.0
    ensures s'.(isZoomed := s.isZoomed, isDragging := s.isDragging, tx := s.tx, ty := s.ty) == s
  {
    s.(isZoomed := false, isDragging := false, tx := 0.0, ty := 0.0)
  }

  /** The `mouseenter` handler: zooms in, except on a touch device. */
  function OnMouseEnter(s: ZoomState, touch: bool): (s': ZoomState)
    ensures touch ==> s' == s
    ensures !touch ==> s' == ZoomOn(s)
  {
    if touch then s else ZoomOn(s)
  }

  /** The `mouseleave` handler: zooms out, except on a touch device. */
  function OnMouseLeave(s: ZoomState, touch: bool): (s': ZoomState)
    ensures touch ==> s' == s
    ensures !touch ==> s' == ZoomOff(s)
  {
    if touch then s else ZoomOff(s)
  }

  /** The `mousemove` handler: pans, except on a touch device. */
  function OnMouseMove(s: ZoomState, f: Frame, clientX: real, clientY: real, touch: bool): (s': ZoomState)
    requires !touch && s.isZoomed && !s.isDragging ==> f.width > 0.0 && f.height > 0.0
    ensures touch ==> s' == s
    ensures !touch ==> s' == Pan(s, f, clientX, clientY)
  {
    if touch then s else Pan(s, f, clientX, clientY)
  }

  /** The `click` handler: on a touch device a tap flips the zoom flag, and
      a tap that turns zoom off also drops the translation (it leaves the
      dragging flag as it was). Elsewhere it does nothing. */
  function OnClick(s: ZoomState, touch: bool): (s': ZoomState)
    ensures !touch ==> s' == s
    ensures touch ==> s'.isZoomed == !s.isZoomed && s'.isDragging == s.isDragging
    ensures touch && s.isZoomed ==> s' == s.(isZoomed := false, tx := 0.0, ty := 0.0)
    ensures touch && !s.isZoomed ==> s' == s.(isZoomed := true)
  {
    if !touch then s
    else
      var zoomed := !s.isZoomed;
      if !zoomed then s.(isZoomed := zoomed, tx := 0.0, ty := 0.0)
      else s.(isZoomed := zoomed)
  }

  /** `onPointerDown`: when zoomed, starts a drag, recording where the pointer
      and the translation were; otherwise nothing. */
  function OnPointerDown(s: ZoomState, clientX: real, clientY: real): (s': ZoomState)
    ensures !s.isZoomed ==> s' == s
    ensures s.isZoomed ==>
      s'.isDragging && s'.isZoomed && s'.tx == s.tx && s'.ty == s.ty
      && s'.dragStartX == clientX && s'.dragStartY == clientY
      && s'.dragStartTx == s.tx && s'.dragStartTy == s.ty
  {
    if !s.isZoomed then s
    else s.(isDragging := true, dragStartX := clientX, dragStartY := clientY,
            dragStartTx := s.tx, dragStartTy := s.ty)
  }

  /** The drag branch of `onPointerMove`: the translation at the start of
      the drag moved by the pointer's displacement since then, clamped to
      the bounds. A pointer back at its start point restores the start
      translation when that lies in the bounds. */
  function DragTo(s: ZoomState, f: Frame, clientX: real, clientY: real): (s': ZoomState)
    ensures s'.(tx := s.tx, ty := s.ty) == s
    ensures s'.tx == Clamp(s.dragStartTx + (clientX - s.dragStartX), -MaxX(f), MaxX(f))
    ensures s'.ty == Clamp(s.dragStartTy + (clientY - s.dragStartY), -MaxY(f), MaxY(f))
    ensures Sized(f) ==> InBounds(s', f)
    ensures (clientX == s.dragStartX && clientY == s.dragStartY
             && -MaxX(f) <= s.dragStartTx <= MaxX(f) && -MaxY(f) <= s.dragStartTy <= MaxY(f)) ==>
      s'.tx == s.dragStartTx && s'.ty == s.dragStartTy
  {
    var dx := clientX - s.dragStartX;
    var dy := clientY - s.dragStartY;
    s.(tx := Clamp(s.dragStartTx + dx, -MaxX(f), MaxX(f)),
       ty := Clamp(s.dragStartTy + dy, -MaxY(f), MaxY(f)))
  }

  /** `onPointerMove`: nothing unless zoomed; a drag while dragging, a pan
      otherwise. */
  function OnPointerMove(s: ZoomState, f: Frame, clientX: real, clientY: real): (s': ZoomState)
    requires s.isZoomed && !s.isDragging ==> f.width > 0.0 && f.height > 0.0
    ensures !s.isZoomed ==> s' == s
    ensures s.isZoomed && s.isDragging ==> s' == DragTo(s, f, clientX, clientY)
    ensures s.isZoomed && !s.isDragging ==> s' == Pan(s, f, clientX, clientY)
  {
    if !s.isZoomed then s
    else if s.isDragging then DragTo(s, f, clientX, clientY)
    else Pan(s, f, clientX, clientY)
  }

  /** `onPointerUp`: when zoomed, ends the drag; otherwise nothing. */
  function OnPointerUp(s: ZoomState): (s': ZoomState)
    ensures !s.isZoomed ==> s' == s
    ensures s.isZoomed ==> s' == s.(isDragging := false)
  {
    if !s.isZoomed then s else s.(isDragging := false)
  }

  /** The events the frame listens to. */
  datatype Event =
    | MouseEnter
    | MouseLeave
    | MouseMove(x: real, y: real)
    | Click
    | PointerDown(x: real, y: real)
    | PointerMove(x: real, y: real)
    | PointerUp

  /** Dispatch of one event in a frame of positive size. */
  function Step(s: ZoomState, f: Frame, touch: bool, e: Event): (s': ZoomState)
    requires f.width > 0.0 && f.height > 0.0
    ensures touch && (e.MouseEnter? || e.MouseLeave? || e.MouseMove?) ==> s' == s
    ensures !touch && e.Click? ==> s' == s
    ensures s'.isZoomed != s.isZoomed ==> e.MouseEnter? || e.MouseLeave? || e.Click?
    ensures e.PointerDown? || e.PointerUp? ==> s'.tx == s.tx && s'.ty == s.ty
    ensures !s.isZoomed && (e.PointerDown? || e.PointerMove? || e.PointerUp?) ==> s' == s
  {
    match e
    case MouseEnter => OnMouseEnter(s, touch)
    case MouseLeave => OnMouseLeave(s, touch)
    case MouseMove(x, y) => OnMouseMove(s, f, x, y, touch)
    case Click => OnClick(s, touch)
    case PointerDown(x, y) => OnPointerDown(s, x, y)
    case PointerMove(x, y) => OnPointerMove(s, f, x, y)
    case PointerUp => OnPointerUp(s)
  }

  /** One event as it reaches the controller: the frame rectangle its
      handler reads, whether the device counts as a touch device at that
      moment, and the event itself. */
  datatype Occurrence = Occurrence(frame: Frame, touch: bool, event: Event)

  /** Every handler in the sequence reads a frame of positive size. */
  predicate PositiveFrames(os: seq<Occurrence>) {
    forall i :: 0 <= i < |os| ==> os[i].frame.width > 0.0 && os[i].frame.height > 0.0
  }

  /** A sequence of events handled in order, each reading its own frame
      rectangle and device kind. */
  function Run(s: ZoomState, os: seq<Occurrence>): ZoomState
    requires PositiveFrames(os)
    decreases |os|
  {
    if |os| == 0 then s
    else Run(Step(s, os[0].frame, os[0].touch, os[0].event), os[1..])
  }

  /** What the controller keeps between events: the translation within the
      bounds, and no stored translation while not zoomed. */
  predicate Settled(s: ZoomState, f: Frame) {
    InBounds(s, f) && (!s.isZoomed ==> s.tx == 0.0 && s.ty == 0.0)
  }

  /** The bounds depend on the frame's size only: a frame that has moved
      on the page without changing size keeps a settled state settled. */
  lemma SettledMoves(s: ZoomState, f: Frame, g: Frame)
    requires f.width == g.width && f.height == g.height
    requires Settled(s, f)
    ensures Settled(s, g)
  {
  }

  /** Every handler keeps `Settled`. */
  lemma StepSettled(s: ZoomState, f: Frame, touch: bool, e: Event)
    requires f.width > 0.0 && f.height > 0.0
    requires Settled(s, f)
    ensures Settled(Step(s, f, touch, e), f)
  {
    match e
    case MouseEnter =>
    case MouseLeave =>
    case MouseMove(x, y) =>
    case Click =>
    case PointerDown(x, y) =>
    case PointerMove(x, y) =>
    case PointerUp =>
  }

  /** Any sequence of events keeps `Settled` while the frame keeps the size
      of `f`, wherever it sits on the page and whichever device kind each
      handler sees. */
  lemma {:induction false} RunSettled(s: ZoomState, f: Frame, os: seq<Occurrence>)
    requires f.width > 0.0 && f.height > 0.0
    requires forall i :: 0 <= i < |os| ==> os[i].frame.width == f.width && os[i].frame.height == f.height
    requires Settled(s, f)
    ensures PositiveFrames(os) && Settled(Run(s, os), f)
    decreases |os|
  {
    if |os| > 0 {
      var o := os[0];
      SettledMoves(s, f, o.frame);
      StepSettled(s, o.frame, o.touch, o.event);
      var s' := Step(s, o.frame, o.touch, o.event);
      SettledMoves(s', o.frame, f);
      RunSettled(s', f, os[1..]);
    }
  }

  /** From the initial state, whatever happens in a frame of one size, the
      displayed translation stays within the bounds and an unzoomed frame
      shows the identity with nothing stored to show later. */
  lemma DisplayedWithinBounds(f: Frame, os: seq<Occurrence>)
    requires f.width > 0.0 && f.height > 0.0
    requires forall i :: 0 <= i < |os| ==> os[i].frame.width == f.width && os[i].frame.height == f.height
    ensures PositiveFrames(os)
    ensures var s := Run(Initial, os);
      var d := Displayed(s);
      -MaxX(f) <= d.tx <= MaxX(f) && -MaxY(f) <= d.ty <= MaxY(f)
      && (!s.isZoomed ==> d == Identity && s.tx == 0.0 && s.ty == 0.0)
  {
    RunSettled(Initial, f, os);
  }
}
