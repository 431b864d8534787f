/**
 * The zoom controller as `wireBroadwayZoom` builds it: the closure's `let`
 * variables are the fields of one object, each handler is a method that
 * updates them in place, and `setVars` copies the displayed transform into
 * `shown` (the image's custom properties and the frame's class). Each
 * method is tied to its handler in ZoomModel, and every method keeps `shown`
 * equal to what the state displays.
 */
module ZoomController {
  import opened Clamping
  import Z = ZoomModel

  class BroadwayZoom {
    var tx: real
    var ty: real
    var isZoomed: bool
    var isDragging: bool
    var dragStartX: real
    var dragStartY: real
    var dragStartTx: real
    var dragStartTy: real
    /** The last transform `setVars` wrote. */
    var shown: Z.Transform

    function State(): Z.ZoomState
      reads this
    {
      Z.ZoomState(tx, ty, isZoomed, isDragging, dragStartX, dragStartY, dragStartTx, dragStartTy)
    }

    /** The page shows what the state displays. */
    predicate Valid()
      reads this
    {
      shown == Z.Displayed(State())
    }

    /** The variables at their initial values, then the closing `setVars()`. */
    constructor ()
      ensures State() == Z.Initial
      ensures Valid()
    {
      tx, ty := 0.0, 0.0;
      isZoomed, isDragging := false, false;
      dragStartX, dragStartY := 0.0, 0.0;
      dragStartTx, dragStartTy := 0.0, 0.0;
      shown := Z.Displayed(Z.Initial);
    }

    /** `setVars`: writes the displayed transform; the state is untouched. */
    method SetVars()
      modifies this
      ensures State() == old(State())
      ensures Valid()
    {
      shown := if isZoomed then Z.Transform(Z.Scale, tx, ty, true) else Z.Identity;
    }

    method ZoomOn()
      modifies this
      ensures State() == Z.ZoomOn(old(State()))
      ensures Valid()
    {
      isZoomed := true;
      SetVars();
    }

    method ZoomOff()
      modifies this
      ensures State() == Z.ZoomOff(old(State()))
      ensures Valid()
    {
      isZoomed := false;
      isDragging := false;
      tx := 0.0;
      ty := 0.0;
      SetVars();
    }

    /** `panTowardPointer`, reading the frame rectangle `f`. */
    method PanTowardPointer(f: Z.Frame, clientX: real, clientY: real)
      requires isZoomed && !isDragging ==> f.width > 0.0 && f.height > 0.0
      requires Valid()
      modifies this
      ensures State() == Z.Pan(old(State()), f, clientX, clientY)
      ensures Valid()
    {
      if !isZoomed || isDragging {
        return;
      }
      var maxX, maxY := Z.MaxX(f), Z.MaxY(f);
      var px := (clientX - f.left) / f.width;
      var py := (clientY - f.top) / f.height;
      var targetX := (0.5 - px) * 2.0 * maxX;
      var targetY := (0.5 - py) * 2.0 * maxY;
      assert targetX == Z.PanTargetX(f, clientX);
      assert targetY == Z.PanTargetY(f, clientY);
      ghost var s := State();
      tx := tx + (targetX - tx) * Z.Ease;
      ty := ty + (targetY - ty) * Z.Ease;
      tx := Clamp(tx, -maxX, maxX);
      ty := Clamp(ty, -maxY, maxY);
      assert tx == Z.EaseToward(s.tx, targetX, maxX);
      assert ty == Z.EaseToward(s.ty, targetY, maxY);
      SetVars();
    }

    method OnMouseEnter(touch: bool)
      requires Valid()
      modifies this
      ensures State() == Z.OnMouseEnter(old(State()), touch)
      ensures Valid()
    {
      if !touch {
        ZoomOn();
      }
    }

    method OnMouseLeave(touch: bool)
      requires Valid()
      modifies this
      ensures State() == Z.OnMouseLeave(old(State()), touch)
      ensures Valid()
    {
      if !touch {
        ZoomOff();
      }
    }

    method OnMouseMove(f: Z.Frame, clientX: real, clientY: real, touch: bool)
      requires !touch && isZoomed && !isDragging ==> f.width > 0.0 && f.height > 0.0
      requires Valid()
      modifies this
      ensures State() == Z.OnMouseMove(old(State()), f, clientX, clientY, touch)
      ensures Valid()
    {
      if !touch {
        PanTowardPointer(f, clientX, clientY);
      }
    }

    /** The tap toggle of a touch device. */
    method OnClick(touch: bool)
      requires Valid()
      modifies this
      ensures State() == Z.OnClick(old(State()), touch)
      ensures Valid()
    {
      if !touch {
        return;
      }
      isZoomed := !isZoomed;
      if !isZoomed {
        tx := 0.0;
        ty := 0.0;
      }
      SetVars();
    }

    /** `onPointerDown`; the pointer capture it requests is not modelled. */
    method OnPointerDown(clientX: real, clientY: real)
      requires Valid()
      modifies this
      ensures State() == Z.OnPointerDown(old(State()), clientX, clientY)
      ensures Valid()
    {
      if !isZoomed {
        return;
      }
      isDragging := true;
      dragStartX := clientX;
      dragStartY := clientY;
      dragStartTx := tx;
      dragStartTy := ty;
    }

    method OnPointerMove(f: Z.Frame, clientX: real, clientY: real)
      requires isZoomed && !isDragging ==> f.width > 0.0 && f.height > 0.0
      requires Valid()
      modifies this
      ensures State() == Z.OnPointerMove(old(State()), f, clientX, clientY)
      ensures Valid()
    {
      if !isZoomed {
        return;
      }
      if isDragging {
        var maxX, maxY := Z.MaxX(f), Z.MaxY(f);
        var dx := clientX - dragStartX;
        var dy := clientY - dragStartY;
        tx := dragStartTx + dx;
        ty := dragStartTy + dy;
        tx := Clamp(tx, -maxX, maxX);
        ty := Clamp(ty, -maxY, maxY);
        SetVars();
      } else {
        PanTowardPointer(f, clientX, clientY);
      }
    }

    /** `onPointerUp`, also bound to `pointercancel`; releasing the capture
        is not modelled. */
    method OnPointerUp()
      requires Valid()
      modifies this
      ensures State() == Z.OnPointerUp(old(State()))
      ensures Valid()
    {
      if !isZoomed {
        return;
      }
      isDragging := false;
    }
  }
}
