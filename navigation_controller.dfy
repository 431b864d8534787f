/**
 * The navigation handlers as the page runs them: `cycleIndex` and the
 * overlay's open flag are fields updated in place, and the catalog's keys
 * are fixed when the page loads. Each method is tied to its function in
 * Navigation and keeps `Valid`.
 */
module NavigationController {
  import N = Navigation

  class Navigator {
    /** The keys of `OBJECTS`, which are also the keys of the object buttons. */
    const keys: seq<string>
    var cycleIndex: int
    var open: bool

    function State(): N.NavState
      reads this
    {
      N.NavState(cycleIndex, open)
    }

    predicate Valid()
      reads this
    {
      N.Valid(State(), |keys|)
    }

    /** The page as loaded: no index, overlay closed. */
    constructor (catalogKeys: seq<string>)
      ensures keys == catalogKeys
      ensures State() == N.Start
      ensures Valid()
    {
      keys := catalogKeys;
      cycleIndex := -1;
      open := false;
    }

    /** `openRoom(key)`; filling and showing the overlay is the `open` flag. */
    method OpenRoom(key: string)
      requires Valid()
      modifies this
      ensures State() == N.OpenRoom(old(State()), keys, key)
      ensures Valid()
    {
      var idx := N.IndexOf(keys, key);
      if idx == -1 {
        return;
      }
      open := true;
      cycleIndex := idx;
    }

    /** `closeRoom`, from the close button or a click on the backdrop. */
    method CloseRoom()
      requires Valid()
      modifies this
      ensures State() == N.CloseRoom(old(State()))
      ensures Valid()
    {
      open := false;
    }

    /** The step of Enter and of the touch hint: both branches of the page's
        handler (overlay open: `OBJECTS`; closed: the object buttons) read
        the same keys, so they compute the same thing. */
    method Advance()
      requires Valid()
      modifies this
      ensures State() == N.Advance(old(State()), keys)
      ensures Valid()
    {
      if |keys| == 0 {
        return;
      }
      var next := N.JsRem(cycleIndex + 1, |keys|);
      cycleIndex := next;
      OpenRoom(keys[cycleIndex]);
    }

    /** The document's `keydown` handler. */
    method OnKeydown(k: N.Key)
      requires Valid()
      modifies this
      ensures State() == N.Keydown(old(State()), keys, k)
      ensures Valid()
    {
      match k
      case Escape =>
        if open {
          CloseRoom();
        }
        cycleIndex := -1;
      case Enter =>
        Advance();
      case OtherKey =>
    }

    /** The touch hint's `click` handler (wired only on touch devices). */
    method OnHintTap()
      requires Valid()
      modifies this
      ensures State() == N.Advance(old(State()), keys)
      ensures Valid()
    {
      Advance();
    }
  }
}
