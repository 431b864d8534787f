/**
 * The page-level navigation state of main.js: the module variable
 * `cycleIndex` (which catalog entry the Enter key and the touch hint
 * reached last, -1 for none) and whether the overlay is open. Each handler
 * is a function of the old state and the catalog's keys, in catalog order.
 */
module Navigation {
  import opened Objects

  datatype NavState = NavState(cycleIndex: int, open: bool)

  /** `cycleIndex = -1` with the overlay closed, as the page loads. */
  const Start := NavState(-1, false)

  /** The keys the keydown handler tells apart. */
  datatype Key = Escape | Enter | OtherKey

  /** What the handlers keep: the index is -1 or names an entry, and an open
      overlay always shows an entry the index names. */
  predicate Valid(s: NavState, n: nat) {
    -1 <= s.cycleIndex < n && (s.open ==> 0 <= s.cycleIndex)
  }

  /** `findIndex` by key: the first position holding `key`, or -1 when no
      entry has it. */
  function IndexOf(keys: seq<string>, key: string): (i: int)
    ensures -1 <= i < |keys|
    ensures i == -1 <==> key !in keys
    ensures 0 <= i ==> keys[i] == key && forall j :: 0 <= j < i ==> keys[j] != key
    decreases |keys|
  {
    if |keys| == 0 then -1
    else if keys[0] == key then 0
    else
      var r := IndexOf(keys[1..], key);
      if r == -1 then -1 else r + 1
  }

  /** With pairwise different keys, the key at position `i` is found at `i`. */
  lemma IndexOfDistinct(keys: seq<string>, i: int)
    requires Distinct(keys) && 0 <= i < |keys|
    ensures IndexOf(keys, keys[i]) == i
  {
  }

  /** `openRoom(key)`: an unknown key changes nothing; a known key opens the
      overlay and points the index at the first entry with that key. */
  function OpenRoom(s: NavState, keys: seq<string>, key: string): (s': NavState)
    ensures key !in keys ==> s' == s
    ensures key in keys ==>
      s'.open && 0 <= s'.cycleIndex < |keys| && keys[s'.cycleIndex] == key
      && forall j :: 0 <= j < s'.cycleIndex ==> keys[j] != key
  {
    var idx := IndexOf(keys, key);
    if idx == -1 then s else NavState(idx, true)
  }

  /** `closeRoom`: the overlay closes and the index is kept. */
  function CloseRoom(s: NavState): (s': NavState)
    ensures !s'.open && s'.cycleIndex == s.cycleIndex
  {
    s.(open := false)
  }

  /** The `%` of JavaScript on integers: the remainder takes the sign of the
      dividend. */
  function JsRem(a: int, n: int): (r: int)
    requires n > 0
    ensures a >= 0 ==> 0 <= r < n && r == a % n
    ensures a < 0 ==> -n < r <= 0 && (r == 0 <==> a % n == 0) && (r == 0 || r + n == a % n)
  {
    if a >= 0 then a % n
    else
      NegativeRem(a, n);
      -((-a) % n)
  }

  /** The truncated remainder of a negative dividend against the Euclidean
      one: both zero, or they differ by exactly `n`. */
  lemma NegativeRem(a: int, n: int)
    requires n > 0 && a < 0
    ensures (-a) % n == 0 <==> a % n == 0
    ensures (-a) % n != 0 ==> n - (-a) % n == a % n
  {
    var q, m := (-a) / n, (-a) % n;
    assert -a == q * n + m;
    if m == 0 {
      ModUnique(a, -q, 0, n);
    } else {
      assert a == (-q - 1) * n + (n - m);
      ModUnique(a, -q - 1, n - m, n);
    }
  }

  /** The step shared by the Enter key and the touch hint: with no entries,
      nothing; otherwise the index moves one on, wrapping around, and the
      entry there is opened. Where that position does not exist (an index
      below -1 before the step) the page's lookup fails once the index is
      already reassigned, and nothing more happens. */
  function Advance(s: NavState, keys: seq<string>): (s': NavState)
    ensures |keys| == 0 ==> s' == s
    ensures Valid(s, |keys|) && |keys| > 0 ==>
      var next := (s.cycleIndex + 1) % |keys|;
      s'.open && s'.cycleIndex == IndexOf(keys, keys[next]) && keys[s'.cycleIndex] == keys[next]
  {
    if |keys| == 0 then s
    else
      var next := JsRem(s.cycleIndex + 1, |keys|);
      if 0 <= next then OpenRoom(NavState(next, s.open), keys, keys[next])
      else NavState(next, s.open)
  }

  /** With pairwise different keys, the step opens exactly the next
      position, wrapping around after the last. */
  lemma AdvanceDistinct(s: NavState, keys: seq<string>)
    requires Valid(s, |keys|) && |keys| > 0 && Distinct(keys)
    ensures Advance(s, keys) == NavState((s.cycleIndex + 1) % |keys|, true)
  {
    IndexOfDistinct(keys, (s.cycleIndex + 1) % |keys|);
  }

  /** The document's `keydown` handler: Escape closes the overlay if it is
      open and always forgets the index; Enter advances; other keys do
      nothing. */
  function Keydown(s: NavState, keys: seq<string>, k: Key): (s': NavState)
    ensures k == Escape ==> s' == Start
    ensures k == Enter ==> s' == Advance(s, keys)
    ensures k == OtherKey ==> s' == s
  {
    match k
    case Escape => (if s.open then CloseRoom(s) else s).(cycleIndex := -1)
    case Enter => Advance(s, keys)
    case OtherKey => s
  }

  /** Every handler keeps `Valid`, whatever key it is given. */
  lemma HandlersKeepValid(s: NavState, keys: seq<string>, key: string, k: Key)
    requires Valid(s, |keys|)
    ensures Valid(OpenRoom(s, keys, key), |keys|)
    ensures Valid(CloseRoom(s), |keys|)
    ensures Valid(Keydown(s, keys, k), |keys|)
    ensures Valid(Advance(s, keys), |keys|)
  {
    if |keys| > 0 {
      var next := (s.cycleIndex + 1) % |keys|;
      assert keys[IndexOf(keys, keys[next])] == keys[next];
    }
  }

  /** The state after `k` presses of Enter (or taps on the hint). */
  function Presses(s: NavState, keys: seq<string>, k: nat): NavState
  {
    if k == 0 then s else Advance(Presses(s, keys, k - 1), keys)
  }

  /** From the page's start, with pairwise different keys, press number `k`
      opens the entry at position `(k - 1) mod n`: entries 0, 1, 2, ... in
      turn, starting over after the last. */
  lemma {:induction false} EnterCycle(keys: seq<string>, k: nat)
    requires |keys| > 0 && Distinct(keys) && k >= 1
    ensures Presses(Start, keys, k) == NavState((k - 1) % |keys|, true)
  {
    var n := |keys|;
    if k == 1 {
      assert Presses(Start, keys, 0) == Start;
    } else {
      EnterCycle(keys, k - 1);
      NextPress(keys, k - 1, (k - 2) % n);
      ModSucc(k - 2, n);
    }
  }

  /** One more press from an open entry `j` opens the next one. */
  lemma NextPress(keys: seq<string>, k: nat, j: int)
    requires Distinct(keys) && 0 <= j < |keys|
    requires Presses(Start, keys, k) == NavState(j, true)
    ensures Presses(Start, keys, k + 1) == NavState((j + 1) % |keys|, true)
  {
    AdvanceDistinct(NavState(j, true), keys);
  }

  /** Stepping a residue and reducing again is stepping the number. */
  lemma ModSucc(a: nat, n: nat)
    requires n > 0
    ensures (a % n + 1) % n == (a + 1) % n
  {
    var q, r := a / n, a % n;
    assert a == q * n + r;
    if r + 1 < n {
      ModUnique(r + 1, 0, r + 1, n);
      ModUnique(a + 1, q, r + 1, n);
    } else {
      ModUnique(r + 1, 1, 0, n);
      ModUnique(a + 1, q + 1, 0, n);
    }
  }

  /** A remainder in [0, n) of a decomposition `q * n + r` is the remainder. */
  lemma ModUnique(x: int, q: int, r: int, n: int)
    requires n > 0 && 0 <= r < n && x == q * n + r
    ensures x % n == r
  {
    var q', r' := x / n, x % n;
    assert x == q' * n + r';
    assert (q - q') * n == r' - r;
    if q > q' {
      MulAtLeast(q - q', n);
    } else if q < q' {
      MulAtLeast(q' - q, n);
    }
  }

  lemma MulAtLeast(d: int, n: int)
    requires d >= 1 && n > 0
    ensures d * n >= n
  {
  }

  /** On the page's own catalog, presses cycle through its four entries. */
  lemma CatalogCycle(k: nat)
    requires k >= 1
    ensures Presses(Start, Keys(Catalog), k) == NavState((k - 1) % 4, true)
  {
    CatalogKeysDistinct();
    EnterCycle(Keys(Catalog), k);
  }
}
