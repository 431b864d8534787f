/**
 * The scatter layout of `buildField` in main.js: each catalog entry gets its
 * own generator, seeded from its index and the floored container size, and
 * is placed from four draws around the container centre, pulled towards it
 * in proportion to its weight, then jittered and clamped to the padding.
 */
module Layout {
  import opened Clamping
  import opened Mulberry
  import opened Wrappers
  import opened Objects
  import opened RealArith

  const PadX: real := 20.0
  const PadY: real := 20.0
  /** The element footprint assumed by the final clamp. */
  const FootprintW: real := 220.0
  const FootprintH: real := 110.0
  /** Full width of the jitter ranges (so +-90 and +-70 pixels). */
  const JitterSpanX: real := 180.0
  const JitterSpanY: real := 140.0
  /** A viewport at most this wide is "stacked": no position is computed. */
  const StackedWidth: real := 720.0

  datatype Pos = Pos(left: real, top: real)

  function Abs(x: real): real { if x < 0.0 then -x else x }

  /** `centerBias(weight)`: the weight as a fraction, kept within [0.15, 0.92]. */
  function CenterBias(weight: real): (b: real)
    ensures 0.15 <= b <= 0.92
    ensures weight <= 15.0 ==> b == 0.15
    ensures 92.0 <= weight ==> b == 0.92
    ensures 15.0 <= weight <= 92.0 ==> b == weight / 100.0
  {
    Clamp(weight / 100.0, 0.15, 0.92)
  }

  /** The seed of entry `i` in a `w` by `h` container. */
  function Seed(i: nat, w: real, h: real): (r: int)
    ensures w >= 0.0 && h >= 0.0 ==> r >= (i + 1) * 1337
  {
    (i + 1) * 1337 + w.Floor * 7 + h.Floor * 11
  }

  /** Within one container, each entry gets a seed of its own. */
  lemma SeedsDiffer(i: nat, j: nat, w: real, h: real)
    requires i != j
    ensures Seed(i, w, h) != Seed(j, w, h)
  {
  }

  /** The first entry of a 1000 by 600 container: its seed, and the first
      value its generator returns. */
  lemma FirstDrawOfEntryZero()
    ensures Seed(0, 1000.0, 600.0) == 14937
    ensures NthDraw(14937, 0) == 1713955878.0 / 4294967296.0
  {
    FirstDrawOfSeed14937();
  }

  /** |a * b * c| <= d * b * |c| when |a| <= d and b >= 0. */
  lemma ProductBound(a: real, b: real, c: real, d: real)
    requires Abs(a) <= d && b >= 0.0
    ensures Abs(a * b * c) <= d * b * Abs(c)
  {
    MulLe(Abs(a), d, b);
    assert Abs(a * b) == Abs(a) * b;
    MulLe(Abs(a * b), d * b, Abs(c));
    assert Abs(a * b * c) == Abs(a * b) * Abs(c);
  }

  /** The pre-jitter coordinate on one axis: a draw pulled towards the
      middle of the padded span by the factor `1 - bias`. It never lies
      further from the centre `size / 2` than `(1 - bias) / 2` of the span. */
  function Axis(raw: real, bias: real, size: real, pad: real): (c: real)
    ensures 0.0 <= raw < 1.0 && bias <= 1.0 ==>
      Abs(c - size / 2.0) <= (1.0 - bias) / 2.0 * Abs(size - 2.0 * pad)
  {
    var pull := (raw - 0.5) * (1.0 - bias);
    var c := (0.5 + pull) * (size - pad * 2.0) + pad;
    AxisDistance(raw, bias, size, pad, c);
    c
  }

  lemma AxisDistance(raw: real, bias: real, size: real, pad: real, c: real)
    requires c == (0.5 + (raw - 0.5) * (1.0 - bias)) * (size - pad * 2.0) + pad
    ensures 0.0 <= raw < 1.0 && bias <= 1.0 ==>
      Abs(c - size / 2.0) <= (1.0 - bias) / 2.0 * Abs(size - 2.0 * pad)
  {
    if 0.0 <= raw < 1.0 && bias <= 1.0 {
      var a, b, e := raw - 0.5, 1.0 - bias, size - 2.0 * pad;
      assert c - size / 2.0 == a * b * e;
      ProductBound(a, b, e, 0.5);
      assert Abs(a * b * e) <= 0.5 * b * Abs(e);
    }
  }

  /** A jitter offset: a draw spread over `span`, centred on 0. */
  function Jitter(raw: real, span: real): (j: real)
    requires span >= 0.0
    ensures 0.0 <= raw < 1.0 ==> -span / 2.0 <= j <= span / 2.0
  {
    JitterBound(raw, span);
    (raw - 0.5) * span
  }

  lemma JitterBound(raw: real, span: real)
    requires span >= 0.0
    ensures 0.0 <= raw < 1.0 ==> -span / 2.0 <= (raw - 0.5) * span <= span / 2.0
  {
    if 0.0 <= raw < 1.0 {
      MulLe(-0.5, raw - 0.5, span);
      MulLe(raw - 0.5, 0.5, span);
    }
  }

  /** The clamp bounds of the final position: never below the padding and,
      once the container holds the padding and the footprint, never beyond it. */
  predicate WithinPadding(p: Pos, w: real, h: real) {
    && PadX <= p.left
    && PadY <= p.top
    && (w >= 2.0 * PadX + FootprintW ==> p.left <= w - PadX - FootprintW)
    && (h >= 2.0 * PadY + FootprintH ==> p.top <= h - PadY - FootprintH)
  }

  /** The position computed from a bias and four draws, in draw order
      (x, y, x jitter, y jitter). */
  function Scatter(bias: real, xRaw: real, yRaw: real, jxRaw: real, jyRaw: real, w: real, h: real): (p: Pos)
    ensures WithinPadding(p, w, h)
  {
    var x := Axis(xRaw, bias, w, PadX);
    var y := Axis(yRaw, bias, h, PadY);
    Pos(Clamp(x + Jitter(jxRaw, JitterSpanX), PadX, w - PadX - FootprintW),
        Clamp(y + Jitter(jyRaw, JitterSpanY), PadY, h - PadY - FootprintH))
  }

  /** The position of entry `i` with weight `weight` in a `w` by `h`
      container: a function of these alone, so the same index and container
      size always give the same scatter. */
  function Place(i: nat, weight: real, w: real, h: real): (p: Pos)
    ensures WithinPadding(p, w, h)
  {
    var s := Seed(i, w, h);
    Scatter(CenterBias(weight), NthDraw(s, 0), NthDraw(s, 1), NthDraw(s, 2), NthDraw(s, 3), w, h)
  }

  /** Two containers whose sizes floor to the same integers seed every
      entry alike, so they draw the same four values for it. */
  lemma SeedDependsOnFlooredSize(i: nat, w1: real, h1: real, w2: real, h2: real)
    requires w1.Floor == w2.Floor && h1.Floor == h2.Floor
    ensures Seed(i, w1, h1) == Seed(i, w2, h2)
  {
  }

  /** With bias 0.92 in a 1000 by 600 container, any four draws place an
      entry within 38.4 + 90 pixels of the centre horizontally and
      22.4 + 70 vertically, and the final clamp does not engage. */
  lemma HeavyScatterNearCentre(xRaw: real, yRaw: real, jxRaw: real, jyRaw: real)
    requires 0.0 <= xRaw < 1.0 && 0.0 <= yRaw < 1.0 && 0.0 <= jxRaw < 1.0 && 0.0 <= jyRaw < 1.0
    ensures 500.0 - 128.4 <= Scatter(0.92, xRaw, yRaw, jxRaw, jyRaw, 1000.0, 600.0).left <= 500.0 + 128.4
    ensures 300.0 - 92.4 <= Scatter(0.92, xRaw, yRaw, jxRaw, jyRaw, 1000.0, 600.0).top <= 300.0 + 92.4
  {
    var x := Axis(xRaw, 0.92, 1000.0, PadX);
    var y := Axis(yRaw, 0.92, 600.0, PadY);
    assert Abs(x - 500.0) <= 38.4;
    assert Abs(y - 300.0) <= 22.4;
    var jx := Jitter(jxRaw, JitterSpanX);
    var jy := Jitter(jyRaw, JitterSpanY);
    assert -90.0 <= jx <= 90.0 && -70.0 <= jy <= 70.0;
    assert Scatter(0.92, xRaw, yRaw, jxRaw, jyRaw, 1000.0, 600.0)
        == Pos(Clamp(x + jx, PadX, 760.0), Clamp(y + jy, PadY, 470.0));
  }

  /** The weight-92 entry (Broadway, index 1 of the catalog) in a 1000 by
      600 container lies near the centre whatever its index and draws. */
  lemma HeavyItemNearCentre(i: nat)
    ensures 500.0 - 128.4 <= Place(i, 92.0, 1000.0, 600.0).left <= 500.0 + 128.4
    ensures 300.0 - 92.4 <= Place(i, 92.0, 1000.0, 600.0).top <= 300.0 + 92.4
  {
    var s := Seed(i, 1000.0, 600.0);
    assert CenterBias(92.0) == 0.92;
    HeavyScatterNearCentre(NthDraw(s, 0), NthDraw(s, 1), NthDraw(s, 2), NthDraw(s, 3));
  }

  /** The four calls of a fresh generator made by `buildField` for one
      entry, in order: base x, base y, x jitter, y jitter. */
  method FourDraws(seed: int) returns (xRaw: real, yRaw: real, jxRaw: real, jyRaw: real)
    ensures xRaw == NthDraw(seed, 0) && yRaw == NthDraw(seed, 1)
    ensures jxRaw == NthDraw(seed, 2) && jyRaw == NthDraw(seed, 3)
  {
    var rng := new SeededNoise(seed);
    xRaw := rng.Next();
    yRaw := rng.Next();
    jxRaw := rng.Next();
    jyRaw := rng.Next();
  }

  /** The positioning of one entry as `buildField` runs it: bias from the
      weight, a generator seeded from index and container size, four calls. */
  method PlaceEntry(i: nat, weight: real, w: real, h: real) returns (p: Pos)
    ensures p == Place(i, weight, w, h)
  {
    var bias := CenterBias(weight);
    var xRaw, yRaw, jxRaw, jyRaw := FourDraws(Seed(i, w, h));
    p := Scatter(bias, xRaw, yRaw, jxRaw, jyRaw, w, h);
  }

  /** The layout loop of `buildField` over the catalog: in stacked mode (a
      viewport at most 720 wide) no entry gets a position; otherwise entry
      `i` gets `Place(i, ...)`, which lies within the padding bounds. */
  method BuildField(catalog: seq<Item>, w: real, h: real, innerWidth: real) returns (placed: seq<Option<Pos>>)
    ensures |placed| == |catalog|
    ensures innerWidth <= StackedWidth ==> forall i :: 0 <= i < |placed| ==> placed[i] == None
    ensures innerWidth > StackedWidth ==>
      forall i :: 0 <= i < |placed| ==> placed[i] == Some(Place(i, catalog[i].weight, w, h))
  {
    var stacked := innerWidth <= StackedWidth;
    placed := [];
    for i := 0 to |catalog|
      invariant |placed| == i
      invariant forall k :: 0 <= k < i ==> placed[k] == if stacked then None else Some(Place(k, catalog[k].weight, w, h))
    {
      var position: Option<Pos> := None;
      if !stacked {
        var p := PlaceEntry(i, catalog[i].weight, w, h);
        position := Some(p);
      }
      placed := placed + [position];
    }
  }
}
