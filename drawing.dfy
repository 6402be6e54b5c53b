/**
 * The arithmetic of `drawLRLNode`: the two half-phase interpolants derived from a
 * shape's scale and the translation that places node i on the canvas.  The canvas,
 * paint and the ring path itself are not modelled.
 */
module Drawing {
  import opened Base

  function Min(a: real, b: real): real { if a <= b then a else b }

  function Max(a: real, b: real): real { if a >= b then a else b }

  /** First half-phase interpolant: ramps from 0 to 1 while scale runs over [0, 0.5]. */
  function Sc1(scale: real): (r: real)
    ensures 0.0 <= scale <= 1.0 ==> 0.0 <= r <= 1.0
    ensures scale >= 0.5 ==> r == 1.0
    ensures scale <= 0.5 ==> r == 2.0 * scale
  {
    Min(0.5, scale) * 2.0
  }

  /** Second half-phase interpolant: ramps from 0 to 1 while scale runs over [0.5, 1]. */
  function Sc2(scale: real): (r: real)
    ensures 0.0 <= scale <= 1.0 ==> 0.0 <= r <= 1.0
    ensures scale <= 0.5 ==> r == 0.0
    ensures 0.5 <= scale <= 1.0 ==> r == 2.0 * scale - 1.0
    ensures scale >= 1.0 ==> r == 1.0
  {
    Min(0.5, Max(0.0, scale - 0.5)) * 2.0
  }

  /** Width of one slot of the canvas: w / nodes. */
  function Gap(w: real): real { w / (Nodes as real) }

  datatype Offset = Offset(x: real, y: real)

  /**
   * Where node i's shape is drawn on a w-by-h canvas.  At scale 0 every node sits in the
   * top-left slot; from scale 0.5 on, node i sits in the middle of the i-th slot, half-way down.
   */
  function Translate(i: int, w: real, h: real, scale: real): (o: Offset)
    ensures scale == 0.0 ==> o == Offset(Gap(w) / 2.0, Gap(w) / 2.0)
    ensures scale >= 0.5 ==> o == Offset(Gap(w) / 2.0 + (i as real) * Gap(w), h / 2.0)
  {
    var gap := Gap(w);
    Offset(gap / 2.0 + ((i as real) * gap) * Sc1(scale),
           gap / 2.0 + (h / 2.0 - gap / 2.0) * Sc1(scale))
  }

  /** Scaling a non-negative length by a factor in [0, 1] keeps it between 0 and itself. */
  lemma Shrink(a: real, t: real)
    requires a >= 0.0 && 0.0 <= t <= 1.0
    ensures 0.0 <= a * t <= a
  {
    assert a * t <= a * 1.0;
  }

  /** The two half phases never overlap: the second runs only once the first is complete. */
  lemma HalfPhases(scale: real)
    ensures Sc2(scale) > 0.0 ==> Sc1(scale) == 1.0
    ensures Sc1(scale) < 1.0 ==> Sc2(scale) == 0.0
  {
  }

  /**
   * During a sweep (scale in [0, 1]) node i (i >= 0) moves only between the top-left slot
   * and its own slot: x between gap/2 and gap/2 + i*gap, y between gap/2 and h/2.
   */
  lemma {:induction false} TranslateWithin(i: nat, w: real, h: real, scale: real)
    requires w >= 0.0 && h >= Gap(w) && 0.0 <= scale <= 1.0
    ensures var o := Translate(i, w, h, scale);
            Gap(w) / 2.0 <= o.x <= Gap(w) / 2.0 + (i as real) * Gap(w)
            && Gap(w) / 2.0 <= o.y <= h / 2.0
  {
    var gap, t := Gap(w), Sc1(scale);
    var a, b := (i as real) * gap, h / 2.0 - gap / 2.0;
    Shrink(a, t);
    Shrink(b, t);
    assert Translate(i, w, h, scale) == Offset(gap / 2.0 + a * t, gap / 2.0 + b * t);
  }
}
