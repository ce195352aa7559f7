/** The scalar helpers the UI code uses, over `real`. Core::MathUtils itself is not part of this
    model; Clamp and Min are given their usual meaning. */
module UIMath {

  /** A 2D vector: sizes, positions. */
  datatype Vector2 = Vector2(x: real, y: real)

  /** A texture sub-rectangle: origin (u, v) and extent (s, t), in normalised texture space. */
  datatype UVs = UVs(u: real, v: real, s: real, t: real)

  /** The value limited to [lo, hi]. */
  function Clamp(v: real, lo: real, hi: real): (r: real)
    requires lo <= hi
    ensures lo <= r <= hi
    ensures lo <= v <= hi ==> r == v
    ensures v < lo ==> r == lo
    ensures hi < v ==> r == hi
  {
    if v < lo then lo else if hi < v then hi else v
  }

  /** The smaller of two values. */
  function Min(a: real, b: real): (r: real)
    ensures r <= a && r <= b
    ensures r == a || r == b
  {
    if a <= b then a else b
  }

  /** Clamping a value that is already in range changes nothing, so clamping twice is clamping once. */
  lemma ClampIdempotent(v: real, lo: real, hi: real)
    requires lo <= hi
    ensures Clamp(Clamp(v, lo, hi), lo, hi) == Clamp(v, lo, hi)
  {
  }
}
