// randomIntFromRange (script.js:34-36): the draw of Math.random() is taken as
// the parameter r, so the helper becomes a pure function of it.
module RandomRange {

  /** Math.floor(r * (max - min + 1)) + min, for one draw r of Math.random(). */
  function RandomIntFromRange(min: int, max: int, r: real): (n: int)
    ensures min <= max && 0.0 <= r < 1.0 ==> min <= n <= max
  {
    (r * (max - min + 1) as real).Floor + min
  }

  /** Each of the max - min + 1 results owns one equal slice of [0, 1):
      the result is min + k exactly when r lies in [k / w, (k + 1) / w). */
  lemma RandomIntFromRangeSlice(min: int, max: int, r: real, k: int)
    requires min <= max && 0.0 <= r < 1.0
    ensures var w := (max - min + 1) as real;
      RandomIntFromRange(min, max, r) == min + k <==> k as real / w <= r < (k + 1) as real / w
  {
    var w := (max - min + 1) as real;
    ScaleByWidth(k as real, w, r);
    ScaleByWidth((k + 1) as real, w, r);
  }

  lemma ScaleByWidth(a: real, w: real, r: real)
    requires w > 0.0
    ensures a / w <= r <==> a <= r * w
  {
    assert a / w * w == a;
  }

  /** The call randomIntFromRange(0, 1) that picks a sprite (script.js:117)
      always yields a valid index into a two-element array. */
  lemma SpriteIndexInRange(r: real)
    requires 0.0 <= r < 1.0
    ensures RandomIntFromRange(0, 1, r) in {0, 1}
    ensures RandomIntFromRange(0, 1, r) == 0 <==> r < 0.5
  {
    RandomIntFromRangeSlice(0, 1, r, 0);
  }
}
