/** Facts about products and quotients that the mesh arithmetic needs. */
module Arithmetic {
  lemma Multiply(w: int, a: int, b: int)
    requires w >= 0 && a <= b
    ensures w * a <= w * b
  {}

  // A quotient and remainder put together come apart again.
  lemma {:induction false} DivMod(w: int, q: int, r: int)
    requires 0 <= r < w
    ensures (q * w + r) / w == q && (q * w + r) % w == r
  {
    var n := q * w + r;
    var d := n / w - q;
    assert n == w * (n / w) + n % w;
    assert w * (n / w) - q * w == w * d;
    assert d >= 1 ==> w * d >= w;
    assert d <= -1 ==> w * d <= -w;
  }

  // The quotient of a number below w * h is a row below h.
  lemma {:induction false} RowBelow(w: int, h: int, n: int)
    requires w >= 1 && 0 <= n < w * h
    ensures 0 <= n / w < h && 0 <= n % w < w && n == n / w * w + n % w
  {
    var q := n / w;
    assert n == w * q + n % w;
    assert q >= h ==> w * q >= w * h;
    assert q < 0 ==> w * q <= -w;
  }

  // A cell of a grid numbered row by row.
  lemma {:induction false} CellBelow(w: int, h: int, x: int, y: int)
    requires 0 <= x < w && 0 <= y < h
    ensures 0 <= y * w + x < w * h
  {
    Multiply(w, y, h - 1);
    assert w * (h - 1) == w * h - w;
    assert y * w == w * y;
  }
}
