/** The header banner's vertical gradient (pdfGenerator.js lines 68-78): 40
    one-unit strips whose colour moves from blue (74,144,226) towards purple
    (84,28,156), each channel rounded with `Math.round`. */
module Gradient {
  import opened Drawing

  /** `headerHeight`: the number of strips and the banner's height. */
  const Strips := 40

  /** `Math.round(a + (b - a) * (i / n))` in integers: `Math.round(x)` is the
      integer r with r - 1/2 <= x < r + 1/2, i.e. floor(x + 1/2). */
  function Interpolate(a: int, b: int, i: int, n: int): (r: int)
    requires n > 0
    ensures 2 * n * r - n <= 2 * (a * n + (b - a) * i) < 2 * n * r + n
  {
    var num, d := 2 * (a * n + (b - a) * i) + n, 2 * n;
    assert num == d * (num / d) + num % d;
    num / d
  }

  /** Proof step for the rounding bounds: a positive multiple of n is at least n. */
  lemma {:induction false} MulAtLeast(n: int, k: int)
    requires n > 0
    ensures k >= 1 ==> n * k >= n
  {
    if k >= 1 {
      assert n * k == n + n * (k - 1);
      assert n * (k - 1) >= 0;
    }
  }

  lemma {:induction false} ScaledBelow(n: int, r: int, m: int)
    requires n > 0 && 2 * n * r - n < 2 * n * m + n
    ensures r <= m
  {
    assert 2 * n * r - 2 * n * m == 2 * n * (r - m);
    MulAtLeast(2 * n, r - m);
  }

  /** A channel moves in one direction only: up when it starts below its end
      value, down otherwise. */
  lemma {:induction false} InterpolateMonotone(a: int, b: int, i: int, j: int, n: int)
    requires n > 0 && 0 <= i <= j <= n
    ensures a <= b ==> Interpolate(a, b, i, n) <= Interpolate(a, b, j, n)
    ensures b <= a ==> Interpolate(a, b, j, n) <= Interpolate(a, b, i, n)
  {
    var ri, rj := Interpolate(a, b, i, n), Interpolate(a, b, j, n);
    assert (b - a) * j - (b - a) * i == (b - a) * (j - i);
    if a <= b {
      assert (b - a) * (j - i) >= 0;
      ScaledBelow(n, ri, rj);
    } else {
      assert (a - b) * (j - i) >= 0;
      ScaledBelow(n, rj, ri);
    }
  }

  /** The first strip has the start value and strip n would have the end value. */
  lemma {:induction false} InterpolateEnds(a: int, b: int, n: int)
    requires n > 0
    ensures Interpolate(a, b, 0, n) == a && Interpolate(a, b, n, n) == b
  {
    var first := Interpolate(a, b, 0, n);
    assert a * n + (b - a) * 0 == n * a;
    ScaledBelow(n, first, a);
    ScaledBelow(n, a, first);
    var last := Interpolate(a, b, n, n);
    assert a * n + (b - a) * n == n * b;
    ScaledBelow(n, last, b);
    ScaledBelow(n, b, last);
  }

  /** Each channel stays between its start and end values. */
  lemma {:induction false} InterpolateBetween(a: int, b: int, i: int, n: int)
    requires n > 0 && 0 <= i <= n
    ensures a <= b ==> a <= Interpolate(a, b, i, n) <= b
    ensures b <= a ==> b <= Interpolate(a, b, i, n) <= a
  {
    InterpolateEnds(a, b, n);
    InterpolateMonotone(a, b, 0, i, n);
    InterpolateMonotone(a, b, i, n, n);
  }

  /** The fill colour of strip `i`. */
  function StripColour(i: int): (c: Rgb)
    requires 0 <= i < Strips
    ensures i == 0 ==> c == Rgb(74, 144, 226)
    ensures 74 <= c.r <= 84 && 28 <= c.g <= 144 && 156 <= c.b <= 226
  {
    InterpolateBetween(74, 84, i, Strips);
    InterpolateBetween(144, 28, i, Strips);
    InterpolateBetween(226, 156, i, Strips);
    Rgb(Interpolate(74, 84, i, Strips), Interpolate(144, 28, i, Strips), Interpolate(226, 156, i, Strips))
  }

  /** Strips 0 .. n-1 drawn from the banner top `y` on a page `pageWidth` wide:
      for each, its fill colour then a 1-unit rectangle at `y + i`. */
  function GradientStrips(n: nat, y: int, pageWidth: int): seq<Cmd>
    requires n <= Strips
  {
    if n == 0 then []
    else GradientStrips(n - 1, y, pageWidth) + [Fill(StripColour(n - 1)), Rect(40, y + n - 1, pageWidth - 80, 1)]
  }

  /** The strips are drawn one per i in 0 .. n-1, at `y + i`, in order. */
  lemma {:induction false} GradientStripAt(n: nat, y: int, pageWidth: int)
    requires n <= Strips
    ensures |GradientStrips(n, y, pageWidth)| == 2 * n
    ensures forall i | 0 <= i < n ::
              GradientStrips(n, y, pageWidth)[2 * i] == Fill(StripColour(i))
              && GradientStrips(n, y, pageWidth)[2 * i + 1] == Rect(40, y + i, pageWidth - 80, 1)
  {
    if n > 0 {
      GradientStripAt(n - 1, y, pageWidth);
      var before := GradientStrips(n - 1, y, pageWidth);
      var strip := [Fill(StripColour(n - 1)), Rect(40, y + n - 1, pageWidth - 80, 1)];
      assert GradientStrips(n, y, pageWidth) == before + strip;
      forall i | 0 <= i < n
        ensures (before + strip)[2 * i] == Fill(StripColour(i))
        ensures (before + strip)[2 * i + 1] == Rect(40, y + i, pageWidth - 80, 1)
      {
        if i < n - 1 {
          assert (before + strip)[2 * i] == before[2 * i];
          assert (before + strip)[2 * i + 1] == before[2 * i + 1];
        }
      }
    }
  }
}
