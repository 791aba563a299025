/**
  Shrinking a screenshot: the source pixels are divided among the new ones
  exactly when it does shrink, each new pixel is the average of its own, and
  the size keeps the picture's shape. Floating-point rounding is not modelled:
  sizes are rounded from exact quotients.
 */
module Images {
  type byte = x: int | 0 <= x < 256

  function Max(a: int, b: int): int { if a > b then a else b }

  // --- the boxes --------------------------------------------------------------------

  /** Where the source pixels under the x-th of w new ones begin, of sw, and where they end. */
  function From(x: nat, sw: nat, w: nat): nat
    requires w > 0
  {
    x * sw / w
  }

  function To(x: nat, sw: nat, w: nat): nat
    requires w > 0
  {
    Max((x + 1) * sw / w, x * sw / w + 1)
  }

  lemma MulLe(a: int, b: int, k: int)
    requires a <= b && k >= 0
    ensures a * k <= b * k
  {
    assert (b - a) * k >= 0;
    assert (b - a) * k == b * k - a * k;
  }

  lemma AtLeast(a: int, b: int, q: int)
    requires b > 0
    ensures a / b >= q <==> a >= q * b
  {
    var d := a / b;
    assert d * b <= a < d * b + b;
    if d >= q {
      MulLe(q, d, b);
    } else {
      MulLe(d + 1, q, b);
      assert (d + 1) * b == d * b + b;
    }
  }

  lemma Quotient(a: int, b: int, q: int)
    requires b > 0
    ensures a / b >= q <==> a >= q * b
    ensures a / b <= q <==> a < (q + 1) * b
  {
    AtLeast(a, b, q);
    AtLeast(a, b, q + 1);
  }

  /** Whatever the sizes, no box is empty and none reaches outside the source. */
  lemma BoxesAreInside(x: nat, sw: nat, w: nat)
    requires x < w && sw > 0
    ensures From(x, sw, w) < To(x, sw, w) <= sw
  {
    MulLe(x + 1, w, sw);
    Commute(w, sw);
    Quotient((x + 1) * sw, w, sw);
    Quotient(x * sw, w, sw - 1);
    assert (sw + 1) * w == sw * w + w;
    assert (x + 1) * sw == x * sw + sw;
  }

  lemma Commute(a: int, b: int)
    ensures a * b == b * a
  {
  }

  // Shrinking, each box ends where the next begins.
  lemma BoxesMeet(x: nat, sw: nat, w: nat)
    requires 0 < w <= sw
    ensures To(x, sw, w) == From(x + 1, sw, w)
  {
    Quotient(x * sw, w, x * sw / w);
    Quotient((x + 1) * sw, w, x * sw / w + 1);
    assert (x + 1) * sw == x * sw + sw;
    assert (x * sw / w + 1) * w == (x * sw / w) * w + w;
  }

  lemma EndsAreEnds(sw: nat, w: nat)
    requires w > 0
    ensures From(0, sw, w) == 0 && From(w, sw, w) == sw
  {
    Quotient(w * sw, w, sw);
    assert (sw + 1) * w == w * sw + w;
  }

  lemma FromGoesUp(x: nat, y: nat, sw: nat, w: nat)
    requires w > 0 && x <= y
    ensures From(x, sw, w) <= From(y, sw, w)
  {
    assert (y - x) * sw >= 0;
    assert y * sw >= x * sw;
    Quotient(x * sw, w, x * sw / w);
    Quotient(y * sw, w, x * sw / w);
  }

  predicate InBox(x: nat, p: nat, sw: nat, w: nat)
    requires w > 0
  {
    From(x, sw, w) <= p < To(x, sw, w)
  }

  // Finds a source pixel's box, given that it is before box n.
  lemma {:induction false} BoxOf(p: nat, n: nat, sw: nat, w: nat) returns (x: nat)
    requires 0 < w <= sw && p < From(n, sw, w)
    ensures x < n && InBox(x, p, sw, w)
    decreases n
  {
    EndsAreEnds(sw, w);
    assert n > 0;
    if p >= From(n - 1, sw, w) {
      BoxesMeet(n - 1, sw, w);
      x := n - 1;
    } else {
      x := BoxOf(p, n - 1, sw, w);
    }
  }

  // Shrinking, every position on a side is in one box, and only one.
  lemma OneBoxOnASide(p: nat, sw: nat, w: nat) returns (x: nat)
    requires 0 < w <= sw && p < sw
    ensures x < w && InBox(x, p, sw, w)
    ensures forall y: nat :: y < w && InBox(y, p, sw, w) ==> y == x
  {
    EndsAreEnds(sw, w);
    x := BoxOf(p, w, sw, w);
    forall y: nat | y < w && InBox(y, p, sw, w) ensures y == x {
      BoxesMeet(x, sw, w);
      BoxesMeet(y, sw, w);
      if y < x {
        FromGoesUp(y + 1, x, sw, w);
      }
      if x < y {
        FromGoesUp(x + 1, y, sw, w);
      }
    }
  }

  /** A source pixel is in the box of an output pixel. */
  predicate Covers(x: nat, y: nat, px: nat, py: nat, sw: nat, sh: nat, w: nat, h: nat)
    requires w > 0 && h > 0
  {
    InBox(x, px, sw, w) && InBox(y, py, sh, h)
  }

  /** Shrinking, every source pixel goes into one output pixel, and only one. */
  lemma EveryPixelHasOneBox(px: nat, py: nat, sw: nat, sh: nat, w: nat, h: nat) returns (x: nat, y: nat)
    requires 0 < w <= sw && 0 < h <= sh && px < sw && py < sh
    ensures x < w && y < h && Covers(x, y, px, py, sw, sh, w, h)
    ensures forall i: nat, j: nat :: i < w && j < h && Covers(i, j, px, py, sw, sh, w, h) ==> i == x && j == y
  {
    x := OneBoxOnASide(px, sw, w);
    y := OneBoxOnASide(py, sh, h);
    hide InBox;
  }

  /** The boxes share no pixel exactly when there are no more of them than pixels. */
  lemma BoxesAreApartWhenShrinking(sw: nat, w: nat)
    requires w > 0 && sw > 0
    ensures w <= sw <==> forall x: nat, y: nat, p: nat :: x < y < w && InBox(x, p, sw, w) ==> !InBox(y, p, sw, w)
  {
    if w <= sw {
      forall x: nat, y: nat, p: nat | x < y < w && InBox(x, p, sw, w) ensures !InBox(y, p, sw, w) {
        BoxesMeet(x, sw, w);
        FromGoesUp(x + 1, y, sw, w);
      }
    } else {
      Quotient(sw, w, 0);
      Quotient(0, w, 0);
      assert From(1, sw, w) == 0 && From(0, sw, w) == 0;
      assert InBox(0, 0, sw, w) && InBox(1, 0, sw, w);
    }
  }

  /** Boxes on a side are as even as whole pixels allow: when shrinking, each is the rounded-down share or one more. */
  lemma BoxesAreEven(x: nat, sw: nat, w: nat)
    requires 0 < w <= sw && x < w
    ensures var size := To(x, sw, w) - From(x, sw, w); size * w < sw + w && sw < (size + 1) * w
  {
    BoxesMeet(x, sw, w);
    var a, b := From(x, sw, w), From(x + 1, sw, w);
    Quotient(x * sw, w, a);
    Quotient((x + 1) * sw, w, b);
    assert (x + 1) * sw == x * sw + sw;
    assert (a + 1) * w == a * w + w && (b + 1) * w == b * w + w;
    assert (b - a) * w == b * w - a * w && (b - a + 1) * w == b * w - a * w + w;
  }

  // --- the pixels --------------------------------------------------------------------------

  /** An RGBA image as the source keeps it: rows of `stride` bytes, four to a pixel. */
  datatype Image = Image(pix: seq<byte>, stride: nat, w: nat, h: nat)

  predicate Whole(img: Image) {
    img.w > 0 && img.h > 0 && 4 * img.w <= img.stride && img.h * img.stride <= |img.pix|
  }

  lemma InPix(img: Image, x: nat, y: nat, c: nat)
    requires Whole(img) && x < img.w && y < img.h && c < 4
    ensures y * img.stride + x * 4 + c < |img.pix|
  {
    MulLe(y + 1, img.h, img.stride);
    assert (y + 1) * img.stride == y * img.stride + img.stride;
  }

  function At(img: Image, x: nat, y: nat, c: nat): byte
    requires Whole(img) && x < img.w && y < img.h && c < 4
  {
    InPix(img, x, y, c);
    img.pix[y * img.stride + x * 4 + c]
  }

  /** The sum of a channel over part of a row, from x0 up to x1. */
  function RowSum(img: Image, y: nat, x0: nat, x1: nat, c: nat): int
    requires Whole(img) && x0 <= x1 <= img.w && y < img.h && c < 4
    decreases x1
  {
    if x1 == x0 then 0 else RowSum(img, y, x0, x1 - 1, c) + At(img, x1 - 1, y, c)
  }

  /** ... and over a box. */
  function BoxSum(img: Image, x0: nat, x1: nat, y0: nat, y1: nat, c: nat): int
    requires Whole(img) && x0 <= x1 <= img.w && y0 <= y1 <= img.h && c < 4
    decreases y1
  {
    if y1 == y0 then 0 else BoxSum(img, x0, x1, y0, y1 - 1, c) + RowSum(img, y1 - 1, x0, x1, c)
  }

  /** A box's average in a channel, rounded down. */
  function Average(img: Image, x0: nat, x1: nat, y0: nat, y1: nat, c: nat): int
    requires Whole(img) && x0 < x1 <= img.w && y0 < y1 <= img.h && c < 4
  {
    Area(x0, x1, y0, y1);
    BoxSum(img, x0, x1, y0, y1, c) / ((x1 - x0) * (y1 - y0))
  }

  lemma Area(x0: nat, x1: nat, y0: nat, y1: nat)
    requires x0 < x1 && y0 < y1
    ensures (x1 - x0) * (y1 - y0) > 0
  {
  }

  /** Row by row, pixel by pixel, in red, green, blue and alpha: which byte a channel is. */
  lemma ChannelsInOrder(img: Image, x: nat, y: nat, c: nat)
    requires Whole(img) && x < img.w && y < img.h && c < 4
    ensures y * img.stride <= |img.pix| && 4 * x <= |img.pix[y * img.stride..]|
    ensures c < |img.pix[y * img.stride..][4 * x..]| && At(img, x, y, c) == img.pix[y * img.stride..][4 * x..][c]
  {
    InPix(img, x, y, c);
  }

  /** A box's sum is that of its parts, cut either way; a single pixel's is its channel. */
  lemma SumsAreOfPixels(img: Image, x0: nat, x1: nat, x2: nat, y0: nat, y1: nat, y2: nat, c: nat)
    requires Whole(img) && x0 <= x1 <= x2 <= img.w && y0 <= y1 <= y2 <= img.h && c < 4
    ensures BoxSum(img, x0, x2, y0, y2, c) == BoxSum(img, x0, x1, y0, y2, c) + BoxSum(img, x1, x2, y0, y2, c)
    ensures BoxSum(img, x0, x2, y0, y2, c) == BoxSum(img, x0, x2, y0, y1, c) + BoxSum(img, x0, x2, y1, y2, c)
    ensures x0 + 1 == x2 && y0 + 1 == y2 ==> BoxSum(img, x0, x2, y0, y2, c) == At(img, x0, y0, c) as int
  {
    CutAcross(img, x0, x1, x2, y0, y2, c);
    CutDown(img, x0, x2, y0, y1, y2, c);
    if x0 + 1 == x2 && y0 + 1 == y2 {
      assert BoxSum(img, x0, x2, y0, y0, c) == 0;
      assert RowSum(img, y0, x0, x0, c) == 0;
    }
  }

  lemma {:induction false} RowCut(img: Image, y: nat, x0: nat, x1: nat, x2: nat, c: nat)
    requires Whole(img) && x0 <= x1 <= x2 <= img.w && y < img.h && c < 4
    ensures RowSum(img, y, x0, x2, c) == RowSum(img, y, x0, x1, c) + RowSum(img, y, x1, x2, c)
    decreases x2
  {
    if x1 < x2 {
      RowCut(img, y, x0, x1, x2 - 1, c);
    }
  }

  lemma {:induction false} CutAcross(img: Image, x0: nat, x1: nat, x2: nat, y0: nat, y1: nat, c: nat)
    requires Whole(img) && x0 <= x1 <= x2 <= img.w && y0 <= y1 <= img.h && c < 4
    ensures BoxSum(img, x0, x2, y0, y1, c) == BoxSum(img, x0, x1, y0, y1, c) + BoxSum(img, x1, x2, y0, y1, c)
    decreases y1
  {
    if y0 < y1 {
      CutAcross(img, x0, x1, x2, y0, y1 - 1, c);
      RowCut(img, y1 - 1, x0, x1, x2, c);
    }
  }

  lemma {:induction false} CutDown(img: Image, x0: nat, x1: nat, y0: nat, y1: nat, y2: nat, c: nat)
    requires Whole(img) && x0 <= x1 <= img.w && y0 <= y1 <= y2 <= img.h && c < 4
    ensures BoxSum(img, x0, x1, y0, y2, c) == BoxSum(img, x0, x1, y0, y1, c) + BoxSum(img, x0, x1, y1, y2, c)
    decreases y2
  {
    if y1 < y2 {
      CutDown(img, x0, x1, y0, y1, y2 - 1, c);
    }
  }

  /** A box's average, times its pixels, is its sum less what is cut off, which is less than one each. */
  lemma AveragesAreMeans(img: Image, x0: nat, x1: nat, y0: nat, y1: nat, c: nat)
    requires Whole(img) && x0 < x1 <= img.w && y0 < y1 <= img.h && c < 4
    ensures var pixels, a := (x1 - x0) * (y1 - y0), Average(img, x0, x1, y0, y1, c);
            a * pixels <= BoxSum(img, x0, x1, y0, y1, c) < (a + 1) * pixels
  {
    Area(x0, x1, y0, y1);
    Quotient(BoxSum(img, x0, x1, y0, y1, c), (x1 - x0) * (y1 - y0), Average(img, x0, x1, y0, y1, c));
  }

  /** Every value of a channel in a box is from lo to hi. */
  predicate Bounded(img: Image, x0: nat, x1: nat, y0: nat, y1: nat, c: nat, lo: int, hi: int)
    requires Whole(img) && x1 <= img.w && y1 <= img.h && c < 4
  {
    forall x, y :: x0 <= x < x1 && y0 <= y < y1 ==> lo <= At(img, x, y, c) <= hi
  }

  lemma {:induction false} RowSumBounds(img: Image, y: nat, x0: nat, x1: nat, c: nat, lo: int, hi: int)
    requires Whole(img) && x0 <= x1 <= img.w && y < img.h && c < 4 && Bounded(img, x0, x1, y, y + 1, c, lo, hi)
    ensures lo * (x1 - x0) <= RowSum(img, y, x0, x1, c) <= hi * (x1 - x0)
    decreases x1
  {
    if x0 < x1 {
      RowSumBounds(img, y, x0, x1 - 1, c, lo, hi);
      assert lo <= At(img, x1 - 1, y, c) <= hi;
      OneMore(lo, x1 - x0);
      OneMore(hi, x1 - x0);
    }
  }

  lemma {:induction false} BoxSumBounds(img: Image, x0: nat, x1: nat, y0: nat, y1: nat, c: nat, lo: int, hi: int)
    requires Whole(img) && x0 <= x1 <= img.w && y0 <= y1 <= img.h && c < 4 && Bounded(img, x0, x1, y0, y1, c, lo, hi)
    ensures lo * ((x1 - x0) * (y1 - y0)) <= BoxSum(img, x0, x1, y0, y1, c) <= hi * ((x1 - x0) * (y1 - y0))
    decreases y1
  {
    if y0 < y1 {
      BoxSumBounds(img, x0, x1, y0, y1 - 1, c, lo, hi);
      RowSumBounds(img, y1 - 1, x0, x1, c, lo, hi);
      OneRowMore(lo, x1 - x0, y1 - y0);
      OneRowMore(hi, x1 - x0, y1 - y0);
    }
  }

  lemma OneMore(v: int, n: int)
    ensures v * n == v * (n - 1) + v
  {
  }

  lemma OneRowMore(v: int, a: int, b: int)
    ensures v * (a * b) == v * (a * (b - 1)) + v * a
  {
    assert a * b == a * (b - 1) + a;
  }

  /** An average lies between the least and the greatest of what it averages. */
  lemma AveragesStayBetween(img: Image, x0: nat, x1: nat, y0: nat, y1: nat, c: nat, lo: int, hi: int)
    requires Whole(img) && x0 < x1 <= img.w && y0 < y1 <= img.h && c < 4 && Bounded(img, x0, x1, y0, y1, c, lo, hi)
    ensures lo <= Average(img, x0, x1, y0, y1, c) <= hi
  {
    Area(x0, x1, y0, y1);
    BoxSumBounds(img, x0, x1, y0, y1, c, lo, hi);
    var n := (x1 - x0) * (y1 - y0);
    Quotient(BoxSum(img, x0, x1, y0, y1, c), n, lo);
    Quotient(BoxSum(img, x0, x1, y0, y1, c), n, hi);
    assert (hi + 1) * n == hi * n + n;
  }

  lemma AverageIsAByte(img: Image, x0: nat, x1: nat, y0: nat, y1: nat, c: nat)
    requires Whole(img) && x0 < x1 <= img.w && y0 < y1 <= img.h && c < 4
    ensures 0 <= Average(img, x0, x1, y0, y1, c) < 256
  {
    AveragesStayBetween(img, x0, x1, y0, y1, c, 0, 255);
  }

  /** Averages a box of the source: the sums of three channels and a count, in one pass. */
  method AverageBox(img: Image, x0: nat, x1: nat, y0: nat, y1: nat) returns (r: byte, g: byte, b: byte)
    requires Whole(img) && x0 < x1 <= img.w && y0 < y1 <= img.h
    ensures r == Average(img, x0, x1, y0, y1, 0) && g == Average(img, x0, x1, y0, y1, 1)
            && b == Average(img, x0, x1, y0, y1, 2)
  {
    var sr, sg, sb, n := 0, 0, 0, 0;
    for sy := y0 to y1
      invariant sr == BoxSum(img, x0, x1, y0, sy, 0) && sg == BoxSum(img, x0, x1, y0, sy, 1)
                && sb == BoxSum(img, x0, x1, y0, sy, 2)
      invariant n == (x1 - x0) * (sy - y0)
    {
      for sx := x0 to x1
        invariant sr == BoxSum(img, x0, x1, y0, sy, 0) + RowSum(img, sy, x0, sx, 0)
        invariant sg == BoxSum(img, x0, x1, y0, sy, 1) + RowSum(img, sy, x0, sx, 1)
        invariant sb == BoxSum(img, x0, x1, y0, sy, 2) + RowSum(img, sy, x0, sx, 2)
        invariant n == (x1 - x0) * (sy - y0) + (sx - x0)
      {
        sr, sg, sb, n := sr + At(img, sx, sy, 0), sg + At(img, sx, sy, 1), sb + At(img, sx, sy, 2), n + 1;
      }
      assert (x1 - x0) * (sy + 1 - y0) == (x1 - x0) * (sy - y0) + (x1 - x0);
    }
    Area(x0, x1, y0, y1);
    AverageIsAByte(img, x0, x1, y0, y1, 0);
    AverageIsAByte(img, x0, x1, y0, y1, 1);
    AverageIsAByte(img, x0, x1, y0, y1, 2);
    r, g, b := sr / n, sg / n, sb / n;
  }

  datatype Pixel = Pixel(r: byte, g: byte, b: byte, a: byte)

  /** The pixel at x, y of a w by h result: the averages of its box, and opaque. */
  ghost predicate Shows(p: Pixel, x: nat, y: nat, img: Image, w: nat, h: nat)
    requires Whole(img) && x < w && y < h
  {
    BoxesAreInside(x, img.w, w);
    BoxesAreInside(y, img.h, h);
    var x0, x1, y0, y1 := From(x, img.w, w), To(x, img.w, w), From(y, img.h, h), To(y, img.h, h);
    && p.r as int == Average(img, x0, x1, y0, y1, 0)
    && p.g as int == Average(img, x0, x1, y0, y1, 1)
    && p.b as int == Average(img, x0, x1, y0, y1, 2)
    && p.a == 255
  }

  /** The average of the box under x, y. */
  method PixelAt(img: Image, x: nat, y: nat, w: nat, h: nat) returns (p: Pixel)
    requires Whole(img) && x < w && y < h
    ensures Shows(p, x, y, img, w, h)
  {
    hide Average;
    BoxesAreInside(x, img.w, w);
    BoxesAreInside(y, img.h, h);
    var y0, y1 := y * img.h / h, Max((y + 1) * img.h / h, y * img.h / h + 1);
    var x0, x1 := x * img.w / w, Max((x + 1) * img.w / w, x * img.w / w + 1);
    var r, g, b := AverageBox(img, x0, x1, y0, y1);
    p := Pixel(r, g, b, 255);
  }

  /**
    Scales a picture to w by h, averaging the source pixels under each new one;
    one that is not smaller is left as it is.
   */
  method Shrink(img: Image, w: nat, h: nat) returns (out: array2?<Pixel>)
    requires Whole(img) && w > 0 && h > 0
    ensures out == null <==> w >= img.w && h >= img.h
    ensures out != null ==> fresh(out) && out.Length0 == h && out.Length1 == w
    ensures out != null ==> forall y: nat, x: nat :: y < h && x < w ==> Shows(out[y, x], x, y, img, w, h)
  {
    hide Shows, Whole;
    if w >= img.w && h >= img.h {
      return null;
    }
    var pixels := new Pixel[h, w];
    for y := 0 to h
      invariant forall v: nat, u: nat :: v < y && u < w ==> Shows(pixels[v, u], u, v, img, w, h)
    {
      for x := 0 to w
        invariant forall v: nat, u: nat :: v < y && u < w ==> Shows(pixels[v, u], u, v, img, w, h)
        invariant forall u: nat :: u < x ==> Shows(pixels[y, u], u, y, img, w, h)
      {
        var p := PixelAt(img, x, y, w, h);
        pixels[y, x] := p;
      }
    }
    return pixels;
  }

  // --- the size ------------------------------------------------------------------------------

  /** a divided by b, to the nearest whole number, halves up. */
  function Rounded(a: int, b: int): int
    requires b > 0
  {
    (2 * a + b) / (2 * b)
  }

  function Fit(w: nat, h: nat, limit: nat): (int, int) {
    if w <= limit && h <= limit then (w, h)
    else if w >= h then (limit, Max(1, Rounded(h * limit, w)))
    else (Max(1, Rounded(w * limit, h)), limit)
  }

  lemma RoundedIsNear(a: int, b: int)
    requires b > 0
    ensures -b < 2 * (Rounded(a, b) * b - a) <= b
    ensures Rounded(a, b) < 1 ==> 2 * a < b
  {
    var q := Rounded(a, b);
    Quotient(2 * a + b, 2 * b, q);
    assert q * (2 * b) == 2 * (q * b) && (q + 1) * (2 * b) == 2 * (q * b) + 2 * b;
  }

  // A side shrunk along with a longer one stays no longer than it was, and than the limit.
  lemma ShorterSide(side: nat, long: nat, limit: nat)
    requires 0 < side <= long && 0 < limit < long
    ensures Rounded(side * limit, long) <= limit && Rounded(side * limit, long) <= side
  {
    MulLe(side, long, limit);
    Commute(long, limit);
    RoundedAtMost(side * limit, long, limit);
    MulLe(limit, long, side);
    Commute(long, side);
    Commute(side, limit);
    RoundedAtMost(side * limit, long, side);
  }

  lemma RoundedAtMost(a: int, b: int, q: int)
    requires b > 0 && a <= q * b
    ensures Rounded(a, b) <= q
  {
    Doubled(q, b);
    Quotient(2 * a + b, 2 * b, q);
  }

  lemma Doubled(q: int, b: int)
    ensures (q + 1) * (2 * b) == 2 * (q * b) + 2 * b
  {
    assert q * (2 * b) == 2 * (q * b);
  }

  /**
    A picture fitted within a limit has sides from 1 to the limit, none longer
    than it was; it changes only if it was too big, and then its longer side is
    the limit and the other is as near to the same shape as a whole number gets
    (but at least 1).
   */
  lemma FitsKeepsTheShape(w: int, h: int, limit: int)
    requires w > 0 && h > 0 && limit > 0
    ensures var (a, b) := Fit(w, h, limit);
            && 1 <= a <= limit && 1 <= b <= limit && a <= w && b <= h
            && ((a, b) == (w, h) <==> w <= limit && h <= limit)
            && (w >= h && w > limit ==>
                a == limit && (-w < 2 * (b * w - h * limit) <= w || (b == 1 && 2 * (h * limit) < w)))
            && (h > w && h > limit ==>
                b == limit && (-h < 2 * (a * h - w * limit) <= h || (a == 1 && 2 * (w * limit) < h)))
  {
    if w >= h && w > limit {
      ShorterSide(h, w, limit);
      RoundedIsNear(h * limit, w);
    } else if h > w && h > limit {
      ShorterSide(w, h, limit);
      RoundedIsNear(w * limit, h);
    }
  }
}
