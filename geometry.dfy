/**
 The pixel rescale policy of GetImageData: an image wider than 1024 pixels is resized to
 width 1024 and height h*w/1024; then, from the CURRENT (possibly resized) dimensions, an
 image taller than 720 pixels is resized to width h*w/720 and height 720. The resize utility
 is taken to return an image of exactly the requested size.
 */
module Geometry {

  const MaxWidth: int := 1024
  const MaxHeight: int := 720

  datatype Size = Size(width: int, height: int)

  predicate Positive(s: Size) {
    s.width >= 1 && s.height >= 1
  }

  /** First step: only an image wider than 1024 is resized. */
  function FitWidth(s: Size): Size {
    if s.width > MaxWidth then Size(MaxWidth, (s.height * s.width) / MaxWidth) else s
  }

  /** Second step, applied to the result of the first. */
  function FitHeight(s: Size): Size {
    if s.height > MaxHeight then Size((s.height * s.width) / MaxHeight, MaxHeight) else s
  }

  /** The rescale on mathematical integers (the product h*w cannot overflow). */
  function Rescale(s: Size): (r: Size)
    ensures s.width <= MaxWidth && s.height <= MaxHeight ==> r == s
    ensures r.height <= MaxHeight
    ensures r.width <= MaxWidth || r.height == MaxHeight
  {
    FitHeight(FitWidth(s))
  }

  lemma MulAtLeast(a: int, b: int)
    requires a >= 1 && b >= 0
    ensures a * b >= b
  {
  }

  /** One resize step to a fixed side d keeps the pixel count, up to the floor of h*w/d. */
  lemma FloorArea(area: int, d: int)
    requires area >= 0 && d >= 1
    ensures area - d < d * (area / d) <= area
  {
  }

  /**
   The policy does not keep the aspect ratio but the pixel count: for a real image it
   yields a real image, and the pixel count drops by less than 1024 + 720.
   */
  lemma RescaleKeepsPixelCount(s: Size)
    requires Positive(s)
    ensures Positive(Rescale(s))
    ensures var r := Rescale(s);
      s.width * s.height - (MaxWidth + MaxHeight) < r.width * r.height <= s.width * s.height
  {
    var s1 := FitWidth(s);
    var a := s.height * s.width;
    MulAtLeast(s.height, s.width);
    if s.width > MaxWidth {
      FloorArea(a, MaxWidth);
      assert s1.width * s1.height == MaxWidth * (a / MaxWidth);
    }
    assert Positive(s1);
    assert a - MaxWidth < s1.width * s1.height <= a;
    var a1 := s1.height * s1.width;
    MulAtLeast(s1.width, s1.height);
    if s1.height > MaxHeight {
      FloorArea(a1, MaxHeight);
      assert Rescale(s).width * Rescale(s).height == MaxHeight * (a1 / MaxHeight);
    }
  }

  /** The width is not bounded: any bound is exceeded by a tall enough image. */
  lemma RescaleWidthUnbounded(bound: nat)
    ensures Rescale(Size(1, MaxHeight * (bound + 2))).width > bound
  {
    var s := Size(1, MaxHeight * (bound + 2));
    assert FitWidth(s) == s;
    assert s.height * s.width / MaxHeight == bound + 2;
  }

  /**
   A wide-and-tall image is resized twice and the second step uses the first step's output:
   2048 x 1080 becomes 1024 x 2160 and then 3072 x 720.
   */
  lemma RescaleTwoPass()
    ensures FitWidth(Size(2048, 1080)) == Size(1024, 2160)
    ensures Rescale(Size(2048, 1080)) == Size(3072, 720)
  {
  }

  // ---- the same arithmetic in C# `int`, as the source writes it ----

  const Int32Min: int := -0x8000_0000
  const Int32Max: int := 0x7FFF_FFFF

  predicate InInt32(x: int) {
    Int32Min <= x <= Int32Max
  }

  /** Unchecked C# `int` arithmetic keeps the low 32 bits, read as two's complement. */
  function WrapInt32(x: int): (r: int)
    ensures InInt32(r)
    ensures InInt32(x) ==> r == x
    ensures (r - x) % 0x1_0000_0000 == 0
  {
    (x - Int32Min) % 0x1_0000_0000 + Int32Min
  }

  /** C# `/` on `int` truncates toward zero. */
  function DivInt32(a: int, d: int): (q: int)
    requires InInt32(a) && d >= 1
    ensures InInt32(q)
    ensures a >= 0 ==> q == a / d
    ensures a < 0 ==> q <= 0 && -(q * d) <= -a < -(q * d) + d
  {
    if a >= 0 then a / d else -((-a) / d)
  }

  /** GetImageData's two steps with the 32-bit product `imageFile.Height * imageFile.Width`. */
  function RescaleInt32(s: Size): Size
    requires InInt32(s.width) && InInt32(s.height)
  {
    var s1 := if s.width > MaxWidth
              then Size(MaxWidth, DivInt32(WrapInt32(s.height * s.width), MaxWidth))
              else s;
    if s1.height > MaxHeight
    then Size(DivInt32(WrapInt32(s1.height * s1.width), MaxHeight), MaxHeight)
    else s1
  }

  /** While the pixel count fits in an `int`, the 32-bit code computes the intended rescale. */
  lemma RescaleInt32WithoutOverflow(s: Size)
    requires Positive(s) && s.width * s.height <= Int32Max
    ensures InInt32(s.width) && InInt32(s.height)
    ensures RescaleInt32(s) == Rescale(s)
  {
    MulAtLeast(s.height, s.width);
    MulAtLeast(s.width, s.height);
    var s1 := FitWidth(s);
    if s.width > MaxWidth {
      FloorArea(s.height * s.width, MaxWidth);
    }
    assert Positive(s1) && s1.height * s1.width <= s.height * s.width;
  }

  /** For a 46341 x 46341 bitmap the product wraps and the 32-bit code asks for a negative height. */
  lemma RescaleInt32Overflows()
    ensures RescaleInt32(Size(46341, 46341)) == Size(1024, -2097147)
    ensures Positive(Rescale(Size(46341, 46341)))
  {
    assert WrapInt32(46341 * 46341) == -2147479015;
    RescaleKeepsPixelCount(Size(46341, 46341));
  }
}
