/** The binary content marker that benchmarks/multimodal_cache_workload.py draws into the first image
    of a unique request. */
module CacheMarker {
  import opened CacheWorkload

  datatype Color = Color(red: nat, green: nat, blue: nat)

  const BACKGROUND := Color(17, 34, 51)

  function Grey(v: nat): Color { Color(v, v, v) }

  // ----- binary numbers

  function Bit(id: nat, k: nat): (b: nat)
    ensures b < 2
  {
    if k == 0 then id % 2 else Bit(id / 2, k - 1)
  }

  function Pow2(n: nat): nat { if n == 0 then 1 else 2 * Pow2(n - 1) }

  function Number(bits: seq<nat>): nat { if bits == [] then 0 else bits[0] + 2 * Number(bits[1..]) }

  lemma {:induction false} NumberOfBits(id: nat, n: nat, bits: seq<nat>)
    requires id < Pow2(n) && |bits| == n && forall k :: 0 <= k < n ==> bits[k] == Bit(id, k)
    ensures Number(bits) == id
  {
    if n > 0 {
      NumberOfBits(id / 2, n - 1, bits[1..]);
    }
  }

  // ----- drawing

  /** A filled rectangle, borders included, clipped to the image. */
  method Rectangle(image: array2<Color>, x0: nat, y0: nat, x1: nat, y1: nat, color: Color)
    modifies image
    ensures forall x, y :: 0 <= x < image.Length0 && 0 <= y < image.Length1 ==>
              image[x, y] == if x0 <= x <= x1 && y0 <= y <= y1 then color else old(image[x, y])
  {
    var x := x0;
    while x <= x1 && x < image.Length0
      invariant forall i, j :: 0 <= i < image.Length0 && 0 <= j < image.Length1 ==>
                  image[i, j] == if x0 <= i < x && i <= x1 && y0 <= j <= y1 then color else old(image[i, j])
    {
      var y := y0;
      while y <= y1 && y < image.Length1
        invariant forall i, j :: 0 <= i < image.Length0 && 0 <= j < image.Length1 ==>
                    image[i, j] == if (x0 <= i < x && y0 <= j <= y1) || (i == x && y0 <= j < y && j <= y1) then color
                                   else old(image[i, j])
      {
        image[x, y] := color;
        y := y + 1;
      }
      x := x + 1;
    }
  }

  /** The bit whose square covers a pixel, if any: 8 by 8 squares of 3 by 3 pixels, 4 apart. */
  predicate InSquare(x: nat, y: nat) {
    2 <= x < 33 && 2 <= y < 33 && (x - 2) % 4 < 3 && (y - 2) % 4 < 3
  }

  function SquareOf(x: nat, y: nat): (bit: nat)
    requires InSquare(x, y)
    ensures bit < 64
  {
    (y - 2) / 4 * 8 + (x - 2) / 4
  }

  /** The pixel after the background and the first n bits were drawn. */
  function Drawn(x: nat, y: nat, original: Color, id: nat, n: nat): Color {
    if x > 35 || y > 35 then original
    else if InSquare(x, y) && SquareOf(x, y) < n then Grey(if Bit(id, SquareOf(x, y)) == 1 then 255 else 0)
    else BACKGROUND
  }

  /** Upper left corner of the square of a bit. */
  function AnchorX(bit: nat): nat { 2 + bit % 8 * 4 }
  function AnchorY(bit: nat): nat { 2 + bit / 8 * 4 }

  /** One axis: the squares of column c start at 2 + 4c and are 3 wide. */
  lemma OnAxis(x: nat, c: nat)
    requires c < 8
    ensures 2 <= x < 33 && (x - 2) % 4 < 3 && (x - 2) / 4 == c <==> 2 + c * 4 <= x <= 2 + c * 4 + 2
  {
  }

  lemma SquareIsAtAnchor(x: nat, y: nat, bit: nat)
    requires bit < 64
    ensures InSquare(x, y) && SquareOf(x, y) == bit
       <==> AnchorX(bit) <= x <= AnchorX(bit) + 2 && AnchorY(bit) <= y <= AnchorY(bit) + 2
    ensures InSquare(x, y) ==> x <= 35 && y <= 35
  {
    OnAxis(x, bit % 8);
    OnAxis(y, bit / 8);
  }

  lemma DrawnNext(x: nat, y: nat, original: Color, id: nat, bit: nat)
    requires bit < 64
    ensures Drawn(x, y, original, id, bit + 1)
         == if AnchorX(bit) <= x <= AnchorX(bit) + 2 && AnchorY(bit) <= y <= AnchorY(bit) + 2
            then Grey(if Bit(id, bit) == 1 then 255 else 0) else Drawn(x, y, original, id, bit)
  {
    hide InSquare, SquareOf, AnchorX, AnchorY, Bit;
    SquareIsAtAnchor(x, y, bit);
  }

  /** Draw the marker of a variant in place. */
  method Mark(image: array2<Color>, id: nat)
    modifies image
    ensures forall x, y :: 0 <= x < image.Length0 && 0 <= y < image.Length1 ==>
              image[x, y] == Drawn(x, y, old(image[x, y]), id, 64)
  {
    hide InSquare, SquareOf, AnchorX, AnchorY, Bit;
    Rectangle(image, 0, 0, 35, 35, BACKGROUND);
    var bit := 0;
    while bit < 64
      invariant bit <= 64
      invariant forall x, y :: 0 <= x < image.Length0 && 0 <= y < image.Length1 ==>
                  image[x, y] == Drawn(x, y, old(image[x, y]), id, bit)
    {
      Rectangle(image, AnchorX(bit), AnchorY(bit), AnchorX(bit) + 2, AnchorY(bit) + 2,
        Grey(if Bit(id, bit) == 1 then 255 else 0));
      forall x, y | 0 <= x < image.Length0 && 0 <= y < image.Length1
        ensures image[x, y] == Drawn(x, y, old(image[x, y]), id, bit + 1)
      {
        DrawnNext(x, y, old(image[x, y]), id, bit);
      }
      bit := bit + 1;
    }
  }

  // ----- reading the marker

  /** The marked picture of an original. */
  ghost predicate IsMarked(marked: (nat, nat) -> Color, original: (nat, nat) -> Color, width: nat, height: nat,
                           id: nat) {
    forall x, y :: 0 <= x < width && 0 <= y < height ==> marked(x, y) == Drawn(x, y, original(x, y), id, 64)
  }

  function ReadBit(picture: (nat, nat) -> Color, k: nat): nat {
    if picture(AnchorX(k), AnchorY(k)) == Grey(255) then 1 else 0
  }

  function Decode(picture: (nat, nat) -> Color): nat { Number(seq(64, k requires k >= 0 => ReadBit(picture, k))) }

  /** The bits that an image of this size shows. */
  predicate Shows(bit: nat, width: nat, height: nat) { bit < 64 && AnchorX(bit) < width && AnchorY(bit) < height }

  lemma LargeImagesShowAll(bit: nat, width: nat, height: nat)
    requires bit < 64 && width > 30 && height > 30
    ensures Shows(bit, width, height)
  {
  }

  lemma ReadsBit(marked: (nat, nat) -> Color, original: (nat, nat) -> Color, width: nat, height: nat, id: nat, k: nat)
    requires IsMarked(marked, original, width, height, id) && Shows(k, width, height)
    ensures ReadBit(marked, k) == Bit(id, k)
  {
    hide InSquare, SquareOf, AnchorX, AnchorY;
    SquareIsAtAnchor(AnchorX(k), AnchorY(k), k);
  }

  /** The marker of an image of at least 31 by 31 pixels decodes to its variant. */
  lemma DecodesToVariant(marked: (nat, nat) -> Color, original: (nat, nat) -> Color, width: nat, height: nat, id: nat)
    requires IsMarked(marked, original, width, height, id) && width > 30 && height > 30 && id < Pow2(64)
    ensures Decode(marked) == id
  {
    hide IsMarked, Shows, ReadBit, Bit, Pow2, Number;
    var bits := seq(64, k requires k >= 0 => ReadBit(marked, k));
    forall k | 0 <= k < 64 ensures bits[k] == Bit(id, k) {
      LargeImagesShowAll(k, width, height);
      ReadsBit(marked, original, width, height, id, k);
    }
    NumberOfBits(id, 64, bits);
  }

  ghost predicate Alike(a: (nat, nat) -> Color, b: (nat, nat) -> Color, width: nat, height: nat) {
    forall x, y :: 0 <= x < width && 0 <= y < height ==> a(x, y) == b(x, y)
  }

  ghost predicate ShownBitsAgree(m: nat, n: nat, width: nat, height: nat) {
    forall k :: Shows(k, width, height) ==> Bit(m, k) == Bit(n, k)
  }

  lemma AgreeingBitsLookAlike(original: Color, width: nat, height: nat, m: nat, n: nat, x: nat, y: nat)
    requires ShownBitsAgree(m, n, width, height) && x < width && y < height
    ensures Drawn(x, y, original, m, 64) == Drawn(x, y, original, n, 64)
  {
    hide InSquare, SquareOf, AnchorX, AnchorY, Bit;
    if InSquare(x, y) {
      SquareIsAtAnchor(x, y, SquareOf(x, y));
      assert Shows(SquareOf(x, y), width, height);
    }
  }

  /** Exactly when two variants of one image look alike, for images of any size: when they agree in
      every bit that fits. */
  lemma VariantsAlikeIff(a: (nat, nat) -> Color, b: (nat, nat) -> Color, original: (nat, nat) -> Color,
                         width: nat, height: nat, m: nat, n: nat)
    requires IsMarked(a, original, width, height, m) && IsMarked(b, original, width, height, n)
    ensures Alike(a, b, width, height) <==> ShownBitsAgree(m, n, width, height)
  {
    hide InSquare, SquareOf, AnchorX, AnchorY, Bit, Drawn;
    if Alike(a, b, width, height) {
      forall k | Shows(k, width, height) ensures Bit(m, k) == Bit(n, k) {
        ReadsBit(a, original, width, height, m, k);
        ReadsBit(b, original, width, height, n, k);
        assert a(AnchorX(k), AnchorY(k)) == b(AnchorX(k), AnchorY(k));
      }
    }
    if ShownBitsAgree(m, n, width, height) {
      forall x, y | 0 <= x < width && 0 <= y < height ensures a(x, y) == b(x, y) {
        AgreeingBitsLookAlike(original(x, y), width, height, m, n, x, y);
      }
    }
  }

  /** On an image of 2 by 2 pixels no bit fits: any two variants look alike. */
  lemma TinyImagesCollide(a: (nat, nat) -> Color, b: (nat, nat) -> Color, original: (nat, nat) -> Color, m: nat, n: nat)
    requires IsMarked(a, original, 2, 2, m) && IsMarked(b, original, 2, 2, n)
    ensures Alike(a, b, 2, 2)
  {
    VariantsAlikeIff(a, b, original, 2, 2, m, n);
  }

  lemma {:induction false} MediaAtMost(media: seq<bool>, n: nat)
    requires n <= |media|
    ensures MediaBefore(media, n) <= n
  {
    if n > 0 { MediaAtMost(media, n - 1); }
  }

  /** Two unique requests of a built workload never show the same picture, even if both were made from
      the same image, as long as it has at least 31 by 31 pixels. */
  lemma UniqueMediaDiffer(media: seq<bool>, repeats: nat, roles: seq<Role>, i: nat, j: nat,
                          a: (nat, nat) -> Color, b: (nat, nat) -> Color, original: (nat, nat) -> Color,
                          width: nat, height: nat)
    requires |roles| == |media| < Pow2(64) && MediaBefore(media, |media|) > 0
    requires forall k :: 0 <= k < |media| ==> roles[k] == RoleOf(media, k, repeats)
    requires i < j < |media| && roles[i].Unique? && roles[j].Unique? && width > 30 && height > 30
    requires IsMarked(a, original, width, height, roles[i].variant)
    requires IsMarked(b, original, width, height, roles[j].variant)
    ensures !Alike(a, b, width, height)
  {
    hide IsMarked, Pow2, Decode;
    VariantsDiffer(media, repeats, i, j);
    MediaAtMost(media, i);
    MediaAtMost(media, j);
    DecodesToVariant(a, original, width, height, roles[i].variant);
    DecodesToVariant(b, original, width, height, roles[j].variant);
    assert Decode(a) != Decode(b);
    if Alike(a, b, width, height) { AlikeDecodesAlike(a, b, width, height); }
  }

  lemma AlikeDecodesAlike(a: (nat, nat) -> Color, b: (nat, nat) -> Color, width: nat, height: nat)
    requires Alike(a, b, width, height) && width > 30 && height > 30
    ensures Decode(a) == Decode(b)
  {
    hide Alike, ReadBit, Number, AnchorX, AnchorY;
    forall k | 0 <= k < 64 ensures ReadBit(a, k) == ReadBit(b, k) {
      LargeImagesShowAll(k, width, height);
      SameBitRead(a, b, width, height, k);
    }
    assert seq(64, k requires k >= 0 => ReadBit(a, k)) == seq(64, k requires k >= 0 => ReadBit(b, k));
  }

  lemma SameBitRead(a: (nat, nat) -> Color, b: (nat, nat) -> Color, width: nat, height: nat, k: nat)
    requires Alike(a, b, width, height) && Shows(k, width, height)
    ensures ReadBit(a, k) == ReadBit(b, k)
  {
  }
}
