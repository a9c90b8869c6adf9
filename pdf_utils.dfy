/** Extraction of embedded diagrams from a PDF (utils/pdfUtils.ts).

    The PDF library is outside the model: a document is given as its pages,
    each page as its operator list and the image objects it resolves by name.
    What is modelled is the data handling around the library: picking the
    image operators, dropping small images, and expanding the three pixel
    formats into the RGBA buffer of a canvas image, in place. */
module PdfUtils {
  import opened Types

  type byte = bv8

  /** `pdfjs.OPS.paintImageXObject` */
  const PaintImageXObject: int := 85

  /** Images narrower or lower than this many pixels are icons, bullets or rules. */
  const MinDimension: int := 50

  /** The `ImageKind` constants of the fallback table. */
  const Grayscale1Bpp: int := 1
  const Rgb: int := 2
  const Rgba: int := 3

  /** One entry of a page's operator list: the operator code and its first argument. */
  datatype Operator = Operator(fn: int, firstArg: string)

  /** An image object as the library decodes it. */
  datatype ImageObject = ImageObject(width: int, height: int, kind: int, data: seq<byte>)

  /** What `page.objs.get(name)` gives: nothing usable (no object or no
      data), an image, or an exception. */
  datatype Lookup = Unavailable | Resolved(img: ImageObject) | LookupError

  /** A page whose operator list was read, or one whose loading threw. */
  datatype Page = Page(ops: seq<Operator>, objs: map<string, Lookup>) | PageError

  /** A document the library could open, or one it could not. */
  datatype PdfDocument = Unreadable | Document(pages: seq<Page>)

  /** The canvas image pushed to the output: its size and its RGBA pixels
      (the PNG data URL the canvas encodes them to is not modelled). */
  datatype RenderedImage = RenderedImage(width: nat, height: nat, pixels: seq<byte>)

  // ---------------------------------------------------------------------
  // Operator-name filter

  /** The name one operator contributes: its first argument when it paints
      an image, nothing otherwise. */
  function NameOf(op: Operator): seq<string>
  {
    if op.fn == PaintImageXObject then [op.firstArg] else []
  }

  /** The names painted by `paintImageXObject`, in operator order. */
  function ImageNames(ops: seq<Operator>): seq<string>
  {
    ConcatMap(NameOf, ops)
  }

  /** A name is collected exactly when some image operator carries it. */
  lemma {:induction false} ImageNamesMember(ops: seq<Operator>, x: string)
    ensures x in ImageNames(ops) <==>
            exists i :: 0 <= i < |ops| && ops[i].fn == PaintImageXObject && ops[i].firstArg == x
    decreases |ops|
  {
    if ops != [] {
      var n := |ops| - 1;
      var init := ops[..n];
      ImageNamesMember(init, x);
      assert ImageNames(ops) == ImageNames(init) + NameOf(ops[n]);
      if exists i :: 0 <= i < |init| && init[i].fn == PaintImageXObject && init[i].firstArg == x {
        var i :| 0 <= i < |init| && init[i].fn == PaintImageXObject && init[i].firstArg == x;
        assert ops[i] == init[i];
      }
      if exists i :: 0 <= i < |ops| && ops[i].fn == PaintImageXObject && ops[i].firstArg == x {
        var i :| 0 <= i < |ops| && ops[i].fn == PaintImageXObject && ops[i].firstArg == x;
        if i < n {
          assert init[i] == ops[i];
        }
      }
    }
  }

  /** The `reduce` over the operator list, pushing onto an accumulator. */
  method CollectImageNames(ops: seq<Operator>) returns (names: seq<string>)
    ensures names == ImageNames(ops)
  {
    names := [];
    for index := 0 to |ops|
      invariant names == ImageNames(ops[..index])
    {
      if ops[index].fn == PaintImageXObject {
        names := names + [ops[index].firstArg];
      }
      ConcatMapStep(NameOf, ops, index);
    }
    assert ops[..|ops|] == ops;
  }

  // ---------------------------------------------------------------------
  // Pixel buffers

  /** The buffer after the first |written| bytes were stored over it, the
      stores past its end being dropped. */
  function Overlay(buf: seq<byte>, written: seq<byte>): (r: seq<byte>)
    ensures |r| == |buf|
    ensures forall j :: 0 <= j < |buf| ==> r[j] == if j < |written| then written[j] else buf[j]
  {
    if |written| >= |buf| then written[..|buf|] else written + buf[|written|..]
  }

  /** The zero-filled buffer `createImageData` returns. */
  function Zeros(n: nat): (z: seq<byte>)
    ensures |z| == n && forall j :: 0 <= j < n ==> z[j] == 0
  {
    seq(n, _ => 0)
  }

  /** `(b >> bit) & 1` is set. */
  predicate BitSet(b: byte, bit: nat)
    requires bit < 8
  {
    (b >> bit) & 1 == 1
  }

  /** The eight bits of one source byte in the order the inner loop visits
      them, bit 7 first. */
  function ByteBits(b: byte): (s: seq<bool>)
    ensures |s| == 8
  {
    seq(8, j requires 0 <= j < 8 => BitSet(b, 7 - j))
  }

  /** The bits of 1BPP data in visiting order: byte by byte, most significant first. */
  function Bits(data: seq<byte>): (s: seq<bool>)
    ensures |s| == 8 * |data|
  {
    if data == [] then [] else ByteBits(data[0]) + Bits(data[1..])
  }

  /** The gray level of one 1BPP pixel: black for a set bit, white for a clear one. */
  function Shade(isSet: bool): byte
  {
    if isSet then 0 else 255
  }

  /** One opaque RGBA pixel per bit. */
  function ShadePixels(bits: seq<bool>): (p: seq<byte>)
    ensures |p| == 4 * |bits|
  {
    if bits == [] then [] else [Shade(bits[0]), Shade(bits[0]), Shade(bits[0]), 255] + ShadePixels(bits[1..])
  }

  /** The RGBA expansion of 1-bit grayscale data. */
  function Gray1BppPixels(data: seq<byte>): (p: seq<byte>)
    ensures |p| == 32 * |data|
  {
    ShadePixels(Bits(data))
  }

  /** Bit `bit` of source byte i is visited as bit number 8i + (7 - bit). */
  lemma {:induction false} BitsAt(data: seq<byte>, i: nat, bit: nat)
    requires i < |data| && bit < 8
    ensures Bits(data)[8 * i + (7 - bit)] == BitSet(data[i], bit)
    decreases i
  {
    var s, t := Bits(data), Bits(data[1..]);
    assert s == ByteBits(data[0]) + t;
    if i > 0 {
      BitsAt(data[1..], i - 1, bit);
      assert data[1..][i - 1] == data[i];
      assert s[8 * i + (7 - bit)] == t[8 * (i - 1) + (7 - bit)];
    }
  }

  /** Pixel k of the expansion of a bit sequence is the shade of bit k. */
  lemma {:induction false} ShadePixelsAt(bits: seq<bool>, k: nat)
    requires k < |bits|
    ensures var p, v := ShadePixels(bits), Shade(bits[k]);
            p[4 * k] == v && p[4 * k + 1] == v && p[4 * k + 2] == v && p[4 * k + 3] == 255
    decreases k
  {
    if k > 0 {
      var p, q, e := ShadePixels(bits), ShadePixels(bits[1..]), 4 * (k - 1);
      ShadePixelsAt(bits[1..], k - 1);
      assert bits[1..][k - 1] == bits[k];
      assert p[e + 4] == q[e] && p[e + 5] == q[e + 1] && p[e + 6] == q[e + 2] && p[e + 7] == q[e + 3];
    }
  }

  /** The 1BPP expansion pixel by pixel: bit `bit` of source byte i (7 being
      the most significant) is pixel 8i + (7 - bit), i.e. bytes
      32i + 4(7 - bit) .. 32i + 4(7 - bit) + 3: 0 in R, G and B for a set
      bit, 255 for a clear one, and alpha 255. */
  lemma GrayPixelBytes(data: seq<byte>, i: nat, bit: nat)
    requires i < |data| && bit < 8
    ensures var d := 32 * i + 4 * (7 - bit);
            var v: byte := if BitSet(data[i], bit) then 0 else 255;
            var p := Gray1BppPixels(data);
            d + 3 < |p| && p[d] == v && p[d + 1] == v && p[d + 2] == v && p[d + 3] == 255
  {
    var k := 8 * i + (7 - bit);
    BitsAt(data, i, bit);
    ShadePixelsAt(Bits(data), k);
    assert 4 * k == 32 * i + 4 * (7 - bit);
  }

  /** The source byte at `i`; a read past the end is `undefined`, which the
      clamped RGBA array stores as 0. */
  function ByteOrZero(data: seq<byte>, i: nat): byte
  {
    if i < |data| then data[i] else 0
  }

  /** Pixel k of RGB data: source bytes 3k, 3k+1, 3k+2 and an opaque alpha. */
  function RgbPixel(data: seq<byte>, k: nat): (px: seq<byte>)
    ensures |px| == 4
  {
    [ByteOrZero(data, 3 * k), ByteOrZero(data, 3 * k + 1), ByteOrZero(data, 3 * k + 2), 255]
  }

  /** The pixels from pixel k on, one for each group of up to three source
      bytes that is left. */
  function RgbPixelsFrom(data: seq<byte>, k: nat): seq<byte>
    decreases |data| - 3 * k
  {
    if 3 * k >= |data| then [] else RgbPixel(data, k) + RgbPixelsFrom(data, k + 1)
  }

  /** The RGBA expansion of RGB data, three source bytes at a time. */
  function RgbPixels(data: seq<byte>): seq<byte>
  {
    RgbPixelsFrom(data, 0)
  }

  /** Pixel k sits 4(k - k0) bytes into the pixels from k0 on. */
  lemma {:induction false} RgbPixelsFromAt(data: seq<byte>, k0: nat, k: nat)
    requires k0 <= k && 3 * k < |data|
    ensures var p, e, px := RgbPixelsFrom(data, k0), 4 * (k - k0), RgbPixel(data, k);
            e + 3 < |p| && p[e] == px[0] && p[e + 1] == px[1] && p[e + 2] == px[2] && p[e + 3] == px[3]
    decreases k - k0
  {
    if k0 < k {
      var p, q, e := RgbPixelsFrom(data, k0), RgbPixelsFrom(data, k0 + 1), 4 * (k - k0 - 1);
      RgbPixelsFromAt(data, k0 + 1, k);
      assert p == RgbPixel(data, k0) + q;
      assert 4 * (k - k0) == e + 4;
      assert p[e + 4] == q[e] && p[e + 5] == q[e + 1] && p[e + 6] == q[e + 2] && p[e + 7] == q[e + 3];
    }
  }

  /** The RGB expansion pixel by pixel: pixel k, for every k whose first
      source byte exists, is source bytes 3k, 3k+1, 3k+2 (0 past the end)
      followed by alpha 255. */
  lemma RgbPixelBytes(data: seq<byte>, k: nat)
    requires 3 * k < |data|
    ensures var p := RgbPixels(data);
            4 * k + 3 < |p| && p[4 * k] == ByteOrZero(data, 3 * k) && p[4 * k + 1] == ByteOrZero(data, 3 * k + 1)
            && p[4 * k + 2] == ByteOrZero(data, 3 * k + 2) && p[4 * k + 3] == 255
  {
    RgbPixelsFromAt(data, 0, k);
  }

  /** Once the source is exhausted after k pixels, the pixels from k0 on
      number at most k - k0. */
  lemma {:induction false} RgbPixelsFromBound(data: seq<byte>, k0: nat, k: nat)
    requires k0 <= k && |data| <= 3 * k
    ensures |RgbPixelsFrom(data, k0)| <= 4 * (k - k0)
    decreases k - k0
  {
    if 3 * k0 < |data| {
      RgbPixelsFromBound(data, k0 + 1, k);
    }
  }

  /** Once the source is exhausted after k pixels, the expansion has ended. */
  lemma RgbPixelsBound(data: seq<byte>, k: nat)
    requires |data| <= 3 * k
    ensures |RgbPixels(data)| <= 4 * k
  {
    RgbPixelsFromBound(data, 0, k);
  }

  /** The first `dest` bytes of the buffer hold the expansion `p`, and the
      rest still hold what they held before. */
  predicate WrittenUpTo(rgba: seq<byte>, p: seq<byte>, before: seq<byte>, dest: nat)
    requires dest <= |rgba| == |before| && dest <= |p|
  {
    (forall j :: 0 <= j < dest ==> rgba[j] == p[j])
    && (forall j :: dest <= j < |rgba| ==> rgba[j] == before[j])
  }

  /** Four consecutive stores `rgba[dest++] = …`: one RGBA pixel. */
  method StorePixel(rgba: array<byte>, dest: nat, r: byte, g: byte, b: byte, a: byte)
    requires dest + 4 <= rgba.Length
    modifies rgba
    ensures rgba[..] == old(rgba[..])[dest := r][dest + 1 := g][dest + 2 := b][dest + 3 := a]
  {
    rgba[dest] := r;
    rgba[dest + 1] := g;
    rgba[dest + 2] := b;
    rgba[dest + 3] := a;
  }

  /** Storing the next pixel of `p` at `dest` extends the written prefix by four. */
  lemma WrittenStep(prev: seq<byte>, p: seq<byte>, before: seq<byte>, dest: nat)
    requires dest + 4 <= |prev| == |before| && dest + 4 <= |p|
    requires WrittenUpTo(prev, p, before, dest)
    ensures WrittenUpTo(prev[dest := p[dest]][dest + 1 := p[dest + 1]][dest + 2 := p[dest + 2]][dest + 3 := p[dest + 3]],
                        p, before, dest + 4)
  {
  }

  /** Once the expansion or the buffer is used up, the buffer is the
      expansion laid over its old contents. */
  lemma WrittenAll(rgba: seq<byte>, p: seq<byte>, before: seq<byte>, dest: nat)
    requires dest <= |rgba| == |before| && dest <= |p|
    requires WrittenUpTo(rgba, p, before, dest)
    requires dest == |p| || dest == |rgba|
    ensures rgba == Overlay(before, p)
  {
  }

  /** One iteration of the inner 1BPP loop that has room: the shade of bit
      `bit` of byte i, three times, and an opaque alpha stored at dest..dest+3. */
  method ExpandBit(data: seq<byte>, i: nat, bit: nat, val: byte, rgba: array<byte>, dest: nat,
                   ghost before: seq<byte>)
    requires i < |data| && bit < 8 && val == (if BitSet(data[i], bit) then 0 else 255)
    requires dest == 32 * i + 4 * (7 - bit) && dest + 4 <= rgba.Length == |before|
    requires dest <= |Gray1BppPixels(data)| && WrittenUpTo(rgba[..], Gray1BppPixels(data), before, dest)
    modifies rgba
    ensures dest + 4 <= |Gray1BppPixels(data)| && WrittenUpTo(rgba[..], Gray1BppPixels(data), before, dest + 4)
  {
    GrayPixelBytes(data, i, bit);
    WrittenStep(rgba[..], Gray1BppPixels(data), before, dest);
    StorePixel(rgba, dest, val, val, val, 255);
  }

  /** The inner loop of the 1BPP branch: the eight bits of source byte i,
      most significant first, each written as one pixel while there is room. */
  method ExpandByte(data: seq<byte>, i: nat, rgba: array<byte>, dest0: nat, ghost before: seq<byte>)
    returns (dest: nat)
    requires i < |data| && rgba.Length % 4 == 0 && |before| == rgba.Length
    requires dest0 == if 32 * i < rgba.Length then 32 * i else rgba.Length
    requires WrittenUpTo(rgba[..], Gray1BppPixels(data), before, dest0)
    modifies rgba
    ensures dest == if 32 * (i + 1) < rgba.Length then 32 * (i + 1) else rgba.Length
    ensures WrittenUpTo(rgba[..], Gray1BppPixels(data), before, dest)
  {
    ghost var p := Gray1BppPixels(data);
    var n := rgba.Length;
    ghost var m := n / 4;
    assert n == 4 * m;
    var b := data[i];
    dest := dest0;
    ghost var q := if 8 * i < m then 8 * i else m;
    var bit := 7;
    while bit >= 0
      invariant -1 <= bit <= 7
      invariant q == if 8 * i + (7 - bit) < m then 8 * i + (7 - bit) else m
      invariant dest == 4 * q
      invariant WrittenUpTo(rgba[..], p, before, dest)
    {
      var val: byte := if BitSet(b, bit) then 0 else 255;
      if dest < n {
        ExpandBit(data, i, bit, val, rgba, dest, before);
        dest, q := dest + 4, q + 1;
      }
      bit := bit - 1;
    }
  }

  /** The 1BPP branch: each source bit, most significant first, becomes
      one RGBA pixel while the destination has room. */
  method Expand1Bpp(data: seq<byte>, rgba: array<byte>)
    requires rgba.Length % 4 == 0
    modifies rgba
    ensures rgba[..] == Overlay(old(rgba[..]), Gray1BppPixels(data))
  {
    ghost var before := rgba[..];
    var n := rgba.Length;
    var dest := 0;
    for i := 0 to |data|
      invariant dest == if 32 * i < n then 32 * i else n
      invariant WrittenUpTo(rgba[..], Gray1BppPixels(data), before, dest)
    {
      dest := ExpandByte(data, i, rgba, dest, before);
    }
  }

  /** One iteration of the RGB loop: source bytes src..src+2 and an opaque
      alpha stored at dest..dest+3. */
  method ExpandRgbPixel(data: seq<byte>, src: nat, rgba: array<byte>, dest: nat, ghost before: seq<byte>)
    requires src < |data| && src * 4 == dest * 3 && dest % 4 == 0 && dest + 4 <= rgba.Length == |before|
    requires dest <= |RgbPixels(data)| && WrittenUpTo(rgba[..], RgbPixels(data), before, dest)
    modifies rgba
    ensures dest + 4 <= |RgbPixels(data)| && WrittenUpTo(rgba[..], RgbPixels(data), before, dest + 4)
  {
    ghost var k := dest / 4;
    assert src == 3 * k && dest == 4 * k;
    RgbPixelBytes(data, k);
    WrittenStep(rgba[..], RgbPixels(data), before, dest);
    StorePixel(rgba, dest, ByteOrZero(data, src), ByteOrZero(data, src + 1), ByteOrZero(data, src + 2), 255);
  }

  /** The RGB branch: three source bytes and an opaque alpha per pixel, until
      the source or the destination is exhausted. */
  method ExpandRgb(data: seq<byte>, rgba: array<byte>)
    requires rgba.Length % 4 == 0
    modifies rgba
    ensures rgba[..] == Overlay(old(rgba[..]), RgbPixels(data))
  {
    ghost var before := rgba[..];
    ghost var p := RgbPixels(data);
    var n := rgba.Length;
    ghost var m := n / 4;
    assert n == 4 * m;
    var src, dest := 0, 0;
    ghost var k := 0;
    while src < |data| && dest < n
      invariant src == 3 * k && dest == 4 * k && k <= m
      invariant dest <= |p|
      invariant WrittenUpTo(rgba[..], p, before, dest)
      decreases m - k
    {
      ExpandRgbPixel(data, src, rgba, dest, before);
      src, dest, k := src + 3, dest + 4, k + 1;
    }
    if src >= |data| {
      RgbPixelsBound(data, k);
    }
    WrittenAll(rgba[..], p, before, dest);
  }

  /** The RGBA branch, `imageData.data.set(img.data)`: a verbatim copy, which
      throws when the source is longer than the destination. */
  method CopyRgba(data: seq<byte>, rgba: array<byte>) returns (ok: bool)
    modifies rgba
    ensures ok == (|data| <= rgba.Length)
    ensures ok ==> rgba[..] == Overlay(old(rgba[..]), data)
    ensures !ok ==> rgba[..] == old(rgba[..])
  {
    ok := |data| <= rgba.Length;
    if ok {
      forall j | 0 <= j < |data| {
        rgba[j] := data[j];
      }
    }
  }

  // ---------------------------------------------------------------------
  // One image

  /** The image an image object yields, if any: none for a small image, an
      unknown kind or an RGBA copy that throws; otherwise a zero-filled
      width x height canvas with the expanded pixels stored over it. */
  function Render(img: ImageObject): (r: Option<RenderedImage>)
    ensures img.width < MinDimension || img.height < MinDimension ==> r == None
    ensures img.kind != Grayscale1Bpp && img.kind != Rgb && img.kind != Rgba ==> r == None
    ensures r.Some? ==> r.value.width == img.width && r.value.height == img.height
                        && |r.value.pixels| == 4 * (img.width * img.height)
    ensures r.Some? && img.kind == Grayscale1Bpp ==>
              forall j :: 32 * |img.data| <= j < |r.value.pixels| ==> r.value.pixels[j] == 0
    ensures r.Some? && img.kind == Rgb ==>
              forall j :: |RgbPixels(img.data)| <= j < |r.value.pixels| ==> r.value.pixels[j] == 0
  {
    if img.width < MinDimension || img.height < MinDimension then None
    else
      var blank := Zeros(4 * (img.width * img.height));
      if img.kind == Grayscale1Bpp then
        Some(RenderedImage(img.width, img.height, Overlay(blank, Gray1BppPixels(img.data))))
      else if img.kind == Rgb then
        Some(RenderedImage(img.width, img.height, Overlay(blank, RgbPixels(img.data))))
      else if img.kind == Rgba && |img.data| <= |blank| then
        Some(RenderedImage(img.width, img.height, Overlay(blank, img.data)))
      else None
  }

  /** A 1BPP image of at least the minimum size renders, and the pixel of
      bit `bit` of source byte i is stored at bytes 32i + 4(7 - bit) .. +3
      whenever it fits in the canvas. */
  lemma Gray1BppRendered(img: ImageObject, i: nat, bit: nat)
    requires img.width >= MinDimension && img.height >= MinDimension
    requires img.kind == Grayscale1Bpp
    requires i < |img.data| && bit < 8
    requires 32 * i + 4 * (7 - bit) + 4 <= 4 * (img.width * img.height)
    ensures Render(img).Some?
    ensures var px, d := Render(img).value.pixels, 32 * i + 4 * (7 - bit);
            var v: byte := if BitSet(img.data[i], bit) then 0 else 255;
            px[d] == v && px[d + 1] == v && px[d + 2] == v && px[d + 3] == 255
  {
    GrayPixelBytes(img.data, i, bit);
  }

  /** An RGB image of at least the minimum size renders, and pixel k takes
      source bytes 3k..3k+2 and an opaque alpha whenever its first source
      byte exists and it fits in the canvas. */
  lemma RgbRendered(img: ImageObject, k: nat)
    requires img.width >= MinDimension && img.height >= MinDimension
    requires img.kind == Rgb
    requires 3 * k < |img.data| && 4 * k + 4 <= 4 * (img.width * img.height)
    ensures Render(img).Some?
    ensures var px := Render(img).value.pixels;
            px[4 * k] == ByteOrZero(img.data, 3 * k) && px[4 * k + 1] == ByteOrZero(img.data, 3 * k + 1)
            && px[4 * k + 2] == ByteOrZero(img.data, 3 * k + 2) && px[4 * k + 3] == 255
  {
    RgbPixelBytes(img.data, k);
  }

  /** An RGBA image of at least the minimum size renders with its data as
      the canvas prefix and zeros after it when the data fits; when it does
      not, `set` throws and the image is skipped. */
  lemma RgbaRendered(img: ImageObject)
    requires img.width >= MinDimension && img.height >= MinDimension
    requires img.kind == Rgba
    ensures Render(img).Some? <==> |img.data| <= 4 * (img.width * img.height)
    ensures Render(img).Some? ==>
              var px := Render(img).value.pixels;
              px[..|img.data|] == img.data && forall j :: |img.data| <= j < |px| ==> px[j] == 0
  {
  }

  /** The `ImageKind` table the kind test reads: entry None is a key the
      table lacks, which reads as `undefined` and matches no numeric kind. */
  datatype KindTable = KindTable(gray1bpp: Option<int>, rgb: Option<int>, rgba: Option<int>)

  /** The fallback table, used only when the library exports no `ImageKind`. */
  const FallbackKinds := KindTable(Some(Grayscale1Bpp), Some(Rgb), Some(Rgba))

  /** The table pdf.js exports itself: its keys are GRAYSCALE_1BPP,
      RGB_24BPP and RGBA_32BPP, so `ImageKind.RGB` and `ImageKind.RGBA` are
      undefined. */
  const LibraryKinds := KindTable(Some(1), None, None)

  predicate KindIs(kind: int, entry: Option<int>)
  {
    entry.Some? && entry.value == kind
  }

  /** The conversion as written, against whichever kind table is in force. */
  function RenderWithKinds(kinds: KindTable, img: ImageObject): (r: Option<RenderedImage>)
    ensures kinds == FallbackKinds ==> r == Render(img)
    ensures r.Some? ==> KindIs(img.kind, kinds.gray1bpp) || KindIs(img.kind, kinds.rgb) || KindIs(img.kind, kinds.rgba)
  {
    if img.width < MinDimension || img.height < MinDimension then None
    else
      var blank := Zeros(4 * (img.width * img.height));
      if KindIs(img.kind, kinds.gray1bpp) then
        Some(RenderedImage(img.width, img.height, Overlay(blank, Gray1BppPixels(img.data))))
      else if KindIs(img.kind, kinds.rgb) then
        Some(RenderedImage(img.width, img.height, Overlay(blank, RgbPixels(img.data))))
      else if KindIs(img.kind, kinds.rgba) && |img.data| <= |blank| then
        Some(RenderedImage(img.width, img.height, Overlay(blank, img.data)))
      else None
  }

  /** With the library's own table in force, every RGB image is skipped,
      although the fallback table the code spells out converts it. */
  lemma LibraryKindsSkipRgb(img: ImageObject)
    requires img.width >= MinDimension && img.height >= MinDimension
    requires img.kind == Rgb
    ensures RenderWithKinds(LibraryKinds, img) == None
    ensures Render(img).Some?
  {
  }

  /** Draw one image object onto a fresh canvas image and read it back. */
  method ConvertImage(img: ImageObject) returns (r: Option<RenderedImage>)
    ensures r == Render(img)
  {
    if img.width < MinDimension || img.height < MinDimension {
      return None;
    }
    var size := 4 * (img.width * img.height);
    var rgba := new byte[size](_ => 0);
    assert rgba[..] == Zeros(size);
    if img.kind == Grayscale1Bpp {
      Expand1Bpp(img.data, rgba);
    } else if img.kind == Rgb {
      ExpandRgb(img.data, rgba);
    } else if img.kind == Rgba {
      var ok := CopyRgba(img.data, rgba);
      if !ok {
        return None;
      }
    } else {
      return None;
    }
    r := Some(RenderedImage(img.width, img.height, rgba[..]));
  }

  // ---------------------------------------------------------------------
  // Pages and documents

  /** The images one image name contributes: one if its object resolves and
      renders, none if it is unusable, skipped or its lookup throws. */
  function NameImages(objs: map<string, Lookup>, name: string): seq<RenderedImage>
  {
    if name !in objs then []
    else match objs[name]
      case Resolved(img) => (match Render(img) case Some(r) => [r] case None => [])
      case _ => []
  }

  function NamesImages(objs: map<string, Lookup>, names: seq<string>): seq<RenderedImage>
  {
    ConcatMap(name => NameImages(objs, name), names)
  }

  /** The images of a page, in operator order (a page that failed to load
      is never reached: the whole extraction is abandoned before it). */
  function PageImages(page: Page): seq<RenderedImage>
  {
    match page
    case PageError => []
    case Page(ops, objs) => NamesImages(objs, ImageNames(ops))
  }

  function PagesImages(pages: seq<Page>): seq<RenderedImage>
  {
    ConcatMap(PageImages, pages)
  }

  /** What extraction returns for a document: every page's images in page
      order, or nothing at all when the document or any page fails. */
  function ExtractedImages(doc: PdfDocument): seq<RenderedImage>
  {
    match doc
    case Unreadable => []
    case Document(pages) =>
      if forall i :: 0 <= i < |pages| ==> pages[i].Page? then PagesImages(pages) else []
  }

  /** Per-image isolation: the images of a list of names are those of each
      name on its own, in order, so a failing lookup removes only its own. */
  lemma NamesImagesAppend(objs: map<string, Lookup>, a: seq<string>, b: seq<string>)
    ensures NamesImages(objs, a + b) == NamesImages(objs, a) + NamesImages(objs, b)
  {
    ConcatMapAppend(name => NameImages(objs, name), a, b);
  }

  lemma FailedLookupContributesNothing(objs: map<string, Lookup>, a: seq<string>, x: string, b: seq<string>)
    requires x !in objs || objs[x].LookupError? || objs[x].Unavailable?
    ensures NamesImages(objs, a + [x] + b) == NamesImages(objs, a) + NamesImages(objs, b)
  {
    NamesImagesAppend(objs, a + [x], b);
    NamesImagesAppend(objs, a, [x]);
    assert [x][..0] == [];
    assert NamesImages(objs, [x]) == NameImages(objs, x) == [];
  }

  /** Page order: the images of two runs of pages are those of the first
      run followed by those of the second. */
  lemma PagesImagesAppend(a: seq<Page>, b: seq<Page>)
    ensures PagesImages(a + b) == PagesImages(a) + PagesImages(b)
  {
    ConcatMapAppend(PageImages, a, b);
  }

  /** A document with a failing page yields no image, whatever its other pages hold. */
  lemma PageErrorYieldsNothing(pages: seq<Page>, i: nat)
    requires i < |pages| && pages[i].PageError?
    ensures ExtractedImages(Document(pages)) == []
  {
  }

  /** One more name of the page's list adds that name's images. */
  lemma NamesImagesStep(objs: map<string, Lookup>, names: seq<string>, n: nat)
    requires n < |names|
    ensures NamesImages(objs, names[..n + 1]) == NamesImages(objs, names[..n]) + NameImages(objs, names[n])
  {
    ConcatMapStep(name => NameImages(objs, name), names, n);
  }

  /** One more page adds that page's images. */
  lemma PagesImagesStep(pages: seq<Page>, n: nat)
    requires n < |pages|
    ensures PagesImages(pages[..n + 1]) == PagesImages(pages[..n]) + PageImages(pages[n])
  {
    ConcatMapStep(PageImages, pages, n);
  }

  /** A document whose pages all load yields the images of all its pages. */
  lemma AllPagesLoaded(pages: seq<Page>)
    requires forall i :: 0 <= i < |pages| ==> pages[i].Page?
    ensures ExtractedImages(Document(pages)) == PagesImages(pages)
  {
  }

  /** The body of the inner loop: push the image of one name, if its object
      resolves and renders; a name whose lookup fails is skipped. */
  method PushNameImages(images: seq<RenderedImage>, objs: map<string, Lookup>, name: string)
    returns (out: seq<RenderedImage>)
    ensures out == images + NameImages(objs, name)
  {
    out := images;
    if name in objs && objs[name].Resolved? {
      var r := ConvertImage(objs[name].img);
      if r.Some? {
        out := out + [r.value];
      }
    }
  }

  /** The body of the page loop: push the images of one page's image
      operators onto `images`, skipping any image whose handling fails. */
  method PushPageImages(images: seq<RenderedImage>, page: Page) returns (out: seq<RenderedImage>)
    requires page.Page?
    ensures out == images + PageImages(page)
  {
    out := images;
    var imageNames := CollectImageNames(page.ops);
    for n := 0 to |imageNames|
      invariant out == images + NamesImages(page.objs, imageNames[..n])
    {
      NamesImagesStep(page.objs, imageNames, n);
      out := PushNameImages(out, page.objs, imageNames[n]);
    }
    assert imageNames[..|imageNames|] == imageNames;
  }

  /** Pages are visited 1..numPages in order; a failing page abandons the
      whole extraction, a failing image only itself. */
  method ExtractImagesFromPdf(doc: PdfDocument) returns (images: seq<RenderedImage>)
    ensures images == ExtractedImages(doc)
  {
    if doc.Unreadable? {
      return [];
    }
    var pages := doc.pages;
    images := [];
    for pageNum := 0 to |pages|
      invariant forall i :: 0 <= i < pageNum ==> pages[i].Page?
      invariant images == PagesImages(pages[..pageNum])
    {
      var page := pages[pageNum];
      if page.PageError? {
        PageErrorYieldsNothing(pages, pageNum);
        return [];
      }
      PagesImagesStep(pages, pageNum);
      images := PushPageImages(images, page);
    }
    assert pages[..|pages|] == pages;
    AllPagesLoaded(pages);
  }
}
