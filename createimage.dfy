/** The image loader: a decoded picture becomes an RGBA byte buffer, and
    buffers are combined into a texture array or the six faces of a cube map.
    The decoder is not modelled: its result, already converted to 32-bit BGRA
    scanlines, is an input (None when the file fails to load). */
module CreateImage {
  import opened Common

  /** A decoded 32-bit picture: its size in pixels and its scanlines, each
      holding at least four bytes (blue, green, red, alpha) per pixel. */
  datatype Image = Image(width: nat, height: nat, lines: seq<seq<byte>>)

  /** What the decoder guarantees after the conversion to 32 bits: one
      scanline per row, each at least width * 4 bytes long. */
  predicate WellFormed(img: Image)
  {
    |img.lines| == img.height &&
    forall y :: 0 <= y < |img.lines| ==> |img.lines[y]| >= img.width * 4
  }

  /** A decoded picture as the decoder hands it over. */
  type Picture = img: Image | WellFormed(img) witness Image(0, 0, [])

  /** One BGRA pixel at byte offset x of a scanline, written as RGBA; a
      pixel whose alpha is 0 is written as four zero bytes. */
  function Swizzled(scan: seq<byte>, x: nat): (p: seq<byte>)
    requires x + 4 <= |scan|
    ensures |p| == 4 && p[3] == scan[x + 3]
    ensures scan[x + 3] == 0 ==> p[0] == 0 && p[1] == 0 && p[2] == 0
    ensures scan[x + 3] != 0 ==> p[0] == scan[x + 2] && p[1] == scan[x + 1] && p[2] == scan[x]
  {
    if scan[x + 3] == 0 then [0, 0, 0, 0]
    else [scan[x + 2], scan[x + 1], scan[x], scan[x + 3]]
  }

  /** The converted bytes of the first n pixels of a scanline. */
  function RowBytes(scan: seq<byte>, n: nat): (r: seq<byte>)
    requires 4 * n <= |scan|
    ensures |r| == 4 * n
  {
    if n == 0 then [] else RowBytes(scan, n - 1) + Swizzled(scan, 4 * (n - 1))
  }

  /** The converted bytes of the scanlines, w pixels of each, first
      scanline first. */
  function Converted(lines: seq<seq<byte>>, w: nat): seq<byte>
    requires forall y :: 0 <= y < |lines| ==> |lines[y]| >= 4 * w
  {
    if |lines| == 0 then []
    else Converted(lines[..|lines| - 1], w) + RowBytes(lines[|lines| - 1], w)
  }

  /** The RGBA buffer of a picture. */
  function Rgba(img: Picture): seq<byte>
  {
    Converted(img.lines, img.width)
  }

  /** Byte c of pixel p of a converted scanline is byte c of that pixel swizzled. */
  lemma {:induction false} RowBytesAt(scan: seq<byte>, n: nat, p: nat, c: nat)
    requires 4 * n <= |scan|
    requires p < n && c < 4
    ensures RowBytes(scan, n)[4 * p + c] == Swizzled(scan, 4 * p)[c]
  {
    if p < n - 1 {
      RowBytesAt(scan, n - 1, p, c);
    }
  }

  /** y < h rows of q bytes end no later than h rows do. */
  lemma RowsFit(y: nat, h: nat, q: nat)
    requires y < h
    ensures y * q + q <= h * q
    decreases h - y
  {
    MulStep(y, q);
    if y + 1 < h {
      RowsFit(y + 1, h, q);
      MulStep(y + 1, q);
    }
  }

  lemma {:induction false} ConvertedLength(lines: seq<seq<byte>>, w: nat)
    requires forall y :: 0 <= y < |lines| ==> |lines[y]| >= 4 * w
    ensures |Converted(lines, w)| == |lines| * (4 * w)
  {
    if |lines| > 0 {
      ConvertedLength(lines[..|lines| - 1], w);
      MulStep(|lines| - 1, 4 * w);
    }
  }

  /** Byte j of scanline y sits at offset y * 4w + j of the buffer: the
      scanlines are laid out first to last, with no vertical flip. */
  lemma {:induction false} ConvertedAt(lines: seq<seq<byte>>, w: nat, y: nat, j: nat)
    requires forall k :: 0 <= k < |lines| ==> |lines[k]| >= 4 * w
    requires y < |lines| && j < 4 * w
    ensures y * (4 * w) + j < |Converted(lines, w)|
    ensures Converted(lines, w)[y * (4 * w) + j] == RowBytes(lines[y], w)[j]
  {
    ConvertedLength(lines, w);
    RowsFit(y, |lines|, 4 * w);
    var n := |lines| - 1;
    ConvertedLength(lines[..n], w);
    if y < n {
      RowsFit(y, n, 4 * w);
      ConvertedAt(lines[..n], w, y, j);
    }
  }

  lemma RgbaLength(img: Picture)
    ensures |Rgba(img)| == img.width * img.height * 4
  {
    ConvertedLength(img.lines, img.width);
    assert img.height * (4 * img.width) == img.width * img.height * 4;
  }

  lemma PixelOffset(y: nat, w: nat, p: nat, c: nat)
    ensures (y * w + p) * 4 + c == y * (4 * w) + (4 * p + c)
  {
  }

  /** The RGBA buffer holds width * height * 4 bytes, and bytes 4k .. 4k+3
      with k = y * width + p are pixel p of scanline y swizzled. */
  lemma RgbaLayout(img: Picture, y: nat, p: nat, c: nat)
    requires y < img.height && p < img.width && c < 4
    ensures |Rgba(img)| == img.width * img.height * 4
    ensures (y * img.width + p) * 4 + c < |Rgba(img)|
    ensures Rgba(img)[(y * img.width + p) * 4 + c] == Swizzled(img.lines[y], 4 * p)[c]
  {
    RgbaLength(img);
    PixelOffset(y, img.width, p, c);
    ConvertedAt(img.lines, img.width, y, 4 * p + c);
    RowBytesAt(img.lines[y], img.width, p, c);
  }

  /** The converted bytes of a prefix of the scanlines are a prefix of
      the buffer, and one more scanline still fits in it. */
  lemma {:induction false} ConvertedPrefix(lines: seq<seq<byte>>, w: nat, y: nat)
    requires forall k :: 0 <= k < |lines| ==> |lines[k]| >= 4 * w
    requires y < |lines|
    ensures |Converted(lines[..y], w)| + 4 * w <= |Converted(lines, w)|
    decreases |lines|
  {
    var n := |lines| - 1;
    assert lines[..n][..y] == lines[..y];
    if y < n {
      ConvertedPrefix(lines[..n], w, y);
    } else {
      assert lines[..y] == lines[..n];
    }
  }

  /** One pixel of the conversion loop: red, green, blue and alpha are
      written at the counter, then the colour of a transparent pixel is
      zeroed. */
  method WritePixel(a: array<byte>, at: nat, scan: seq<byte>, x: nat)
    requires at + 4 <= a.Length && x + 4 <= |scan|
    modifies a
    ensures a[..at + 4] == old(a[..at]) + Swizzled(scan, x)
  {
    a[at] := scan[x + 2];
    a[at + 1] := scan[x + 1];
    a[at + 2] := scan[x];
    a[at + 3] := scan[x + 3];
    if a[at + 3] == 0 {
      a[at] := 0;
      a[at + 1] := 0;
      a[at + 2] := 0;
    }
  }

  /** The inner loop of the conversion: the pixels of one scanline, four
      bytes at a time, behind the counter's guard against the buffer size. */
  method FillRow(a: array<byte>, start: nat, scan: seq<byte>, w: nat, size: nat)
    returns (counter: nat)
    requires start + 4 * w <= a.Length == size && 4 * w <= |scan|
    modifies a
    ensures counter == start + 4 * w
    ensures a[..counter] == old(a[..start]) + RowBytes(scan, w)
  {
    ghost var done := a[..start];
    var line := w * 4;
    counter := start;
    var x := 0;
    ghost var k := 0;
    while x < line
      invariant 0 <= k <= w && x == 4 * k
      invariant counter == start + x
      invariant a[..counter] == done + RowBytes(scan, k)
    {
      if counter <= size {
        WritePixel(a, counter, scan, x);
        counter := counter + 4;
      }
      x := x + 4;
      k := k + 1;
    }
  }

  /** The conversion loop of setImage: every scanline, first to last, is
      converted behind a running counter. */
  method FillPixels(a: array<byte>, img: Picture)
    requires a.Length == img.width * img.height * 4
    modifies a
    ensures a[..] == Rgba(img)
  {
    var size := img.width * img.height * 4;
    RgbaLength(img);
    FillLines(a, img.lines, img.width, size);
  }

  /** The scanline loop of FillPixels over the buffer that holds exactly the
      converted scanlines. */
  method FillLines(a: array<byte>, lines: seq<seq<byte>>, w: nat, size: nat)
    requires forall k :: 0 <= k < |lines| ==> |lines[k]| >= 4 * w
    requires a.Length == size == |Converted(lines, w)|
    modifies a
    ensures a[..] == Converted(lines, w)
  {
    var counter: nat := 0;
    var y := 0;
    while y < |lines|
      invariant 0 <= y <= |lines|
      invariant counter == |Converted(lines[..y], w)| <= a.Length
      invariant a[..counter] == Converted(lines[..y], w)
    {
      ConvertedPrefix(lines, w, y);
      counter := FillRow(a, counter, lines[y], w, size);
      assert lines[..y + 1][..y] == lines[..y];
      y := y + 1;
    }
    assert lines[..|lines|] == lines;
    assert a[..] == a[..counter];
  }

  /** One face of the cube map as uploaded: the face offset from
      POSITIVE_X, the size and the RGBA buffer. */
  datatype FaceUpload = FaceUpload(face: nat, width: nat, height: nat, data: seq<byte>)

  /** The upload of face i from a picture. */
  function Face(i: nat, img: Picture): FaceUpload
  {
    FaceUpload(i, img.width, img.height, Rgba(img))
  }

  /** Face i of the cube map was uploaded from file 5 - i. */
  predicate Uploaded(files: seq<Option<Picture>>, faces: seq<FaceUpload>, i: nat)
    requires |files| == 6 && i < |faces| && i < 6
  {
    files[5 - i].Some? && faces[i] == Face(i, files[5 - i].value)
  }

  /** The picture whose buffer is current after loading the first i + 1
      files of a texture array: a file that fails to load leaves the
      previous picture in place. */
  function Current(files: seq<Option<Picture>>, i: nat): Picture
    requires i < |files| && files[0].Some?
  {
    if i == 0 then files[0].value
    else if files[i].Some? then files[i].value
    else Current(files, i - 1)
  }

  /** The buffer each of the first n files contributes to a texture array. */
  function Buffers(files: seq<Option<Picture>>, n: nat): (b: seq<seq<byte>>)
    requires n <= |files| && (n > 0 ==> files[0].Some?)
    ensures |b| == n
  {
    if n == 0 then [] else Buffers(files, n - 1) + [Rgba(Current(files, n - 1))]
  }

  /** When every file loads, layer i is that file's own buffer. */
  lemma BuffersAllLoaded(files: seq<Option<Picture>>, n: nat, i: nat)
    requires i < n <= |files|
    requires forall k :: 0 <= k < |files| ==> files[k].Some?
    ensures Buffers(files, n)[i] == Rgba(files[i].value)
  {
    if i < n - 1 {
      BuffersAllLoaded(files, n - 1, i);
    }
  }

  /** A file that fails to load repeats the layer before it. */
  lemma BuffersRepeat(files: seq<Option<Picture>>, n: nat, i: nat)
    requires 0 < i < n <= |files| && files[0].Some?
    requires files[i].None?
    ensures Buffers(files, n)[i] == Buffers(files, n)[i - 1]
  {
    BuffersAt(files, n, i);
    BuffersAt(files, n, i - 1);
  }

  lemma {:induction false} BuffersAt(files: seq<Option<Picture>>, n: nat, i: nat)
    requires i < n <= |files| && files[0].Some?
    ensures Buffers(files, n)[i] == Rgba(Current(files, i))
  {
    if i < n - 1 {
      BuffersAt(files, n - 1, i);
    }
  }

  /** The bytes of a sequence of buffers laid end to end. */
  function Concat(bufs: seq<seq<byte>>): seq<byte>
  {
    if |bufs| == 0 then [] else Concat(bufs[..|bufs| - 1]) + bufs[|bufs| - 1]
  }

  /** One more file appends its current buffer to the array. */
  lemma BuffersStep(files: seq<Option<Picture>>, i: nat)
    requires i < |files| && files[0].Some?
    ensures Concat(Buffers(files, i + 1)) == Concat(Buffers(files, i)) + Rgba(Current(files, i))
  {
    var b := Buffers(files, i + 1);
    assert b[..i] == Buffers(files, i);
  }


  /** The concatenation of a prefix of the buffers is a prefix of the whole. */
  lemma {:induction false} ConcatPrefix(bufs: seq<seq<byte>>, k: nat)
    requires k <= |bufs|
    ensures |Concat(bufs[..k])| <= |Concat(bufs)|
    ensures Concat(bufs)[..|Concat(bufs[..k])|] == Concat(bufs[..k])
    decreases |bufs|
  {
    if k < |bufs| {
      var n := |bufs| - 1;
      assert bufs[..n][..k] == bufs[..k];
      ConcatPrefix(bufs[..n], k);
      var prev := Concat(bufs[..n]);
      assert Concat(bufs)[..|prev|] == prev;
    } else {
      assert bufs[..k] == bufs;
    }
  }

  /** Buffer i follows the buffers before it, whatever their sizes. */
  lemma ConcatAt(bufs: seq<seq<byte>>, i: nat)
    requires i < |bufs|
    ensures |Concat(bufs[..i])| + |bufs[i]| <= |Concat(bufs)|
    ensures Concat(bufs)[|Concat(bufs[..i])| .. |Concat(bufs[..i])| + |bufs[i]|] == bufs[i]
  {
    var all := Concat(bufs);
    var before := Concat(bufs[..i]);
    ConcatPrefix(bufs, i + 1);
    assert bufs[..i + 1][..i] == bufs[..i];
    assert Concat(bufs[..i + 1]) == before + bufs[i];
    var upTo := all[..|before| + |bufs[i]|];
    assert all[|before| .. |before| + |bufs[i]|] == upTo[|before|..];
  }

  lemma {:induction false} ConcatLength(bufs: seq<seq<byte>>, s: nat)
    requires forall k :: 0 <= k < |bufs| ==> |bufs[k]| == s
    ensures |Concat(bufs)| == |bufs| * s
  {
    if |bufs| > 0 {
      ConcatLength(bufs[..|bufs| - 1], s);
      MulStep(|bufs| - 1, s);
    }
  }

  /** For buffers of equal size s, the concatenation holds s * n bytes and
      buffer i occupies bytes i * s .. (i + 1) * s. */
  lemma ConcatUniform(bufs: seq<seq<byte>>, s: nat, i: nat)
    requires forall k :: 0 <= k < |bufs| ==> |bufs[k]| == s
    requires i < |bufs|
    ensures |Concat(bufs)| == |bufs| * s
    ensures i * s + s <= |bufs| * s
    ensures Concat(bufs)[i * s .. i * s + s] == bufs[i]
  {
    ConcatLength(bufs, s);
    ConcatLength(bufs[..i], s);
    RowsFit(i, |bufs|, s);
    ConcatAt(bufs, i);
  }

  /** When every file loads and all the pictures have s bytes, the texture
      array holds s * n bytes and layer i is file i's buffer at bytes
      i * s .. (i + 1) * s. */
  lemma TexArrayUniform(files: seq<Option<Picture>>, s: nat, i: nat)
    requires forall k :: 0 <= k < |files| ==> files[k].Some? && |Rgba(files[k].value)| == s
    requires i < |files|
    ensures |Concat(Buffers(files, |files|))| == |files| * s
    ensures i * s + s <= |files| * s
    ensures Concat(Buffers(files, |files|))[i * s .. i * s + s] == Rgba(files[i].value)
  {
    var bufs := Buffers(files, |files|);
    forall k | 0 <= k < |bufs|
      ensures |bufs[k]| == s
    {
      BuffersAllLoaded(files, |files|, k);
    }
    BuffersAllLoaded(files, |files|, i);
    ConcatUniform(bufs, s, i);
  }

  class ImageLoader {
    var width: nat
    var height: nat
    var size: nat
    /** The RGBA buffer of the last picture loaded. */
    var pixels: array<byte>

    /** The loader starts with no picture; the program leaves the fields
        indeterminate, and the constructor promises nothing about them. */
    constructor()
    {
      pixels := new byte[0];
    }

    /** setImage: a failed load returns false and changes nothing; a
        successful one sets the size fields and fills a new buffer with
        the picture's RGBA bytes. */
    method SetImage(decoded: Option<Picture>) returns (ok: bool)
      modifies this
      ensures ok <==> decoded.Some?
      ensures !ok ==> width == old(width) && height == old(height) && size == old(size)
                      && pixels == old(pixels)
      ensures ok ==> width == decoded.value.width && height == decoded.value.height
                     && size == width * height * 4 && pixels.Length == size
                     && fresh(pixels) && pixels[..] == Rgba(decoded.value)
    {
      if decoded.None? {
        return false;
      }
      var img := decoded.value;
      size := 0;
      width := img.width;
      height := img.height;
      size := width * height * 4;
      pixels := new byte[size];
      FillPixels(pixels, img);
      ok := true;
    }

    /** createSkyBoxTex, given the decoder result of each of the six file
        names in order: face i is loaded from file 5 - i and uploaded;
        the first face that fails to load ends the program, which here is
        a false result with only the faces before it uploaded. */
    method CreateSkyBoxTex(files: seq<Option<Picture>>)
      returns (faces: seq<FaceUpload>, ok: bool)
      requires |files| == 6
      modifies this
      ensures |faces| <= 6 && (ok <==> |faces| == 6)
      ensures forall i :: 0 <= i < |faces| ==> Uploaded(files, faces, i)
      ensures !ok ==> files[5 - |faces|].None?
    {
      faces := [];
      var i := 0;
      while i < 6
        invariant 0 <= i <= 6 && |faces| == i
        invariant forall k :: 0 <= k < i ==> Uploaded(files, faces, k)
      {
        var loaded := SetImage(files[5 - i]);
        if !loaded {
          ok := false;
          return;
        }
        ghost var prev := faces;
        faces := faces + [FaceUpload(i, width, height, pixels[..])];
        assert forall k :: 0 <= k < i ==> Uploaded(files, prev, k) ==> Uploaded(files, faces, k);
        i := i + 1;
      }
      ok := true;
    }

    /** The copy loop of create2DTexArray: appends the current buffer. */
    method AppendPixels(data: seq<byte>) returns (out: seq<byte>)
      requires pixels.Length == size
      ensures out == data + pixels[..]
    {
      out := data;
      var x := 0;
      while x < size
        invariant 0 <= x <= size
        invariant out == data + pixels[..x]
      {
        out := out + [pixels[x]];
        x := x + 1;
      }
    }

    /** The loop of create2DTexArray over the files after the first. */
    method AppendLayers(files: seq<Option<Picture>>, data0: seq<byte>) returns (data: seq<byte>)
      requires |files| > 0 && files[0].Some?
      requires pixels.Length == size && pixels[..] == Rgba(Current(files, 0))
      requires data0 == Concat(Buffers(files, 1))
      modifies this
      ensures data == Concat(Buffers(files, |files|))
    {
      data := data0;
      var i := 1;
      while i < |files|
        invariant 1 <= i <= |files|
        invariant pixels.Length == size
        invariant pixels[..] == Rgba(Current(files, i - 1))
        invariant data == Concat(Buffers(files, i))
      {
        NextLayer(files, i);
        ghost var layer := Rgba(Current(files, i));
        assert pixels[..] == layer;
        data := AppendPixels(data);
        BuffersStep(files, i);
        assert data == Concat(Buffers(files, i)) + layer;
        i := i + 1;
      }
    }

    /** Loading file i, whose result is not checked, makes its picture
        current, or keeps the previous one when it fails. */
    method NextLayer(files: seq<Option<Picture>>, i: nat)
      requires 0 < i < |files| && files[0].Some?
      requires pixels.Length == size && pixels[..] == Rgba(Current(files, i - 1))
      modifies this
      ensures pixels.Length == size && pixels[..] == Rgba(Current(files, i))
    {
      var _ := SetImage(files[i]);
    }

    /** create2DTexArray: when the first file loads, the buffers of all the
        files are concatenated in file order.  The result of loading a later
        file is not checked, so a file that fails repeats the buffer before
        it.  When the first file fails nothing is uploaded. */
    method Create2DTexArray(files: seq<Option<Picture>>)
      returns (ok: bool, data: seq<byte>)
      requires |files| > 0
      modifies this
      ensures ok <==> files[0].Some?
      ensures ok ==> data == Concat(Buffers(files, |files|))
      ensures !ok ==> data == []
    {
      data := [];
      ok := SetImage(files[0]);
      if !ok {
        return;
      }
      data := AppendPixels(data);
      BuffersStep(files, 0);
      data := AppendLayers(files, data);
    }
  }
}
