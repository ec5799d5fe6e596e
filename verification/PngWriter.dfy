/**
 The reference-image writer: RGB scanlines built in place, wrapped in the chunk
 stream that section 5.3 of the W3C PNG Specification lays out.  The compressor and
 the checksum are parameters.
 */
module PngWriter {
  import opened Wrappers
  import opened Utf8

  type Bytes = seq<Byte>

  // --------------------------------------------------------------------- pixels

  /** x * 255 // width stays a byte inside the row. */
  lemma ScaleIsByte(x: nat, width: nat)
    requires x < width
    ensures 0 <= x * 255 / width < 256
  {}

  /** One byte of a scanline: red grows with x, green with y, blue cycles. */
  function Channel(width: nat, height: nat, x: nat, y: nat, c: nat): Byte
    requires x < width && y < height && c < 3
  {
    if c == 0 then ScaleIsByte(x, width); x * 255 / width
    else if c == 1 then ScaleIsByte(y, height); y * 255 / height
    else x * 89 % 256
  }

  lemma InRow(i: nat, width: nat)
    requires i < 3 * width
    ensures i / 3 < width
  {}

  function PixelRow(width: nat, height: nat, y: nat): Bytes
    requires y < height
  {
    seq(3 * width, i requires 0 <= i < 3 * width => InRow(i, width); Channel(width, height, i / 3, y, i % 3))
  }

  /** Filter byte 0, then the pixels. */
  function Scanline(width: nat, height: nat, y: nat): Bytes
    requires y < height
  {
    [0] + PixelRow(width, height, y)
  }

  /** The first n scanlines. */
  function Raw(width: nat, height: nat, n: nat): Bytes
    requires n <= height
    decreases n
  {
    if n == 0 then [] else Raw(width, height, n - 1) + Scanline(width, height, n - 1)
  }

  lemma {:induction false} RawLength(width: nat, height: nat, n: nat)
    requires n <= height
    ensures |Raw(width, height, n)| == n * (1 + 3 * width)
    decreases n
  {
    if n > 0 {
      RawLength(width, height, n - 1);
      assert n * (1 + 3 * width) == (n - 1) * (1 + 3 * width) + (1 + 3 * width);
    }
  }

  /** Where pixel (x, y) lies in the raw image, and what it is. */
  lemma {:induction false} RawPixel(width: nat, height: nat, n: nat, x: nat, y: nat, c: nat)
    requires n <= height && x < width && y < n && c < 3
    ensures var at := y * (1 + 3 * width) + 1 + 3 * x + c;
            && at < |Raw(width, height, n)|
            && Raw(width, height, n)[at] == Channel(width, height, x, y, c)
            && Raw(width, height, n)[y * (1 + 3 * width)] == 0
    decreases n
  {
    RawLength(width, height, n);
    RawLength(width, height, n - 1);
    var start, inRow := y * (1 + 3 * width), 1 + 3 * x + c;
    if y == n - 1 {
      var line := Scanline(width, height, y);
      assert line[inRow] == PixelRow(width, height, y)[3 * x + c];
      assert (3 * x + c) / 3 == x && (3 * x + c) % 3 == c;
    } else {
      RawPixel(width, height, n - 1, x, y, c);
    }
  }

  // --------------------------------------------------------------------- chunks

  const WORD := 0x1_0000_0000

  /** int.to_bytes(4, "big"): an overflow unless the value fits. */
  function ToBytes4(n: int): Option<Bytes> {
    if 0 <= n < WORD then Some([n / 0x100_0000, n / 0x1_0000 % 256, n / 0x100 % 256, n % 256]) else None
  }

  function FromBytes4(bs: Bytes): int
    requires |bs| == 4
  {
    bs[0] as int * 0x100_0000 + bs[1] as int * 0x1_0000 + bs[2] as int * 0x100 + bs[3] as int
  }

  lemma Bytes4RoundTrip(n: int)
    ensures ToBytes4(n).Some? <==> 0 <= n < WORD
    ensures ToBytes4(n).Some? ==> |ToBytes4(n).value| == 4 && FromBytes4(ToBytes4(n).value) == n
  {
    if 0 <= n < WORD {
      assert n / 0x100 / 0x100 == n / 0x1_0000;
      assert n / 0x1_0000 / 0x100 == n / 0x100_0000;
    }
  }

  type Checksum = Bytes -> int

  const SIGNATURE: Bytes := [0x89, 0x50, 0x4E, 0x47, 0x0D, 0x0A, 0x1A, 0x0A]
  const IHDR: Bytes := [0x49, 0x48, 0x44, 0x52]
  const IDAT: Bytes := [0x49, 0x44, 0x41, 0x54]
  const IEND: Bytes := [0x49, 0x45, 0x4E, 0x44]

  /** Length, tag, data and checksum of tag and data; None is the OverflowError. */
  function MakeChunk(tag: Bytes, data: Bytes, crc: Checksum): Option<Bytes> {
    match (ToBytes4(|data|), ToBytes4(crc(tag + data)))
    case (Some(length), Some(sum)) => Some(length + tag + data + sum)
    case _ => None
  }

  datatype Chunk = Chunk(tag: Bytes, data: Bytes)

  /** A reader of chunk streams. */
  function ReadChunks(bs: Bytes, crc: Checksum): Option<seq<Chunk>>
    decreases |bs|
  {
    if bs == [] then Some([])
    else if |bs| < 12 then None
    else
      var n := FromBytes4(bs[..4]);
      if n < 0 || |bs| < 12 + n then None
      else
        var tag, data := bs[4..8], bs[8..8 + n];
        if FromBytes4(bs[8 + n..12 + n]) != crc(tag + data) then None
        else
          match ReadChunks(bs[12 + n..], crc)
          case None => None
          case Some(rest) => Some([Chunk(tag, data)] + rest)
  }

  lemma ReadsChunk(tag: Bytes, data: Bytes, rest: Bytes, crc: Checksum)
    requires |tag| == 4 && MakeChunk(tag, data, crc).Some?
    ensures ReadChunks(MakeChunk(tag, data, crc).value + rest, crc) ==
            match ReadChunks(rest, crc) case None => None case Some(cs) => Some([Chunk(tag, data)] + cs)
  {
    hide ToBytes4, FromBytes4;
    Bytes4RoundTrip(|data|);
    Bytes4RoundTrip(crc(tag + data));
    var length, sum := ToBytes4(|data|).value, ToBytes4(crc(tag + data)).value;
    var bs := MakeChunk(tag, data, crc).value + rest;
    var n := |data|;
    assert bs == length + (tag + (data + (sum + rest)));
    assert bs[..4] == length && bs[4..8] == tag && bs[8..8 + n] == data;
    assert bs[8 + n..12 + n] == sum && bs[12 + n..] == rest;
  }

  // ------------------------------------------------------------------- the image

  /** Width, height, bit depth 8, colour type 2, and three zero method bytes. */
  function Header(width: int, height: int): Option<Bytes> {
    match (ToBytes4(width), ToBytes4(height))
    case (Some(w), Some(h)) => Some(w + h + [8, 2, 0, 0, 0])
    case _ => None
  }

  function Png(width: int, height: int, raw: Bytes, compress: Bytes -> Bytes, crc: Checksum): Option<Bytes> {
    match Header(width, height)
    case None => None
    case Some(header) =>
      match (MakeChunk(IHDR, header, crc), MakeChunk(IDAT, compress(raw), crc), MakeChunk(IEND, [], crc))
      case (Some(a), Some(b), Some(c)) => Some(SIGNATURE + a + b + c)
      case _ => None
  }

  /** Python's range(n) for a negative n is empty. */
  function Count(n: int): nat { if n < 0 then 0 else n }

  /** None where struct.pack overflows: exactly when a size or the compressed length does
      not fit in four bytes. */
  method MakePng(width: int, height: int, compress: Bytes -> Bytes, crc: Checksum) returns (png: Option<Bytes>)
    ensures png == Png(width, height, Raw(Count(width), Count(height), Count(height)), compress, crc)
    ensures (forall b :: 0 <= crc(b) < WORD) ==>
              (png.None? <==> !(0 <= width < 4294967296 && 0 <= height < 4294967296
                                && |compress(Raw(Count(width), Count(height), Count(height)))| < 4294967296))
  {
    var w, h := Count(width), Count(height);
    var row: Bytes := [];
    var x := 0;
    while x < w
      invariant 0 <= x <= w && |row| == 3 * x
      invariant RowTemplate(row, w, x)
    {
      ScaleIsByte(x, w);
      TemplateGrows(row, w, x);
      row := row + [x * 255 / w, 127, x * 89 % 256];
      x := x + 1;
    }
    var raw: Bytes := [];
    var y := 0;
    while y < h
      invariant 0 <= y <= h
      invariant raw == Raw(w, h, y)
    {
      var line := PaintLine(row, w, h, y);
      raw := raw + [0] + line;
      assert raw == Raw(w, h, y) + Scanline(w, h, y);
      y := y + 1;
    }
    if forall b :: 0 <= crc(b) < WORD {
      PngFailsExactly(width, height, raw, compress, crc);
    }
    png := Png(width, height, raw, compress, crc);
  }

  /** The row every line is copied from: red and blue final, green still 127. */
  predicate RowTemplate(row: Bytes, width: nat, x: nat) {
    && |row| == 3 * x && x <= width
    && forall k | 0 <= k < x ::
         row[3 * k] == k * 255 / width && row[3 * k + 1] == 127 && row[3 * k + 2] == k * 89 % 256
  }

  lemma TemplateGrows(row: Bytes, width: nat, x: nat)
    requires RowTemplate(row, width, x) && x < width
    ensures 0 <= x * 255 / width < 256
    ensures RowTemplate(row + [x * 255 / width, 127, x * 89 % 256], width, x + 1)
  {
    ScaleIsByte(x, width);
  }

  /** A copy of the template, its green bytes overwritten in place. */
  method PaintLine(row: Bytes, width: nat, height: nat, y: nat) returns (line: Bytes)
    requires RowTemplate(row, width, width) && y < height
    ensures line == PixelRow(width, height, y)
  {
    ScaleIsByte(y, height);
    var g: Byte := y * 255 / height;
    var a := new Byte[|row|](i requires 0 <= i < |row| => row[i]);
    var x := 0;
    while x < width
      invariant 0 <= x <= width
      invariant forall k | 0 <= k < width :: a[3 * k] == row[3 * k] && a[3 * k + 2] == row[3 * k + 2]
      invariant forall k | 0 <= k < x :: a[3 * k + 1] == g
    {
      a[x * 3 + 1] := g;
      x := x + 1;
    }
    line := a[..];
    forall i | 0 <= i < 3 * width
      ensures line[i] == PixelRow(width, height, y)[i]
    {
      InRow(i, width);
      var k := i / 3;
      assert i == 3 * k || i == 3 * k + 1 || i == 3 * k + 2;
    }
  }

  /** The file parses back to exactly three chunks, whose header states the size and
      whose data is the compressed raw image. */
  lemma PngReadsBack(width: int, height: int, raw: Bytes, compress: Bytes -> Bytes, crc: Checksum)
    ensures var png := Png(width, height, raw, compress, crc);
            png.Some? ==>
              && |png.value| >= 8 && png.value[..8] == [137, 80, 78, 71, 13, 10, 26, 10]
              && ReadChunks(png.value[8..], crc) ==
                 Some([Chunk([73, 72, 68, 82], Header(width, height).value), Chunk([73, 68, 65, 84], compress(raw)),
                       Chunk([73, 69, 78, 68], [])])
              && |Header(width, height).value| == 13
              && FromBytes4(Header(width, height).value[..4]) == width
              && FromBytes4(Header(width, height).value[4..8]) == height
              && Header(width, height).value[8..] == [8, 2, 0, 0, 0]
  {
    hide ReadChunks, MakeChunk, ToBytes4, FromBytes4;
    var png := Png(width, height, raw, compress, crc);
    if png.Some? {
      var header := Header(width, height).value;
      Bytes4RoundTrip(width);
      Bytes4RoundTrip(height);
      assert header[..4] == ToBytes4(width).value && header[4..8] == ToBytes4(height).value;
      var a, b, c := MakeChunk(IHDR, header, crc).value, MakeChunk(IDAT, compress(raw), crc).value, MakeChunk(IEND, [], crc).value;
      assert png.value[8..] == a + (b + (c + []));
      ReadsChunk(IHDR, header, b + (c + []), crc);
      ReadsChunk(IDAT, compress(raw), c + [], crc);
      ReadsChunk(IEND, [], [], crc);
      NoChunks(crc);
      var x, y, z := Chunk(IHDR, header), Chunk(IDAT, compress(raw)), Chunk(IEND, []);
      assert [x] + ([y] + ([z] + [])) == [x, y, z];
    }
  }

  lemma NoChunks(crc: Checksum)
    ensures ReadChunks([], crc) == Some([])
  {}

  /** The writer fails exactly when a size, the compressed length or a checksum does
      not fit in four bytes; in particular for every negative size. */
  lemma PngFailsExactly(width: int, height: int, raw: Bytes, compress: Bytes -> Bytes, crc: Checksum)
    requires forall b :: 0 <= crc(b) < WORD
    ensures Png(width, height, raw, compress, crc).None? <==>
              !(0 <= width < WORD && 0 <= height < WORD && |compress(raw)| < WORD)
  {}
}
