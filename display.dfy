/** The ST7789 panel driver, its RGB565 pixel codec, the CST816D touch driver
    and the Screen wrapper that combines them. The SPI bus is observed as the
    trace of what the driver writes on it; the I2C reads of the touch panel
    and its interrupt line are inputs. */
module Display {
  import opened PyValues

  /** One thing the panel driver does on its wires, in order. */
  datatype Event =
    | Command(cmd: int)       // data/command line low, then one byte
    | Data(bytes: seq<int>)   // data/command line high, then the bytes of one SPI write
    | ResetLine(high: bool)   // the panel's reset line driven high or low

  /** Largest number of bytes in one SPI write of a bulk transfer. */
  const CHUNK: nat := 4096

  /** The native resolution of the ST7789 panel. */
  const PANEL_WIDTH: nat := 240
  const PANEL_HEIGHT: nat := 320

  // ---------------------------------------------------------------------
  // Orientation

  /** The MADCTL (0x36) parameter for a rotation in degrees. Its bits are
      MY (0x80, row order reversed), MX (0x40, column order reversed) and
      MV (0x20, rows and columns exchanged); unsupported angles fall back to
      the native orientation. */
  function Madctl(degrees: int): (m: bv8)
    ensures m & 0x1F == 0
    ensures (m & 0x20 != 0) <==> (degrees == 90 || degrees == 270)
    ensures (m & 0x40 != 0) <==> (degrees == 90 || degrees == 180)
    ensures (m & 0x80 != 0) <==> (degrees == 180 || degrees == 270)
  {
    if degrees == 0 then 0x00
    else if degrees == 90 then 0x60
    else if degrees == 180 then 0xC0
    else if degrees == 270 then 0xA0
    else 0x00
  }

  /** The four supported rotations select four different panel settings, and
      every other angle selects the setting of 0 degrees. */
  lemma MadctlSupportedAngles(d1: int, d2: int)
    requires d1 in {0, 90, 180, 270} && d2 in {0, 90, 180, 270} && d1 != d2
    ensures Madctl(d1) != Madctl(d2)
  {
  }

  // ---------------------------------------------------------------------
  // Address window

  /** The two bytes `v >> 8` and `v & 0xFF` of a coordinate. On Python ints
      both operators are floor-based, which is what `/` and `%` by a positive
      constant are in Dafny, so this holds for every integer. */
  function HiLo(v: int): seq<int> {
    [v / 256, v % 256]
  }

  /** What `set_windows(xs, ys, xe, ye)` writes: CASET, RASET, RAMWR. */
  function WindowFrame(xs: int, ys: int, xe: int, ye: int): (f: seq<Event>)
    ensures |f| == 11
  {
    [Command(0x2A), Data([HiLo(xs)[0]]), Data([HiLo(xs)[1]]), Data([HiLo(xe)[0]]), Data([HiLo(xe)[1]]),
     Command(0x2B), Data([HiLo(ys)[0]]), Data([HiLo(ys)[1]]), Data([HiLo(ye)[0]]), Data([HiLo(ye)[1]]),
     Command(0x2C)]
  }

  /** A single data byte as the panel receives it. */
  function ByteOf(e: Event): Option<int> {
    if e.Data? && |e.bytes| == 1 && 0 <= e.bytes[0] < 256 then Some(e.bytes[0]) else None
  }

  /** The 16-bit value a panel reads from two consecutive data bytes (most
      significant first). */
  function Word(hi: Event, lo: Event): Option<int> {
    match (ByteOf(hi), ByteOf(lo))
    case (Some(h), Some(l)) => Some(h * 256 + l)
    case _ => None
  }

  /** How the panel reads an address-window frame back: the column range, the
      row range, or None when the frame is not CASET/RASET/RAMWR with byte
      parameters. */
  function DecodeWindow(f: seq<Event>): Option<(int, int, int, int)> {
    if |f| != 11 || f[0] != Command(0x2A) || f[5] != Command(0x2B) || f[10] != Command(0x2C) then None
    else
      match (Word(f[1], f[2]), Word(f[3], f[4]), Word(f[6], f[7]), Word(f[8], f[9]))
      case (Some(xs), Some(xe), Some(ys), Some(ye)) => Some((xs, ys, xe, ye))
      case _ => None
  }

  lemma SplitCoordinate(v: int)
    requires 0 <= v < 65536
    ensures 0 <= HiLo(v)[0] < 256 && 0 <= HiLo(v)[1] < 256
    ensures HiLo(v)[0] * 256 + HiLo(v)[1] == v
  {
  }

  /** Every coordinate below 65536 goes out as two bytes that the panel
      recombines into the same coordinate. */
  lemma WindowRoundTrip(xs: int, ys: int, xe: int, ye: int)
    requires 0 <= xs < 65536 && 0 <= ys < 65536 && 0 <= xe < 65536 && 0 <= ye < 65536
    ensures DecodeWindow(WindowFrame(xs, ys, xe, ye)) == Some((xs, ys, xe, ye))
  {
    SplitCoordinate(xs);
    SplitCoordinate(ys);
    SplitCoordinate(xe);
    SplitCoordinate(ye);
  }

  /** A coordinate of 65536 or more does not fit: its high "byte" is no
      byte, so the frame is not a window the panel can read back. */
  lemma WindowTooWide(xs: int, ys: int, xe: int, ye: int)
    requires xs >= 65536 || ys >= 65536 || xe >= 65536 || ye >= 65536
    ensures DecodeWindow(WindowFrame(xs, ys, xe, ye)).None?
  {
    var f := WindowFrame(xs, ys, xe, ye);
    if xs >= 65536 {
      assert ByteOf(f[1]).None?;
    } else if xe >= 65536 {
      assert ByteOf(f[3]).None?;
    } else if ys >= 65536 {
      assert ByteOf(f[6]).None?;
    } else {
      assert ByteOf(f[8]).None?;
    }
  }

  // ---------------------------------------------------------------------
  // Chunked bulk writes

  /** The SPI writes of `for i in range(0, len(buf), 4096): write(buf[i:i+4096])`. */
  function ChunkWrites(buf: seq<int>): seq<Event>
    decreases |buf|
  {
    if buf == [] then []
    else if |buf| <= CHUNK then [Data(buf)]
    else [Data(buf[..CHUNK])] + ChunkWrites(buf[CHUNK..])
  }

  /** The bytes that data writes carry, in order. */
  function Payload(es: seq<Event>): seq<int> {
    if es == [] then []
    else (if es[0].Data? then es[0].bytes else []) + Payload(es[1..])
  }

  lemma {:induction false} PayloadAppend(a: seq<Event>, b: seq<Event>)
    ensures Payload(a + b) == Payload(a) + Payload(b)
  {
    if a == [] {
      assert a + b == b;
    } else {
      assert (a + b)[0] == a[0];
      assert (a + b)[1..] == a[1..] + b;
      PayloadAppend(a[1..], b);
    }
  }

  /** Chunking loses nothing, reorders nothing, and adds nothing. */
  lemma {:induction false} ChunkWritesPayload(buf: seq<int>)
    ensures Payload(ChunkWrites(buf)) == buf
    decreases |buf|
  {
    if |buf| > CHUNK {
      ChunkWritesPayload(buf[CHUNK..]);
      PayloadAppend([Data(buf[..CHUNK])], ChunkWrites(buf[CHUNK..]));
      assert buf == buf[..CHUNK] + buf[CHUNK..];
    }
  }

  /** There are ceil(len/4096) writes, each a data write of 1 to 4096 bytes,
      and all but the last carry exactly 4096 bytes. */
  lemma {:induction false} ChunkWritesShape(buf: seq<int>)
    ensures |ChunkWrites(buf)| == (|buf| + CHUNK - 1) / CHUNK
    ensures forall k :: 0 <= k < |ChunkWrites(buf)| ==>
      ChunkWrites(buf)[k].Data? && 1 <= |ChunkWrites(buf)[k].bytes| <= CHUNK
    ensures forall k :: 0 <= k < |ChunkWrites(buf)| - 1 ==> |ChunkWrites(buf)[k].bytes| == CHUNK
    decreases |buf|
  {
    if |buf| > CHUNK {
      ChunkWritesShape(buf[CHUNK..]);
      var rest := ChunkWrites(buf[CHUNK..]);
      assert ChunkWrites(buf) == [Data(buf[..CHUNK])] + rest;
      forall k | 1 <= k < |ChunkWrites(buf)|
        ensures ChunkWrites(buf)[k] == rest[k - 1]
      {
      }
    }
  }

  // ---------------------------------------------------------------------
  // Pixel codec

  /** One pixel of an RGB image, eight bits per channel. */
  datatype Pixel = Pixel(r: bv8, g: bv8, b: bv8)

  /** `(r & 0xF8) << 8 | (g & 0xFC) << 3 | b >> 3`: the top five bits are
      the top five bits of red, the middle six the top six of green, the low
      five the top five of blue. */
  function Rgb565(p: Pixel): (w: bv16)
    ensures w >> 11 == (p.r >> 3) as bv16
    ensures (w >> 5) & 0x3F == (p.g >> 2) as bv16
    ensures w & 0x1F == (p.b >> 3) as bv16
  {
    (((p.r & 0xF8) as bv16) << 8) | (((p.g & 0xFC) as bv16) << 3) | (((p.b & 0xF8) as bv16) >> 3)
  }

  /** Pure red, green, blue, white and black pixels. */
  lemma Rgb565Examples()
    ensures Rgb565(Pixel(0xFF, 0, 0)) == 0xF800
    ensures Rgb565(Pixel(0, 0xFF, 0)) == 0x07E0
    ensures Rgb565(Pixel(0, 0, 0xFF)) == 0x001F
    ensures Rgb565(Pixel(0xFF, 0xFF, 0xFF)) == 0xFFFF
    ensures Rgb565(Pixel(0, 0, 0)) == 0
  {
  }

  /** The order in which `tobytes` lays out the two bytes of a 16-bit word:
      numpy uses the host's native order. */
  datatype ByteOrder = BigEndian | LittleEndian

  /** The two bytes of one encoded pixel. */
  function WordBytes(w: bv16, order: ByteOrder): (bs: seq<int>)
    ensures |bs| == 2 && 0 <= bs[0] < 256 && 0 <= bs[1] < 256
    ensures order == BigEndian ==> bs[0] * 256 + bs[1] == w as int
    ensures order == LittleEndian ==> bs[1] * 256 + bs[0] == w as int
  {
    var hi := (w as int) / 256;
    var lo := (w as int) % 256;
    if order == BigEndian then [hi, lo] else [lo, hi]
  }

  function EncodePixels(ps: seq<Pixel>, order: ByteOrder): seq<int> {
    if ps == [] then [] else WordBytes(Rgb565(ps[0]), order) + EncodePixels(ps[1..], order)
  }

  /** The pixels of an image in row-major order. */
  function Flatten(rows: seq<seq<Pixel>>): seq<Pixel> {
    if rows == [] then [] else rows[0] + Flatten(rows[1..])
  }

  /** `image_to_data`: the RGB565 words of the pixels, row by row, two bytes
      each. */
  function ImageToData(image: seq<seq<Pixel>>, order: ByteOrder): seq<int> {
    EncodePixels(Flatten(image), order)
  }

  /** Pixel k occupies bytes 2k and 2k+1 and nothing else is in the buffer. */
  lemma {:induction false} EncodePixelsAt(ps: seq<Pixel>, order: ByteOrder, k: nat)
    requires k < |ps|
    ensures |EncodePixels(ps, order)| == 2 * |ps|
    ensures EncodePixels(ps, order)[2 * k .. 2 * k + 2] == WordBytes(Rgb565(ps[k]), order)
  {
    var w := WordBytes(Rgb565(ps[0]), order);
    var rest := EncodePixels(ps[1..], order);
    EncodePixelsLength(ps, order);
    EncodePixelsLength(ps[1..], order);
    assert EncodePixels(ps, order) == w + rest;
    if k > 0 {
      EncodePixelsAt(ps[1..], order, k - 1);
      assert ps[1..][k - 1] == ps[k];
      PairAfterHead(w, rest, k);
    } else {
      assert (w + rest)[0 .. 2] == w;
    }
  }

  /** Behind a two-byte head, pair k is pair k - 1 of the rest. */
  lemma PairAfterHead(w: seq<int>, rest: seq<int>, k: nat)
    requires |w| == 2 && 1 <= k && 2 * k + 2 <= |w| + |rest|
    ensures (w + rest)[2 * k .. 2 * k + 2] == rest[2 * (k - 1) .. 2 * (k - 1) + 2]
  {
  }

  lemma {:induction false} EncodePixelsLength(ps: seq<Pixel>, order: ByteOrder)
    ensures |EncodePixels(ps, order)| == 2 * |ps|
  {
    if ps != [] {
      EncodePixelsLength(ps[1..], order);
    }
  }

  /** A width x height image encodes to exactly width * height * 2 bytes. */
  lemma ImageToDataLength(image: seq<seq<Pixel>>, width: nat, order: ByteOrder)
    requires forall k :: 0 <= k < |image| ==> |image[k]| == width
    ensures |ImageToData(image, order)| == |image| * width * 2
  {
    FlattenLength(image, width);
    EncodePixelsLength(Flatten(image), order);
  }

  lemma {:induction false} FlattenLength(image: seq<seq<Pixel>>, width: nat)
    requires forall k :: 0 <= k < |image| ==> |image[k]| == width
    ensures |Flatten(image)| == |image| * width
  {
    if image != [] {
      FlattenLength(image[1..], width);
      calc {
        |Flatten(image)|;
        |image[0]| + |Flatten(image[1..])|;
        width + (|image| - 1) * width;
        { MulSucc(|image| - 1, width); }
        |image| * width;
      }
    }
  }

  lemma MulSucc(a: int, b: int)
    ensures b + a * b == (a + 1) * b
  {
  }

  /** With big-endian order each pair of bytes reads back as the pixel's
      RGB565 word; with little-endian order the two bytes come swapped. */
  lemma EncodedWord(ps: seq<Pixel>, order: ByteOrder, k: nat)
    requires k < |ps|
    ensures var bs := EncodePixels(ps, order);
      2 * k + 1 < |bs| &&
      (order == BigEndian ==> bs[2 * k] * 256 + bs[2 * k + 1] == Rgb565(ps[k]) as int) &&
      (order == LittleEndian ==> bs[2 * k + 1] * 256 + bs[2 * k] == Rgb565(ps[k]) as int)
  {
    EncodePixelsAt(ps, order, k);
    var bs := EncodePixels(ps, order);
    assert bs[2 * k] == bs[2 * k .. 2 * k + 2][0];
    assert bs[2 * k + 1] == bs[2 * k .. 2 * k + 2][1];
  }

  /** A pure red pixel goes out as F8 00 in big-endian order and as 00 F8
      in little-endian order. */
  lemma RedPixelBytes()
    ensures ImageToData([[Pixel(0xFF, 0, 0)]], BigEndian) == [0xF8, 0x00]
    ensures ImageToData([[Pixel(0xFF, 0, 0)]], LittleEndian) == [0x00, 0xF8]
  {
    assert Flatten([[Pixel(0xFF, 0, 0)]]) == [Pixel(0xFF, 0, 0)];
    Rgb565Examples();
  }

  // ---------------------------------------------------------------------
  // Panel initialisation

  /** A command followed by each of its parameters as a one-byte data
      write. */
  function CommandFrame(cmd: int, params: seq<int>): (f: seq<Event>)
    ensures |f| == 1 + |params| && f[0] == Command(cmd)
    ensures forall k :: 0 <= k < |params| ==> f[k + 1] == Data([params[k]])
  {
    [Command(cmd)] + seq(|params|, k requires 0 <= k < |params| => Data([params[k]]))
  }

  /** The reset pulse: high, low, high (10 ms apart). */
  function ResetPulse(): seq<Event> {
    [ResetLine(true), ResetLine(false), ResetLine(true)]
  }

  /** What the bus holds after `lcd_init` when it held `before`: the reset
      pulse, then the vendor sequence, each command followed by its
      parameters. */
  function InitTraceAfter(before: seq<Event>): seq<Event> {
    before
    + ResetPulse()

    + CommandFrame(0x11, [])  // sleep out
    + CommandFrame(0x36, [0x00])  // memory data access control
    + CommandFrame(0x3A, [0x05])  // interface pixel format: 16 bits per pixel
    + CommandFrame(0xB2, [0x0C, 0x0C, 0x00, 0x33, 0x33])  // porch setting
    + CommandFrame(0xB7, [0x35])  // gate control
    + CommandFrame(0xBB, [0x19])  // VCOM setting
    + CommandFrame(0xC0, [0x2C])  // LCM control
    + CommandFrame(0xC2, [0x01, 0xFF])  // VDV and VRH command enable
    + CommandFrame(0xC3, [0x12])  // VRH set
    + CommandFrame(0xC4, [0x20])  // VDV set
    + CommandFrame(0xC6, [0x0F])  // frame rate in normal mode
    + CommandFrame(0xD0, [0xA4, 0xA1])  // power control 1
    + CommandFrame(0xE0, [0xD0, 0x04, 0x0D, 0x11, 0x13, 0x2B, 0x3F, 0x54, 0x4C, 0x18, 0x0D, 0x0B, 0x1F, 0x23])  // positive voltage gamma
    + CommandFrame(0xE1, [0xD0, 0x04, 0x0C, 0x11, 0x13, 0x2C, 0x3F, 0x44, 0x51, 0x2F, 0x1F, 0x1F, 0x20, 0x23])  // negative voltage gamma
    + CommandFrame(0x21, [])  // display inversion on
    + CommandFrame(0x11, [])  // sleep out
    + CommandFrame(0x29, [])  // display on
  }

  /** The full power-up trace of the panel. */
  function InitTrace(): seq<Event> {
    InitTraceAfter([])
  }

  /** The sequence selects 16-bit pixels (COLMOD 0x3A = 0x05, the format of
      the RGB565 codec) and the native orientation, starts by leaving sleep
      mode and switches the display on last. */
  lemma InitTraceFacts()
    ensures InitTrace()[..3] == ResetPulse() && InitTrace()[3] == Command(0x11)
    ensures InitTrace()[4..6] == [Command(0x36), Data([Madctl(0) as int])]
    ensures InitTrace()[6..8] == [Command(0x3A), Data([0x05])]
    ensures InitTrace()[|InitTrace()| - 1] == Command(0x29)
  {
  }

  // ---------------------------------------------------------------------
  // The ST7789 driver

  /** The buffer `clear` sends: n zero bytes. */
  function Zeros(n: nat): (z: seq<int>)
    ensures |z| == n && forall k :: 0 <= k < n ==> z[k] == 0
  {
    seq(n, _ => 0)
  }

  class ST7789 {
    const width: nat
    const height: nat
    /** Everything written on the SPI bus and the reset line so far. */
    var bus: seq<Event>
    /** The backlight duty cycle in percent (the PWM value is duty / 100). */
    var backlight: int

    /** Opens the bus, turns the backlight fully on and initialises the panel. */
    constructor ()
      ensures width == PANEL_WIDTH && height == PANEL_HEIGHT
      ensures backlight == 100
      ensures bus == InitTrace()
    {
      width := PANEL_WIDTH;
      height := PANEL_HEIGHT;
      backlight := 100;
      bus := [];
      new;
      LcdInit();
    }

    /** `bl_DutyCycle`. */
    method BlDutyCycle(duty: int)
      modifies this`backlight
      ensures backlight == duty
    {
      backlight := duty;
    }

    method Command(cmd: int)
      modifies this`bus
      ensures bus == old(bus) + [Event.Command(cmd)]
    {
      bus := bus + [Event.Command(cmd)];
    }

    method Data(val: int)
      modifies this`bus
      ensures bus == old(bus) + [Event.Data([val])]
    {
      bus := bus + [Event.Data([val])];
    }

    method Reset()
      modifies this`bus
      ensures bus == old(bus) + ResetPulse()
    {
      bus := bus + [ResetLine(true)];
      bus := bus + [ResetLine(false)];
      bus := bus + [ResetLine(true)];
    }

    /** A command and its parameter bytes, as `lcd_init` writes them. */
    method Send(cmd: int, params: seq<int>)
      modifies this`bus
      ensures bus == old(bus) + CommandFrame(cmd, params)
    {
      Command(cmd);
      for j := 0 to |params|
        invariant bus == old(bus) + CommandFrame(cmd, params[..j])
      {
        Data(params[j]);
      }
      assert params[..|params|] == params;
    }

    /** `lcd_init`: the reset pulse, then the vendor sequence. */
    method LcdInit()
      modifies this`bus
      ensures bus == InitTraceAfter(old(bus))
    {
      Reset();
      Send(0x11, []);  // sleep out
      Send(0x36, [0x00]);  // memory data access control
      Send(0x3A, [0x05]);  // interface pixel format: 16 bits per pixel
      Send(0xB2, [0x0C, 0x0C, 0x00, 0x33, 0x33]);  // porch setting
      Send(0xB7, [0x35]);  // gate control
      Send(0xBB, [0x19]);  // VCOM setting
      Send(0xC0, [0x2C]);  // LCM control
      Send(0xC2, [0x01, 0xFF]);  // VDV and VRH command enable
      Send(0xC3, [0x12]);  // VRH set
      Send(0xC4, [0x20]);  // VDV set
      Send(0xC6, [0x0F]);  // frame rate in normal mode
      Send(0xD0, [0xA4, 0xA1]);  // power control 1
      Send(0xE0, [0xD0, 0x04, 0x0D, 0x11, 0x13, 0x2B, 0x3F, 0x54, 0x4C, 0x18, 0x0D, 0x0B, 0x1F, 0x23]);  // positive voltage gamma
      Send(0xE1, [0xD0, 0x04, 0x0C, 0x11, 0x13, 0x2C, 0x3F, 0x44, 0x51, 0x2F, 0x1F, 0x1F, 0x20, 0x23]);  // negative voltage gamma
      Send(0x21, []);  // display inversion on
      Send(0x11, []);  // sleep out
      Send(0x29, []);  // display on
    }

    /** `set_windows`: column range, row range, then memory write. */
    method SetWindows(xs: int, ys: int, xe: int, ye: int)
      modifies this`bus
      ensures bus == old(bus) + WindowFrame(xs, ys, xe, ye)
    {
      Command(0x2A);
      Data(xs / 256);
      Data(xs % 256);
      Data(xe / 256);
      Data(xe % 256);
      Command(0x2B);
      Data(ys / 256);
      Data(ys % 256);
      Data(ye / 256);
      Data(ye % 256);
      Command(0x2C);
    }

    /** The chunked bulk write that `show_image` and `clear` share. */
    method WriteChunks(buf: seq<int>)
      modifies this`bus
      ensures bus == old(bus) + ChunkWrites(buf)
    {
      var i := 0;
      while i < |buf|
        invariant 0 <= i
        invariant i <= |buf| ==> bus + ChunkWrites(buf[i..]) == old(bus) + ChunkWrites(buf)
        invariant i > |buf| ==> bus == old(bus) + ChunkWrites(buf)
        decreases |buf| - i
      {
        var end := if i + CHUNK < |buf| then i + CHUNK else |buf|;
        var rest := buf[i..];
        if |rest| <= CHUNK {
          assert buf[i..end] == rest;
        } else {
          assert buf[i..end] == rest[..CHUNK];
          assert buf[i + CHUNK..] == rest[CHUNK..];
        }
        bus := bus + [Event.Data(buf[i..end])];
        i := i + CHUNK;
      }
    }

    /** `show_image`: the window is always (0, 0)-(239, 239), whatever the
        size of the image; then the encoded image in 4096-byte writes. */
    method ShowImage(image: seq<seq<Pixel>>, order: ByteOrder)
      modifies this`bus
      ensures bus == old(bus) + WindowFrame(0, 0, 239, 239) + ChunkWrites(ImageToData(image, order))
    {
      SetWindows(0, 0, 240 - 1, 240 - 1);
      var pixelBytes := ImageToData(image, order);
      WriteChunks(pixelBytes);
    }

    /** `clear`: the whole panel window, then width * height * 2 zero bytes. */
    method Clear()
      modifies this`bus
      ensures bus == old(bus) + WindowFrame(0, 0, width - 1, height - 1)
                    + ChunkWrites(Zeros(width * height * 2))
    {
      var black := Zeros(width * height * 2);
      SetWindows(0, 0, width - 1, height - 1);
      WriteChunks(black);
    }
  }

  /** What `clear` sends on a 240 x 320 panel: the window (0,0)-(239,319)
      and 153600 zero bytes in 38 writes, the last one of 2048 bytes. */
  lemma ClearTraceFacts()
    ensures var zeros := Zeros(PANEL_WIDTH * PANEL_HEIGHT * 2);
      DecodeWindow(WindowFrame(0, 0, PANEL_WIDTH - 1, PANEL_HEIGHT - 1)) == Some((0, 0, 239, 319)) &&
      Payload(ChunkWrites(zeros)) == zeros && |zeros| == 153600 &&
      |ChunkWrites(zeros)| == 38 && ChunkWrites(zeros)[37].Data? && |ChunkWrites(zeros)[37].bytes| == 2048
  {
    var zeros := Zeros(PANEL_WIDTH * PANEL_HEIGHT * 2);
    WindowRoundTrip(0, 0, PANEL_WIDTH - 1, PANEL_HEIGHT - 1);
    ChunkWritesPayload(zeros);
    ChunkWritesShape(zeros);
    LastChunk(zeros);
  }

  /** The last write carries what is left after the full 4096-byte writes. */
  lemma {:induction false} LastChunk(buf: seq<int>)
    requires buf != []
    ensures |ChunkWrites(buf)| >= 1
    ensures var last := ChunkWrites(buf)[|ChunkWrites(buf)| - 1];
      last.Data? && |last.bytes| == |buf| - (|ChunkWrites(buf)| - 1) * CHUNK
    decreases |buf|
  {
    if |buf| > CHUNK {
      LastChunk(buf[CHUNK..]);
    }
  }

  /** `show_image` opens the same 240 x 240 window for every image, so a
      320 x 240 frame (153600 bytes) overflows the 115200 bytes it holds. */
  lemma ShowImageWindowIgnoresImage(image: seq<seq<Pixel>>, order: ByteOrder)
    requires |image| == 240 && forall k :: 0 <= k < |image| ==> |image[k]| == 320
    ensures DecodeWindow(WindowFrame(0, 0, 239, 239)) == Some((0, 0, 239, 239))
    ensures |ImageToData(image, order)| == 153600 > 240 * 240 * 2
  {
    WindowRoundTrip(0, 0, 239, 239);
    ImageToDataLength(image, 320, order);
  }

  // ---------------------------------------------------------------------
  // The CST816D touch driver

  /** The driver's view of the panel: the pending point count and the first
      touch point (`coordinates[0]`). */
  datatype TouchState = TouchState(pointCount: int, x: int, y: int)

  /** A touch point as `get_touch_xy` reports it. */
  datatype Coord = Coord(x: int, y: int)

  /** A 12-bit coordinate from the low nibble of the high register and the
      whole low register: `((hi & 0x0F) << 8) | lo`. */
  function DecodeCoord(hi: bv8, lo: bv8): (v: int)
    ensures 0 <= v < 4096
    ensures v == (hi as int % 16) * 256 + lo as int
  {
    ((((hi & 0x0F) as bv16) << 8) | (lo as bv16)) as int
  }

  /** The panel is 240 wide: `min(v, 239)`. */
  function Cap(v: int): (c: int)
    ensures c <= 239 && (c == v || c == 239) && (v <= 239 ==> c == v)
  {
    if v < 239 then v else 239
  }

  /** `buf and buf[0] > 0` for the point-count register read. */
  predicate HasPoints(countRead: Option<seq<bv8>>) {
    countRead.Some? && |countRead.value| > 0 && countRead.value[0] > 0
  }

  /** `read_touch_data`, given the interrupt line and the results of the two
      register reads (None when the read raised an I/O error). */
  function ReadTouch(s: TouchState, interrupt: bool, countRead: Option<seq<bv8>>,
                     coordRead: Option<seq<bv8>>): TouchState
    requires coordRead.Some? ==> |coordRead.value| == 4
  {
    if interrupt && HasPoints(countRead) then
      var counted := s.(pointCount := countRead.value[0] as int);
      if coordRead.Some? then
        var d := coordRead.value;
        counted.(x := Cap(DecodeCoord(d[0], d[1])), y := Cap(DecodeCoord(d[2], d[3])))
      else counted
    else s.(pointCount := 0)
  }

  /** What `get_touch_xy` returns in a given state. */
  function Report(s: TouchState): (int, seq<Coord>) {
    if s.pointCount > 0 then (s.pointCount, [Coord(s.x, s.y)]) else (0, [])
  }

  predicate TouchInRange(s: TouchState) {
    0 <= s.pointCount < 256 && 0 <= s.x <= 239 && 0 <= s.y <= 239
  }

  /** Stored coordinates always lie within 0..239. The count is cleared when
      the interrupt line is idle, when the count register cannot be read or
      reads zero; a failed coordinate read keeps the previous coordinates. */
  lemma ReadTouchFacts(s: TouchState, interrupt: bool, countRead: Option<seq<bv8>>,
                       coordRead: Option<seq<bv8>>)
    requires coordRead.Some? ==> |coordRead.value| == 4
    requires TouchInRange(s)
    ensures var t := ReadTouch(s, interrupt, countRead, coordRead);
      TouchInRange(t) &&
      (t.pointCount == 0 <==> !interrupt || !HasPoints(countRead)) &&
      (t.pointCount > 0 ==> t.pointCount == countRead.value[0] as int) &&
      (coordRead.None? ==> t.x == s.x && t.y == s.y) &&
      (interrupt && HasPoints(countRead) && coordRead.Some? ==>
         t.x == Cap(DecodeCoord(coordRead.value[0], coordRead.value[1])) &&
         t.y == Cap(DecodeCoord(coordRead.value[2], coordRead.value[3])))
  {
  }

  class CST816D {
    var pointCount: int
    /** `coordinates[0]["x"]` and `coordinates[0]["y"]`. */
    var x: int
    var y: int
    /** The levels driven on the touch controller's reset line so far. */
    var resetLine: seq<bool>

    ghost predicate Valid()
      reads this
    {
      TouchInRange(State())
    }

    function State(): TouchState
      reads this
    {
      TouchState(pointCount, x, y)
    }

    constructor ()
      ensures Valid()
      ensures State() == TouchState(0, 0, 0)
      ensures resetLine == [false, true]
    {
      pointCount, x, y := 0, 0, 0;
      resetLine := [];
      new;
      ResetTouch();
    }

    /** `reset_touch`: low for 10 ms, then high and 50 ms to settle. */
    method ResetTouch()
      modifies this`resetLine
      ensures resetLine == old(resetLine) + [false, true]
    {
      resetLine := resetLine + [false];
      resetLine := resetLine + [true];
    }

    /** `read_touch_data`. `interrupt` is the level of the interrupt line;
        `countRead` and `coordRead` are what the one-byte read of register
        0x02 and the four-byte read of register 0x03 return (None for an I/O
        error); the coordinate read only happens when the count is positive. */
    method ReadTouchData(interrupt: bool, countRead: Option<seq<bv8>>, coordRead: Option<seq<bv8>>)
      requires Valid()
      requires coordRead.Some? ==> |coordRead.value| == 4
      modifies this`pointCount, this`x, this`y
      ensures Valid()
      ensures State() == ReadTouch(old(State()), interrupt, countRead, coordRead)
    {
      if interrupt {
        if HasPoints(countRead) {
          pointCount := countRead.value[0] as int;
          if coordRead.Some? {
            var d := coordRead.value;
            x := Cap(DecodeCoord(d[0], d[1]));
            y := Cap(DecodeCoord(d[2], d[3]));
          }
        } else {
          pointCount := 0;
        }
      } else {
        pointCount := 0;
      }
    }

    /** `get_touch_xy`: reports the pending points and clears the count. */
    method GetTouchXY() returns (count: int, coords: seq<Coord>)
      requires Valid()
      modifies this`pointCount
      ensures Valid()
      ensures (count, coords) == Report(old(State()))
      ensures State() == old(State()).(pointCount := 0)
    {
      count := pointCount;
      pointCount := 0;
      if count > 0 {
        coords := [Coord(x, y)];
      } else {
        count, coords := 0, [];
      }
    }
  }

  /** The count is consumed by reading it: a second `get_touch_xy` reports
      no touch. */
  method GetTouchTwice(t: CST816D) returns (first: (int, seq<Coord>), second: (int, seq<Coord>))
    requires t.Valid()
    modifies t
    ensures first == Report(old(t.State())) && second == (0, [])
  {
    var c1, p1 := t.GetTouchXY();
    var c2, p2 := t.GetTouchXY();
    first, second := (c1, p1), (c2, p2);
  }

  // ---------------------------------------------------------------------
  // The Screen wrapper

  class Screen {
    const display: ST7789
    const touch: CST816D

    ghost predicate Valid()
      reads this, touch
    {
      touch.Valid()
    }

    /** Creates and initialises both devices, then sets the orientation
        (90 degrees unless given). */
    constructor (orientation: int := 90)
      ensures Valid() && fresh(display) && fresh(touch)
      ensures display.bus == InitTrace() + [Command(0x36), Data([Madctl(orientation) as int])]
      ensures display.backlight == 100 && touch.State() == TouchState(0, 0, 0)
    {
      display := new ST7789();
      touch := new CST816D();
      new;
      SetOrientation(orientation);
    }

    /** `set_orientation`: MADCTL followed by exactly one parameter byte. */
    method SetOrientation(degrees: int)
      modifies display`bus
      ensures display.bus == old(display.bus) + [Command(0x36), Data([Madctl(degrees) as int])]
    {
      display.Command(0x36);
      display.Data(Madctl(degrees) as int);
    }

    /** `get_touch`: poll the controller, then report and clear. */
    method GetTouch(interrupt: bool, countRead: Option<seq<bv8>>, coordRead: Option<seq<bv8>>)
      returns (count: int, coords: seq<Coord>)
      requires Valid()
      requires coordRead.Some? ==> |coordRead.value| == 4
      modifies touch`pointCount, touch`x, touch`y
      ensures Valid()
      ensures var polled := ReadTouch(old(touch.State()), interrupt, countRead, coordRead);
        (count, coords) == Report(polled) && touch.State() == polled.(pointCount := 0)
    {
      touch.ReadTouchData(interrupt, countRead, coordRead);
      count, coords := touch.GetTouchXY();
    }

    method SetBacklight(level: int)
      modifies display`backlight
      ensures display.backlight == level
    {
      display.BlDutyCycle(level);
    }

    method ShowImage(image: seq<seq<Pixel>>, order: ByteOrder)
      modifies display`bus
      ensures display.bus == old(display.bus) + WindowFrame(0, 0, 239, 239) + ChunkWrites(ImageToData(image, order))
    {
      display.ShowImage(image, order);
    }

    method Clear()
      modifies display`bus
      ensures display.bus == old(display.bus) + WindowFrame(0, 0, display.width - 1, display.height - 1)
                             + ChunkWrites(Zeros(display.width * display.height * 2))
    {
      display.Clear();
    }
  }
}
