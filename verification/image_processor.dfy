/** The integer core of the ImageProcessor: the BGR pixel buffer of a camera
    frame, the per-row scan for runs of dark boundary tape, the choice of the
    widest gap between tape borders as a row's scanline, the moving-average
    filter that drops outlying scanlines, and the three-phase `run` that
    first locates the start light, then waits for it to turn green, then
    tracks the road. The two light detectors sum floating-point square roots
    and appear as their results only. */
module ImageProcessing {
  import opened Base

  const LightSize: int := 20
  const TapeWidthThreshold: int := 3
  const TapePixelErrorThreshold: int := 100
  const WebcamHorizon: int := 120
  const NoiseThreshold: int := 20
  const NoisePointsAverage: int := 7
  const PixelStep: int := 3

  /** A Java `byte`. */
  type JByte = b: int | -128 <= b < 128

  /** A 3-byte BGR frame: `width * height` pixels of three bytes each, row
      after row. */
  datatype Image = Image(width: nat, height: nat, pixels: seq<JByte>)

  predicate WellFormed(img: Image)
  {
    |img.pixels| == img.width * img.height * PixelStep
  }

  /** A colour with channels in blue, green, red order. */
  datatype BGR = BGR(blue: int, green: int, red: int)

  const TapeColor: BGR := BGR(20, 20, 20)

  /** `b & 0xFF`: the unsigned value of a byte. */
  function Unsigned(b: JByte): (u: int)
    ensures 0 <= u < 256
    ensures (u - b) % 256 == 0
  {
    if b < 0 then b + 256 else b
  }

  /** `calculatePixelLocation`: the index of the first byte of pixel
      (x + xOff, y + yOff). */
  function PixelLocation(width: int, y: int, x: int, yOff: int, xOff: int): (loc: int)
    ensures loc == PixelStep * ((y + yOff) * width + (x + xOff))
  {
    ((y + yOff) * width * PixelStep) + ((x + xOff) * PixelStep)
  }

  /** Every pixel of the frame lies inside the buffer. */
  lemma PixelLocationInBounds(img: Image, y: int, x: int)
    requires WellFormed(img) && 0 <= y < img.height && 0 <= x < img.width
    ensures 0 <= PixelLocation(img.width, y, x, 0, 0)
    ensures PixelLocation(img.width, y, x, 0, 0) + 2 < |img.pixels|
  {
    var w := img.width;
    ScaleBetween(w, y, img.height - 1);
    assert y * w + x < img.height * w by {
      assert (img.height - 1) * w + w == img.height * w;
    }
    assert |img.pixels| == PixelStep * (img.height * w);
  }

  /** Different pixels of a row-major frame start at different bytes. */
  lemma PixelLocationInjective(width: int, y1: int, x1: int, y2: int, x2: int)
    requires 0 <= x1 < width && 0 <= x2 < width
    requires PixelLocation(width, y1, x1, 0, 0) == PixelLocation(width, y2, x2, 0, 0)
    ensures y1 == y2 && x1 == x2
  {
    assert y1 * width + x1 == y2 * width + x2;
    if y1 != y2 {
      var lo, hi, xlo, xhi := if y1 < y2 then y1 else y2, if y1 < y2 then y2 else y1,
                              if y1 < y2 then x1 else x2, if y1 < y2 then x2 else x1;
      assert lo * width + xlo == hi * width + xhi;
      assert (hi - lo) * width == xlo - xhi;
      MultipleOfPositive(hi - lo, width);
    }
  }

  /** `getBGR`: the three bytes at a location, read unsigned; outside the
      buffer the array access raises. */
  function GetBGR(pixels: seq<JByte>, loc: int): (r: Result<BGR>)
    ensures r.Ok? <==> 0 <= loc && loc + 2 < |pixels|
    ensures r.Err? ==> r.failure == IndexOutOfBoundsException
    ensures r.Ok? ==> 0 <= r.value.blue < 256 && 0 <= r.value.green < 256 && 0 <= r.value.red < 256
    ensures r.Ok? ==> (r.value.blue - pixels[loc]) % 256 == 0 && (r.value.green - pixels[loc + 1]) % 256 == 0
                      && (r.value.red - pixels[loc + 2]) % 256 == 0
  {
    if 0 <= loc && loc + 2 < |pixels| then
      Ok(BGR(Unsigned(pixels[loc]), Unsigned(pixels[loc + 1]), Unsigned(pixels[loc + 2])))
    else Err(IndexOutOfBoundsException)
  }

  /** The square of `colorDifference`, the Euclidean distance of two colours. */
  function SquaredColorDifference(p: BGR, q: BGR): (d: int)
    ensures d >= 0
    ensures p == q ==> d == 0
  {
    var db, dg, dr := q.blue - p.blue, q.green - p.green, q.red - p.red;
    db * db + dg * dg + dr * dr
  }

  /** The squared distance is never negative, and it is zero exactly for
      equal colours. */
  lemma SquaredColorDifferenceZero(p: BGR, q: BGR)
    ensures SquaredColorDifference(p, q) >= 0
    ensures SquaredColorDifference(p, q) == 0 <==> p == q
  {
    SquareIsZero(q.blue - p.blue);
    SquareIsZero(q.green - p.green);
    SquareIsZero(q.red - p.red);
  }

  lemma SquareIsZero(n: int)
    ensures n * n >= 0 && (n * n == 0 <==> n == 0)
  {
    if n != 0 {
      MultipleOfPositive(if n < 0 then -n else n, if n < 0 then -n else n);
    }
  }

  /** A tape pixel: its distance to the tape colour is below 100. The
      distance is the square root of an integer, so this is the integer test
      on its square. The tape colour itself is tape, and a tape pixel lies
      within 100 of the tape colour on every channel. */
  predicate IsTape(p: BGR)
    ensures p == TapeColor ==> IsTape(p)
    ensures IsTape(p) ==> Abs(p.blue - TapeColor.blue) < TapePixelErrorThreshold
                          && Abs(p.green - TapeColor.green) < TapePixelErrorThreshold
                          && Abs(p.red - TapeColor.red) < TapePixelErrorThreshold
  {
    TapeChannels(p);
    SquaredColorDifference(p, TapeColor) < TapePixelErrorThreshold * TapePixelErrorThreshold
  }

  /** A number whose square is below the square of a positive bound is
      below the bound in magnitude. */
  lemma SquareBelow(n: int, bound: int)
    requires bound > 0
    ensures n * n < bound * bound ==> Abs(n) < bound
  {
    if Abs(n) >= bound {
      MultipleOfPositive(Abs(n) - bound, Abs(n) + bound);
      assert n * n - bound * bound == (Abs(n) - bound) * (Abs(n) + bound);
    }
  }

  lemma TapeChannels(p: BGR)
    ensures SquaredColorDifference(p, TapeColor) < TapePixelErrorThreshold * TapePixelErrorThreshold ==>
              Abs(p.blue - TapeColor.blue) < TapePixelErrorThreshold
              && Abs(p.green - TapeColor.green) < TapePixelErrorThreshold
              && Abs(p.red - TapeColor.red) < TapePixelErrorThreshold
  {
    var db, dg, dr := TapeColor.blue - p.blue, TapeColor.green - p.green, TapeColor.red - p.red;
    SquareIsZero(db);
    SquareIsZero(dg);
    SquareIsZero(dr);
    assert SquaredColorDifference(p, TapeColor) == db * db + dg * dg + dr * dr;
    SquareBelow(db, TapePixelErrorThreshold);
    SquareBelow(dg, TapePixelErrorThreshold);
    SquareBelow(dr, TapePixelErrorThreshold);
    assert Abs(db) == Abs(p.blue - TapeColor.blue);
    assert Abs(dg) == Abs(p.green - TapeColor.green);
    assert Abs(dr) == Abs(p.red - TapeColor.red);
  }

  /** Whether pixel (x, y) of a frame is tape. The `Err` case stands for the
      array access of `getBGR` raising; TapeAtReadsPixel shows it never does
      for a pixel of a well-formed frame. */
  function TapeAt(img: Image, y: int, x: int): bool
    requires WellFormed(img) && 0 <= y < img.height && 0 <= x < img.width
  {
    match GetBGR(img.pixels, PixelLocation(img.width, y, x, 0, 0))
    case Ok(p) => IsTape(p)
    case Err(_) => false
  }

  /** Every pixel of a well-formed frame is read, and its tape flag is the
      tape test of its colour. */
  lemma TapeAtReadsPixel(img: Image, y: int, x: int)
    requires WellFormed(img) && 0 <= y < img.height && 0 <= x < img.width
    ensures var r := GetBGR(img.pixels, PixelLocation(img.width, y, x, 0, 0));
            r.Ok? && TapeAt(img, y, x) == IsTape(r.value)
  {
    PixelLocationInBounds(img, y, x);
  }

  /** The tape flags of row y. */
  function TapeRow(img: Image, y: int): (row: seq<bool>)
    requires WellFormed(img) && 0 <= y < img.height
    ensures |row| == img.width
  {
    TapeRowUpTo(img, y, img.width)
  }

  /** The tape flags of the first n pixels of row y. */
  function TapeRowUpTo(img: Image, y: int, n: int): (row: seq<bool>)
    requires WellFormed(img) && 0 <= y < img.height && 0 <= n <= img.width
    ensures |row| == n
  {
    if n == 0 then [] else TapeRowUpTo(img, y, n - 1) + [TapeAt(img, y, n - 1)]
  }

  /** Flag x of a row is whether pixel (x, y) is tape. */
  lemma {:induction false} TapeRowAt(img: Image, y: int, n: int, x: int)
    requires WellFormed(img) && 0 <= y < img.height && 0 <= x < n <= img.width
    ensures TapeRowUpTo(img, y, n)[x] == TapeAt(img, y, x)
  {
    if x < n - 1 {
      TapeRowAt(img, y, n - 1, x);
    }
  }

  // ---------------------------------------------------------------------------
  // Scanning one row

  /** The scan's state after a prefix of a row: the borders found and the
      length of the tape run the prefix ends in. */
  datatype RunScan = RunScan(borders: seq<int>, run: int)

  /** The scan over a prefix of a row's tape flags: a tape pixel lengthens the
      run; any other pixel at x ends it, adding the border x - run/2 when the
      run was at least three pixels long. */
  function ScanPrefix(tape: seq<bool>): (s: RunScan)
    ensures 0 <= s.run <= |tape|
  {
    if |tape| == 0 then RunScan([], 0)
    else
      var s := ScanPrefix(tape[..|tape| - 1]);
      var x := |tape| - 1;
      if tape[x] then RunScan(s.borders, s.run + 1)
      else if s.run >= TapeWidthThreshold then RunScan(s.borders + [x - s.run / 2], 0)
      else RunScan(s.borders, 0)
  }

  /** The borders of a row: the scan's borders, plus one for a run reaching
      the right edge, whose length is decremented before the threshold test. */
  function RowBorders(tape: seq<bool>): (b: seq<int>)
  {
    var s := ScanPrefix(tape);
    var run := s.run - 1;
    if run >= TapeWidthThreshold then s.borders + [|tape| - 1 - run / 2] else s.borders
  }

  /** The scan's run is the row's trailing tape run: every pixel in it is
      tape, and the pixel before it is not. */
  lemma {:induction false} ScanPrefixRun(tape: seq<bool>)
    ensures var s := ScanPrefix(tape);
            (forall k :: |tape| - s.run <= k < |tape| ==> tape[k])
            && (s.run < |tape| ==> !tape[|tape| - 1 - s.run])
  {
    if |tape| > 0 {
      ScanPrefixRun(tape[..|tape| - 1]);
    }
  }

  /** A row's borders are the scan's, plus at most one for the trailing run,
      which is added exactly when that run is at least four pixels long. */
  lemma RowBordersTrailingRun(tape: seq<bool>)
    ensures var s, b := ScanPrefix(tape), RowBorders(tape);
            s.borders <= b && |b| <= |s.borders| + 1
            && (|b| > |s.borders| <==> s.run >= TapeWidthThreshold + 1)
  {
  }

  /** Borders that increase strictly, lie below `bound` and are tape pixels. */
  predicate BordersOnTape(borders: seq<int>, tape: seq<bool>, bound: int)
    requires bound <= |tape|
  {
    (forall k :: 0 <= k < |borders| ==> 0 <= borders[k] < bound && tape[borders[k]])
    && (forall k, l :: 0 <= k < l < |borders| ==> borders[k] < borders[l])
  }

  /** The scan's run is the row's trailing tape, and every border found so
      far is a tape pixel before that run, in increasing order. */
  lemma {:induction false} ScanPrefixInvariant(tape: seq<bool>)
    ensures var s := ScanPrefix(tape);
            0 <= s.run <= |tape|
            && (forall i :: |tape| - s.run <= i < |tape| ==> tape[i])
            && BordersOnTape(s.borders, tape, |tape| - s.run)
  {
    if |tape| > 0 {
      var n := |tape|;
      var prefix := tape[..n - 1];
      ScanPrefixInvariant(prefix);
      var s := ScanPrefix(prefix);
      assert forall i :: 0 <= i < n - 1 ==> prefix[i] == tape[i];
      if !tape[n - 1] && s.run >= TapeWidthThreshold {
        var b := n - 1 - s.run / 2;
        assert n - 1 - s.run <= b < n - 1;
        assert tape[b];
      }
    }
  }

  /** Every border of a row is a tape pixel of the row, and the borders
      increase strictly. */
  lemma RowBordersOnTape(tape: seq<bool>)
    ensures BordersOnTape(RowBorders(tape), tape, |tape|)
  {
    ScanPrefixInvariant(tape);
    var s := ScanPrefix(tape);
    if s.run - 1 >= TapeWidthThreshold {
      var b := |tape| - 1 - (s.run - 1) / 2;
      assert |tape| - s.run <= b < |tape|;
      assert tape[b];
    }
  }

  /** A run of three inside a row yields its middle pixel; the same run at
      the right edge yields nothing, because the trailing run is decremented
      first; a trailing run of four does. Two pixels are never a border. */
  lemma RowBordersExamples()
    ensures RowBorders([false, true, true, true, false]) == [3]
    ensures RowBorders([false, true, true, true]) == []
    ensures RowBorders([false, true, true, true, true]) == [3]
    ensures RowBorders([true, true, false, true, true]) == []
  {
    var t := [false, true, true, true, true];
    assert t[..1] == [false] && t[..2][..1] == [false] && t[..3][..2] == t[..2];
    assert t[..4][..3] == t[..3] && t[..5][..4] == t[..4];
    assert ScanPrefix(t[..1]) == RunScan([], 0);
    assert ScanPrefix(t[..2]) == RunScan([], 1);
    assert ScanPrefix(t[..3]) == RunScan([], 2);
    assert ScanPrefix(t[..4]) == RunScan([], 3);
    assert ScanPrefix(t) == RunScan([], 4);
    var e := t[..4] + [false];
    assert e[..4] == t[..4];
    assert ScanPrefix(e) == RunScan([3], 0);
    assert e == [false, true, true, true, false] && RowBorders(e) == [3];
    assert t[..4] == [false, true, true, true] && RowBorders(t[..4]) == [];
    var b := [true, true, false, true, true];
    assert b[..1] == [true] && b[..2][..1] == [true] && b[..3][..2] == b[..2];
    assert b[..4][..3] == b[..3] && b[..5][..4] == b[..4];
    assert ScanPrefix(b[..2]) == RunScan([], 2);
    assert ScanPrefix(b[..3]) == RunScan([], 0);
    assert ScanPrefix(b) == RunScan([], 2);
  }

  /** The row loop of `calculateTrackBoundaries`: read every pixel of row y
      from the buffer, count tape runs, and collect the borders. */
  method ScanRow(img: Image, y: int) returns (borders: seq<int>)
    requires WellFormed(img) && 0 <= y < img.height
    ensures borders == RowBorders(TapeRow(img, y))
  {
    ghost var tape := TapeRow(img, y);
    borders := [];
    var consecutiveTapePixels := 0;
    var x := 0;
    while x < img.width
      invariant 0 <= x <= img.width
      invariant RunScan(borders, consecutiveTapePixels) == ScanPrefix(tape[..x])
    {
      PixelLocationInBounds(img, y, x);
      TapeRowAt(img, y, img.width, x);
      var pixelLocation := PixelLocation(img.width, y, x, 0, 0);
      var pixel := GetBGR(img.pixels, pixelLocation).value;
      assert tape[..x + 1][..x] == tape[..x];
      if IsTape(pixel) {
        consecutiveTapePixels := consecutiveTapePixels + 1;
      } else {
        if consecutiveTapePixels >= TapeWidthThreshold {
          borders := borders + [x - consecutiveTapePixels / 2];
        }
        consecutiveTapePixels := 0;
      }
      x := x + 1;
    }
    assert tape[..img.width] == tape;
    consecutiveTapePixels := consecutiveTapePixels - 1;
    if consecutiveTapePixels >= TapeWidthThreshold {
      borders := borders + [img.width - 1 - consecutiveTapePixels / 2];
    }
  }

  // ---------------------------------------------------------------------------
  // Choosing a row's scanline

  /** A scanned line: the row, and the left and right border of the road. */
  datatype Scanline = Scanline(y: int, left: int, right: int)

  /** The gap between border i and border i + 1. */
  function Gap(borders: seq<int>, i: int): int
    requires 0 <= i < |borders| - 1
  {
    borders[i + 1] - borders[i]
  }

  /** The pair the `borderPtr` loop settles on among the first n gaps: the
      index of the first gap longer than all before it and than 0, or -1 when
      no gap is positive. */
  function FirstWidest(borders: seq<int>, n: int): (i: int)
    requires 0 <= n <= |borders| - 1
    ensures -1 <= i < n
  {
    if n == 0 then -1
    else
      var i := FirstWidest(borders, n - 1);
      var maxLength := if i < 0 then 0 else Gap(borders, i);
      if Gap(borders, n - 1) > maxLength then n - 1 else i
  }

  /** The chosen gap is the first of the longest gaps, and it is positive;
      with no positive gap nothing is chosen. */
  lemma {:induction false} FirstWidestIsFirstLongest(borders: seq<int>, n: int)
    requires 0 <= n <= |borders| - 1
    ensures var i := FirstWidest(borders, n);
            (i < 0 ==> forall j :: 0 <= j < n ==> Gap(borders, j) <= 0)
            && (i >= 0 ==> Gap(borders, i) > 0
                           && (forall j :: 0 <= j < n ==> Gap(borders, j) <= Gap(borders, i))
                           && (forall j :: 0 <= j < i ==> Gap(borders, j) < Gap(borders, i)))
  {
    if n > 0 {
      FirstWidestIsFirstLongest(borders, n - 1);
    }
  }

  /** The scanline of row y: none for fewer than two borders; otherwise the
      first longest gap, or (0, 0) when no gap is positive. For the borders
      of a scanned row the (0, 0) case cannot arise, as the borders increase
      strictly (ScanlineOnTape proves left < right). */
  function ScanlineOf(y: int, borders: seq<int>): (r: Option<Scanline>)
    ensures r.Some? <==> |borders| > 1
    ensures r.Some? ==> r.value.y == y
    ensures r.Some? ==> r.value == Scanline(y, 0, 0)
                        || exists i :: 0 <= i < |borders| - 1 && r.value.left == borders[i] && r.value.right == borders[i + 1]
  {
    if |borders| > 1 then
      var i := FirstWidest(borders, |borders| - 1);
      if i < 0 then Some(Scanline(y, 0, 0)) else Some(Scanline(y, borders[i], borders[i + 1]))
    else None
  }

  /** The chosen pair spans a gap at least as wide as every gap of the row,
      and it is (0, 0) only when no gap is positive. */
  lemma ScanlineOfIsWidest(y: int, borders: seq<int>)
    ensures var s := ScanlineOf(y, borders);
            s.Some? ==> (forall j :: 0 <= j < |borders| - 1 ==> Gap(borders, j) <= s.value.right - s.value.left)
                        && (s.value == Scanline(y, 0, 0) <==> forall j :: 0 <= j < |borders| - 1 ==> Gap(borders, j) <= 0)
  {
    if |borders| > 1 {
      FirstWidestIsFirstLongest(borders, |borders| - 1);
    }
  }

  /** The scanline code of `calculateTrackBoundaries` for one row. */
  method PickScanline(y: int, borders: seq<int>) returns (scanline: Option<Scanline>)
    ensures scanline == ScanlineOf(y, borders)
  {
    if |borders| > 1 {
      var left, right := 0, 0;
      var maxLength := 0;
      var borderPtr := 0;
      while borderPtr < |borders| - 1
        invariant 0 <= borderPtr <= |borders| - 1
        invariant var i := FirstWidest(borders, borderPtr);
                  (i < 0 ==> maxLength == 0 && left == 0 && right == 0)
                  && (i >= 0 ==> maxLength == Gap(borders, i) && left == borders[i] && right == borders[i + 1])
      {
        var length := borders[borderPtr + 1] - borders[borderPtr];
        if length > maxLength {
          maxLength := length;
          left := borders[borderPtr];
          right := borders[borderPtr + 1];
        }
        borderPtr := borderPtr + 1;
      }
      scanline := Some(Scanline(y, left, right));
    } else {
      scanline := None;
    }
  }

  /** The scanline of a scanned row joins two consecutive borders with the
      widest gap, so both ends are tape pixels and left lies before right. */
  lemma ScanlineOnTape(y: int, tape: seq<bool>)
    ensures var s := ScanlineOf(y, RowBorders(tape));
            s.Some? ==> s.value.y == y && 0 <= s.value.left < s.value.right < |tape|
                        && tape[s.value.left] && tape[s.value.right]
  {
    var borders := RowBorders(tape);
    RowBordersOnTape(tape);
    if |borders| > 1 {
      FirstWidestIsFirstLongest(borders, |borders| - 1);
      assert Gap(borders, 0) > 0;
    }
  }

  // ---------------------------------------------------------------------------
  // Filtering outliers

  /** The first index of line i's averaging window: three lines either side,
      shifted to start at 0 or to end at the last line. */
  function WindowStart(line: int, size: int): (start: int)
    ensures start == if line < 3 then 0 else Min(line - 3, size - 6)
  {
    var startValue := line - NoisePointsAverage / 2;
    var endValue := line + NoisePointsAverage / 2;
    if startValue < 0 then 0
    else if endValue > size then startValue - (endValue - size)
    else startValue
  }

  /** One past the last index of line i's averaging window. */
  function WindowEnd(line: int, size: int): (end: int)
    ensures end == if line < 3 then 6 else Min(line + 3, size)
  {
    var startValue := line - NoisePointsAverage / 2;
    var endValue := line + NoisePointsAverage / 2;
    if startValue < 0 then endValue - startValue
    else if endValue > size then size
    else endValue
  }

  /** Every window holds six lines including the line itself, and with six
      lines or more it fits. */
  lemma WindowFits(line: int, size: int)
    requires 0 <= line < size
    ensures WindowEnd(line, size) - WindowStart(line, size) == 6
    ensures size >= 6 ==> 0 <= WindowStart(line, size) && WindowEnd(line, size) <= size
    ensures WindowStart(line, size) <= line < WindowEnd(line, size)
  {
  }

  function SumLeft(lines: seq<Scanline>, start: int, end: int): int
    requires 0 <= start <= end <= |lines|
  {
    if end == start then 0 else SumLeft(lines, start, end - 1) + lines[end - 1].left
  }

  function SumRight(lines: seq<Scanline>, start: int, end: int): int
    requires 0 <= start <= end <= |lines|
  {
    if end == start then 0 else SumRight(lines, start, end - 1) + lines[end - 1].right
  }

  /** Whether line i is kept: its distance to the averages of its window,
      left plus right, is below the noise threshold. */
  predicate Keep(lines: seq<Scanline>, i: int)
    requires |lines| >= 6 && 0 <= i < |lines|
    ensures Keep(lines, i) ==>
              var avg := WindowAverage(lines, WindowStart(i, |lines|), WindowEnd(i, |lines|));
              Abs(lines[i].left - avg.left) < NoiseThreshold && Abs(lines[i].right - avg.right) < NoiseThreshold
  {
    WindowFits(i, |lines|);
    Noise(lines[i], WindowAverage(lines, WindowStart(i, |lines|), WindowEnd(i, |lines|))) < NoiseThreshold
  }

  /** The average left and right border over a window, truncated. */
  function WindowAverage(lines: seq<Scanline>, start: int, end: int): (avg: Scanline)
    requires 0 <= start < end <= |lines|
    ensures var n, l, r := end - start, SumLeft(lines, start, end), SumRight(lines, start, end);
            Abs(l) - n < Abs(n * avg.left) <= Abs(l) && Abs(r) - n < Abs(n * avg.right) <= Abs(r)
            && (l >= 0 ==> avg.left >= 0) && (l <= 0 ==> avg.left <= 0)
            && (r >= 0 ==> avg.right >= 0) && (r <= 0 ==> avg.right <= 0)
  {
    JavaDivBounds(SumLeft(lines, start, end), end - start);
    JavaDivBounds(SumRight(lines, start, end), end - start);
    Scanline(0, JavaDiv(SumLeft(lines, start, end), end - start), JavaDiv(SumRight(lines, start, end), end - start))
  }

  /** How far a line's borders lie from the average borders. */
  function Noise(line: Scanline, avg: Scanline): (n: nat)
    ensures n == 0 <==> line.left == avg.left && line.right == avg.right
    ensures n >= Abs(line.left - avg.left) && n >= Abs(line.right - avg.right)
  {
    Abs(line.left - avg.left) + Abs(line.right - avg.right)
  }

  /** The kept lines among the first n, in order. */
  function FilterUpTo(lines: seq<Scanline>, n: int): seq<Scanline>
    requires |lines| >= 6 && 0 <= n <= |lines|
  {
    if n == 0 then [] else FilterUpTo(lines, n - 1) + (if Keep(lines, n - 1) then [lines[n - 1]] else [])
  }

  /** The indices of the kept lines among the first n. */
  function KeptUpTo(lines: seq<Scanline>, n: int): seq<int>
    requires |lines| >= 6 && 0 <= n <= |lines|
  {
    if n == 0 then [] else KeptUpTo(lines, n - 1) + (if Keep(lines, n - 1) then [n - 1] else [])
  }

  /** The filter's output is the subsequence of the kept lines: their indices
      increase strictly, every one is kept, and every kept line is there. */
  lemma FilterIsSubsequence(lines: seq<Scanline>, n: int)
    requires |lines| >= 6 && 0 <= n <= |lines|
    ensures var out, idx := FilterUpTo(lines, n), KeptUpTo(lines, n);
            |out| == |idx|
            && (forall k :: 0 <= k < |idx| ==> 0 <= idx[k] < n && Keep(lines, idx[k]) && out[k] == lines[idx[k]])
            && (forall k, l :: 0 <= k < l < |idx| ==> idx[k] < idx[l])
            && (forall i :: 0 <= i < n && Keep(lines, i) ==> i in idx)
  {
    KeptLinesMatch(lines, n);
    KeptIndicesOrdered(lines, n);
    KeptIndicesComplete(lines, n);
  }

  lemma {:induction false} KeptLinesMatch(lines: seq<Scanline>, n: int)
    requires |lines| >= 6 && 0 <= n <= |lines|
    ensures var out, idx := FilterUpTo(lines, n), KeptUpTo(lines, n);
            |out| == |idx| && forall k :: 0 <= k < |idx| ==> 0 <= idx[k] < n && Keep(lines, idx[k]) && out[k] == lines[idx[k]]
  {
    if n > 0 {
      KeptLinesMatch(lines, n - 1);
    }
  }

  lemma {:induction false} KeptIndicesOrdered(lines: seq<Scanline>, n: int)
    requires |lines| >= 6 && 0 <= n <= |lines|
    ensures forall k :: 0 <= k < |KeptUpTo(lines, n)| ==> KeptUpTo(lines, n)[k] < n
    ensures forall k, l :: 0 <= k < l < |KeptUpTo(lines, n)| ==> KeptUpTo(lines, n)[k] < KeptUpTo(lines, n)[l]
  {
    if n > 0 {
      KeptIndicesOrdered(lines, n - 1);
      var prev := KeptUpTo(lines, n - 1);
      var extra: seq<int> := if Keep(lines, n - 1) then [n - 1] else [];
      var idx := prev + extra;
      assert KeptUpTo(lines, n) == idx;
      forall k | 0 <= k < |idx|
        ensures idx[k] < n
      {
        if k < |prev| { assert idx[k] == prev[k]; assert prev[k] < n - 1; } else { assert idx[k] == n - 1; }
      }
      forall k, l | 0 <= k < l < |idx|
        ensures idx[k] < idx[l]
      {
        if l < |prev| {
          assert idx[k] == prev[k] && idx[l] == prev[l];
          assert prev[k] < prev[l];
        } else {
          assert idx[k] == prev[k] && idx[l] == n - 1;
          assert prev[k] < n - 1;
        }
      }
    }
  }

  lemma {:induction false} KeptIndicesComplete(lines: seq<Scanline>, n: int)
    requires |lines| >= 6 && 0 <= n <= |lines|
    ensures forall i :: 0 <= i < n && Keep(lines, i) ==> i in KeptUpTo(lines, n)
  {
    if n > 0 {
      KeptIndicesComplete(lines, n - 1);
    }
  }

  /** What `filterOutliers` returns: nothing to filter for no lines; one to
      five lines make the first window reach past the end of the list. */
  function FilterResult(lines: seq<Scanline>): (r: Result<seq<Scanline>>)
    ensures r.Err? <==> 1 <= |lines| <= 5
    ensures r.Err? ==> r.failure == IndexOutOfBoundsException
    ensures |lines| == 0 ==> r == Ok([])
  {
    if |lines| == 0 then Ok([])
    else if |lines| < 6 then Err(IndexOutOfBoundsException)
    else Ok(FilterUpTo(lines, |lines|))
  }

  /** `filterOutliers`. */
  method FilterOutliers(scannedLines: seq<Scanline>) returns (r: Result<seq<Scanline>>)
    ensures r == FilterResult(scannedLines)
  {
    var size := |scannedLines|;
    var filteredLines: seq<Scanline> := [];
    var line := 0;
    while line < size
      invariant 0 <= line <= size
      invariant line > 0 ==> size >= 6
      invariant line == 0 ==> filteredLines == []
      invariant size >= 6 ==> filteredLines == FilterUpTo(scannedLines, line)
    {
      var startValue := line - NoisePointsAverage / 2;
      var endValue := line + NoisePointsAverage / 2;
      if startValue < 0 {
        endValue := endValue - startValue;
        startValue := 0;
      } else if endValue > size {
        startValue := startValue - (endValue - size);
        endValue := size;
      }
      assert startValue == WindowStart(line, size) && endValue == WindowEnd(line, size);
      WindowFits(line, size);
      var avg := AverageOver(scannedLines, startValue, endValue);
      if avg.Err? {
        assert line == 0 && size < 6;
        return Err(avg.failure);
      }
      assert size >= 6;
      FilterStep(scannedLines, line, avg.value);
      if Noise(scannedLines[line], avg.value) < NoiseThreshold {
        filteredLines := filteredLines + [scannedLines[line]];
      }
      line := line + 1;
    }
    r := Ok(filteredLines);
  }

  /** One step of the filter: line i is appended exactly when its noise
      against its window's average is below the threshold. */
  lemma FilterStep(lines: seq<Scanline>, i: int, avg: Scanline)
    requires |lines| >= 6 && 0 <= i < |lines|
    requires avg == WindowAverage(lines, WindowStart(i, |lines|), WindowEnd(i, |lines|))
    ensures FilterUpTo(lines, i + 1)
            == FilterUpTo(lines, i) + (if Noise(lines[i], avg) < NoiseThreshold then [lines[i]] else [])
  {
  }

  /** The averaging loop of `filterOutliers` over lines start to end - 1;
      reading a line outside the list raises. */
  method AverageOver(lines: seq<Scanline>, start: int, end: int) returns (r: Result<Scanline>)
    requires start < end
    ensures r.Err? <==> start < 0 || end > |lines|
    ensures r.Err? ==> r.failure == IndexOutOfBoundsException
    ensures r.Ok? ==> r.value == WindowAverage(lines, start, end)
  {
    var sumLeft, sumRight := 0, 0;
    var cLine := start;
    while cLine < end
      invariant start <= cLine <= end
      invariant cLine > start ==> 0 <= start && cLine <= |lines|
      invariant cLine > start ==> sumLeft == SumLeft(lines, start, cLine) && sumRight == SumRight(lines, start, cLine)
      invariant cLine == start ==> sumLeft == 0 && sumRight == 0
    {
      if cLine < 0 || cLine >= |lines| {
        return Err(IndexOutOfBoundsException);
      }
      sumLeft := sumLeft + lines[cLine].left;
      sumRight := sumRight + lines[cLine].right;
      cLine := cLine + 1;
    }
    r := Ok(Scanline(0, JavaDiv(sumLeft, end - start), JavaDiv(sumRight, end - start)));
  }

  /** Where every line has the same borders, the averages are those borders
      and no line is dropped. */
  lemma ConstantLinesKept(lines: seq<Scanline>)
    requires |lines| >= 6
    requires forall i :: 0 <= i < |lines| ==> lines[i].left == lines[0].left && lines[i].right == lines[0].right
    ensures FilterResult(lines) == Ok(lines)
  {
    forall i | 0 <= i < |lines|
      ensures Keep(lines, i)
    {
      var start, end := WindowStart(i, |lines|), WindowEnd(i, |lines|);
      WindowFits(i, |lines|);
      ConstantSums(lines, start, end);
      JavaDivExact(lines[0].left, 6);
      JavaDivExact(lines[0].right, 6);
    }
    FilterKeepsAll(lines, |lines|);
    assert lines[..|lines|] == lines;
  }

  lemma {:induction false} ConstantSums(lines: seq<Scanline>, start: int, end: int)
    requires 0 <= start <= end <= |lines| && |lines| > 0
    requires forall i :: 0 <= i < |lines| ==> lines[i].left == lines[0].left && lines[i].right == lines[0].right
    ensures SumLeft(lines, start, end) == lines[0].left * (end - start)
    ensures SumRight(lines, start, end) == lines[0].right * (end - start)
  {
    if end > start {
      ConstantSums(lines, start, end - 1);
    }
  }

  lemma {:induction false} FilterKeepsAll(lines: seq<Scanline>, n: int)
    requires |lines| >= 6 && 0 <= n <= |lines|
    requires forall i :: 0 <= i < |lines| ==> Keep(lines, i)
    ensures FilterUpTo(lines, n) == lines[..n]
  {
    if n > 0 {
      FilterKeepsAll(lines, n - 1);
      assert lines[..n] == lines[..n - 1] + [lines[n - 1]];
    }
  }

  // ---------------------------------------------------------------------------
  // Track boundaries

  /** The tape flags of every row of a frame. */
  function TapeMask(img: Image): (mask: seq<seq<bool>>)
    requires WellFormed(img)
    ensures |mask| == img.height
    ensures forall y :: 0 <= y < img.height ==> mask[y] == TapeRow(img, y)
  {
    seq(img.height, y requires 0 <= y < img.height => TapeRow(img, y))
  }

  /** The scanlines of the rows of `mask` from the horizon up to (not
      including) row yEnd, top to bottom. */
  function ScannedLinesUpTo(mask: seq<seq<bool>>, yEnd: int): seq<Scanline>
    requires yEnd <= |mask| || yEnd <= WebcamHorizon
    decreases yEnd
  {
    if yEnd <= WebcamHorizon then []
    else
      var y := yEnd - 1;
      var rest := ScannedLinesUpTo(mask, y);
      match ScanlineOf(y, RowBorders(mask[y]))
      case None => rest
      case Some(s) => rest + [s]
  }

  /** Scanned lines come from the rows below the horizon, top to bottom, one
      per row at most, and both their ends are tape pixels of their row. */
  predicate LinesOfFrame(mask: seq<seq<bool>>, lines: seq<Scanline>)
  {
    (forall k :: 0 <= k < |lines| ==>
       WebcamHorizon <= lines[k].y < |mask|
       && 0 <= lines[k].left < lines[k].right < |mask[lines[k].y]|
       && mask[lines[k].y][lines[k].left] && mask[lines[k].y][lines[k].right])
    && (forall k, l :: 0 <= k < l < |lines| ==> lines[k].y < lines[l].y)
  }

  /** Scanning one more row appends that row's scanline, if it has one. */
  lemma ScannedLinesStep(mask: seq<seq<bool>>, y: int, scanline: Option<Scanline>)
    requires WebcamHorizon <= y < |mask|
    requires scanline == ScanlineOf(y, RowBorders(mask[y]))
    ensures scanline.None? ==> ScannedLinesUpTo(mask, y + 1) == ScannedLinesUpTo(mask, y)
    ensures scanline.Some? ==> ScannedLinesUpTo(mask, y + 1) == ScannedLinesUpTo(mask, y) + [scanline.value]
  {
  }

  lemma ScannedLinesOfFrame(mask: seq<seq<bool>>, yEnd: int)
    requires yEnd <= |mask|
    ensures LinesOfFrame(mask, ScannedLinesUpTo(mask, yEnd))
    ensures forall k :: 0 <= k < |ScannedLinesUpTo(mask, yEnd)| ==> ScannedLinesUpTo(mask, yEnd)[k].y < yEnd
  {
    if yEnd <= WebcamHorizon {
      assert ScannedLinesUpTo(mask, yEnd) == [];
    } else {
      var rows := seq(yEnd - WebcamHorizon, k requires 0 <= k < yEnd - WebcamHorizon =>
                        ScanlineOf(WebcamHorizon + k, RowBorders(mask[WebcamHorizon + k])));
      CollectRows(mask, rows, yEnd);
      forall k | 0 <= k < |rows| && rows[k].Some?
        ensures OnRow(mask, WebcamHorizon + k, rows[k].value)
      {
        ScanlineOnTape(WebcamHorizon + k, mask[WebcamHorizon + k]);
      }
      CollectOfFrame(mask, rows);
    }
  }

  /** Scanline s belongs to row y of the mask and joins two of its tape pixels. */
  predicate OnRow(mask: seq<seq<bool>>, y: int, s: Scanline)
  {
    s.y == y && 0 <= y < |mask| && 0 <= s.left < s.right < |mask[y]| && mask[y][s.left] && mask[y][s.right]
  }

  /** Collecting per-row results that each lie on their own row, from the
      horizon down, gives lines of the frame. */
  lemma {:induction false} CollectOfFrame(mask: seq<seq<bool>>, rows: seq<Option<Scanline>>)
    requires WebcamHorizon + |rows| <= |mask|
    requires forall k :: 0 <= k < |rows| && rows[k].Some? ==> OnRow(mask, WebcamHorizon + k, rows[k].value)
    ensures LinesOfFrame(mask, Collect(rows))
    ensures forall k :: 0 <= k < |Collect(rows)| ==> Collect(rows)[k].y < WebcamHorizon + |rows|
  {
    if |rows| > 0 {
      var prefix := rows[..|rows| - 1];
      CollectOfFrame(mask, prefix);
      var last := rows[|rows| - 1];
      if last.Some? {
        LinesOfFrameAppend(mask, Collect(prefix), last.value);
      }
    }
  }

  /** A line below every earlier one, joining two tape pixels of its row,
      extends the lines of a frame. */
  lemma LinesOfFrameAppend(mask: seq<seq<bool>>, lines: seq<Scanline>, s: Scanline)
    requires LinesOfFrame(mask, lines)
    requires forall k :: 0 <= k < |lines| ==> lines[k].y < s.y
    requires WebcamHorizon <= s.y < |mask| && 0 <= s.left < s.right < |mask[s.y]|
    requires mask[s.y][s.left] && mask[s.y][s.right]
    ensures LinesOfFrame(mask, lines + [s])
  {
    var all := lines + [s];
    forall k | 0 <= k < |all|
      ensures all[k] == if k < |lines| then lines[k] else s
    {
    }
  }

  /** `calculateTrackBoundaries`: the frame's scanlines, filtered. */
  function TrackBoundariesOf(img: Image): (r: Result<seq<Scanline>>)
    requires WellFormed(img)
    ensures r.Err? ==> r.failure == IndexOutOfBoundsException
    ensures img.height <= WebcamHorizon ==> r == Ok([])
  {
    FilterResult(ScannedLinesUpTo(TapeMask(img), img.height))
  }

  /** Filtering keeps lines of a frame lines of that frame. */
  lemma FilterKeepsFrame(mask: seq<seq<bool>>, lines: seq<Scanline>)
    requires LinesOfFrame(mask, lines)
    ensures FilterResult(lines).Ok? ==> LinesOfFrame(mask, FilterResult(lines).value)
  {
    if |lines| >= 6 {
      FilterIsSubsequence(lines, |lines|);
      var out, idx := FilterUpTo(lines, |lines|), KeptUpTo(lines, |lines|);
      assert forall k :: 0 <= k < |out| ==> out[k] == lines[idx[k]];
    }
  }

  /** The mask records, pixel by pixel, whether the frame shows tape. */
  lemma TapeMaskAt(img: Image, y: int, x: int)
    requires WellFormed(img) && 0 <= y < img.height && 0 <= x < img.width
    ensures TapeMask(img)[y][x] == TapeAt(img, y, x)
  {
    TapeRowAt(img, y, img.width, x);
  }

  /** The boundaries handed on are scanlines of the frame, top to bottom,
      each joining two tape pixels of its row. */
  lemma TrackBoundariesOfFrame(img: Image)
    requires WellFormed(img)
    ensures TrackBoundariesOf(img).Ok? ==> LinesOfFrame(TapeMask(img), TrackBoundariesOf(img).value)
    ensures TrackBoundariesOf(img).Ok? ==>
              forall k :: 0 <= k < |TrackBoundariesOf(img).value| ==>
                var s := TrackBoundariesOf(img).value[k];
                s.y < img.height && s.right < img.width
                && TapeAt(img, s.y, s.left) && TapeAt(img, s.y, s.right)
  {
    var mask := TapeMask(img);
    var lines := ScannedLinesUpTo(mask, img.height);
    ScannedLinesOfFrame(mask, img.height);
    FilterKeepsFrame(mask, lines);
    if TrackBoundariesOf(img).Ok? {
      var out := TrackBoundariesOf(img).value;
      forall k | 0 <= k < |out|
        ensures out[k].y < img.height && out[k].right < img.width
        ensures TapeAt(img, out[k].y, out[k].left) && TapeAt(img, out[k].y, out[k].right)
      {
        TapeMaskAt(img, out[k].y, out[k].left);
        TapeMaskAt(img, out[k].y, out[k].right);
      }
    }
  }

  /** The scanline of row y, as the loop body of `calculateTrackBoundaries`
      finds it: scan the row for borders, then pick the widest gap. */
  method ScanRowLine(img: Image, y: int) returns (scanline: Option<Scanline>)
    requires WellFormed(img) && 0 <= y < img.height
    ensures scanline == ScanlineOf(y, RowBorders(TapeRow(img, y)))
  {
    var borders := ScanRow(img, y);
    scanline := PickScanline(y, borders);
  }

  /** The scanlines among the per-row results, in order. */
  function Collect(rows: seq<Option<Scanline>>): (lines: seq<Scanline>)
    ensures |lines| <= |rows|
  {
    if |rows| == 0 then []
    else
      var rest := Collect(rows[..|rows| - 1]);
      match rows[|rows| - 1]
      case None => rest
      case Some(s) => rest + [s]
  }

  /** Collecting the results of the rows from the horizon up to yEnd gives
      the frame's scanned lines up to yEnd. */
  lemma {:induction false} CollectRows(mask: seq<seq<bool>>, rows: seq<Option<Scanline>>, yEnd: int)
    requires WebcamHorizon <= yEnd <= |mask| && |rows| == yEnd - WebcamHorizon
    requires forall k :: 0 <= k < |rows| ==> rows[k] == ScanlineOf(WebcamHorizon + k, RowBorders(mask[WebcamHorizon + k]))
    ensures Collect(rows) == ScannedLinesUpTo(mask, yEnd)
    decreases yEnd
  {
    if yEnd > WebcamHorizon {
      var y := yEnd - 1;
      var prefix := rows[..|rows| - 1];
      CollectRows(mask, prefix, y);
      ScannedLinesStep(mask, y, rows[|rows| - 1]);
    }
  }

  /** The results of all rows from the horizon down collect to the frame's
      scanned lines. */
  lemma FrameRowsCollected(img: Image, rows: seq<Option<Scanline>>)
    requires WellFormed(img)
    requires |rows| == if img.height < WebcamHorizon then 0 else img.height - WebcamHorizon
    requires forall k :: 0 <= k < |rows| ==> rows[k] == ScanlineOf(WebcamHorizon + k, RowBorders(TapeRow(img, WebcamHorizon + k)))
    ensures Collect(rows) == ScannedLinesUpTo(TapeMask(img), img.height)
  {
    var mask := TapeMask(img);
    if img.height < WebcamHorizon {
      assert ScannedLinesUpTo(mask, img.height) == [];
    } else {
      forall k | 0 <= k < |rows|
        ensures rows[k] == ScanlineOf(WebcamHorizon + k, RowBorders(mask[WebcamHorizon + k]))
      {
        assert mask[WebcamHorizon + k] == TapeRow(img, WebcamHorizon + k);
      }
      CollectRows(mask, rows, img.height);
    }
  }

  /** The scanning loop of `calculateTrackBoundaries`: every row from the
      horizon down, keeping each row's scanline if it has one. The ghost
      `rows` records every row's result. */
  method ScanFrame(img: Image) returns (scannedLines: seq<Scanline>)
    requires WellFormed(img)
    ensures scannedLines == ScannedLinesUpTo(TapeMask(img), img.height)
  {
    ghost var rows: seq<Option<Scanline>> := [];
    scannedLines := [];
    var y := WebcamHorizon;
    while y < img.height
      invariant WebcamHorizon <= y
      invariant y <= img.height || y == WebcamHorizon
      invariant |rows| == y - WebcamHorizon
      invariant forall k :: 0 <= k < |rows| ==> rows[k] == ScanlineOf(WebcamHorizon + k, RowBorders(TapeRow(img, WebcamHorizon + k)))
      invariant scannedLines == Collect(rows)
    {
      var scanline := ScanRowLine(img, y);
      assert (rows + [scanline])[..|rows|] == rows;
      if scanline.Some? {
        scannedLines := scannedLines + [scanline.value];
      }
      rows := rows + [scanline];
      y := y + 1;
    }
    FrameRowsCollected(img, rows);
  }

  /** `calculateTrackBoundaries`: scan the frame, then filter its scanlines. */
  method CalculateTrackBoundaries(img: Image) returns (r: Result<seq<Scanline>>)
    requires WellFormed(img)
    ensures r == TrackBoundariesOf(img)
  {
    var scannedLines := ScanFrame(img);
    r := FilterOutliers(scannedLines);
  }

  // ---------------------------------------------------------------------------
  // The processor

  /** A point of the frame, as the light detector reports it. */
  datatype Point = Point(x: int, y: int)

  class ImageProcessor {
    var trackBoundaries: Option<seq<Scanline>>
    var trafficLightLocation: Option<Point>
    var waitingForGreenLight: bool

    constructor ()
      ensures trackBoundaries == None && trafficLightLocation == None && waitingForGreenLight
    {
      trackBoundaries := None;
      trafficLightLocation := None;
      waitingForGreenLight := true;
    }

    /** `run` on one frame. `lightLocation` is what the red-light search
        returns for the frame (possibly nothing) and `turnedGreen` what the
        green test says; each is used only in its own phase. Until a light is
        found the frame's boundaries are computed; while waiting only the
        light is watched; after the green light only the boundaries are. */
    method Run(img: Image, lightLocation: Option<Point>, turnedGreen: bool) returns (o: Outcome)
      requires WellFormed(img)
      modifies this
      // the phases only move forward
      ensures old(trafficLightLocation).Some? ==> trafficLightLocation == old(trafficLightLocation)
      ensures !old(waitingForGreenLight) ==> !waitingForGreenLight
      ensures old(trafficLightLocation).None? ==>
                trafficLightLocation == lightLocation && waitingForGreenLight == old(waitingForGreenLight)
                && (TrackBoundariesOf(img).Ok? ==> o == Pass && trackBoundaries == Some(TrackBoundariesOf(img).value))
                && (TrackBoundariesOf(img).Err? ==> o == Fail(TrackBoundariesOf(img).failure) && trackBoundaries == old(trackBoundaries))
      ensures old(trafficLightLocation).Some? && old(waitingForGreenLight) ==>
                o == Pass && trafficLightLocation == old(trafficLightLocation) && trackBoundaries == old(trackBoundaries)
                && waitingForGreenLight == !turnedGreen
      ensures old(trafficLightLocation).Some? && !old(waitingForGreenLight) ==>
                trafficLightLocation == old(trafficLightLocation) && !waitingForGreenLight
                && (TrackBoundariesOf(img).Ok? ==> o == Pass && trackBoundaries == Some(TrackBoundariesOf(img).value))
                && (TrackBoundariesOf(img).Err? ==> o == Fail(TrackBoundariesOf(img).failure) && trackBoundaries == old(trackBoundaries))
    {
      o := Pass;
      if trafficLightLocation.None? {
        trafficLightLocation := lightLocation;
        var boundaries := CalculateTrackBoundaries(img);
        match boundaries
        case Ok(b) => trackBoundaries := Some(b);
        case Err(f) => o := Fail(f);
      } else if waitingForGreenLight {
        if turnedGreen {
          waitingForGreenLight := false;
        }
      } else {
        var boundaries := CalculateTrackBoundaries(img);
        match boundaries
        case Ok(b) => trackBoundaries := Some(b);
        case Err(f) => o := Fail(f);
      }
    }
  }
}
