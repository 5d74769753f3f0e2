/**
 * The interactive chart inspector (components/InteractiveChartInspector.tsx):
 * the price-axis calibration, the mapping from container coordinates to a
 * price and a minute offset, the drag ruler's measurement, and the pointer
 * state that the mouse handlers and the mode button update.
 *
 * Container geometry (`getBoundingClientRect`) is a parameter: `None` when the
 * container is not mounted, otherwise its position and size.
 */
module ChartInspector {
  import opened Wrappers
  import opened Types

  // ----- calibration -----

  /** The band used when neither source gives a usable bound. */
  const DefaultMinPrice: real := 16900.0
  const DefaultMaxPrice: real := 17050.0

  datatype Band = Band(min: real, max: real)

  /** JavaScript truthiness of an optional number: present and not zero. */
  predicate Truthy(v: Option<real>) {
    v.Some? && v.value != 0.0
  }

  /** `a || b || fallback` over optional numbers. */
  function FirstTruthy(a: Option<real>, b: Option<real>, fallback: real): real {
    if Truthy(a) then a.value else if Truthy(b) then b.value else fallback
  }

  function VectorMin(v: Option<ChartVectorData>): Option<real> {
    if v.Some? then Some(v.value.minPrice) else None
  }
  function VectorMax(v: Option<ChartVectorData>): Option<real> {
    if v.Some? then Some(v.value.maxPrice) else None
  }
  function MetadataMin(c: Option<ChartMetadata>): Option<real> {
    if c.Some? then Some(c.value.minPrice) else None
  }
  function MetadataMax(c: Option<ChartMetadata>): Option<real> {
    if c.Some? then Some(c.value.maxPrice) else None
  }

  /**
   * `MIN_PRICE`/`MAX_PRICE`: each bound on its own comes from the digitized
   * data if that bound is present and non-zero, else from the reasoning
   * metadata under the same test, else from the default band. The two bounds
   * are never compared with each other.
   */
  function ResolveBand(vectorData: Option<ChartVectorData>, calibrationData: Option<ChartMetadata>): (b: Band)
    ensures Truthy(VectorMin(vectorData)) ==> b.min == vectorData.value.minPrice
    ensures !Truthy(VectorMin(vectorData)) && Truthy(MetadataMin(calibrationData)) ==> b.min == calibrationData.value.minPrice
    ensures !Truthy(VectorMin(vectorData)) && !Truthy(MetadataMin(calibrationData)) ==> b.min == DefaultMinPrice
    ensures Truthy(VectorMax(vectorData)) ==> b.max == vectorData.value.maxPrice
    ensures !Truthy(VectorMax(vectorData)) && Truthy(MetadataMax(calibrationData)) ==> b.max == calibrationData.value.maxPrice
    ensures !Truthy(VectorMax(vectorData)) && !Truthy(MetadataMax(calibrationData)) ==> b.max == DefaultMaxPrice
  {
    Band(FirstTruthy(VectorMin(vectorData), MetadataMin(calibrationData), DefaultMinPrice),
         FirstTruthy(VectorMax(vectorData), MetadataMax(calibrationData), DefaultMaxPrice))
  }

  /** A resolved bound is never zero: zero is exactly what the chain skips. */
  lemma ResolvedBoundsNonZero(vectorData: Option<ChartVectorData>, calibrationData: Option<ChartMetadata>)
    ensures ResolveBand(vectorData, calibrationData).min != 0.0
    ensures ResolveBand(vectorData, calibrationData).max != 0.0
  {
  }

  /** The minimum is resolved without looking at either maximum. */
  lemma MinIgnoresMaxima(v1: Option<ChartVectorData>, c1: Option<ChartMetadata>,
                         v2: Option<ChartVectorData>, c2: Option<ChartMetadata>)
    requires VectorMin(v1) == VectorMin(v2) && MetadataMin(c1) == MetadataMin(c2)
    ensures ResolveBand(v1, c1).min == ResolveBand(v2, c2).min
  {
  }

  /** Nothing keeps the band ordered: a zero digitized minimum falls through to
      the metadata while the digitized maximum is kept, and the band inverts. */
  lemma MixedSourcesCanInvert()
    ensures var b := ResolveBand(Some(ChartVectorData([], 0.0, 100.0)), Some(ChartMetadata(200.0, 300.0, None)));
            b == Band(200.0, 100.0) && b.max < b.min
  {
  }

  // ----- coordinate mapping -----

  /** `calculatePrice(y, height)`: the price at height `y` from the top of a
      container `h` high. */
  function PriceAt(b: Band, y: real, h: real): (price: real)
    requires h > 0.0
    ensures y == 0.0 ==> price == b.max
    ensures y == h ==> price == b.min
    ensures b.min == b.max ==> price == b.min
  {
    b.min + (1.0 - y / h) * (b.max - b.min)
  }

  /** The top edge maps to the maximum, the bottom edge to the minimum. */
  lemma PriceAtEdges(b: Band, h: real)
    requires h > 0.0
    ensures PriceAt(b, 0.0, h) == b.max
    ensures PriceAt(b, h, h) == b.min
  {
  }

  /** The map is affine in `y`, with slope `-(max - min) / h`. */
  lemma PriceAtAffine(b: Band, y1: real, y2: real, h: real)
    requires h > 0.0
    ensures PriceAt(b, y1, h) - PriceAt(b, y2, h) == (y2 - y1) / h * (b.max - b.min)
  {
    calc {
      PriceAt(b, y1, h) - PriceAt(b, y2, h);
      (1.0 - y1 / h) * (b.max - b.min) - (1.0 - y2 / h) * (b.max - b.min);
      (y2 / h - y1 / h) * (b.max - b.min);
      { assert y2 / h - y1 / h == (y2 - y1) / h; }
      (y2 - y1) / h * (b.max - b.min);
    }
  }

  /** For an ordered band, lower on the screen never means a higher price. */
  lemma PriceAtNonIncreasing(b: Band, y1: real, y2: real, h: real)
    requires h > 0.0 && b.min <= b.max && y1 <= y2
    ensures PriceAt(b, y2, h) <= PriceAt(b, y1, h)
  {
    PriceAtAffine(b, y1, y2, h);
    assert (y2 - y1) / h >= 0.0;
    assert (y2 - y1) / h * (b.max - b.min) >= 0.0;
  }

  /** Inside the container, an ordered band's prices stay inside the band. */
  lemma PriceAtWithinBand(b: Band, y: real, h: real)
    requires h > 0.0 && b.min <= b.max && 0.0 <= y <= h
    ensures b.min <= PriceAt(b, y, h) <= b.max
  {
    PriceAtNonIncreasing(b, 0.0, y, h);
    PriceAtNonIncreasing(b, y, h, h);
    PriceAtEdges(b, h);
  }

  /** `Math.max(0, Math.min(v, hi))`. */
  function Clamp(v: real, hi: real): (r: real)
    requires hi >= 0.0
    ensures 0.0 <= r <= hi
    ensures 0.0 <= v <= hi ==> r == v
    ensures v < 0.0 ==> r == 0.0
    ensures v > hi ==> r == hi
  {
    if v < 0.0 then 0.0 else if v > hi then hi else v
  }

  /** A pointer outside the container reads the price of the nearest edge, and
      for an ordered band every reading lies inside the band. */
  lemma ClampedPriceInBand(b: Band, y: real, h: real)
    requires h > 0.0
    ensures y < 0.0 ==> PriceAt(b, Clamp(y, h), h) == b.max
    ensures y > h ==> PriceAt(b, Clamp(y, h), h) == b.min
    ensures b.min <= b.max ==> b.min <= PriceAt(b, Clamp(y, h), h) <= b.max
  {
    PriceAtEdges(b, h);
    if b.min <= b.max {
      PriceAtWithinBand(b, Clamp(y, h), h);
    }
  }

  /** The lookback window that the width of the container spans. */
  const WindowMinutes: real := 240.0

  /** `xRatio * 240 - 240`: minutes before now at horizontal position `x`. */
  function MinuteOffset(x: real, w: real): (minutes: real)
    requires w > 0.0
    ensures x == 0.0 ==> minutes == -WindowMinutes
    ensures x == w ==> minutes == 0.0
  {
    x / w * WindowMinutes - WindowMinutes
  }

  /** The left edge is the start of the window, the right edge is now, and
      positions inside the container fall inside the window. */
  lemma MinuteOffsetInWindow(x: real, w: real)
    requires w > 0.0
    ensures MinuteOffset(0.0, w) == -WindowMinutes
    ensures MinuteOffset(w, w) == 0.0
    ensures 0.0 <= x <= w ==> -WindowMinutes <= MinuteOffset(x, w) <= 0.0
  {
    if 0.0 <= x <= w {
      assert 0.0 <= x / w;
      assert x / w <= 1.0 by { assert x / w <= w / w; }
    }
  }

  // ----- measurement -----

  /** The pixel width of one bar on the chart image. */
  const BarWidth: real := 10.0

  function Abs(v: real): real {
    if v < 0.0 then -v else v
  }

  /** `Math.round(v)`: the nearest integer, halves rounded up. */
  function RoundHalfUp(v: real): (n: int)
    ensures (n as real) - 0.5 <= v < (n as real) + 0.5
    ensures v >= 0.0 ==> n >= 0
  {
    (v + 0.5).Floor
  }

  datatype Point = Point(x: real, y: real)

  /** The ruler's live reading; `percent` is `None` where the start price is
      zero and JavaScript's division would give an infinity or NaN. */
  datatype Measurement = Measurement(delta: real, percent: Option<real>, bars: int, isPositive: bool)

  /** `measurementData` for a drag from `start` to `current` in a container `h` high. */
  function Measure(b: Band, start: Point, current: Point, h: real): (m: Measurement)
    requires h > 0.0
    ensures m.delta == PriceAt(b, current.y, h) - PriceAt(b, start.y, h)
    ensures m.isPositive <==> m.delta >= 0.0
    ensures m.percent.Some? <==> PriceAt(b, start.y, h) != 0.0
    ensures m.percent.Some? ==> m.percent.value * PriceAt(b, start.y, h) == m.delta * 100.0
    ensures m.bars >= 0
    ensures (m.bars as real) - 0.5 <= Abs(current.x - start.x) / BarWidth < (m.bars as real) + 0.5
  {
    var startPrice := PriceAt(b, start.y, h);
    var delta := PriceAt(b, current.y, h) - startPrice;
    Measurement(delta,
                if startPrice == 0.0 then None else Some(delta / startPrice * 100.0),
                RoundHalfUp(Abs(current.x - start.x) / BarWidth),
                delta >= 0.0)
  }

  /** On a band whose maximum exceeds its minimum, a reading is positive exactly
      when the pointer has not moved below where the drag started. */
  lemma PositiveIffNotLower(b: Band, start: Point, current: Point, h: real)
    requires h > 0.0 && b.min < b.max
    ensures Measure(b, start, current, h).isPositive <==> current.y <= start.y
  {
    PriceAtAffine(b, current.y, start.y, h);
    var d := (start.y - current.y) / h;
    if current.y <= start.y {
      assert d >= 0.0;
    } else {
      assert d < 0.0;
      assert d * (b.max - b.min) < 0.0;
    }
  }

  /** The default band in a container 300 high: dragging from the bottom edge to
      the top edge reads +150 points, 150/16900 of the start price. */
  lemma RulerExample(x0: real, x1: real)
    ensures var m := Measure(Band(16900.0, 17050.0), Point(x0, 300.0), Point(x1, 0.0), 300.0);
            m.delta == 150.0 && m.isPositive && m.percent == Some(15000.0 / 16900.0)
  {
    PriceAtEdges(Band(16900.0, 17050.0), 300.0);
  }

  // ----- pointer state -----

  /** The container's bounding rectangle. */
  datatype Rect = Rect(left: real, top: real, width: real, height: real)

  /** The container, when mounted, has been laid out with a positive size (the
      component divides by both dimensions without a check). */
  predicate HasArea(container: Option<Rect>) {
    container.None? || (container.value.width > 0.0 && container.value.height > 0.0)
  }

  datatype Cursor = Cursor(x: real, y: real, visible: bool)

  /** The crosshair's label: the initial placeholder, or a price and a minute offset. */
  datatype Readout = Placeholder | Reading(price: real, minuteOffset: real)

  class Inspector {
    // properties passed down by the application
    var calibrationData: Option<ChartMetadata>
    var vectorData: Option<ChartVectorData>
    // component state
    var cursor: Cursor
    var readout: Readout
    var isVectorMode: bool
    var isDragging: bool
    var dragStart: Option<Point>
    var dragCurrent: Option<Point>

    /** A drag is in progress exactly when it has a start point, and then it
        also has a current point. */
    predicate Valid()
      reads this
    {
      (isDragging <==> dragStart.Some?) && (isDragging ==> dragCurrent.Some?)
    }

    /** The band the crosshair and the ruler read prices against. */
    function ActiveBand(): Band
      reads this
    {
      ResolveBand(vectorData, calibrationData)
    }

    /** The digitized chart is drawn; otherwise the raw image is. */
    predicate ShowsVectorChart()
      reads this
    {
      isVectorMode && vectorData.Some?
    }

    constructor (calibrationData: Option<ChartMetadata>, vectorData: Option<ChartVectorData>)
      ensures Valid()
      ensures this.calibrationData == calibrationData && this.vectorData == vectorData
      ensures cursor == Cursor(0.0, 0.0, false) && readout == Placeholder
      ensures isVectorMode && !isDragging && dragStart.None? && dragCurrent.None?
    {
      this.calibrationData := calibrationData;
      this.vectorData := vectorData;
      cursor := Cursor(0.0, 0.0, false);
      readout := Placeholder;
      isVectorMode := true;
      isDragging := false;
      dragStart := None;
      dragCurrent := None;
    }

    /** A re-render with new properties keeps the component's own state. */
    method ReceiveProps(calibrationData: Option<ChartMetadata>, vectorData: Option<ChartVectorData>)
      requires Valid()
      modifies this
      ensures Valid()
      ensures this.calibrationData == calibrationData && this.vectorData == vectorData
      ensures cursor == old(cursor) && readout == old(readout) && isVectorMode == old(isVectorMode)
      ensures isDragging == old(isDragging) && dragStart == old(dragStart) && dragCurrent == old(dragCurrent)
    {
      this.calibrationData := calibrationData;
      this.vectorData := vectorData;
    }

    /** The mode button: disabled without digitized data, otherwise it flips the
        mode and touches nothing else. */
    method ToggleVectorMode()
      requires Valid()
      modifies this
      ensures Valid()
      ensures isVectorMode == if old(vectorData).Some? then !old(isVectorMode) else old(isVectorMode)
      ensures calibrationData == old(calibrationData) && vectorData == old(vectorData)
      ensures cursor == old(cursor) && readout == old(readout)
      ensures isDragging == old(isDragging) && dragStart == old(dragStart) && dragCurrent == old(dragCurrent)
    {
      if vectorData.Some? {
        isVectorMode := !isVectorMode;
      }
    }

    /** `handleMouseDown`: in raw mode with a mounted container, a drag starts at
        the pointer's position, which is not clamped; in vector mode nothing
        happens, whether or not digitized data exists. */
    method MouseDown(clientX: real, clientY: real, container: Option<Rect>)
      requires Valid()
      modifies this
      ensures Valid()
      ensures calibrationData == old(calibrationData) && vectorData == old(vectorData)
      ensures cursor == old(cursor) && readout == old(readout) && isVectorMode == old(isVectorMode)
      ensures container.None? || old(isVectorMode) ==>
                isDragging == old(isDragging) && dragStart == old(dragStart) && dragCurrent == old(dragCurrent)
      ensures container.Some? && !old(isVectorMode) ==>
                var p := Point(clientX - container.value.left, clientY - container.value.top);
                isDragging && dragStart == Some(p) && dragCurrent == Some(p)
    {
      if container.None? || isVectorMode {
        return;
      }
      var p := Point(clientX - container.value.left, clientY - container.value.top);
      isDragging := true;
      dragStart := Some(p);
      dragCurrent := Some(p);
    }

    /** `handleMouseUp`: the drag ends and both drag points are cleared. */
    method MouseUp()
      requires Valid()
      modifies this
      ensures Valid()
      ensures !isDragging && dragStart.None? && dragCurrent.None?
      ensures calibrationData == old(calibrationData) && vectorData == old(vectorData)
      ensures cursor == old(cursor) && readout == old(readout) && isVectorMode == old(isVectorMode)
    {
      isDragging := false;
      dragStart := None;
      dragCurrent := None;
    }

    /**
     * `handleMouseMove`: in raw mode with a mounted container, the cursor is
     * clamped into the container and shown, a drag in progress moves its
     * current point there (its start point stays), and the readout becomes the
     * price and minute offset at that point.
     */
    method MouseMove(clientX: real, clientY: real, container: Option<Rect>)
      requires Valid() && HasArea(container)
      modifies this
      ensures Valid()
      ensures calibrationData == old(calibrationData) && vectorData == old(vectorData)
      ensures isVectorMode == old(isVectorMode) && isDragging == old(isDragging) && dragStart == old(dragStart)
      ensures container.None? || old(isVectorMode) ==>
                cursor == old(cursor) && readout == old(readout) && dragCurrent == old(dragCurrent)
      ensures container.Some? && !old(isVectorMode) ==>
                var r := container.value;
                var x, y := Clamp(clientX - r.left, r.width), Clamp(clientY - r.top, r.height);
                && cursor == Cursor(x, y, true)
                && dragCurrent == (if old(isDragging) then Some(Point(x, y)) else old(dragCurrent))
                && readout == Reading(PriceAt(ActiveBand(), y, r.height), MinuteOffset(x, r.width))
    {
      if container.None? || isVectorMode {
        return;
      }
      var r := container.value;
      var x := Clamp(clientX - r.left, r.width);
      var y := Clamp(clientY - r.top, r.height);
      cursor := Cursor(x, y, true);
      if isDragging && dragStart.Some? {
        dragCurrent := Some(Point(x, y));
      }
      readout := Reading(PriceAt(ActiveBand(), y, r.height), MinuteOffset(x, r.width));
    }

    /** `handleMouseLeave`: the cursor is hidden where it was, the drag ends and
        its start point is cleared, but its current point is kept. */
    method MouseLeave()
      requires Valid()
      modifies this
      ensures Valid()
      ensures cursor == old(cursor).(visible := false)
      ensures !isDragging && dragStart.None? && dragCurrent == old(dragCurrent)
      ensures calibrationData == old(calibrationData) && vectorData == old(vectorData)
      ensures readout == old(readout) && isVectorMode == old(isVectorMode)
    {
      cursor := cursor.(visible := false);
      isDragging := false;
      dragStart := None;
    }

    /** `measurementData`: present exactly while a drag is in progress over a
        mounted container, and then the reading between the two drag points. */
    function CurrentMeasurement(container: Option<Rect>): (m: Option<Measurement>)
      reads this
      requires Valid() && HasArea(container)
      ensures m.Some? <==> isDragging && container.Some?
      ensures m.Some? ==> m.value == Measure(ActiveBand(), dragStart.value, dragCurrent.value, container.value.height)
    {
      if isDragging && dragStart.Some? && dragCurrent.Some? && container.Some? then
        Some(Measure(ActiveBand(), dragStart.value, dragCurrent.value, container.value.height))
      else
        None
    }
  }

  /** The ruler in use: with digitized band [16900, 17050] and a 400 by 300
      container, switch to the raw image, press at the bottom edge and drag to
      the top edge 60 pixels to the right. */
  method RulerScenario() returns (m: Option<Measurement>)
    ensures m.Some? && m.value.delta == 150.0 && m.value.isPositive && m.value.bars == 6
  {
    var container := Some(Rect(0.0, 0.0, 400.0, 300.0));
    var inspector := new Inspector(None, Some(ChartVectorData([], 16900.0, 17050.0)));
    inspector.ToggleVectorMode();
    inspector.MouseDown(100.0, 300.0, container);
    inspector.MouseMove(160.0, 0.0, container);
    assert inspector.ActiveBand() == Band(16900.0, 17050.0);
    PriceAtEdges(Band(16900.0, 17050.0), 300.0);
    m := inspector.CurrentMeasurement(container);
  }

  /** Without digitized data the raw image is drawn, yet the inspector starts in
      vector mode and its button is disabled, so the ruler never starts. */
  method RulerBlockedWithoutVectorData(calibrationData: Option<ChartMetadata>, clientX: real, clientY: real)
    returns (showsRawImage: bool, dragging: bool)
    ensures showsRawImage && !dragging
  {
    var container := Some(Rect(0.0, 0.0, 400.0, 300.0));
    var inspector := new Inspector(calibrationData, None);
    inspector.ToggleVectorMode();
    inspector.MouseDown(clientX, clientY, container);
    inspector.MouseMove(clientX, clientY, container);
    showsRawImage := !inspector.ShowsVectorChart();
    dragging := inspector.isDragging;
  }
}
