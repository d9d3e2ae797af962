/**
 * Coarse rectangular face regions derived from the bounding box of the face
 * landmarks: the box is clamped to the image, then five rectangles are cut
 * from it at fixed fractions of its width and height.
 */
module RegionMasks {
  import opened Numeric

  /** A bounding box: top-left corner, width and height, in pixels. */
  datatype Box = Box(x: int, y: int, w: int, h: int)

  /** A rectangle given by two opposite corners (`x1, y1, x2, y2`). */
  datatype Rect = Rect(x1: int, y1: int, x2: int, y2: int)

  datatype Region = Forehead | Nose | CheekLeft | CheekRight | Chin {
    /** The key under which the region is reported. */
    function Key(): string {
      match this
      case Forehead => "forehead"
      case Nose => "nose"
      case CheekLeft => "cheek_left"
      case CheekRight => "cheek_right"
      case Chin => "chin"
    }
  }

  /** The order in which the regions are inserted, and so iterated. */
  const RegionOrder: seq<Region> := [Forehead, Nose, CheekLeft, CheekRight, Chin]

  /** Clamps the box to an image of the given size. */
  function ClampBox(b: Box, width: int, height: int): (c: Box)
    ensures c.x >= 0 && c.y >= 0
    ensures c.w <= width - c.x && c.h <= height - c.y
    ensures b.x >= 0 ==> c.x == b.x
    ensures b.y >= 0 ==> c.y == b.y
    ensures c.w <= b.w && c.h <= b.h
    ensures b.x >= 0 && b.y >= 0 && b.x + b.w <= width && b.y + b.h <= height ==> c == b
  {
    var x := if b.x > 0 then b.x else 0;
    var y := if b.y > 0 then b.y else 0;
    Box(x, y, if b.w < width - x then b.w else width - x, if b.h < height - y then b.h else height - y)
  }

  /** Clamping an already clamped box changes nothing. */
  lemma ClampBoxIdempotent(b: Box, width: int, height: int)
    ensures ClampBox(ClampBox(b, width, height), width, height) == ClampBox(b, width, height)
  {
    var c := ClampBox(b, width, height);
    assert c.x >= 0 && c.y >= 0;
  }

  /** Forehead: the top quarter, without a fifth of the width on either side. */
  function ForeheadRect(c: Box): Rect {
    var w, h := c.w as real, c.h as real;
    Rect(Trunc(c.x as real + 0.2 * w), Trunc(c.y as real),
         Trunc((c.x + c.w) as real - 0.2 * w), Trunc(c.y as real + 0.25 * h))
  }

  /** Nose: 41% to 59% of the width, 25% to 65% of the height. */
  function NoseRect(c: Box): Rect {
    var w, h := c.w as real, c.h as real;
    Rect(Trunc(c.x as real + 0.41 * w), Trunc(c.y as real + 0.25 * h),
         Trunc(c.x as real + 0.59 * w), Trunc(c.y as real + 0.65 * h))
  }

  /** Left cheek: 5% to 35% of the width, in the cheek band (35% to 70% of the height). */
  function CheekLeftRect(c: Box): Rect {
    var w, h := c.w as real, c.h as real;
    Rect(Trunc(c.x as real + 0.05 * w), Trunc(c.y as real + 0.35 * h),
         Trunc(c.x as real + 0.35 * w), Trunc(c.y as real + 0.70 * h))
  }

  /** Right cheek: 65% to 95% of the width, in the cheek band. */
  function CheekRightRect(c: Box): Rect {
    var w, h := c.w as real, c.h as real;
    Rect(Trunc(c.x as real + 0.65 * w), Trunc(c.y as real + 0.35 * h),
         Trunc(c.x as real + 0.95 * w), Trunc(c.y as real + 0.70 * h))
  }

  /** Chin: from 82% of the height to the bottom, without a fifth of the width on either side. */
  function ChinRect(c: Box): Rect {
    var w, h := c.w as real, c.h as real;
    Rect(Trunc(c.x as real + 0.2 * w), Trunc(c.y as real + 0.82 * h),
         Trunc((c.x + c.w) as real - 0.2 * w), Trunc((c.y + c.h) as real))
  }

  /** The five rectangles cut from a (clamped) box, in insertion order. */
  function RegionRects(c: Box): (rs: seq<(Region, Rect)>)
    ensures |rs| == 5
    ensures forall i :: 0 <= i < 5 ==> rs[i].0 == RegionOrder[i]
  {
    [(Forehead, ForeheadRect(c)), (Nose, NoseRect(c)), (CheekLeft, CheekLeftRect(c)),
     (CheekRight, CheekRightRect(c)), (Chin, ChinRect(c))]
  }

  /** `coarse_regions_from_landmarks`, given the landmarks' bounding box. */
  function CoarseRegions(bbox: Box, width: int, height: int): (rs: seq<(Region, Rect)>)
    ensures |rs| == 5
    ensures forall i :: 0 <= i < 5 ==> rs[i].0 == RegionOrder[i]
  {
    RegionRects(ClampBox(bbox, width, height))
  }

  /** Whether the filled mask of `r` (corners inclusive, clipped to the image) covers pixel (cx, cy). */
  predicate MaskContains(r: Rect, width: int, height: int, cx: int, cy: int) {
    && 0 <= cx < width && 0 <= cy < height
    && (if r.x1 <= r.x2 then r.x1 <= cx <= r.x2 else r.x2 <= cx <= r.x1)
    && (if r.y1 <= r.y2 then r.y1 <= cy <= r.y2 else r.y2 <= cy <= r.y1)
  }

  /** A rectangle that is well-formed and lies inside the box. */
  predicate InsideBox(r: Rect, c: Box) {
    c.x <= r.x1 <= r.x2 <= c.x + c.w && c.y <= r.y1 <= r.y2 <= c.y + c.h
  }

  lemma TruncBetween(lo: int, x: real, y: real, hi: int)
    requires lo as real <= x <= y <= hi as real
    ensures lo <= Trunc(x) <= Trunc(y) <= hi
  {
    TruncOfInt(lo, x);
    TruncMonotone(x, y);
    TruncMonotone(y, hi as real);
  }

  lemma ForeheadInside(c: Box)
    requires c.w >= 0 && c.h >= 0
    ensures InsideBox(ForeheadRect(c), c)
  {
    var x, y, w, h := c.x as real, c.y as real, c.w as real, c.h as real;
    TruncBetween(c.x, x + 0.2 * w, (c.x + c.w) as real - 0.2 * w, c.x + c.w);
    TruncBetween(c.y, y, y + 0.25 * h, c.y + c.h);
  }

  lemma NoseInside(c: Box)
    requires c.w >= 0 && c.h >= 0
    ensures InsideBox(NoseRect(c), c)
  {
    var x, y, w, h := c.x as real, c.y as real, c.w as real, c.h as real;
    TruncBetween(c.x, x + 0.41 * w, x + 0.59 * w, c.x + c.w);
    TruncBetween(c.y, y + 0.25 * h, y + 0.65 * h, c.y + c.h);
  }

  lemma CheeksInside(c: Box)
    requires c.w >= 0 && c.h >= 0
    ensures InsideBox(CheekLeftRect(c), c) && InsideBox(CheekRightRect(c), c)
  {
    var x, y, w, h := c.x as real, c.y as real, c.w as real, c.h as real;
    TruncBetween(c.x, x + 0.05 * w, x + 0.35 * w, c.x + c.w);
    TruncBetween(c.x, x + 0.65 * w, x + 0.95 * w, c.x + c.w);
    TruncBetween(c.y, y + 0.35 * h, y + 0.70 * h, c.y + c.h);
  }

  lemma ChinInside(c: Box)
    requires c.w >= 0 && c.h >= 0
    ensures InsideBox(ChinRect(c), c)
  {
    var x, y, w, h := c.x as real, c.y as real, c.w as real, c.h as real;
    TruncBetween(c.x, x + 0.2 * w, (c.x + c.w) as real - 0.2 * w, c.x + c.w);
    TruncBetween(c.y, y + 0.82 * h, (c.y + c.h) as real, c.y + c.h);
  }

  /** For a box of non-negative size every rectangle is well-formed and lies inside the box. */
  lemma RegionsInsideBox(c: Box)
    requires c.w >= 0 && c.h >= 0
    ensures forall i :: 0 <= i < 5 ==> InsideBox(RegionRects(c)[i].1, c)
  {
    ForeheadInside(c);
    NoseInside(c);
    CheeksInside(c);
    ChinInside(c);
  }

  /** Left cheek, nose and right cheek follow each other from left to right without overlapping. */
  lemma RegionsHorizontallyOrdered(c: Box)
    requires c.w >= 0
    ensures RegionRects(c)[2].1.x2 <= RegionRects(c)[1].1.x1
    ensures RegionRects(c)[1].1.x2 <= RegionRects(c)[3].1.x1
  {
    var left, w := c.x as real, c.w as real;
    TruncMonotone(left + 0.35 * w, left + 0.41 * w);
    TruncMonotone(left + 0.59 * w, left + 0.65 * w);
  }

  /** The forehead ends where the nose begins; the chin begins at or below the cheek band's bottom. */
  lemma RegionsVerticallyOrdered(c: Box)
    requires c.h >= 0
    ensures RegionRects(c)[0].1.y2 == RegionRects(c)[1].1.y1
    ensures RegionRects(c)[4].1.y1 >= RegionRects(c)[2].1.y2 == RegionRects(c)[3].1.y2
  {
    var top, h := c.y as real, c.h as real;
    TruncMonotone(top + 0.70 * h, top + 0.82 * h);
  }
}
