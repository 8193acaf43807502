/** The slope of a drawn trendline, in price units per second. */
module Trendlines {

  /** One end of a trendline: a time in seconds and a price. */
  datatype Point = Point(time: int, price: real)

  /** Rise over run between two points; a vertical line (equal times) has
      slope 0 rather than a division by zero. */
  function CalculateSlope(start: Point, end: Point): (slope: real)
    ensures end.time == start.time ==> slope == 0.0
    ensures end.time != start.time ==> slope * (end.time - start.time) as real == end.price - start.price
  {
    var timeDiff := end.time - start.time;
    var priceDiff := end.price - start.price;
    if timeDiff != 0 then priceDiff / timeDiff as real else 0.0
  }

  /** The slope does not depend on which end is called the start. */
  lemma SlopeSymmetric(a: Point, b: Point)
    ensures CalculateSlope(a, b) == CalculateSlope(b, a)
  {
    if a.time != b.time {
      var s := CalculateSlope(a, b);
      var t := CalculateSlope(b, a);
      assert s * (b.time - a.time) as real == t * (b.time - a.time) as real;
    }
  }

  /** A third point lies on the line through `start` and `end` exactly when
      it is reached from `start` with the same slope. */
  lemma SlopeCollinear(start: Point, end: Point, p: Point)
    requires start.time != end.time && start.time != p.time
    ensures CalculateSlope(start, p) == CalculateSlope(start, end) <==>
      p.price - start.price == CalculateSlope(start, end) * (p.time - start.time) as real
  {
    var m := CalculateSlope(start, end);
    var q := CalculateSlope(start, p);
    var dt := (p.time - start.time) as real;
    assert q * dt == p.price - start.price;
    if p.price - start.price == m * dt {
      assert q * dt == m * dt;
      assert (q - m) * dt == 0.0;
    }
  }
}
