/** The 5x5 strike-zone grid: the lenient mapping from a zone number to
    coordinates used when a pitch is recorded (`zonaToXY`), and the strict
    bucketing used when pitches are counted per zone. */
module Zones {
  import opened Wrappers
  import opened JsValues

  /** The coordinates stored with a pitch, as JavaScript numbers */
  datatype Coords = Coords(x: JsNum, y: JsNum)

  function Min(a: real, b: real): real { if a <= b then a else b }
  function Max(a: real, b: real): real { if a >= b then a else b }

  /** `Math.max(0, Math.min(24, Number(zona) || 0))`: NaN and zero become
      zero, and the value is clamped into [0, 24] */
  function ClampedZone(zona: JsValue): (z: real)
    ensures 0.0 <= z <= 24.0
  {
    var n := ToNumber(zona);
    var v := if NumTruthy(n) then n.r else 0.0;
    Max(0.0, Min(24.0, v))
  }

  /** `zonaToXY(zona)`: row `Math.floor(z / 5)` and column `z % 5` of the
      clamped zone `z`.  Since `z` is not negative, JavaScript's `%` is
      `z - 5 * floor(z / 5)`. */
  function ZonaToXY(zona: JsValue): (c: Coords)
    ensures c.x.Finite? && c.y.Finite?
    ensures IsInteger(c.y) && 0.0 <= c.y.r <= 4.0
    ensures 0.0 <= c.x.r < 5.0
    ensures c.y.r * 5.0 + c.x.r == ClampedZone(zona)
  {
    ZoneCell(ClampedZone(zona))
  }

  /** The cell of a clamped zone `z`: row `floor(z / 5)`, column the rest */
  function ZoneCell(z: real): (c: Coords)
    requires 0.0 <= z <= 24.0
    ensures c.x.Finite? && c.y.Finite?
    ensures IsInteger(c.y) && 0.0 <= c.y.r <= 4.0
    ensures 0.0 <= c.x.r < 5.0
    ensures c.y.r * 5.0 + c.x.r == z
  {
    var row := (z / 5.0).Floor;
    Coords(Finite(z - 5.0 * row as real), Finite(row as real))
  }

  /** The histogram bucket of a pitch: `y * 5 + x`, only when both
      coordinates are integers in [0, 4]; anything else has no bucket */
  function ZoneIndex(c: Coords): (k: Option<nat>)
    ensures k.Some? ==> k.value < 25
  {
    if IsInteger(c.x) && IsInteger(c.y)
       && 0.0 <= c.x.r < 5.0 && 0.0 <= c.y.r < 5.0
    then Some(AsInt(c.y) * 5 + AsInt(c.x))
    else None
  }

  /** The cell of bucket `k`: column `k % 5`, row `k / 5` */
  function CellOf(k: nat): Coords
    requires k < 25
  {
    Coords(FromInt(k % 5), FromInt(k / 5))
  }

  /** Buckets and cells are in one-to-one correspondence: every bucket has
      exactly one cell, and every bucketed cell is the cell of its bucket */
  lemma ZoneIndexBijection(c: Coords, k: nat)
    requires k < 25
    ensures ZoneIndex(CellOf(k)) == Some(k)
    ensures ZoneIndex(c) == Some(k) ==> c == CellOf(k)
  {
    assert ((k % 5) as real).Floor == k % 5;
    assert ((k / 5) as real).Floor == k / 5;
    if ZoneIndex(c) == Some(k) {
      var x, y := AsInt(c.x), AsInt(c.y);
      assert 0 <= x < 5 && 0 <= y < 5;
      assert y * 5 + x == k;
      assert x == k % 5 && y == k / 5;
    }
  }

  /** Two cells with the same bucket are the same cell */
  lemma ZoneIndexInjective(c: Coords, d: Coords)
    requires ZoneIndex(c).Some? && ZoneIndex(c) == ZoneIndex(d)
    ensures c == d
  {
    ZoneIndexBijection(c, ZoneIndex(c).value);
    ZoneIndexBijection(d, ZoneIndex(c).value);
  }

  /** For an integer zone in [0, 24], `zonaToXY` gives column `zona % 5` and
      row `zona / 5`, and the histogram counts the pitch in bucket `zona`:
      recording by zone and counting by zone agree */
  lemma ZonaRoundTrip(zona: int)
    requires 0 <= zona <= 24
    ensures ZonaToXY(Number(FromInt(zona))) == CellOf(zona)
    ensures ZoneIndex(ZonaToXY(Number(FromInt(zona)))) == Some(zona)
  {
    var c := ZonaToXY(Number(FromInt(zona)));
    var row := zona / 5;
    assert ClampedZone(Number(FromInt(zona))) == zona as real;
    assert row as real <= zona as real / 5.0 < (row + 1) as real;
    assert (zona as real / 5.0).Floor == row;
    assert c.y == FromInt(row);
    assert c.x == FromInt(zona % 5);
    ZoneIndexBijection(c, zona);
  }

  /** The clamped zone pins the cell at either end of the grid */
  lemma ClampedEnds(zona: JsValue)
    ensures ClampedZone(zona) == 0.0 ==> ZonaToXY(zona) == CellOf(0)
    ensures ClampedZone(zona) == 24.0 ==> ZonaToXY(zona) == CellOf(24)
  {
    assert (0.0 / 5.0).Floor == 0;
    assert (24.0 / 5.0).Floor == 4;
  }

  /** A zone number below the grid lands in the first cell, one above it in
      the last cell, and a missing, zero or non-numeric zone in the first */
  lemma ZonaClamps(zona: JsValue)
    ensures ToNumber(zona).Finite? && ToNumber(zona).r < 0.0 ==> ZonaToXY(zona) == CellOf(0)
    ensures ToNumber(zona).Finite? && ToNumber(zona).r > 24.0 ==> ZonaToXY(zona) == CellOf(24)
    ensures !NumTruthy(ToNumber(zona)) ==> ZonaToXY(zona) == CellOf(0)
  {
    var n := ToNumber(zona);
    ClampedEnds(zona);
    if n.Finite? && n.r > 24.0 {
      assert ClampedZone(zona) == 24.0;
    } else if !NumTruthy(n) || n.r < 0.0 {
      assert ClampedZone(zona) == 0.0;
    }
  }

  /** A fractional zone strictly inside the grid is stored with a fractional
      column, so the pitch it records is never counted in any zone bucket:
      the lenient write and the strict count disagree on it */
  lemma FractionalZonaIsNeverBucketed(zona: JsValue)
    requires ToNumber(zona).Finite? && 0.0 < ToNumber(zona).r < 24.0
    requires !IsIntegral(ToNumber(zona).r)
    ensures ZoneIndex(ZonaToXY(zona)) == None
  {
    var v := ToNumber(zona).r;
    assert ClampedZone(zona) == v;
    FractionalCellIsNeverBucketed(v);
  }

  /** The cell of a fractional clamped zone has a fractional column */
  lemma FractionalCellIsNeverBucketed(z: real)
    requires 0.0 <= z <= 24.0 && !IsIntegral(z)
    ensures ZoneIndex(ZoneCell(z)) == None
  {
    FractionalColumn(z);
    assert !IsInteger(ZoneCell(z).x);
  }

  /** The column `z - 5 * floor(z / 5)` is an integer only when `z` is */
  lemma FractionalColumn(z: real)
    ensures IsIntegral(z - 5.0 * (z / 5.0).Floor as real) ==> IsIntegral(z)
  {
    var row := (z / 5.0).Floor;
    var x := z - 5.0 * row as real;
    if IsIntegral(x) {
      assert z == (x.Floor + 5 * row) as real;
    }
  }
}
