/** The point-cloud voxel filter: an evenly spread sample of the points, grouped by cell. */
module VoxelFilter {
  import opened Basics

  const UINT32_MAX := 0xFFFF_FFFF
  const SIZE_MAX := 0xFFFF_FFFF_FFFF_FFFF
  const FLOAT_SIZE := 4

  type U32 = n: nat | n <= UINT32_MAX
  type Byte = n: nat | n < 256

  datatype Field = Field(name: string, offset: U32, isFloat32: bool, count: U32)

  datatype Cloud = Cloud(
    fields: seq<Field>,
    width: U32,
    height: U32,
    pointStep: U32,
    rowStep: U32,
    isBigEndian: bool,
    data: seq<Byte>)

  datatype Config = Config(voxelSize: real, minHeight: real, maxHeight: real, maxInputPoints: nat) {
    predicate Valid() {
      voxelSize > 0.0 && minHeight <= maxHeight && maxInputPoints > 0
    }
  }

  // ---------- Layout ----------

  predicate ValidLayout(c: Cloud) {
    if c.isBigEndian then false
    else if c.height == 0 || c.width == 0 then true
    else if c.pointStep == 0 then false
    else if c.width > UINT32_MAX / c.pointStep || c.rowStep < c.width * c.pointStep then false
    else
      Product(1, c.width, c.pointStep);
      if c.height > SIZE_MAX / c.rowStep then false
      else c.height * c.rowStep <= |c.data|
  }

  lemma FitsIff(a: nat, d: nat, limit: nat)
    requires d > 0
    ensures a <= limit / d <==> a * d <= limit
  {
    var q := limit / d;
    assert q * d <= limit < q * d + d;
    if a <= q {
      Product(a, q, d);
    } else {
      Product(q + 1, a, d);
    }
  }

  /** A layout is valid exactly when it is little-endian and there are no points, or the rows hold their points, the
      sizes do not overflow, and the data holds the rows. */
  lemma LayoutIff(c: Cloud)
    ensures ValidLayout(c) <==>
              && !c.isBigEndian
              && (c.height == 0 || c.width == 0
                  || (c.pointStep > 0 && c.width * c.pointStep <= UINT32_MAX && c.width * c.pointStep <= c.rowStep
                      && c.height * c.rowStep <= SIZE_MAX && c.height * c.rowStep <= |c.data|))
  {
    if c.pointStep > 0 && c.width > 0 {
      FitsIff(c.width, c.pointStep, UINT32_MAX);
      Product(1, c.width, c.pointStep);
      if c.rowStep > 0 {
        FitsIff(c.height, c.rowStep, SIZE_MAX);
      }
    }
  }

  function FindField(fields: seq<Field>, name: string, pointStep: U32): Option<U32>
    requires pointStep >= 3 * FLOAT_SIZE
  {
    if fields == [] then None
    else if fields[0].name == name then
      if !fields[0].isFloat32 || fields[0].count != 1 || fields[0].offset > pointStep - FLOAT_SIZE then None
      else Some(fields[0].offset)
    else FindField(fields[1..], name, pointStep)
  }

  datatype Offsets = Offsets(x: U32, y: U32, z: U32)

  function FieldOffsets(c: Cloud): (o: Option<Offsets>)
    ensures o.Some? ==> c.pointStep >= 3 * FLOAT_SIZE
  {
    if c.pointStep < 3 * FLOAT_SIZE then None
    else
      var x, y, z := FindField(c.fields, "x", c.pointStep), FindField(c.fields, "y", c.pointStep),
                     FindField(c.fields, "z", c.pointStep);
      if x.None? || y.None? || z.None? then None else Some(Offsets(x.value, y.value, z.value))
  }

  lemma {:induction false} FieldFits(fields: seq<Field>, name: string, pointStep: U32)
    requires pointStep >= 3 * FLOAT_SIZE && FindField(fields, name, pointStep).Some?
    ensures FindField(fields, name, pointStep).value + FLOAT_SIZE <= pointStep
  {
    if fields[0].name != name {
      FieldFits(fields[1..], name, pointStep);
    }
  }

  /** The field of that name that counts is the first one, and it must be a single float inside a point. */
  ghost predicate IsField(fields: seq<Field>, name: string, pointStep: U32, offset: nat, i: int) {
    && 0 <= i < |fields| && fields[i].name == name && (forall k | 0 <= k < i :: fields[k].name != name)
    && fields[i].isFloat32 && fields[i].count == 1
    && fields[i].offset == offset && offset + FLOAT_SIZE <= pointStep
  }

  lemma {:induction false} FieldIff(fields: seq<Field>, name: string, pointStep: U32, offset: U32)
    requires pointStep >= 3 * FLOAT_SIZE
    ensures FindField(fields, name, pointStep) == Some(offset)
            <==> exists i :: IsField(fields, name, pointStep, offset, i)
  {
    if fields != [] && fields[0].name != name {
      var rest := fields[1..];
      FieldIff(rest, name, pointStep, offset);
      forall i | 0 < i < |fields|
        ensures IsField(fields, name, pointStep, offset, i) <==> IsField(rest, name, pointStep, offset, i - 1)
      {
        assert forall k | 0 < k < |fields| :: fields[k] == rest[k - 1];
      }
      if exists i :: IsField(rest, name, pointStep, offset, i) {
        var i :| IsField(rest, name, pointStep, offset, i);
        assert IsField(fields, name, pointStep, offset, i + 1);
      }
      if exists i :: IsField(fields, name, pointStep, offset, i) {
        var i :| IsField(fields, name, pointStep, offset, i);
        assert IsField(rest, name, pointStep, offset, i - 1);
      }
    } else if fields != [] {
      assert FindField(fields, name, pointStep) == Some(offset) <==> IsField(fields, name, pointStep, offset, 0);
    }
  }

  /** The coordinates are read from the fields of their own names, and only if all three are there. */
  lemma FieldOffsetsIff(c: Cloud, o: Offsets)
    ensures FieldOffsets(c) == Some(o) <==>
              && c.pointStep >= 12
              && (exists i :: IsField(c.fields, "x", c.pointStep, o.x, i))
              && (exists i :: IsField(c.fields, "y", c.pointStep, o.y, i))
              && (exists i :: IsField(c.fields, "z", c.pointStep, o.z, i))
  {
    if c.pointStep >= 3 * FLOAT_SIZE {
      FieldIff(c.fields, "x", c.pointStep, o.x);
      FieldIff(c.fields, "y", c.pointStep, o.y);
      FieldIff(c.fields, "z", c.pointStep, o.z);
    }
    hide FindField, IsField;
  }

  function Start(c: Cloud, index: nat): nat
    requires c.width > 0
  {
    var row: nat, column: nat := index / c.width, index % c.width;
    row * c.rowStep + column * c.pointStep
  }

  /** Every field of every point lies inside the data once the layout has been checked. */
  lemma ReadsStayInside(c: Cloud, index: nat, offset: nat)
    requires ValidLayout(c) && c.width > 0 && index < c.width * c.height && offset + FLOAT_SIZE <= c.pointStep
    ensures Start(c, index) + offset + FLOAT_SIZE <= |c.data|
  {
    RowBound(c.width, c.height, index);
    InsideRow(index / c.width, index % c.width, c.width, c.height, c.pointStep, c.rowStep);
  }

  lemma InsideRow(row: nat, column: nat, width: nat, height: nat, pointStep: nat, rowStep: nat)
    requires row < height && column < width && width * pointStep <= rowStep
    ensures row * rowStep + column * pointStep + pointStep <= height * rowStep
  {
    Product(column + 1, width, pointStep);
    Product(row + 1, height, rowStep);
    assert (column + 1) * pointStep == column * pointStep + pointStep;
    assert (row + 1) * rowStep == row * rowStep + rowStep;
  }

  lemma RowBound(width: nat, height: nat, index: nat)
    requires width > 0 && index < width * height
    ensures index / width < height
  {
    var row := index / width;
    assert row * width <= index;
    if row >= height {
      Product(height, row, width);
    }
  }

  lemma Product(a: nat, b: nat, k: nat)
    requires a <= b
    ensures a * k <= b * k
  {
  }

  lemma ProductGap(a: nat, b: nat, k: nat)
    requires a < b
    ensures a * k + k <= b * k
  {
    Product(a + 1, b, k);
    assert (a + 1) * k == a * k + k;
  }

  // ---------- The sampler ----------

  /** The `k`-th of `m` indices spread over `n` points. */
  function SampleIndex(n: nat, m: nat, k: nat): nat
    requires 1 <= m <= n && k < m
  {
    if m == 1 then (n - 1) / 2
    else
      Product(0, k, n - 1);
      var total: nat, intervals: nat := k * (n - 1), m - 1;
      total / intervals
  }

  lemma DivideIs(total: nat, d: nat, q: nat, r: nat)
    requires d > 0 && total == q * d + r && r < d
    ensures total / d == q
  {
    assert total == total / d * d + total % d;
    SameQuotient(d, q, r, total / d, total % d);
  }

  lemma SameQuotient(d: nat, q: nat, r: nat, p: nat, t: nat)
    requires q * d + r == p * d + t && r < d && t < d
    ensures q == p
  {
    if q < p {
      ProductGap(q, p, d);
    } else if p < q {
      ProductGap(p, q, d);
    }
  }

  /** The `k`-th sample satisfies the equation the loop keeps. */
  lemma SampleSplits(n: nat, m: nat, k: nat) returns (r: nat)
    requires 2 <= m <= n && k < m
    ensures k * (n - 1) == SampleIndex(n, m, k) * (m - 1) + r && r < m - 1
  {
    r := k * (n - 1) % (m - 1);
  }

  /** Where the loop stands before its `k`-th sample. */
  ghost predicate OnSample(n: nat, m: nat, k: nat, index: nat, error: nat) {
    if m == 1 then index == (n - 1) / 2 else m >= 2 && k * (n - 1) == index * (m - 1) + error && error < m - 1
  }

  lemma StartsOnSample(n: nat, m: nat)
    requires 1 <= m <= n
    ensures OnSample(n, m, 0, if m == 1 then (n - 1) / 2 else 0, 0)
  {
  }

  lemma OnSampleIs(n: nat, m: nat, k: nat, index: nat, error: nat)
    requires 1 <= m <= n && k < m && OnSample(n, m, k, index, error)
    ensures index == SampleIndex(n, m, k)
  {
    if m >= 2 {
      DivideIs(k * (n - 1), m - 1, index, error);
    }
  }

  /** A step of the loop lands on the next sample. */
  lemma NextSample(n: nat, m: nat, k: nat, index: nat, error: nat)
    requires 2 <= m <= n && k + 1 < m
    requires k * (n - 1) == index * (m - 1) + error && error < m - 1
    ensures var base, rest := (n - 1) / (m - 1), (n - 1) % (m - 1);
            var more := if error + rest >= m - 1 then 1 else 0;
            (k + 1) * (n - 1) == (index + base + more) * (m - 1) + (error + rest - more * (m - 1))
  {
    var span, d := n - 1, m - 1;
    var base, rest := span / d, span % d;
    assert span == base * d + rest;
    assert (k + 1) * span == k * span + span;
    assert (index + base) * d == index * d + base * d;
    assert (index + base + 1) * d == (index + base) * d + d;
  }

  lemma BaseIsPositive(n: nat, m: nat)
    requires 2 <= m <= n
    ensures (n - 1) / (m - 1) >= 1
  {
  }

  /** A sample is a point, the first and last points are sampled, and neighbouring samples are `base` or `base + 1`
      apart. */
  lemma SamplesSpreadEvenly(n: nat, m: nat, k: nat)
    requires 1 <= m <= n && k < m
    ensures SampleIndex(n, m, k) < n
    ensures m >= 2 ==> SampleIndex(n, m, 0) == 0 && SampleIndex(n, m, m - 1) == n - 1
    ensures k + 1 < m ==>
              var base := (n - 1) / (m - 1); var gap := SampleIndex(n, m, k + 1) - SampleIndex(n, m, k);
              base >= 1 && (gap == base || gap == base + 1)
  {
    if m >= 2 {
      var d := m - 1;
      DivideIs(0, d, 0, 0);
      DivideIs(d * (n - 1), d, n - 1, 0);
      var q := SampleIndex(n, m, k);
      var r := SampleSplits(n, m, k);
      if k + 1 < m {
        NextSample(n, m, k, q, r);
        BaseIsPositive(n, m);
        var base, rest := (n - 1) / d, (n - 1) % d;
        var more := if r + rest >= d then 1 else 0;
        DivideIs((k + 1) * (n - 1), d, q + base + more, r + rest - more * d);
      }
      Product(k, d, n - 1);
      SampleInRange(q, r, d, n - 1, k);
    }
  }

  lemma SampleInRange(q: nat, r: nat, d: nat, span: nat, k: nat)
    requires k * span == q * d + r && k * span <= d * span && d > 0
    ensures q <= span
  {
    if q > span {
      ProductGap(span, q, d);
    }
  }

  /** Samples come in strictly increasing order. */
  lemma {:induction false} SamplesIncrease(n: nat, m: nat, i: nat, k: nat)
    requires 1 <= m <= n && i < k < m
    ensures SampleIndex(n, m, i) < SampleIndex(n, m, k)
    decreases k
  {
    SamplesSpreadEvenly(n, m, k - 1);
    if i < k - 1 {
      SamplesIncrease(n, m, i, k - 1);
    }
  }

  // ---------- Points and cells ----------

  datatype Point = Point(x: real, y: real, z: real)

  datatype Key = Key(x: int, y: int, z: int)

  /** The largest 64-bit integer as the nearest double, which is one more. */
  const KEY_LIMIT := 0x8000_0000_0000_0000

  predicate KeyInRange(k: int) {
    -KEY_LIMIT <= k <= KEY_LIMIT
  }

  function KeyOf(p: Point, size: real): Key
    requires size > 0.0
  {
    Key((p.x / size).Floor, (p.y / size).Floor, (p.z / size).Floor)
  }

  /** How four bytes read as a float, and where the transform takes a point; either may fail to be a number. */
  datatype Sensor = Sensor(decode: seq<Byte> -> Num, transform: Point -> Option<Point>)

  function ReadFloat(env: Sensor, c: Cloud, index: nat, offset: nat): Num
    requires ValidLayout(c) && c.width > 0 && index < c.width * c.height && offset + FLOAT_SIZE <= c.pointStep
  {
    ReadsStayInside(c, index, offset);
    var at := Start(c, index) + offset;
    env.decode(c.data[at..at + FLOAT_SIZE])
  }

  /** The point a sample contributes, if any. */
  function Accept(env: Sensor, config: Config, x: Num, y: Num, z: Num): (p: Option<Point>)
    requires config.Valid()
    ensures p.Some? ==> config.minHeight <= p.value.z <= config.maxHeight
  {
    if !x.Finite? || !y.Finite? || !z.Finite? then None
    else
      match env.transform(Point(x.v, y.v, z.v))
      case None => None
      case Some(p) =>
        if p.z < config.minHeight || p.z > config.maxHeight then None
        else
          var key := KeyOf(p, config.voxelSize);
          if KeyInRange(key.x) && KeyInRange(key.y) && KeyInRange(key.z) then Some(p) else None
  }

  /** A cell number that a 64-bit integer can hold, as the conversion needs. */
  predicate FitsInt64(k: int) {
    -KEY_LIMIT <= k < KEY_LIMIT
  }

  predicate KeyFits(key: Key) {
    FitsInt64(key.x) && FitsInt64(key.y) && FitsInt64(key.z)
  }

  lemma CellBelow(x: real, size: real, limit: int)
    requires size > 0.0
    ensures (x / size).Floor < limit <==> x < limit as real * size
  {
    assert x == x / size * size;
    if x / size < limit as real {
      ScaledLess(x / size, limit as real, size);
    } else {
      ScaledLess(limit as real, x / size, size);
    }
  }

  lemma ScaledLess(a: real, b: real, size: real)
    requires size > 0.0
    ensures a < b ==> a * size < b * size
    ensures a <= b ==> a * size <= b * size
  {
  }

  /** The range test lets 2^63 through: the cell numbers of an accepted point can be held exactly when each coordinate
      is below 2^63 times the voxel size. */
  lemma AcceptedKeyFitsIff(env: Sensor, config: Config, x: Num, y: Num, z: Num)
    requires config.Valid() && Accept(env, config, x, y, z).Some?
    ensures var p, bound := Accept(env, config, x, y, z).value, KEY_LIMIT as real * config.voxelSize;
            KeyFits(KeyOf(p, config.voxelSize)) <==> p.x < bound && p.y < bound && p.z < bound
  {
    var p := Accept(env, config, x, y, z).value;
    CellBelow(p.x, config.voxelSize, KEY_LIMIT);
    CellBelow(p.y, config.voxelSize, KEY_LIMIT);
    CellBelow(p.z, config.voxelSize, KEY_LIMIT);
  }

  /** A point at 2^63 voxels is accepted, and its cell number does not fit. */
  lemma AcceptedKeyMayNotFit(decode: seq<Byte> -> Num) returns (env: Sensor, config: Config, x: Num)
    ensures config.Valid() && env.decode == decode && x == Finite(KEY_LIMIT as real)
    ensures var found := Accept(env, config, x, Finite(0.0), Finite(0.0));
            found.Some? && KeyOf(found.value, config.voxelSize).x == KEY_LIMIT
            && !KeyFits(KeyOf(found.value, config.voxelSize))
  {
    env, config, x := Sensor(decode, p => Some(p)), Config(1.0, 0.0, 1.0, 1), Finite(KEY_LIMIT as real);
  }

  function PointCount(c: Cloud): nat {
    c.width * c.height
  }

  lemma PointsHaveWidth(c: Cloud)
    requires PointCount(c) > 0
    ensures c.width > 0
  {
  }

  function AcceptAt(env: Sensor, config: Config, c: Cloud, o: Offsets, index: nat): Option<Point>
    requires config.Valid() && ValidLayout(c) && FieldOffsets(c) == Some(o)
    requires index < PointCount(c)
  {
    PointsHaveWidth(c);
    FieldFits(c.fields, "x", c.pointStep);
    FieldFits(c.fields, "y", c.pointStep);
    FieldFits(c.fields, "z", c.pointStep);
    Accept(env, config, ReadFloat(env, c, index, o.x), ReadFloat(env, c, index, o.y), ReadFloat(env, c, index, o.z))
  }

  /** A reading contributes a point exactly when it is a number in every coordinate, the transform takes it to that
      point, and the point lies in the height band and within the range of the cell numbers. */
  lemma AcceptIff(env: Sensor, config: Config, x: Num, y: Num, z: Num, p: Point)
    requires config.Valid()
    ensures Accept(env, config, x, y, z) == Some(p) <==>
              && x.Finite? && y.Finite? && z.Finite? && env.transform(Point(x.v, y.v, z.v)) == Some(p)
              && config.minHeight <= p.z <= config.maxHeight
              && InCellRange(p.x, config.voxelSize) && InCellRange(p.y, config.voxelSize)
              && InCellRange(p.z, config.voxelSize)
  {
    CellRangeIs(p.x, config.voxelSize);
    CellRangeIs(p.y, config.voxelSize);
    CellRangeIs(p.z, config.voxelSize);
    hide InCellRange;
  }

  /** From -2^63 voxels up to and including the whole voxel at 2^63. */
  predicate InCellRange(x: real, size: real) {
    -KEY_LIMIT as real * size <= x < (KEY_LIMIT + 1) as real * size
  }

  lemma CellRangeIs(x: real, size: real)
    requires size > 0.0
    ensures KeyInRange((x / size).Floor) <==> InCellRange(x, size)
  {
    CellBelow(x, size, KEY_LIMIT + 1);
    CellBelow(x, size, -KEY_LIMIT);
  }

  /** The point a sample contributes is the transform of the numbers in its x, y and z fields. */
  lemma SampleIs(env: Sensor, config: Config, c: Cloud, o: Offsets, index: nat)
    requires config.Valid() && ValidLayout(c) && FieldOffsets(c) == Some(o) && index < PointCount(c)
    requires AcceptAt(env, config, c, o, index).Some?
    ensures c.width > 0 && Start(c, index) + c.pointStep <= |c.data|
    ensures o.x + 4 <= c.pointStep && o.y + 4 <= c.pointStep && o.z + 4 <= c.pointStep
    ensures var at := Start(c, index);
            var x, y, z := env.decode(c.data[at + o.x..at + o.x + 4]), env.decode(c.data[at + o.y..at + o.y + 4]),
                           env.decode(c.data[at + o.z..at + o.z + 4]);
            && x.Finite? && y.Finite? && z.Finite?
            && AcceptAt(env, config, c, o, index) == env.transform(Point(x.v, y.v, z.v))
  {
    PointsHaveWidth(c);
    FieldFits(c.fields, "x", c.pointStep);
    FieldFits(c.fields, "y", c.pointStep);
    FieldFits(c.fields, "z", c.pointStep);
    ReadsStayInside(c, index, c.pointStep - FLOAT_SIZE);
    var p := AcceptAt(env, config, c, o, index).value;
    AcceptIff(env, config, ReadFloat(env, c, index, o.x), ReadFloat(env, c, index, o.y),
              ReadFloat(env, c, index, o.z), p);
    hide Accept, ValidLayout, FindField, InCellRange;
  }

  function Smaller(a: nat, b: nat): nat {
    if a < b then a else b
  }

  /** How many points are sampled. */
  function Samples(config: Config, c: Cloud): nat {
    Smaller(PointCount(c), config.maxInputPoints)
  }

  /** The points contributed by the first `k` samples. */
  function Accepted(env: Sensor, config: Config, c: Cloud, o: Offsets, k: nat): seq<Point>
    requires config.Valid() && ValidLayout(c) && FieldOffsets(c) == Some(o) && PointCount(c) > 0
    requires k <= Samples(config, c)
  {
    if k == 0 then []
    else
      var n := PointCount(c);
      var m := Samples(config, c);
      SamplesSpreadEvenly(n, m, k - 1);
      var rest := Accepted(env, config, c, o, k - 1);
      match AcceptAt(env, config, c, o, SampleIndex(n, m, k - 1))
      case None => rest
      case Some(p) => rest + [p]
  }

  lemma AcceptedStep(env: Sensor, config: Config, c: Cloud, o: Offsets, k: nat)
    requires config.Valid() && ValidLayout(c) && FieldOffsets(c) == Some(o) && PointCount(c) > 0
    requires k < Samples(config, c)
    ensures var n, m := PointCount(c), Samples(config, c);
            && SampleIndex(n, m, k) < n
            && Accepted(env, config, c, o, k + 1) ==
               Accepted(env, config, c, o, k) +
               match AcceptAt(env, config, c, o, SampleIndex(n, m, k)) { case None => [] case Some(p) => [p] }
  {
    SamplesSpreadEvenly(PointCount(c), Samples(config, c), k);
    hide ValidLayout, FieldOffsets, AcceptAt, SampleIndex, PointCount;
  }

  lemma SamplesFit(config: Config, c: Cloud)
    requires config.Valid() && PointCount(c) > 0
    ensures 1 <= Samples(config, c) <= PointCount(c)
  {
  }

  // ---------- Grouping ----------

  datatype Accumulator = Accumulator(x: real, y: real, z: real, count: nat)

  const NO_POINTS := Accumulator(0.0, 0.0, 0.0, 0)

  function Add(a: Accumulator, p: Point): Accumulator {
    Accumulator(a.x + p.x, a.y + p.y, a.z + p.z, a.count + 1)
  }

  /** The distinct cells of the points, in the order they first occur. */
  function Cells(ps: seq<Point>, size: real): seq<Key>
    requires size > 0.0
  {
    if ps == [] then []
    else
      var rest, key := Cells(ps[..|ps| - 1], size), KeyOf(ps[|ps| - 1], size);
      if key in rest then rest else rest + [key]
  }

  /** The sum and number of the points in one cell. */
  function Total(ps: seq<Point>, size: real, key: Key): Accumulator
    requires size > 0.0
  {
    if ps == [] then NO_POINTS
    else
      var rest, p := Total(ps[..|ps| - 1], size, key), ps[|ps| - 1];
      if KeyOf(p, size) == key then Add(rest, p) else rest
  }

  function Groups(ps: seq<Point>, size: real): seq<Accumulator>
    requires size > 0.0
  {
    var cells := Cells(ps, size);
    seq(|cells|, i requires 0 <= i < |cells| => Total(ps, size, cells[i]))
  }

  function Mean(sum: real, n: nat): real
    requires n > 0
  {
    sum * (1.0 / n as real)
  }

  function Centroid(a: Accumulator): Point
    requires a.count > 0
  {
    Point(Mean(a.x, a.count), Mean(a.y, a.count), Mean(a.z, a.count))
  }

  ghost predicate Distinct<T>(s: seq<T>) {
    forall i, j | 0 <= i < j < |s| :: s[i] != s[j]
  }

  /** The cells are exactly those of the points, each once. */
  lemma {:induction false} CellsAreTheirs(ps: seq<Point>, size: real)
    requires size > 0.0
    ensures Distinct(Cells(ps, size))
    ensures forall key :: key in Cells(ps, size) <==> exists p <- ps :: KeyOf(p, size) == key
  {
    if ps != [] {
      var before, p := ps[..|ps| - 1], ps[|ps| - 1];
      CellsAreTheirs(before, size);
      assert forall q :: q in ps <==> q in before || q == p;
      assert KeyOf(p, size) in Cells(ps, size);
    }
  }

  function CountAll(as_: seq<Accumulator>): nat {
    if as_ == [] then 0 else CountAll(as_[..|as_| - 1]) + as_[|as_| - 1].count
  }

  lemma {:induction false} TotalOutside(ps: seq<Point>, size: real, key: Key)
    requires size > 0.0 && key !in Cells(ps, size)
    ensures Total(ps, size, key) == NO_POINTS
  {
    if ps != [] {
      CellsAreTheirs(ps, size);
      assert KeyOf(ps[|ps| - 1], size) in Cells(ps, size);
      TotalOutside(ps[..|ps| - 1], size, key);
    }
  }

  /** Adding one point changes one group: its cell's, which is new at the end if it had none. */
  lemma GroupsStep(ps: seq<Point>, p: Point, size: real, i: nat)
    requires size > 0.0
    requires i <= |Cells(ps, size)|
    requires if i < |Cells(ps, size)| then Cells(ps, size)[i] == KeyOf(p, size) else KeyOf(p, size) !in Cells(ps, size)
    ensures var groups := Groups(ps, size);
            && Cells(ps + [p], size) == Cells(ps, size) + (if i == |groups| then [KeyOf(p, size)] else [])
            && Groups(ps + [p], size) ==
               if i == |groups| then groups + [Add(NO_POINTS, p)] else groups[i := Add(groups[i], p)]
  {
    var all, key := ps + [p], KeyOf(p, size);
    var cells, groups := Cells(ps, size), Groups(ps, size);
    assert all[..|all| - 1] == ps;
    CellsAreTheirs(ps, size);
    var expected := if i == |groups| then groups + [Add(NO_POINTS, p)] else groups[i := Add(groups[i], p)];
    if i == |groups| { TotalOutside(ps, size, key); }
    forall k | 0 <= k < |expected| ensures Groups(all, size)[k] == expected[k] {
      if k < |cells| && k != i { assert cells[k] != key; }
    }
  }

  lemma {:induction false} CountAllOfUpdate(as_: seq<Accumulator>, i: nat, a: Accumulator)
    requires i < |as_|
    ensures CountAll(as_[i := a]) == CountAll(as_) - as_[i].count + a.count
    decreases |as_|
  {
    var last := |as_| - 1;
    if i < last {
      assert as_[i := a][..last] == as_[..last][i := a];
      CountAllOfUpdate(as_[..last], i, a);
    } else {
      assert as_[i := a][..last] == as_[..last];
    }
  }

  /** Grouping loses and invents nothing: the counts add up to the number of points. */
  lemma {:induction false} CountsAddUp(ps: seq<Point>, size: real)
    requires size > 0.0
    ensures CountAll(Groups(ps, size)) == |ps|
  {
    if ps != [] {
      var before, p := ps[..|ps| - 1], ps[|ps| - 1];
      CountsAddUp(before, size);
      var cells, groups := Cells(before, size), Groups(before, size);
      assert ps == before + [p];
      if KeyOf(p, size) in cells {
        var i :| 0 <= i < |cells| && cells[i] == KeyOf(p, size);
        GroupsStep(before, p, size, i);
        CountAllOfUpdate(groups, i, Add(groups[i], p));
      } else {
        GroupsStep(before, p, size, |cells|);
        assert (groups + [Add(NO_POINTS, p)])[..|groups|] == groups;
      }
    }
  }

  // ---------- Centroids ----------

  /** A sum of `n` numbers, each at least `low` and below `high`. */
  ghost predicate SumWithin(sum: real, n: nat, low: real, high: real) {
    n as real * low <= sum && (if n == 0 then sum == 0.0 else sum < n as real * high)
  }

  lemma SumGrows(sum: real, n: nat, low: real, high: real, x: real)
    requires SumWithin(sum, n, low, high) && low <= x < high
    ensures SumWithin(sum + x, n + 1, low, high)
  {
    assert (n + 1) as real == n as real + 1.0;
    assert (n as real + 1.0) * low == n as real * low + low;
    assert (n as real + 1.0) * high == n as real * high + high;
  }

  lemma MeanWithin(sum: real, n: nat, low: real, high: real)
    requires n > 0 && SumWithin(sum, n, low, high)
    ensures low <= Mean(sum, n) < high
  {
    MeanOfReal(sum, n as real, low, high);
  }

  lemma MeanOfReal(sum: real, n: real, low: real, high: real)
    requires n > 0.0 && n * low <= sum < n * high
    ensures low <= sum * (1.0 / n) < high
  {
    var mean := sum * (1.0 / n);
    assert mean * n == sum;
    SameOrder(low, mean, n, n * low, sum);
    SameOrder(mean, high, n, sum, n * high);
  }

  /** Lower edge of the `k`-th interval of length `size`. */
  function Edge(k: int, size: real): real {
    k as real * size
  }

  /** Rounding down picks the interval a number lies in. */
  lemma FloorIffInside(x: real, size: real, k: int)
    requires size > 0.0
    ensures (x / size).Floor == k <==> Edge(k, size) <= x < Edge(k, size) + size
  {
    ScaledFloor(x / size, size, k, x);
  }

  lemma ScaledFloor(q: real, size: real, k: int, x: real)
    requires size > 0.0 && x == q * size
    ensures q.Floor == k <==> Edge(k, size) <= x < Edge(k, size) + size
  {
    FloorIs(q, k);
    ScaledBetween(k as real, q, size, Edge(k, size), x);
  }

  lemma FloorIs(q: real, k: int)
    ensures q.Floor == k <==> k as real <= q < k as real + 1.0
  {
  }

  lemma ScaledBetween(f: real, q: real, size: real, edge: real, x: real)
    requires size > 0.0 && edge == size * f && x == size * q
    ensures f <= q < f + 1.0 <==> edge <= x < edge + size
  {
    var next := f + 1.0;
    assert size * next == edge + size;
    SameOrder(f, q, size, edge, x);
    SameOrder(q, next, size, x, edge + size);
  }

  lemma SameOrder(a: real, b: real, k: real, ak: real, bk: real)
    requires k > 0.0 && ak == k * a && bk == k * b
    ensures a <= b <==> ak <= bk
    ensures a < b <==> ak < bk
  {
    assert k * (b - a) == bk - ak;
    assert a < b ==> k * (b - a) > 0.0;
    assert a > b ==> k * (b - a) < 0.0;
  }

  ghost predicate AllWithinHeight(ps: seq<Point>, low: real, high: real) {
    forall p <- ps :: low <= p.z <= high
  }

  lemma {:induction false} TotalWithin(ps: seq<Point>, size: real, key: Key)
    requires size > 0.0
    ensures var a := Total(ps, size, key);
            && SumWithin(a.x, a.count, Edge(key.x, size), Edge(key.x, size) + size)
            && SumWithin(a.y, a.count, Edge(key.y, size), Edge(key.y, size) + size)
            && SumWithin(a.z, a.count, Edge(key.z, size), Edge(key.z, size) + size)
  {
    if ps != [] {
      var p, before := ps[|ps| - 1], Total(ps[..|ps| - 1], size, key);
      TotalWithin(ps[..|ps| - 1], size, key);
      if KeyOf(p, size) == key {
        FloorIffInside(p.x, size, key.x);
        FloorIffInside(p.y, size, key.y);
        FloorIffInside(p.z, size, key.z);
        SumGrows(before.x, before.count, Edge(key.x, size), Edge(key.x, size) + size, p.x);
        SumGrows(before.y, before.count, Edge(key.y, size), Edge(key.y, size) + size, p.y);
        SumGrows(before.z, before.count, Edge(key.z, size), Edge(key.z, size) + size, p.z);
      }
    }
  }

  /** A sum of `n` heights, each between `low` and `high`. */
  ghost predicate HeightsWithin(sum: real, n: nat, low: real, high: real) {
    n as real * low <= sum <= n as real * high
  }

  lemma {:induction false} TotalWithinHeight(ps: seq<Point>, size: real, key: Key, low: real, high: real)
    requires size > 0.0 && AllWithinHeight(ps, low, high)
    ensures HeightsWithin(Total(ps, size, key).z, Total(ps, size, key).count, low, high)
  {
    if ps == [] {
    } else {
      hide HeightsWithin, KeyOf;
      var p, before := ps[|ps| - 1], Total(ps[..|ps| - 1], size, key);
      assert p in ps;
      TotalWithinHeight(ps[..|ps| - 1], size, key, low, high);
      HeightGrows(before.z, before.count, low, high, p.z);
    }
  }

  lemma HeightGrows(sum: real, n: nat, low: real, high: real, z: real)
    requires HeightsWithin(sum, n, low, high) && low <= z <= high
    ensures HeightsWithin(sum + z, n + 1, low, high)
  {
    assert (n + 1) as real == n as real + 1.0;
    assert (n as real + 1.0) * low == n as real * low + low;
    assert (n as real + 1.0) * high == n as real * high + high;
  }

  lemma MeanOfHeights(sum: real, n: nat, low: real, high: real)
    requires n > 0 && HeightsWithin(sum, n, low, high)
    ensures low <= Mean(sum, n) <= high
  {
    MeanBetween(sum, n as real, low, high);
  }

  lemma MeanBetween(sum: real, n: real, low: real, high: real)
    requires n > 0.0 && n * low <= sum <= n * high
    ensures low <= sum * (1.0 / n) <= high
  {
    var mean := sum * (1.0 / n);
    assert mean * n == sum;
    SameOrder(low, mean, n, n * low, sum);
    SameOrder(mean, high, n, sum, n * high);
  }

  lemma {:induction false} CellsHavePoints(ps: seq<Point>, size: real, key: Key)
    requires size > 0.0 && key in Cells(ps, size)
    ensures Total(ps, size, key).count > 0
  {
    if key in Cells(ps[..|ps| - 1], size) {
      CellsHavePoints(ps[..|ps| - 1], size, key);
    }
  }

  /** Every centroid lies in its own cell and in the height band. */
  lemma CentroidsStayInTheirCells(ps: seq<Point>, size: real, low: real, high: real, i: nat)
    requires size > 0.0 && AllWithinHeight(ps, low, high) && i < |Groups(ps, size)|
    ensures Groups(ps, size)[i].count > 0
    ensures var centroid := Centroid(Groups(ps, size)[i]);
            KeyOf(centroid, size) == Cells(ps, size)[i] && low <= centroid.z <= high
  {
    hide SumWithin, HeightsWithin, Total, Mean;
    var key := Cells(ps, size)[i];
    var a := Total(ps, size, key);
    CellsHavePoints(ps, size, key);
    TotalWithin(ps, size, key);
    TotalWithinHeight(ps, size, key, low, high);
    MeanInInterval(a.x, a.count, key.x, size);
    MeanInInterval(a.y, a.count, key.y, size);
    MeanInInterval(a.z, a.count, key.z, size);
    MeanOfHeights(a.z, a.count, low, high);
  }

  lemma MeanInInterval(sum: real, n: nat, k: int, size: real)
    requires n > 0 && size > 0.0 && SumWithin(sum, n, Edge(k, size), Edge(k, size) + size)
    ensures (Mean(sum, n) / size).Floor == k
  {
    MeanWithin(sum, n, Edge(k, size), Edge(k, size) + size);
    FloorIffInside(Mean(sum, n), size, k);
  }

  // ---------- The filter ----------

  datatype Result = Result(centroids: seq<Point>, inputCount: nat, sampledCount: nat, retainedCount: nat)

  function Centroids(groups: seq<Accumulator>): seq<Point>
    requires forall a <- groups :: a.count > 0
  {
    seq(|groups|, i requires 0 <= i < |groups| => Centroid(groups[i]))
  }

  lemma GroupsNonempty(ps: seq<Point>, size: real)
    requires size > 0.0
    ensures forall a <- Groups(ps, size) :: a.count > 0
  {
    forall i | 0 <= i < |Groups(ps, size)| ensures Groups(ps, size)[i].count > 0 {
      CellsHavePoints(ps, size, Cells(ps, size)[i]);
    }
  }

  /** What the filter promises: the centroids of the cells of an evenly spread sample. */
  function Filtered(env: Sensor, config: Config, c: Cloud): Option<Result> {
    if !config.Valid() || !ValidLayout(c) || FieldOffsets(c).None? then None
    else
      var n := PointCount(c);
      if n == 0 then Some(Result([], 0, 0, 0))
      else
        var m := Samples(config, c);
        var ps := Accepted(env, config, c, FieldOffsets(c).value, m);
        var groups := Groups(ps, config.voxelSize);
        GroupsNonempty(ps, config.voxelSize);
        if |groups| > UINT32_MAX / (3 * FLOAT_SIZE) then None
        else Some(Result(Centroids(groups), n, m, |groups|))
  }

  /** The map and the accumulators hold exactly the groups of `ps`, first occurrence first. */
  ghost predicate Grouped(indices: map<Key, nat>, voxels: seq<Accumulator>, ps: seq<Point>, size: real)
    requires size > 0.0
  {
    var cells := Cells(ps, size);
    && voxels == Groups(ps, size)
    && (forall key :: key in indices <==> key in cells)
    && (forall i | 0 <= i < |cells| :: cells[i] in indices && indices[cells[i]] == i)
  }

  lemma GroupedPush(indices: map<Key, nat>, voxels: seq<Accumulator>, ps: seq<Point>, p: Point, size: real)
    requires size > 0.0 && Grouped(indices, voxels, ps, size) && KeyOf(p, size) !in indices
    ensures Grouped(indices[KeyOf(p, size) := |voxels|], voxels + [Add(NO_POINTS, p)], ps + [p], size)
  {
    GroupsStep(ps, p, size, |voxels|);
    hide KeyOf, Total, Add;
  }

  lemma GroupedAdd(indices: map<Key, nat>, voxels: seq<Accumulator>, ps: seq<Point>, p: Point, size: real)
    requires size > 0.0 && Grouped(indices, voxels, ps, size) && KeyOf(p, size) in indices
    ensures var at := indices[KeyOf(p, size)];
            at < |voxels| && Grouped(indices, voxels[at := Add(voxels[at], p)], ps + [p], size)
  {
    var cells := Cells(ps, size);
    var i :| 0 <= i < |cells| && cells[i] == KeyOf(p, size);
    GroupsStep(ps, p, size, i);
    hide KeyOf, Total, Add;
  }

  /** `PointCloudVoxelFilterWorkspace`: the index map and the accumulators are kept between calls. */
  class Workspace {
    var indices: map<Key, nat>
    var voxels: seq<Accumulator>

    constructor ()
      ensures indices == map[] && voxels == []
    {
      indices, voxels := map[], [];
    }

    ghost predicate Holds(ps: seq<Point>, size: real)
      requires size > 0.0
      reads this
    {
      Grouped(indices, voxels, ps, size)
    }

    method AddPoint(p: Point, size: real, ghost ps: seq<Point>)
      requires size > 0.0 && Holds(ps, size)
      modifies this
      ensures Holds(ps + [p], size)
    {
      var key := KeyOf(p, size);
      if key in indices {
        GroupedAdd(indices, voxels, ps, p, size);
      } else {
        GroupedPush(indices, voxels, ps, p, size);
      }
      hide KeyOf, Grouped;
      if key !in indices {
        indices := indices[key := |voxels|];
        voxels := voxels + [NO_POINTS];
        assert voxels[|voxels| - 1 := Add(NO_POINTS, p)] == old(voxels) + [Add(NO_POINTS, p)];
      }
      var at := indices[key];
      voxels := voxels[at := Add(voxels[at], p)];
    }

    /** One step of the division-free sampling loop: on by the base interval, and by one more when the accumulated
        remainders fill an interval. */
    static method Advance(n: nat, m: nat, ghost k: nat, index: nat, error: nat) returns (next: nat, left: nat)
      requires 2 <= m <= n && k + 1 < m && OnSample(n, m, k, index, error)
      ensures OnSample(n, m, k + 1, next, left)
    {
      NextSample(n, m, k, index, error);
      var intervals, span := m - 1, n - 1;
      next := index + span / intervals;
      left := error + span % intervals;
      if left >= intervals {
        next := next + 1;
        left := left - intervals;
      }
    }

    /** One sample of the loop: the point it contributes, if any, joins its group. */
    method TakeSample(env: Sensor, config: Config, c: Cloud, o: Offsets, ghost k: nat, index: nat)
      requires config.Valid() && ValidLayout(c) && FieldOffsets(c) == Some(o) && PointCount(c) > 0
      requires k < Samples(config, c) && index < PointCount(c)
      requires index == SampleIndex(PointCount(c), Samples(config, c), k)
      requires Holds(Accepted(env, config, c, o, k), config.voxelSize)
      modifies this
      ensures Holds(Accepted(env, config, c, o, k + 1), config.voxelSize)
    {
      AcceptedStep(env, config, c, o, k);
      hide Holds, Grouped, AcceptAt, ValidLayout, FieldOffsets, SampleIndex, Accepted, Samples, PointCount;
      var p := AcceptAt(env, config, c, o, index);
      if p.Some? {
        AddPoint(p.value, config.voxelSize, Accepted(env, config, c, o, k));
      }
    }

    method Gather(env: Sensor, config: Config, c: Cloud, o: Offsets)
      requires config.Valid() && ValidLayout(c) && FieldOffsets(c) == Some(o) && PointCount(c) > 0
      modifies this
      ensures Holds(Accepted(env, config, c, o, Samples(config, c)), config.voxelSize)
    {
      indices, voxels := map[], [];
      assert Holds([], config.voxelSize) && Accepted(env, config, c, o, 0) == [];
      SamplesFit(config, c);
      hide Holds, Grouped, ValidLayout, FieldOffsets, SampleIndex, OnSample, Accepted, PointCount, Samples;
      var n := PointCount(c);
      var m := Samples(config, c);
      var next: nat := if m == 1 then (n - 1) / 2 else 0;
      var error: nat := 0;
      StartsOnSample(n, m);
      for k := 0 to m
        invariant k < m ==> OnSample(n, m, k, next, error)
        invariant Holds(Accepted(env, config, c, o, k), config.voxelSize)
      {
        var index := next;
        OnSampleIs(n, m, k, next, error);
        SamplesSpreadEvenly(n, m, k);
        if k + 1 < m {
          next, error := Advance(n, m, k, index, error);
        }
        TakeSample(env, config, c, o, k, index);
      }
    }

    /** The result depends on the arguments alone, never on what the workspace held before. */
    method Filter(env: Sensor, config: Config, c: Cloud) returns (r: Option<Result>)
      modifies this
      ensures r == Filtered(env, config, c)
    {
      if !config.Valid() || !ValidLayout(c) {
        return None;
      }
      var o := FieldOffsets(c);
      if o.None? {
        return None;
      }
      var n := PointCount(c);
      if n == 0 {
        return Some(Result([], 0, 0, 0));
      }
      Gather(env, config, c, o.value);
      ghost var ps := Accepted(env, config, c, o.value, Samples(config, c));
      GroupsNonempty(ps, config.voxelSize);
      if |voxels| > UINT32_MAX / (3 * FLOAT_SIZE) {
        return None;
      }
      var centroids := Average(voxels);
      return Some(Result(centroids, n, Samples(config, c), |voxels|));
    }

    static method Average(voxels: seq<Accumulator>) returns (centroids: seq<Point>)
      requires forall a <- voxels :: a.count > 0
      ensures centroids == Centroids(voxels)
    {
      hide Centroid;
      centroids := [];
      for i := 0 to |voxels|
        invariant centroids == Centroids(voxels)[..i]
      {
        centroids := centroids + [Centroid(voxels[i])];
      }
    }
  }

  /** The output has one point for each cell that holds an accepted sample and no other, in the order the cells were
      first met; each lies in its own cell and in the height band. */
  lemma OutputIsOnePointPerCell(env: Sensor, config: Config, c: Cloud)
    requires Filtered(env, config, c).Some? && PointCount(c) > 0
    ensures OnePerCell(Filtered(env, config, c).value.centroids,
                       Accepted(env, config, c, FieldOffsets(c).value, Samples(config, c)), config)
  {
    hide ValidLayout, FieldOffsets, OnePerCell, Accepted, Groups, Centroids, AllWithinHeight, Samples;
    var o := FieldOffsets(c).value;
    var ps := Accepted(env, config, c, o, Samples(config, c));
    AcceptedWithinHeight(env, config, c, o, Samples(config, c));
    GroupsNonempty(ps, config.voxelSize);
    CentroidsAreOnePerCell(ps, config);
  }

  ghost predicate OnePerCell(centroids: seq<Point>, ps: seq<Point>, config: Config)
    requires config.Valid()
  {
    var size := config.voxelSize;
    var cells := Cells(ps, size);
    && |centroids| == |cells| && Distinct(cells)
    && (forall key :: key in cells <==> exists p <- ps :: KeyOf(p, size) == key)
    && (forall i | 0 <= i < |cells| ::
      && KeyOf(centroids[i], size) == cells[i]
      && config.minHeight <= centroids[i].z <= config.maxHeight)
  }

  lemma CentroidsAreOnePerCell(ps: seq<Point>, config: Config)
    requires config.Valid() && AllWithinHeight(ps, config.minHeight, config.maxHeight)
    requires forall a <- Groups(ps, config.voxelSize) :: a.count > 0
    ensures OnePerCell(Centroids(Groups(ps, config.voxelSize)), ps, config)
  {
    hide Centroid, KeyOf, AllWithinHeight;
    CellsAreTheirs(ps, config.voxelSize);
    forall i | 0 <= i < |Cells(ps, config.voxelSize)|
      ensures var centroid := Centroid(Groups(ps, config.voxelSize)[i]);
              && KeyOf(centroid, config.voxelSize) == Cells(ps, config.voxelSize)[i]
              && config.minHeight <= centroid.z <= config.maxHeight
    {
      CentroidsStayInTheirCells(ps, config.voxelSize, config.minHeight, config.maxHeight, i);
    }
  }

  lemma {:induction false} AcceptedWithinHeight(env: Sensor, config: Config, c: Cloud, o: Offsets, k: nat)
    requires config.Valid() && ValidLayout(c) && FieldOffsets(c) == Some(o) && PointCount(c) > 0
    requires k <= Samples(config, c)
    ensures AllWithinHeight(Accepted(env, config, c, o, k), config.minHeight, config.maxHeight)
  {
    if k > 0 {
      AcceptedWithinHeight(env, config, c, o, k - 1);
    }
  }

  // ---------- Averages ----------

  /** The points in one cell. */
  function Members(ps: seq<Point>, size: real, key: Key): seq<Point>
    requires size > 0.0
  {
    if ps == [] then []
    else
      Members(ps[..|ps| - 1], size, key) + (if KeyOf(ps[|ps| - 1], size) == key then [ps[|ps| - 1]] else [])
  }

  function Sum(ps: seq<Point>, coordinate: Point -> real): real {
    if ps == [] then 0.0 else Sum(ps[..|ps| - 1], coordinate) + coordinate(ps[|ps| - 1])
  }

  function X(p: Point): real { p.x }

  function Y(p: Point): real { p.y }

  function Z(p: Point): real { p.z }

  lemma {:induction false} TotalIsSum(ps: seq<Point>, size: real, key: Key)
    requires size > 0.0
    ensures var a, members := Total(ps, size, key), Members(ps, size, key);
            a.x == Sum(members, X) && a.y == Sum(members, Y) && a.z == Sum(members, Z) && a.count == |members|
  {
    if ps != [] {
      hide KeyOf;
      TotalIsSum(ps[..|ps| - 1], size, key);
      var before, members := Members(ps[..|ps| - 1], size, key), Members(ps, size, key);
      assert KeyOf(ps[|ps| - 1], size) == key ==> members[..|members| - 1] == before;
      assert KeyOf(ps[|ps| - 1], size) != key ==> members == before;
    }
  }

  /** The point is the average of the others, of which there are some. */
  ghost predicate Averages(p: Point, ps: seq<Point>) {
    && ps != []
    && p.x * |ps| as real == Sum(ps, X) && p.y * |ps| as real == Sum(ps, Y) && p.z * |ps| as real == Sum(ps, Z)
  }

  lemma MeanTimes(sum: real, n: nat)
    requires n > 0
    ensures Mean(sum, n) * n as real == sum
  {
    var inverse := 1.0 / n as real;
    assert inverse * n as real == 1.0;
    assert sum * inverse * n as real == sum * (inverse * n as real);
  }

  lemma CentroidAverages(ps: seq<Point>, size: real, i: nat)
    requires size > 0.0 && i < |Groups(ps, size)| && Groups(ps, size)[i].count > 0
    ensures Averages(Centroid(Groups(ps, size)[i]), Members(ps, size, Cells(ps, size)[i]))
  {
    hide Mean, Total, Members, Sum;
    var a := Groups(ps, size)[i];
    TotalIsSum(ps, size, Cells(ps, size)[i]);
    MeanTimes(a.x, a.count);
    MeanTimes(a.y, a.count);
    MeanTimes(a.z, a.count);
  }

  /** The filter refuses a cloud exactly for its configuration, its layout, its fields or the size of the output; it
      reports how many points there were, how many were sampled and how many cells are left; and each output point is
      the average of the accepted samples in its cell. */
  lemma FilterAverages(env: Sensor, config: Config, c: Cloud)
    requires config.Valid() && ValidLayout(c) && FieldOffsets(c).Some? && c.width > 0 && c.height > 0
    ensures SamplesOf(config, c) <= PointCount(c)
    ensures var o, r := FieldOffsets(c).value, Filtered(env, config, c);
            var ps := Accepted(env, config, c, o, SamplesOf(config, c));
            var cells := Cells(ps, config.voxelSize);
            && (r.Some? <==> |cells| * 12 <= UINT32_MAX)
            && (r.Some? ==>
              && r.value.inputCount == c.width * c.height
              && r.value.sampledCount == SamplesOf(config, c)
              && r.value.retainedCount == |cells| == |r.value.centroids|
              && forall i | 0 <= i < |cells| ::
                   Averages(r.value.centroids[i], Members(ps, config.voxelSize, cells[i])))
  {
    hide ValidLayout, FieldOffsets, Accepted, Averages, Centroid, Total, Members, Cells;
    SomePoints(c.width, c.height);
    var ps := Accepted(env, config, c, FieldOffsets(c).value, Samples(config, c));
    GroupsNonempty(ps, config.voxelSize);
    var groups := Groups(ps, config.voxelSize);
    forall i | 0 <= i < |groups|
      ensures Averages(Centroid(groups[i]), Members(ps, config.voxelSize, Cells(ps, config.voxelSize)[i]))
    {
      assert groups[i] in groups;
      CentroidAverages(ps, config.voxelSize, i);
    }
  }

  lemma SomePoints(width: nat, height: nat)
    requires width > 0 && height > 0
    ensures width * height > 0
  {
  }

  /** As many points are sampled as there are, up to the configured number. */
  function SamplesOf(config: Config, c: Cloud): nat {
    if c.width * c.height <= config.maxInputPoints then c.width * c.height else config.maxInputPoints
  }

  /** Without points there is nothing to refuse but the configuration, the layout and the fields. */
  lemma RefusalIs(env: Sensor, config: Config, c: Cloud)
    ensures !config.Valid() || !ValidLayout(c) || FieldOffsets(c).None? ==> Filtered(env, config, c).None?
    ensures config.Valid() && ValidLayout(c) && FieldOffsets(c).Some? && (c.width == 0 || c.height == 0) ==>
              Filtered(env, config, c) == Some(Result([], 0, 0, 0))
  {
    hide ValidLayout, FieldOffsets;
  }
}
