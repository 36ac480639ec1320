/** Running an image model tile by tile: where the tiles lie, and what their average amounts to. */
module Tiling {

  // ---- Where tiles start along one axis

  /** `range(from, stop, stride)`. */
  function Range(from: nat, stop: nat, stride: nat): (r: seq<nat>)
    requires stride > 0
    ensures forall k :: k in r ==> from <= k < stop
    ensures forall i, j :: 0 <= i < j < |r| ==> r[i] < r[j]
    ensures from < stop ==> from in r
    decreases stop - from
  {
    if from >= stop then []
    else
      var rest := Range(from + stride, stop, stride);
      assert forall j :: 0 <= j < |rest| ==> rest[j] in rest;
      [from] + rest
  }

  /** Every position has a tick less than a stride before it, unless the last tick is further away. */
  lemma {:induction false} TickBefore(from: nat, stop: nat, stride: nat, p: nat) returns (k: nat)
    requires stride > 0 && from <= p && from < stop
    ensures k in Range(from, stop, stride) && k <= p
    ensures p < k + stride || stop <= k + stride
    decreases stop - from
  {
    if p < from + stride || stop <= from + stride {
      k := from;
    } else {
      k := TickBefore(from + stride, stop, stride, p);
    }
  }

  function Max(a: int, b: int): int { if a > b then a else b }

  function Min(a: int, b: int): int { if a < b then a else b }

  /** The starts along an axis of length `n`: every stride, and one tile flush with the end. */
  method Starts(n: nat, tile: nat, overlap: nat) returns (s: seq<nat>)
    requires overlap < tile
    ensures s == TileStarts(n, tile, overlap)
  {
    s := Range(0, Max(1, n - tile + 1), tile - overlap);
    var last := Max(0, n - tile);
    if last !in s { s := s + [last]; }
  }

  function TileStarts(n: nat, tile: nat, overlap: nat): (s: seq<nat>)
    requires overlap < tile
  {
    var r := Range(0, Max(1, n - tile + 1), tile - overlap);
    var last := Max(0, n - tile);
    if last in r then r else r + [last]
  }

  /** The list is what `sorted(set(…))` leaves: strictly increasing; and no tile hangs over the end. */
  lemma StartsFit(n: nat, tile: nat, overlap: nat)
    requires overlap < tile
    ensures var s := TileStarts(n, tile, overlap);
      && (forall i, j :: 0 <= i < j < |s| ==> s[i] < s[j])
      && (forall k :: k in s ==> k == 0 || k + tile <= n)
  {
    var r := Range(0, Max(1, n - tile + 1), tile - overlap);
    var s, last := TileStarts(n, tile, overlap), Max(0, n - tile);
    hide Range;
    forall i, j | 0 <= i < j < |s| ensures s[i] < s[j] {
      assert r[i] in r;
      assert j < |r| || s[j] == last;
    }
    forall k | k in s ensures k == 0 || k + tile <= n {
      assert k in r || k == last;
    }
  }

  predicate InTile(k: nat, p: nat, tile: nat) { k <= p < k + tile }

  /** Every cell of the axis lies in some tile. */
  lemma StartsCover(n: nat, tile: nat, overlap: nat, p: nat) returns (k: nat)
    requires overlap < tile && p < n
    ensures k in TileStarts(n, tile, overlap) && InTile(k, p, tile)
  {
    k := TickBefore(0, Max(1, n - tile + 1), tile - overlap, p);
    if p >= k + tile { k := n - tile; }
  }

  /** The ticks of a range are a stride apart, and the next one would be past the end. */
  lemma {:induction false} Ticks(from: nat, stop: nat, stride: nat)
    requires stride > 0 && from < stop
    ensures var r := Range(from, stop, stride);
      && r != [] && r[0] == from && r[|r| - 1] + stride >= stop
      && forall i :: 0 <= i < |r| - 1 ==> r[i + 1] == r[i] + stride
    decreases stop - from
  {
    if from + stride < stop { Ticks(from + stride, stop, stride); }
  }

  /** Neighbouring tiles share at least the overlap, and no tile is closer to the next than it has to be, but the last. */
  lemma StartsOverlap(n: nat, tile: nat, overlap: nat, i: nat)
    requires overlap < tile && i + 1 < |TileStarts(n, tile, overlap)|
    ensures var s := TileStarts(n, tile, overlap);
      && s[i] < s[i + 1] && s[i] + tile >= s[i + 1] + overlap
      && (i + 2 < |s| ==> s[i] + tile == s[i + 1] + overlap)
  {
    var stop, stride := Max(1, n - tile + 1), tile - overlap;
    Ticks(0, stop, stride);
    StartsFit(n, tile, overlap);
    var r, s := Range(0, stop, stride), TileStarts(n, tile, overlap);
    hide Range;
    assert r == s || s == r + [Max(0, n - tile)];
    assert i + 1 < |r| ==> s[i] == r[i] && s[i + 1] == r[i + 1];
    hide TileStarts;
  }

  // ---- Tiles over the image

  /** The upscaled prediction of the tile at (y, z), at its own coordinates. */
  type Model = (nat, nat, nat, nat) -> real

  datatype Frame = Frame(height: nat, width: nat, tile: nat, scale: nat) {
    predicate Valid() { tile > 0 && scale > 0 }

    /** The output cells the tile at `k` along an axis of length `n` contributes to. */
    predicate Reaches(k: nat, n: nat, i: nat) { k * scale <= i < Min(k + tile, n) * scale }

    predicate Hits(t: (nat, nat), i: nat, j: nat) { Reaches(t.0, height, i) && Reaches(t.1, width, j) }
  }

  function Part(f: Frame, model: Model, t: (nat, nat), i: nat, j: nat): real {
    if f.Hits(t, i, j) then model(t.0, t.1, i - t.0 * f.scale, j - t.1 * f.scale) else 0.0
  }

  /** Sum of the predictions at an output cell, and the number of tiles that made one. */
  function Total(f: Frame, model: Model, tiles: seq<(nat, nat)>, i: nat, j: nat): real {
    if tiles == [] then 0.0
    else Total(f, model, tiles[..|tiles| - 1], i, j) + Part(f, model, tiles[|tiles| - 1], i, j)
  }

  function Count(f: Frame, tiles: seq<(nat, nat)>, i: nat, j: nat): nat {
    if tiles == [] then 0
    else Count(f, tiles[..|tiles| - 1], i, j) + if f.Hits(tiles[|tiles| - 1], i, j) then 1 else 0
  }

  /** All tiles, row by row. */
  function Row(y: nat, xs: seq<nat>): seq<(nat, nat)> { seq(|xs|, k requires 0 <= k < |xs| => (y, xs[k])) }

  function Grid(ys: seq<nat>, xs: seq<nat>): seq<(nat, nat)> {
    if ys == [] then [] else Grid(ys[..|ys| - 1], xs) + Row(ys[|ys| - 1], xs)
  }

  lemma {:induction false} InGrid(ys: seq<nat>, xs: seq<nat>, y: nat, z: nat)
    requires y in ys && z in xs
    ensures (y, z) in Grid(ys, xs)
  {
    var n := |ys| - 1;
    if y == ys[n] {
      var k :| 0 <= k < |xs| && xs[k] == z;
      assert Row(y, xs)[k] == (y, z);
    } else {
      assert y in ys[..n];
      InGrid(ys[..n], xs, y, z);
    }
  }

  /** Adding one prediction into its window of both buffers. */
  method AddTile(f: Frame, model: Model, y: nat, z: nat, out: array2<real>, count: array2<nat>, ghost done: seq<(nat, nat)>)
    requires f.Valid()
    requires out.Length0 == count.Length0 == f.height * f.scale && out.Length1 == count.Length1 == f.width * f.scale
    requires Accumulated(f, model, done, out, count)
    modifies out, count
    ensures Accumulated(f, model, done + [(y, z)], out, count)
  {
    OneTile(f, model, done, (y, z));
    hide Frame.Hits, Frame.Reaches, Part, Total, Count;
    forall i, j | 0 <= i < out.Length0 && 0 <= j < out.Length1 && f.Hits((y, z), i, j) {
      out[i, j] := out[i, j] + Part(f, model, (y, z), i, j);
    }
    forall i, j | 0 <= i < out.Length0 && 0 <= j < out.Length1 && f.Hits((y, z), i, j) {
      count[i, j] := count[i, j] + 1;
    }
  }

  lemma OneTile(f: Frame, model: Model, done: seq<(nat, nat)>, t: (nat, nat))
    ensures forall i, j :: Total(f, model, done + [t], i, j) == Total(f, model, done, i, j) + Part(f, model, t, i, j)
    ensures forall i, j :: Count(f, done + [t], i, j) == Count(f, done, i, j) + if f.Hits(t, i, j) then 1 else 0
    ensures forall i, j :: !f.Hits(t, i, j) ==> Part(f, model, t, i, j) == 0.0
  {
    var all := done + [t];
    assert all[..|all| - 1] == done;
    hide Frame.Hits, Frame.Reaches;
  }

  ghost predicate Accumulated(f: Frame, model: Model, done: seq<(nat, nat)>, out: array2<real>, count: array2<nat>)
    reads out, count
  {
    && out.Length0 == count.Length0 && out.Length1 == count.Length1
    && forall i, j :: 0 <= i < out.Length0 && 0 <= j < out.Length1 ==>
         out[i, j] == Total(f, model, done, i, j) && count[i, j] == Count(f, done, i, j)
  }

  /** `tiled`, for one channel of a padded image, before the final crop. */
  method Tiled(f: Frame, overlap: nat, model: Model) returns (result: array2<real>, ghost tiles: seq<(nat, nat)>)
    requires f.Valid() && overlap < f.tile
    ensures fresh(result) && result.Length0 == f.height * f.scale && result.Length1 == f.width * f.scale
    ensures tiles == Grid(TileStarts(f.height, f.tile, overlap), TileStarts(f.width, f.tile, overlap))
    ensures forall i, j :: 0 <= i < result.Length0 && 0 <= j < result.Length1 ==>
      Count(f, tiles, i, j) >= 1 && result[i, j] == Total(f, model, tiles, i, j) / Count(f, tiles, i, j) as real
  {
    hide Frame.Hits, Frame.Reaches, Part, TileStarts;
    var out := new real[f.height * f.scale, f.width * f.scale]((i, j) => 0.0);
    var count := new nat[f.height * f.scale, f.width * f.scale]((i, j) => 0);
    var ys := Starts(f.height, f.tile, overlap);
    var xs := Starts(f.width, f.tile, overlap);
    tiles := [];
    for a := 0 to |ys|
      invariant tiles == Grid(ys[..a], xs)
      invariant Accumulated(f, model, tiles, out, count)
    {
      assert ys[..a + 1][..a] == ys[..a];
      ghost var before := tiles;
      for b := 0 to |xs|
        invariant tiles == before + Row(ys[a], xs)[..b]
        invariant Accumulated(f, model, tiles, out, count)
      {
        AddTile(f, model, ys[a], xs[b], out, count, tiles);
        tiles := tiles + [(ys[a], xs[b])];
      }
    }
    assert ys[..|ys|] == ys;
    forall i, j | 0 <= i < out.Length0 && 0 <= j < out.Length1 ensures Count(f, tiles, i, j) >= 1 {
      EveryCellIsHit(f, overlap, i, j);
    }
    result := new real[f.height * f.scale, f.width * f.scale]((i, j) => 0.0);
    forall i, j | 0 <= i < out.Length0 && 0 <= j < out.Length1 {
      result[i, j] := out[i, j] / Max(1, count[i, j]) as real;
    }
  }

  lemma {:induction false} Counted(f: Frame, tiles: seq<(nat, nat)>, t: (nat, nat), i: nat, j: nat)
    requires t in tiles && f.Hits(t, i, j)
    ensures Count(f, tiles, i, j) >= 1
  {
    var n := |tiles| - 1;
    if tiles[n] != t {
      assert t in tiles[..n];
      Counted(f, tiles[..n], t, i, j);
    }
  }

  /** Every output cell of the padded image gets at least one prediction. */
  lemma EveryCellIsHit(f: Frame, overlap: nat, i: nat, j: nat)
    requires f.Valid() && overlap < f.tile && i < f.height * f.scale && j < f.width * f.scale
    ensures Count(f, Grid(TileStarts(f.height, f.tile, overlap), TileStarts(f.width, f.tile, overlap)), i, j) >= 1
  {
    var ys, xs := TileStarts(f.height, f.tile, overlap), TileStarts(f.width, f.tile, overlap);
    var y := Reached(f, f.height, overlap, i);
    var z := Reached(f, f.width, overlap, j);
    InGrid(ys, xs, y, z);
    Counted(f, Grid(ys, xs), (y, z), i, j);
  }

  lemma Reached(f: Frame, n: nat, overlap: nat, i: nat) returns (k: nat)
    requires f.Valid() && overlap < f.tile && i < n * f.scale
    ensures k in TileStarts(n, f.tile, overlap) && f.Reaches(k, n, i)
  {
    var p := i / f.scale;
    Split(i, f.scale, n);
    k := StartsCover(n, f.tile, overlap, p);
    Scaled(k, p, f.scale);
    Scaled(p + 1, Min(k + f.tile, n), f.scale);
  }

  lemma Split(i: nat, scale: nat, n: nat)
    requires scale > 0 && i < n * scale
    ensures i / scale * scale <= i < (i / scale + 1) * scale && i / scale < n
  {
    assert i == i / scale * scale + i % scale;
    if i / scale >= n { Scaled(n, i / scale, scale); }
  }

  lemma Scaled(a: nat, b: nat, scale: nat)
    requires a <= b
    ensures a * scale <= b * scale
  {
  }

  // ---- Pointwise models

  /** Every tile predicts, at each cell it reaches, what the whole image gives there. */
  ghost predicate Pointwise(f: Frame, model: Model, direct: (nat, nat) -> real) {
    forall t, i, j :: f.Hits(t, i, j) ==> Part(f, model, t, i, j) == direct(i, j)
  }

  /** For a pointwise model the average is the direct map, however tiles overlap. */
  lemma {:induction false} TotalIsDirect(f: Frame, model: Model, direct: (nat, nat) -> real, tiles: seq<(nat, nat)>, i: nat, j: nat)
    requires Pointwise(f, model, direct)
    ensures Total(f, model, tiles, i, j) == Count(f, tiles, i, j) as real * direct(i, j)
  {
    if tiles != [] {
      hide Frame.Hits, Frame.Reaches;
      var n := |tiles| - 1;
      TotalIsDirect(f, model, direct, tiles[..n], i, j);
      assert Part(f, model, tiles[n], i, j) == if f.Hits(tiles[n], i, j) then direct(i, j) else 0.0;
      hide Part;
      OneMore(Count(f, tiles[..n], i, j), direct(i, j));
    }
  }

  lemma OneMore(n: nat, v: real)
    ensures (n + 1) as real * v == n as real * v + v
  {
  }

  /** The image is padded to a multiple of eight along each axis. */
  function PaddedTo8(n: nat): (m: nat)
    ensures m % 8 == 0 && n <= m < n + 8
  {
    n + (8 - n % 8) % 8
  }

  /** The whole of `tiled` on a pointwise model: pad, run the tiles, average, crop; the result is the direct map. */
  method TiledPointwise(h: nat, w: nat, tile: nat, scale: nat, overlap: nat, model: Model, ghost direct: (nat, nat) -> real)
    returns (result: array2<real>)
    requires scale > 0 && overlap < tile
    requires Pointwise(Frame(PaddedTo8(h), PaddedTo8(w), tile, scale), model, direct)
    ensures result.Length0 == h * scale && result.Length1 == w * scale
    ensures forall i, j :: 0 <= i < result.Length0 && 0 <= j < result.Length1 ==> result[i, j] == direct(i, j)
  {
    var f := Frame(PaddedTo8(h), PaddedTo8(w), tile, scale);
    var padded, tiles := Tiled(f, overlap, model);
    hide Frame.Hits, Frame.Reaches, Part, TileStarts, Total, Count, Pointwise, PaddedTo8;
    forall i, j | 0 <= i < padded.Length0 && 0 <= j < padded.Length1 ensures padded[i, j] == direct(i, j) {
      CellIsDirect(f, model, direct, tiles, i, j, padded[i, j]);
    }
    Scaled(h, f.height, scale);
    Scaled(w, f.width, scale);
    var rows, columns := h * scale, w * scale;
    result := new real[rows, columns]((i, j) => 0.0);
    forall i, j | 0 <= i < result.Length0 && 0 <= j < result.Length1 { result[i, j] := padded[i, j]; }
  }

  lemma CellIsDirect(f: Frame, model: Model, direct: (nat, nat) -> real, tiles: seq<(nat, nat)>, i: nat, j: nat, v: real)
    requires Pointwise(f, model, direct)
    requires Count(f, tiles, i, j) >= 1 && v == Total(f, model, tiles, i, j) / Count(f, tiles, i, j) as real
    ensures v == direct(i, j)
  {
    TotalIsDirect(f, model, direct, tiles, i, j);
    hide Pointwise, Count, Total;
    Averaged(Count(f, tiles, i, j), direct(i, j));
  }

  lemma Averaged(n: nat, v: real)
    requires n >= 1
    ensures n as real * v / n as real == v
  {
  }

  // ---- Pixel maps with integer upscaling

  lemma Multiple(x: int, s: nat)
    ensures x >= 1 ==> x * s >= s
    ensures x <= -1 ==> x * s <= -(s as int)
  {
    if x >= 1 { assert (x - 1) * s >= 0; }
    if x <= -1 { assert (-x - 1) * s >= 0; }
  }

  function Over(a: nat, s: nat): nat
    requires s > 0
  {
    a / s
  }

  function Within(a: nat, s: nat): nat
    requires s > 0
  {
    a % s
  }

  lemma Quotient(y: nat, a: nat, s: nat)
    requires s > 0
    ensures (y * s + a) / s == y + a / s && (y * s + a) % s == a % s
  {
    var d := y * s + a;
    assert d == d / s * s + d % s && a == a / s * s + a % s;
    assert (d / s - y - a / s) * s == a % s - d % s;
    Multiple(d / s - y - a / s, s);
  }

  function PixelModel<Pixel>(f: Frame, x: (nat, nat) -> Pixel, g: (Pixel, nat, nat) -> real): Model
    requires f.Valid()
  {
    (y: nat, z: nat, a: nat, b: nat) => g(x(y + Over(a, f.scale), z + Over(b, f.scale)), Within(a, f.scale), Within(b, f.scale))
  }

  function PixelMap<Pixel>(f: Frame, x: (nat, nat) -> Pixel, g: (Pixel, nat, nat) -> real): (nat, nat) -> real
    requires f.Valid()
  {
    (i: nat, j: nat) => g(x(Over(i, f.scale), Over(j, f.scale)), Within(i, f.scale), Within(j, f.scale))
  }

  /** A network that maps each input pixel to a block of `scale` by `scale` output pixels, looking at nothing else. */
  lemma PixelMapIsPointwise<Pixel>(f: Frame, x: (nat, nat) -> Pixel, g: (Pixel, nat, nat) -> real)
    requires f.Valid()
    ensures Pointwise(f, PixelModel(f, x, g),
                      PixelMap(f, x, g))
  {
    hide Over, Within;
    forall t: (nat, nat), i: nat, j: nat | f.Hits(t, i, j)
      ensures Part(f, PixelModel(f, x, g), t, i, j) == PixelMap(f, x, g)(i, j)
    {
      AlongAxis(t.0, i, f.scale);
      AlongAxis(t.1, j, f.scale);
    }
  }

  lemma AlongAxis(k: nat, i: nat, s: nat)
    requires s > 0 && k * s <= i
    ensures k + Over(i - k * s, s) == Over(i, s) && Within(i - k * s, s) == Within(i, s)
  {
    Quotient(k, i - k * s, s);
  }
}
