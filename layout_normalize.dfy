/**
  Phase 6 of `computeLayout` (js/er-diagram/layout.js:135-141): every box is shifted so that
  the leftmost box starts at x = 80 and the topmost at y = 70, and both coordinates are rounded.
  The smallest coordinates do not depend on the order the map is walked in, and each box is
  shifted on its own, so the walks here take the names in any order.
*/
module LayoutNormalize {
  import opened LayoutSizes
  import opened LayoutPlace
  import opened LayoutSeparate

  datatype Axis = Horizontal | Vertical

  function Coord(p: Pos, a: Axis): real {
    match a
    case Horizontal => p.x
    case Vertical => p.y
  }

  /** v is the smallest coordinate along a of the boxes named in keys, and some box has it. */
  ghost predicate LeastIn(pos: map<string, Pos>, keys: set<string>, a: Axis, v: real) {
    && (exists n :: n in keys && n in pos && Coord(pos[n], a) == v)
    && (forall n :: n in keys && n in pos ==> v <= Coord(pos[n], a))
  }

  /** The smallest coordinate along a of the boxes named in keys. */
  ghost function Least(pos: map<string, Pos>, keys: set<string>, a: Axis): (v: real)
    requires keys != {} && keys <= pos.Keys
    ensures LeastIn(pos, keys, a, v)
    decreases |keys|
  {
    var n :| n in keys;
    if keys == {n} then Coord(pos[n], a)
    else
      var u := Least(pos, keys - {n}, a);
      assert forall m :: m in keys ==> m == n || m in keys - {n};
      Min(Coord(pos[n], a), u)
  }

  /** The loop of layout.js:136-137: the smallest x and the smallest y over all boxes. It starts
      from the first box where the source starts from `Infinity`; over a nonempty map the two
      give the same minimum. */
  method LeastCoords(pos: map<string, Pos>) returns (minX: real, minY: real)
    requires |pos| > 0
    ensures minX == Least(pos, pos.Keys, Horizontal)
    ensures minY == Least(pos, pos.Keys, Vertical)
  {
    var first :| first in pos;
    minX := pos[first].x;
    minY := pos[first].y;
    var rest := pos.Keys - {first};
    while rest != {}
      invariant rest <= pos.Keys && first !in rest
      invariant LeastIn(pos, pos.Keys - rest, Horizontal, minX)
      invariant LeastIn(pos, pos.Keys - rest, Vertical, minY)
      decreases |rest|
    {
      var n :| n in rest;
      minX := Min(minX, pos[n].x);
      minY := Min(minY, pos[n].y);
      assert forall m :: m in pos.Keys - (rest - {n}) ==> m == n || m in pos.Keys - rest;
      rest := rest - {n};
    }
    assert pos.Keys - rest == pos.Keys;
    var lx := Least(pos, pos.Keys, Horizontal);
    var ly := Least(pos, pos.Keys, Vertical);
  }

  /** `pos.x = Math.round(pos.x + paddingX - minX)` and the same for y. */
  function Shifted(p: Pos, minX: real, minY: real): Pos {
    p.(x := Round(p.x + PaddingX - minX), y := Round(p.y + PaddingY - minY))
  }

  /** Every box shifted by the given smallest coordinates. */
  function ShiftedAll(pos: map<string, Pos>, minX: real, minY: real): (r: map<string, Pos>)
    ensures r.Keys == pos.Keys
  {
    map n | n in pos :: Shifted(pos[n], minX, minY)
  }

  /** The loop of layout.js:138-141. */
  method ShiftAll(pos: map<string, Pos>, minX: real, minY: real) returns (r: map<string, Pos>)
    ensures r == ShiftedAll(pos, minX, minY)
  {
    r := pos;
    var rest := pos.Keys;
    while rest != {}
      invariant rest <= pos.Keys && r.Keys == pos.Keys
      invariant forall n :: n in pos ==> r[n] == if n in rest then pos[n] else Shifted(pos[n], minX, minY)
      decreases |rest|
    {
      var n :| n in rest;
      var p := r[n];
      r := r[n := p.(x := Round(p.x + PaddingX - minX), y := Round(p.y + PaddingY - minY))];
      rest := rest - {n};
    }
  }

  /** The boxes after phase 6; a map with no box stays as it is. */
  ghost function Normalized(pos: map<string, Pos>): (r: map<string, Pos>)
    ensures r.Keys == pos.Keys
    ensures forall n :: n in pos ==> r[n].w == pos[n].w && r[n].h == pos[n].h
  {
    if |pos| == 0 then pos
    else ShiftedAll(pos, Least(pos, pos.Keys, Horizontal), Least(pos, pos.Keys, Vertical))
  }

  /** Phase 6. */
  method Normalize(pos: map<string, Pos>) returns (r: map<string, Pos>)
    ensures r == Normalized(pos)
  {
    if |pos| == 0 {
      r := pos;
    } else {
      var minX, minY := LeastCoords(pos);
      r := ShiftAll(pos, minX, minY);
    }
  }

  lemma RoundWhole(r: real)
    requires Integral(r)
    ensures Round(r) == r
  {
    IntBelow(r.Floor, (r + 0.5).Floor);
  }

  lemma WholeShift(a: real, b: real)
    requires Integral(a) && Integral(b)
    ensures Round(a + PaddingY - b) == a + PaddingY - b
  {
    var k := a.Floor - b.Floor + 70;
    assert a + PaddingY - b == k as real;
    RoundWhole(k as real);
  }

  /** Shifting by the smallest coordinates puts the leftmost box at x = 80 and the topmost at
      y = 70. */
  lemma ShiftedCorner(pos: map<string, Pos>, mx: real, my: real)
    requires LeastIn(pos, pos.Keys, Horizontal, mx) && LeastIn(pos, pos.Keys, Vertical, my)
    ensures LeastIn(ShiftedAll(pos, mx, my), pos.Keys, Horizontal, PaddingX)
    ensures LeastIn(ShiftedAll(pos, mx, my), pos.Keys, Vertical, PaddingY)
  {
    var r := ShiftedAll(pos, mx, my);
    RoundWhole(PaddingX);
    RoundWhole(PaddingY);
    var nx :| nx in pos && pos[nx].x == mx;
    var ny :| ny in pos && pos[ny].y == my;
    assert r[nx].x == Round(PaddingX) && r[ny].y == Round(PaddingY);
    forall n | n in pos ensures PaddingX <= r[n].x && PaddingY <= r[n].y {
      RoundMonotone(PaddingX, pos[n].x + PaddingX - mx);
      RoundMonotone(PaddingY, pos[n].y + PaddingY - my);
    }
  }

  /** After phase 6 the leftmost box starts at x = 80 and the topmost at y = 70. */
  lemma NormalizedCorner(pos: map<string, Pos>)
    requires |pos| > 0
    ensures LeastIn(Normalized(pos), pos.Keys, Horizontal, PaddingX)
    ensures LeastIn(Normalized(pos), pos.Keys, Vertical, PaddingY)
  {
    ShiftedCorner(pos, Least(pos, pos.Keys, Horizontal), Least(pos, pos.Keys, Vertical));
  }

  /** Shifting whole-number y coordinates by a whole-number smallest one keeps every vertical
      distance. */
  lemma ShiftedRows(pos: map<string, Pos>, mx: real, my: real, n: string, m: string)
    requires n in pos && m in pos && Integral(pos[n].y) && Integral(pos[m].y) && Integral(my)
    ensures ShiftedAll(pos, mx, my)[m].y - ShiftedAll(pos, mx, my)[n].y == pos[m].y - pos[n].y
  {
    WholeShift(pos[n].y, my);
    WholeShift(pos[m].y, my);
  }

  /** With whole-number y coordinates, phase 6 moves every box by the same vertical distance:
      the distance between any two boxes stays exactly as it was. */
  lemma NormalizedKeepsRows(pos: map<string, Pos>, n: string, m: string)
    requires n in pos && m in pos
    requires forall k :: k in pos ==> Integral(pos[k].y)
    ensures Normalized(pos)[m].y - Normalized(pos)[n].y == pos[m].y - pos[n].y
  {
    var my := Least(pos, pos.Keys, Vertical);
    var ny :| ny in pos && pos[ny].y == my;
    ShiftedRows(pos, Least(pos, pos.Keys, Horizontal), my, n, m);
  }

  /** Rounding costs at most one unit of a horizontal gap: boxes that stood the separation gap
      apart stand more than one less than it apart afterwards. */
  lemma NormalizedKeepsColumns(pos: map<string, Pos>, n: string, m: string)
    requires n in pos && m in pos
    requires pos[m].x >= pos[n].x + pos[n].w + MinGap
    ensures Normalized(pos)[m].x > Normalized(pos)[n].x + Normalized(pos)[n].w + MinGap - 1.0
  {
  }
}
