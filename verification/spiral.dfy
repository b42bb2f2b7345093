/**
 * The field traversal of rnn_core/src/spiral/mod.rs: the fields of a
 * `layer_width` x `layer_height` layer are visited row by row, even rows
 * left to right and odd rows right to left (a boustrophedon), and after the
 * last field the walk starts again at `(0, 0)`.
 *
 * Both dimensions are at least 1: `layer_width - 1` and `layer_height - 1`
 * are `usize` subtractions that underflow on an empty layer.
 */
module Spiral {
  /** `get_next_field`: the field after `(x, y)`. */
  function GetNextField(width: nat, height: nat, x: nat, y: nat): (r: (nat, nat))
    requires width >= 1 && height >= 1
    ensures x < width && y < height ==> r.0 < width && r.1 < height
  {
    var nextX :=
      if y % 2 == 0 then
        if x == width - 1 then
          if y == height - 1 then 0 else x
        else x + 1
      else
        if x == 0 then x else x - 1;
    var nextY :=
      if y % 2 == 0 then
        if x == width - 1 then
          if y == height - 1 then 0 else y + 1
        else y
      else if x == 0 then
        if y == height - 1 then 0 else y + 1
      else y;
    (nextX, nextY)
  }

  /**
   * The position of field `(x, y)` in the walk: whole rows before it, then
   * its place in its own row counted in the row's direction.
   */
  function Rank(width: nat, x: nat, y: nat): int
  {
    y * width + if y % 2 == 0 then x else width - 1 - x
  }

  /** The field at position `rank` of the walk. */
  function FieldAt(width: nat, rank: nat): (nat, nat)
    requires width >= 1
  {
    var row := rank / width;
    var column := rank % width;
    (if row % 2 == 0 then column else width - 1 - column, row)
  }

  lemma RowStep(width: nat, y: nat)
    ensures (y + 1) * width == y * width + width
  {
  }

  /** Every field of the layer has a position among the first `width * height`. */
  lemma RankInRange(width: nat, height: nat, x: nat, y: nat)
    requires x < width && y < height
    ensures 0 <= Rank(width, x, y) < width * height
  {
    RowStep(width, y);
    assert (y + 1) * width <= height * width by {
      MulMonotone(y + 1, height, width);
    }
  }

  lemma MulMonotone(a: nat, b: nat, c: nat)
    requires a <= b
    ensures a * c <= b * c
  {
  }

  /** `FieldAt` undoes `Rank`, so no two fields share a position: one round visits every field once. */
  lemma FieldAtRank(width: nat, x: nat, y: nat)
    requires x < width
    ensures Rank(width, x, y) >= 0
    ensures FieldAt(width, Rank(width, x, y)) == (x, y)
  {
    var column := if y % 2 == 0 then x else width - 1 - x;
    assert 0 <= column < width;
    DivModOfRow(width, y, column);
  }

  lemma DivModOfRow(width: nat, y: nat, column: nat)
    requires column < width
    ensures (y * width + column) / width == y
    ensures (y * width + column) % width == column
  {
    var n := y * width + column;
    var q := n / width;
    var m := n % width;
    assert width * (y - q) == m - column;
    ZeroMultiple(width, y - q);
  }

  /** A multiple of `d` strictly between `-d` and `d` is zero. */
  lemma ZeroMultiple(d: int, k: int)
    requires d > 0 && -d < d * k < d
    ensures k == 0
  {
    if k > 0 {
      MulMonotone(1, k, d);
    }
  }

  /**
   * `get_next_field` walks the boustrophedon: from any field of the layer
   * the next field is the one at the next position, and the last field is
   * followed by the first, `(0, 0)`.
   */
  lemma {:induction false} NextFieldIsSuccessor(width: nat, height: nat, x: nat, y: nat)
    requires width >= 1 && height >= 1
    requires x < width && y < height
    ensures Rank(width, x, y) < width * height - 1 ==>
      Rank(width, GetNextField(width, height, x, y).0, GetNextField(width, height, x, y).1) == Rank(width, x, y) + 1
    ensures Rank(width, x, y) == width * height - 1 ==> GetNextField(width, height, x, y) == (0, 0)
  {
    var next := GetNextField(width, height, x, y);
    RowStep(width, y);
    RowStep(width, height - 1);
    assert (height - 1) * width + width == width * height;
    if y == height - 1 {
      if y % 2 == 0 && x < width - 1 {
        assert Rank(width, next.0, next.1) == Rank(width, x, y) + 1;
      } else if y % 2 == 1 && x > 0 {
        assert Rank(width, next.0, next.1) == Rank(width, x, y) + 1;
      } else {
        assert Rank(width, x, y) == width * height - 1;
      }
    } else {
      assert y * width + width <= (height - 1) * width by {
        MulMonotone(y + 1, height - 1, width);
      }
      assert Rank(width, next.0, next.1) == Rank(width, x, y) + 1;
      assert Rank(width, x, y) < width * height - 1;
    }
  }

  /**
   * `get_last_field` as written: the x coordinate is `layer_height - 1` on
   * an odd number of rows, where the last row runs left to right and ends
   * at `layer_width - 1`.
   */
  function GetLastField(width: nat, height: nat): (r: (nat, nat))
    requires height >= 1
    ensures r.1 == height - 1
    ensures height % 2 == 0 ==> r.0 == 0
    ensures height % 2 == 1 ==> r.0 == height - 1
  {
    (if height % 2 == 0 then 0 else height - 1, height - 1)
  }

  /**
   * On a one-row layer two fields wide the field `get_last_field` names,
   * `(0, 0)`, is not the last of the walk: it is followed by `(1, 0)`, not
   * by the first field.
   */
  lemma GetLastFieldIsNotLast()
    ensures GetLastField(2, 1) == (0, 0)
    ensures GetNextField(2, 1, 0, 0) == (1, 0)
    ensures Rank(2, 0, 0) != 2 * 1 - 1
  {
  }

  /** The last field of the walk: the end of the last row in its direction. */
  function LastField(width: nat, height: nat): (r: (nat, nat))
    requires width >= 1 && height >= 1
    ensures r.0 < width && r.1 < height
  {
    (if height % 2 == 0 then 0 else width - 1, height - 1)
  }

  /**
   * `LastField` is the field at the last position of the walk, so the next
   * field after it is `(0, 0)`; on a square layer `get_last_field` agrees
   * with it.
   */
  lemma LastFieldIsLast(width: nat, height: nat)
    requires width >= 1 && height >= 1
    ensures Rank(width, LastField(width, height).0, LastField(width, height).1) == width * height - 1
    ensures GetNextField(width, height, LastField(width, height).0, LastField(width, height).1) == (0, 0)
    ensures width == height ==> GetLastField(width, height) == LastField(width, height)
  {
    var last := LastField(width, height);
    RowStep(width, height - 1);
    assert (height - 1) * width + width == width * height;
    NextFieldIsSuccessor(width, height, last.0, last.1);
  }

  lemma SpiralExamples()
    ensures GetNextField(3, 2, 0, 0) == (1, 0)
    ensures GetNextField(3, 2, 2, 0) == (2, 1)
    ensures GetNextField(3, 2, 1, 1) == (0, 1)
    ensures GetNextField(3, 2, 0, 1) == (0, 0)
    ensures GetNextField(3, 3, 2, 2) == (0, 0)
  {
  }
}
