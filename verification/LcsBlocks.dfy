/** The blocked dynamic program: one task per block, the driver, and any order in which the tasks may run. */
module LcsBlocks {
  import opened LcsSpec

  /** A cell starts out as Python's None. */
  datatype Cell = None | Filled(value: nat)

  type Block = array2<Cell>

  type MaybeBlock = array2?<Cell>

  /** Indexing as in Python: index -1 is the last character. */
  function At(s: string, k: int): char
    requires -|s| <= k < |s|
  {
    if k < 0 then s[|s| + k] else s[k]
  }

  /** The whole table, without blocks: the answer for the rotated prefixes that end at `left` and `up`. */
  function Value(x: string, y: string, left: int, up: int): nat
    requires -1 <= left < |x| && -1 <= up < |y|
  {
    Lcs(Rotated(x)[..left + 1], Rotated(y)[..up + 1])
  }

  lemma LcsStep(a: string, b: string)
    requires a != "" && b != ""
    ensures Last(a) == Last(b) ==> Lcs(a, b) == Lcs(Init(a), Init(b)) + 1
    ensures Last(a) != Last(b) ==> Lcs(a, b) == Max(Lcs(Init(a), b), Lcs(a, Init(b)))
  {
  }

  lemma LastRotated(s: string, k: nat)
    requires k < |s|
    ensures var a := Rotated(s)[..k + 1]; a != "" && Init(a) == Rotated(s)[..k] && Last(a) == At(s, k - 1)
  {
  }

  /** The comparison `X[left-1] == Y[up-1]` is the recurrence on the rotated strings, also in row and column zero. */
  lemma ValueStep(x: string, y: string, left: nat, up: nat)
    requires left < |x| && up < |y|
    ensures At(x, left - 1) == At(y, up - 1) ==> Value(x, y, left, up) == Value(x, y, left - 1, up - 1) + 1
    ensures At(x, left - 1) != At(y, up - 1) ==>
      Value(x, y, left, up) == Max(Value(x, y, left - 1, up), Value(x, y, left, up - 1))
  {
    hide Lcs, Rotated, At, Init, Last;
    LastRotated(x, left);
    LastRotated(y, up);
    LcsStep(Rotated(x)[..left + 1], Rotated(y)[..up + 1]);
  }

  lemma Border(x: string, y: string, left: int, up: int)
    requires -1 <= left < |x| && -1 <= up < |y|
    ensures left == -1 || up == -1 ==> Value(x, y, left, up) == 0
  {
  }

  // ------------------------------------------------------------ one block

  /** The square of the table that starts at `row`, `col` lies inside it. */
  ghost predicate Inside(x: string, y: string, row: int, col: int, bsize: int) {
    0 < bsize && 0 <= row && 0 <= col && row + bsize <= |x| && col + bsize <= |y|
  }

  /** `b` holds the table's values for the square that starts at `row`, `col`. */
  ghost predicate Square(b: Block, x: string, y: string, row: nat, col: nat, bsize: nat)
    requires Inside(x, y, row, col, bsize)
    reads b
  {
    && b.Length0 == b.Length1 == bsize
    && forall i, j :: 0 <= i < bsize && 0 <= j < bsize ==> b[i, j] == Filled(Value(x, y, row + i, col + j))
  }

  /** A neighbour argument: absent beyond the border, the finished square otherwise. */
  ghost predicate Argument(b: MaybeBlock, x: string, y: string, row: int, col: int, bsize: nat)
    reads b
  {
    if row < 0 || col < 0 then b == null
    else b != null && Inside(x, y, row, col, bsize) && Square(b, x, y, row, col, bsize)
  }

  /** The part of the block under construction that is finished before cell `i`, `j`. */
  ghost predicate DoneBefore(here: Block, x: string, y: string, row: nat, col: nat, bsize: nat, i: nat, j: nat)
    requires Inside(x, y, row, col, bsize)
    reads here
  {
    && here.Length0 == here.Length1 == bsize
    && forall k, l :: 0 <= k < bsize && 0 <= l < bsize && (k < i || (k == i && l < j)) ==>
         here[k, l] == Filled(Value(x, y, row + k, col + l))
  }

  /** Blocks tile the table: the square at the border is the first one. */
  ghost predicate Tiled(row: nat, bsize: nat) {
    row == 0 || bsize <= row
  }

  /**
   * The accessor `l`: the block under construction, or the neighbour that holds the cell, or 0 beyond the
   * border. While the cells before `k`, `l` are done, an earlier look never meets an unfilled cell, and what
   * it finds is the table's value.
   */
  function Look(here: Block, lleft: MaybeBlock, lup: MaybeBlock, ldiag: MaybeBlock, bsize: nat, i: int, j: int,
                ghost x: string, ghost y: string, ghost row: nat, ghost col: nat, ghost k: nat, ghost l: nat)
    : (v: nat)
    requires Inside(x, y, row, col, bsize) && Tiled(row, bsize) && Tiled(col, bsize)
    requires Argument(lleft, x, y, row - bsize, col, bsize)
    requires Argument(lup, x, y, row, col - bsize, bsize)
    requires Argument(ldiag, x, y, row - bsize, col - bsize, bsize)
    requires -1 <= i < bsize && -1 <= j < bsize
    requires DoneBefore(here, x, y, row, col, bsize, k, l) && (i < k || (i == k && j < l))
    reads here, lleft, lup, ldiag
    ensures v == Value(x, y, row + i, col + j)
  {
    hide Value;
    Border(x, y, row + i, col + j);
    if 0 <= i && 0 <= j then
      here[i, j].value
    else if i < 0 && j < 0 then
      if ldiag != null then ldiag[bsize + i, bsize + j].value else 0
    else if i < 0 then
      if lleft != null then lleft[bsize + i, j].value else 0
    else
      if lup != null then lup[i, bsize + j].value else 0
  }

  lemma Tiles(b: nat, bsize: nat)
    ensures 0 <= b * bsize && Tiled(b * bsize, bsize) && (0 < b <==> 0 < b * bsize || (0 < b && bsize == 0))
    ensures (b - 1) * bsize == b * bsize - bsize
  {
  }

  /** The body of the double loop. The zero of row and column zero is written and then overwritten, as in the source. */
  method FillCell(x: string, y: string, left: nat, up: nat, here: Block, lleft: MaybeBlock, lup: MaybeBlock,
                  ldiag: MaybeBlock, bsize: nat, i: nat, j: nat, ghost row: nat, ghost col: nat)
    requires Inside(x, y, row, col, bsize) && Tiled(row, bsize) && Tiled(col, bsize)
    requires Argument(lleft, x, y, row - bsize, col, bsize)
    requires Argument(lup, x, y, row, col - bsize, bsize)
    requires Argument(ldiag, x, y, row - bsize, col - bsize, bsize)
    requires here != lleft && here != lup && here != ldiag
    requires i < bsize && j < bsize && left == row + i && up == col + j
    requires DoneBefore(here, x, y, row, col, bsize, i, j)
    modifies here
    ensures DoneBefore(here, x, y, row, col, bsize, i, j + 1)
  {
    hide Value, Tiled, At, Max;
    ValueStep(x, y, left, up);
    if left == 0 || up == 0 {
      here[i, j] := Filled(0);
    }
    if At(x, left - 1) == At(y, up - 1) {
      var corner := Look(here, lleft, lup, ldiag, bsize, i - 1, j - 1, x, y, row, col, i, j);
      here[i, j] := Filled(corner + 1);
    } else {
      var above := Look(here, lleft, lup, ldiag, bsize, i - 1, j, x, y, row, col, i, j);
      var before := Look(here, lleft, lup, ldiag, bsize, i, j - 1, x, y, row, col, i, j);
      here[i, j] := Filled(Max(above, before));
    }
  }

  /** The remote task `lcs`: one block of the table, from its three neighbours. */
  method Task(x: string, y: string, bleft: nat, bup: nat, bsize: nat,
              lleft: MaybeBlock, lup: MaybeBlock, ldiag: MaybeBlock)
    returns (here: Block)
    requires Inside(x, y, bleft * bsize, bup * bsize, bsize)
    requires Argument(lleft, x, y, bleft * bsize - bsize, bup * bsize, bsize)
    requires Argument(lup, x, y, bleft * bsize, bup * bsize - bsize, bsize)
    requires Argument(ldiag, x, y, bleft * bsize - bsize, bup * bsize - bsize, bsize)
    ensures fresh(here) && Square(here, x, y, bleft * bsize, bup * bsize, bsize)
  {
    hide Value;
    Tiles(bleft, bsize);
    Tiles(bup, bsize);
    ghost var row, col := bleft * bsize, bup * bsize;
    here := new Cell[bsize, bsize]((i, j) => None);
    for i := 0 to bsize
      invariant DoneBefore(here, x, y, row, col, bsize, i, 0)
    {
      for j := 0 to bsize
        invariant DoneBefore(here, x, y, row, col, bsize, i, j)
      {
        var left, up := bleft * bsize + i, bup * bsize + j;
        FillCell(x, y, left, up, here, lleft, lup, ldiag, bsize, i, j, row, col);
      }
    }
  }

  // ------------------------------------------------------------ all blocks

  /** The blocks in the order in which their tasks finish. */
  type Order = seq<(nat, nat)>

  ghost predicate InOrder(earlier: Order, block: (nat, nat), rows: nat, cols: nat) {
    && block.0 < rows && block.1 < cols
    && (0 < block.0 ==> (block.0 - 1, block.1) in earlier)
    && (0 < block.1 ==> (block.0, block.1 - 1) in earlier)
    && (0 < block.0 && 0 < block.1 ==> (block.0 - 1, block.1 - 1) in earlier)
  }

  /** No task finishes before the tasks whose results it was given. */
  ghost predicate Respects(order: Order, rows: nat, cols: nat) {
    forall k :: 0 <= k < |order| ==> InOrder(order[..k], order[k], rows, cols)
  }

  ghost predicate Complete(order: Order, rows: nat, cols: nat) {
    forall a: nat, b: nat :: a < rows && b < cols ==> (a, b) in order
  }

  lemma RespectsAppend(order: Order, block: (nat, nat), rows: nat, cols: nat)
    requires Respects(order, rows, cols) && InOrder(order, block, rows, cols)
    ensures Respects(order + [block], rows, cols)
  {
    var longer := order + [block];
    forall k | 0 <= k < |longer| ensures InOrder(longer[..k], longer[k], rows, cols) {
      assert longer[..k] == order[..k];
      assert k == |order| ==> order[..k] == order;
    }
  }

  /** Row by row, the blocks before `a`, `b`. */
  ghost predicate RowMajor(order: Order, a: nat, b: nat, cols: nat) {
    forall p: (nat, nat) :: p in order <==> p.1 < cols && (p.0 < a || (p.0 == a && p.1 < b))
  }

  lemma RowMajorStep(order: Order, a: nat, b: nat, rows: nat, cols: nat)
    requires RowMajor(order, a, b, cols) && a < rows && b < cols && Respects(order, rows, cols)
    ensures RowMajor(order + [(a, b)], a, b + 1, cols) && Respects(order + [(a, b)], rows, cols)
  {
    RespectsAppend(order, (a, b), rows, cols);
    hide Respects;
    forall p: (nat, nat)
      ensures p in order + [(a, b)] <==> p.1 < cols && (p.0 < a || (p.0 == a && p.1 < b + 1))
    {
      assert p in order + [(a, b)] <==> p in order || p == (a, b);
    }
  }

  /** The order in which the driver submits the tasks is one in which they can run. */
  method Submissions(rows: nat, cols: nat) returns (order: Order)
    ensures Respects(order, rows, cols) && Complete(order, rows, cols)
  {
    hide Respects;
    order := [];
    EmptyRespects(rows, cols);
    for bleft := 0 to rows
      invariant Respects(order, rows, cols) && RowMajor(order, bleft, 0, cols)
    {
      for bup := 0 to cols
        invariant Respects(order, rows, cols) && RowMajor(order, bleft, bup, cols)
      {
        RowMajorStep(order, bleft, bup, rows, cols);
        order := order + [(bleft, bup)];
      }
    }
  }

  lemma EmptyRespects(rows: nat, cols: nat)
    ensures Respects([], rows, cols)
  {
  }

  /** The square of each block in the grid lies inside the table. */
  lemma GridInside(x: string, y: string, bsize: nat, a: nat, b: nat)
    requires 0 < bsize && |x| % bsize == 0 && |y| % bsize == 0
    requires a < |x| / bsize && b < |y| / bsize
    ensures Inside(x, y, a * bsize, b * bsize, bsize)
  {
    GridRow(|x|, bsize, a);
    GridRow(|y|, bsize, b);
  }

  lemma GridRow(n: nat, bsize: nat, a: nat)
    requires 0 < bsize && n % bsize == 0 && a < n / bsize
    ensures 0 <= a * bsize && a * bsize + bsize <= n
    ensures a == n / bsize - 1 ==> a * bsize + bsize == n
  {
    MultiplesGrow(a + 1, n / bsize, bsize);
    assert (a + 1) * bsize == a * bsize + bsize;
  }

  lemma MultiplesGrow(p: nat, q: nat, bsize: nat)
    requires p <= q
    ensures 0 <= p * bsize <= q * bsize
  {
    assert q * bsize == p * bsize + (q - p) * bsize;
  }

  /** Entry `a`, `b` of the driver's table: the finished block, or None while its task has not finished. */
  ghost predicate Entry(f: MaybeBlock, finished: bool, x: string, y: string, bsize: nat, a: nat, b: nat)
    reads f
  {
    if finished then Argument(f, x, y, a * bsize, b * bsize, bsize) else f == null
  }

  ghost predicate Table(f: array2<MaybeBlock>, order: Order, x: string, y: string, bsize: nat, rows: nat, cols: nat)
    reads f, set a, b | 0 <= a < f.Length0 && 0 <= b < f.Length1 :: f[a, b]
  {
    && f.Length0 == rows + 1 && f.Length1 == cols + 1
    && forall a: nat, b: nat :: a <= rows && b <= cols ==> Entry(f[a, b], (a, b) in order, x, y, bsize, a, b)
  }

  /** One step of the driver: fetch the neighbours from the table and run the task. */
  method RunTask(x: string, y: string, bsize: nat, ghost earlier: Order, bleft: nat, bup: nat, f: array2<MaybeBlock>)
    returns (here: Block)
    requires 0 < bsize && |x| % bsize == 0 && |y| % bsize == 0
    requires Table(f, earlier, x, y, bsize, |x| / bsize, |y| / bsize)
    requires InOrder(earlier, (bleft, bup), |x| / bsize, |y| / bsize)
    ensures fresh(here) && Entry(here, true, x, y, bsize, bleft, bup)
  {
    hide Square, Inside;
    GridInside(x, y, bsize, bleft, bup);
    Tiles(bleft, bsize);
    Tiles(bup, bsize);
    var fleft := if 0 < bleft then f[bleft - 1, bup] else null;
    var fup := if 0 < bup then f[bleft, bup - 1] else null;
    var fdiag := if 0 < bleft && 0 < bup then f[bleft - 1, bup - 1] else null;
    assert 0 < bleft ==> Entry(f[bleft - 1, bup], true, x, y, bsize, bleft - 1, bup);
    assert 0 < bup ==> Entry(f[bleft, bup - 1], true, x, y, bsize, bleft, bup - 1);
    assert 0 < bleft && 0 < bup ==> Entry(f[bleft - 1, bup - 1], true, x, y, bsize, bleft - 1, bup - 1);
    here := Task(x, y, bleft, bup, bsize, fleft, fup, fdiag);
  }

  /** Storing the block in the driver's table marks its task as finished and touches no other block. */
  method Store(x: string, y: string, bsize: nat, ghost earlier: Order, bleft: nat, bup: nat, here: Block,
               f: array2<MaybeBlock>, ghost rows: nat, ghost cols: nat)
    requires Table(f, earlier, x, y, bsize, rows, cols) && bleft < rows && bup < cols
    requires Entry(here, true, x, y, bsize, bleft, bup)
    modifies f
    ensures Table(f, earlier + [(bleft, bup)], x, y, bsize, rows, cols)
  {
    hide Entry;
    f[bleft, bup] := here;
  }

  /** Runs the tasks in the given order and stores each block in the driver's table. */
  method RunTasks(x: string, y: string, bsize: nat, order: Order) returns (f: array2<MaybeBlock>)
    requires 0 < bsize && |x| % bsize == 0 && |y| % bsize == 0
    requires Respects(order, |x| / bsize, |y| / bsize)
    ensures fresh(f) && Table(f, order, x, y, bsize, |x| / bsize, |y| / bsize)
  {
    hide Entry, InOrder;
    ghost var rows, cols := |x| / bsize, |y| / bsize;
    f := new MaybeBlock[|x| / bsize + 1, |y| / bsize + 1]((a, b) => null);
    EmptyTable(f, x, y, bsize, rows, cols);
    for k := 0 to |order|
      invariant Table(f, order[..k], x, y, bsize, rows, cols)
    {
      Blocks(order, k, rows, cols);
      var here := RunTask(x, y, bsize, order[..k], order[k].0, order[k].1, f);
      Store(x, y, bsize, order[..k], order[k].0, order[k].1, here, f, rows, cols);
      assert order[..k + 1] == order[..k] + [order[k]];
    }
    assert order[..|order|] == order;
  }

  lemma Blocks(order: Order, k: nat, rows: nat, cols: nat)
    requires Respects(order, rows, cols) && k < |order|
    ensures InOrder(order[..k], order[k], rows, cols) && order[k].0 < rows && order[k].1 < cols
    ensures order[k] == (order[k].0, order[k].1)
  {
  }

  lemma EmptyTable(f: array2<MaybeBlock>, x: string, y: string, bsize: nat, rows: nat, cols: nat)
    requires f.Length0 == rows + 1 && f.Length1 == cols + 1
    requires forall a: nat, b: nat :: a <= rows && b <= cols ==> f[a, b] == null
    ensures Table(f, [], x, y, bsize, rows, cols)
  {
  }

  // ------------------------------------------------------------ the answer

  datatype Outcome = Failed | Answer(length: nat)

  /**
   * The driver. Its assertions demand that `bsize` divides both lengths; unless `bsize` is positive and the strings are
   * not empty it fails as well, because the block it waits for does not exist. `order` is the runtime's choice: any
   * order in which each task follows the tasks it depends on. The result is the longest common subsequence of the
   * rotated strings; neither `order` nor `bsize` occurs in it.
   */
  method Driver(s1: string, s2: string, bsize: int, order: Order) returns (r: Outcome)
    requires s1 != "" && s2 != "" && 0 < bsize && |s1| % bsize == 0 && |s2| % bsize == 0 ==>
      Respects(order, |s1| / bsize, |s2| / bsize) && Complete(order, |s1| / bsize, |s2| / bsize)
    ensures r.Answer? <==> s1 != "" && s2 != "" && 0 < bsize && |s1| % bsize == 0 && |s2| % bsize == 0
    ensures r.Answer? ==> IsLongest(r.length, Rotated(s1), Rotated(s2))
    ensures r.Answer? && Last(s1) == Last(s2) ==> IsLongest(r.length, s1, s2)
  {
    hide Respects, IsLongest;
    if bsize <= 0 || |s1| % bsize != 0 || |s2| % bsize != 0 || s1 == "" || s2 == "" {
      return Failed;
    }
    var a, b := |s1| / bsize - 1, |s2| / bsize - 1;
    GridRow(|s1|, bsize, a);
    GridRow(|s2|, bsize, b);
    var f := RunTasks(s1, s2, bsize, order);
    assert (a, b) in order;
    assert Entry(f[a, b], true, s1, s2, bsize, a, b);
    r := Answer(f[a, b][bsize - 1, bsize - 1].value);
    assert r.length == Value(s1, s2, |s1| - 1, |s2| - 1);
    assert Rotated(s1)[..|s1|] == Rotated(s1) && Rotated(s2)[..|s2|] == Rotated(s2);
    LcsIsLongest(Rotated(s1), Rotated(s2), r.length);
    RotationError(s1, s2);
    LcsIsLongest(s1, s2, r.length);
  }
}
