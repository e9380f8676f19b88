/** Column layout of `internal/helpers`: every column gets a width proportional to
    the widest text in it (header or cell, in bytes), scaled so that all columns
    together fit the viewport width. Go scales with float64 arithmetic and
    truncates toward zero; this model does the same computation exactly. */
module Helpers {
  import Text

  /** A table column as the table widget takes it. */
  datatype Column = Column(title: string, width: int)

  /** Width in bytes of cell `i` of `row`, or 0 when the row is shorter. */
  function CellWidth(row: seq<string>, i: nat): (w: nat)
  {
    if i < |row| then Text.ByteLen(row[i]) else 0
  }

  function Max(a: int, b: int): (m: int) { if a < b then b else a }

  /** The widest text of column `i`: its header and its cell in every row. */
  function MaxWidth(header: string, rows: seq<seq<string>>, i: nat): (w: nat)
  {
    if rows == [] then Text.ByteLen(header)
    else Max(MaxWidth(header, rows[..|rows| - 1], i), CellWidth(rows[|rows| - 1], i))
  }

  /** `MaxWidth` is the maximum: no shorter than the header or any cell of the
      column, and equal to the header or to one of those cells. */
  lemma {:induction false} MaxWidthIsMaximum(header: string, rows: seq<seq<string>>, i: nat)
    ensures Text.ByteLen(header) <= MaxWidth(header, rows, i)
    ensures forall r :: 0 <= r < |rows| && i < |rows[r]| ==> Text.ByteLen(rows[r][i]) <= MaxWidth(header, rows, i)
    ensures MaxWidth(header, rows, i) == Text.ByteLen(header)
      || exists r :: 0 <= r < |rows| && i < |rows[r]| && MaxWidth(header, rows, i) == Text.ByteLen(rows[r][i])
  {
    if rows != [] {
      var init := rows[..|rows| - 1];
      MaxWidthIsMaximum(header, init, i);
      assert forall r :: 0 <= r < |init| ==> init[r] == rows[r];
    }
  }

  /** The widest text of every column, in header order. */
  function MaxWidths(columns: seq<string>, rows: seq<seq<string>>): (ws: seq<nat>)
    ensures |ws| == |columns|
  {
    seq(|columns|, i requires 0 <= i < |columns| => MaxWidth(columns[i], rows, i))
  }

  function Sum(ws: seq<int>): (total: int)
  {
    if ws == [] then 0 else Sum(ws[..|ws| - 1]) + ws[|ws| - 1]
  }

  /** Go's conversion of a quotient to int: division truncated toward zero. */
  function TruncDiv(a: int, b: int): (q: int)
    requires b > 0
  {
    if a >= 0 then a / b else -((-a) / b)
  }

  /** A column's width scaled by `viewportWidth / total`. A zero total only happens
      when every column is empty; the model then gives width 0. */
  function Scaled(width: nat, viewportWidth: int, total: int): (w: int)
  {
    if total <= 0 then 0 else TruncDiv(width * viewportWidth, total)
  }

  function ScaledAll(ws: seq<nat>, viewportWidth: int, total: int): (r: seq<int>)
    ensures |r| == |ws|
  {
    seq(|ws|, i requires 0 <= i < |ws| => Scaled(ws[i], viewportWidth, total))
  }

  /** The columns `CreateColumns` produces: upper-cased headers, in header order,
      with the scaled widest text as width. */
  function Layout(columns: seq<string>, rows: seq<seq<string>>, viewportWidth: int): (cols: seq<Column>)
    ensures |cols| == |columns|
  {
    var ws := MaxWidths(columns, rows);
    seq(|columns|, i requires 0 <= i < |columns| =>
      Column(Text.ToUpper(columns[i]), Scaled(ws[i], viewportWidth, Sum(ws))))
  }

  /** Every row fits the header: Go indexes the width table by cell position and
      panics on a longer row. */
  predicate RowsFit(columns: seq<string>, rows: seq<seq<string>>)
  {
    forall r :: 0 <= r < |rows| ==> |rows[r]| <= |columns|
  }

  /** `CreateColumns`: measures every header and cell, sums the widths, and scales
      each column to the viewport. */
  method CreateColumns(columns: seq<string>, rows: seq<seq<string>>, viewportWidth: int)
    returns (cols: seq<Column>)
    requires RowsFit(columns, rows)
    ensures cols == Layout(columns, rows, viewportWidth)
  {
    var n := |columns|;
    var maxWidths := new nat[n];
    for i := 0 to n
      invariant forall k :: 0 <= k < i ==> maxWidths[k] == MaxWidth(columns[k], [], k)
    {
      maxWidths[i] := Text.ByteLen(columns[i]);
    }
    for r := 0 to |rows|
      invariant forall k :: 0 <= k < n ==> maxWidths[k] == MaxWidth(columns[k], rows[..r], k)
    {
      var row := rows[r];
      assert rows[..r + 1][..r] == rows[..r];
      for i := 0 to |row|
        invariant forall k :: 0 <= k < i ==> maxWidths[k] == MaxWidth(columns[k], rows[..r + 1], k)
        invariant forall k :: i <= k < n ==> maxWidths[k] == MaxWidth(columns[k], rows[..r], k)
      {
        var cellLength := Text.ByteLen(row[i]);
        if cellLength > maxWidths[i] {
          maxWidths[i] := cellLength;
        }
      }
      forall k | |row| <= k < n
        ensures maxWidths[k] == MaxWidth(columns[k], rows[..r + 1], k)
      {
      }
    }
    assert rows[..|rows|] == rows;
    assert maxWidths[..] == MaxWidths(columns, rows);

    var totalWidth := 0;
    for i := 0 to n
      invariant totalWidth == Sum(maxWidths[..i])
    {
      assert maxWidths[..i + 1][..i] == maxWidths[..i];
      totalWidth := totalWidth + maxWidths[i];
    }
    assert maxWidths[..n] == maxWidths[..];

    cols := [];
    for i := 0 to n
      invariant |cols| == i
      invariant forall k :: 0 <= k < i ==> cols[k] == Layout(columns, rows, viewportWidth)[k]
    {
      cols := cols + [Column(Text.ToUpper(columns[i]), Scaled(maxWidths[i], viewportWidth, totalWidth))];
    }
  }

  /** `CreateRows`: copies the rows one by one, in order. */
  method CreateRows(inputRows: seq<seq<string>>) returns (rows: seq<seq<string>>)
    ensures rows == inputRows
  {
    rows := [];
    for i := 0 to |inputRows|
      invariant rows == inputRows[..i]
    {
      rows := rows + [inputRows[i]];
    }
    assert inputRows[..|inputRows|] == inputRows;
  }

  // ---------------------------------------------------------------------------
  // What scaling guarantees.

  lemma MulMonotone(a: int, b: int, c: int)
    requires a <= b && c >= 0
    ensures a * c <= b * c
  {
  }

  /** Truncation never moves a quotient away from zero: `total * q` lies between 0
      and the dividend. */
  lemma TruncDivBounds(a: int, b: int)
    requires b > 0
    ensures a >= 0 ==> 0 <= b * TruncDiv(a, b) <= a
    ensures a < 0 ==> a <= b * TruncDiv(a, b) <= 0
  {
    if a >= 0 {
      DivBounds(a, b);
    } else {
      DivBounds(-a, b);
      assert b * TruncDiv(a, b) == -(b * ((-a) / b));
    }
  }

  lemma DivBounds(m: nat, b: int)
    requires b > 0
    ensures 0 <= b * (m / b) <= m
  {
    var q, r := m / b, m % b;
    assert m == b * q + r && 0 <= r;
    MulMonotone(0, q, b);
    assert q * b == b * q;
  }

  lemma Distrib(a: int, b: int, c: int)
    ensures a * (b + c) == a * b + a * c
  {
  }

  /** A positive factor can be cancelled from both sides of an inequality. */
  lemma CancelPositive(t: int, x: int, y: int)
    requires t > 0 && t * x <= t * y
    ensures x <= y
  {
    if x > y {
      MulMonotone(y + 1, x, t);
      Distrib(t, y, 1);
    }
  }

  /** One scaled width has the sign of the viewport width and, times the total,
      does not exceed the share `width * viewportWidth` in magnitude. */
  lemma ScaledBounds(width: nat, viewportWidth: int, total: int)
    requires total > 0
    ensures viewportWidth >= 0 ==> 0 <= total * Scaled(width, viewportWidth, total) <= width * viewportWidth
    ensures viewportWidth < 0 ==> width * viewportWidth <= total * Scaled(width, viewportWidth, total) <= 0
    ensures viewportWidth >= 0 ==> Scaled(width, viewportWidth, total) >= 0
    ensures viewportWidth < 0 ==> Scaled(width, viewportWidth, total) <= 0
  {
    if viewportWidth >= 0 {
      MulMonotone(0, width, viewportWidth);
    } else {
      MulMonotone(0, width, -viewportWidth);
    }
    TruncDivBounds(width * viewportWidth, total);
  }

  lemma {:induction false} ScaledSumBounds(ws: seq<nat>, viewportWidth: int, total: int)
    requires total > 0
    ensures viewportWidth >= 0 ==>
      0 <= total * Sum(ScaledAll(ws, viewportWidth, total)) <= viewportWidth * Sum(ws)
    ensures viewportWidth < 0 ==>
      viewportWidth * Sum(ws) <= total * Sum(ScaledAll(ws, viewportWidth, total)) <= 0
    decreases |ws|
  {
    if ws != [] {
      var init := ws[..|ws| - 1];
      var last := ws[|ws| - 1];
      var s := ScaledAll(ws, viewportWidth, total);
      assert s[..|s| - 1] == ScaledAll(init, viewportWidth, total);
      var a := Sum(ScaledAll(init, viewportWidth, total));
      var x := Scaled(last, viewportWidth, total);
      assert Sum(s) == a + x;
      assert Sum(ws) == Sum(init) + last;
      ScaledSumBounds(init, viewportWidth, total);
      ScaledBounds(last, viewportWidth, total);
      Distrib(total, a, x);
      Distrib(viewportWidth, Sum(init), last);
    }
  }

  /** The widths of the layout, in column order. */
  function Widths(cols: seq<Column>): (ws: seq<int>)
    ensures |ws| == |cols|
  {
    seq(|cols|, i requires 0 <= i < |cols| => cols[i].width)
  }

  /** The layout fits the viewport: with a non-negative viewport width the widths
      are non-negative and add up to at most the viewport width. (Before the first
      resize the width can be negative; truncation toward zero then keeps the sum
      between the viewport width and 0.) */
  lemma LayoutFits(columns: seq<string>, rows: seq<seq<string>>, viewportWidth: int)
    requires Sum(MaxWidths(columns, rows)) > 0
    ensures var ws := Widths(Layout(columns, rows, viewportWidth));
      viewportWidth >= 0 ==> (forall i :: 0 <= i < |ws| ==> ws[i] >= 0) && 0 <= Sum(ws) <= viewportWidth
    ensures var ws := Widths(Layout(columns, rows, viewportWidth));
      viewportWidth < 0 ==> (forall i :: 0 <= i < |ws| ==> ws[i] <= 0) && viewportWidth <= Sum(ws) <= 0
  {
    var ms := MaxWidths(columns, rows);
    var total := Sum(ms);
    var ws := Widths(Layout(columns, rows, viewportWidth));
    assert ws == ScaledAll(ms, viewportWidth, total);
    ScaledSumBounds(ms, viewportWidth, total);
    forall i | 0 <= i < |ws|
      ensures viewportWidth >= 0 ==> ws[i] >= 0
      ensures viewportWidth < 0 ==> ws[i] <= 0
    {
      ScaledBounds(ms[i], viewportWidth, total);
    }
    if viewportWidth >= 0 {
      CancelPositive(total, Sum(ws), viewportWidth);
    } else {
      CancelPositive(total, viewportWidth, Sum(ws));
    }
  }

  /** When the viewport is exactly as wide as the content, no column is scaled. */
  lemma LayoutUnscaled(columns: seq<string>, rows: seq<seq<string>>)
    requires Sum(MaxWidths(columns, rows)) > 0
    ensures var ws := MaxWidths(columns, rows);
      forall i :: 0 <= i < |columns| ==> Layout(columns, rows, Sum(ws))[i].width == ws[i]
  {
    var ws := MaxWidths(columns, rows);
    var total := Sum(ws);
    forall i | 0 <= i < |columns|
      ensures Layout(columns, rows, total)[i].width == ws[i]
    {
      ExactQuotient(ws[i], total);
    }
  }

  lemma ExactQuotient(m: nat, t: int)
    requires t > 0
    ensures (m * t) / t == m
  {
    var q := (m * t) / t;
    var r := (m * t) % t;
    assert m * t == t * q + r && 0 <= r < t;
    assert t * (m - q) == r;
    if m - q >= 1 {
      MulMonotone(1, m - q, t);
    } else if m - q <= -1 {
      MulMonotone(m - q, -1, t);
    }
  }

  /** Titles are the headers upper-cased, one per header and in header order. */
  lemma LayoutTitles(columns: seq<string>, rows: seq<seq<string>>, viewportWidth: int)
    ensures |Layout(columns, rows, viewportWidth)| == |columns|
    ensures forall i :: 0 <= i < |columns| ==>
      Layout(columns, rows, viewportWidth)[i].title == Text.ToUpper(columns[i])
  {
  }
}
