/** Vertical cursor arithmetic of the invoice page: the recipient column's
    fixed line pitch, the merge of the two header columns, and the item rows
    whose height follows the measured height of the wrapped item name.
    Positions grow downwards from the top of the page. */
module Layout {

  /** Top of both header columns. */
  const TopY: real := 140.0
  /** Advance after the invoice-number line of the recipient column. */
  const InvoiceNrAdvance: real := 24.0
  /** Advance after each recipient field line. */
  const FieldAdvance: real := 14.0
  /** Number of recipient field lines below the invoice number. */
  const RecipientFields: nat := 5
  /** Space between the taller header column and the item table. */
  const ColumnGap: real := 30.0
  /** Distance from the table header to the first item row. */
  const HeaderAdvance: real := 20.0
  /** Space added below each item row's name. */
  const RowGap: real := 4.0

  /** Where the recipient column ends: after the invoice number and the five fields. */
  const ClientColumnEnd: real := TopY + InvoiceNrAdvance + RecipientFields as real * FieldAdvance

  /** Top of line `k` of the recipient column (line 0 is the invoice number). */
  function ClientLineY(k: nat): (y: real)
    ensures TopY <= y
    ensures k <= RecipientFields ==> y + (if k == 0 then InvoiceNrAdvance else FieldAdvance) <= ClientColumnEnd
  {
    if k == 0 then TopY else TopY + InvoiceNrAdvance + (k - 1) as real * FieldAdvance
  }

  /** `Math.max`: the larger of the two, which is one of them. */
  function Max(a: real, b: real): (m: real)
    ensures m >= a && m >= b
    ensures m == a || m == b
  {
    if a < b then b else a
  }

  /** Where the item table starts once the seller column (ending at
      `sellerEndY`) and the recipient column (ending at `clientEndY`) are
      merged: the gap below whichever column is taller. */
  function TableTop(sellerEndY: real, clientEndY: real): (y: real)
    ensures y >= sellerEndY + ColumnGap && y >= clientEndY + ColumnGap
    ensures y == sellerEndY + ColumnGap || y == clientEndY + ColumnGap
  {
    Max(sellerEndY, clientEndY) + ColumnGap
  }

  /** Cursor after laying out item rows whose names measured `heights`,
      the first row starting at `start`: each row advances it by its name's
      height plus the row gap. Row `k` starts at `RowsEnd(start, heights[..k])`. */
  function RowsEnd(start: real, heights: seq<real>): real
  {
    if heights == [] then start
    else RowsEnd(start, heights[..|heights| - 1]) + heights[|heights| - 1] + RowGap
  }

  /** One more row moves the cursor by that row's name height plus the gap. */
  lemma RowsEndStep(start: real, heights: seq<real>, i: nat)
    requires i < |heights|
    ensures RowsEnd(start, heights[..i + 1]) == RowsEnd(start, heights[..i]) + heights[i] + RowGap
  {
    assert heights[..i + 1][..i] == heights[..i];
  }

  function Sum(xs: seq<real>): real
  {
    if xs == [] then 0.0 else Sum(xs[..|xs| - 1]) + xs[|xs| - 1]
  }

  predicate AllNonNegative(xs: seq<real>)
  {
    forall i :: 0 <= i < |xs| ==> xs[i] >= 0.0
  }

  /** After N rows the cursor is the start plus the measured heights plus N row gaps. */
  lemma {:induction false} RowsEndClosedForm(start: real, heights: seq<real>)
    ensures RowsEnd(start, heights) == start + Sum(heights) + |heights| as real * RowGap
  {
    if heights != [] {
      RowsEndClosedForm(start, heights[..|heights| - 1]);
    }
  }

  /** With non-negative measured heights, every later row starts below the
      end of an earlier row's name plus the gap, so rows never overlap, and
      the cursor moves down by at least the gap per row. */
  lemma {:induction false} RowsDoNotOverlap(start: real, heights: seq<real>, j: nat, k: nat)
    requires AllNonNegative(heights)
    requires j < k <= |heights|
    ensures RowsEnd(start, heights[..j]) + heights[j] + RowGap <= RowsEnd(start, heights[..k])
    ensures RowsEnd(start, heights[..j]) + (k - j) as real * RowGap <= RowsEnd(start, heights[..k])
  {
    if k == j + 1 {
      assert heights[..k][..j] == heights[..j];
    } else {
      RowsDoNotOverlap(start, heights, j, k - 1);
      assert heights[..k][..k - 1] == heights[..k - 1];
      assert heights[..k][k - 1] == heights[k - 1];
    }
  }

  /** The cursor never moves up: after any rows it is at least the start. */
  lemma {:induction false} RowsEndAtLeastStart(start: real, heights: seq<real>)
    requires AllNonNegative(heights)
    ensures RowsEnd(start, heights) >= start + |heights| as real * RowGap
  {
    if heights != [] {
      assert heights[..0] == [];
      assert heights[..|heights|] == heights;
      RowsDoNotOverlap(start, heights, 0, |heights|);
    }
  }
}
