/** The column layout of every table the engine prints. */
module Columns {

  /** The visible width of a text; escape sequences count nothing. */
  type Width = string -> nat

  /** Texts that end neither inside an escape sequence nor on another line, say. */
  type Whole = string -> bool

  /** Two whole texts join to a whole text, and their widths add up. */
  predicate Joins(width: Width, whole: Whole, a: string, b: string) {
    whole(a) && whole(b) ==> whole(a + b) && width(a + b) == width(a) + width(b)
  }

  /** All whole texts join so, the empty text is whole, and a blank is and is one wide. */
  ghost predicate Additive(width: Width, whole: Whole) {
    && whole("") && whole(" ") && width(" ") == 1
    && forall a, b :: Joins(width, whole, a, b)
  }

  ghost predicate WholeCells(whole: Whole, row: seq<string>) {
    forall k :: 0 <= k < |row| ==> whole(row[k])
  }

  lemma Adds(width: Width, whole: Whole, a: string, b: string)
    requires Additive(width, whole) && whole(a) && whole(b)
    ensures whole(a + b) && width(a + b) == width(a) + width(b)
  {
    assert Joins(width, whole, a, b);
  }

  lemma CellIsWhole(whole: Whole, row: seq<string>, k: nat)
    requires WholeCells(whole, row) && k < |row|
    ensures whole(row[k])
  {
  }

  function Blanks(n: nat): string {
    seq(n, k requires 0 <= k < n => ' ')
  }

  lemma {:induction false} BlanksAreWide(width: Width, whole: Whole, n: nat)
    requires Additive(width, whole)
    ensures whole(Blanks(n)) && width(Blanks(n)) == n
  {
    if n == 0 {
      NothingIsWide(width, whole);
      assert Blanks(0) == "";
    } else {
      BlanksAreWide(width, whole, n - 1);
      Adds(width, whole, Blanks(n - 1), " ");
      assert Blanks(n) == Blanks(n - 1) + " ";
    }
  }

  lemma NothingIsWide(width: Width, whole: Whole)
    requires Additive(width, whole)
    ensures whole("") && width("") == 0
  {
    Adds(width, whole, "", "");
    assert "" + "" == "";
  }

  lemma GutterIsWide(width: Width, whole: Whole)
    requires Additive(width, whole)
    ensures whole("  ") && width("  ") == 2
  {
    Adds(width, whole, " ", " ");
    assert "  " == " " + " ";
  }

  /** Go's strings.TrimRight for blanks. */
  function TrimRight(s: string): (r: string)
    ensures r <= s && (forall k :: |r| <= k < |s| ==> s[k] == ' ')
    ensures r == "" || r[|r| - 1] != ' '
  {
    if s == "" || s[|s| - 1] != ' ' then s else TrimRight(s[..|s| - 1])
  }

  // ---------------------------------------------------------------- layout

  ghost predicate Rectangular(rows: seq<seq<string>>) {
    forall j, k :: 0 <= j < |rows| && 0 <= k < |rows| ==> |rows[j]| == |rows[k]|
  }

  ghost predicate Fits(width: Width, row: seq<string>, widths: seq<nat>) {
    |row| == |widths| && forall k :: 0 <= k < |row| ==> width(row[k]) <= widths[k]
  }

  /** One cell with its padding and gutter; the last one has neither. */
  function Field(width: Width, row: seq<string>, widths: seq<nat>, right: set<int>, k: nat): string
    requires Fits(width, row, widths) && k < |row|
  {
    var pad := Blanks(widths[k] - width(row[k]));
    if k == |row| - 1 then row[k]
    else if k in right then pad + row[k] + "  "
    else row[k] + pad + "  "
  }

  /** The first `n` cells of a row, laid out. */
  function Laid(width: Width, row: seq<string>, widths: seq<nat>, right: set<int>, n: nat): string
    requires Fits(width, row, widths) && n <= |row|
  {
    if n == 0 then "" else Laid(width, row, widths, right, n - 1) + Field(width, row, widths, right, n - 1)
  }

  /** Where column `k` starts: widths and gutters to its left. */
  function Offset(widths: seq<nat>, k: nat): nat
    requires k <= |widths|
  {
    if k == 0 then 0 else Offset(widths, k - 1) + widths[k - 1] + 2
  }

  function Sum(widths: seq<nat>): nat {
    if widths == [] then 0 else Sum(widths[..|widths| - 1]) + widths[|widths| - 1]
  }

  /** Offsets in closed form: the columns to the left, and a gutter of two after each. */
  lemma {:induction false} OffsetIsSum(widths: seq<nat>, k: nat)
    requires k <= |widths|
    ensures Offset(widths, k) == Sum(widths[..k]) + 2 * k
  {
    if k > 0 {
      OffsetIsSum(widths, k - 1);
      assert widths[..k][..k - 1] == widths[..k - 1];
    }
  }

  lemma FieldIsWide(width: Width, whole: Whole, row: seq<string>, widths: seq<nat>, right: set<int>, k: nat)
    requires Additive(width, whole) && WholeCells(whole, row) && Fits(width, row, widths) && k < |row| - 1
    ensures |widths| == |row|
    ensures var field := Field(width, row, widths, right, k); whole(field) && width(field) == widths[k] + 2
  {
    hide *;
    FitsWidth(width, row, widths);
    CellIsWhole(whole, row, k);
    var pad := Blanks(widths[k] - width(row[k]));
    BlanksAreWide(width, whole, widths[k] - width(row[k]));
    GutterIsWide(width, whole);
    FieldIs(width, row, widths, right, k);
    Adds(width, whole, pad, row[k]);
    Adds(width, whole, pad + row[k], "  ");
    Adds(width, whole, row[k], pad);
    Adds(width, whole, row[k] + pad, "  ");
  }

  lemma LaidNext(width: Width, row: seq<string>, widths: seq<nat>, right: set<int>, n: nat)
    requires Fits(width, row, widths) && 0 < n <= |row|
    ensures Laid(width, row, widths, right, n)
         == Laid(width, row, widths, right, n - 1) + Field(width, row, widths, right, n - 1)
  {
  }

  lemma LaidNone(width: Width, row: seq<string>, widths: seq<nat>, right: set<int>)
    requires Fits(width, row, widths)
    ensures Laid(width, row, widths, right, 0) == ""
  {
  }

  lemma OffsetIs(widths: seq<nat>, n: nat)
    requires n <= |widths|
    ensures Offset(widths, n) == if n == 0 then 0 else Offset(widths, n - 1) + widths[n - 1] + 2
  {
  }

  lemma FitsWidth(width: Width, row: seq<string>, widths: seq<nat>)
    requires Fits(width, row, widths)
    ensures |row| == |widths| && forall k :: 0 <= k < |row| ==> width(row[k]) <= widths[k]
  {
  }

  /** Every column starts at the same offset in every row. */
  lemma {:induction false} LaidIsWide(width: Width, whole: Whole, row: seq<string>, widths: seq<nat>, right: set<int>, n: nat)
    requires Additive(width, whole) && WholeCells(whole, row) && Fits(width, row, widths) && n < |row|
    ensures |row| == |widths|
    ensures var laid := Laid(width, row, widths, right, n); whole(laid) && width(laid) == Offset(widths, n)
  {
    hide *;
    FitsWidth(width, row, widths);
    LaidNone(width, row, widths, right);
    NothingIsWide(width, whole);
    OffsetIs(widths, n);
    if n > 0 {
      LaidIsWide(width, whole, row, widths, right, n - 1);
      LaidNext(width, row, widths, right, n);
      FieldIsWide(width, whole, row, widths, right, n - 1);
      Adds(width, whole, Laid(width, row, widths, right, n - 1), Field(width, row, widths, right, n - 1));
    }
  }

  lemma Associate(a: string, b: string, c: string, d: string)
    ensures a + b + c + d == a + b + (c + d)
  {
  }

  /** A field of a padding, a cell and the gutter, between two texts. */
  lemma Around(a: string, x: string, y: string, gutter: string, d: string)
    ensures a + (x + y + gutter) + d == a + x + y + (gutter + d)
    ensures a + (x + y + gutter) + d == a + x + (y + gutter + d)
  {
  }

  /** What stands before and after a cell in its row. */
  lemma {:induction false} CellInRow(width: Width, row: seq<string>, widths: seq<nat>, right: set<int>, k: nat, n: nat)
    returns (after: string)
    requires Fits(width, row, widths) && k < n <= |row|
    ensures Laid(width, row, widths, right, n)
         == Laid(width, row, widths, right, k) + Field(width, row, widths, right, k) + after
    ensures n == k + 1 ==> after == ""
  {
    hide *;
    LaidNext(width, row, widths, right, n);
    var laid, field := Laid(width, row, widths, right, k), Field(width, row, widths, right, k);
    if n == k + 1 {
      after := "";
      assert laid + field + "" == laid + field;
    } else {
      var rest := CellInRow(width, row, widths, right, k, n - 1);
      after := rest + Field(width, row, widths, right, n - 1);
      Associate(laid, field, rest, Field(width, row, widths, right, n - 1));
    }
  }

  lemma FieldIs(width: Width, row: seq<string>, widths: seq<nat>, right: set<int>, k: nat)
    requires Fits(width, row, widths) && k < |row|
    ensures var pad := Blanks(widths[k] - width(row[k]));
      Field(width, row, widths, right, k)
        == if k == |row| - 1 then row[k] else if k in right then pad + row[k] + "  " else row[k] + pad + "  "
  {
  }

  /** A left-aligned cell starts, and a right-aligned cell ends, at an offset that
      depends on the column widths alone; the last column is never right-aligned. */
  lemma CellsLineUp(width: Width, whole: Whole, row: seq<string>, widths: seq<nat>, right: set<int>, k: nat)
    returns (before: string, after: string)
    requires Additive(width, whole) && WholeCells(whole, row) && Fits(width, row, widths) && k < |row|
    ensures Laid(width, row, widths, right, |row|) == before + row[k] + after
    ensures if k in right && k < |row| - 1
            then width(before + row[k]) == Sum(widths[..k]) + 2 * k + widths[k]
            else width(before) == Sum(widths[..k]) + 2 * k
    ensures k == |row| - 1 ==> after == ""
  {
    FitsWidth(width, row, widths);
    OffsetIsSum(widths, k);
    var rest := CellInRow(width, row, widths, right, k, |row|);
    LaidIsWide(width, whole, row, widths, right, k);
    BlanksAreWide(width, whole, widths[k] - width(row[k]));
    FieldIs(width, row, widths, right, k);
    CellIsWhole(whole, row, k);
    hide *;
    var laid, pad := Laid(width, row, widths, right, k), Blanks(widths[k] - width(row[k]));
    if k == |row| - 1 {
      before, after := laid, rest;
    } else if k in right {
      before, after := laid + pad, "  " + rest;
      Adds(width, whole, laid, pad);
      Adds(width, whole, laid + pad, row[k]);
      Around(laid, pad, row[k], "  ", rest);
    } else {
      before, after := laid, pad + "  " + rest;
      Around(laid, row[k], pad, "  ", rest);
    }
  }

  // ------------------------------------------------------------- operations

  /** Each width is that of some cell below it, and no cell is wider. */
  ghost predicate Widest(width: Width, rows: seq<seq<string>>, widths: seq<nat>) {
    && (forall r, k :: 0 <= r < |rows| && 0 <= k < |widths| && k < |rows[r]| ==> width(rows[r][k]) <= widths[k])
    && (forall k :: 0 <= k < |widths| ==>
          widths[k] == 0 || exists r :: 0 <= r < |rows| && k < |rows[r]| && width(rows[r][k]) == widths[k])
  }

  method ColumnWidths(rows: seq<seq<string>>, width: Width) returns (widths: array<nat>)
    requires rows != [] && Rectangular(rows)
    ensures fresh(widths) && widths.Length == |rows[0]| && Widest(width, rows, widths[..])
  {
    widths := new nat[|rows[0]|](_ => 0);
    assert Widest(width, rows[..0], widths[..]);
    hide Widest, Rectangular;
    for r := 0 to |rows|
      invariant Widest(width, rows[..r], widths[..])
    {
      SameLengths(rows, r);
      ghost var before := widths[..];
      Widen(widths, rows[r], width);
      WidestNext(width, rows[..r], rows[r], before, widths[..]);
      assert rows[..r + 1] == rows[..r] + [rows[r]];
    }
    assert rows[..|rows|] == rows;
  }

  lemma SameLengths(rows: seq<seq<string>>, r: nat)
    requires Rectangular(rows) && r < |rows|
    ensures |rows[r]| == |rows[0]| && forall q :: 0 <= q < r ==> |rows[..r][q]| == |rows[r]|
  {
  }

  /** Widens each column to one row's cell. */
  method Widen(widths: array<nat>, row: seq<string>, width: Width)
    requires |row| == widths.Length
    modifies widths
    ensures forall k :: 0 <= k < |row| ==>
      widths[k] == if width(row[k]) > old(widths[k]) then width(row[k]) else old(widths[k])
  {
    for i := 0 to |row|
      invariant forall k :: 0 <= k < |row| ==>
        widths[k] == if k < i && width(row[k]) > old(widths[k]) then width(row[k]) else old(widths[k])
    {
      var w := width(row[i]);
      if w > widths[i] {
        widths[i] := w;
      }
    }
  }

  lemma WidestNext(width: Width, rows: seq<seq<string>>, row: seq<string>, before: seq<nat>, after: seq<nat>)
    requires Widest(width, rows, before) && |row| == |before| == |after|
    requires forall r :: 0 <= r < |rows| ==> |rows[r]| == |row|
    requires forall k :: 0 <= k < |row| ==> after[k] == if width(row[k]) > before[k] then width(row[k]) else before[k]
    ensures Widest(width, rows + [row], after)
  {
    var all := rows + [row];
    forall k | 0 <= k < |after|
      ensures after[k] == 0 || exists r :: 0 <= r < |all| && k < |all[r]| && width(all[r][k]) == after[k]
    {
      if after[k] == width(row[k]) {
        assert all[|rows|] == row;
      } else if after[k] != 0 {
        var r :| 0 <= r < |rows| && k < |rows[r]| && width(rows[r][k]) == before[k];
        assert all[r] == rows[r];
      }
    }
  }

  /** One line of the table: its fields in order, less the blanks at the end. */
  method RenderRow(row: seq<string>, widths: array<nat>, right: set<int>, width: Width) returns (line: string)
    requires Fits(width, row, widths[..])
    ensures line == TrimRight(Laid(width, row, widths[..], right, |row|))
  {
    hide *;
    var text := "";
    LaidNone(width, row, widths[..], right);
    FitsWidth(width, row, widths[..]);
    for i := 0 to |row|
      invariant text == Laid(width, row, widths[..], right, i)
    {
      LaidNext(width, row, widths[..], right, i + 1);
      FieldIs(width, row, widths[..], right, i);
      var pad := Blanks(widths[i] - width(row[i]));
      if i == |row| - 1 {
        text := text + row[i];
      } else if i in right {
        text := text + (pad + row[i] + "  ");
      } else {
        text := text + (row[i] + pad + "  ");
      }
    }
    line := TrimRight(text);
  }

  /** Lays a table out.  Every row shares one list of column widths, in which
      every cell fits. */
  method Columns(rows: seq<seq<string>>, right: set<int>, width: Width) returns (lines: seq<string>, ghost widths: seq<nat>)
    requires Rectangular(rows)
    ensures |lines| == |rows|
    ensures forall r :: 0 <= r < |rows| ==>
      Fits(width, rows[r], widths) && lines[r] == TrimRight(Laid(width, rows[r], widths, right, |rows[r]|))
    ensures rows != [] ==> Widest(width, rows, widths)
  {
    hide Laid, TrimRight;
    lines, widths := [], [];
    if rows == [] {
      return;
    }
    var ws := ColumnWidths(rows, width);
    widths := ws[..];
    for r := 0 to |rows|
      invariant |lines| == r && ws[..] == widths
      invariant forall q :: 0 <= q < r ==>
        Fits(width, rows[q], widths) && lines[q] == TrimRight(Laid(width, rows[q], widths, right, |rows[q]|))
    {
      assert |rows[r]| == |rows[0]|;
      assert Fits(width, rows[r], widths);
      var line := RenderRow(rows[r], ws, right, width);
      lines := lines + [line];
    }
  }
}
