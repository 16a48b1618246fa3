/**
 * The control-point table that both parameter pages keep (`self.table` in
 * `src/gui/pages/seven_param_page.py` and `src/gui/pages/four_param_page.py`): one row per
 * common point, a check box in column 0 and the coordinate texts after it. The two pages
 * repeat the same selection, deletion and select-all code; it is modelled once here.
 */
module ControlTable {
  import opened Wrappers

  /**
   * One table row: the check box, the coordinate texts of columns 1.., and the RMS text of
   * the last column of the seven-parameter table (`None` while that cell has no item).
   */
  datatype Row = Row(checked: bool, cells: seq<string>, rms: Option<string>)

  /** `sel` lists, in strictly ascending order, exactly the indices of the ticked rows. */
  predicate IsSelection(rows: seq<Row>, sel: seq<nat>) {
    (forall k :: 0 <= k < |sel| ==> sel[k] < |rows| && rows[sel[k]].checked)
    && (forall k, l :: 0 <= k < l < |sel| ==> sel[k] < sel[l])
    && (forall i :: 0 <= i < |rows| && rows[i].checked ==> i in sel)
  }

  /** The rows' indices in ascending order: the list `0, 1, ..., |rows| - 1` filtered to the checked ones. */
  function Selected(rows: seq<Row>): (sel: seq<nat>)
    ensures IsSelection(rows, sel)
    ensures |sel| <= |rows|
  {
    if rows == [] then []
    else
      var n := |rows| - 1;
      var prev := Selected(rows[..n]);
      assert forall k :: 0 <= k < |prev| ==> rows[..n][prev[k]] == rows[prev[k]];
      if rows[n].checked then prev + [n] else prev
  }

  /** The `selected_rows` loop: every row whose check box is ticked, in row order. */
  method CollectSelected(rows: seq<Row>) returns (sel: seq<nat>)
    ensures sel == Selected(rows)
  {
    sel := [];
    var i := 0;
    while i < |rows|
      invariant 0 <= i <= |rows|
      invariant sel == Selected(rows[..i])
    {
      SelectedStep(rows, i);
      if rows[i].checked {
        sel := sel + [i];
      }
      i := i + 1;
    }
    assert rows[..|rows|] == rows;
  }

  /** One more row adds its own index exactly when it is ticked. */
  lemma SelectedStep(rows: seq<Row>, i: nat)
    requires i < |rows|
    ensures Selected(rows[..i + 1]) == Selected(rows[..i]) + (if rows[i].checked then [i] else [])
  {
    assert rows[..i + 1][..i] == rows[..i];
  }

  /** The unchecked rows, in their original relative order. */
  function Unchecked(rows: seq<Row>): (r: seq<Row>)
    ensures forall k :: 0 <= k < |r| ==> !r[k].checked
    ensures |r| <= |rows|
  {
    if rows == [] then []
    else
      var n := |rows| - 1;
      Unchecked(rows[..n]) + (if rows[n].checked then [] else [rows[n]])
  }

  /** Filtering distributes over concatenation. */
  lemma {:induction false} UncheckedAppend(a: seq<Row>, b: seq<Row>)
    ensures Unchecked(a + b) == Unchecked(a) + Unchecked(b)
    decreases |b|
  {
    if b == [] {
      assert a + b == a;
    } else {
      var n := |b| - 1;
      assert (a + b)[..|a + b| - 1] == a + b[..n];
      UncheckedAppend(a, b[..n]);
    }
  }

  /** A stretch of rows with no tick in it survives whole. */
  lemma {:induction false} UncheckedNone(rows: seq<Row>)
    requires forall i :: 0 <= i < |rows| ==> !rows[i].checked
    ensures Unchecked(rows) == rows
  {
    if rows != [] {
      var n := |rows| - 1;
      UncheckedNone(rows[..n]);
      assert rows[..n] + [rows[n]] == rows;
    }
  }

  /** A row survives the filter exactly when it is an unchecked row of the table. */
  lemma {:induction false} UncheckedMembers(rows: seq<Row>, x: Row)
    ensures x in Unchecked(rows) <==> x in rows && !x.checked
  {
    if rows != [] {
      var n := |rows| - 1;
      UncheckedMembers(rows[..n], x);
      assert rows == rows[..n] + [rows[n]];
    }
  }

  /** Deleting the ticked rows removes exactly as many rows as were ticked. */
  lemma {:induction false} UncheckedCount(rows: seq<Row>)
    ensures |Unchecked(rows)| + |Selected(rows)| == |rows|
  {
    if rows != [] {
      UncheckedCount(rows[..|rows| - 1]);
    }
  }

  /**
   * `for row in sorted(selected_rows, reverse=True): removeRow(row)`: removing the ticked
   * rows from the highest index down leaves the unchecked rows, in order.
   */
  method RemoveSelected(rows: seq<Row>, sel: seq<nat>) returns (r: seq<Row>)
    requires IsSelection(rows, sel)
    ensures r == Unchecked(rows)
  {
    r := rows;
    var k := |sel|;
    RemoveStart(rows, sel);
    while k > 0
      invariant 0 <= k <= |sel|
      invariant Boundary(sel, k) <= |rows|
      invariant r == rows[..Boundary(sel, k)] + Unchecked(rows[Boundary(sel, k)..])
    {
      RemoveStep(rows, sel, k, r);
      var j := sel[k - 1];
      r := r[..j] + r[j + 1..];
      k := k - 1;
    }
    assert rows[..0] == [] && rows[0..] == rows;
  }

  /** The first row not yet looked at once `k` removals remain: everything from it on is settled. */
  function Boundary(sel: seq<nat>, k: nat): nat
    requires k <= |sel|
  {
    if k == 0 then 0 else sel[k - 1] + 1
  }

  /** Before any removal the whole table is the settled part. */
  lemma RemoveStart(rows: seq<Row>, sel: seq<nat>)
    requires IsSelection(rows, sel)
    ensures Boundary(sel, |sel|) <= |rows|
    ensures rows == rows[..Boundary(sel, |sel|)] + Unchecked(rows[Boundary(sel, |sel|)..])
  {
    var b := Boundary(sel, |sel|);
    if sel == [] {
      UncheckedNone(rows);
      assert rows[..0] == [] && rows[0..] == rows;
    } else {
      NoTickAbove(rows, sel, b);
      UncheckedNone(rows[b..]);
      assert rows[..b] + rows[b..] == rows;
    }
  }

  /** `removeRow(sel[k - 1])` moves the settled boundary down to the previous ticked row. */
  lemma RemoveStep(rows: seq<Row>, sel: seq<nat>, k: nat, r: seq<Row>)
    requires IsSelection(rows, sel) && 0 < k <= |sel|
    requires Boundary(sel, k) <= |rows|
    requires r == rows[..Boundary(sel, k)] + Unchecked(rows[Boundary(sel, k)..])
    ensures sel[k - 1] < |r| && Boundary(sel, k - 1) <= |rows|
    ensures r[..sel[k - 1]] + r[sel[k - 1] + 1..]
         == rows[..Boundary(sel, k - 1)] + Unchecked(rows[Boundary(sel, k - 1)..])
  {
    var j := sel[k - 1];
    var b := Boundary(sel, k - 1);
    NoTickBetween(rows, sel, k, b);
    SkipTicked(rows, b, j);
    DropAt(rows[..j + 1], Unchecked(rows[j + 1..]), j);
    assert rows[..j + 1][..j] == rows[..j];
  }

  /** Past the last ticked row there is no tick. */
  lemma NoTickAbove(rows: seq<Row>, sel: seq<nat>, b: nat)
    requires IsSelection(rows, sel) && sel != [] && b == sel[|sel| - 1] + 1
    ensures b <= |rows|
    ensures forall i :: b <= i < |rows| ==> !rows[i].checked
  {
    forall i | b <= i < |rows|
      ensures !rows[i].checked
    {
      assert forall t :: 0 <= t < |sel| ==> sel[t] <= sel[|sel| - 1];
    }
  }

  /** Between two consecutive ticked rows there is no tick. */
  lemma NoTickBetween(rows: seq<Row>, sel: seq<nat>, k: nat, b: nat)
    requires IsSelection(rows, sel)
    requires 0 < k <= |sel|
    requires b == if k - 1 == 0 then 0 else sel[k - 2] + 1
    ensures b <= sel[k - 1] < |rows|
    ensures forall i :: b <= i < sel[k - 1] ==> !rows[i].checked
  {
    forall i | b <= i < sel[k - 1]
      ensures !rows[i].checked
    {
      forall t | 0 <= t < |sel|
        ensures sel[t] != i
      {
        if t >= k - 1 {
          assert sel[k - 1] <= sel[t];
        } else if t < k - 2 {
          assert sel[t] < sel[k - 2];
        }
      }
    }
  }

  /** Rows `b..j` hold no tick and row `j` has one: the filter of `rows[b..]` starts after `j`. */
  lemma SkipTicked(rows: seq<Row>, b: nat, j: nat)
    requires b <= j < |rows| && rows[j].checked
    requires forall i :: b <= i < j ==> !rows[i].checked
    ensures rows[..j] + Unchecked(rows[j + 1..]) == rows[..b] + Unchecked(rows[b..])
  {
    var mid := rows[b..j];
    assert forall i :: 0 <= i < |mid| ==> !mid[i].checked;
    SkipPieces(rows[..b], mid, rows[j], rows[j + 1..]);
    assert rows[b..] == mid + [rows[j]] + rows[j + 1..];
    assert rows[..b] + mid == rows[..j];
  }

  /** The filter drops a ticked row `x` and keeps the untouched stretch `mid` before it. */
  lemma SkipPieces(front: seq<Row>, mid: seq<Row>, x: Row, tail: seq<Row>)
    requires forall i :: 0 <= i < |mid| ==> !mid[i].checked
    requires x.checked
    ensures (front + mid) + Unchecked(tail) == front + Unchecked(mid + [x] + tail)
  {
    UncheckedNone(mid);
    UncheckedAppend(mid + [x], tail);
    UncheckedAppend(mid, [x]);
    UncheckedTicked(x);
    assert Unchecked(mid + [x]) == mid;
  }

  /** A lone ticked row is filtered out. */
  lemma UncheckedTicked(x: Row)
    requires x.checked
    ensures Unchecked([x]) == []
  {
    assert [x][..0] == [];
  }

  /** `removeRow(j)` on a table whose first `j + 1` rows are `front`. */
  lemma DropAt(front: seq<Row>, back: seq<Row>, j: nat)
    requires |front| == j + 1
    ensures var r := front + back; r[..j] + r[j + 1..] == front[..j] + back
  {
    var r := front + back;
    assert r[..j] == front[..j];
    assert r[j + 1..] == back;
  }

  /** True when every row is ticked: the `all_selected` loop of `on_header_clicked`, with its early exit. */
  predicate AllChecked(rows: seq<Row>) {
    forall i :: 0 <= i < |rows| ==> rows[i].checked
  }

  method FindAllChecked(rows: seq<Row>) returns (all: bool)
    ensures all <==> AllChecked(rows)
  {
    all := true;
    var i := 0;
    while i < |rows|
      invariant 0 <= i <= |rows|
      invariant all && forall k :: 0 <= k < i ==> rows[k].checked
    {
      if !rows[i].checked {
        all := false;
        break;
      }
      i := i + 1;
    }
  }

  /** Every check box set to `v`, texts untouched. */
  function WithChecks(rows: seq<Row>, v: bool): (r: seq<Row>)
    ensures |r| == |rows|
    ensures forall i :: 0 <= i < |rows| ==> r[i].checked == v && r[i].cells == rows[i].cells && r[i].rms == rows[i].rms
  {
    seq(|rows|, i requires 0 <= i < |rows| => rows[i].(checked := v))
  }

  /** The second loop of `on_header_clicked`: `checkbox.setChecked(v)` on every row. */
  method SetAllChecks(rows: seq<Row>, v: bool) returns (r: seq<Row>)
    ensures r == WithChecks(rows, v)
  {
    r := rows;
    var i := 0;
    while i < |r|
      invariant 0 <= i <= |r| == |rows|
      invariant forall k :: 0 <= k < i ==> r[k] == rows[k].(checked := v)
      invariant forall k :: i <= k < |r| ==> r[k] == rows[k]
    {
      r := r[i := r[i].(checked := v)];
      i := i + 1;
    }
  }

  /**
   * A click on header section `index`: for column 0 of a non-empty table, untick every row
   * when all were ticked and tick every row otherwise; any other click changes nothing.
   */
  function HeaderToggle(rows: seq<Row>, index: int): (r: seq<Row>)
    ensures index != 0 || rows == [] ==> r == rows
    ensures index == 0 ==> |r| == |rows| && forall i :: 0 <= i < |rows| ==>
      r[i].checked == !AllChecked(rows) && r[i].cells == rows[i].cells && r[i].rms == rows[i].rms
  {
    if index != 0 || rows == [] then rows else WithChecks(rows, !AllChecked(rows))
  }

  /** Two clicks on column 0 of a non-empty table leave every row ticked exactly when all
      were ticked before, and none ticked otherwise. */
  lemma HeaderToggleTwice(rows: seq<Row>)
    requires rows != []
    ensures HeaderToggle(HeaderToggle(rows, 0), 0) == WithChecks(rows, AllChecked(rows))
  {
    var once := HeaderToggle(rows, 0);
    if AllChecked(rows) {
      assert !AllChecked(once) by {
        assert !once[0].checked;
      }
    } else {
      assert AllChecked(once);
    }
  }

  /** Why `on_edit_clicked` refuses to load a row. */
  datatype EditRefusal = NothingSelected | SeveralSelected

  /** The row `on_edit_clicked` loads: the only ticked row, or the reason there is none. */
  function EditTarget(rows: seq<Row>): (r: Result<nat, EditRefusal>)
    ensures r == Err(NothingSelected) <==> forall i :: 0 <= i < |rows| ==> !rows[i].checked
    ensures r.Ok? ==> (r.value < |rows| && rows[r.value].checked
                       && forall i :: 0 <= i < |rows| && i != r.value ==> !rows[i].checked)
    ensures r == Err(SeveralSelected) <==>
      exists i, j :: 0 <= i < j < |rows| && rows[i].checked && rows[j].checked
  {
    var sel := Selected(rows);
    if |sel| == 0 then
      Err(NothingSelected)
    else if |sel| > 1 then
      assert rows[sel[0]].checked && rows[sel[1]].checked;
      Err(SeveralSelected)
    else
      assert forall i :: 0 <= i < |rows| && rows[i].checked ==> i == sel[0];
      Ok(sel[0])
  }

  /**
   * The `setItem` calls of `on_save_clicked` and the unticking of its check box: the row at
   * `at` gets the new texts and an empty tick, its RMS cell is kept; a row index past the
   * end of the table changes nothing.
   */
  function Overwrite(rows: seq<Row>, at: nat, cells: seq<string>): (r: seq<Row>)
    ensures |r| == |rows|
    ensures at < |rows| ==> r[at] == Row(false, cells, rows[at].rms)
    ensures forall i :: 0 <= i < |rows| && i != at ==> r[i] == rows[i]
  {
    if at < |rows| then rows[at := Row(false, cells, rows[at].rms)] else rows
  }

  /** How a page reads one row's texts as a (source, target) pair of coordinate lists. */
  type Reader = seq<string> -> Option<(seq<real>, seq<real>)>

  /** The source and target coordinate lists of the selected rows, in selection order; `None` when a row does not read. */
  function Coordinates(rows: seq<Row>, sel: seq<nat>, read: Reader): (r: Option<(seq<seq<real>>, seq<seq<real>>)>)
    requires forall k :: 0 <= k < |sel| ==> sel[k] < |rows|
    ensures r.Some? ==> |r.value.0| == |sel| && |r.value.1| == |sel|
    ensures r.Some? ==> forall k :: 0 <= k < |sel| ==> read(rows[sel[k]].cells) == Some((r.value.0[k], r.value.1[k]))
    ensures r.None? <==> exists k :: 0 <= k < |sel| && read(rows[sel[k]].cells).None?
  {
    if sel == [] then Some(([], []))
    else
      var n := |sel| - 1;
      assert forall k :: 0 <= k < n ==> sel[..n][k] == sel[k];
      match Coordinates(rows, sel[..n], read)
      case None => None
      case Some(prev) =>
        match read(rows[sel[n]].cells)
        case None => None
        case Some(pair) =>
          var src, tgt := prev.0 + [pair.0], prev.1 + [pair.1];
          assert forall k :: 0 <= k < n ==> src[k] == prev.0[k] && tgt[k] == prev.1[k];
          Some((src, tgt))
  }

  /** The `for row in selected_rows` loop of both pages' `on_calculate_clicked` that reads the coordinates. */
  method ReadCoordinates(rows: seq<Row>, sel: seq<nat>, read: Reader)
    returns (r: Option<(seq<seq<real>>, seq<seq<real>>)>)
    requires forall k :: 0 <= k < |sel| ==> sel[k] < |rows|
    ensures r == Coordinates(rows, sel, read)
  {
    var src: seq<seq<real>> := [];
    var tgt: seq<seq<real>> := [];
    var i := 0;
    while i < |sel|
      invariant 0 <= i <= |sel|
      invariant Coordinates(rows, sel[..i], read) == Some((src, tgt))
    {
      assert sel[..i + 1][..i] == sel[..i];
      var pair := read(rows[sel[i]].cells);
      if pair.None? {
        NoneExtends(rows, sel, read, i + 1);
        return None;
      }
      src, tgt := src + [pair.value.0], tgt + [pair.value.1];
      i := i + 1;
    }
    assert sel[..|sel|] == sel;
    return Some((src, tgt));
  }

  /** A row that does not read makes every longer selection fail too. */
  lemma NoneExtends(rows: seq<Row>, sel: seq<nat>, read: Reader, i: nat)
    requires forall k :: 0 <= k < |sel| ==> sel[k] < |rows|
    requires i <= |sel| && Coordinates(rows, sel[..i], read).None?
    ensures Coordinates(rows, sel, read).None?
  {
    var k :| 0 <= k < i && read(rows[sel[..i][k]].cells).None?;
    assert sel[..i][k] == sel[k];
  }
}
