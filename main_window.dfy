/**
 * The JSON import and save of `src/gui/main_window.py`: `on_import_clicked` routes a decoded
 * file to `_import_seven_param_data` or `_import_four_param_data`, which refill the table and
 * the widgets of one page; `on_save_clicked` builds the file contents from one page with
 * `_save_seven_param_data` or `_save_four_param_data`. File dialogs, `json.load` /
 * `json.dump` and message boxes are outside the model: a file arrives already decoded into
 * `Config`, and a save returns the `Config` that would be written.
 */
module MainWindow {
  import opened Wrappers
  import opened Text
  import opened ControlTable
  import SevenParamPage
  import FourParamPage

  // ---------------------------------------------------------------------------
  // Decoded configuration files
  // ---------------------------------------------------------------------------

  /**
   * A point object: its "id" when the key is present, and for every other key the text
   * `str()` gives its value.
   */
  datatype FilePoint = FilePoint(id: Option<int>, coords: map<string, string>)

  /** An entry of "rms_values": its "point_id" when present and the text of its "rms" (None
      when the key is absent or null). */
  datatype RmsItem = RmsItem(pointId: Option<int>, rms: Option<string>)

  /** "source_coordinate" or "target_coordinate"; every absent key is None. */
  datatype Side = Side(kind: Option<string>, unit: Option<string>, referenceSystem: Option<string>,
                       points: Option<seq<FilePoint>>)

  /**
   * A decoded file: the top-level keys "config_type", "source_coordinate",
   * "target_coordinate", "transformation_parameters" and "rms_values", None when absent.
   * A parameter maps to None when it is null.
   */
  datatype Config = Config(configType: Option<string>, source: Option<Side>, target: Option<Side>,
                           parameters: Option<map<string, Option<real>>>, rmsValues: Option<seq<RmsItem>>)

  /** `params.get(key)`: None for an absent key and for a null value. */
  function Param(params: map<string, Option<real>>, key: string): Option<real> {
    if key in params then params[key] else None
  }

  /** `point.get(key, '')` passed through `str()`. */
  function Field(p: FilePoint, key: string): string {
    if key in p.coords then p.coords[key] else ""
  }

  /** The text of table cell `j` of a row, `""` where the row has no item. */
  function Cell(row: Row, j: nat): string {
    if j < |row.cells| then row.cells[j] else ""
  }

  predicate Distinct(keys: seq<string>) {
    forall i, j :: 0 <= i < j < |keys| ==> keys[i] != keys[j]
  }

  /** The dictionary literal `{keys[0]: vals[0], keys[1]: vals[1], ...}`. */
  function MapOf<V>(keys: seq<string>, vals: seq<V>): (m: map<string, V>)
    requires |keys| == |vals|
    ensures forall k :: k in m <==> k in keys
  {
    if keys == [] then map[]
    else
      var n := |keys| - 1;
      LastKey(keys);
      MapOf(keys[..n], vals[..n])[keys[n] := vals[n]]
  }

  /** The keys of a non-empty list: those before the last one, and the last one. */
  lemma LastKey(keys: seq<string>)
    requires keys != []
    ensures forall k :: k in keys <==> k in keys[..|keys| - 1] || k == keys[|keys| - 1]
  {
    assert keys == keys[..|keys| - 1] + [keys[|keys| - 1]];
  }

  /** With distinct keys, each key maps to the value at its own position. */
  lemma {:induction false} MapOfValues<V>(keys: seq<string>, vals: seq<V>)
    requires |keys| == |vals| && Distinct(keys)
    ensures forall j :: 0 <= j < |keys| ==> keys[j] in MapOf(keys, vals) && MapOf(keys, vals)[keys[j]] == vals[j]
  {
    if keys != [] {
      var n := |keys| - 1;
      var front, fvals := keys[..n], vals[..n];
      assert Distinct(front);
      MapOfValues(front, fvals);
      forall j | 0 <= j < n
        ensures keys[j] != keys[n] && front[j] == keys[j] && fvals[j] == vals[j]
      {
      }
    }
  }

  /** The value the dictionary literal gives the key at position `i`, for distinct keys. */
  lemma MapOfAt<V>(keys: seq<string>, vals: seq<V>, i: nat)
    requires |keys| == |vals| && Distinct(keys) && i < |keys|
    ensures keys[i] in MapOf(keys, vals) && MapOf(keys, vals)[keys[i]] == vals[i]
  {
    MapOfValues(keys, vals);
  }

  // ---------------------------------------------------------------------------
  // Dictionaries keyed by id, and sorting the ids
  // ---------------------------------------------------------------------------

  /** `item.get('id', i + 1)` for the item at index `i`, with `id` reading the key. */
  function IdAt<T>(items: seq<T>, i: nat, id: T -> Option<int>): int
    requires i < |items|
  {
    if id(items[i]).Some? then id(items[i]).value else i + 1
  }

  /** The ids of the items in file order, duplicates included. */
  function Ids<T>(items: seq<T>, id: T -> Option<int>): (ids: seq<int>)
    ensures |ids| == |items|
    ensures forall i :: 0 <= i < |items| ==> ids[i] == IdAt(items, i, id)
  {
    seq(|items|, i requires 0 <= i < |items| => IdAt(items, i, id))
  }

  /**
   * The comprehension `{item.get('id', i + 1): item for i, item in enumerate(items)}`: one
   * entry per distinct id; for a repeated id the later item wins.
   */
  function ById<T>(items: seq<T>, id: T -> Option<int>): (m: map<int, T>)
    ensures forall k :: k in m <==> k in Ids(items, id)
  {
    if items == [] then map[]
    else
      var n := |items| - 1;
      var m := ById(items[..n], id);
      assert forall i :: 0 <= i < n ==> IdAt(items[..n], i, id) == IdAt(items, i, id);
      assert forall k :: k in Ids(items, id) <==> k in Ids(items[..n], id) || k == IdAt(items, n, id);
      m[IdAt(items, n, id) := items[n]]
  }

  /** An item whose id no later item repeats is the one the dictionary keeps. */
  lemma {:induction false} ByIdLastWins<T>(items: seq<T>, id: T -> Option<int>, i: nat)
    requires i < |items|
    requires forall j :: i < j < |items| ==> IdAt(items, j, id) != IdAt(items, i, id)
    ensures IdAt(items, i, id) in ById(items, id)
    ensures ById(items, id)[IdAt(items, i, id)] == items[i]
  {
    var n := |items| - 1;
    var prefix := items[..n];
    ByIdStep(items, id);
    if i < n {
      forall j | i < j < n
        ensures IdAt(prefix, j, id) != IdAt(prefix, i, id)
      {
        assert IdAt(prefix, j, id) == IdAt(items, j, id) && IdAt(prefix, i, id) == IdAt(items, i, id);
      }
      ByIdLastWins(prefix, id, i);
    }
  }

  /** The dictionary of a non-empty list: that of all but the last item, then the last. */
  lemma ByIdStep<T>(items: seq<T>, id: T -> Option<int>)
    requires items != []
    ensures ById(items, id) == ById(items[..|items| - 1], id)[IdAt(items, |items| - 1, id) := items[|items| - 1]]
    ensures forall j :: 0 <= j < |items| - 1 ==> IdAt(items[..|items| - 1], j, id) == IdAt(items, j, id)
  {
  }

  predicate Increasing(s: seq<int>) {
    forall i, j :: 0 <= i < j < |s| ==> s[i] < s[j]
  }

  lemma AppendIncreasing(s: seq<int>, x: int)
    ensures Increasing(s) && (forall y :: y in s ==> y < x) ==> Increasing(s + [x])
  {
    if Increasing(s) && (forall y :: y in s ==> y < x) {
      var t := s + [x];
      forall i, j | 0 <= i < j < |t|
        ensures t[i] < t[j]
      {
        if j == |s| {
          assert t[i] == s[i] && s[i] in s;
        }
      }
    }
  }

  /** `x` placed into a strictly increasing list, unless already there. */
  function Insert(x: int, s: seq<int>): (r: seq<int>)
    requires Increasing(s)
    ensures Increasing(r)
    ensures forall y :: y in r <==> y == x || y in s
  {
    if s == [] then [x]
    else if x < s[0] then [x] + s
    else if x == s[0] then s
    else
      var rest := Insert(x, s[1..]);
      InsertBehind(x, s, rest);
      [s[0]] + rest
  }

  /** Putting the head back in front of the insertion into the tail. */
  lemma InsertBehind(x: int, s: seq<int>, rest: seq<int>)
    requires Increasing(s) && s != [] && s[0] < x
    requires Increasing(rest) && forall y :: y in rest <==> y == x || y in s[1..]
    ensures Increasing([s[0]] + rest)
    ensures forall y :: y in [s[0]] + rest <==> y == x || y in s
  {
    assert s == [s[0]] + s[1..];
    assert forall y :: y in s[1..] ==> s[0] < y;
    var r := [s[0]] + rest;
    forall i, j | 0 <= i < j < |r|
      ensures r[i] < r[j]
    {
      if i == 0 {
        assert r[j] == rest[j - 1] && rest[j - 1] in rest;
      } else {
        assert r[i] == rest[i - 1] && r[j] == rest[j - 1];
      }
    }
  }

  /** `sorted(set(xs))`: the distinct values of `xs` in ascending order. */
  function SortedUnique(xs: seq<int>): (r: seq<int>)
    ensures Increasing(r)
    ensures forall y :: y in r <==> y in xs
  {
    if xs == [] then []
    else
      var n := |xs| - 1;
      LastSplit(xs);
      Insert(xs[n], SortedUnique(xs[..n]))
  }

  /** The members of a non-empty list: those before the last one, and the last one. */
  lemma LastSplit(xs: seq<int>)
    requires xs != []
    ensures forall y :: y in xs <==> y in xs[..|xs| - 1] || y == xs[|xs| - 1]
  {
    assert xs == xs[..|xs| - 1] + [xs[|xs| - 1]];
  }

  /** A set of integers has one ascending listing. */
  lemma {:induction false} IncreasingUnique(a: seq<int>, b: seq<int>)
    requires Increasing(a) && Increasing(b)
    requires forall y :: y in a <==> y in b
    ensures a == b
  {
    EmptyTogether(a, b);
    if a != [] {
      HeadIsLeast(a);
      HeadIsLeast(b);
      assert a[0] in b && b[0] in a;
      TailMembers(a);
      TailMembers(b);
      IncreasingUnique(a[1..], b[1..]);
      assert a == [a[0]] + a[1..] && b == [b[0]] + b[1..];
    }
  }

  /** Two lists with the same members are empty together. */
  lemma EmptyTogether(a: seq<int>, b: seq<int>)
    requires forall y :: y in a <==> y in b
    ensures a == [] <==> b == []
  {
    if a != [] {
      var x := a[0];
      assert x in a;
    }
    if b != [] {
      var x := b[0];
      assert x in b;
    }
  }

  /** The head of a strictly increasing list is its least member. */
  lemma HeadIsLeast(a: seq<int>)
    requires Increasing(a) && a != []
    ensures forall y :: y in a ==> a[0] <= y
  {
  }

  /** The tail of a strictly increasing list holds every member but the head. */
  lemma TailMembers(a: seq<int>)
    requires Increasing(a) && a != []
    ensures Increasing(a[1..])
    ensures forall y :: y in a[1..] <==> y in a && y != a[0]
  {
    assert a == [a[0]] + a[1..];
  }

  // ---------------------------------------------------------------------------
  // `_import_four_param_data`: joining the two point lists by id
  // ---------------------------------------------------------------------------

  function PointId(p: FilePoint): Option<int> {
    p.id
  }

  function RmsId(item: RmsItem): Option<int> {
    item.pointId
  }

  /** The table row the join writes for one id: an empty check box and X, Y of each side. */
  function FourRow(sp: FilePoint, tp: FilePoint): Row {
    Row(false, [Field(sp, "X"), Field(sp, "Y"), Field(tp, "X"), Field(tp, "Y")], None)
  }

  /** The ids of `ids`, in order, that both dictionaries hold. */
  function Common<T>(ids: seq<int>, sm: map<int, T>, tm: map<int, T>): (c: seq<int>)
    ensures forall y :: y in c <==> y in ids && y in sm && y in tm
    ensures Increasing(ids) ==> Increasing(c)
  {
    if ids == [] then []
    else
      var n := |ids| - 1;
      assert forall y :: y in ids <==> y in ids[..n] || y == ids[n];
      var c := Common(ids[..n], sm, tm);
      assert Increasing(ids) ==> Increasing(ids[..n]) && Increasing(c) && forall y :: y in c ==> y < ids[n];
      AppendIncreasing(c, ids[n]);
      c + (if ids[n] in sm && ids[n] in tm then [ids[n]] else [])
  }

  /** The rows the loop over `all_ids` appends: one per id present in both dictionaries. */
  function JoinRows(ids: seq<int>, sm: map<int, FilePoint>, tm: map<int, FilePoint>): (rows: seq<Row>)
    ensures var c := Common(ids, sm, tm);
      |rows| == |c| && forall k :: 0 <= k < |c| ==> c[k] in sm && c[k] in tm && rows[k] == FourRow(sm[c[k]], tm[c[k]])
  {
    if ids == [] then []
    else
      var n := |ids| - 1;
      JoinRows(ids[..n], sm, tm) + (if ids[n] in sm && ids[n] in tm then [FourRow(sm[ids[n]], tm[ids[n]])] else [])
  }

  /** The loop over `all_ids` with its `insertRow` / `setItem` calls. */
  method FillFourTable(ids: seq<int>, sm: map<int, FilePoint>, tm: map<int, FilePoint>) returns (rows: seq<Row>)
    ensures rows == JoinRows(ids, sm, tm)
  {
    rows := [];
    var i := 0;
    while i < |ids|
      invariant 0 <= i <= |ids|
      invariant rows == JoinRows(ids[..i], sm, tm)
    {
      assert ids[..i + 1][..i] == ids[..i];
      var id := ids[i];
      if id in sm && id in tm {
        rows := rows + [FourRow(sm[id], tm[id])];
      }
      i := i + 1;
    }
    assert ids[..i] == ids;
  }

  /**
   * The RMS loop: row `i` gets the RMS text of point id `i + 1` when that id has a non-null
   * RMS and the table has more than five columns. The four-parameter table has exactly five,
   * so the loop never writes anything there.
   */
  function RmsPlaced(rows: seq<Row>, rms: map<int, RmsItem>, columnCount: nat): (r: seq<Row>)
    ensures |r| == |rows|
    ensures forall i :: 0 <= i < |rows| ==> r[i].checked == rows[i].checked && r[i].cells == rows[i].cells
    ensures columnCount <= 5 ==> r == rows
  {
    seq(|rows|, i requires 0 <= i < |rows| =>
      if columnCount > 5 && i + 1 in rms && rms[i + 1].rms.Some? then rows[i].(rms := rms[i + 1].rms)
      else rows[i])
  }

  method PlaceRms(rows: seq<Row>, rms: map<int, RmsItem>, columnCount: nat) returns (r: seq<Row>)
    ensures r == RmsPlaced(rows, rms, columnCount)
  {
    r := rows;
    var i := 0;
    while i < |r|
      invariant 0 <= i <= |r| == |rows|
      invariant forall k :: 0 <= k < |r| ==> r[k] == (if k < i then RmsPlaced(rows, rms, columnCount)[k] else rows[k])
    {
      var pointId := i + 1;
      if pointId in rms && rms[pointId].rms.Some? {
        if columnCount > 5 {
          r := r[i := r[i].(rms := rms[pointId].rms)];
        }
      }
      i := i + 1;
    }
  }

  /** `data[side].get('points', [])`. */
  function PointsOr(s: Side): seq<FilePoint> {
    if s.points.Some? then s.points.value else []
  }

  /** The rows `_import_four_param_data` leaves in the table when both sides are present. */
  function FourRows(src: seq<FilePoint>, tgt: seq<FilePoint>, rmsValues: Option<seq<RmsItem>>): seq<Row> {
    var rows := JoinRows(SortedUnique(Ids(src, PointId) + Ids(tgt, PointId)), ById(src, PointId), ById(tgt, PointId));
    if rmsValues.Some? then RmsPlaced(rows, ById(rmsValues.value, RmsId), FourParamPage.ColumnCount) else rows
  }

  /**
   * The rows of a four-parameter import are the points whose id both lists hold, in
   * ascending id order, each pairing the last source point and the last target point of
   * that id; ids only one side holds are dropped.
   */
  lemma FourRowsJoinIds(src: seq<FilePoint>, tgt: seq<FilePoint>, rmsValues: Option<seq<RmsItem>>)
    ensures var sm, tm := ById(src, PointId), ById(tgt, PointId);
      var c := Common(SortedUnique(Ids(src, PointId) + Ids(tgt, PointId)), sm, tm);
      var rows := FourRows(src, tgt, rmsValues);
      Increasing(c) && (forall y :: y in c <==> y in sm && y in tm) && |rows| == |c|
      && forall k :: 0 <= k < |c| ==> rows[k] == FourRow(sm[c[k]], tm[c[k]])
  {
    var sm, tm := ById(src, PointId), ById(tgt, PointId);
    var ids := SortedUnique(Ids(src, PointId) + Ids(tgt, PointId));
    forall y | y in sm && y in tm
      ensures y in ids
    {
      assert y in Ids(src, PointId);
    }
  }

  /** The state of the four-parameter page that import and save touch. */
  datatype FourView = FourView(rows: seq<Row>, ellipsoid: string, resultTexts: seq<string>)

  function FourViewOf(p: FourParamPage.Page): FourView
    reads p
  {
    FourView(p.rows, p.ellipsoid, p.resultTexts)
  }

  /** The keys of "transformation_parameters" in a four-parameter file, in field order. */
  const FourParamKeys: seq<string> := ["a", "b", "dx", "dy", "s", "θ"]

  /** The result texts after the import sets those parameters that are present and not null:
      `f"{v}"`, with " rad" after θ; the others keep their text. */
  function FourParamTexts(texts: seq<string>, params: map<string, Option<real>>, show: real -> string): (r: seq<string>)
    requires |texts| == 6
    ensures |r| == 6
  {
    seq(6, i requires 0 <= i < 6 =>
      var v := Param(params, FourParamKeys[i]);
      if v.Some? then show(v.value) + (if i == 5 then " rad" else "") else texts[i])
  }

  /**
   * `_import_four_param_data` on the page state: the table is cleared; the source side's
   * reference system selects the ellipsoid when it is one of the combo's entries; with both
   * sides present the table is refilled by the id join; present parameters are shown.
   */
  function ImportFour(v: FourView, data: Config, show: real -> string): (r: FourView)
    requires |v.resultTexts| == 6
    ensures |r.resultTexts| == 6
  {
    var cleared := v.(rows := []);
    var chosen :=
      if data.source.Some? && data.source.value.referenceSystem.Some?
         && data.source.value.referenceSystem.value in FourParamPage.EllipsoidItems
      then cleared.(ellipsoid := data.source.value.referenceSystem.value)
      else cleared;
    var filled :=
      if data.source.Some? && data.target.Some?
      then chosen.(rows := FourRows(PointsOr(data.source.value), PointsOr(data.target.value), data.rmsValues))
      else chosen;
    if data.parameters.Some? then filled.(resultTexts := FourParamTexts(filled.resultTexts, data.parameters.value, show))
    else filled
  }

  /** Every row of the join has four cells and no RMS text. */
  lemma FourRowsFit(src: seq<FilePoint>, tgt: seq<FilePoint>, rmsValues: Option<seq<RmsItem>>)
    ensures FourParamPage.FourColumnRows(FourRows(src, tgt, rmsValues))
  {
    FourRowsJoinIds(src, tgt, rmsValues);
  }

  // ---------------------------------------------------------------------------
  // `_save_four_param_data` and `_save_seven_param_data`: building the file
  // ---------------------------------------------------------------------------

  /** The point object a save writes for table row `i`: id `i + 1` and the texts of the cells
      `offset`, `offset + 1`, ... under `keys`. */
  function SavedPoint(rows: seq<Row>, i: nat, keys: seq<string>, offset: nat): FilePoint
    requires i < |rows|
  {
    FilePoint(Some(i + 1), MapOf(keys, CellsFrom(rows[i], offset, |keys|)))
  }

  /** The texts of `n` consecutive cells of a row from column `offset`. */
  function CellsFrom(row: Row, offset: nat, n: nat): (c: seq<string>)
    ensures |c| == n && forall j :: 0 <= j < n ==> c[j] == Cell(row, offset + j)
  {
    seq(n, j requires 0 <= j < n => Cell(row, offset + j))
  }

  function SavedPoints(rows: seq<Row>, keys: seq<string>, offset: nat): (ps: seq<FilePoint>)
    ensures |ps| == |rows| && forall i :: 0 <= i < |rows| ==> ps[i] == SavedPoint(rows, i, keys, offset)
  {
    seq(|rows|, i requires 0 <= i < |rows| => SavedPoint(rows, i, keys, offset))
  }

  /** The "rms_values" entry of row `i`: the RMS text when the table has a column past
      `rmsColumn` and the row has that item, else null. */
  function SavedRms(rows: seq<Row>, i: nat, columnCount: nat, rmsColumn: nat): RmsItem
    requires i < |rows|
  {
    RmsItem(Some(i + 1), if columnCount > rmsColumn then rows[i].rms else None)
  }

  function SavedRmsValues(rows: seq<Row>, columnCount: nat, rmsColumn: nat): (rs: seq<RmsItem>)
    ensures |rs| == |rows| && forall i :: 0 <= i < |rows| ==> rs[i] == SavedRms(rows, i, columnCount, rmsColumn)
  {
    seq(|rows|, i requires 0 <= i < |rows| => SavedRms(rows, i, columnCount, rmsColumn))
  }

  /** The loop over the table rows that collects the two point lists and the RMS list. */
  method CollectPoints(rows: seq<Row>, srcKeys: seq<string>, tgtKeys: seq<string>, tgtOffset: nat,
                       columnCount: nat, rmsColumn: nat)
    returns (src: seq<FilePoint>, tgt: seq<FilePoint>, rms: seq<RmsItem>)
    ensures src == SavedPoints(rows, srcKeys, 0)
    ensures tgt == SavedPoints(rows, tgtKeys, tgtOffset)
    ensures rms == SavedRmsValues(rows, columnCount, rmsColumn)
  {
    src, tgt, rms := [], [], [];
    var row := 0;
    while row < |rows|
      invariant 0 <= row <= |rows|
      invariant |src| == row && forall i :: 0 <= i < row ==> src[i] == SavedPoint(rows, i, srcKeys, 0)
      invariant |tgt| == row && forall i :: 0 <= i < row ==> tgt[i] == SavedPoint(rows, i, tgtKeys, tgtOffset)
      invariant |rms| == row && forall i :: 0 <= i < row ==> rms[i] == SavedRms(rows, i, columnCount, rmsColumn)
    {
      var item := SavedRms(rows, row, columnCount, rmsColumn);
      src := src + [SavedPoint(rows, row, srcKeys, 0)];
      tgt := tgt + [SavedPoint(rows, row, tgtKeys, tgtOffset)];
      rms := rms + [item];
      row := row + 1;
    }
  }

  /**
   * The "transformation_parameters" object of a save: field `i` read as a number under
   * `keys[i]` (the whole text for `i < splitFrom`, the text's first word otherwise), an empty
   * field giving null; when any field fails to parse, every parameter is null.
   */
  function SavedParams(texts: seq<string>, keys: seq<string>, splitFrom: nat): (m: map<string, Option<real>>)
    requires |texts| == |keys|
    ensures forall k :: k in m <==> k in keys
  {
    var fields := Fields(texts, splitFrom);
    if exists i :: 0 <= i < |fields| && fields[i].Malformed? then MapOf(keys, Nulls(|keys|))
    else MapOf(keys, ParamValues(fields))
  }

  /** Each field read, the whole text or its first word from `splitFrom` on. */
  function Fields(texts: seq<string>, splitFrom: nat): (f: seq<FieldRead>)
    ensures |f| == |texts| && forall i :: 0 <= i < |texts| ==> f[i] == ReadField(texts[i], i >= splitFrom)
  {
    seq(|texts|, i requires 0 <= i < |texts| => ReadField(texts[i], i >= splitFrom))
  }

  /** The parameter value of a field that read cleanly: its number, or null for an empty one. */
  function ParamValues(fields: seq<FieldRead>): (v: seq<Option<real>>)
    ensures |v| == |fields|
    ensures forall i :: 0 <= i < |fields| ==> v[i] == if fields[i].Number? then Some(fields[i].value) else None
  {
    seq(|fields|, i requires 0 <= i < |fields| => if fields[i].Number? then Some(fields[i].value) else None)
  }

  function Nulls(n: nat): (v: seq<Option<real>>)
    ensures |v| == n && forall i :: 0 <= i < n ==> v[i] == None
  {
    seq(n, _ => None)
  }

  /** A save's parameters are all or nothing: one malformed field makes every parameter null. */
  lemma SavedParamsNulled(texts: seq<string>, keys: seq<string>, splitFrom: nat, i: nat, j: nat)
    requires |texts| == |keys| && Distinct(keys) && i < |keys|
    requires j < |texts| && ReadField(texts[j], j >= splitFrom).Malformed?
    ensures SavedParams(texts, keys, splitFrom)[keys[i]] == None
  {
    var fields := Fields(texts, splitFrom);
    assert fields[j].Malformed?;
    MapOfAt(keys, Nulls(|keys|), i);
  }

  /** With no malformed field, each non-empty field gives its number and each empty one null. */
  lemma SavedParamsRead(texts: seq<string>, keys: seq<string>, splitFrom: nat, i: nat)
    requires |texts| == |keys| && Distinct(keys) && i < |keys|
    requires forall j :: 0 <= j < |texts| ==> !ReadField(texts[j], j >= splitFrom).Malformed?
    ensures SavedParams(texts, keys, splitFrom)[keys[i]]
         == (if texts[i] == "" then None else Some(ReadField(texts[i], i >= splitFrom).value))
  {
    var fields := Fields(texts, splitFrom);
    assert forall j :: 0 <= j < |fields| ==> !fields[j].Malformed?;
    MapOfAt(keys, ParamValues(fields), i);
  }

  /** The type and unit a four-parameter save writes for both sides. */
  const PlaneType: string := "平面直角坐标"
  const MetreUnit: string := "米"

  /** `_save_four_param_data`: both sides in plane coordinates with the page's ellipsoid,
      the table's X, Y columns, a null RMS per row (the table has no RMS column) and the six
      parameters. */
  function SaveFour(v: FourView): (data: Config)
    requires |v.resultTexts| == 6
  {
    Config(Some("四参数"),
           Some(Side(Some(PlaneType), Some(MetreUnit), Some(v.ellipsoid), Some(SavedPoints(v.rows, ["X", "Y"], 0)))),
           Some(Side(Some(PlaneType), Some(MetreUnit), Some(v.ellipsoid), Some(SavedPoints(v.rows, ["X", "Y"], 2)))),
           Some(SavedParams(v.resultTexts, FourParamKeys, 5)),
           Some(SavedRmsValues(v.rows, FourParamPage.ColumnCount, 5)))
  }

  /** Row `i` of a save reads back as its own point id `i + 1`. */
  lemma SavedIds(rows: seq<Row>, keys: seq<string>, offset: nat)
    ensures Numbered(SavedPoints(rows, keys, offset), PointId)
  {
  }

  /** Items whose ids are 1, 2, ... in order. */
  predicate Numbered<T>(items: seq<T>, id: T -> Option<int>) {
    forall i :: 0 <= i < |items| ==> IdAt(items, i, id) == i + 1
  }

  /** Items numbered 1, 2, ... in order are each kept under their own number. */
  lemma NumberedKept<T>(items: seq<T>, id: T -> Option<int>, i: nat)
    requires Numbered(items, id) && i < |items|
    ensures i + 1 in ById(items, id) && ById(items, id)[i + 1] == items[i]
  {
    assert forall j :: i < j < |items| ==> IdAt(items, j, id) != IdAt(items, i, id);
    ByIdLastWins(items, id, i);
  }

  /** The ids 1 .. n in order. */
  function UpTo(n: nat): (s: seq<int>)
    ensures |s| == n && forall i :: 0 <= i < n ==> s[i] == i + 1
  {
    seq(n, i => i + 1)
  }

  lemma UpToIncreasing(n: nat)
    ensures Increasing(UpTo(n))
  {
  }

  /** Items numbered 1, 2, ... have the ids 1 .. n. */
  lemma NumberedIdsAre<T>(items: seq<T>, id: T -> Option<int>)
    requires Numbered(items, id)
    ensures Ids(items, id) == UpTo(|items|)
  {
  }

  /** Sorting the ids 1 .. n listed twice gives 1 .. n. */
  lemma SortedTwice(n: nat)
    ensures SortedUnique(UpTo(n) + UpTo(n)) == UpTo(n)
  {
    var ids := SortedUnique(UpTo(n) + UpTo(n));
    UpToIncreasing(n);
    assert forall y :: y in UpTo(n) + UpTo(n) <==> y in UpTo(n);
    IncreasingUnique(ids, UpTo(n));
  }

  /** Both dictionaries of two numbered lists hold every id 1 .. n. */
  lemma NumberedHeld(src: seq<FilePoint>, tgt: seq<FilePoint>)
    requires |src| == |tgt|
    requires Numbered(src, PointId) && Numbered(tgt, PointId)
    ensures forall k :: k in UpTo(|src|) ==> k in ById(src, PointId) && k in ById(tgt, PointId)
  {
    forall k | k in UpTo(|src|)
      ensures k in ById(src, PointId) && k in ById(tgt, PointId)
    {
      NumberedKept(src, PointId, k - 1);
      NumberedKept(tgt, PointId, k - 1);
    }
  }

  /** Two lists numbered 1 .. n give the ids 1 .. n, each held by both dictionaries. */
  lemma NumberedIds(src: seq<FilePoint>, tgt: seq<FilePoint>)
    requires |src| == |tgt|
    requires Numbered(src, PointId) && Numbered(tgt, PointId)
    ensures var ids := SortedUnique(Ids(src, PointId) + Ids(tgt, PointId));
      Common(ids, ById(src, PointId), ById(tgt, PointId)) == UpTo(|src|)
  {
    var n := |src|;
    NumberedIdsAre(src, PointId);
    NumberedIdsAre(tgt, PointId);
    SortedTwice(n);
    NumberedHeld(src, tgt);
    UpToIncreasing(n);
    var c := Common(UpTo(n), ById(src, PointId), ById(tgt, PointId));
    IncreasingUnique(c, UpTo(n));
  }

  /** Two point lists numbered 1, 2, ... join row by row. */
  lemma JoinOfNumbered(src: seq<FilePoint>, tgt: seq<FilePoint>)
    requires |src| == |tgt|
    requires Numbered(src, PointId) && Numbered(tgt, PointId)
    ensures var rows := JoinRows(SortedUnique(Ids(src, PointId) + Ids(tgt, PointId)), ById(src, PointId), ById(tgt, PointId));
      |rows| == |src| && forall i :: 0 <= i < |src| ==> rows[i] == FourRow(src[i], tgt[i])
  {
    NumberedIds(src, tgt);
    var rows := JoinRows(SortedUnique(Ids(src, PointId) + Ids(tgt, PointId)), ById(src, PointId), ById(tgt, PointId));
    forall i | 0 <= i < |src|
      ensures rows[i] == FourRow(src[i], tgt[i])
    {
      NumberedKept(src, PointId, i);
      NumberedKept(tgt, PointId, i);
    }
  }

  /** The join row of a saved row's two points is that row, unticked. */
  lemma SavedFourRow(rows: seq<Row>, i: nat)
    requires i < |rows| && |rows[i].cells| == 4 && rows[i].rms.None?
    ensures FourRow(SavedPoint(rows, i, ["X", "Y"], 0), SavedPoint(rows, i, ["X", "Y"], 2)) == rows[i].(checked := false)
  {
    var keys := ["X", "Y"];
    assert Distinct(keys);
    var c := rows[i].cells;
    var sv, tv := CellsFrom(rows[i], 0, 2), CellsFrom(rows[i], 2, 2);
    MapOfValues(keys, sv);
    MapOfValues(keys, tv);
    assert MapOf(keys, sv)[keys[0]] == c[0] && MapOf(keys, sv)[keys[1]] == c[1];
    assert MapOf(keys, tv)[keys[0]] == c[2] && MapOf(keys, tv)[keys[1]] == c[3];
    assert c == [c[0], c[1], c[2], c[3]];
  }

  /** The join of a saved table's two point lists is the table, unticked. */
  lemma SavedTableJoins(rows: seq<Row>)
    requires FourParamPage.FourColumnRows(rows)
    ensures FourRows(SavedPoints(rows, ["X", "Y"], 0), SavedPoints(rows, ["X", "Y"], 2),
                     Some(SavedRmsValues(rows, FourParamPage.ColumnCount, 5))) == WithChecks(rows, false)
  {
    var src, tgt := SavedPoints(rows, ["X", "Y"], 0), SavedPoints(rows, ["X", "Y"], 2);
    SavedIds(rows, ["X", "Y"], 0);
    SavedIds(rows, ["X", "Y"], 2);
    JoinOfNumbered(src, tgt);
    var joined := FourRows(src, tgt, Some(SavedRmsValues(rows, FourParamPage.ColumnCount, 5)));
    forall i | 0 <= i < |rows|
      ensures joined[i] == rows[i].(checked := false)
    {
      SavedFourRow(rows, i);
    }
  }

  /**
   * Saving the four-parameter page and importing the file back restores the table with
   * every check box cleared, and the ellipsoid.
   */
  lemma SaveThenImportFour(v: FourView, w: FourView, show: real -> string)
    requires |v.resultTexts| == 6 && |w.resultTexts| == 6
    requires v.ellipsoid in FourParamPage.EllipsoidItems && FourParamPage.FourColumnRows(v.rows)
    ensures ImportFour(w, SaveFour(v), show).rows == WithChecks(v.rows, false)
    ensures ImportFour(w, SaveFour(v), show).ellipsoid == v.ellipsoid
  {
    var data := SaveFour(v);
    ImportFourComplete(w, data, show);
    SavedTableJoins(v.rows);
  }

  /** Both sides with a reference system and points: the ellipsoid follows the source side's
      system when the combo has it, and the rows are the join of the two point lists. */
  lemma ImportFourComplete(v: FourView, data: Config, show: real -> string)
    requires |v.resultTexts| == 6
    requires data.source.Some? && data.target.Some? && data.source.value.referenceSystem.Some?
    requires data.source.value.points.Some? && data.target.value.points.Some?
    ensures var r := ImportFour(v, data, show);
      var name := data.source.value.referenceSystem.value;
      r.rows == FourRows(data.source.value.points.value, data.target.value.points.value, data.rmsValues)
      && r.ellipsoid == if name in FourParamPage.EllipsoidItems then name else v.ellipsoid
  {
  }

  // ---------------------------------------------------------------------------
  // `_import_seven_param_data`: pairing the two point lists by position
  // ---------------------------------------------------------------------------

  /** The exception that ends an import early: `KeyError` for a missing key, `IndexError`
      when the target list is shorter than the source list. */
  datatype ImportError = MissingKey | MissingPoint

  /** The keys of one side's three coordinates. */
  type CoordNames = keys: seq<string> | |keys| == 3 witness ["B", "L", "H"]

  function CoordKeys(isBlh: bool): CoordNames {
    if isBlh then ["B", "L", "H"] else ["X", "Y", "Z"]
  }

  /** The values `point[k]` for the three keys in order, up to the first key the point lacks. */
  function Lookups(p: FilePoint, keys: CoordNames): (vals: seq<string>)
    ensures |vals| <= 3
    ensures |vals| == 3 <==> keys[0] in p.coords && keys[1] in p.coords && keys[2] in p.coords
    ensures forall j :: 0 <= j < |vals| ==> keys[j] in p.coords && vals[j] == p.coords[keys[j]]
  {
    if keys[0] !in p.coords then []
    else if keys[1] !in p.coords then [p.coords[keys[0]]]
    else if keys[2] !in p.coords then [p.coords[keys[0]], p.coords[keys[1]]]
    else [p.coords[keys[0]], p.coords[keys[1]], p.coords[keys[2]]]
  }

  /** A row whose later cells were never set: the missing items read as `""`. */
  function Padded(vals: seq<string>, n: nat): (r: seq<string>)
    requires |vals| <= n
    ensures |r| == n && forall j :: 0 <= j < n ==> r[j] == if j < |vals| then vals[j] else ""
  {
    vals + seq(n - |vals|, _ => "")
  }

  /** `data['rms_values'][i].get('rms')` when the list has an entry `i`. */
  function ImportedRms(rmsValues: Option<seq<RmsItem>>, i: nat): Option<string> {
    if rmsValues.Some? && i < |rmsValues.value| then rmsValues.value[i].rms else None
  }

  /** What the point loop of a seven-parameter import works on. */
  datatype PointLists = PointLists(src: seq<FilePoint>, tgt: seq<FilePoint>, srcKeys: CoordNames, tgtKeys: CoordNames,
                                   rmsValues: Option<seq<RmsItem>>)

  /**
   * Row `i` of the point loop: the row is inserted unticked, then filled from source point
   * `i` and target point `i`; a missing key or a missing target point stops the loop with
   * the cells set so far.
   */
  function SevenRow(p: PointLists, i: nat): (r: (Row, Option<ImportError>))
    requires i < |p.src|
    ensures |r.0.cells| == 6 && !r.0.checked
    ensures r.1.None? <==> i < |p.tgt| && |Lookups(p.src[i], p.srcKeys)| == 3
                           && |Lookups(p.tgt[i], p.tgtKeys)| == 3
  {
    var s := Lookups(p.src[i], p.srcKeys);
    if |s| < 3 then (Row(false, Padded(s, 6), None), Some(MissingKey))
    else if i >= |p.tgt| then (Row(false, Padded(s, 6), None), Some(MissingPoint))
    else
      var t := Lookups(p.tgt[i], p.tgtKeys);
      if |t| < 3 then (Row(false, Padded(s + t, 6), None), Some(MissingKey))
      else (Row(false, s + t, ImportedRms(p.rmsValues, i)), None)
  }

  /** The rows the loop appends from index `i` on, and the exception that stopped it. */
  function SevenRowsFrom(p: PointLists, i: nat): (r: (seq<Row>, Option<ImportError>))
    requires i <= |p.src|
    ensures forall k :: 0 <= k < |r.0| ==> |r.0[k].cells| == 6
    decreases |p.src| - i
  {
    if i == |p.src| then ([], None)
    else
      var (row, err) := SevenRow(p, i);
      if err.Some? then ([row], err)
      else
        var (rest, e) := SevenRowsFrom(p, i + 1);
        ([row] + rest, e)
  }

  /** The loop `for i in range(len(source_points))`. */
  method FillSevenTable(p: PointLists) returns (rows: seq<Row>, err: Option<ImportError>)
    ensures (rows, err) == SevenRowsFrom(p, 0)
  {
    rows := [];
    var i := 0;
    assert SevenRowsFrom(p, 0).0 == rows + SevenRowsFrom(p, 0).0;
    while i < |p.src|
      invariant 0 <= i <= |p.src|
      invariant SevenRowsFrom(p, 0).0 == rows + SevenRowsFrom(p, i).0
      invariant SevenRowsFrom(p, 0).1 == SevenRowsFrom(p, i).1
    {
      var (row, e) := SevenRow(p, i);
      rows := rows + [row];
      if e.Some? {
        return rows, e;
      }
      assert SevenRowsFrom(p, i).0 == [row] + SevenRowsFrom(p, i + 1).0;
      i := i + 1;
    }
    assert rows + SevenRowsFrom(p, i).0 == rows;
    err := None;
  }

  /** The rows `SevenRow` gives for the indices `j .. m - 1`. */
  function RowsBetween(p: PointLists, j: nat, m: nat): (rows: seq<Row>)
    requires j <= m <= |p.src|
    ensures |rows| == m - j && forall k :: 0 <= k < m - j ==> rows[k] == SevenRow(p, j + k).0
    decreases m - j
  {
    if j == m then [] else [SevenRow(p, j).0] + RowsBetween(p, j + 1, m)
  }

  /** While the rows `j .. m - 1` are complete, the loop appends them one by one. */
  lemma {:induction false} CompletePrefix(p: PointLists, j: nat, m: nat)
    requires j <= m <= |p.src|
    requires forall i :: j <= i < m ==> SevenRow(p, i).1.None?
    ensures SevenRowsFrom(p, j).0 == RowsBetween(p, j, m) + SevenRowsFrom(p, m).0
    ensures SevenRowsFrom(p, j).1 == SevenRowsFrom(p, m).1
    decreases m - j
  {
    if j < m {
      CompletePrefix(p, j + 1, m);
      SevenRowsStep(p, j);
      RowsBetweenStep(p, j, m);
      ConsAppend(SevenRow(p, j).0, RowsBetween(p, j + 1, m), SevenRowsFrom(p, m).0);
    }
  }

  /** A complete row `j` is appended, and the loop goes on at `j + 1`. */
  lemma SevenRowsStep(p: PointLists, j: nat)
    requires j < |p.src| && SevenRow(p, j).1.None?
    ensures SevenRowsFrom(p, j).0 == [SevenRow(p, j).0] + SevenRowsFrom(p, j + 1).0
    ensures SevenRowsFrom(p, j).1 == SevenRowsFrom(p, j + 1).1
  {
  }

  lemma RowsBetweenStep(p: PointLists, j: nat, m: nat)
    requires j < m <= |p.src|
    ensures RowsBetween(p, j, m) == [SevenRow(p, j).0] + RowsBetween(p, j + 1, m)
  {
  }

  lemma ConsAppend<T>(a: T, between: seq<T>, rest: seq<T>)
    ensures [a] + (between + rest) == ([a] + between) + rest
  {
  }

  /** The row a complete pair gives: source texts, target texts and the RMS text of entry `i`. */
  function PairedRow(p: PointLists, i: nat): Row
    requires i < |p.src| && i < |p.tgt|
  {
    Row(false, Lookups(p.src[i], p.srcKeys) + Lookups(p.tgt[i], p.tgtKeys),
        ImportedRms(p.rmsValues, i))
  }

  /** Two lists of complete points, the target list at least as long: one row per source
      point, pairing it with the target point at the same position; extra target points
      are ignored. */
  lemma SevenRowsPaired(p: PointLists)
    requires |p.src| <= |p.tgt|
    requires forall i :: 0 <= i < |p.src| ==>
      |Lookups(p.src[i], p.srcKeys)| == 3 && |Lookups(p.tgt[i], p.tgtKeys)| == 3
    ensures SevenRowsFrom(p, 0).1 == None
    ensures |SevenRowsFrom(p, 0).0| == |p.src|
    ensures forall i :: 0 <= i < |p.src| ==> SevenRowsFrom(p, 0).0[i] == PairedRow(p, i)
  {
    CompletePrefix(p, 0, |p.src|);
    assert RowsBetween(p, 0, |p.src|) + [] == RowsBetween(p, 0, |p.src|);
  }

  /** When every pairing row is known in advance, the point loop produces exactly those rows. */
  lemma PairedRowsAre(p: PointLists, want: seq<Row>)
    requires |p.src| <= |p.tgt| && |want| == |p.src|
    requires forall i :: 0 <= i < |p.src| ==>
      |Lookups(p.src[i], p.srcKeys)| == 3 && |Lookups(p.tgt[i], p.tgtKeys)| == 3
    requires forall i :: 0 <= i < |p.src| ==> PairedRow(p, i) == want[i]
    ensures SevenRowsFrom(p, 0).0 == want && SevenRowsFrom(p, 0).1 == None
  {
    SevenRowsPaired(p);
    var rows := SevenRowsFrom(p, 0).0;
    assert |rows| == |want| && forall i :: 0 <= i < |rows| ==> rows[i] == want[i];
  }

  /** A target list shorter than the source list ends the import with `IndexError`, after a
      row holding only the source texts of the first unmatched point. */
  lemma ShortTargetStops(p: PointLists)
    requires |p.tgt| < |p.src|
    requires forall i :: 0 <= i <= |p.tgt| ==> |Lookups(p.src[i], p.srcKeys)| == 3
    requires forall i :: 0 <= i < |p.tgt| ==> |Lookups(p.tgt[i], p.tgtKeys)| == 3
    ensures SevenRowsFrom(p, 0).1 == Some(MissingPoint)
    ensures |SevenRowsFrom(p, 0).0| == |p.tgt| + 1
    ensures forall i :: 0 <= i < |p.tgt| ==> SevenRowsFrom(p, 0).0[i] == PairedRow(p, i)
    ensures SevenRowsFrom(p, 0).0[|p.tgt|] == Row(false, Padded(Lookups(p.src[|p.tgt|], p.srcKeys), 6), None)
  {
    CompletePrefix(p, 0, |p.tgt|);
  }

  /** The state of the seven-parameter page that import and save touch. */
  datatype SevenView = SevenView(rows: seq<Row>, sourceIsBlh: bool, targetIsBlh: bool,
                                 sourceUnit: SevenParamPage.AngleUnit, targetUnit: SevenParamPage.AngleUnit,
                                 sourceSystem: string, targetSystem: string, resultTexts: seq<string>)

  function SevenViewOf(p: SevenParamPage.Page): SevenView
    reads p
  {
    SevenView(p.rows, p.sourceIsBlh, p.targetIsBlh, p.sourceUnit, p.targetUnit, p.sourceSystem, p.targetSystem,
              p.resultTexts)
  }

  /** `setCurrentText` on a unit combo: the matching entry, else the current one. */
  function UnitAfter(current: SevenParamPage.AngleUnit, text: string): (u: SevenParamPage.AngleUnit)
    ensures u == current || SevenParamPage.UnitText(u) == text
    ensures SevenParamPage.UnitText(current) == text ==> u == current
  {
    if text == SevenParamPage.UnitText(SevenParamPage.DegMinSec) then SevenParamPage.DegMinSec
    else if text == SevenParamPage.UnitText(SevenParamPage.Degree) then SevenParamPage.Degree
    else current
  }

  /** `setCurrentText` on a reference-system combo: the text when it is an entry, else the
      current entry. */
  function SystemAfter(current: string, text: string): (r: string)
    ensures current in SevenParamPage.SystemItems ==> r in SevenParamPage.SystemItems
    ensures r == text || r == current
    ensures r == text <==> text in SevenParamPage.SystemItems || text == current
  {
    if text in SevenParamPage.SystemItems then text else current
  }

  /** The keys of "transformation_parameters" in a seven-parameter file, in field order. */
  const SevenParamKeys: seq<string> := ["DX", "DY", "DZ", "WX", "WY", "WZ", "K"]

  /** The suffix after parameter `i`: the three rotations are in radians, the rest " m". */
  function SevenSuffix(i: nat): string {
    if 3 <= i < 6 then " rad" else " m"
  }

  /** The result texts after the import shows those parameters that are present and not
      null: `f"{v:.8f}"` and the suffix; the others keep their text. */
  function SevenParamTexts(texts: seq<string>, params: map<string, Option<real>>, fmt8: real -> string): (r: seq<string>)
    requires |texts| == 7
    ensures |r| == 7
  {
    seq(7, i requires 0 <= i < 7 =>
      var v := Param(params, SevenParamKeys[i]);
      if v.Some? then fmt8(v.value) + SevenSuffix(i) else texts[i])
  }

  function ShowSevenParams(v: SevenView, data: Config, fmt8: real -> string): (r: SevenView)
    requires |v.resultTexts| == 7
    ensures |r.resultTexts| == 7
    ensures r == v.(resultTexts := r.resultTexts)
  {
    if data.parameters.Some? then v.(resultTexts := SevenParamTexts(v.resultTexts, data.parameters.value, fmt8)) else v
  }

  /** The text appended to a file's reference system to name a combo entry. */
  const SystemSuffix: string := "坐标系"

  /**
   * `_import_seven_param_data` on the page state, with the exception that stops it: the
   * table is cleared; with both sides present the radio buttons, the unit combos and the
   * system combos are set in that order, each step needing both sides' key, then the point
   * loop runs; the parameters are shown only when nothing stopped the import before them.
   */
  function ImportSeven(v: SevenView, data: Config, fmt8: real -> string): (r: (SevenView, Option<ImportError>))
    requires |v.resultTexts| == 7
    ensures |r.0.resultTexts| == 7
  {
    var v0 := v.(rows := []);
    if data.source.None? || data.target.None? then (ShowSevenParams(v0, data, fmt8), None)
    else
      var s, t := data.source.value, data.target.value;
      var (v3, e) := SevenSettings(v0, s, t);
      if e.Some? then (v3, e)
      else if s.points.None? || t.points.None? then (v3, Some(MissingKey))
      else
        var filled := SevenRowsFrom(PointLists(s.points.value, t.points.value,
                                               CoordKeys(v3.sourceIsBlh), CoordKeys(v3.targetIsBlh),
                                               data.rmsValues), 0);
        var v4 := v3.(rows := filled.0);
        if filled.1.Some? then (v4, filled.1) else (ShowSevenParams(v4, data, fmt8), None)
  }

  /** The statements of `_import_seven_param_data` that set the radio buttons and the combos. */
  method ApplySevenSettings(v0: SevenView, s: Side, t: Side) returns (v: SevenView, err: Option<ImportError>)
    ensures (v, err) == SevenSettings(v0, s, t)
  {
    v, err := v0, None;
    if s.kind.None? || t.kind.None? {
      return v, Some(MissingKey);
    }
    v := v.(sourceIsBlh := s.kind.value == "BLH", targetIsBlh := t.kind.value == "BLH");
    if s.unit.None? || t.unit.None? {
      return v, Some(MissingKey);
    }
    v := v.(sourceUnit := UnitAfter(v.sourceUnit, s.unit.value), targetUnit := UnitAfter(v.targetUnit, t.unit.value));
    if s.referenceSystem.None? || t.referenceSystem.None? {
      return v, Some(MissingKey);
    }
    v := v.(sourceSystem := SystemAfter(v.sourceSystem, s.referenceSystem.value + SystemSuffix),
            targetSystem := SystemAfter(v.targetSystem, t.referenceSystem.value + SystemSuffix));
  }

  /**
   * The radio buttons, then the unit combos, then the system combos, each step reading
   * both sides' key first; a missing key stops the steps with `KeyError`. The table and
   * the result fields are not touched, and the system combos keep to their entries.
   */
  function SevenSettings(v: SevenView, s: Side, t: Side): (r: (SevenView, Option<ImportError>))
    ensures r.0.rows == v.rows && r.0.resultTexts == v.resultTexts
    ensures r.1.None? || r.1 == Some(MissingKey)
    ensures r.1.None? <==> s.kind.Some? && t.kind.Some? && s.unit.Some? && t.unit.Some?
                           && s.referenceSystem.Some? && t.referenceSystem.Some?
    ensures v.sourceSystem in SevenParamPage.SystemItems && v.targetSystem in SevenParamPage.SystemItems ==>
      r.0.sourceSystem in SevenParamPage.SystemItems && r.0.targetSystem in SevenParamPage.SystemItems
  {
    if s.kind.None? || t.kind.None? then (v, Some(MissingKey))
    else
      var v1 := v.(sourceIsBlh := s.kind.value == "BLH", targetIsBlh := t.kind.value == "BLH");
      if s.unit.None? || t.unit.None? then (v1, Some(MissingKey))
      else
        var v2 := v1.(sourceUnit := UnitAfter(v1.sourceUnit, s.unit.value),
                      targetUnit := UnitAfter(v1.targetUnit, t.unit.value));
        if s.referenceSystem.None? || t.referenceSystem.None? then (v2, Some(MissingKey))
        else
          (v2.(sourceSystem := SystemAfter(v2.sourceSystem, s.referenceSystem.value + SystemSuffix),
               targetSystem := SystemAfter(v2.targetSystem, t.referenceSystem.value + SystemSuffix)), None)
  }

  /** Both sides with every key: the settings come from the file and the rows from the
      point loop, which alone decides whether the import stops. */
  lemma ImportSevenComplete(v: SevenView, data: Config, fmt8: real -> string)
    requires |v.resultTexts| == 7
    requires data.source.Some? && data.target.Some?
    requires var s, t := data.source.value, data.target.value;
      s.kind.Some? && t.kind.Some? && s.unit.Some? && t.unit.Some?
      && s.referenceSystem.Some? && t.referenceSystem.Some? && s.points.Some? && t.points.Some?
    ensures var s, t := data.source.value, data.target.value;
      var r := ImportSeven(v, data, fmt8);
      var filled := SevenRowsFrom(PointLists(s.points.value, t.points.value,
                                             CoordKeys(s.kind.value == "BLH"), CoordKeys(t.kind.value == "BLH"),
                                             data.rmsValues), 0);
      r.1 == filled.1 && r.0.rows == filled.0
      && r.0.sourceIsBlh == (s.kind.value == "BLH") && r.0.targetIsBlh == (t.kind.value == "BLH")
      && r.0.sourceUnit == UnitAfter(v.sourceUnit, s.unit.value)
      && r.0.targetUnit == UnitAfter(v.targetUnit, t.unit.value)
      && r.0.sourceSystem == SystemAfter(v.sourceSystem, s.referenceSystem.value + SystemSuffix)
      && r.0.targetSystem == SystemAfter(v.targetSystem, t.referenceSystem.value + SystemSuffix)
  {
  }

  /** An imported table keeps the page's six-cell rows and its systems among the entries. */
  lemma ImportSevenFits(v: SevenView, data: Config, fmt8: real -> string)
    requires |v.resultTexts| == 7
    requires v.sourceSystem in SevenParamPage.SystemItems && v.targetSystem in SevenParamPage.SystemItems
    ensures var r := ImportSeven(v, data, fmt8).0;
      r.sourceSystem in SevenParamPage.SystemItems && r.targetSystem in SevenParamPage.SystemItems
      && forall i :: 0 <= i < |r.rows| ==> |r.rows[i].cells| == 6
  {
    var v0 := v.(rows := []);
    if data.source.Some? && data.target.Some? {
      var s, t := data.source.value, data.target.value;
      var settled := SevenSettings(v0, s, t);
      if settled.1.None? && s.points.Some? && t.points.Some? {
        var v3 := settled.0;
        var filled := SevenRowsFrom(PointLists(s.points.value, t.points.value,
                                               CoordKeys(v3.sourceIsBlh), CoordKeys(v3.targetIsBlh),
                                               data.rmsValues), 0);
        var v4 := v3.(rows := filled.0);
        assert v4.sourceSystem in SevenParamPage.SystemItems && v4.targetSystem in SevenParamPage.SystemItems;
      }
    }
  }

  // ---------------------------------------------------------------------------
  // `_save_seven_param_data`
  // ---------------------------------------------------------------------------

  /** `str.replace(k, "")`: every occurrence of `k`, scanning from the left, removed. */
  function RemoveAll(s: string, k: string): string
    requires |k| > 0
    decreases |s|
  {
    if |s| >= |k| && s[..|k|] == k then RemoveAll(s[|k|..], k)
    else if s == [] then []
    else [s[0]] + RemoveAll(s[1..], k)
  }

  /** Removing `k` from `y + k` leaves `y` when no character of `y` starts `k`. */
  lemma {:induction false} RemoveAllSuffix(y: string, k: string)
    requires |k| > 0
    requires forall i :: 0 <= i < |y| ==> y[i] != k[0]
    ensures RemoveAll(y + k, k) == y
  {
    if y == [] {
      assert ([] + k)[|k|..] == [];
    } else {
      var s := y + k;
      assert s[0] == y[0] != k[0];
      assert s[1..] == y[1..] + k;
      RemoveAllSuffix(y[1..], k);
    }
  }

  /** The two entries of a reference-system combo lose their suffix on saving, and gain it
      back on importing. */
  lemma SystemNamesRoundTrip(entry: string)
    requires entry in SevenParamPage.SystemItems
    ensures RemoveAll(entry, SystemSuffix) + SystemSuffix == entry
  {
    if entry == "WGS-84坐标系" {
      assert entry == "WGS-84" + SystemSuffix;
      RemoveAllSuffix("WGS-84", SystemSuffix);
    } else {
      assert entry == "北京54" + SystemSuffix;
      RemoveAllSuffix("北京54", SystemSuffix);
    }
  }

  function SideType(isBlh: bool): string {
    if isBlh then "BLH" else "XYZ"
  }

  /** `_save_seven_param_data`: each side's type, unit text, system name without its
      suffix and the point columns, one RMS entry per row, and the seven parameters. */
  function SaveSeven(v: SevenView): (data: Config)
    requires |v.resultTexts| == 7
  {
    Config(Some("七参数"),
           Some(Side(Some(SideType(v.sourceIsBlh)), Some(SevenParamPage.UnitText(v.sourceUnit)),
                     Some(RemoveAll(v.sourceSystem, SystemSuffix)), Some(SavedPoints(v.rows, CoordKeys(v.sourceIsBlh), 0)))),
           Some(Side(Some(SideType(v.targetIsBlh)), Some(SevenParamPage.UnitText(v.targetUnit)),
                     Some(RemoveAll(v.targetSystem, SystemSuffix)), Some(SavedPoints(v.rows, CoordKeys(v.targetIsBlh), 3)))),
           Some(SavedParams(v.resultTexts, SevenParamKeys, 0)),
           Some(SavedRmsValues(v.rows, SevenParamPage.ColumnCount, 7)))
  }

  /** A saved point has every key it was saved under, holding the cells under them. */
  lemma SavedLookups(rows: seq<Row>, i: nat, keys: CoordNames, offset: nat)
    requires i < |rows| && offset + 3 <= |rows[i].cells| && Distinct(keys)
    ensures Lookups(SavedPoint(rows, i, keys, offset), keys) == rows[i].cells[offset..offset + 3]
  {
    var cells := CellsFrom(rows[i], offset, 3);
    var m := MapOf(keys, cells);
    MapOfValues(keys, cells);
    assert m[keys[0]] == cells[0] && m[keys[1]] == cells[1] && m[keys[2]] == cells[2];
    assert SavedPoint(rows, i, keys, offset) == FilePoint(Some(i + 1), m);
    assert cells == rows[i].cells[offset..offset + 3];
  }

  lemma CoordKeysDistinct(isBlh: bool)
    ensures |CoordKeys(isBlh)| == 3 && Distinct(CoordKeys(isBlh))
  {
  }

  /** The two points saved from a six-cell row look up to that row's texts again. */
  lemma SavedRowLookups(rows: seq<Row>, i: nat, sk: CoordNames, tk: CoordNames)
    requires i < |rows| && |rows[i].cells| == 6 && Distinct(sk) && Distinct(tk)
    ensures Lookups(SavedPoint(rows, i, sk, 0), sk) + Lookups(SavedPoint(rows, i, tk, 3), tk) == rows[i].cells
  {
    var front, back := Lookups(SavedPoint(rows, i, sk, 0), sk), Lookups(SavedPoint(rows, i, tk, 3), tk);
    assert front == rows[i].cells[0..3] by { SavedLookups(rows, i, sk, 0); }
    assert back == rows[i].cells[3..6] by { SavedLookups(rows, i, tk, 3); }
    Halves(rows[i].cells, front, back);
  }

  /** A six-element sequence is its first three elements followed by its last three. */
  lemma Halves(c: seq<string>, front: seq<string>, back: seq<string>)
    requires |c| == 6 && front == c[0..3] && back == c[3..6]
    ensures front + back == c
  {
    assert c == c[0..3] + c[3..6];
  }

  /** The point lists and RMS list a seven-parameter save writes, as the import reads them. */
  function SavedLists(v: SevenView): PointLists {
    PointLists(SavedPoints(v.rows, CoordKeys(v.sourceIsBlh), 0), SavedPoints(v.rows, CoordKeys(v.targetIsBlh), 3),
               CoordKeys(v.sourceIsBlh), CoordKeys(v.targetIsBlh), Some(SavedRmsValues(v.rows, SevenParamPage.ColumnCount, 7)))
  }

  /** Each saved row pairs into itself. */
  lemma SavedPairRow(v: SevenView, i: nat)
    requires i < |v.rows| && |v.rows[i].cells| == 6
    ensures var p := SavedLists(v);
      |Lookups(p.src[i], p.srcKeys)| == 3 && |Lookups(p.tgt[i], p.tgtKeys)| == 3 && PairedRow(p, i) == v.rows[i].(checked := false)
  {
    var p := SavedLists(v);
    CoordKeysDistinct(v.sourceIsBlh);
    CoordKeysDistinct(v.targetIsBlh);
    assert p.src[i] == SavedPoint(v.rows, i, p.srcKeys, 0) && p.tgt[i] == SavedPoint(v.rows, i, p.tgtKeys, 3);
    assert ImportedRms(p.rmsValues, i) == v.rows[i].rms;
    SavedRowLookups(v.rows, i, p.srcKeys, p.tgtKeys);
  }

  /** The point loop over a saved table pairs every row with itself. */
  lemma SavedTablePairs(v: SevenView)
    requires forall i :: 0 <= i < |v.rows| ==> |v.rows[i].cells| == 6
    ensures SevenRowsFrom(SavedLists(v), 0).0 == WithChecks(v.rows, false) && SevenRowsFrom(SavedLists(v), 0).1 == None
  {
    var p := SavedLists(v);
    var want := WithChecks(v.rows, false);
    forall i | 0 <= i < |v.rows|
      ensures |Lookups(p.src[i], p.srcKeys)| == 3 && |Lookups(p.tgt[i], p.tgtKeys)| == 3
      ensures PairedRow(p, i) == want[i]
    {
      SavedPairRow(v, i);
    }
    PairedRowsAre(p, want);
  }

  /**
   * Saving the seven-parameter page and importing the file back, onto any page state,
   * completes without an exception and restores the table with every check box cleared
   * and the RMS texts kept, both coordinate types, both units and both reference systems.
   */
  lemma SaveThenImportSeven(v: SevenView, w: SevenView, fmt8: real -> string)
    requires |v.resultTexts| == 7 && |w.resultTexts| == 7
    requires forall i :: 0 <= i < |v.rows| ==> |v.rows[i].cells| == 6
    requires v.sourceSystem in SevenParamPage.SystemItems && v.targetSystem in SevenParamPage.SystemItems
    ensures var r := ImportSeven(w, SaveSeven(v), fmt8);
      r.1 == None && r.0.rows == WithChecks(v.rows, false)
      && r.0.sourceIsBlh == v.sourceIsBlh && r.0.targetIsBlh == v.targetIsBlh
      && r.0.sourceUnit == v.sourceUnit && r.0.targetUnit == v.targetUnit
      && r.0.sourceSystem == v.sourceSystem && r.0.targetSystem == v.targetSystem
  {
    var data := SaveSeven(v);
    assert (SideType(v.sourceIsBlh) == "BLH") == v.sourceIsBlh;
    assert (SideType(v.targetIsBlh) == "BLH") == v.targetIsBlh;
    assert data.rmsValues == SavedLists(v).rmsValues;
    ImportSevenComplete(w, data, fmt8);
    SavedTablePairs(v);
    SystemNamesRoundTrip(v.sourceSystem);
    SystemNamesRoundTrip(v.targetSystem);
  }

  // ---------------------------------------------------------------------------
  // The window
  // ---------------------------------------------------------------------------

  /** `ellipsoid_combo.findText(text)`: the first entry equal to `text`, or -1. */
  function FindText(items: seq<string>, text: string): (i: int)
    ensures -1 <= i < |items|
    ensures i == -1 <==> text !in items
    ensures i >= 0 ==> items[i] == text && forall j :: 0 <= j < i ==> items[j] != text
  {
    if items == [] then -1
    else if items[0] == text then 0
    else
      var k := FindText(items[1..], text);
      if k == -1 then -1 else k + 1
  }

  /** The `ValueError` `on_save_clicked` raises for a parameter type it does not know. */
  datatype SaveError = UnknownParamType(paramType: string)

  /** The main window: its tab widget with the seven-parameter page on tab 0 and the
      four-parameter page on tab 1 (the transformation page, tab 2, is not touched here). */
  class Window {
    const seven: SevenParamPage.Page
    const four: FourParamPage.Page
    /** `tab_widget.currentIndex()`. */
    var currentTab: nat

    ghost predicate Valid()
      reads this, seven, four
    {
      seven.Valid() && four.Valid() && currentTab < 3
    }

    /** `setup_ui`: both pages freshly built, the first tab shown. */
    constructor ()
      ensures Valid() && currentTab == 0 && fresh(seven) && fresh(four)
      ensures SevenViewOf(seven).rows == [] && FourViewOf(four).rows == []
    {
      seven := new SevenParamPage.Page();
      four := new FourParamPage.Page();
      currentTab := 0;
    }

    /** Writes a page state into the widgets of tab 0. */
    method PutSeven(v: SevenView)
      modifies seven
      ensures SevenViewOf(seven) == v
      ensures seven.editingRow == old(seven.editingRow) && seven.inputs == old(seven.inputs)
    {
      seven.rows, seven.sourceIsBlh, seven.targetIsBlh := v.rows, v.sourceIsBlh, v.targetIsBlh;
      seven.sourceUnit, seven.targetUnit := v.sourceUnit, v.targetUnit;
      seven.sourceSystem, seven.targetSystem, seven.resultTexts := v.sourceSystem, v.targetSystem, v.resultTexts;
    }

    /** Writes a page state into the widgets of tab 1. */
    method PutFour(v: FourView)
      modifies four
      ensures FourViewOf(four) == v
      ensures four.editingRow == old(four.editingRow) && four.inputs == old(four.inputs)
    {
      four.rows, four.ellipsoid, four.resultTexts := v.rows, v.ellipsoid, v.resultTexts;
    }

    /** `_import_seven_param_data`: switches to tab 0 and updates the page step by step,
        leaving it as far as it got when a key or a target point is missing. */
    method ImportSevenParamData(data: Config, fmt8: real -> string) returns (err: Option<ImportError>)
      requires Valid()
      modifies this, seven
      ensures Valid() && currentTab == 0
      ensures (SevenViewOf(seven), err) == ImportSeven(old(SevenViewOf(seven)), data, fmt8)
      ensures seven.editingRow == old(seven.editingRow) && seven.inputs == old(seven.inputs)
    {
      ImportSevenFits(SevenViewOf(seven), data, fmt8);
      currentTab := 0;
      var v := SevenViewOf(seven).(rows := []);
      err := None;
      if data.source.Some? && data.target.Some? {
        var s, t := data.source.value, data.target.value;
        v, err := ApplySevenSettings(v, s, t);
        if err.None? {
          if s.points.None? || t.points.None? {
            err := Some(MissingKey);
          } else {
            var p := PointLists(s.points.value, t.points.value, CoordKeys(v.sourceIsBlh), CoordKeys(v.targetIsBlh),
                                data.rmsValues);
            var rows;
            rows, err := FillSevenTable(p);
            v := v.(rows := rows);
          }
        }
      }
      if err.None? {
        v := ShowSevenParams(v, data, fmt8);
      }
      PutSeven(v);
    }

    /** `_import_four_param_data`: switches to tab 1, clears the table, selects the ellipsoid,
        refills the table by the id join and shows the parameters. */
    method ImportFourParamData(data: Config, show: real -> string)
      requires Valid()
      modifies this, four
      ensures Valid() && currentTab == 1
      ensures FourViewOf(four) == ImportFour(old(FourViewOf(four)), data, show)
      ensures four.editingRow == old(four.editingRow) && four.inputs == old(four.inputs)
    {
      currentTab := 1;
      var v := FourViewOf(four).(rows := []);
      if data.source.Some? && data.source.value.referenceSystem.Some? {
        var index := FindText(FourParamPage.EllipsoidItems, data.source.value.referenceSystem.value);
        if index >= 0 {
          v := v.(ellipsoid := FourParamPage.EllipsoidItems[index]);
        }
      }
      if data.source.Some? && data.target.Some? {
        var src, tgt := PointsOr(data.source.value), PointsOr(data.target.value);
        var ids := SortedUnique(Ids(src, PointId) + Ids(tgt, PointId));
        var rows := FillFourTable(ids, ById(src, PointId), ById(tgt, PointId));
        if data.rmsValues.Some? {
          rows := PlaceRms(rows, ById(data.rmsValues.value, RmsId), FourParamPage.ColumnCount);
        }
        FourRowsFit(src, tgt, data.rmsValues);
        v := v.(rows := rows);
      }
      if data.parameters.Some? {
        v := v.(resultTexts := FourParamTexts(v.resultTexts, data.parameters.value, show));
      }
      PutFour(v);
    }

    /**
     * `on_import_clicked` after the file is decoded: a "config_type" of "四参数" goes to the
     * four-parameter page; "七参数", any other value and a missing key go to the
     * seven-parameter page. The other page is left as it was.
     */
    method OnImportClicked(data: Config, fmt8: real -> string, show: real -> string) returns (err: Option<ImportError>)
      requires Valid()
      modifies this, seven, four
      ensures Valid()
      ensures data.configType == Some("四参数") ==>
        currentTab == 1 && err == None && FourViewOf(four) == ImportFour(old(FourViewOf(four)), data, show)
        && SevenViewOf(seven) == old(SevenViewOf(seven))
      ensures data.configType != Some("四参数") ==>
        currentTab == 0 && (SevenViewOf(seven), err) == ImportSeven(old(SevenViewOf(seven)), data, fmt8)
        && FourViewOf(four) == old(FourViewOf(four))
    {
      if data.configType == Some("四参数") {
        ImportFourParamData(data, show);
        err := None;
      } else {
        err := ImportSevenParamData(data, fmt8);
      }
    }

    /** `_save_seven_param_data`: the file contents built from tab 0. */
    method SaveSevenParamData() returns (data: Config)
      requires Valid()
      ensures data == SaveSeven(SevenViewOf(seven))
    {
      var src, tgt, rms := CollectPoints(seven.rows, CoordKeys(seven.sourceIsBlh), CoordKeys(seven.targetIsBlh), 3,
                                         SevenParamPage.ColumnCount, 7);
      var source := Side(Some(SideType(seven.sourceIsBlh)), Some(SevenParamPage.UnitText(seven.sourceUnit)),
                         Some(RemoveAll(seven.sourceSystem, SystemSuffix)), Some(src));
      var target := Side(Some(SideType(seven.targetIsBlh)), Some(SevenParamPage.UnitText(seven.targetUnit)),
                         Some(RemoveAll(seven.targetSystem, SystemSuffix)), Some(tgt));
      data := Config(Some("七参数"), Some(source), Some(target), Some(SavedParams(seven.resultTexts, SevenParamKeys, 0)),
                     Some(rms));
    }

    /** `_save_four_param_data`: the file contents built from tab 1. */
    method SaveFourParamData() returns (data: Config)
      requires Valid()
      ensures data == SaveFour(FourViewOf(four))
    {
      var src, tgt, rms := CollectPoints(four.rows, ["X", "Y"], ["X", "Y"], 2, FourParamPage.ColumnCount, 5);
      data := Config(Some("四参数"),
                     Some(Side(Some(PlaneType), Some(MetreUnit), Some(four.ellipsoid), Some(src))),
                     Some(Side(Some(PlaneType), Some(MetreUnit), Some(four.ellipsoid), Some(tgt))),
                     Some(SavedParams(four.resultTexts, FourParamKeys, 5)), Some(rms));
    }

    /** `on_save_clicked` after a file was chosen: the contents for the selected parameter
        type, or the `ValueError` for any other type. */
    method OnSaveClicked(paramType: string) returns (r: Result<Config, SaveError>)
      requires Valid()
      ensures paramType == "七参数" ==> r == Ok(SaveSeven(SevenViewOf(seven)))
      ensures paramType == "四参数" ==> r == Ok(SaveFour(FourViewOf(four)))
      ensures paramType != "七参数" && paramType != "四参数" ==> r == Err(UnknownParamType(paramType))
    {
      if paramType == "七参数" {
        var data := SaveSevenParamData();
        r := Ok(data);
      } else if paramType == "四参数" {
        var data := SaveFourParamData();
        r := Ok(data);
      } else {
        r := Err(UnknownParamType(paramType));
      }
    }
  }
}
