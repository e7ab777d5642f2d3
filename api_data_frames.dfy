/**
 * The data routes' frame handling: the cache of spreadsheets keyed by path
 * and validated by modification time, and the server-side filtering and
 * paging the tables ask for.
 *
 * Reading a spreadsheet is I/O: the frame the file holds and its mtime are
 * parameters. Sorting is not modelled; it only reorders the filtered rows.
 */
module WebFrames {
  import opened Common
  import opened Frames

  // ---------------------------------------------------------------------
  // _DFCache
  // ---------------------------------------------------------------------

  /** The mtime `get` compares: the file's own, or 0 when there is no such file. */
  function Stamp(isFile: bool, mtime: int): int
  {
    if isFile then mtime else 0
  }

  /** The frame the cache may hand back for `path` at this stamp, if any. */
  function Lookup(entries: map<string, (int, Frame)>, path: string, stamp: int): (r: Option<Frame>)
    ensures r.Some? <==> path in entries && entries[path].0 == stamp
    ensures r.Some? ==> r.value == entries[path].1
  {
    if path in entries && entries[path].0 == stamp then Some(entries[path].1) else None
  }

  /** One cell after `fillna("")`: a missing cell becomes the empty text, any other stays. */
  function FilledCell(c: Cell): Cell
  {
    if c.Missing? then Text("") else c
  }

  /**
   * `df.fillna("")`: every row holds every column of the frame, and a cell
   * that was missing (or absent from the row) is now "".
   */
  function FillNa(f: Frame): (r: Frame)
    ensures r.columns == f.columns && |r.rows| == |f.rows|
    ensures forall i :: 0 <= i < |r.rows| ==> r.rows[i].Keys == f.columns
    ensures forall i, c :: 0 <= i < |r.rows| && c in f.columns ==>
              !r.rows[i][c].Missing? && (Get(f.rows[i], c).Missing? || r.rows[i][c] == f.rows[i][c])
  {
    Frame(f.columns, seq(|f.rows|, i requires 0 <= i < |f.rows| => map c | c in f.columns :: FilledCell(Get(f.rows[i], c))))
  }

  /** No cell of any of the frame's columns is missing. */
  predicate Filled(f: Frame)
  {
    forall i, c :: 0 <= i < |f.rows| && c in f.columns ==> !Get(f.rows[i], c).Missing?
  }

  /** Every frame the cache holds is filled. */
  predicate CacheFilled(entries: map<string, (int, Frame)>)
  {
    forall p :: p in entries ==> Filled(entries[p].1)
  }

  /** Filling a filled frame changes nothing but the cells of columns the frame does not list. */
  lemma FillNaIdempotent(f: Frame)
    ensures Filled(FillNa(f)) && FillNa(FillNa(f)) == FillNa(f)
  {
    var g := FillNa(f);
    forall i | 0 <= i < |g.rows|
      ensures FillNa(g).rows[i] == g.rows[i]
    {
    }
  }

  /**
   * A cell that `read_excel` left empty reads as "" after `fillna`, so a
   * header filter with a non-empty value never keeps its row (unfilled, the
   * cell would print as "nan" and a filter such as "an" would keep it).
   */
  lemma FilledEmptyCellFiltered(f: Frame, i: nat, col: string, v: string)
    requires i < |f.rows| && col in f.columns && Get(f.rows[i], col).Missing? && v != ""
    ensures !Keeps(FillNa(f).rows[i], (col, v))
  {
    assert CellText(Get(FillNa(f).rows[i], col)) == "";
    assert |Lower(v)| > 0;
  }

  /**
   * `get` as a transition. `loaded` is what `read_excel` gives for the path:
   * a frame, or None when it raises (always so for a path that is not a
   * file). A hit hands back the stored frame and leaves the cache alone; a
   * miss fills the frame just read with `fillna("")`, stores it with the
   * stamp and hands it back, or, when the read raises, leaves the cache
   * alone and raises (None).
   */
  function AfterGet(entries: map<string, (int, Frame)>, path: string, stamp: int, loaded: Option<Frame>): (r: (map<string, (int, Frame)>, Option<Frame>))
  {
    var hit := Lookup(entries, path, stamp);
    if hit.Some? then (entries, hit)
    else if loaded.Some? then (entries[path := (stamp, FillNa(loaded.value))], Some(FillNa(loaded.value)))
    else (entries, None)
  }

  /** A cache of filled frames stays one, and every frame `get` hands back is filled. */
  lemma GetFilled(entries: map<string, (int, Frame)>, path: string, stamp: int, loaded: Option<Frame>)
    requires CacheFilled(entries)
    ensures var (e1, df) := AfterGet(entries, path, stamp, loaded);
            CacheFilled(e1) && (df.Some? ==> Filled(df.value))
  {
    if loaded.Some? {
      FillNaIdempotent(loaded.value);
    }
  }

  /** Right after a `get` that gave a frame, a second one at the same stamp hits and gives the same frame, whatever a reread would give. */
  lemma GetThenHit(entries: map<string, (int, Frame)>, path: string, stamp: int, loaded: Option<Frame>, other: Option<Frame>)
    requires AfterGet(entries, path, stamp, loaded).1.Some?
    ensures var (e1, df1) := AfterGet(entries, path, stamp, loaded);
            Lookup(e1, path, stamp) == df1 && AfterGet(e1, path, stamp, other) == (e1, df1)
  {
  }

  /** A changed stamp always rereads, and only the entry for that path changes; a raising reread changes nothing. */
  lemma StaleRereads(entries: map<string, (int, Frame)>, path: string, stamp: int, loaded: Option<Frame>, p: string)
    requires path in entries && entries[path].0 != stamp
    ensures AfterGet(entries, path, stamp, loaded).1 == (if loaded.Some? then Some(FillNa(loaded.value)) else None)
    ensures var e1 := AfterGet(entries, path, stamp, loaded).0;
            e1.Keys == entries.Keys && (p != path && p in entries ==> e1[p] == entries[p]) &&
            e1[path] == (if loaded.Some? then (stamp, FillNa(loaded.value)) else entries[path])
  {
  }

  /**
   * A path that is no file has stamp 0, so unless the cache holds a frame
   * stamped 0 for it, `get` raises and the cache is left as it was.
   */
  lemma MissingFileRaises(entries: map<string, (int, Frame)>, path: string, mtime: int)
    requires !(path in entries && entries[path].0 == 0)
    ensures AfterGet(entries, path, Stamp(false, mtime), None) == (entries, None)
  {
  }

  /** `invalidate(filepath)`: a non-empty path drops that entry alone; None or "" drops them all. */
  function Invalidated(entries: map<string, (int, Frame)>, path: Option<string>): (r: map<string, (int, Frame)>)
    ensures path.Some? && path.value != "" ==>
              r.Keys == entries.Keys - {path.value} && forall p :: p in r ==> r[p] == entries[p]
    ensures path.None? || path.value == "" ==> r == map[]
  {
    if path.Some? && path.value != "" then entries - {path.value} else map[]
  }

  /** After an invalidation that covers `path`, the next `get` of it rereads whatever the stamp. */
  lemma InvalidatedRereads(entries: map<string, (int, Frame)>, path: string, q: Option<string>, stamp: int, loaded: Option<Frame>)
    requires q.None? || q.value == "" || q.value == path
    ensures AfterGet(Invalidated(entries, q), path, stamp, loaded).1 == (if loaded.Some? then Some(FillNa(loaded.value)) else None)
  {
  }

  /** The cache: frames by path, each with the mtime it was read at. */
  class DFCache {
    var entries: map<string, (int, Frame)>

    constructor()
      ensures entries == map[]
    {
      entries := map[];
    }

    /**
     * `get(filepath)`: the file's stamp decides between the stored frame and
     * `loaded`, what `read_excel` gives for the file (None when it raises,
     * as it does for every path that is not a file); a frame read anew is
     * filled with `fillna("")` before it is stored and handed back. None as
     * the result is the exception `get` lets through.
     */
    method Get(path: string, isFile: bool, mtime: int, loaded: Option<Frame>) returns (df: Option<Frame>)
      requires !isFile ==> loaded.None?
      modifies this
      ensures (entries, df) == AfterGet(old(entries), path, Stamp(isFile, mtime), loaded)
      ensures CacheFilled(old(entries)) ==> CacheFilled(entries) && (df.Some? ==> Filled(df.value))
    {
      var stamp := Stamp(isFile, mtime);
      if CacheFilled(entries) {
        GetFilled(entries, path, stamp, loaded);
      }
      if path in entries {
        var (cachedStamp, cachedDf) := entries[path];
        if cachedStamp == stamp {
          return Some(cachedDf);
        }
      }
      if loaded.None? {
        return None;
      }
      var filled := FillNa(loaded.value);
      df := Some(filled);
      entries := entries[path := (stamp, filled)];
    }

    /** `invalidate(filepath=None)`. */
    method Invalidate(path: Option<string>)
      modifies this
      ensures entries == Invalidated(old(entries), path)
      ensures CacheFilled(old(entries)) ==> CacheFilled(entries)
    {
      if path.Some? && path.value != "" {
        entries := entries - {path.value};
      } else {
        entries := map[];
      }
    }
  }

  // ---------------------------------------------------------------------
  // Filters
  // ---------------------------------------------------------------------

  /** A header filter `(column, value)` takes effect when the column exists and the value is not empty. */
  predicate Active(f: (string, string), columns: set<string>)
  {
    f.0 in columns && f.1 != ""
  }

  /** `df[col].astype(str).str.lower().str.contains(value.lower())` for one row. */
  predicate Keeps(row: Row, f: (string, string))
  {
    Contains(Lower(CellText(Get(row, f.0))), Lower(f.1))
  }

  /** One filter applied: the rows it keeps, in order. */
  function Narrow(rows: seq<Row>, f: (string, string)): (r: seq<Row>)
    ensures |r| <= |rows|
  {
    Filter(rows, (row: Row) => Keeps(row, f))
  }

  /** The filters applied one after another, in the order the request lists them. */
  function Narrowed(rows: seq<Row>, fs: seq<(string, string)>, columns: set<string>): (r: seq<Row>)
    ensures |r| <= |rows|
  {
    if |fs| == 0 then rows
    else
      var prev := Narrowed(rows, fs[..|fs| - 1], columns);
      if Active(fs[|fs| - 1], columns) then Narrow(prev, fs[|fs| - 1]) else prev
  }

  /** A row passes every filter that takes effect. */
  predicate MatchesAll(row: Row, fs: seq<(string, string)>, columns: set<string>)
  {
    forall i :: 0 <= i < |fs| && Active(fs[i], columns) ==> Keeps(row, fs[i])
  }

  lemma {:induction false} FilterSame<T>(xs: seq<T>, p: T -> bool, q: T -> bool)
    requires forall x :: p(x) == q(x)
    ensures Filter(xs, p) == Filter(xs, q)
  {
    if |xs| > 0 {
      FilterSame(xs[..|xs| - 1], p, q);
    }
  }

  lemma {:induction false} FilterTwice<T>(xs: seq<T>, p: T -> bool, q: T -> bool, pq: T -> bool)
    requires forall x :: pq(x) == (p(x) && q(x))
    ensures Filter(Filter(xs, p), q) == Filter(xs, pq)
  {
    if |xs| > 0 {
      var init := xs[..|xs| - 1];
      var x := xs[|xs| - 1];
      FilterTwice(init, p, q, pq);
      var fp := Filter(init, p);
      if p(x) {
        assert Filter(xs, p) == fp + [x];
        assert (fp + [x])[..|fp|] == fp;
      } else {
        assert Filter(xs, p) == fp;
      }
    }
  }

  /** The test a row passes to survive every filter that takes effect. */
  function AllOf(fs: seq<(string, string)>, columns: set<string>): Row -> bool
  {
    (row: Row) => MatchesAll(row, fs, columns)
  }

  lemma MatchesAllSnoc(row: Row, fs: seq<(string, string)>, columns: set<string>)
    requires |fs| > 0
    ensures MatchesAll(row, fs, columns)
            == (MatchesAll(row, fs[..|fs| - 1], columns) && (Active(fs[|fs| - 1], columns) ==> Keeps(row, fs[|fs| - 1])))
  {
    var init := fs[..|fs| - 1];
    assert forall i :: 0 <= i < |init| ==> init[i] == fs[i];
  }

  /** The filters are conjunctive: the rows kept are exactly those matching every filter that takes effect, in order. */
  lemma {:induction false} NarrowedIsConjunction(rows: seq<Row>, fs: seq<(string, string)>, columns: set<string>)
    ensures Narrowed(rows, fs, columns) == Filter(rows, AllOf(fs, columns))
  {
    if |fs| == 0 {
      FilterAll(rows, AllOf(fs, columns));
    } else {
      var init := fs[..|fs| - 1];
      var f := fs[|fs| - 1];
      NarrowedIsConjunction(rows, init, columns);
      forall row: Row
        ensures AllOf(fs, columns)(row) == (AllOf(init, columns)(row) && (Active(f, columns) ==> Keeps(row, f)))
      {
        MatchesAllSnoc(row, fs, columns);
      }
      if Active(f, columns) {
        FilterTwice(rows, AllOf(init, columns), (row: Row) => Keeps(row, f), AllOf(fs, columns));
      } else {
        FilterSame(rows, AllOf(init, columns), AllOf(fs, columns));
      }
    }
  }

  lemma {:induction false} FilterAll<T>(xs: seq<T>, p: T -> bool)
    requires forall x :: p(x)
    ensures Filter(xs, p) == xs
  {
    if |xs| > 0 {
      FilterAll(xs[..|xs| - 1], p);
    }
  }

  // ---------------------------------------------------------------------
  // Paging
  // ---------------------------------------------------------------------

  /** `max(1, -(-n // size))`: the number of pages, one at least. */
  function LastPage(n: nat, size: int): (r: int)
    requires size >= 1
    ensures r >= 1 && n <= r * size
    ensures n > 0 ==> (r - 1) * size < n
    ensures n == 0 ==> r == 1
  {
    var q := (-(n as int)) / size;
    if -q > 1 then -q else 1
  }

  /** `max(1, min(page, last_page))`. */
  function ClampPage(page: int, last: int): (r: int)
    requires last >= 1
    ensures 1 <= r <= last
    ensures 1 <= page <= last ==> r == page
  {
    if page < 1 then 1 else if page > last then last else page
  }

  /** `rows[start:start + size]`, Python slicing cutting short at the end. */
  function Window(rows: seq<Row>, start: nat, size: nat): (r: seq<Row>)
    ensures |r| <= size
  {
    var lo := if start < |rows| then start else |rows|;
    var hi := if start + size < |rows| then start + size else |rows|;
    rows[lo..hi]
  }

  /** What `_paginate_df` answers. */
  datatype Page = Page(lastPage: int, data: seq<Row>, total: nat, totalFiltered: nat)

  /**
   * `_paginate_df` without its sort: the filters narrow the rows one after
   * another; then the page, clamped to the ones that exist, selects its
   * window of the rows left.
   */
  method Paginate(df: Frame, page: int, size: int, filters: seq<(string, string)>) returns (r: Page)
    requires size >= 1
    ensures r.total == |df.rows|
    ensures var rows := Narrowed(df.rows, filters, df.columns);
            r.totalFiltered == |rows| && r.lastPage == LastPage(|rows|, size)
            && r.data == Window(rows, (ClampPage(page, r.lastPage) - 1) * size, size)
  {
    var total := |df.rows|;
    var rows := df.rows;
    for i := 0 to |filters|
      invariant rows == Narrowed(df.rows, filters[..i], df.columns)
    {
      assert filters[..i + 1][..i] == filters[..i];
      var f := filters[i];
      if f.0 in df.columns && f.1 != "" {
        rows := Narrow(rows, f);
      }
    }
    assert filters[..|filters|] == filters;
    var totalFiltered := |rows|;
    var lastPage := LastPage(totalFiltered, size);
    var p := ClampPage(page, lastPage);
    var start := (p - 1) * size;
    r := Page(lastPage, Window(rows, start, size), total, totalFiltered);
  }

  /** The filtered count never exceeds the total, and a page holds at most `size` rows and at least one when any row is left. */
  lemma PageBounds(df: Frame, page: int, size: int, filters: seq<(string, string)>)
    requires size >= 1
    ensures var rows := Narrowed(df.rows, filters, df.columns);
            var last := LastPage(|rows|, size);
            var data := Window(rows, (ClampPage(page, last) - 1) * size, size);
            |rows| <= |df.rows| && |data| <= size && (|rows| > 0 ==> |data| >= 1)
  {
    var rows := Narrowed(df.rows, filters, df.columns);
    var last := LastPage(|rows|, size);
    var p := ClampPage(page, last);
    if |rows| > 0 {
      MulLe(p - 1, last - 1, size);
      WindowNonEmpty(rows, (p - 1) * size, size);
    }
  }

  /** Multiplying by a non-negative number keeps the order. */
  lemma MulLe(a: int, b: int, c: int)
    requires 0 <= a <= b && 0 <= c
    ensures 0 <= a * c <= b * c
  {
  }

  lemma WindowNonEmpty(rows: seq<Row>, start: nat, size: nat)
    requires start < |rows| && size >= 1
    ensures |Window(rows, start, size)| >= 1
  {
  }

  /** Every row left after filtering is on page `i / size + 1`, at place `i % size`, and that page exists. */
  lemma PagesCover(rows: seq<Row>, size: int, i: nat)
    requires size >= 1 && i < |rows|
    ensures var page := i / size + 1;
            page <= LastPage(|rows|, size)
            && i % size < |Window(rows, (page - 1) * size, size)|
            && Window(rows, (page - 1) * size, size)[i % size] == rows[i]
  {
    var q, m := i / size, i % size;
    DivMod(i, size);
    var last := LastPage(|rows|, size);
    if q >= last {
      MulLe(last, q, size);
      assert false;
    }
    assert q * size <= i;
    WindowAt(rows, q * size, size, m);
  }

  lemma DivMod(i: nat, size: int)
    requires size >= 1
    ensures (i / size) * size + i % size == i && 0 <= i % size < size && i / size >= 0
  {
  }

  lemma WindowAt(rows: seq<Row>, start: nat, size: nat, m: nat)
    requires m < size && start + m < |rows|
    ensures m < |Window(rows, start, size)| && Window(rows, start, size)[m] == rows[start + m]
  {
  }
}
