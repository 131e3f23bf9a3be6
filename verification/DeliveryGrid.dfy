/** From a list of controls in any order to the grid they describe, and to its material. */
module DeliveryGrid {
  import opened Prelude
  import opened Bytes
  import opened DeliveryMaterial

  /** `g` is the grid of `controls`: each control stands in its cell, each cell has its control,
      no two controls share a place and no row is empty. */
  ghost predicate Describes(controls: seq<Control>, g: Grid) {
    && (forall x | x in controls :: InGrid(x, g))
    && (forall r, c | 0 <= r < |g| && 0 <= c < |g[r]| :: Control(r, c, g[r][c].caption, g[r][c].callback) in controls)
    && (forall i, j | 0 <= i < j < |controls| ::
         controls[i].row != controls[j].row || controls[i].column != controls[j].column)
    && (forall r | 0 <= r < |g| :: g[r] != [])
  }

  predicate InGrid(x: Control, g: Grid) {
    0 <= x.row < |g| && 0 <= x.column < |g[x.row]| && g[x.row][x.column] == Cell(x.caption, x.callback)
  }

  function Values(controls: seq<Control>): set<Control> {
    set x | x in controls
  }

  lemma SameValuesSameGrid(a: seq<Control>, g: Grid, b: seq<Control>, h: Grid)
    requires Describes(a, g) && Describes(b, h) && Values(a) == Values(b)
    ensures g == h
  {
    forall r, c | 0 <= r < |g| && 0 <= c < |g[r]| ensures r < |h| && c < |h[r]| && h[r][c] == g[r][c] {
      CellKept(a, g, b, h, r, c);
    }
    forall r, c | 0 <= r < |h| && 0 <= c < |h[r]| ensures r < |g| && c < |g[r]| && h[r][c] == g[r][c] {
      CellKept(b, h, a, g, r, c);
    }
    if |g| < |h| { CellKept(b, h, a, g, |g|, 0); }
    if |h| < |g| { CellKept(a, g, b, h, |h|, 0); }
    forall r | 0 <= r < |g| ensures g[r] == h[r] {
      if |g[r]| < |h[r]| { CellKept(b, h, a, g, r, |g[r]|); }
      if |h[r]| < |g[r]| { CellKept(a, g, b, h, r, |h[r]|); }
    }
  }

  lemma CellKept(a: seq<Control>, g: Grid, b: seq<Control>, h: Grid, r: nat, c: nat)
    requires Describes(a, g) && Describes(b, h) && Values(a) == Values(b)
    requires r < |g| && c < |g[r]|
    ensures r < |h| && c < |h[r]| && h[r][c] == g[r][c]
  {
    var x := Control(r, c, g[r][c].caption, g[r][c].callback);
    assert x in Values(a);
    assert InGrid(x, h);
  }

  lemma SameGridSameValues(a: seq<Control>, b: seq<Control>, g: Grid)
    requires Describes(a, g) && Describes(b, g)
    ensures Values(a) == Values(b)
  {
    forall x: Control ensures x in Values(a) <==> x in Values(b) {
      assert x in a ==> InGrid(x, g);
      assert x in b ==> InGrid(x, g);
    }
  }

  /** Callbacks shown at one place of two grids differ in their digests when they differ. */
  ghost predicate NoCollision(n: Names, sha: ByteString -> ByteString, g: Grid, h: Grid) {
    forall r, c | 0 <= r < |g| && r < |h| && 0 <= c < |g[r]| && c < |h[r]| ::
      sha(CallbackMaterial(n, g[r][c].callback)) == sha(CallbackMaterial(n, h[r][c].callback))
      ==> CallbackMaterial(n, g[r][c].callback) == CallbackMaterial(n, h[r][c].callback)
  }

  lemma SealedDetermines(n: Names, sha: ByteString -> ByteString, g: Grid, h: Grid)
    requires NoCollision(n, sha, g, h) && Fits([], g) && Fits([], h)
    requires Sealed(n, sha, g) == Sealed(n, sha, h)
    ensures g == h
  {
    hide CallbackMaterial;
    var s, u := Sealed(n, sha, g), Sealed(n, sha, h);
    forall r | 0 <= r < |g| ensures g[r] == h[r] {
      assert |s[r]| == |g[r]| && |u[r]| == |h[r]|;
      forall c | 0 <= c < |g[r]| ensures g[r][c] == h[r][c] {
        assert s[r][c] == u[r][c];
        CallbackDetermined(n, g[r][c].callback, h[r][c].callback);
      }
    }
  }

  lemma SealedFits(n: Names, sha: ByteString -> ByteString, t: ByteString, g: Grid)
    requires Fits(t, g) && forall x :: |sha(x)| == 32
    ensures Fits(t, Sealed(n, sha, g))
  {
    var s: Grid := Sealed(n, sha, g);
    assert forall r | 0 <= r < |s| :: |s[r]| == |g[r]|;
    forall r, c | 0 <= r < |s| && 0 <= c < |s[r]|
      ensures |s[r][c].caption| < LIMIT_32 && |s[r][c].callback| < LIMIT_32 {
      assert s[r][c] == Cell(g[r][c].caption, sha(CallbackMaterial(n, g[r][c].callback)));
    }
  }

  /** Two accepted inputs have the same material exactly when they have the same text and the
      same set of row, column, caption and callback, whatever the order of their lists. */
  lemma MaterialDeterminesControls(n: Names, sha: ByteString -> ByteString,
                                   t: ByteString, a: seq<Control>, g: Grid, u: ByteString, b: seq<Control>, h: Grid)
    requires NoCollision(n, sha, g, h)
    requires Describes(a, g) && Describes(b, h)
    requires Fits(t, g) && Fits(u, h) && forall x :: |sha(x)| == 32
    ensures Material(n, t, Sealed(n, sha, g)) == Material(n, u, Sealed(n, sha, h)) <==> t == u && Values(a) == Values(b)
  {
    assert Fits([], g) && Fits([], h);
    SealedFits(n, sha, t, g);
    SealedFits(n, sha, u, h);
    hide Material, Describes, Fits, Sealed, NoCollision;
    if Material(n, t, Sealed(n, sha, g)) == Material(n, u, Sealed(n, sha, h)) {
      MaterialInjective(n, t, Sealed(n, sha, g), u, Sealed(n, sha, h));
      SealedDetermines(n, sha, g, h);
      SameGridSameValues(a, b, g);
    }
    if Values(a) == Values(b) {
      SameValuesSameGrid(a, g, b, h);
    }
  }

  // --------------------------------------------------------------- grouping

  function InRow(controls: seq<Control>, r: int): seq<Control> {
    if controls == [] then []
    else
      var front := InRow(controls[..|controls| - 1], r);
      var last := controls[|controls| - 1];
      if last.row == r then front + [last] else front
  }

  lemma {:induction false} InRowMembers(controls: seq<Control>, r: int)
    ensures forall x :: x in InRow(controls, r) <==> x in controls && x.row == r
    ensures |InRow(controls, r)| <= |controls|
  {
    if controls != [] {
      InRowMembers(controls[..|controls| - 1], r);
      assert controls == controls[..|controls| - 1] + [controls[|controls| - 1]];
    }
  }

  /** Equal columns in one row come from two list positions. */
  lemma {:induction false} InRowDistinct(controls: seq<Control>, r: int, i: nat, j: nat)
    requires forall i, j | 0 <= i < j < |controls| ::
               controls[i].row != controls[j].row || controls[i].column != controls[j].column
    requires i < j < |InRow(controls, r)|
    ensures InRow(controls, r)[i].column != InRow(controls, r)[j].column
  {
    var front := controls[..|controls| - 1];
    var last := controls[|controls| - 1];
    if j < |InRow(front, r)| {
      InRowDistinct(front, r, i, j);
    } else {
      InRowMembers(front, r);
      var x := InRow(front, r)[i];
      assert x in front && x.row == r;
      var k :| 0 <= k < |front| && front[k] == x;
      assert controls[k] == x && controls[|controls| - 1] == last;
    }
  }

  method Group(controls: seq<Control>) returns (rows: map<int, seq<Control>>)
    ensures forall r :: r in rows <==> exists x :: x in controls && x.row == r
    ensures forall r | r in rows :: rows[r] == InRow(controls, r)
  {
    rows := map[];
    var i := 0;
    while i < |controls|
      invariant 0 <= i <= |controls|
      invariant forall r :: r in rows <==> exists x :: x in controls[..i] && x.row == r
      invariant forall r | r in rows :: rows[r] == InRow(controls[..i], r)
    {
      var x := controls[i];
      var before := controls[..i];
      assert controls[..i + 1] == before + [x];
      assert controls[..i + 1][..i] == before;
      NoneInRow(before, x.row);
      rows := rows[x.row := (if x.row in rows then rows[x.row] else []) + [x]];
      i := i + 1;
    }
    assert controls[..i] == controls;
  }

  lemma {:induction false} NoneInRow(controls: seq<Control>, r: int)
    ensures (forall x | x in controls :: x.row != r) ==> InRow(controls, r) == []
  {
    InRowMembers(controls, r);
    if InRow(controls, r) != [] { assert InRow(controls, r)[0] in controls; }
  }

  // ---------------------------------------------------------------- sorting

  ghost predicate Sorted(s: seq<Control>) {
    forall i, j | 0 <= i < j < |s| :: s[i].column <= s[j].column
  }

  ghost predicate Rearranged(s: seq<Control>, t: seq<Control>) {
    multiset(s) == multiset(t)
  }

  function Insert(x: Control, s: seq<Control>): (r: seq<Control>)
    ensures multiset(r) == multiset([x] + s)
  {
    if s == [] || s[|s| - 1].column <= x.column then s + [x]
    else
      assert s == s[..|s| - 1] + [s[|s| - 1]];
      Insert(x, s[..|s| - 1]) + [s[|s| - 1]]
  }

  lemma {:induction false} InsertKeepsOrder(x: Control, s: seq<Control>)
    requires Sorted(s)
    ensures Sorted(Insert(x, s))
  {
    if s != [] && s[|s| - 1].column > x.column {
      var front, last := s[..|s| - 1], s[|s| - 1];
      InsertKeepsOrder(x, front);
      var r := Insert(x, front);
      SameElements(r, [x] + front);
      forall i | 0 <= i < |r| ensures r[i].column <= last.column {
        assert r[i] in [x] + front;
      }
    }
  }

  method SortByColumn(row: seq<Control>) returns (sorted: seq<Control>)
    ensures Sorted(sorted) && Rearranged(sorted, row)
  {
    hide Sorted, Rearranged, Insert;
    sorted := [];
    NothingSorted();
    var i := 0;
    while i < |row|
      invariant 0 <= i <= |row|
      invariant Sorted(sorted) && Rearranged(sorted, row[..i])
    {
      InsertKeepsOrder(row[i], sorted);
      InsertRearranges(row[i], sorted, row[..i]);
      assert row[..i + 1] == row[..i] + [row[i]];
      sorted := Insert(row[i], sorted);
      i := i + 1;
    }
    assert row[..i] == row;
  }

  lemma NothingSorted()
    ensures Sorted([]) && Rearranged([], [])
  {
  }

  lemma InsertRearranges(x: Control, sorted: seq<Control>, row: seq<Control>)
    requires Rearranged(sorted, row)
    ensures Rearranged(Insert(x, sorted), row + [x])
  {
    assert multiset([x] + sorted) == multiset(row + [x]);
  }

  lemma SameElements(s: seq<Control>, t: seq<Control>)
    requires Rearranged(s, t)
    ensures |s| == |t| && forall x :: x in s <==> x in t
  {
    assert |multiset(s)| == |s| && |multiset(t)| == |t|;
    forall x ensures x in s <==> x in t { assert x in multiset(s) <==> x in multiset(t); }
  }

  ghost predicate Distinct(s: seq<Control>) {
    forall i, j | 0 <= i < j < |s| :: s[i].column != s[j].column
  }

  lemma CountOnce(t: seq<Control>, x: Control)
    requires Distinct(t)
    ensures multiset(t)[x] <= 1
  {
    if x in t {
      var i :| 0 <= i < |t| && t[i] == x;
      assert t == t[..i] + [x] + t[i + 1..];
      assert x !in t[..i] && x !in t[i + 1..];
    }
  }

  lemma CountTwice(s: seq<Control>, a: nat, b: nat)
    requires a < b < |s| && s[a] == s[b]
    ensures multiset(s)[s[a]] >= 2
  {
    assert s == s[..b] + [s[b]] + s[b + 1..];
    assert s[a] in s[..b] by { assert s[..b][a] == s[a]; }
  }

  lemma DistinctKept(s: seq<Control>, t: seq<Control>)
    requires Rearranged(s, t) && Distinct(t)
    ensures Distinct(s)
  {
    SameElements(s, t);
    forall a, b | 0 <= a < b < |s| ensures s[a].column != s[b].column {
      if s[a].column == s[b].column {
        assert s[a] in t && s[b] in t;
        assert s[a] == s[b];
        CountTwice(s, a, b);
        CountOnce(t, s[a]);
      }
    }
  }

  ghost predicate HasColumn(s: seq<Control>, c: int) {
    exists i :: 0 <= i < |s| && s[i].column == c
  }

  /** Sorted distinct columns that fill 0..m-1 are 0, 1, .., m-1. */
  lemma {:induction false} FilledColumns(s: seq<Control>, m: nat, i: nat)
    requires Sorted(s) && Distinct(s)
    requires forall x | x in s :: 0 <= x.column < m
    requires forall c | 0 <= c < m :: HasColumn(s, c)
    requires i < |s|
    ensures s[i].column == i
    decreases i
  {
    assert s[i] in s;
    if i > 0 {
      FilledColumns(s, m, i - 1);
      assert s[i - 1].column < s[i].column;
    }
    assert i <= s[i].column;
    assert HasColumn(s, i);
    var a :| 0 <= a < |s| && s[a].column == i;
  }

  /** In a described list, the sorted controls of a row are those of its cells, from left to right. */
  lemma DescribedRow(controls: seq<Control>, g: Grid, r: int, s: seq<Control>)
    requires Describes(controls, g) && 0 <= r < |g|
    requires Sorted(s) && Rearranged(s, InRow(controls, r))
    ensures forall i | 0 <= i < |s| :: s[i].column == i
  {
    var row := InRow(controls, r);
    InRowMembers(controls, r);
    SameElements(s, row);
    forall i, j | 0 <= i < j < |row| ensures row[i].column != row[j].column { InRowDistinct(controls, r, i, j); }
    DistinctKept(s, row);
    forall x | x in s ensures 0 <= x.column < |g[r]| { assert InGrid(x, g); }
    forall c | 0 <= c < |g[r]| ensures HasColumn(s, c) {
      var x := Control(r, c, g[r][c].caption, g[r][c].callback);
      assert x in controls;
      assert x in s;
    }
    forall i | 0 <= i < |s| ensures s[i].column == i { FilledColumns(s, |g[r]|, i); }
  }

  // --------------------------------------------------------------- building

  /** `cells` are the row's controls, whose sorted columns are 0, 1, 2, .. */
  ghost predicate RowBuilt(row: seq<Control>, cells: seq<Cell>) {
    exists s :: FromSorted(row, s, cells)
  }

  ghost predicate FromSorted(row: seq<Control>, s: seq<Control>, cells: seq<Cell>) {
    && Rearranged(s, row) && |s| == |cells|
    && forall c | 0 <= c < |s| :: s[c].column == c && cells[c] == Cell(s[c].caption, s[c].callback)
  }

  ghost predicate Gapped(s: seq<Control>) {
    exists c :: 0 <= c < |s| && s[c].column != c
  }

  method BuildRow(row: seq<Control>) returns (r: Option<seq<Cell>>)
    ensures r.Some? ==> RowBuilt(row, r.value)
    ensures r.None? ==> exists s :: Sorted(s) && Rearranged(s, row) && Gapped(s)
  {
    var s := SortByColumn(row);
    var cells := [];
    while |cells| < |s|
      invariant |cells| <= |s|
      invariant forall c | 0 <= c < |cells| :: s[c].column == c && cells[c] == Cell(s[c].caption, s[c].callback)
    {
      var x := s[|cells|];
      if x.column != |cells| { return None; }
      cells := cells + [Cell(x.caption, x.callback)];
    }
    assert FromSorted(row, s, cells);
    return Some(cells);
  }

  /** A set of `n` integers that holds 0, .., n-1 holds nothing else. */
  lemma {:induction false} ExactRange(s: set<int>, n: nat)
    requires |s| == n && forall i | 0 <= i < n :: i in s
    ensures forall i | i in s :: 0 <= i < n
  {
    if n > 0 {
      var rest := s - {n - 1};
      ExactRange(rest, n - 1);
      forall i | i in s ensures 0 <= i < n { if i != n - 1 { assert i in rest; } }
    }
  }

  lemma {:induction false} RangeSize(s: set<int>, n: nat)
    requires forall i :: i in s <==> 0 <= i < n
    ensures |s| == n
  {
    if n > 0 {
      RangeSize(s - {n - 1}, n - 1);
    } else {
      assert s == {} by { assert forall i :: i !in s; }
    }
  }

  lemma {:induction false} DistinctPlaces(controls: seq<Control>, r: int, i: nat, j: nat)
    requires i < j < |controls| && controls[i].row == controls[j].row == r
    requires Distinct(InRow(controls, r))
    ensures controls[i].column != controls[j].column
  {
    var front := controls[..|controls| - 1];
    var row, all := InRow(front, r), InRow(controls, r);
    assert forall k | 0 <= k < |row| :: all[k] == row[k];
    if j < |front| {
      DistinctPlaces(front, r, i, j);
    } else {
      InRowMembers(front, r);
      assert front[i] in row;
      var k :| 0 <= k < |row| && row[k] == front[i];
      assert all[k].column != all[|row|].column;
    }
  }

  lemma BuiltGridDescribes(controls: seq<Control>, g: Grid)
    requires forall x | x in controls :: 0 <= x.row < |g|
    requires forall r | 0 <= r < |g| :: g[r] != [] && RowBuilt(InRow(controls, r), g[r])
    ensures Describes(controls, g)
  {
    forall x | x in controls ensures InGrid(x, g) {
      InRowMembers(controls, x.row);
      var s :| FromSorted(InRow(controls, x.row), s, g[x.row]);
      SameElements(s, InRow(controls, x.row));
      assert x in s;
    }
    forall r, c | 0 <= r < |g| && 0 <= c < |g[r]|
      ensures Control(r, c, g[r][c].caption, g[r][c].callback) in controls {
      InRowMembers(controls, r);
      var s :| FromSorted(InRow(controls, r), s, g[r]);
      SameElements(s, InRow(controls, r));
      assert s[c] in InRow(controls, r);
      assert s[c] == Control(r, c, g[r][c].caption, g[r][c].callback);
    }
    forall i, j | 0 <= i < j < |controls|
      ensures controls[i].row != controls[j].row || controls[i].column != controls[j].column {
      if controls[i].row == controls[j].row {
        var r := controls[i].row;
        var s :| FromSorted(InRow(controls, r), s, g[r]);
        DistinctKept(InRow(controls, r), s);
        DistinctPlaces(controls, r, i, j);
      }
    }
  }

  lemma DescribedRows(controls: seq<Control>, g: Grid, rows: map<int, seq<Control>>)
    requires Describes(controls, g)
    requires forall r :: r in rows <==> exists x :: x in controls && x.row == r
    ensures |rows| == |g| && forall r :: r in rows <==> 0 <= r < |g|
  {
    forall r | 0 <= r < |g| ensures r in rows {
      var x := Control(r, 0, g[r][0].caption, g[r][0].callback);
      assert x in controls && x.row == r;
    }
    forall x | x in controls ensures 0 <= x.row < |g| { assert InGrid(x, g); }
    RangeSize(rows.Keys, |g|);
    assert |rows| == |rows.Keys|;
  }

  /** The grid of a control list, refused exactly when no grid is described by it. */
  method BuildGrid(controls: seq<Control>) returns (r: Option<Grid>)
    ensures r.Some? ==> Describes(controls, r.value)
    ensures r.None? ==> forall g :: !Describes(controls, g)
  {
    hide Describes;
    var rows := Group(controls);
    var grid: Grid := [];
    forall g | Describes(controls, g) ensures |rows| == |g| && forall r :: r in rows <==> 0 <= r < |g| {
      DescribedRows(controls, g, rows);
    }
    while |grid| < |rows|
      invariant |grid| <= |rows|
      invariant forall q | 0 <= q < |grid| :: q in rows && grid[q] != [] && RowBuilt(InRow(controls, q), grid[q])
    {
      var q := |grid|;
      if q !in rows { return None; }
      InRowMembers(controls, q);
      forall g, s | Describes(controls, g) && q < |g| && Sorted(s) && Rearranged(s, rows[q]) ensures !Gapped(s) {
        DescribedRow(controls, g, q, s);
      }
      var cells := BuildRow(rows[q]);
      if cells.None? { return None; }
      RowNonempty(controls, q, cells.value);
      grid := grid + [cells.value];
    }
    assert |rows.Keys| == |rows|;
    ExactRange(rows.Keys, |rows|);
    forall x | x in controls ensures 0 <= x.row < |grid| { assert x.row in rows.Keys; }
    BuiltGridDescribes(controls, grid);
    return Some(grid);
  }

  lemma RowNonempty(controls: seq<Control>, q: int, cells: seq<Cell>)
    requires RowBuilt(InRow(controls, q), cells) && exists x :: x in controls && x.row == q
    ensures cells != []
  {
    var s :| FromSorted(InRow(controls, q), s, cells);
    SameElements(s, InRow(controls, q));
    InRowMembers(controls, q);
    var x :| x in controls && x.row == q;
    assert x in s;
  }

  // --------------------------------------------------------------- material

  /** The bytes that are hashed; refused when the controls leave a gap or share a place, or
      when a length does not fit its field. */
  method DeliveryMaterialOf(sha: ByteString -> ByteString, text: ByteString, controls: seq<Control>)
    returns (r: Option<ByteString>)
    requires forall x :: |sha(x)| == 32
    ensures r.Some? ==> exists g ::
              Describes(controls, g) && Fits(text, g)
              && r.value == Material(STANDARD_NAMES, text, Sealed(STANDARD_NAMES, sha, g))
    ensures r.None? ==> forall g | Describes(controls, g) :: !Fits(text, g)
  {
    hide Fits, Describes;
    var n := STANDARD_NAMES;
    var built := BuildGrid(controls);
    if built.None? { return None; }
    var g := built.value;
    if !Fits(text, g) {
      forall h | Describes(controls, h) ensures h == g { SameValuesSameGrid(controls, g, controls, h); }
      return None;
    }
    var material := Field(n.version, n.material) + Field(n.text, text) + Field(n.rowCount, BigEndian(|g|, 4));
    ghost var front, sealed := material, Sealed(n, sha, g);
    var i := 0;
    while i < |g|
      invariant 0 <= i <= |g| == |sealed| && sealed == Sealed(n, sha, g)
      invariant material + GridBytes(n, sealed, i) == front + GridBytes(n, sealed, 0)
    {
      var bytes := RowBytes(n, sha, g, i);
      assert material + GridBytes(n, sealed, i)
      == material + RowHead(n, i, g[i]) + Buttons(n, sealed[i], 0) + GridBytes(n, sealed, i + 1) by {
        assert |sealed[i]| == |g[i]|;
        RowFirst(n, sealed, g, i, material);
      }
      material := material + RowHead(n, i, g[i]) + bytes;
      i := i + 1;
    }
    assert material + [] == material;
    return Some(material);
  }

  lemma RowFirst(n: Names, sealed: Grid, g: Grid, i: nat, before: ByteString)
    requires i < |g| == |sealed| && |sealed[i]| == |g[i]|
    ensures before + GridBytes(n, sealed, i)
         == before + RowHead(n, i, g[i]) + Buttons(n, sealed[i], 0) + GridBytes(n, sealed, i + 1)
  {
    hide Field, Buttons;
    assert RowHead(n, i, g[i]) == RowHead(n, i, sealed[i]);
  }

  method RowBytes(n: Names, sha: ByteString -> ByteString, g: Grid, i: nat) returns (r: ByteString)
    requires i < |g|
    ensures r == Buttons(n, Sealed(n, sha, g)[i], 0)
  {
    hide Button, CallbackMaterial;
    ghost var row := Sealed(n, sha, g)[i];
    r := [];
    var c := 0;
    while c < |g[i]|
      invariant 0 <= c <= |g[i]| == |row|
      invariant r + Buttons(n, row, c) == Buttons(n, row, 0)
    {
      var cell := g[i][c];
      var shown := Cell(cell.caption, sha(CallbackMaterial(n, cell.callback)));
      assert row[c] == shown;
      ghost var rest := Buttons(n, row, c + 1);
      assert r + Buttons(n, row, c) == r + Button(n, c, shown) + rest;
      r := r + Button(n, c, shown);
      c := c + 1;
    }
    assert r + [] == r;
  }
}
