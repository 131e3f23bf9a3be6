/** The bytes whose digest binds a delivered review: text and a grid of callback buttons. */
module DeliveryMaterial {
  import opened Bytes

  /** One button; the two texts are their UTF-8 bytes. */
  datatype Control = Control(row: int, column: int, caption: ByteString, callback: ByteString)

  datatype Cell = Cell(caption: ByteString, callback: ByteString)

  type Grid = seq<seq<Cell>>

  const LIMIT_32 := 0x1_0000_0000

  /** Field names and fixed values, in ASCII. */
  datatype Names = Names(
    version: ByteString, material: ByteString, text: ByteString, rowCount: ByteString, rowIndex: ByteString,
    buttonCount: ByteString, columnIndex: ByteString, caption: ByteString, kind: ByteString, callbackData: ByteString,
    callbackSha: ByteString, callbackVersion: ByteString, value: ByteString)

  const MATERIAL_VERSION := Ascii("finance_d2_delivery_material_v1")
  const CALLBACK_VERSION := Ascii("finance_d2_callback_value_v1")
  const CALLBACK_SHA := Ascii("callback_value_sha256")
  const ROW_COUNT := Ascii("row_count")
  const ROW_INDEX := Ascii("row_index")
  const BUTTON_COUNT := Ascii("button_count")
  const COLUMN_INDEX := Ascii("column_index")
  const CALLBACK_DATA := Ascii("callback_data")

  const STANDARD_NAMES := Names(
    Ascii("version"), MATERIAL_VERSION, Ascii("text"), ROW_COUNT, ROW_INDEX, BUTTON_COUNT, COLUMN_INDEX,
    Ascii("label"), Ascii("kind"), CALLBACK_DATA, CALLBACK_SHA, CALLBACK_VERSION, Ascii("value"))

  // -------------------------------------------------------------- encoding

  function Field(name: ByteString, value: ByteString): ByteString {
    BigEndian(|name|, 2) + name + BigEndian(|value|, 4) + value
  }

  function CallbackMaterial(n: Names, callback: ByteString): ByteString {
    Field(n.version, n.callbackVersion) + Field(n.value, callback)
  }

  /** The grid as the material sees it: each callback replaced by its digest. */
  function Sealed(n: Names, sha: ByteString -> ByteString, g: Grid): (r: Grid)
    ensures |r| == |g| && forall i | 0 <= i < |g| :: |r[i]| == |g[i]|
  {
    seq(|g|, r requires 0 <= r < |g| =>
      seq(|g[r]|, c requires 0 <= c < |g[r]| => Cell(g[r][c].caption, sha(CallbackMaterial(n, g[r][c].callback)))))
  }

  function Button(n: Names, column: nat, cell: Cell): ByteString {
    Field(n.columnIndex, BigEndian(column, 4)) + Field(n.caption, cell.caption) + Field(n.kind, n.callbackData)
    + Field(n.callbackSha, cell.callback)
  }

  /** The buttons of a row from column `c` on. */
  function Buttons(n: Names, row: seq<Cell>, c: nat): ByteString
    requires c <= |row|
    decreases |row| - c
  {
    if c == |row| then [] else Button(n, c, row[c]) + Buttons(n, row, c + 1)
  }

  function RowHead(n: Names, r: nat, row: seq<Cell>): ByteString {
    Field(n.rowIndex, BigEndian(r, 4)) + Field(n.buttonCount, BigEndian(|row|, 4))
  }

  /** The rows of a grid from row `r` on. */
  function GridBytes(n: Names, g: Grid, r: nat): ByteString
    requires r <= |g|
    decreases |g| - r
  {
    if r == |g| then [] else RowHead(n, r, g[r]) + Buttons(n, g[r], 0) + GridBytes(n, g, r + 1)
  }

  function Material(n: Names, text: ByteString, g: Grid): ByteString {
    Field(n.version, n.material) + Field(n.text, text) + Field(n.rowCount, BigEndian(|g|, 4)) + GridBytes(n, g, 0)
  }

  /** Every length and index fits the width its field gives it; a longer one cannot be encoded. */
  predicate Fits(text: ByteString, g: Grid) {
    && |text| < LIMIT_32 && |g| < LIMIT_32
    && forall r | 0 <= r < |g| ::
         |g[r]| < LIMIT_32 && forall c | 0 <= c < |g[r]| ::
           |g[r][c].caption| < LIMIT_32 && |g[r][c].callback| < LIMIT_32
  }

  // ---------------------------------------------------- unique decodability

  lemma BigEndianInjective(a: nat, b: nat)
    requires a < LIMIT_32 && b < LIMIT_32 && BigEndian(a, 4) == BigEndian(b, 4)
    ensures a == b
  {
    assert Pow256(4) == 256 * Pow256(3) == 65536 * Pow256(2) == LIMIT_32;
    DecodeBigEndian(a, 4);
    DecodeBigEndian(b, 4);
  }

  /** A leading field can be read off: its value and what follows are determined. */
  lemma FieldCancels(name: ByteString, a: ByteString, x: ByteString, b: ByteString, y: ByteString)
    requires |a| < LIMIT_32 && |b| < LIMIT_32
    requires Field(name, a) + x == Field(name, b) + y
    ensures a == b && x == y
  {
    hide BigEndian;
    var head := BigEndian(|name|, 2) + name;
    assert Field(name, a) + x == head + (BigEndian(|a|, 4) + (a + x));
    assert Field(name, b) + y == head + (BigEndian(|b|, 4) + (b + y));
    SplitEqual(head, BigEndian(|a|, 4) + (a + x), head, BigEndian(|b|, 4) + (b + y));
    SplitEqual(BigEndian(|a|, 4), a + x, BigEndian(|b|, 4), b + y);
    BigEndianInjective(|a|, |b|);
    SplitEqual(a, x, b, y);
  }

  lemma NumberCancels(name: ByteString, a: nat, x: ByteString, b: nat, y: ByteString)
    requires a < LIMIT_32 && b < LIMIT_32
    requires Field(name, BigEndian(a, 4)) + x == Field(name, BigEndian(b, 4)) + y
    ensures a == b && x == y
  {
    hide Field, BigEndian;
    FieldCancels(name, BigEndian(a, 4), x, BigEndian(b, 4), y);
    BigEndianInjective(a, b);
  }

  lemma ButtonCancels(n: Names, c: nat, a: Cell, x: ByteString, b: Cell, y: ByteString)
    requires |a.caption| < LIMIT_32 && |b.caption| < LIMIT_32 && |a.callback| < LIMIT_32 && |b.callback| < LIMIT_32
    requires Button(n, c, a) + x == Button(n, c, b) + y
    ensures a == b && x == y
  {
    hide Field;
    var index := Field(n.columnIndex, BigEndian(c, 4));
    var kind := Field(n.kind, n.callbackData);
    var tailA, tailB := Field(n.callbackSha, a.callback) + x, Field(n.callbackSha, b.callback) + y;
    assert Button(n, c, a) + x == index + (Field(n.caption, a.caption) + (kind + tailA));
    assert Button(n, c, b) + y == index + (Field(n.caption, b.caption) + (kind + tailB));
    SplitEqual(index, Field(n.caption, a.caption) + (kind + tailA), index,
      Field(n.caption, b.caption) + (kind + tailB));
    FieldCancels(n.caption, a.caption, kind + tailA, b.caption, kind + tailB);
    SplitEqual(kind, tailA, kind, tailB);
    FieldCancels(n.callbackSha, a.callback, x, b.callback, y);
  }

  lemma {:induction false} ButtonsCancel(n: Names, a: seq<Cell>, x: ByteString, b: seq<Cell>, y: ByteString, c: nat)
    requires |a| == |b| && c <= |a|
    requires forall i | 0 <= i < |a| :: |a[i].caption| < LIMIT_32 && |a[i].callback| < LIMIT_32
    requires forall i | 0 <= i < |b| :: |b[i].caption| < LIMIT_32 && |b[i].callback| < LIMIT_32
    requires Buttons(n, a, c) + x == Buttons(n, b, c) + y
    ensures a[c..] == b[c..] && x == y
    decreases |a| - c
  {
    hide Button;
    if c < |a| {
      var restA, restB := Buttons(n, a, c + 1), Buttons(n, b, c + 1);
      assert Buttons(n, a, c) + x == Button(n, c, a[c]) + (restA + x);
      assert Buttons(n, b, c) + y == Button(n, c, b[c]) + (restB + y);
      ButtonCancels(n, c, a[c], restA + x, b[c], restB + y);
      ButtonsCancel(n, a, x, b, y, c + 1);
      assert a[c..] == [a[c]] + a[c + 1..] && b[c..] == [b[c]] + b[c + 1..];
    } else {
      assert [] + x == x && [] + y == y;
    }
  }

  lemma {:induction false} GridBytesInjective(n: Names, g: Grid, h: Grid, r: nat)
    requires |g| == |h| && r <= |g| && Fits([], g) && Fits([], h)
    requires GridBytes(n, g, r) == GridBytes(n, h, r)
    ensures g[r..] == h[r..]
    decreases |g| - r
  {
    hide Field, Buttons;
    if r < |g| {
      var index := Field(n.rowIndex, BigEndian(r, 4));
      var restG, restH := GridBytes(n, g, r + 1), GridBytes(n, h, r + 1);
      var bodyG, bodyH := Buttons(n, g[r], 0) + restG, Buttons(n, h[r], 0) + restH;
      assert GridBytes(n, g, r) == index + (Field(n.buttonCount, BigEndian(|g[r]|, 4)) + bodyG);
      assert GridBytes(n, h, r) == index + (Field(n.buttonCount, BigEndian(|h[r]|, 4)) + bodyH);
      SplitEqual(index, Field(n.buttonCount, BigEndian(|g[r]|, 4)) + bodyG, index,
        Field(n.buttonCount, BigEndian(|h[r]|, 4)) + bodyH);
      NumberCancels(n.buttonCount, |g[r]|, bodyG, |h[r]|, bodyH);
      ButtonsCancel(n, g[r], restG, h[r], restH, 0);
      assert g[r][0..] == g[r] && h[r][0..] == h[r];
      GridBytesInjective(n, g, h, r + 1);
      assert g[r..] == [g[r]] + g[r + 1..] && h[r..] == [h[r]] + h[r + 1..];
    }
  }

  lemma CallbackDetermined(n: Names, a: ByteString, b: ByteString)
    requires |a| < LIMIT_32 && |b| < LIMIT_32
    requires CallbackMaterial(n, a) == CallbackMaterial(n, b)
    ensures a == b
  {
    hide Field;
    var head := Field(n.version, n.callbackVersion);
    SplitEqual(head, Field(n.value, a), head, Field(n.value, b));
    assert Field(n.value, a) + [] == Field(n.value, a) && Field(n.value, b) + [] == Field(n.value, b);
    FieldCancels(n.value, a, [], b, []);
  }

  /** The material determines the text and the whole grid. */
  lemma MaterialInjective(n: Names, t: ByteString, g: Grid, u: ByteString, h: Grid)
    requires Fits(t, g) && Fits(u, h)
    requires Material(n, t, g) == Material(n, u, h)
    ensures t == u && g == h
  {
    hide Field, GridBytes;
    var version := Field(n.version, n.material);
    var countG, countH := Field(n.rowCount, BigEndian(|g|, 4)), Field(n.rowCount, BigEndian(|h|, 4));
    var bodyG, bodyH := GridBytes(n, g, 0), GridBytes(n, h, 0);
    assert Material(n, t, g) == version + (Field(n.text, t) + (countG + bodyG));
    assert Material(n, u, h) == version + (Field(n.text, u) + (countH + bodyH));
    SplitEqual(version, Field(n.text, t) + (countG + bodyG), version, Field(n.text, u) + (countH + bodyH));
    FieldCancels(n.text, t, countG + bodyG, u, countH + bodyH);
    NumberCancels(n.rowCount, |g|, bodyG, |h|, bodyH);
    GridBytesInjective(n, g, h, 0);
    assert g[0..] == g && h[0..] == h;
  }
}
