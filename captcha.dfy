/**
 * The data model of the captcha service: the three shape kinds, a shape placed
 * on the 4 x 6 grid, and the challenge record that the server stores under a
 * session key. Also the human-readable label listing the kinds in order.
 */
module Captcha {
  import opened Wrappers

  /** Rows and columns of the grid laid over the background image. */
  const Rows := 4
  const Cols := 6
  /** Every challenge places exactly this many shapes. */
  const ShapeCount := 3

  datatype ShapeType = Circle | Square | Triangle

  /** One grid cell, the `[row, col]` pair the generator enumerates. */
  datatype Cell = Cell(row: int, col: int)

  /** A placed shape: its kind, its cell and its 1-based place in the order to click. */
  datatype Shape = Shape(kind: ShapeType, row: int, col: int, position: int)

  /** The record kept in the store: the shapes in click order and the display label. */
  datatype CaptchaData = CaptchaData(shapes: seq<Shape>, sequence: string)

  predicate InGrid(c: Cell) {
    0 <= c.row < Rows && 0 <= c.col < Cols
  }

  function CellOf(s: Shape): Cell {
    Cell(s.row, s.col)
  }

  /** The display name of a kind. */
  function KindName(k: ShapeType): (name: string)
    ensures |name| > 0 && ' ' !in name
  {
    match k
    case Circle => "Circle"
    case Square => "Square"
    case Triangle => "Triangle"
  }

  /** The separator placed between kind names in the label: a right arrow between spaces. */
  const Separator := " \U{2192} "

  /** Go's `strings.Join`: the parts with `sep` between consecutive ones. */
  function Join(parts: seq<string>, sep: string): string {
    if |parts| == 0 then ""
    else if |parts| == 1 then parts[0]
    else parts[0] + sep + Join(parts[1..], sep)
  }

  function KindNames(kinds: seq<ShapeType>): seq<string> {
    seq(|kinds|, i requires 0 <= i < |kinds| => KindName(kinds[i]))
  }

  function Kinds(shapes: seq<Shape>): seq<ShapeType> {
    seq(|shapes|, i requires 0 <= i < |shapes| => shapes[i].kind)
  }

  /** The label of a challenge: its kinds' names in click order, joined by the arrow. */
  function Label(shapes: seq<Shape>): string {
    Join(KindNames(Kinds(shapes)), Separator)
  }

  /**
   * What every generated challenge satisfies: three shapes, in distinct cells of
   * the grid, of distinct kinds, numbered 1, 2, 3 in order, and labelled by
   * their kinds in that order.
   */
  predicate WellFormed(c: CaptchaData) {
    && |c.shapes| == ShapeCount
    && (forall i :: 0 <= i < |c.shapes| ==> InGrid(CellOf(c.shapes[i])) && c.shapes[i].position == i + 1)
    && (forall i, j :: 0 <= i < j < |c.shapes| ==>
          CellOf(c.shapes[i]) != CellOf(c.shapes[j]) && c.shapes[i].kind != c.shapes[j].kind)
    && c.sequence == Label(c.shapes)
  }

  /** Every record in a store is a well-formed challenge. */
  predicate AllWellFormed(data: map<string, CaptchaData>) {
    forall k :: k in data ==> WellFormed(data[k])
  }

  /** The positions of a well-formed challenge are exactly 1, 2 and 3. */
  lemma PositionsAreOneTwoThree(c: CaptchaData)
    requires WellFormed(c)
    ensures (set s | s in c.shapes :: s.position) == {1, 2, 3}
  {
    var ps := set s | s in c.shapes :: s.position;
    assert c.shapes[0].position == 1 && c.shapes[1].position == 2 && c.shapes[2].position == 3;
    assert c.shapes[0] in c.shapes && c.shapes[1] in c.shapes && c.shapes[2] in c.shapes;
    forall p | p in ps ensures p in {1, 2, 3} {
      var s :| s in c.shapes && s.position == p;
      var i :| 0 <= i < |c.shapes| && c.shapes[i] == s;
    }
  }

  /** A well-formed challenge uses each of the three kinds exactly once. */
  lemma KindsAreAllThree(c: CaptchaData)
    requires WellFormed(c)
    ensures (set s | s in c.shapes :: s.kind) == {Circle, Square, Triangle}
  {
    var a, b, d := c.shapes[0].kind, c.shapes[1].kind, c.shapes[2].kind;
    assert a != b && a != d && b != d;
    assert c.shapes[0] in c.shapes && c.shapes[1] in c.shapes && c.shapes[2] in c.shapes;
    assert {a, b, d} == {Circle, Square, Triangle};
  }

  /** The kind whose name begins `s`, if any. */
  function LeadingKind(s: string): (r: Option<ShapeType>)
    ensures r.Some? ==> KindName(r.value) <= s
  {
    if KindName(Circle) <= s then Some(Circle)
    else if KindName(Square) <= s then Some(Square)
    else if KindName(Triangle) <= s then Some(Triangle)
    else None
  }

  /** Reads a label back into the kinds it names, in order. */
  function ParseLabel(s: string): Option<seq<ShapeType>>
    decreases |s|
  {
    match LeadingKind(s)
    case None => None
    case Some(k) =>
      var rest := s[|KindName(k)|..];
      if rest == [] then Some([k])
      else if Separator <= rest then
        match ParseLabel(rest[|Separator|..])
        case Some(ks) => Some([k] + ks)
        case None => None
      else None
  }

  /** No kind's name is a prefix of another kind's name followed by the separator or by nothing. */
  lemma LeadingKindOf(k: ShapeType, tail: string)
    requires tail == [] || Separator <= tail
    ensures LeadingKind(KindName(k) + tail) == Some(k)
  {
    var s := KindName(k) + tail;
    assert s[0] == KindName(k)[0];
    if tail != [] {
      assert s[|KindName(k)|] == ' ';
    }
  }

  /** Parsing a name, the separator and more gives that kind followed by the parse of the rest. */
  lemma ParseLabelCons(k: ShapeType, rest: string)
    ensures ParseLabel(KindName(k) + Separator + rest) ==
      match ParseLabel(rest)
      case Some(ks) => Some([k] + ks)
      case None => None
  {
    var tail := Separator + rest;
    LeadingKindOf(k, tail);
    assert KindName(k) + Separator + rest == KindName(k) + tail;
    assert (KindName(k) + tail)[|KindName(k)|..] == tail;
    assert tail[|Separator|..] == rest;
  }

  /** The label determines the kinds: parsing it gives them back in click order. */
  lemma {:induction false} ParseLabelRoundTrip(kinds: seq<ShapeType>)
    requires |kinds| > 0
    ensures ParseLabel(Join(KindNames(kinds), Separator)) == Some(kinds)
  {
    var k := kinds[0];
    var names := KindNames(kinds);
    if |kinds| == 1 {
      LeadingKindOf(k, []);
      assert Join(names, Separator) == KindName(k) + [];
      assert KindName(k)[|KindName(k)|..] == [];
      assert kinds == [k];
    } else {
      var tail := Join(KindNames(kinds[1..]), Separator);
      assert names[1..] == KindNames(kinds[1..]);
      assert Join(names, Separator) == KindName(k) + Separator + tail;
      ParseLabelCons(k, tail);
      ParseLabelRoundTrip(kinds[1..]);
      assert [k] + kinds[1..] == kinds;
    }
  }

  /** The label of a challenge names its shapes' kinds, in click order. */
  lemma LabelNamesKinds(shapes: seq<Shape>)
    requires |shapes| > 0
    ensures ParseLabel(Label(shapes)) == Some(Kinds(shapes))
  {
    ParseLabelRoundTrip(Kinds(shapes));
  }
}
