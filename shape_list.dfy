/** The shape list: an ordered, 0-based collection of shapes with append,
    bounds-checked lookup and removal, measure accessors that answer -1 for a
    position out of range, whole-list move and resize, and a text listing. */
module ShapeCollection {

  import opened Shapes
  import Decimal

  /** A shape or nothing: the source answers a null pointer for a position out
      of range. */
  datatype Option<T> = None | Some(value: T)

  /** The sequence without its element at index `i`; later elements move down
      by one. */
  function RemoveAt<T>(s: seq<T>, i: nat): (r: seq<T>)
    requires i < |s|
    ensures |r| == |s| - 1
    ensures forall k :: 0 <= k < i ==> r[k] == s[k]
    ensures forall k :: i <= k < |r| ==> r[k] == s[k + 1]
  {
    s[..i] + s[i + 1..]
  }

  /** Every shape moved by (dx, dy), in the same order. */
  function TranslateAll(shapes: seq<Shape>, dx: int, dy: int): (r: seq<Shape>)
    ensures |r| == |shapes|
    ensures forall k :: 0 <= k < |shapes| ==> r[k] == Translate(shapes[k], dx, dy)
  {
    if shapes == [] then [] else [Translate(shapes[0], dx, dy)] + TranslateAll(shapes[1..], dx, dy)
  }

  /** Every shape resized by `factor` in direction `up`, in the same order. */
  function ScaleAll(shapes: seq<Shape>, factor: int, up: bool): (r: seq<Shape>)
    requires up || factor != 0
    ensures |r| == |shapes|
    ensures forall k :: 0 <= k < |shapes| ==> r[k] == Shapes.Scale(shapes[k], factor, up)
  {
    if shapes == [] then [] else [Shapes.Scale(shapes[0], factor, up)] + ScaleAll(shapes[1..], factor, up)
  }

  /** One line of the listing: the word "Shape", the index in decimal, a
      colon, the shape's own text, and a line break. */
  function Entry(index: nat, s: Shape, describe: Shape -> string): (r: string)
    ensures var digits := Decimal.NatToString(index);
      |r| == 9 + |digits| + |describe(s)| &&
      r[..6] == "Shape " && r[6..6 + |digits|] == digits &&
      r[6 + |digits|..8 + |digits|] == ": " &&
      r[8 + |digits|..|r| - 1] == describe(s) && r[|r| - 1] == '\n'
  {
    "Shape " + Decimal.NatToString(index) + ": " + describe(s) + "\n"
  }

  /** The listing of a whole sequence of shapes: one entry per shape, in order,
      numbered from 1. It is empty exactly when there are no shapes. */
  function Listing(shapes: seq<Shape>, describe: Shape -> string): (r: string)
    ensures r == "" <==> shapes == []
  {
    if shapes == [] then ""
    else Listing(shapes[..|shapes| - 1], describe) + Entry(|shapes|, shapes[|shapes| - 1], describe)
  }

  /** Appending a shape and then removing the last position gives back the
      original sequence. */
  lemma RemoveAfterAppend(s: seq<Shape>, x: Shape)
    ensures RemoveAt(s + [x], |s|) == s
  {
    assert (s + [x])[..|s|] == s;
  }

  /** Moving every shape by (dx, dy) and then by (-dx, -dy) restores the list. */
  lemma {:induction false} TranslateAllRoundTrip(shapes: seq<Shape>, dx: int, dy: int)
    ensures TranslateAll(TranslateAll(shapes, dx, dy), -dx, -dy) == shapes
  {
    var back := TranslateAll(TranslateAll(shapes, dx, dy), -dx, -dy);
    forall k | 0 <= k < |shapes| ensures back[k] == shapes[k] {
      TranslateRoundTrip(shapes[k], dx, dy);
    }
  }

  /** Resizing every shape up by a nonzero factor and then down by it restores
      the list. */
  lemma {:induction false} ScaleAllRoundTrip(shapes: seq<Shape>, factor: int)
    requires factor != 0
    ensures ScaleAll(ScaleAll(shapes, factor, true), factor, false) == shapes
  {
    var back := ScaleAll(ScaleAll(shapes, factor, true), factor, false);
    forall k | 0 <= k < |shapes| ensures back[k] == shapes[k] {
      ScaleRoundTrip(shapes[k], factor);
    }
  }

  /** Moving the whole list keeps the area and perimeter of every rectangle,
      square and circle in it. */
  lemma {:induction false} TranslateAllKeepsMeasures(shapes: seq<Shape>, dx: int, dy: int)
    ensures forall k :: 0 <= k < |shapes| && !shapes[k].Triangle? ==>
      Area(TranslateAll(shapes, dx, dy)[k]) == Area(shapes[k]) &&
      Perimeter(TranslateAll(shapes, dx, dy)[k]) == Perimeter(shapes[k])
  {
    forall k | 0 <= k < |shapes| && !shapes[k].Triangle?
      ensures Area(TranslateAll(shapes, dx, dy)[k]) == Area(shapes[k])
      ensures Perimeter(TranslateAll(shapes, dx, dy)[k]) == Perimeter(shapes[k])
    {
      TranslateKeepsMeasures(shapes[k], dx, dy);
    }
  }

  /** The collection. Positions are 0-based; a position is valid when it is at
      least zero and below the size. */
  class ShapeList {
    var shapes: seq<Shape>

    /** A new list is empty. */
    constructor ()
      ensures shapes == []
    {
      shapes := [];
    }

    /** The number of shapes held. */
    function Size(): (n: int)
      reads this
      ensures n == |shapes|
    {
      |shapes|
    }

    /** The shape at `pos` exactly when `pos` is a valid position, and nothing
      otherwise. */
    function GetShape(pos: int): (r: Option<Shape>)
      reads this
      ensures r.Some? <==> 0 <= pos < |shapes|
      ensures r.Some? ==> r.value == shapes[pos]
    {
      if 0 <= pos < |shapes| then Some(shapes[pos]) else None
    }

    /** Appends a shape: the size grows by one, the new shape is last and every
        earlier shape keeps its position. */
    method AddShape(s: Shape)
      modifies this
      ensures shapes == old(shapes) + [s]
      ensures Size() == old(Size()) + 1 && GetShape(Size() - 1) == Some(s)
      ensures forall k :: 0 <= k < old(Size()) ==> GetShape(k) == old(GetShape(k))
    {
      shapes := shapes + [s];
    }

    /** Removes and returns the shape at a valid position: the size drops by
        one, earlier shapes stay put and later ones move down by one. At an
        invalid position it returns nothing and changes nothing. */
    method RemoveShape(pos: int) returns (removed: Option<Shape>)
      modifies this
      ensures removed == old(GetShape(pos))
      ensures removed.Some? ==> shapes == RemoveAt(old(shapes), pos)
      ensures removed.Some? ==>
        Size() == old(Size()) - 1 &&
        (forall k :: 0 <= k < pos ==> shapes[k] == old(shapes)[k]) &&
        (forall k :: pos <= k < |shapes| ==> shapes[k] == old(shapes)[k + 1])
      ensures removed.None? ==> shapes == old(shapes)
    {
      if 0 <= pos < |shapes| {
        removed := Some(shapes[pos]);
        shapes := RemoveAt(shapes, pos);
      } else {
        removed := None;
      }
    }

    /** The area of the shape at a valid position, and -1 otherwise. */
    function Area(pos: int): (r: Measure)
      reads this
      ensures 0 <= pos < |shapes| ==> r == Shapes.Area(shapes[pos])
      ensures !(0 <= pos < |shapes|) ==> r == Known(-1.0)
    {
      if 0 <= pos < |shapes| then Shapes.Area(shapes[pos]) else Known(-1.0)
    }

    /** The perimeter of the shape at a valid position, and -1 otherwise. */
    function Perimeter(pos: int): (r: Measure)
      reads this
      ensures 0 <= pos < |shapes| ==> r == Shapes.Perimeter(shapes[pos])
      ensures !(0 <= pos < |shapes|) ==> r == Known(-1.0)
    {
      if 0 <= pos < |shapes| then Shapes.Perimeter(shapes[pos]) else Known(-1.0)
    }

    /** Moves every shape by (dx, dy), front to back; the length and the order
        of the list do not change. */
    method TranslateShapes(dx: int, dy: int)
      modifies this
      ensures shapes == TranslateAll(old(shapes), dx, dy)
    {
      var i := 0;
      while i < |shapes|
        invariant 0 <= i <= |shapes| == |old(shapes)|
        invariant forall k :: 0 <= k < i ==> shapes[k] == Translate(old(shapes)[k], dx, dy)
        invariant forall k :: i <= k < |shapes| ==> shapes[k] == old(shapes)[k]
      {
        shapes := shapes[i := Translate(shapes[i], dx, dy)];
        i := i + 1;
      }
    }

    /** Resizes every shape by `factor`, up or down, front to back; the length
        and the order of the list do not change. */
    method Scale(factor: int, up: bool)
      requires up || factor != 0
      modifies this
      ensures shapes == ScaleAll(old(shapes), factor, up)
    {
      var i := 0;
      while i < |shapes|
        invariant 0 <= i <= |shapes| == |old(shapes)|
        invariant forall k :: 0 <= k < i ==> shapes[k] == Shapes.Scale(old(shapes)[k], factor, up)
        invariant forall k :: i <= k < |shapes| ==> shapes[k] == old(shapes)[k]
      {
        shapes := shapes[i := Shapes.Scale(shapes[i], factor, up)];
        i := i + 1;
      }
    }

    /** The listing of the whole collection, with `describe` giving each
        shape's own text; empty exactly when the collection is. */
    method Display(describe: Shape -> string) returns (result: string)
      ensures result == Listing(shapes, describe)
      ensures result == "" <==> Size() == 0
    {
      result := "";
      var i := 0;
      while i < |shapes|
        invariant 0 <= i <= |shapes|
        invariant result == Listing(shapes[..i], describe)
      {
        assert shapes[..i + 1][..i] == shapes[..i];
        result := result + Entry(i + 1, shapes[i], describe);
        i := i + 1;
      }
      assert shapes[..i] == shapes;
    }
  }
}
