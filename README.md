# Shape list model

A Dafny model of the non-interactive core of a small C++ drawing program.
It covers two parts:

- the shape value model: points (`Coordinate`) and the four shape variants
  Rectangle, Square, Circle and Triangle, with their areas, perimeters, and
  their move (`translate`) and resize (`scale`) rules;
- the `ShapeList` collection: a 0-based list of shapes with append,
  bounds-checked lookup and removal, area and perimeter accessors that answer
  -1 for a bad position, whole-list move and resize, and a text listing.

Files:

- `shapes.dfy`, module `Shapes`: the `Coordinate` and `Shape` datatypes and the
  point and shape operations as functions. Coordinates and dimensions are
  exact `real`s. Shape deltas and scale factors are `int`, as in the source's
  virtual signatures. The lemmas cover round trips, composition, how the
  measures react to a move or a resize, and a few concrete values.
- `decimal.dfy`, module `Decimal`: the decimal text of the 1-based index that
  the listing prints, with its read-back round trip.
- `shape_list.dfy`, module `ShapeCollection`: specification functions over
  sequences of shapes and the class `ShapeList`. The class holds a
  `seq<Shape>` field. Its mutating methods reassign that field and state the
  whole new list. Its read-only accessors are functions that read the object.

Behaviour of the code that the model keeps as written:

- A `Square` has no `scale` of its own and inherits the base rule, which
  resizes the position and leaves `side` alone (main.cpp:93-95).
- `Rectangle::scale` leaves the position alone; the line that would resize it
  is commented out (main.cpp:137).
- A `Triangle` keeps the `position` it inherits, set to its first vertex at
  construction (main.cpp:242); its `translate` and `scale` never update it
  (main.cpp:259-276). The model keeps the field and proves it goes stale.
- A triangle's side lengths come from `Coordinate::distance`, which reads the
  other point through the `int` getters and so truncates its coordinates
  (main.cpp:19-33). A triangle's measures can therefore change under a move.
- Positions in the list are 0-based; the interactive menu converts the user's
  1-based input (main.cpp:439, 454, 468).

## Model

| member | source | states |
|---|---|---|
| Shapes.TranslatePoint | main.cpp:36-39 | the point moves by exactly (dx, dy) |
| Shapes.ScaleValue | main.cpp:138-144 | up multiplies a dimension by the factor; down gives a value that times the factor is the old one |
| Shapes.ScalePoint | main.cpp:43-51 | up multiplies both coordinates by the factor; down gives coordinates that times the factor are the old ones |
| Shapes.TranslatePointRoundTrip | main.cpp:36-39 | moving a point by (dx, dy) then (-dx, -dy) restores it |
| Shapes.ScalePointRoundTrip | main.cpp:43-51 | for a nonzero factor, up then down, and down then up, restore the point |
| Shapes.TruncateToInt | main.cpp:19-26 | the integer read of a double lies within one of it, rounding toward zero |
| Shapes.DistanceSquared | main.cpp:29-33 | the squared distance is never negative, and is the exact squared Euclidean distance when the other point's coordinates are whole numbers |
| Shapes.MakeTriangle | main.cpp:241-242 | a new triangle's inherited position is its first vertex |
| Shapes.Area | main.cpp:97-98 | the area is known exactly for every variant but the triangle, and is never negative when the dimensions are not |
| Shapes.Perimeter | main.cpp:100-101 | the perimeter is known exactly for every variant but the triangle, and is never negative when the dimensions are not |
| Shapes.Translate | main.cpp:86-89 | no variant or dimension changes; rectangle, square and circle move their position by (dx, dy); a triangle moves its three vertices and keeps its position |
| Shapes.Scale | main.cpp:91-95 | the variant is kept; a square resizes its position and keeps its side; the others keep their position; a rectangle resizes width and length, a circle its radius, a triangle its three vertices |
| Shapes.TranslateRoundTrip | main.cpp:259-263 | translating by (dx, dy) then (-dx, -dy) restores every field of every variant |
| Shapes.TranslateCompose | main.cpp:130-132 | two moves equal one move by the summed deltas |
| Shapes.TranslateKeepsMeasures | main.cpp:174-177 | a move changes neither the area nor the perimeter of a rectangle, square or circle |
| Shapes.ScaleRoundTrip | main.cpp:266-276 | for a nonzero factor, scaling up then down restores every field of every variant |
| Shapes.ScaleUpMeasures | main.cpp:136-145 | scaling up by f multiplies a rectangle's or circle's area by f*f and its perimeter by f; a square's area and perimeter do not change |
| Shapes.ScaleDownMeasures | main.cpp:212-218 | scaling down by f divides a rectangle's or circle's area by f*f and its perimeter by f; a square's do not change |
| Shapes.SquareIsRectangle | main.cpp:164-172 | a square of side a has the area and perimeter of the a-by-a rectangle |
| Shapes.RectangleIsoperimetric | main.cpp:119-127 | a sanity check of the formulas: a rectangle's perimeter squared is at least 16 times its area, with equality for equal width and length |
| Shapes.CircleAreaFromPerimeter | main.cpp:196-204 | a circle's area is half its perimeter times its radius |
| Shapes.TrianglePositionGoesStale | main.cpp:241-263 | after any nonzero move a triangle's position still equals its original first vertex, while its first vertex has moved |
| Shapes.TriangleSideChangesUnderMove | main.cpp:245-263 | a triangle side, measured through the truncating distance, has squared length 0 before a move by (-1, 0) and 1 after it |
| Shapes.WorkedExamples | main.cpp:119-204 | rectangle 3 by 4 has area 12 and perimeter 14; square of side 5 has 25 and 20; circle of radius 2 has 12.566 and 12.566 |
| Decimal.NatToString | main.cpp:354 | the index text is non-empty, all digits, and starts with 0 only for zero |
| Decimal.NatToStringRoundTrip | main.cpp:354 | reading the index text back gives the index |
| ShapeCollection.RemoveAt | main.cpp:321 | erasing index i drops the length by one, keeps the elements before i and shifts later ones down by one |
| ShapeCollection.TranslateAll | main.cpp:303-307 | the list keeps its length and order, and each shape is that shape moved |
| ShapeCollection.ScaleAll | main.cpp:336-340 | the list keeps its length and order, and each shape is that shape resized |
| ShapeCollection.Entry | main.cpp:354 | an entry is "Shape ", the decimal index, ": ", the shape's own text and a line break, in that order |
| ShapeCollection.Listing | main.cpp:351-357 | the listing is empty exactly when the list is |
| ShapeCollection.RemoveAfterAppend | main.cpp:293-296 | appending a shape and then removing the last position restores the list |
| ShapeCollection.TranslateAllRoundTrip | main.cpp:303-307 | moving the whole list by (dx, dy) then (-dx, -dy) restores it |
| ShapeCollection.ScaleAllRoundTrip | main.cpp:336-340 | for a nonzero factor, scaling the whole list up then down restores it |
| ShapeCollection.TranslateAllKeepsMeasures | main.cpp:303-307 | moving the whole list keeps the area and perimeter of every rectangle, square and circle in it |
| ShapeCollection.ShapeList.constructor | main.cpp:286-290 | a new list is empty |
| ShapeCollection.ShapeList.Size | main.cpp:298-300 | the size is the number of shapes held |
| ShapeCollection.ShapeList.GetShape | main.cpp:310-315 | a shape is returned exactly when 0 <= pos < size, and it is the one at pos; otherwise nothing; the list is not changed |
| ShapeCollection.ShapeList.AddShape | main.cpp:293-296 | the size grows by one, the new shape is last, every earlier position keeps its shape |
| ShapeCollection.ShapeList.RemoveShape | main.cpp:318-325 | in range: returns the shape at pos, the size drops by one, earlier shapes stay and later ones shift down; out of range: returns nothing and the list is unchanged |
| ShapeCollection.ShapeList.Area | main.cpp:328-333 | in range: the area of the shape at pos; out of range: -1 |
| ShapeCollection.ShapeList.Perimeter | main.cpp:343-348 | in range: the perimeter of the shape at pos; out of range: -1 |
| ShapeCollection.ShapeList.TranslateShapes | main.cpp:303-307 | the new list is the old one with every shape moved, same length and order |
| ShapeCollection.ShapeList.Scale | main.cpp:336-340 | the new list is the old one with every shape resized, same length and order |
| ShapeCollection.ShapeList.Display | main.cpp:351-357 | the text is one numbered entry per shape in order, and is empty exactly when the list is |

## Left out

- The interactive menu (`ShapeManagement` and `main`, main.cpp:361-549): console
  prompts and reads, the 1-based to 0-based position conversion, and the
  `delete` of removed shapes. It is input/output glue around the core.
- The confirmation line that `addShape` prints (main.cpp:295): a console side
  effect only.
- Each shape's own `display()` and `Coordinate::display()` (main.cpp:54-56,
  148-151, 180-183, 221-224, 279-282): they format doubles with the standard
  library. `ShapeList.Display` takes each shape's text as a parameter,
  `describe`, and models only the numbering and the concatenation.
- The square root in `Coordinate::distance`, and with it `Triangle::getArea`
  (Heron's formula) and `Triangle::getPerimeter` (main.cpp:29-33, 236-256):
  the model stops at `DistanceSquared`, the quantity under the root. A
  triangle's area and perimeter are the value `NeedsSquareRoot`, so
  `ShapeList.Area` and `ShapeList.Perimeter` return that value for a triangle
  in range.
- Shapes.TranslateKeepsMeasures: covers rectangles, squares and circles only; a triangle's measures are not move-invariant in the source, because `distance` truncates the other point's coordinates (see `Shapes.TriangleSideChangesUnderMove`).
- ShapeCollection.TranslateAllKeepsMeasures: covers the rectangles, squares and circles in the list only, for the same reason.
- IEEE double behaviour (rounding, NaN, infinity, overflow): values are exact
  reals. The sentinel -1 is therefore as ambiguous as in the source, since a
  shape with a negative dimension can have area -1.
- ShapeCollection.ShapeList.Scale: requires a nonzero factor when scaling down even on an empty list, where the source divides nothing; a zero divisor in the source yields infinities or NaN, which reals cannot represent.
- ShapeCollection.ScaleAll: same nonzero-factor requirement as `ShapeList.Scale`, for the same reason.
- Shape objects updated in place through `Shape*` pointers: the list holds shape
  values, and a move or resize replaces each element. Sharing one shape object
  between two list positions is therefore not modelled.
- The `Coordinate(int, int)` constructor, `getCoordinates`, `setCoordinates`,
  `getSides` and the `sides` field (main.cpp:16, 67-84): constructors and
  accessors with no behaviour of their own. Any real coordinate is allowed,
  since a resize down produces non-integral values.
- The conversion of the vector's unsigned size to `int` in `size()`
  (main.cpp:298-300): the model's size is unbounded.
