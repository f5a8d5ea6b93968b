/**
 * The chapter-3 CPU position offset tutorial: every frame the constant triangle is
 * copied, the x/y offset is added to each vertex (four components per vertex), and
 * the copy is uploaded over the whole vertex buffer.
 */
module VertexOffset {

  /** The triangle in clip space: three vertices of (x, y, z, w). */
  const VertexPositions: seq<real> := [
    0.25, 0.25, 0.0, 1.0,
    0.25, -0.25, 0.0, 1.0,
    -0.25, -0.25, 0.0, 1.0
  ]

  /** A buffer sub-data upload: the byte offset (in components here) and the data written there. */
  datatype Upload = Upload(offset: int, data: seq<real>)

  /** Component k of a vertex array after adding the offset to every x (k % 4 == 0) and y (k % 4 == 1). */
  function Shifted(s: seq<real>, dx: real, dy: real, k: int): (c: real)
    requires 0 <= k < |s|
  {
    if k % 4 == 0 then s[k] + dx else if k % 4 == 1 then s[k] + dy else s[k]
  }

  /** The whole vertex array with every vertex moved by (dx, dy). */
  function Adjusted(s: seq<real>, dx: real, dy: real): (r: seq<real>)
    ensures |r| == |s|
  {
    seq(|s|, k requires 0 <= k < |s| => Shifted(s, dx, dy, k))
  }

  /**
   * The copy-and-offset loop on a copy of `positions`, stepping four components at a
   * time. The access at i + 1 stays in bounds because the length is a multiple of four.
   */
  method AdjustVertices(positions: seq<real>, dx: real, dy: real) returns (r: seq<real>)
    requires |positions| % 4 == 0
    ensures |r| == |positions|
    ensures forall k :: 0 <= k < |r| && k % 4 == 0 ==> r[k] == positions[k] + dx
    ensures forall k :: 0 <= k < |r| && k % 4 == 1 ==> r[k] == positions[k] + dy
    ensures forall k :: 0 <= k < |r| && k % 4 >= 2 ==> r[k] == positions[k]
    ensures r == Adjusted(positions, dx, dy)
  {
    var newData := new real[|positions|](k requires 0 <= k < |positions| => positions[k]);
    var i := 0;
    while i < newData.Length
      invariant 0 <= i <= newData.Length && i % 4 == 0
      invariant forall k :: 0 <= k < i ==> newData[k] == Shifted(positions, dx, dy, k)
      invariant forall k :: i <= k < newData.Length ==> newData[k] == positions[k]
    {
      newData[i] := newData[i] + dx;
      newData[i + 1] := newData[i + 1] + dy;
      i := i + 4;
    }
    r := newData[..];
  }

  /**
   * adjustVertexData: adjusts a fresh copy of the constant triangle and uploads it
   * over the whole buffer, from offset 0.
   */
  method AdjustVertexData(dx: real, dy: real) returns (upload: Upload)
    ensures upload.offset == 0 && |upload.data| == |VertexPositions| == 12
    ensures upload.data == Adjusted(VertexPositions, dx, dy)
  {
    var newData := AdjustVertices(VertexPositions, dx, dy);
    upload := Upload(0, newData);
  }

  /** Zero offsets reproduce the original data. */
  lemma AdjustedByZero(s: seq<real>)
    ensures Adjusted(s, 0.0, 0.0) == s
  {
  }

  /**
   * Two adjustments in a row are one adjustment by the summed offsets. The program never
   * adjusts twice (each frame starts again from the constant); this holds of the model
   * because its components are exact reals, whereas float addition is not associative.
   */
  lemma AdjustedTwice(s: seq<real>, dx1: real, dy1: real, dx2: real, dy2: real)
    ensures Adjusted(Adjusted(s, dx1, dy1), dx2, dy2) == Adjusted(s, dx1 + dx2, dy1 + dy2)
  {
  }

  /**
   * Adjusting is undone by the opposite offsets. Like AdjustedTwice, this is a fact of
   * the exact real-valued model, not of float arithmetic.
   */
  lemma AdjustedInverse(s: seq<real>, dx: real, dy: real)
    ensures Adjusted(Adjusted(s, dx, dy), -dx, -dy) == s
  {
    AdjustedTwice(s, dx, dy, -dx, -dy);
    AdjustedByZero(s);
  }
}
