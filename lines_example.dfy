/**
 * The lines example's event handler: it draws a regenerable set of random lines into
 * an offscreen framebuffer that is resized with the window, shown through a square
 * viewport.
 */
module LinesExample {
  import opened Viewports
  import CArith

  /** How many vertices makeVertices generates. */
  const VertexCount: nat := 1000

  /** The windowing toolkit's key code for R. */
  const KEY_R: int := 82

  /** A line vertex: a 2D position and an RGBA colour. Its values come from a random source. */
  datatype Vertex = Vertex(x: real, y: real, r: real, g: real, b: real, a: real)

  /** The 2D extent of a texture or render buffer image. */
  datatype Extent = Extent(width: int, height: int)

  class EventHandler {
    /** The vertex list and what was last uploaded to the vertex buffer. */
    var vertices: seq<Vertex>
    var vboData: seq<Vertex>

    /** Whether each reference-counted pointer currently holds an object. */
    var hasVao: bool
    var hasVbo: bool
    var hasProgram: bool
    var hasFbo: bool
    var hasQuad: bool
    var hasColorTexture: bool
    var hasDepthBuffer: bool

    /** The storage sizes of the colour texture and the depth buffer. */
    var colorTextureSize: Extent
    var depthBufferSize: Extent

    constructor ()
      ensures vertices == [] && vboData == []
      ensures !hasVao && !hasVbo && !hasProgram && !hasFbo && !hasQuad
      ensures !hasColorTexture && !hasDepthBuffer
      ensures colorTextureSize == Extent(0, 0) && depthBufferSize == Extent(0, 0)
    {
      vertices := [];
      vboData := [];
      hasVao, hasVbo, hasProgram, hasFbo, hasQuad := false, false, false, false, false;
      hasColorTexture, hasDepthBuffer := false, false;
      colorTextureSize := Extent(0, 0);
      depthBufferSize := Extent(0, 0);
    }

    /**
     * Clears the vertex list and refills it with VertexCount vertices, the i-th taken
     * from draw(i), then uploads the list to the vertex buffer.
     */
    method MakeVertices(draw: nat -> Vertex)
      modifies this`vertices, this`vboData
      ensures |vertices| == VertexCount
      ensures forall i :: 0 <= i < |vertices| ==> vertices[i] == draw(i)
      ensures vboData == vertices
    {
      vertices := [];
      var i := 0;
      while i < VertexCount
        invariant 0 <= i <= VertexCount
        invariant |vertices| == i
        invariant forall k :: 0 <= k < i ==> vertices[k] == draw(k)
      {
        vertices := vertices + [draw(i)];
        i := i + 1;
      }
      vboData := vertices;
    }

    /** initialize: creates the wrapped objects and the first vertex set. */
    method Initialize(draw: nat -> Vertex)
      modifies this
      ensures hasVao && hasVbo && hasProgram && hasFbo && hasQuad && hasColorTexture && hasDepthBuffer
      ensures |vertices| == VertexCount && vboData == vertices
      ensures forall i :: 0 <= i < |vertices| ==> vertices[i] == draw(i)
      ensures colorTextureSize == Extent(0, 0) && depthBufferSize == Extent(0, 0)
    {
      hasVao, hasVbo := true, true;
      MakeVertices(draw);
      hasProgram := true;
      // The colour texture and the depth buffer are new objects without storage.
      hasColorTexture, colorTextureSize := true, Extent(0, 0);
      hasDepthBuffer, depthBufferSize := true, Extent(0, 0);
      hasFbo, hasQuad := true, true;
    }

    /** finalize: releases the vertex array, buffer, program, framebuffer and quad. */
    method Finalize()
      modifies this
      ensures !hasVao && !hasVbo && !hasProgram && !hasFbo && !hasQuad
      ensures hasColorTexture == old(hasColorTexture) && hasDepthBuffer == old(hasDepthBuffer)
      ensures vertices == old(vertices) && vboData == old(vboData)
      ensures colorTextureSize == old(colorTextureSize) && depthBufferSize == old(depthBufferSize)
    {
      hasVao, hasVbo, hasProgram, hasFbo, hasQuad := false, false, false, false, false;
    }

    /**
     * framebufferResizeEvent: returns the square viewport and gives the colour texture
     * and the depth buffer the full framebuffer size.
     */
    method FramebufferResizeEvent(width: int, height: int) returns (viewport: Rect)
      requires hasColorTexture && hasDepthBuffer
      modifies this`colorTextureSize, this`depthBufferSize
      ensures viewport == SquareViewport(width, height)
      ensures width >= 0 && height >= 0 ==> Inside(viewport, width, height)
      ensures colorTextureSize == Extent(width, height) && depthBufferSize == Extent(width, height)
    {
      var side := Min(width, height);
      viewport := Rect(CArith.Div(width - side, 2), CArith.Div(height - side, 2), side, side);
      if width >= 0 && height >= 0 {
        SquareInside(width, height);
      }
      colorTextureSize := Extent(width, height);
      depthBufferSize := Extent(width, height);
    }

    /** paintEvent: the number of vertices drawn as lines is the length of the vertex list. */
    method PaintEvent() returns (drawCount: int)
      requires hasFbo && hasProgram && hasVao && hasQuad
      ensures drawCount == |vertices|
    {
      drawCount := |vertices|;
    }

    /** keyPressEvent: R regenerates the vertices and asks for a repaint; other keys do nothing. */
    method KeyPressEvent(key: int, draw: nat -> Vertex) returns (repaint: bool)
      requires key == KEY_R ==> hasVbo
      modifies this`vertices, this`vboData
      ensures repaint <==> key == KEY_R
      ensures key == KEY_R ==> (|vertices| == VertexCount && vboData == vertices
        && forall i :: 0 <= i < |vertices| ==> vertices[i] == draw(i))
      ensures key != KEY_R ==> vertices == old(vertices) && vboData == old(vboData)
    {
      repaint := false;
      if key == KEY_R {
        MakeVertices(draw);
        repaint := true;
      }
    }
  }

  /** After a regeneration the frame draws exactly VertexCount vertices, whatever was drawn before. */
  method RegenerateThenPaint(h: EventHandler, draw: nat -> Vertex) returns (drawCount: int)
    requires h.hasVbo && h.hasFbo && h.hasProgram && h.hasVao && h.hasQuad
    modifies h
    ensures drawCount == VertexCount
  {
    var repaint := h.KeyPressEvent(KEY_R, draw);
    drawCount := h.PaintEvent();
  }
}
