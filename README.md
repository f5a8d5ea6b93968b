# globjects: verified model of the example programs' arithmetic and the reference counter

globjects wraps a native 3D graphics API in reference-counted C++ objects and ships
tutorial programs that use it. Almost all of it forwards calls to the graphics driver.
This project models the few pieces that compute something on their own:

- **Viewports**: the centred square viewport that the chapter-1 "further studies"
  tutorial and the lines example compute when the framebuffer is resized. The side is
  min(width, height) and the square is centred.
- **ViewportCycling**: the chapter-2 "vertex colors, further studies" key handler.
  Each press of C moves a three-valued flag to the next value and sets a viewport
  rectangle. Other keys do nothing.
- **VertexOffset**: `adjustVertexData` from the chapter-3 CPU position offset tutorial.
  It copies the constant triangle, adds the x/y offset to every vertex (stride 4), and
  uploads the copy over the whole buffer.
- **RefCounting**: `Referenced`, the intrusive reference counter that every wrapped
  object inherits. `ref()` and `unref()` change the count, and the object is deleted
  when the count drops to zero.
- **LinesExample**: the lines example's handler. It regenerates 1000 vertices on R,
  draws as many vertices as the list holds, resizes its offscreen targets to the full
  framebuffer, and drops its references on finalize.
- **CArith**: C++ integer division, which truncates toward zero.
- **Wrappers**: the `Option` type shared by the modules.

The C++ enum `Viewport` is unscoped, so the flag is modelled as an `int` with the
enumerator values 0, 1 and 2. That keeps the handler's final `else` branch (an
out-of-range flag resets to DEFAULT) in the model. The class invariant `Valid()` shows
that this branch is never reached from a constructed handler.

The model follows the key handler's code, not its comments, and the two disagree in
all three branches. The graphics API puts the origin at the bottom left, so:

- Entering UPPER_HALF sets the full framebuffer (0, 0, fw, fh). Its comment says the upper half.
- Entering LOWER_HALF sets (0, fh/2, fw, fh/2), which is the upper half. Its comment says the lower half.
- Entering DEFAULT sets (0, 0, fw, fh/2), which is the lower half. Its comment says the whole window.

Each branch sets the rectangle that the comment of the branch before it describes.

Keys are the windowing toolkit's key codes (C = 67, R = 82). Vertex data is `real`.
The random contents of the line vertices are a parameter `draw`: draw(i) is the i-th
random vertex.

## Model

| member | source | states |
|---|---|---|
| CArith.Div | source/examples/lines/main.cpp:142 | C++ division truncates toward zero; for a >= 0 and b > 0 it is the floor quotient, and for a < 0 it is minus the quotient of -a |
| Viewports.AspectViewport | source/tutorial/arcsynthesis/chapter1/further-studies.cpp:138-156 | the viewport is square, its side is min(width, height), and at most one of x, y is non-zero |
| Viewports.AspectSide | source/tutorial/arcsynthesis/chapter1/further-studies.cpp:150-154 | the side is the height when width >= height, else the width |
| Viewports.AspectOrigin | source/tutorial/arcsynthesis/chapter1/further-studies.cpp:138-148 | x is (w-h)/2 when w > h and 0 otherwise; y is (h-w)/2 when h > w and 0 otherwise |
| Viewports.AspectInside | source/tutorial/arcsynthesis/chapter1/further-studies.cpp:138-156 | for non-negative dimensions the square lies inside the framebuffer (x + size <= w, y + size <= h, all parts non-negative) |
| Viewports.AspectCentred | source/tutorial/arcsynthesis/chapter1/further-studies.cpp:138-154 | the two horizontal margins differ by 0 or 1, and so do the two vertical margins |
| Viewports.AspectOfSquare | source/tutorial/arcsynthesis/chapter1/further-studies.cpp:138-156 | a square framebuffer gives exactly (0, 0, w, h) |
| Viewports.SquareViewport | source/examples/lines/main.cpp:140-142 | the lines example's viewport has extent side x side with side = min(width, height) |
| Viewports.SquareInside | source/examples/lines/main.cpp:140-142 | the origin ((w-side)/2, (h-side)/2) centres the square (margins differ by at most 1), and the square lies inside the w x h framebuffer |
| Viewports.SameViewport | source/examples/lines/main.cpp:140-142 | the lines example and the chapter-1 tutorial compute the same rectangle for every pair of dimensions |
| ViewportCycling.OnKey | examples/arcsynthesis/chapter2/VertexColors-FurtherStudies.cpp:288-356 | a key other than C changes nothing and sets no viewport; C always yields an enumerator and always sets a viewport |
| ViewportCycling.CycleOrder | examples/arcsynthesis/chapter2/VertexColors-FurtherStudies.cpp:302-333 | C moves DEFAULT to UPPER_HALF with (0,0,fw,fh), UPPER_HALF to LOWER_HALF with (0,fh/2,fw,fh/2), and LOWER_HALF to DEFAULT with (0,0,fw,fh/2) |
| ViewportCycling.RectsInside | examples/arcsynthesis/chapter2/VertexColors-FurtherStudies.cpp:302-344 | every rectangle set has x = 0 and width = fw, and lies inside the framebuffer (so y + height <= fh) |
| ViewportCycling.FallbackResets | examples/arcsynthesis/chapter2/VertexColors-FurtherStudies.cpp:335-344 | a flag outside the three enumerators resets to DEFAULT with the full framebuffer |
| ViewportCycling.PressesCycle | examples/arcsynthesis/chapter2/VertexColors-FurtherStudies.cpp:305-333 | n presses of C advance the flag by n modulo 3, so every three presses return it to its start |
| ViewportCycling.EventHandler.constructor | examples/arcsynthesis/chapter2/VertexColors-FurtherStudies.cpp:470 | the flag starts at DEFAULT |
| ViewportCycling.EventHandler.KeyPressEvent | examples/arcsynthesis/chapter2/VertexColors-FurtherStudies.cpp:288-356 | the new flag and the viewport set are those of OnKey; the enumerator invariant is kept; other keys leave the flag alone and set nothing |
| ViewportCycling.ThreePresses | examples/arcsynthesis/chapter2/VertexColors-FurtherStudies.cpp:305-333 | three presses on a new handler bring the flag back to DEFAULT |
| VertexOffset.Adjusted | source/tutorial/arcsynthesis/chapter3/CPUPositionOffset.cpp:470-480 | the adjusted array has as many components as the original |
| VertexOffset.AdjustVertices | source/tutorial/arcsynthesis/chapter3/CPUPositionOffset.cpp:470-480 | if the length is a multiple of 4 (so every access at i+1 is in bounds), index k % 4 == 0 gets + dx, k % 4 == 1 gets + dy, z and w are unchanged, and the length is kept |
| VertexOffset.AdjustVertexData | source/tutorial/arcsynthesis/chapter3/CPUPositionOffset.cpp:465-498 | the upload starts at offset 0 and covers all 12 components; its data depends only on the offsets, because the constant input is never changed |
| VertexOffset.AdjustedByZero | source/tutorial/arcsynthesis/chapter3/CPUPositionOffset.cpp:477-480 | zero offsets give a copy equal to the original |
| VertexOffset.AdjustedTwice | source/tutorial/arcsynthesis/chapter3/CPUPositionOffset.cpp:477-480 | adjusting twice is one adjustment by the summed offsets (a fact of the exact real-valued model) |
| VertexOffset.AdjustedInverse | source/tutorial/arcsynthesis/chapter3/CPUPositionOffset.cpp:477-480 | the opposite offsets undo an adjustment (a fact of the exact real-valued model) |
| RefCounting.AfterRef | include/glow/Referenced.h:20-23 | ref() raises the count by exactly one and the object stays alive |
| RefCounting.AfterUnref | include/glow/Referenced.h:8-27 | unref() lowers the count by exactly one, and the object is deleted exactly when the count reaches zero |
| RefCounting.StepsConsistent | include/glow/Referenced.h:8-41 | both operations keep the count non-negative and zero on a deleted object |
| RefCounting.RefThenUnref | include/glow/Referenced.h:20-27 | ref() followed by unref() on an object with count >= 1 restores the count and keeps it alive |
| RefCounting.RunCount | include/glow/Referenced.h:20-27 | over any permitted sequence of calls the count moves by the number of ref() calls minus the number of unref() calls |
| RefCounting.DeletedIsFinal | include/glow/Referenced.h:10-12 | no operation is permitted on a deleted object |
| RefCounting.Referenced.constructor | include/glow/Referenced.h:17 | a new object is alive with count 0 |
| RefCounting.Referenced.Ref | include/glow/Referenced.h:20-23 | the state becomes AfterRef of the old state |
| RefCounting.Referenced.Unref | include/glow/Referenced.h:24-27 | the state becomes AfterUnref of the old state; alive becomes false when the count reaches zero |
| RefCounting.Referenced.RefCounter | include/glow/Referenced.h:28-31 | returns the current count, which is non-negative, and changes nothing |
| RefCounting.RefUnrefRestores | include/glow/Referenced.h:20-27 | a ref()/unref() pair on a shared object leaves its state unchanged |
| LinesExample.EventHandler.constructor | source/examples/lines/main.cpp:68-70 | the handler starts with an empty vertex list and buffer, holds no object, and has no target storage |
| LinesExample.EventHandler.MakeVertices | source/examples/lines/main.cpp:188-200 | afterwards the list holds exactly 1000 vertices, the i-th random draw at index i, whatever it held before, and the vertex buffer holds the list |
| LinesExample.EventHandler.Initialize | source/examples/lines/main.cpp:76-125 | every object is created, the first 1000 vertices are made and uploaded, and the new colour texture and depth buffer have no storage yet (extent 0 x 0) |
| LinesExample.EventHandler.Finalize | source/examples/lines/main.cpp:127-134 | vao, vbo, program, fbo and quad are released; the colour texture, the depth buffer and the vertices stay |
| LinesExample.EventHandler.FramebufferResizeEvent | source/examples/lines/main.cpp:136-147 | the viewport is the centred square inside the framebuffer; the colour texture and the depth buffer get the full w x h, not the side |
| LinesExample.EventHandler.PaintEvent | source/examples/lines/main.cpp:149-161 | the line draw count is the current length of the vertex list |
| LinesExample.EventHandler.KeyPressEvent | source/examples/lines/main.cpp:168-175 | R regenerates the vertices and requests a repaint (only this key needs the vertex buffer); any other key leaves the list and the buffer unchanged |
| LinesExample.RegenerateThenPaint | source/examples/lines/main.cpp:168-175 | after R, the next frame draws exactly 1000 vertices |

## Left out

- Every native graphics call is left out: binding, buffer uploads to the driver, draw calls, shader compilation, and the viewport call itself. The model returns the arguments these calls receive (viewport rectangles, upload offset and data, draw count) instead.
- Window creation, the main loop, timers, repaint scheduling and console output are windowing-toolkit I/O and are not modelled. The repaint request is returned as a flag.
- `computePositionOffset` and the perspective matrix use floating-point trigonometry and are not modelled. Vertex components are `real`, so float rounding is not modelled.
- VertexOffset.AdjustVertexData: the call `setSubData(sizeof(vertexPositions), 0, &fNewData[0])` is read as (size, offset, data). The buffer class is not part of this model. This order agrees with the `setData(size, data, usage)` call earlier in the same file and with the `glBufferSubData(target, 0, size, data)` call in the original tutorial's code quoted there.
- The random vertex contents in `makeVertices` are a parameter, so the model sees only their count and order.
- The chapter-2 handler's `framebufferResizeEvent` only forwards to the viewport call and is not modelled.
- Widths and heights are unbounded integers. The 32-bit `GLint` overflow of `width - height` for extreme values is not modelled.
- The implementation file of `Referenced` is not part of this model. The constructor is taken to start the count at 0.
- RefCounting.Referenced.Unref: requires a count of at least 1. The header does not say what unref() does on a count of 0.
- RefCounting.Referenced.Ref: requires a count below the 32-bit `int` maximum, because signed overflow is undefined in C++.
- The copy constructor and assignment operator of `Referenced` are protected and never used; deleting through `delete this` is modelled only as the ghost flag `alive` turning false.
- Framebuffer objects, object headers, debug-message output, logging and the other tutorial programs are declarations or constant GL set-up and are not part of this model.
