# battleputt: trail recorder and wood registry

This project models two pieces of logic in battleputt, a minigolf physics sandbox. Both are written in imperative Dafny.

- **The trail recorder** (`src/tracer.ts`), module `Trail` in `trail.dfy`. A `Tracer` holds the ball's recent positions in a `seq` field. `Trace` appends a position in place and then splices off the oldest positions beyond `MAX_POINTS = 1000`. `Render` clears the tracer's `Graphics` surface and strokes one segment per consecutive pair of points. Positions are a type parameter, because they are only stored and drawn. The Pixi draw calls (`moveTo`, `lineTo`, `stroke`) become one `Segment` appended to the surface's `strokes` list. The specification functions are:
  - `TraceStep`: one trace.
  - `Recorded`: the trail left by tracing a whole list of positions from empty.
  - `Segments`: the consecutive-pair polyline.

  A ghost `history` records every traced position. `Valid()` ties `points` to `Recorded(history)`.
- **The wood colliders** (`src/wood.ts`), module `Wood` in `wood.dfy`. The module-level `woods` list becomes the `woods` field of a `WoodRegistry` object. The engine collider becomes a `Collider` object:
  - its handle and shape are fixed;
  - its restitution, friction, density, rotation and collision and solver groups can be set in place.

  `UpdateWoodParameters` walks the registry. On each wood it sets a material field exactly when that field's update is defined (`Some`). Its effect on the registry's materials is specified by `ApplyAll`, which applies `Apply` to each entry. `CreateWood` asks a `World` for a collider with a fresh handle, appends the collider to the registry and maps its handle to a rectangle graphic in a `BodiesMap`. `CreatePlatformRamp` creates two woods and puts both in the interaction groups `0x000d0004`.

## Model

| member | source | states |
|---|---|---|
| `Trail.TraceStep` | src/tracer.ts:20-23 | One trace leaves `min(len + 1, 1000)` points and ends with the new point. Below capacity it appends (`s + [p]`). At capacity it drops exactly the oldest point (`s[1..] + [p]`). |
| `Trail.Recorded` | src/tracer.ts:3 | Starting from empty, the trail never holds more than `MAX_POINTS` points, whatever is traced. |
| `Trail.RecordedIsLastN` | src/tracer.ts:20-23 | After tracing any list of positions from empty, the trail holds exactly the last `min(N, 1000)` of them, oldest first. |
| `Trail.Segments` | src/tracer.ts:30-34 | A polyline through `n` points has `max(0, n - 1)` segments, and segment `i` runs from point `i` to point `i + 1`. So fewer than two points draw nothing. |
| `Trail.ThreePointsTwoSegments` | src/tracer.ts:20-35 | Tracing three positions from empty and rendering draws exactly the segments first-second and second-third. |
| `Trail.Graphics.Clear` | src/tracer.ts:28 | Clearing leaves no strokes on the surface. |
| `Trail.Graphics.StrokeLine` | src/tracer.ts:31-33 | A move-to, line-to and stroke adds exactly one segment after the existing ones. |
| `Trail.Tracer.constructor` | src/tracer.ts:11-16 | A new tracer has no points, an empty history and a fresh, empty drawing surface. |
| `Trail.Tracer.Trace` | src/tracer.ts:20-23 | The in-place push and splice leave exactly `TraceStep(old points, p)`. They keep the invariant that the points are the last 1000 positions of the whole history. |
| `Trail.Tracer.Render` | src/tracer.ts:25-35 | Whatever was drawn before, the surface afterwards holds exactly `Segments(points)`, and `points` is unchanged. Rendering twice therefore gives the same strokes. |
| `Wood.Apply` | src/wood.ts:24-32 | For each of restitution, friction and density: if the update is defined, the field takes its value; otherwise the field keeps its old value. |
| `Wood.ApplyAll` | src/wood.ts:23-33 | The broadcast keeps the registry's length and order and applies `Apply` to every entry. |
| `Wood.ApplyIdempotent` | src/wood.ts:22-34 | Applying the same updates twice to one material gives the same result as applying them once. |
| `Wood.ApplyAllIdempotent` | src/wood.ts:22-34 | Broadcasting the same updates twice gives the same materials as broadcasting them once. |
| `Wood.ApplyAllNoUpdates` | src/wood.ts:22-34 | An update with no field defined leaves every material unchanged. |
| `Wood.Collider.SetRestitution` | src/wood.ts:25 | Sets restitution and nothing else. |
| `Wood.Collider.SetFriction` | src/wood.ts:28 | Sets friction and nothing else. |
| `Wood.Collider.SetDensity` | src/wood.ts:31 | Sets density and nothing else. |
| `Wood.Collider.SetCollisionGroups` | src/wood.ts:83 | Sets the collision groups and nothing else. |
| `Wood.Collider.SetSolverGroups` | src/wood.ts:84 | Sets the solver groups and nothing else. |
| `Wood.World.CreateCollider` | src/wood.ts:51 | Returns a new collider built from the description. Its handle was never handed out before, and its groups are the engine default (all groups). |
| `Wood.BodiesMap.Set` | src/wood.ts:55 | Maps the handle to the graphic and leaves every other entry unchanged. |
| `Wood.WoodRegistry.constructor` | src/wood.ts:20 | The registry starts empty. |
| `Wood.WoodRegistry.UpdateWoodParameters` | src/wood.ts:22-34 | The registry list is unchanged, and the new materials are `ApplyAll(old materials, updates)`. Rotation, both group sets and the handle of every wood are untouched. |
| `Wood.WoodRegistry.CreateWood` | src/wood.ts:36-58 | Appends exactly one fresh collider. It has the given half-extents, border radius 5, the average combine rule, the tunables' wood material and rotation `angle`. Its new handle is mapped to a `w` by `h` wood-coloured rectangle, and the other map entries are unchanged. |
| `Wood.WoodRegistry.CreatePlatformRamp` | src/wood.ts:60-89 | Appends the platform, then the ramp. The platform has rotation 0 and length `PLATFORM_LENGTH`; the ramp has rotation `angle` and length `RAMP_LENGTH`. Both have width `WOOD_WIDTH`, the tunables' material, and collision and solver groups `0x000d0004`. Both get a graphic under their new handles. |

## Left out

- Rendering: the Pixi graphics, the stroke colour (white) and the pixel-line style are abstracted to the list of segments drawn. The wood graphic is a value that records its rectangle and fill colour.
- Scene attachment: in `initTracer` the `scene.addChild(gfx)` call comes after `return` and never runs, so the tracer's surface is never added to the scene. The constructor takes no scene, and this defect is not modelled further.
- Trail reset: `src/tracer.ts` has no reset operation, so none is modelled.
- The physics engine: only handle allocation and the collider fields this code sets are modelled. The world hands out handles from a counter, which stands in for the engine's allocator. Shapes, mass properties (which `setDensity` also updates in the engine), simulation steps and poses are not modelled. Numbers are `real`, not IEEE doubles.
- `Wood.WoodRegistry.CreateWood` and `Wood.WoodRegistry.CreatePlatformRamp`: these require that every handle already in the bodies map was handed out by the same world. This stands in for the source's assumption that a new collider's handle is fresh.
- Shape and graphic mismatch: `roundCuboid(w, h, 5.0)` takes half-extents, while the graphic is a `w` by `h` rectangle anchored at its corner. The model records both as the source gives them and does not reconcile them.
- `src/main.ts` (world setup, frame loop, debug render) and `src/controls.ts` (local storage, the GUI) are I/O and engine glue and are not part of this model. Of `src/controls.ts`, only the `Tunables` record is used.
