# Nova2D sprite batching, in Dafny

This project models the core of the Nova2D 2D engine (C#, OpenGL). That core is:

- the `SpriteBatch2D` quad accumulator;
- the two texture-grouping render passes that drive it;
- the entity `Scene`;
- the frame-stepping `AnimationComponent` and the `AnimationSystem`;
- the `Camera2D` matrix;
- the `SpriteComponent` origin helpers;
- the bitmap-font parser, measurer and text renderer;
- the `UIButton` and `UICanvas` input and render logic.

The model proves properties of each of them.

Objects the engine updates in place are Dafny classes: `SpriteBatch2D`, `AnimationComponent`, `Camera2D`, the components, `Entity`, `Scene`, `BitmapFont`, `UIButton` and `UICanvas`. Each class keeps the modelled fields of its engine counterpart, and its methods carry `modifies` clauses. A few differ:

- `SpriteBatch2D` has no OpenGL handles.
- `Entity` carries an optional animation next to its sprite.
- `UIButton` holds its `UIElement` as the field `element` instead of inheriting from it. The batch's vertex and index buffers are arrays of the source's sizes (4000 vertices, 6000 indices).

The GPU side of the batch becomes two ghost logs:

- `calls` records every `Begin`, `Draw` and `End` the batch receives;
- `flushes` records every flush, as a texture, a sprite count and a matrix.

The draw-call counter `TotalDrawCallsThisFrame` is a field of a `DrawCallCounter` object shared by reference.

The loops of the source are methods with loop invariants. Each is proved against a pure specification function: `Query`, `GroupBy`/`Members`, `SmartCalls`, `SingleSessionCalls`, `LoadFrom`, `GetSpec`, `Width`, `Height`, `TextCalls`, `EnabledElements` and `VisibleElements`. The loop-free state changes are tied to functions too. `AnimationComponent.Update` and `GetCurrentFrame` are stated through `Step` and `FrameOf`. `UIButton.Update` is stated through `Fires`, and the lemmas about repeated updates use `Clicks`. The lemmas about those functions state what the engine promises:

- the texture groups partition the queried sprites;
- groups come in first-occurrence order, and each group keeps query order;
- each group gets one flush;
- animation frames stay in range, loop or clamp;
- measured width is additive;
- the pen advances by the measured width;
- a held button clicks at most once: on its first update, and only if the button was up and the cursor hovers.

Vectors and matrices are over `real`, following the row-vector convention of `System.Numerics`. Points transform as `p * M`, and `A * B` applies `A` first. A rotation is its (cos, sin) pair.

Files:

| File | What it holds |
|---|---|
| `wrappers.dfy` | `Option` |
| `seqs.dfy` | sequence identities |
| `geometry.dfy` | `Vector2`/`Vector4`/`Rectangle`/`Matrix4x4` and the matrix factories |
| `texture.dfy` | `Texture` |
| `sprite_batch.dfy` | `SpriteBatch2D` |
| `components.dfy` | transform and sprite components, `Entity` |
| `animation.dfy` | `AnimationComponent` |
| `camera.dfy` | `Camera2D` |
| `grouping.dfy` | LINQ `GroupBy` |
| `scene.dfy` | `Scene` and the query |
| `render_systems.dfy` | both batch render systems |
| `animation_system.dfy` | `AnimationSystem` |
| `bitmap_font.dfy` | `BitmapFont` |
| `font_renderer.dfy` | `BitmapFontRenderer` |
| `ui.dfy` | `UIElement`, `UIButton`, `UICanvas` |

## Model

| member | source | states |
|---|---|---|
| Batching.DrawCallCounter.constructor | Nova2D.Engine/Graphics/SpriteBatch2D.cs:31 | the process-wide draw-call counter starts at 0 |
| Batching.IndexAtSprite | Nova2D.Engine/Graphics/SpriteBatch2D.cs:80-94 | index 6i+j of the table is 4i plus the j-th entry of the two-triangle pattern 0,1,2,2,3,0 |
| Batching.IndexTableSprite | Nova2D.Engine/Graphics/SpriteBatch2D.cs:80-94 | for every sprite i < 1000 the six indices are exactly 4i, 4i+1, 4i+2, 4i+2, 4i+3, 4i |
| Batching.IndexTableBounds | Nova2D.Engine/Graphics/SpriteBatch2D.cs:13-15 | every generated index addresses the vertex array: 0 <= index < 1000·4 |
| Batching.SpriteBatch2D.GenerateIndices | Nova2D.Engine/Graphics/SpriteBatch2D.cs:80-94 | the loop fills the 6000-entry index array with exactly the index table |
| Batching.SpriteBatch2D.constructor | Nova2D.Engine/Graphics/SpriteBatch2D.cs:42-54 | fresh 4000-vertex and 6000-index arrays, the index table generated, count 0, nothing logged |
| Batching.SpriteBatch2D.Begin | Nova2D.Engine/Graphics/SpriteBatch2D.cs:99-103 | sets the sprite count to 0 and stores the matrix; vertices, flushes and counter untouched |
| Batching.QuadColorsAndPlainUVs | Nova2D.Engine/Graphics/SpriteBatch2D.cs:130-146 | a quad has four vertices, all in the call's colour; without a source rectangle the UVs are (0,0), (1,0), (1,1), (0,1) |
| Batching.AtlasUVIsRegionCorner | Nova2D.Engine/Graphics/SpriteBatch2D.cs:171-179 | with a source rectangle, UV k is the region's corner k divided by the texture's width and height |
| Batching.ModelMatrixClosedForm | Nova2D.Engine/Graphics/SpriteBatch2D.cs:116-120 | the model matrix maps p to rotate((p − origin)∘size) + position: the origin is subtracted before scaling |
| Batching.ZeroRotationCorners | Nova2D.Engine/Graphics/SpriteBatch2D.cs:116-139 | with rotation 0, corner k lands at (q_k − origin)∘size + position |
| Batching.QuadCenter | Nova2D.Engine/Graphics/SpriteBatch2D.cs:116-139 | the average of the four corners is rotate(((0.5,0.5) − origin)∘size) + position |
| Batching.CenteredIffHalfOrigin | Nova2D.Engine/Graphics/SpriteBatch2D.cs:116-139 | an unrotated quad of non-zero size is centred on its position iff origin = (0.5, 0.5) |
| Batching.OffsetVanishesIff | Nova2D.Engine/Graphics/SpriteBatch2D.cs:116-128 | the centre offset ((0.5,0.5) − origin)∘size vanishes iff origin = (0.5, 0.5) |
| Batching.RotateByZero | Nova2D.Engine/Graphics/SpriteBatch2D.cs:118 | rotation by angle 0 is the identity |
| Batching.HalfSizeOriginCentersOnlyUnitQuads | Nova2D.Engine/Graphics/SpriteBatch2D.cs:116-128 | with origin = size/2 (what `SetOriginToCenter` sets), the quad is centred on its position iff size = (1,1) |
| Batching.SpriteBatch2D.Draw | Nova2D.Engine/Graphics/SpriteBatch2D.cs:108-149 | logs the call; logs a capacity flush iff the count was >= 1000 without resetting the count; succeeds iff the old count c < 1000, and then writes exactly vertices [4c, 4c+4) with the plain quad, leaves every other vertex, and sets the count to c+1 |
| Batching.SpriteBatch2D.DrawRegion | Nova2D.Engine/Graphics/SpriteBatch2D.cs:151-193 | the same as `Draw`, with the quad's UVs taken from the source rectangle |
| Batching.SpriteBatch2D.Append | Nova2D.Engine/Graphics/SpriteBatch2D.cs:110-148 | the steps both overloads share: capacity flush, slot write at the old count, increment |
| Batching.SpriteBatch2D.WriteQuad | Nova2D.Engine/Graphics/SpriteBatch2D.cs:137-146 | the four-vertex loop writes exactly the quad into slots [base, base+4) and nothing else |
| Batching.SpriteBatch2D.End | Nova2D.Engine/Graphics/SpriteBatch2D.cs:199-204 | with count 0 no flush and no counter change; otherwise exactly one flush of count sprites (count·4 vertices, count·6 indices) and the counter +1; the count is unchanged |
| Batching.SpriteBatch2D.Flush | Nova2D.Engine/Graphics/SpriteBatch2D.cs:206-229 | logs one flush of the current count with the current matrix and texture |
| Textures.Texture.constructor | Nova2D.Engine/Graphics/Texture.cs:18-21 | a texture's handle, width and height are fixed at creation |
| Components.TransformComponent.constructor | Nova2D.Engine/ECS/TransformComponent.cs:14-24 | position 0, rotation 0, scale (1,1) |
| Components.SpriteComponent.constructor | Nova2D.Engine/ECS/SpriteComponent.cs:13-33 | stores the texture reference; colour (1,1,1,1), origin and size zero, no source rectangle |
| Components.SpriteComponent.SetOriginToCenter | Nova2D.Engine/ECS/SpriteComponent.cs:38-41 | origin = size·0.5, which equals `SetOriginByRatio((0.5,0.5))`; texture, size, colour and region unchanged |
| Components.SpriteComponent.SetOriginByRatio | Nova2D.Engine/ECS/SpriteComponent.cs:46-49 | origin = size ∘ ratio componentwise; texture, size, colour and region unchanged |
| Components.Entity.constructor | Nova2D.Engine/ECS/Entity.cs:11-16 | a fresh transform at its defaults, no sprite (and no animation) |
| Animation.FrameOf | Nova2D.Engine/ECS/AnimationComponent.cs:40-43 | the current frame is one of the clip's frames, or the default rectangle when there are none |
| Animation.StepInRange | Nova2D.Engine/ECS/AnimationComponent.cs:58-82 | an `Update` keeps the frame index in [0, frame count) |
| Animation.StepIdle | Nova2D.Engine/ECS/AnimationComponent.cs:60-61 | a finished animation or one without frames is left exactly as it was |
| Animation.StepAccumulates | Nova2D.Engine/ECS/AnimationComponent.cs:63-64 | if timer + dt < frame time only the timer changes |
| Animation.StepAdvancesAtMostOne | Nova2D.Engine/ECS/AnimationComponent.cs:63-80 | one `Update` either only accumulates, changes nothing, or subtracts the frame time once and moves to the next frame, wrapping or clamping at the end |
| Animation.NoCatchUp | Nova2D.Engine/ECS/AnimationComponent.cs:63-67 | even when dt covers two or more frame times, one `Update` advances exactly one frame and leaves a timer >= frame time |
| Animation.LoopWraps | Nova2D.Engine/ECS/AnimationComponent.cs:69-74 | a looping clip steps from the last frame to frame 0 and stays unfinished |
| Animation.ClampFinishes | Nova2D.Engine/ECS/AnimationComponent.cs:75-79 | a non-looping clip clamps at the last frame and becomes finished |
| Animation.LoopNeverFinishes | Nova2D.Engine/ECS/AnimationComponent.cs:69-74 | no number of updates finishes a looping clip |
| Animation.FinishedStays | Nova2D.Engine/ECS/AnimationComponent.cs:60 | once finished, every later `Update` leaves frame, timer and flag unchanged |
| Animation.FrameTimeSteps | Nova2D.Engine/ECS/AnimationComponent.cs:63-67 | k updates of exactly the frame time from the start reach frame k with timer 0 |
| Animation.EndOfClip | Nova2D.Engine/ECS/AnimationComponent.cs:69-79 | after as many frame-time updates as there are frames, a clamped clip sits finished on its last frame and a looping clip is back at the start |
| Animation.FourFrameClip | Nova2D.Engine/ECS/AnimationComponent.cs:58-82 | a 4-frame non-looping clip at 0.1 s, updated by 0.1 four times, is finished showing frame 4; a fifth update changes nothing |
| Animation.AnimationComponent.constructor | Nova2D.Engine/ECS/AnimationComponent.cs:17-35 | no frames, frame time 0.1, looping, frame 0, timer 0, not finished |
| Animation.AnimationComponent.AddFrame | Nova2D.Engine/ECS/AnimationComponent.cs:17 | appends one frame; the playback state is kept |
| Animation.AnimationComponent.GetCurrentFrame | Nova2D.Engine/ECS/AnimationComponent.cs:40-43 | returns `FrameOf` of the clip and playback state |
| Animation.AnimationComponent.Reset | Nova2D.Engine/ECS/AnimationComponent.cs:48-53 | frame 0, timer 0, not finished; the clip is kept |
| Animation.AnimationComponent.Update | Nova2D.Engine/ECS/AnimationComponent.cs:58-82 | the new playback state is `Step` of the old one; the clip is kept, and the frame stays in range |
| AnimationSystems.Animated | Nova2D.Engine/ECS/AnimationSystem.cs:11 | keeps exactly the entities that have both an animation and a sprite |
| AnimationSystems.AnimationSystem.Update | Nova2D.Engine/ECS/AnimationSystem.cs:9-19 | every queried entity's animation takes one `Step` of deltaTime, and its sprite's region becomes the animation's current frame (the default rectangle when it has no frames), whether or not it advanced |
| AnimationSystems.AnimationSystem.StepAll | Nova2D.Engine/ECS/AnimationSystem.cs:11-18 | the loop steps every entity once and rewrites every sprite's region |
| AnimationSystems.AnimationSystem.StepAt | Nova2D.Engine/ECS/AnimationSystem.cs:13-17 | one loop iteration handles entity i and leaves the others as they were |
| AnimationSystems.AnimationSystem.StepOne | Nova2D.Engine/ECS/AnimationSystem.cs:16-17 | one entity: its animation is stepped, then its sprite shows the current frame |
| Cameras.Resized | Nova2D.Engine/Graphics/Camera2D.cs:46-50 | only the viewport changes; position and zoom are kept |
| Cameras.ProjectionClosedForm | Nova2D.Engine/Graphics/Camera2D.cs:58-61 | the off-centre orthographic projection maps screen point p to ((2x/w) − 1, 1 − (2y/h)) |
| Cameras.ViewClosedForm | Nova2D.Engine/Graphics/Camera2D.cs:64-65 | the view matrix maps q to (q − position)∘zoom |
| Cameras.ViewProjectionClosedForm | Nova2D.Engine/Graphics/Camera2D.cs:55-69 | `projection * view` maps p to (clip(p) − position)∘zoom: the projection is applied first |
| Cameras.DefaultCameraCorners | Nova2D.Engine/Graphics/Camera2D.cs:36-69 | a new camera maps screen (0,0) to clip (−1,+1) and (w,h) to (+1,−1), so Y points down |
| Cameras.ScreenCorners | Nova2D.Engine/Graphics/Camera2D.cs:58-61 | for any non-zero viewport the projection sends the screen corners to (−1,+1) and (+1,−1) |
| Cameras.PanIsInClipUnits | Nova2D.Engine/Graphics/Camera2D.cs:64-68 | at zoom 1, moving the camera by d shifts every point by d clip units, not d pixels |
| Cameras.UnitZoomPan | Nova2D.Engine/Graphics/Camera2D.cs:64-65 | the view at zoom 1 is a pure translation |
| Cameras.ResizeIdempotent | Nova2D.Engine/Graphics/Camera2D.cs:46-69 | resizing to (w,h) twice is the same as once, and so is the matrix |
| Cameras.Camera2D.constructor | Nova2D.Engine/Graphics/Camera2D.cs:14-39 | viewport (width, height), position 0, zoom (1,1) |
| Cameras.Camera2D.Resize | Nova2D.Engine/Graphics/Camera2D.cs:46-50 | the new state is `Resized` of the old one |
| Cameras.Camera2D.GetMatrix | Nova2D.Engine/Graphics/Camera2D.cs:55-69 | the matrix sends every point p to (clip(p) − position)∘zoom; it reads only position, zoom and viewport |
| Geometry.TranslationScalingRotationArePlanar | Nova2D.Engine/Graphics/SpriteBatch2D.cs:116-120 | translation, scaling and z-rotation matrices leave the z row and column alone |
| Geometry.TransformPointMatMul | Nova2D.Engine/Graphics/SpriteBatch2D.cs:116-139 | transforming by A·B is transforming by A and then by B (row-vector order) |
| Grouping.Members | Nova2D.Engine/ECS/SmartSpriteBatchRenderSystem.cs:30 | a group holds only elements with its key, and no more elements than the input |
| Grouping.MembersOf | Nova2D.Engine/ECS/SmartSpriteBatchRenderSystem.cs:30 | one group per key, group g being the members of key g |
| Grouping.KeysIffOccurs | Nova2D.Engine/ECS/SmartSpriteBatchRenderSystem.cs:30 | a texture has a group iff some queried entity has that texture |
| Grouping.KeysCountDistinct | Nova2D.Engine/ECS/SmartSpriteBatchRenderSystem.cs:30 | the number of groups is the number of distinct textures |
| Grouping.KeysDistinct | Nova2D.Engine/ECS/SmartSpriteBatchRenderSystem.cs:30 | distinct groups have distinct textures |
| Grouping.MembersEmptyIffAbsent | Nova2D.Engine/ECS/SmartSpriteBatchRenderSystem.cs:30 | a key's group is empty iff the key does not occur |
| Grouping.MembersIff | Nova2D.Engine/ECS/SmartSpriteBatchRenderSystem.cs:30 | x is in the group of k iff x was queried and has key k |
| Grouping.MembersAppend | Nova2D.Engine/ECS/SmartSpriteBatchRenderSystem.cs:30-36 | a group of a + b is a's group followed by b's group: query order is kept |
| Grouping.GroupsNonEmpty | Nova2D.Engine/ECS/SmartSpriteBatchRenderSystem.cs:30 | no group is empty |
| Grouping.ExactlyOneGroup | Nova2D.Engine/ECS/SmartSpriteBatchRenderSystem.cs:28-30 | each entity lies in the group of its own texture and in no group of another texture |
| Grouping.KeysInFirstOccurrenceOrder | Nova2D.Engine/ECS/SmartSpriteBatchRenderSystem.cs:28-32 | if group i precedes group j, some entity of texture i is queried before any entity of texture j |
| Grouping.FlattenSnoc | Nova2D.Engine/ECS/SmartSpriteBatchRenderSystem.cs:32-36 | concatenating one more group appends its members |
| Grouping.MembersSnoc | Nova2D.Engine/ECS/SmartSpriteBatchRenderSystem.cs:30 | one more queried element joins exactly its own key's group, at its end |
| Grouping.MembersOfSnoc | Nova2D.Engine/ECS/SmartSpriteBatchRenderSystem.cs:30 | over distinct keys, one more element adds itself once to the multiset of grouped elements iff its key is among them |
| Grouping.GroupsPartition | Nova2D.Engine/ECS/SmartSpriteBatchRenderSystem.cs:28-30 | the groups together are a permutation of the queried entities, so no entity is lost or duplicated |
| Scenes.WithSprite | Nova2D.Engine/ECS/Scene.cs:23-25 | keeps exactly the entities that have a sprite |
| Scenes.Query | Nova2D.Engine/ECS/SmartSpriteBatchRenderSystem.cs:28 | the (transform, sprite) rows of the sprite-bearing entities, in insertion order |
| Scenes.WithSpriteAppend | Nova2D.Engine/ECS/Scene.cs:23-25 | the filter of a + b is the filter of a followed by that of b |
| Scenes.QueryAppend | Nova2D.Engine/ECS/SmartSpriteBatchRenderSystem.cs:28 | the query of a + b is the query of a followed by that of b |
| Scenes.ImmediateDraw | Nova2D.Engine/ECS/Scene.cs:27-37 | a drawn entity gets its sprite's texture, origin and colour, size sprite size ∘ transform scale, the transform's position and rotation, and the camera matrix |
| Scenes.ImmediateDraws | Nova2D.Engine/ECS/Scene.cs:23-38 | one draw per row, in row order |
| Scenes.Scene.constructor | Nova2D.Engine/ECS/Scene.cs:11 | the entity list starts empty |
| Scenes.Scene.AddEntity | Nova2D.Engine/ECS/Scene.cs:16 | appends at the end; earlier entities and their order are unchanged |
| Scenes.Scene.GetAllEntities | Nova2D.Engine/ECS/Scene.cs:45 | returns the entities in insertion order |
| Scenes.Scene.Render | Nova2D.Engine/ECS/Scene.cs:21-40 | draws exactly the sprite-bearing entities, in insertion order, with the camera matrix, and changes no state |
| Scenes.AddEntityExtendsQuery | Nova2D.Engine/ECS/Scene.cs:16-25 | adding an entity appends its row to the query iff it has a sprite |
| Scenes.QueryDeterminism | Nova2D.Engine/ECS/Scene.cs:23-25 | a sprite-less entity between two sprite entities is skipped and the other two keep their order |
| RenderSystems.DrawCallOf | Nova2D.Engine/ECS/SmartSpriteBatchRenderSystem.cs:38-64 | a row's draw: sprite texture, transform position and rotation, size sprite size ∘ transform scale, sprite origin and colour, and the sprite's source rectangle iff it has one |
| RenderSystems.DrawCalls | Nova2D.Engine/ECS/SmartSpriteBatchRenderSystem.cs:36-65 | one draw per row, in row order |
| RenderSystems.SmartFlushes | Nova2D.Engine/ECS/SmartSpriteBatchRenderSystem.cs:32-68 | exactly one flush per group, in group order |
| RenderSystems.AllFitIff | Nova2D.Engine/ECS/SmartSpriteBatchRenderSystem.cs:32-68 | the pass avoids the capacity overflow iff every group has at most 1000 sprites |
| RenderSystems.GroupStep | Nova2D.Engine/ECS/SmartSpriteBatchRenderSystem.cs:32-68 | one iteration of the group loop adds Begin, the group's draws and End to the call log, and one flush |
| RenderSystems.CountsAppend | Nova2D.Engine/Graphics/SpriteBatch2D.cs:99-204 | Begin, End and Draw counts add up over concatenated call logs |
| RenderSystems.DrawCallsAppend | Nova2D.Engine/ECS/SmartSpriteBatchRenderSystem.cs:36-65 | draws of a + b are the draws of a followed by those of b |
| RenderSystems.DrawCallsAreDraws | Nova2D.Engine/ECS/SmartSpriteBatchRenderSystem.cs:36-65 | the inner loop issues only draws, no Begin or End |
| RenderSystems.DrawCallsPermutation | Nova2D.Engine/ECS/SmartSpriteBatchRenderSystem.cs:28-65 | permuting the rows permutes the draws |
| RenderSystems.DrawCallsSnoc | Nova2D.Engine/ECS/SmartSpriteBatchRenderSystem.cs:36-65 | one more row adds its one draw to the multiset of draws |
| RenderSystems.DrawCallsRemove | Nova2D.Engine/ECS/SmartSpriteBatchRenderSystem.cs:36-65 | removing row i removes its one draw |
| RenderSystems.DrawCallsSplit | Nova2D.Engine/ECS/SmartSpriteBatchRenderSystem.cs:36-65 | the draws of a list split around row i |
| RenderSystems.SmartCallsParts | Nova2D.Engine/ECS/SmartSpriteBatchRenderSystem.cs:25-67 | one Begin and one End per group, and the draws are those of the concatenated groups |
| RenderSystems.GroupCallsParts | Nova2D.Engine/ECS/SmartSpriteBatchRenderSystem.cs:34-67 | each group session has exactly one Begin, one End and the group's draws |
| RenderSystems.SmartCallCounts | Nova2D.Engine/ECS/SmartSpriteBatchRenderSystem.cs:25-67 | Begin and End counts equal the number of textures; the draws are a permutation of the queried rows' draws, as many as rows |
| RenderSystems.GroupKeepsQueryOrder | Nova2D.Engine/ECS/SmartSpriteBatchRenderSystem.cs:30-36 | within a group the draws follow query order |
| RenderSystems.SumCountsFlatten | Nova2D.Engine/ECS/SmartSpriteBatchRenderSystem.cs:32-68 | the flushed sprite counts sum to the number of grouped rows |
| RenderSystems.SmartFlushesPartition | Nova2D.Engine/ECS/SmartSpriteBatchRenderSystem.cs:25-68 | flushes have pairwise distinct textures, positive counts and the single frame matrix, and their counts sum to the number of queried rows |
| RenderSystems.TwoTexturesTwoFlushes | Nova2D.Engine/ECS/SmartSpriteBatchRenderSystem.cs:28-68 | three sprites on two textures flush exactly twice, in any interleaving |
| RenderSystems.SmartSpriteBatchRenderSystem.constructor | Nova2D.Engine/ECS/SmartSpriteBatchRenderSystem.cs:17-21 | stores the batch and the camera |
| RenderSystems.SmartSpriteBatchRenderSystem.Render | Nova2D.Engine/ECS/SmartSpriteBatchRenderSystem.cs:23-69 | succeeds iff every texture group fits; then the call log grows by Begin(matrix), the group's draws and End(texture) per group in first-occurrence order, one flush per group, and the counter by the number of groups |
| RenderSystems.SmartSpriteBatchRenderSystem.RenderGroups | Nova2D.Engine/ECS/SmartSpriteBatchRenderSystem.cs:32-68 | the group loop, with the same promise for a given matrix and rows |
| RenderSystems.SmartSpriteBatchRenderSystem.DrawGroup | Nova2D.Engine/ECS/SmartSpriteBatchRenderSystem.cs:34-67 | a group of at most 1000 sprites gets Begin, its draws in order and End, with exactly one flush and counter +1 |
| RenderSystems.SmartSpriteBatchRenderSystem.DrawRow | Nova2D.Engine/ECS/SmartSpriteBatchRenderSystem.cs:38-64 | picks the atlas overload iff the sprite has a source rectangle, and logs exactly `DrawCallOf` the row |
| RenderSystems.PlainDrawCallOf | Nova2D.Engine/ECS/SpriteBatchRenderSystem.cs:36-43 | the single-session draw is the smart pass's draw without the source rectangle |
| RenderSystems.PlainDrawCalls | Nova2D.Engine/ECS/SpriteBatchRenderSystem.cs:28-44 | one plain draw per row, in row order |
| RenderSystems.PlainStep | Nova2D.Engine/ECS/SpriteBatchRenderSystem.cs:28-44 | one loop iteration appends the row's plain draw |
| RenderSystems.OneTextureOneGroup | Nova2D.Engine/ECS/SmartSpriteBatchRenderSystem.cs:30 | rows sharing one texture form a single group, in their order |
| RenderSystems.OneTexturePassesAgree | Nova2D.Engine/ECS/SpriteBatchRenderSystem.cs:20-48 | on one texture without regions the single-session pass and the grouped pass issue the same calls and flushes |
| RenderSystems.SingleSessionMisbinds | Nova2D.Engine/ECS/SpriteBatchRenderSystem.cs:26-47 | with a second texture present the single session flushes once, bound to the first texture, while the grouped pass flushes at least twice |
| RenderSystems.SpriteBatchRenderSystem.constructor | Nova2D.Engine/ECS/SpriteBatchRenderSystem.cs:14-18 | stores the batch and the camera |
| RenderSystems.SpriteBatchRenderSystem.Render | Nova2D.Engine/ECS/SpriteBatchRenderSystem.cs:20-48 | succeeds iff at most 1000 rows; then one Begin(matrix), every row's plain draw in query order, End(first texture) iff some row was drawn, and counter +1 iff so |
| RenderSystems.SpriteBatchRenderSystem.RenderSession | Nova2D.Engine/ECS/SpriteBatchRenderSystem.cs:24-47 | the session loop, with the same promise for a given matrix and rows |
| RenderSystems.SpriteBatchRenderSystem.SessionRow | Nova2D.Engine/ECS/SpriteBatchRenderSystem.cs:36-43 | one row through the plain overload: its draw is logged, and it fits iff the count was below 1000 |
| Fonts.CharKey | Nova2D.Engine/Graphics/BitmapFont.cs:51 | the `(char)` cast keeps a glyph id in 0..65535 and leaves ids already there unchanged |
| Fonts.Split | Nova2D.Engine/Graphics/BitmapFont.cs:41 | at least one part and no part contains the separator |
| Fonts.JoinSplit | Nova2D.Engine/Graphics/BitmapFont.cs:41 | joining the parts with the separator gives back the line |
| Fonts.JoinLast | Nova2D.Engine/Graphics/BitmapFont.cs:41 | extending the last part extends the joined string |
| Fonts.SplitJoin | Nova2D.Engine/Graphics/BitmapFont.cs:41 | splitting a join of separator-free parts gives back the parts |
| Fonts.SplitNoSep | Nova2D.Engine/Graphics/BitmapFont.cs:41 | a line without the separator is one part |
| Fonts.SplitAfterSep | Nova2D.Engine/Graphics/BitmapFont.cs:41 | a separator followed by a separator-free tail adds that tail as the last part |
| Fonts.Get | Nova2D.Engine/Graphics/BitmapFont.cs:64-70 | the search loop returns `GetSpec` |
| Fonts.GetFirstMatch | Nova2D.Engine/Graphics/BitmapFont.cs:64-70 | `Get` returns the text after `key=` in the first part starting with `key=`, or "0" if none does |
| Fonts.EqualsSignSeparatesKeys | Nova2D.Engine/Graphics/BitmapFont.cs:67 | a part of a longer key such as `xoffset=` never matches the shorter key `x` |
| Fonts.FirstMismatch | Nova2D.Engine/Graphics/BitmapFont.cs:67 | a differing character rules a prefix out |
| Fonts.MissingKeyReadsZero | Nova2D.Engine/Graphics/BitmapFont.cs:42-49 | a char line with `xoffset=` and `xadvance=` but no `x=` reads x as "0" |
| Fonts.CharLineGlyph | Nova2D.Engine/Graphics/BitmapFont.cs:43-56 | the glyph's region, offset and advance are the parsed values of x, y, width, height, xoffset, yoffset and xadvance |
| Fonts.LoadAppend | Nova2D.Engine/Graphics/BitmapFont.cs:37-62 | loading a + b is loading a then b |
| Fonts.OtherLinesIgnored | Nova2D.Engine/Graphics/BitmapFont.cs:39-58 | lines that are neither `char id=` nor `common ` lines change nothing |
| Fonts.LastCharLineWins | Nova2D.Engine/Graphics/BitmapFont.cs:51 | a char line's glyph stays unless a later char line has the same id |
| Fonts.LastCommonLineWins | Nova2D.Engine/Graphics/BitmapFont.cs:58-61 | the last `common ` line determines the line height |
| Fonts.LineKindsDisjoint | Nova2D.Engine/Graphics/BitmapFont.cs:39-58 | no line is both a char line and a common line |
| Fonts.WidthAppend | Nova2D.Engine/Graphics/BitmapFont.cs:80-87 | measured width is additive: width(s + t) = width(s) + width(t) |
| Fonts.UnknownCharsAddNothing | Nova2D.Engine/Graphics/BitmapFont.cs:80-94 | characters without a glyph measure width 0, and for every line height the measured height is that line height |
| Fonts.HeightIsMax | Nova2D.Engine/Graphics/BitmapFont.cs:81-94 | the height is at least the line height and every known glyph's height + y-offset, and equals one of them |
| Fonts.EmptyMeasure | Nova2D.Engine/Graphics/BitmapFont.cs:78-95 | the empty string measures (0, line height) |
| Fonts.BitmapFont.constructor | Nova2D.Engine/Graphics/BitmapFont.cs:33-71 | the loop over the file's lines builds exactly the table `LoadFrom` specifies |
| Fonts.BitmapFont.MeasureString | Nova2D.Engine/Graphics/BitmapFont.cs:78-95 | returns (sum of known advances, max of line height and known glyph heights) |
| FontRendering.KnownCount | Nova2D.Engine/Graphics/BitmapFontRenderer.cs:18-20 | the number of characters with a glyph is at most the text's length |
| FontRendering.GlyphCall | Nova2D.Engine/Graphics/BitmapFontRenderer.cs:22-33 | a glyph's draw: font texture, position pen + offset·scale, size region·scale, source the glyph's region, origin 0, rotation 0, the given colour |
| FontRendering.TextCalls | Nova2D.Engine/Graphics/BitmapFontRenderer.cs:14-37 | one draw per known character, all with the font texture, the colour, a region, origin 0 and rotation 0 |
| FontRendering.PenAdvancesByWidth | Nova2D.Engine/Graphics/BitmapFontRenderer.cs:16-35 | the final pen x is position.x + scale · measured width; y never changes |
| FontRendering.PenAppend | Nova2D.Engine/Graphics/BitmapFontRenderer.cs:16-35 | the pen after s + t is the pen after t started where s left it |
| FontRendering.LayoutAppend | Nova2D.Engine/Graphics/BitmapFontRenderer.cs:14-37 | drawing s + t is drawing s, then t from the pen s leaves |
| FontRendering.KnownCountAppend | Nova2D.Engine/Graphics/BitmapFontRenderer.cs:18-20 | the draw count is additive over concatenation |
| FontRendering.LayoutStep | Nova2D.Engine/Graphics/BitmapFontRenderer.cs:18-35 | one character either draws its glyph at the pen and advances the pen by its advance·scale, or is skipped without moving the pen |
| FontRendering.KnownCountPrefix | Nova2D.Engine/Graphics/BitmapFontRenderer.cs:18-20 | a prefix draws no more glyphs than the whole text |
| FontRendering.BitmapFontRenderer.constructor | Nova2D.Engine/Graphics/BitmapFontRenderer.cs:9-12 | stores the font |
| FontRendering.BitmapFontRenderer.DrawText | Nova2D.Engine/Graphics/BitmapFontRenderer.cs:14-37 | succeeds iff all glyph draws fit; then the batch receives exactly `TextCalls` in text order, the count grows by the number of known characters, and nothing is flushed |
| FontRendering.BitmapFontRenderer.DrawGlyph | Nova2D.Engine/Graphics/BitmapFontRenderer.cs:25-33 | one glyph's draw goes to the batch through the atlas overload |
| UI.UIElement.constructor | Nova2D.Engine/UI/UIElement.cs:14-29 | position and size zero, visible and enabled |
| UI.HoldingFiresAtMostOnce | Nova2D.Engine/UI/UIButton.cs:34-39 | while the mouse stays pressed the button clicks at most once, on the first update, iff it was not pressed before and the cursor hovers |
| UI.PressReleasePress | Nova2D.Engine/UI/UIButton.cs:34-39 | press, release, press over the button clicks twice (once if it was already pressed) |
| UI.CaptionCentered | Nova2D.Engine/UI/UIButton.cs:50-54 | the caption leaves equal margins left and right of the pen's travel, and its measured box is centred on the button |
| UI.UIButton.constructor | Nova2D.Engine/UI/UIButton.cs:12-25 | stores text and font; size (120,40), background (0.2,0.2,0.2,1), white text, not pressed |
| UI.UIButton.Update | Nova2D.Engine/UI/UIButton.cs:27-40 | disabled: no click and nothing changes; enabled: clicks iff the cursor is in the inclusive box, the mouse is pressed and was not pressed at the previous enabled update, and then remembers the press state |
| UI.UIButton.Render | Nova2D.Engine/UI/UIButton.cs:42-55 | invisible: nothing drawn and the sprite count unchanged; visible: fits iff count + 1 + known characters <= 1000, and then the background quad in the white texture, then the caption's glyph draws starting at position + (size − text size)·0.5, with the count grown by 1 + known characters and nothing flushed |
| UI.EnabledElements | Nova2D.Engine/UI/UICanvas.cs:27-34 | keeps exactly the enabled elements |
| UI.VisibleElements | Nova2D.Engine/UI/UICanvas.cs:39-50 | keeps exactly the visible elements |
| UI.RenderEvents | Nova2D.Engine/UI/UICanvas.cs:43-47 | one render event per element, in order |
| UI.EnabledAppend | Nova2D.Engine/UI/UICanvas.cs:27-34 | the enabled filter distributes over concatenation: insertion order is kept |
| UI.VisibleAppend | Nova2D.Engine/UI/UICanvas.cs:39-50 | the visible filter distributes over concatenation: insertion order is kept |
| UI.UICanvas.constructor | Nova2D.Engine/UI/UICanvas.cs:14 | no elements |
| UI.UICanvas.Add | Nova2D.Engine/UI/UICanvas.cs:19-22 | appends; earlier elements and their order are unchanged |
| UI.UICanvas.Update | Nova2D.Engine/UI/UICanvas.cs:27-34 | the loop updates exactly the enabled elements in insertion order, and adds or removes none |
| UI.UICanvas.Render | Nova2D.Engine/UI/UICanvas.cs:39-50 | one Begin first, then exactly the visible elements in insertion order, then one End, and adds or removes none |
| UI.AddExtendsDispatch | Nova2D.Engine/UI/UICanvas.cs:19-50 | an added element is updated iff enabled and rendered iff visible, after all earlier ones |

## Left out

- OpenGL plumbing is not modelled: the vertex array, buffers and attribute setup, the GL calls inside `Flush`, `Dispose` and texture binding. A flush is a logged event carrying the texture, the sprite count (hence count·4 vertices and count·6 indices) and the matrix.
- IEEE single-precision arithmetic is not modelled. Positions, UVs, timers and font metrics are `real`, without rounding.
- Rotation angles are given by their cosine and sine. `CreateRotationZ` is the matrix of that pair, and no trigonometry is modelled.
- `int.Parse` and `float.Parse` are function parameters of the `BitmapFont` constructor. Their exceptions on malformed text are not modelled.
- `File.ReadAllLines` is replaced by the sequence of lines it would return. `StartsWith` is compared ordinally, with no culture rules.
- `(char)id` is modelled as id mod 65536. Dafny characters are Unicode scalar values, not UTF-16 code units, so a character outside the Basic Multilingual Plane finds no glyph here. In the engine its two surrogate halves are looked up separately.
- `Texture.cs` image loading is not modelled. A texture is its handle and its dimensions.
- `UILabel`, `SpriteRenderer` (immediate-mode drawing), `Shader`, the application bootstrap, the stats overlay and the editor are not part of this model.
- `SpriteRenderer.Draw` is called by `Scene.Render` with seven arguments but never declared with them. The model records each such call as a `RendererDraw` value.
- `Scene.Query` and `Entity.Get` are used but never declared. The query is an order-preserving filter over the insertion-ordered entity list.
- The animation an entity carries is modelled as an extra optional field of `Entity`, since the component bag is not declared.
- `SpriteComponent.SourceRect` is used but never declared. It is modelled as an optional region.
- `Texture.WhiteTexture` is never declared. `UIButton.Render` takes that texture as a parameter.
- `SpriteBatch2D.Begin()` and `End()` are called without arguments but declared with a matrix and a texture. `UICanvas.Render` is modelled as `BatchBegin` and `BatchEnd` events. The argument-less `End()` of the grouped pass is modelled as `End` with the group's texture.
- The virtual `UIElement.Update`/`Render` calls are not dispatched. `UICanvas.Update` and `UICanvas.Render` return the elements they would call, in order.
- `OnClick` is modelled as the `clicked` result of `UIButton.Update`, not as an event invocation.
- The engine throws when the 1001st sprite indexes past the vertex array. The model does not throw: `Draw`, `DrawRegion`, `DrawText`, `UIButton.Render` and both render passes return `ok == false` instead.
- RenderSystems.SmartSpriteBatchRenderSystem.Render: on `ok == false` only validity is stated, since the engine has thrown by then. The same holds for RenderSystems.SpriteBatchRenderSystem.Render.
- FontRendering.BitmapFontRenderer.DrawText: on `ok == false` only validity and the unchanged matrix are stated, since the engine has thrown inside the text.
- UI.UIButton.Render: for a visible button with `ok == false` only validity is stated, since the engine has thrown.
- Cameras.Camera2D.GetMatrix: requires a non-zero viewport. With width or height 0 the engine's matrix holds IEEE infinities, which `real` cannot represent. The render passes and `Scene.Render` carry the same requirement.
- AnimationSystems.AnimationSystem.Update: requires that no two queried entities share an animation or sprite component, and that each animation's frame index is in range. With a shared animation the engine steps it twice in one update.
- The per-frame reset of `TotalDrawCallsThisFrame` belongs to the frame loop and is not modelled.

## Behaviour of the code as written

These points depart from the batching design the engine describes. The model follows the code and proves each as a property.

- No flush on a texture change. `Draw` uses its texture only for the capacity flush, so a session whose sprites use several textures is drawn entirely with the texture passed to `End`. `RenderSystems.SingleSessionMisbinds` shows the single-session pass ending every sprite with the first texture.
- The capacity flush does not reset the sprite count. The 1001st draw of a session therefore still fails (`Batching.SpriteBatch2D.Draw`).
- Only `End` increments `TotalDrawCallsThisFrame`. Capacity flushes are not counted.
- `End` does not reset the count, and `Begin` does not check for a missing `End`.
- `AnimationComponent.Update` advances at most one frame per call, with no catch-up for a large time step (`Animation.NoCatchUp`).
- The origin is subtracted before scaling, so it is measured in unit-quad units. `SetOriginToCenter` (origin = size/2) centres a quad only when its size is (1,1) (`Batching.HalfSizeOriginCentersOnlyUnitQuads`); origin (0.5, 0.5) is the centre (`Batching.CenteredIffHalfOrigin`).
- The camera matrix is `projection * view` in row-vector order, so the projection is applied first. Camera position and zoom then act in clip units, not pixels (`Cameras.PanIsInClipUnits`).
