# ChilliSource rendering and UI core, modelled in Dafny

This project models the parts of the ChilliSource engine that decide what gets drawn, and in
what order, together with the arithmetic behind a few UI widgets:

- **Forward render-pass compiler** (`forward_render_pass_compiler.dfy`). It turns a render
  frame into target groups: one shadow-map target per shadow-casting directional light, then
  the main target. The main target holds a scene camera group (base, directional, point and
  transparent passes) and a UI camera group. The fork-join `TaskContext::ProcessChildTasks`
  is modelled as tasks that run one after another, each writing its own slot of a vector
  (`slot_tasks.dfy`). An out-of-range slot write is an error value.
- **OpenGL render-command processor** (`render_command_processor.dfy`). It is a state machine
  over the bound shader, material, texture, mesh and camera. It records the GL work each
  command does as a list of events. Binding a mesh with no shader bound, drawing with no
  shader or mesh bound, and applying a material with no texture are `Fault`s.
- **Legacy renderer** (`renderer.dfy`). This covers the camera and point-light culls, the
  opaque/transparent and shadow-caster filters, and the light split. `RenderSceneToTarget` is
  modelled as the trace of render-system calls it makes. Its stages (shadow maps, scene passes
  and the UI) are read off the trace together with the light last handed to `SetLight` before
  each. The transparent pass sets no light of its own, so it is drawn under the last light the
  light passes set.
- **UI arithmetic**:
  - `StretchableImage`: panel lookup and nine-patch sizing (`stretchable_image.dfy`);
  - the animated `GUI::ProgressBar` (`progress_bar.dfy`);
  - `UI::ProgressBarComponent` layout (`progress_bar_component.dfy`);
  - `GUI::SliderBar` (`slider_bar.dfy`).

Shared pieces:

- `selection.dfy` specifies stable filters by strictly increasing index sequences.
- `outcomes.dfy` holds `Option` and `Result`.
- `render_types.dfy` and `render_frames.dfy` hold the data the renderer and the processor share.
- `ui_math.dfy` holds `Clamp` and `Min` over reals. `Core::MathUtils` is not part of this model.

Collaborators whose code is not part of this model are parameters:

- the visibility checker, the pass-object sorters, sphere containment and intersection;
- the cull predicates and sort predicates;
- the texture atlas lookup;
- the system clock: each read of it is a parameter (`now`, or `readAt` and `stampAt` when an
  operation reads it twice).

The sorters are only assumed to reorder, never to add or drop.

## Model

| member | source | states |
|---|---|---|
| ForwardRenderPassCompiler.GetVertexFormat | Source/ChilliSource/Rendering/Base/ForwardRenderPassCompiler.cpp:77-89 | The vertex format of the object's mesh, whether the mesh is static or dynamic |
| ForwardRenderPassCompiler.MaterialFor | Source/ChilliSource/Rendering/Base/ForwardRenderPassCompiler.cpp:175-177 | An object has a material for a pass exactly when its material group holds one under the object's vertex format and that pass; the material found belongs to the group |
| ForwardRenderPassCompiler.ConvertToRenderPassObject | Source/ChilliSource/Rendering/Base/ForwardRenderPassCompiler.cpp:54-68 | The pass object carries the given material and the object's mesh, world matrix, bounding sphere and priority; the material must belong to the object's group |
| ForwardRenderPassCompiler.ShadowCastingLights | Source/ChilliSource/Rendering/Base/ForwardRenderPassCompiler.cpp:480-490 | The lights that own a shadow-map target, in frame order: every one kept has a target and every light with a target is kept |
| ForwardRenderPassCompiler.GetLayerRenderObjects | Source/ChilliSource/Rendering/Base/ForwardRenderPassCompiler.cpp:143-156 | A stable filter: exactly the objects of the layer, in input order |
| ForwardRenderPassCompiler.CalculateVisibleObjects | Source/ChilliSource/Rendering/Base/ForwardRenderPassCompiler.cpp:314-315 | A stable filter by the visibility checker; every object kept is visible from the camera |
| ForwardRenderPassCompiler.PassIndices | Source/ChilliSource/Rendering/Base/ForwardRenderPassCompiler.cpp:195-210 | The positions of the objects that take part in a pass are strictly increasing; a position is listed exactly when the object is admitted and has a material for the pass |
| ForwardRenderPassCompiler.GetShadowMapRenderPassObjects | Source/ChilliSource/Rendering/Base/ForwardRenderPassCompiler.cpp:167-185 | One pass object per shadow caster that has a shadow-map material, in input order, each built from its object and that material |
| ForwardRenderPassCompiler.GetBaseRenderPassObjects | Source/ChilliSource/Rendering/Base/ForwardRenderPassCompiler.cpp:195-210 | One pass object per object with a base material, in input order, each built from its object and that material |
| ForwardRenderPassCompiler.DirectionalPassFor | Source/ChilliSource/Rendering/Base/ForwardRenderPassCompiler.cpp:225-229 | The shadowed directional pass exactly when the light owns a shadow map, the plain one exactly when it does not |
| ForwardRenderPassCompiler.GetDirectionalLightRenderPassObjects | Source/ChilliSource/Rendering/Base/ForwardRenderPassCompiler.cpp:223-244 | One pass object per object that has a material for the light's directional pass, in input order |
| ForwardRenderPassCompiler.GetPointLightRenderPassObjects | Source/ChilliSource/Rendering/Base/ForwardRenderPassCompiler.cpp:257-274 | One pass object per object inside the light's sphere of influence that has a point-light material, in input order |
| ForwardRenderPassCompiler.GetTransparentRenderPassObjects | Source/ChilliSource/Rendering/Base/ForwardRenderPassCompiler.cpp:284-299 | One pass object per object with a transparent material, in input order |
| ForwardRenderPassCompiler.CalcNumScenePasses | Source/ChilliSource/Rendering/Base/ForwardRenderPassCompiler.cpp:122-131 | At least the two reserved passes: the base pass, one per directional light, one per point light, and the transparent pass in the last slot, 1 + directional + point. ScenePasses places the passes in these slots |
| ForwardRenderPassCompiler.ScenePasses | Source/ChilliSource/Rendering/Base/ForwardRenderPassCompiler.cpp:317-362 | The passes in push order: base first, directional light i at 1 + i, point light j after all directional lights, transparent last; CalcNumScenePasses of them |
| ForwardRenderPassCompiler.RunNumberedTasks | Source/ChilliSource/Rendering/Base/ForwardRenderPassCompiler.cpp:318-364 | Tasks that each take the next index and write that slot of a vector sized to their number leave the vector holding their values in push order |
| ForwardRenderPassCompiler.CompileSceneCameraRenderPassGroup | Source/ChilliSource/Rendering/Base/ForwardRenderPassCompiler.cpp:312-367 | The scene group has the frame camera and 2 + directional + point passes: base in slot 0, each directional light's pass at 1 + i, each point light's after them, transparent last |
| ForwardRenderPassCompiler.CompileUICameraRenderPassGroup | Source/ChilliSource/Rendering/Base/ForwardRenderPassCompiler.cpp:380-402 | Succeeds exactly when every visible UI object has a transparent material, otherwise fails the assertion; the group has the UI camera and at most one pass, ambient-lit and non-empty |
| ForwardRenderPassCompiler.AllResolvedIffAllHaveMaterial | Source/ChilliSource/Rendering/Base/ForwardRenderPassCompiler.cpp:390-391 | The assertion's size comparison holds exactly when every object has a material for the pass |
| ForwardRenderPassCompiler.UIPassPresentIffVisible | Source/ChilliSource/Rendering/Base/ForwardRenderPassCompiler.cpp:390-399 | With sorters that only reorder, the UI group has a pass exactly when some UI object is visible, and that pass holds one object per visible UI object |
| ForwardRenderPassCompiler.CompileMainTargetRenderPassGroup | Source/ChilliSource/Rendering/Base/ForwardRenderPassCompiler.cpp:414-439 | The main target is the default framebuffer with the scene group in slot 0 and the UI group in slot 1; it fails exactly when the UI group does |
| ForwardRenderPassCompiler.CompileShadowMapTargetRenderPassGroup | Source/ChilliSource/Rendering/Base/ForwardRenderPassCompiler.cpp:453-468 | The target is the light's shadow map; it holds one group with the unset camera and one unlit pass, which draws the opaque-sorted shadow-map objects of the visible standard-layer objects |
| ForwardRenderPassCompiler.ShadowPassDrawsVisibleCasters | Source/ChilliSource/Rendering/Base/ForwardRenderPassCompiler.cpp:458-463 | With sorters that only reorder, the shadow pass draws, with the same multiplicities, one object per visible shadow caster that has a shadow-map material, built from that object and material, and nothing else |
| ForwardRenderPassCompiler.ShadowTargetGroups | Source/ChilliSource/Rendering/Base/ForwardRenderPassCompiler.cpp:480-490 | One shadow-map target group per shadow-casting light, in light order |
| ForwardRenderPassCompiler.CalcNumTargetsAsWritten | Source/ChilliSource/Rendering/Base/ForwardRenderPassCompiler.cpp:98-113 | The count as the source returns it: at most one per directional light, and one less than the count with the main target reserved, because the declared reserved target is never added |
| ForwardRenderPassCompiler.CalcNumTargets | Source/ChilliSource/Rendering/Base/ForwardRenderPassCompiler.cpp:98-113 | The count with the main target reserved: more than the number of shadow-casting lights, so the main target's slot, numbered after theirs, fits; at most one per directional light plus one |
| ForwardRenderPassCompiler.CompileTargetRenderPassGroupsAsWritten | Source/ChilliSource/Rendering/Base/ForwardRenderPassCompiler.cpp:472-502 | The target groups with the vector sized by the source's count; AsWrittenMainSlotOutOfRange proves that every frame fails on the main target's slot |
| ForwardRenderPassCompiler.AsWrittenMainSlotOutOfRange | Source/ChilliSource/Rendering/Base/ForwardRenderPassCompiler.cpp:98-113 | With the target vector sized as the source sizes it, no frame compiles: the main target's write goes one past the end |
| ForwardRenderPassCompiler.EmptyFrameFailsAsWritten | Source/ChilliSource/Rendering/Base/ForwardRenderPassCompiler.cpp:472-502 | A frame with no lights and no objects: the source allocates an empty vector and writes slot 0 |
| ForwardRenderPassCompiler.CompileTargetRenderPassGroups | Source/ChilliSource/Rendering/Base/ForwardRenderPassCompiler.cpp:472-502 | With the main target reserved: fails only on the UI material assertion; otherwise one target per shadow-casting light in light order, then the main target |
| ForwardRenderPassCompiler.ReservedTargetHoldsMain | Source/ChilliSource/Rendering/Base/ForwardRenderPassCompiler.cpp:474-499 | With room for the main target every task writes its own slot, and the vector is the shadow targets followed by the main target |
| SlotTasks.ProcessChildTasks | Source/ChilliSource/Rendering/Base/ForwardRenderPassCompiler.cpp:364 | Running slot-writing tasks succeeds exactly when every slot is in range; each written slot holds its task's value and every other slot keeps its value; an error names the vector's size and an out-of-range slot |
| SlotTasks.ProcessChildTasksOrderIndependent | Source/ChilliSource/Rendering/Base/ForwardRenderPassCompiler.cpp:499 | Tasks with distinct slots give the same vector in any order, so running them one after another stands for running them concurrently |
| SlotTasks.Numbered | Source/ChilliSource/Rendering/Base/ForwardRenderPassCompiler.cpp:477-497 | The a-th task pushed with `nextPassIndex++` writes slot a with the a-th value |
| SlotTasks.FirstOutOfRange | Source/ChilliSource/Rendering/Base/ForwardRenderPassCompiler.cpp:496 | The run stops at the first task whose slot is out of range and reports that slot |
| SlotTasks.NumberedFill | Source/ChilliSource/Rendering/Base/ForwardRenderPassCompiler.cpp:475-499 | Numbered tasks fill a vector at least as long as them front to back, and fail at the first slot past its end otherwise |
| SlotTasks.NumberedSlotsExact | Source/ChilliSource/Rendering/Base/ForwardRenderPassCompiler.cpp:318-364 | Numbered tasks write every slot of a vector of their own size exactly once |
| RenderCommandProcessor.ToGLPolygonType | Source/CSBackend/Rendering/OpenGL/Base/RenderCommandProcessor.cpp:63-77 | Every polygon type maps to one of triangles, triangle strip or lines |
| RenderCommandProcessor.ToGLPolygonTypeInjective | Source/CSBackend/Rendering/OpenGL/Base/RenderCommandProcessor.cpp:65-72 | Two polygon types map to the same primitive mode exactly when they are equal |
| RenderCommandProcessor.ApplyMaterialStep | Source/CSBackend/Rendering/OpenGL/Base/RenderCommandProcessor.cpp:208-237 | Reapplying the bound material does nothing. A new material drops the mesh and binds its shader or first texture exactly when that differs from the bound one, then applies the uniforms last. It faults exactly when the material has no texture |
| RenderCommandProcessor.ApplyMeshStep | Source/CSBackend/Rendering/OpenGL/Base/RenderCommandProcessor.cpp:240-251 | Reapplying the bound mesh does nothing; a new mesh is bound against the bound shader and faults exactly when there is none |
| RenderCommandProcessor.DrawCall | Source/CSBackend/Rendering/OpenGL/Base/RenderCommandProcessor.cpp:260-268 | An indexed draw of all indices exactly when the mesh has indices, else an array draw of all vertices from 0 |
| RenderCommandProcessor.RenderInstanceStep | Source/CSBackend/Rendering/OpenGL/Base/RenderCommandProcessor.cpp:254-269 | Succeeds exactly when a shader and a mesh are bound: sets the instance uniforms, then draws the mesh, and changes no state. Otherwise it faults on the missing shader first |
| RenderCommandProcessor.Step | Source/CSBackend/Rendering/OpenGL/Base/RenderCommandProcessor.cpp:81-137 | Begin and End reset the state; material-group loads and unloads do nothing; ApplyCamera drops the material and stores the camera |
| RenderCommandProcessor.ResourceCommandInvalidates | Source/CSBackend/Rendering/OpenGL/Base/RenderCommandProcessor.cpp:140-181 | A load or unload never faults, empties exactly the slots it invalidates and leaves every other slot as it was |
| RenderCommandProcessor.Run | Source/CSBackend/Rendering/OpenGL/Base/RenderCommandProcessor.cpp:85-135 | One command list, command by command, the first fault stopping it; RunAppend, RunPreservesCoherent, DrawsMatchRenderInstances and ShaderBindsBoundedByMaterials state its properties |
| RenderCommandProcessor.Process | Source/CSBackend/Rendering/OpenGL/Base/RenderCommandProcessor.cpp:81-137 | Every list of the buffer in queue order; ProcessRunsConcatenation proves it equals one Run over the concatenated lists |
| RenderCommandProcessor.RunAppend | Source/CSBackend/Rendering/OpenGL/Base/RenderCommandProcessor.cpp:85-135 | Running two lists one after the other is running their concatenation |
| RenderCommandProcessor.Concat | Source/CSBackend/Rendering/OpenGL/Base/RenderCommandProcessor.cpp:83-85 | The commands of all lists: as many as the lists hold together, starting with the first list |
| RenderCommandProcessor.ConcatPlacesCommand | Source/CSBackend/Rendering/OpenGL/Base/RenderCommandProcessor.cpp:83-85 | Command j of list i is processed at position j after all commands of the earlier lists |
| RenderCommandProcessor.ProcessRunsConcatenation | Source/CSBackend/Rendering/OpenGL/Base/RenderCommandProcessor.cpp:81-137 | Processing a buffer list by list equals one run over the concatenated lists: list boundaries change nothing |
| RenderCommandProcessor.StepCounts | Source/CSBackend/Rendering/OpenGL/Base/RenderCommandProcessor.cpp:87-134 | A command draws once if it is RenderInstance and never otherwise; it binds a shader at most once, and only if it is ApplyMaterial |
| RenderCommandProcessor.DrawsMatchRenderInstances | Source/CSBackend/Rendering/OpenGL/Base/RenderCommandProcessor.cpp:254-269 | A run that completes issues exactly one draw per RenderInstance command |
| RenderCommandProcessor.ShaderBindsBoundedByMaterials | Source/CSBackend/Rendering/OpenGL/Base/RenderCommandProcessor.cpp:208-223 | A run that completes binds a shader at most once per ApplyMaterial command |
| RenderCommandProcessor.StepPreservesCoherent | Source/CSBackend/Rendering/OpenGL/Base/RenderCommandProcessor.cpp:140-310 | Every command keeps "the bound material's shader and first texture are the bound shader and texture" |
| RenderCommandProcessor.RunPreservesCoherent | Source/CSBackend/Rendering/OpenGL/Base/RenderCommandProcessor.cpp:81-137 | Every completed run keeps that invariant |
| RenderCommandProcessor.ReapplyingMaterialIsNoOp | Source/CSBackend/Rendering/OpenGL/Base/RenderCommandProcessor.cpp:211 | From a coherent state, applying a material a second time changes nothing and emits nothing |
| RenderCommandProcessor.InstanceWithoutMeshFaults | Source/CSBackend/Rendering/OpenGL/Base/RenderCommandProcessor.cpp:213 | Begin, the same material twice, an instance, End: the material drops the mesh, so the instance faults on the missing mesh |
| RenderCommandProcessor.InstanceWithMeshDrawsOnce | Source/CSBackend/Rendering/OpenGL/Base/RenderCommandProcessor.cpp:184-274 | The same frame with the mesh applied binds shader, texture and mesh once each, draws once, and ends in the reset state |
| Renderer.Fallback | Source/ChilliSource/Rendering/Base/Renderer.cpp:289-293 | The camera's own predicate when it has one, else the renderer's |
| Renderer.GetCullPredicate | Source/ChilliSource/Rendering/Base/Renderer.cpp:269-283 | The camera's cull predicate, else the renderer's orthographic or perspective one according to the camera's projection |
| Renderer.SortWith | Source/ChilliSource/Rendering/Base/Renderer.cpp:295-299 | No predicate leaves the list unchanged; a sort that reorders keeps the same elements and length |
| Renderer.SortOpaque | Source/ChilliSource/Rendering/Base/Renderer.cpp:287-300 | Without a camera or renderer opaque predicate the list is unchanged; a sort that reorders keeps the same elements. SortPredicateChoice says which predicate is used |
| Renderer.SortTransparent | Source/ChilliSource/Rendering/Base/Renderer.cpp:304-317 | Without a camera or renderer transparent predicate the list is unchanged; a sort that reorders keeps the same elements. SortPredicateChoice says which predicate is used |
| Renderer.SortPredicateChoice | Source/ChilliSource/Rendering/Base/Renderer.cpp:287-317 | Opaque and transparent sorting use the camera's predicate, else the renderer's, else leave the list as it is |
| Renderer.CullRenderables | Source/ChilliSource/Rendering/Base/Renderer.cpp:385-414 | Without a predicate, the input unchanged. Otherwise a stable filter: exactly the visible renderables that have culling off or that the predicate does not cull |
| Renderer.CullRenderablesForPointLight | Source/ChilliSource/Rendering/Base/Renderer.cpp:418-434 | A stable filter: exactly the renderables whose bounding sphere intersects the light's sphere of influence |
| Renderer.FilterSceneRenderables | Source/ChilliSource/Rendering/Base/Renderer.cpp:438-449 | Opaque and transparent lists, each a stable filter; together they hold every renderable exactly once |
| Renderer.FilterShadowMapRenderables | Source/ChilliSource/Rendering/Base/Renderer.cpp:453-466 | A stable filter: exactly the renderables that cast shadows and are not transparent |
| Renderer.SplitLights | Source/ChilliSource/Rendering/Base/Renderer.cpp:238-264 | Lights on invisible entities are skipped. Directional and point lights keep scene order. There is an ambient light exactly when a visible one exists, and it is the last visible one |
| Renderer.RenderSceneToTarget | Source/ChilliSource/Rendering/Base/Renderer.cpp:137-234 | The frame starts by applying the last camera found, or with BeginFrame when there is none; it ends with EndFrame, preceded by the target's Discard when there is a target. FramePassOrder states its stages and their lights |
| Renderer.RenderToTextureSize | Source/ChilliSource/Rendering/Base/Renderer.cpp:113-133 | The colour texture's size when there is one, else the depth texture's, else 1 x 1; the size is positive exactly when the texture it is taken from has a positive size, and always without textures |
| Renderer.DirectionalLightPasses | Source/ChilliSource/Rendering/Base/Renderer.cpp:186-190 | The directional loop's stages are one directional pass per light, in light order, each drawn under that light and over the opaque items, and nothing else; the last directional light stays set |
| Renderer.PointLightPasses | Source/ChilliSource/Rendering/Base/Renderer.cpp:192-198 | The point loop's stages are one point pass per light, in light order, each drawn under that light and over the opaque items that meet its sphere of influence, and nothing else; the last point light stays set |
| Renderer.ShadowMapLoopOrder | Source/ChilliSource/Rendering/Base/Renderer.cpp:331-338 | The shadow-map loop's stages are one shadow map per light that owns one, in light order, each drawn with that light set and over the casters, and nothing else |
| Renderer.ShadowMapLoopDrawsNoPass | Source/ChilliSource/Rendering/Base/Renderer.cpp:321-339 | Every stage of the shadow-map loop is a shadow map; it draws no shader pass and no UI |
| Renderer.ShadowMapEventsOrder | Source/ChilliSource/Rendering/Base/Renderer.cpp:321-339 | The shadow phase renders the maps of exactly the lights that own one, in light order, each with that light set and over the non-transparent shadow casters |
| Renderer.LightPassOrder | Source/ChilliSource/Rendering/Base/Renderer.cpp:175-203 | The light stage's stages are the directional passes followed by the point passes, each under its own light, and nothing else; afterwards the last point light is set, else the last directional light, else the light set before |
| Renderer.LightBlendingIffLights | Source/ChilliSource/Rendering/Base/Renderer.cpp:175-203 | The blend, depth-write and alpha locks bracket the light passes exactly when there is a directional or point light; with neither the stage is empty |
| Renderer.FramePassOrder | Source/ChilliSource/Rendering/Base/Renderer.cpp:137-234 | Whatever light was set before the frame: with a camera, the frame applies the last camera first. Its stages, in order, each with the light set when it is drawn: shadow maps for exactly the lights that own one, each under its light, over the shadow casters; the ambient pass under the ambient light (no light without one) over the culled, sorted opaque items; one directional pass under each directional light over those items; one point pass under each point light over the items that meet its sphere; the ambient pass over the transparent items under the light the light passes left set (the last point light, else the last directional light, else the ambient light); the UI under no light. Without a camera the only stage is the UI, under no light |
| StretchableImage.SetBaseTextureAtlasID | Source/ChilliSource/GUI/Image/StretchableImage.cpp:160-202 | Fails exactly when there is no atlas; otherwise stores the ID and sets panel i to the atlas frame of ID + suffix i |
| StretchableImage.PanelIdsDistinct | Source/ChilliSource/GUI/Image/StretchableImage.cpp:166-200 | The nine looked-up IDs are pairwise different for any base ID and each starts with it |
| StretchableImage.SetBaseTextureAtlasIDIdempotent | Source/ChilliSource/GUI/Image/StretchableImage.cpp:160-202 | Setting the same ID twice is setting it once |
| StretchableImage.Squish | Source/ChilliSource/GUI/Image/StretchableImage.cpp:453-461 | Two corner lengths that overflow the span are scaled to fill it exactly, keeping their proportion; lengths that fit are unchanged |
| StretchableImage.CalculatePatchSize | Source/ChilliSource/GUI/Image/StretchableImage.cpp:443-510 | For each pair of corners along an edge: a pair that fits the view is unchanged; an overflowing pair is scaled in proportion to fill the view exactly; each stays within its original size. Each edge patch is as tall or wide as the corners beside it, and all nine patches are non-negative |
| StretchableImage.NinePatchTilesPanel | Source/ChilliSource/GUI/Image/StretchableImage.cpp:489-509 | Every row's widths and every column's heights sum to the view's size; each edge patch lines up with its corners; the middle is as wide as the top edge and as tall as the left edge |
| StretchableImage.CalculatePatchSizeIdempotent | Source/ChilliSource/GUI/Image/StretchableImage.cpp:443-510 | Sizing again from the sized corners gives the same patches |
| ProgressBar.NewProgressBarConsistent | Source/ChilliSource/GUI/ProgressBar/ProgressBar.cpp:22-28 | A new bar satisfies the animation invariant and is not animated |
| ProgressBar.NewProgressBarShowsZero | Source/ChilliSource/GUI/ProgressBar/ProgressBar.cpp:22-28 | A new bar shows 0 at every time |
| ProgressBar.ProgressBarFromParams | Source/ChilliSource/GUI/ProgressBar/ProgressBar.cpp:32-46 | The bar keeps the animation invariant, has progress 0 and nothing to animate; with an AnimationTime entry its animation time is that many seconds in milliseconds, without one it is not animated |
| ProgressBar.Elapsed | Source/ChilliSource/GUI/ProgressBar/ProgressBar.cpp:86 | Milliseconds since the last set under unsigned 64-bit subtraction: the plain difference, or the wrapped one when the clock has wrapped |
| ProgressBar.GetProgress | Source/ChilliSource/GUI/ProgressBar/ProgressBar.cpp:82-93 | The shown value is always in [0, 1], and is the stored progress when animation is off |
| ProgressBar.SetProgress | Source/ChilliSource/GUI/ProgressBar/ProgressBar.cpp:57-70 | Stores the clamped progress and time-stamps it with the second clock read. The animation starts from the lower of the new value and the value shown at the first clock read, and the invariant is kept |
| ProgressBar.SetAnimatedTimeInSeconds | Source/ChilliSource/GUI/ProgressBar/ProgressBar.cpp:99-102 | Stores seconds times 1000 and changes nothing else |
| ProgressBar.AnimationBetweenPreviousAndTarget | Source/ChilliSource/GUI/ProgressBar/ProgressBar.cpp:84-89 | While animating, the shown value lies between the previous value and the target |
| ProgressBar.AnimationSettles | Source/ChilliSource/GUI/ProgressBar/ProgressBar.cpp:86-88 | Once the animation time has elapsed, the shown value is the target |
| ProgressBar.SetProgressNeverAnimatesBackward | Source/ChilliSource/GUI/ProgressBar/ProgressBar.cpp:62-67 | After a set, the animation difference is non-negative and the shown value never leaves [previous, target] |
| ProgressBar.BackwardJumps | Source/ChilliSource/GUI/ProgressBar/ProgressBar.cpp:62-65 | Setting a value below the one shown at the clock read shows it at once and from then on |
| ProgressBar.StillBarShowsProgress | Source/ChilliSource/GUI/ProgressBar/ProgressBar.cpp:82-93 | A bar with nothing left to animate shows its stored progress at every time |
| ProgressBarComponent.BarUVs | Source/ChilliSource/UI/ProgressBar/ProgressBarComponent.cpp:189-201 | A fill bar without a drawable component is the only error; a drawable gets the fill UVs for a fill bar, the full texture otherwise; no drawable is left alone |
| ProgressBarComponent.UpdateHorizontalBar | Source/ChilliSource/UI/ProgressBar/ProgressBarComponent.cpp:178-202 | Anchored middle-left, with equal gaps either side of the full-size bar; the width is scaled by the progress. A fill bar shows the left `progress` of the texture, another bar type the whole texture (0, 0, 1, 1); a widget without a drawable keeps its drawable component |
| ProgressBarComponent.UpdateVerticalBar | Source/ChilliSource/UI/ProgressBar/ProgressBarComponent.cpp:205-229 | Anchored bottom-centre, with equal gaps above and below the full-size bar; the height is scaled by the progress. A fill bar shows the bottom `progress` of the texture, another bar type the whole texture (0, 0, 1, 1); a widget without a drawable keeps its drawable component |
| ProgressBarComponent.UpdateBar | Source/ChilliSource/UI/ProgressBar/ProgressBarComponent.cpp:162-175 | Without a bar widget nothing changes. Otherwise the widget becomes the horizontal or vertical layout of it, by direction, and the rest of the component is unchanged. It fails only for a fill bar without a drawable |
| ProgressBarComponent.NewProgressBarComponent | Source/ChilliSource/UI/ProgressBar/ProgressBarComponent.cpp:68-79 | Builds exactly when the bar widget name is non-empty and the progress is in [0, 1]; stores the given progress, bar type, direction and name, with the relative bar size defaulting to 1 x 1, and no bar widget yet |
| ProgressBarComponent.SetProgress | Source/ChilliSource/UI/ProgressBar/ProgressBarComponent.cpp:126-133 | A progress outside [0, 1] is refused; otherwise it is stored and the bar widget, if any, is laid out again for the new progress |
| ProgressBarComponent.SetBarWidgetName | Source/ChilliSource/UI/ProgressBar/ProgressBarComponent.cpp:152-159 | A component that already has a bar widget name refuses a new one. Otherwise the name is stored and the bar widget, if any, is laid out again for the component's properties; nothing else changes. It also fails exactly when a bar widget of fill type has no drawable component |
| ProgressBarComponent.SetRelativeBarSize | Source/ChilliSource/UI/ProgressBar/ProgressBarComponent.cpp:118-123 | The size is stored and the bar widget, if any, is laid out again (horizontally or vertically by direction) for the new size; nothing else changes. Fails exactly when a bar widget of fill type has no drawable component |
| ProgressBarComponent.SetBarType | Source/ChilliSource/UI/ProgressBar/ProgressBarComponent.cpp:136-141 | The type is stored and the bar widget, if any, is laid out again for the new type; nothing else changes. Fails exactly when the new type is fill and the bar widget has no drawable component |
| ProgressBarComponent.SetBarDirection | Source/ChilliSource/UI/ProgressBar/ProgressBarComponent.cpp:144-149 | The direction is stored and the bar widget, if any, is laid out again with the new direction's layout and anchor; nothing else changes. Fails exactly when a bar widget of fill type has no drawable component |
| ProgressBarComponent.BarWidgetNameSetOnce | Source/ChilliSource/UI/ProgressBar/ProgressBarComponent.cpp:152-159 | A component built with a name can never be renamed |
| ProgressBarComponent.UpdateBarIdempotent | Source/ChilliSource/UI/ProgressBar/ProgressBarComponent.cpp:162-229 | Laying out twice is laying out once |
| ProgressBarComponent.FillUVsMatchDrawnPart | Source/ChilliSource/UI/ProgressBar/ProgressBarComponent.cpp:178-229 | A fill bar's UV extent times the full bar size is the drawn size; vertically the UVs end at the texture's bottom edge |
| ProgressBarComponent.FullBarIsCentred | Source/ChilliSource/UI/ProgressBar/ProgressBarComponent.cpp:178-229 | At full progress the bar has the relative bar size and equal gaps on either side |
| SliderBar.NewSliderBar | Source/ChilliSource/GUI/SliderBar/SliderBar.cpp:24-36 | A new slider reads 0 |
| SliderBar.GetValue | Source/ChilliSource/GUI/SliderBar/SliderBar.cpp:42-45 | The value read is in [0, 1], and is the stored value when that is in range |
| SliderBar.SetValue | Source/ChilliSource/GUI/SliderBar/SliderBar.cpp:51-54 | The stored value is in [0, 1]: 0 below the range, 1 above it |
| SliderBar.SetGetRoundTrip | Source/ChilliSource/GUI/SliderBar/SliderBar.cpp:42-54 | Setting then reading gives the value back exactly when it lies in [0, 1] |
| SliderBar.SetValueIdempotent | Source/ChilliSource/GUI/SliderBar/SliderBar.cpp:51-54 | Setting twice is setting once and forgets the earlier value |
| SliderBar.SetWhatWasRead | Source/ChilliSource/GUI/SliderBar/SliderBar.cpp:42-54 | Setting the value just read back changes nothing |
| UIMath.Clamp | Source/ChilliSource/GUI/SliderBar/SliderBar.cpp:44 | The result lies in [lo, hi]: the value itself inside the range, lo below it, hi above it |

## Left out

- Concurrency. `ProcessChildTasks` runs its tasks in push order. Every task writes a distinct
  slot, and `SlotTasks.ProcessChildTasksOrderIndependent` shows that the order does not matter.
- GL and render-system side effects are events in a trace. This covers shader compilation,
  texture upload, buffer binding, uniforms, viewport and clear, and render-target creation.
  Matrices and the overlay projection are opaque values.
- Floating point. UI quantities are `real`, so there is no rounding and no NaN. An f32
  division by zero is not modelled as the source's infinity.
- `RenderPassVisibilityChecker`, `RenderPassObjectSorter`, sphere containment and
  intersection, cull and sort predicates, and `TextureAtlas` lookups are not part of this
  model. They are function parameters. The sorters are only assumed to permute.
- The `CS_LOG_FATAL("Invalid RenderObject type.")` branches of `ConvertToRenderPassObject` and
  `GetVertexFormat` (ForwardRenderPassCompiler.cpp:64-66, 85-87): a render object's mesh is
  either static or dynamic in the model, so no other type can occur.
- `StretchableImage.Draw`, the aspect-ratio setters and the texture setters. These are
  transforms and canvas calls, not sizing.
- StretchableImage.CalculatePatchSize: requires non-negative panel and corner sizes. The source's
  division by a zero or negative corner total is not modelled.
- ProgressBar.GetProgress: requires a time-stamp and clock below 2^64, the range of the source's
  `u64`. The conversion of the elapsed time to f32 is exact here.
- ProgressBarComponent: property registration, `OnInit`'s widget lookup by name and
  `OnDestroy` are not modelled. The bar widget is part of the component's state. The
  header's default property values are not part of this model; the constructor takes the
  values explicitly.
- `CS_ASSERT` and `CS_LOG_FATAL` become error results. In the command processor, a missing
  bound shader or mesh becomes a `Fault`, and so does `GetRenderTextures()[0]` on a material
  with no texture.
- Resource lifetime: the GL objects behind shaders, textures and meshes are assumed loaded.
  The `GetExtraData()` dereferences (RenderCommandProcessor.cpp:217, 222, 231-232, 247-249,
  256) never fault in the model. The dangling extra-data pointers that the Unload handlers
  leave (:284-286, :296-298, :307-309) are not modelled. So binding a shader after it was
  unloaded records an ordinary `BindShader`.
- `Renderer` construction, the predicate setters, `GetActiveCameraPtr`, `RenderUI`'s canvas
  drawing and the per-renderable `Render` calls. A render pass is one event carrying its pass
  and its renderables.
- The other repository files (networking, platform back ends, audio, video, input, reflection)
  are outside the modelled core.

## Findings

| source | as written | input that shows it | evidently intended | confidence | as-written member | corrected member |
|---|---|---|---|---|---|---|
| Source/ChilliSource/Rendering/Base/ForwardRenderPassCompiler.cpp:98-113 | `CalcNumTargets` declares `k_reservedTargets = 1` but returns only the number of shadow-casting lights. The main target's task then writes index N of a vector of size N | A frame with no directional lights: the vector is empty and the main target is written at index 0 | Return the shadow-casting lights plus the reserved main target, N + 1 | not executed | ForwardRenderPassCompiler.AsWrittenMainSlotOutOfRange | ForwardRenderPassCompiler.CompileTargetRenderPassGroups |
