# pong-rust core, modelled in Dafny

pong-rust is a small Pong game drawn with Vulkan (through `ash`). This
project models its core in Dafny and proves properties of that model:

- **Device and swapchain policy** (`share.rs`), in `swapchain_policy.dfy` and
  `device_selection.dfy`. This covers the queue-family scan, the
  device-extension check, the choice of physical device, and the choice of
  surface format, present mode, extent, image count and sharing mode. It
  also covers the memory-type search.
- **Resource builders** (`share.rs`), in `resource_builders.dfy`. Every
  Vulkan call is an event appended to the ghost trace of a `GpuTrace.Driver`
  (`gpu_trace.dfy`). The driver hands out fresh handles from a counter. The
  builders are proved to create the right number of objects, to pair the
  parallel lists correctly, and to record the commands in the right order.
- **The renderer** (`graphics_manager.rs`), as the class
  `GraphicsManagerModel.GraphicsManager` in `graphics_manager.dfy`. It covers:
  - start-up;
  - the frame schedule of `draw_frame`, with its acquire and present
    outcomes, its frame slots and its swapchain recreation;
  - `cleanup_swapchain` and `recreate_swapchain`;
  - `Drop`.
- **The FPS sampler** (`fps_limiter.rs`), as the class
  `FpsLimiterModel.FpsLimiter` in `fps_limiter.dfy`. It is a five-slot ring
  buffer over an array.
- **The scene** (`scene.rs`), as the class `SceneModel.Scene` in `scene.dfy`.
  It covers paddle and ball actions, the per-frame update, the game-over
  test and the model transforms. `f32` is modelled as `real`.
- **The game loop** (`main.rs`), as the class `PongGame.PongRust` in
  `pong_game.dfy`. It covers the game-phase machine driven by key events
  and the game-over step of a redraw.

Driver results that the renderer branches on are method parameters:

- the acquire and present results of `draw_frame`;
- the image count of a swapchain;
- the random draws of a kickoff;
- the elapsed time of an FPS tick.

Where the sources disagree with each other, this model follows the core
files:

- `scene.rs` gives the paddles a position and a velocity, and the ball a 2-D
  velocity, which `paddle.rs` and `ball.rs` do not declare. The scene's
  fields are modelled as `scene.rs` uses them. The paddles and the ball
  start at rest.
- `graphics_manager.rs` calls `create_command_buffers` with one vertex
  buffer, index buffer, index count and descriptor-set list. `share.rs`
  takes a list of `ModelBuffers`. The renderer is modelled as passing one
  model built from those four values.
- `main.rs` passes the scene to `GraphicsManager::new`, and transforms to
  `draw_frame`. The renderer's own signatures take neither, so the model
  follows the renderer.

The game's `Action` (for the scene) and the renderer's recreation are
modelled as the source writes them, including two consequences:

- `recreate_swapchain` does not recreate the uniform buffers or the
  descriptor sets. A new swapchain with more images than at start-up
  therefore panics while the command buffers are recorded (`share.rs:825`).
- Nothing in these files ever sets `is_framebuffer_resized` to true. The
  model keeps the flag and proves that it stays false once it is false.

## Model

| member | source | states |
|---|---|---|
| SwapchainPolicy.FindPreferredFormat | src/graphics_manager/share.rs:410-416 | finds a format exactly when the preferred (B8G8R8A8_SRGB, SRGB_NONLINEAR) pair is offered, and then returns that pair |
| SwapchainPolicy.ChooseSwapchainFormat | src/graphics_manager/share.rs:407-419 | panics (None) exactly on an empty list; returns the preferred pair when offered, otherwise the first format; the result is always one of the offered formats |
| SwapchainPolicy.ChooseSwapchainPresentMode | src/graphics_manager/share.rs:421-431 | MAILBOX exactly when offered, otherwise FIFO |
| SwapchainPolicy.Clamp | src/graphics_manager/share.rs:448-457 | for lo <= hi the result is the value of [lo, hi] closest to x, and x itself when x is in range |
| SwapchainPolicy.ChooseSwapchainExtent | src/graphics_manager/share.rs:433-461 | the surface's current extent unless its width is u32::MAX; otherwise each window dimension is brought to the nearest value of the surface's range |
| SwapchainPolicy.RequestedImageCount | src/graphics_manager/share.rs:343-348 | one more than the minimum, lowered to a non-zero maximum; at least 1, at most the maximum, and never below the minimum when the maximum allows it |
| SwapchainPolicy.ChooseImageSharing | src/graphics_manager/share.rs:350-362 | CONCURRENT over both families exactly when the graphics and present families differ, EXCLUSIVE with no indices otherwise; panics (None) exactly when they differ because one is missing |
| SwapchainPolicy.SwapchainCreateSettings | src/graphics_manager/share.rs:337-383 | the create-info settings exist exactly when there is a format and a sharing mode; the format is offered, MAILBOX iff offered, the image count is within bounds, and the current extent is kept when fixed |
| SwapchainPolicy.FindMemoryTypeFrom | src/graphics_manager/share.rs:630-636 | the loop of find_memory_type from index i: the first index from i on that the filter allows and whose flags contain the required ones |
| SwapchainPolicy.FindMemoryType | src/graphics_manager/share.rs:626-639 | the smallest suitable memory type; panics (None) exactly when no type is suitable |
| SwapchainPolicy.EmptyFilterFindsNothing | src/graphics_manager/share.rs:626-639 | a type filter with no bit set always makes find_memory_type panic |
| DeviceSelection.FindQueueFamily | src/graphics_manager/share.rs:236-272 | records only qualifying families; a slot stays empty exactly when no family qualifies; the scan stops at the first index where both kinds have been seen, and each slot holds the latest qualifying index it looked at |
| DeviceSelection.CheckDeviceExtensionSupport | src/graphics_manager/share.rs:274-301 | true exactly when every required extension name is available |
| DeviceSelection.IsPhysicalDeviceSuitable | src/graphics_manager/share.rs:134-159 | true exactly when the device has complete queue families, the extensions, a surface format, a present mode and anisotropic sampling |
| DeviceSelection.PickPhysicalDevice | src/graphics_manager/share.rs:108-132 | the first suitable device in enumeration order; panics (None) exactly when no device is suitable |
| GpuTrace.Driver.Create | src/graphics_manager/share.rs:386-390 | a `vkCreate*` call returns a non-null handle that no earlier call in the trace handed out, and appends exactly its own creation event; the driver keeps every handed-out handle below its counter |
| ResourceBuilders.CreateBuffer | src/graphics_manager/share.rs:479-530 | creates a buffer and its memory with the given usage and memory flags, and binds them, in that order |
| ResourceBuilders.CopyBuffer | src/graphics_manager/share.rs:532-624 | a one-time command buffer is allocated, begun, records the copy, ends, is submitted, the queue is waited for, and the buffer is freed |
| ResourceBuilders.UploadThroughStaging | src/graphics_manager/share.rs:901-956 | a staged upload makes the staging pair, fills it through a mapping, makes the device-local pair, copies, and destroys the staging pair |
| ResourceBuilders.CreateVertexBuffer | src/graphics_manager/share.rs:901-956 | a staged upload into a device-local vertex buffer |
| ResourceBuilders.CreateIndexBuffer | src/graphics_manager/share.rs:958-1013 | a staged upload into a device-local index buffer |
| ResourceBuilders.StagingReleasedAfterCopy | src/graphics_manager/share.rs:935-953 | the staging buffer and memory are destroyed only after the queue has gone idle, and the returned buffer is never destroyed |
| ResourceBuilders.CreateSyncObjects | src/graphics_manager/share.rs:857-899 | one image-available semaphore, one render-finished semaphore and one signalled fence per frame in flight, each fresh and created in that order |
| ResourceBuilders.CreateSyncSlot | src/graphics_manager/share.rs:871-886 | one iteration creates two semaphores and then a fence created signalled, with consecutive fresh handles |
| ResourceBuilders.SyncSlotAt | src/graphics_manager/share.rs:871-896 | slot k's image-available semaphore, render-finished semaphore and fence created with the SIGNALED flag are the calls at positions 3k, 3k + 1 and 3k + 2 |
| ResourceBuilders.CreateUniformBuffers | src/graphics_manager/share.rs:1118-1141 | one host-visible uniform buffer and memory per swapchain image |
| ResourceBuilders.UniformPairAt | src/graphics_manager/share.rs:1118-1141 | uniform buffer k is bound to uniform memory k |
| ResourceBuilders.CreateDescriptorSets | src/graphics_manager/share.rs:1040-1092 | one set per swapchain image, all with the given layout, set k writing uniform buffer k |
| ResourceBuilders.CreateSwapchain | src/graphics_manager/share.rs:386-396 | a fresh swapchain and its images, with the image list queried right after the creation |
| ResourceBuilders.CreateGraphicsPipeline | src/graphics_manager/share.rs:1200-1415 | two shader modules, the layout and the pipeline are created, then both shader modules are destroyed |
| ResourceBuilders.CreateImageViews | src/graphics_manager/share.rs:1143-1162 | one fresh view per swapchain image, in order, view k of image k |
| ResourceBuilders.CreateFramebuffers | src/graphics_manager/share.rs:703-733 | one fresh framebuffer per image view, in order, framebuffer k over view k and the render pass |
| ResourceBuilders.RecordCommandBuffer | src/graphics_manager/share.rs:777-851 | begin, begin the render pass on the image's framebuffer, bind the pipeline, draw every model, end the pass, end the buffer |
| ResourceBuilders.CreateCommandBuffers | src/graphics_manager/share.rs:753-855 | one command buffer per framebuffer, allocated in one call, then buffer i recorded for image i |
| ResourceBuilders.RecordingModelBlock | src/graphics_manager/share.rs:822-844 | in the buffer of image i, model k is drawn by four commands at positions 3 + 4k to 6 + 4k, binding its vertex and index buffers, its descriptor set i, and drawing its index count |
| GraphicsManagerModel.MeshIsTriangleList | src/graphics_manager.rs:25-43 | the index list is two whole triangles of distinct vertices that use every vertex of the quad |
| GraphicsManagerModel.CleanupInDependencyOrder | src/graphics_manager.rs:451-468 | cleanup_swapchain only releases, in dependency order: command buffers, framebuffers, pipeline, pipeline layout, render pass, image views, swapchain |
| GraphicsManagerModel.CleanupReleasesOnlyTheChain | src/graphics_manager.rs:451-468 | cleanup_swapchain releases nothing outside the swapchain-dependent objects |
| GraphicsManagerModel.CleanupReleasesAllTheChain | src/graphics_manager.rs:451-468 | cleanup_swapchain frees the command buffers and destroys every chain object |
| GraphicsManagerModel.RecordingReleasesNothing | src/graphics_manager/share.rs:777-851 | recording a command buffer releases nothing |
| GraphicsManagerModel.BuildReleasesOnlyShaderModules | src/graphics_manager.rs:404-448 | building the chain again releases nothing but the fresh shader modules of the new pipeline |
| GraphicsManagerModel.RecreateWaitsThenReleasesOnlyTheChain | src/graphics_manager.rs:387-449 | recreate_swapchain waits for the device before releasing anything; it destroys only old chain objects and the new shader modules, and frees only the old command buffers |
| GraphicsManagerModel.DeviceChildTeardownReleasesOnlyChildren | src/graphics_manager.rs:474-502 | the part of drop before the device releases only device-owned objects |
| GraphicsManagerModel.DropReleasesDeviceLastButInstance | src/graphics_manager.rs:472-513 | drop destroys the device after every device-owned object, then only the surface, the messenger and the instance; the instance is destroyed last and nowhere else |
| GraphicsManagerModel.DropDestroysMessengerIffValidation | src/graphics_manager.rs:507-510 | the debug messenger is destroyed exactly when validation created one |
| GraphicsManagerModel.DropReleasesEverything | src/graphics_manager.rs:472-513 | drop releases every object the renderer holds |
| GraphicsManagerModel.FrameSlotIsRemainder | src/graphics_manager.rs:357 | the round-robin slot of frame f is f mod the slot count |
| GraphicsManagerModel.SlotAdvances | src/graphics_manager.rs:357 | (slot + 1) % MAX_FRAMES_IN_FLIGHT from frame f's slot is frame f + 1's slot |
| GraphicsManagerModel.GraphicsManager.constructor | src/graphics_manager.rs:99-253 | the trace is exactly the start-up calls of the objects held, in the source's order; frame slot 0; resize flag clear; one descriptor set per image; no uniform written yet |
| GraphicsManagerModel.Start | src/graphics_manager.rs:99-197 | instance, surface, the messenger exactly when validation is on, device; then the swapchain objects, the buffers and descriptor sets, the command buffers and the sync objects, each group as the calls of its own builder |
| GraphicsManagerModel.StartInstance | src/graphics_manager.rs:103-123 | instance, surface, a debug messenger exactly when validation is on, then the logical device |
| GraphicsManagerModel.StartChain | src/graphics_manager.rs:128-154 | the swapchain and its images, one view per image, the render pass, the descriptor-set layout, the pipeline (its shader modules right after the layout) and one framebuffer per view |
| GraphicsManagerModel.StartBuffers | src/graphics_manager.rs:155-183 | the command pool, the staged vertex and index uploads, one uniform buffer per image, the descriptor pool, and one descriptor set per image with set k writing uniform buffer k |
| GraphicsManagerModel.StartUploads | src/graphics_manager.rs:155-169 | the command pool, then the vertex buffer and the index buffer, each staged through that pool |
| GraphicsManagerModel.StartDescriptors | src/graphics_manager.rs:170-183 | one uniform buffer per image, the descriptor pool, then the sets, set k writing uniform buffer k |
| GraphicsManagerModel.StartFrames | src/graphics_manager.rs:184-197 | one command buffer per framebuffer, buffer i recorded on framebuffer i with descriptor set i, then one semaphore pair and one signalled fence per frame slot |
| GraphicsManagerModel.GraphicsManager.UpdateUniformBuffer | src/graphics_manager.rs:360-385 | maps, writes and unmaps the uniform memory of the given image and no other |
| GraphicsManagerModel.GraphicsManager.CleanupSwapchain | src/graphics_manager.rs:451-468 | appends exactly the teardown of the current chain |
| GraphicsManagerModel.GraphicsManager.RecreateSwapchain | src/graphics_manager.rs:387-449 | waits, cleans up and rebuilds; completes exactly when the descriptor sets cover the new images; the new chain is the fresh one built from the next handle, and only chain fields change |
| GraphicsManagerModel.GraphicsManager.Rebuild | src/graphics_manager.rs:404-448 | the new swapchain, views, render pass, pipeline, framebuffers and recorded command buffers, all fresh |
| GraphicsManagerModel.GraphicsManager.BuildTargets | src/graphics_manager.rs:404-435 | the swapchain, views, render pass, pipeline and framebuffers of the new chain |
| GraphicsManagerModel.GraphicsManager.BuildPresentation | src/graphics_manager.rs:404-419 | the new swapchain, its images and one view per image |
| GraphicsManagerModel.GraphicsManager.BuildPass | src/graphics_manager.rs:420-435 | the new render pass, pipeline and framebuffers over the new views |
| GraphicsManagerModel.GraphicsManager.DrawFrame | src/graphics_manager.rs:267-358 | the frame slot advances exactly when the frame reaches its end; an out-of-date acquire recreates and returns; other acquire errors panic; an acquired frame waits on its slot's fence, writes that image's uniforms only, resets the fence, submits that image's command buffer and presents, then recreates when the present asks for it; the swapchain chain is kept unless recreated, and after a completed recreation it is the fresh chain built from the next handle |
| GraphicsManagerModel.GraphicsManager.PresentAcquired | src/graphics_manager.rs:295-357 | from an acquired image: the submit and present calls, one uniform write, then the end of the frame; the chain is kept unless the present calls for a recreation, and is the fresh one after it |
| GraphicsManagerModel.GraphicsManager.SubmitAndPresent | src/graphics_manager.rs:295-343 | the uniforms of the acquired image, the fence reset, the submission waiting on the slot's image-available semaphore and signalling its render-finished semaphore and fence, and the present |
| GraphicsManagerModel.GraphicsManager.FinishFrame | src/graphics_manager.rs:345-357 | OUT_OF_DATE and SUBOPTIMAL call for recreation, a success calls for it when the resize flag is set, any other error panics; the chain is kept when no recreation is called for, and is the fresh one after a completed recreation |
| GraphicsManagerModel.GraphicsManager.RecreateIfResized | src/graphics_manager.rs:352-357 | clears the flag and recreates when resized, then moves to the next slot; without a resize the chain and the trace are unchanged |
| GraphicsManagerModel.GraphicsManager.AdvanceFrame | src/graphics_manager.rs:357 | the slot becomes (slot + 1) % MAX_FRAMES_IN_FLIGHT and is still the round-robin slot of the frames drawn |
| GraphicsManagerModel.GraphicsManager.Drop | src/graphics_manager.rs:472-513 | appends exactly the teardown of everything held |
| GraphicsManagerModel.GraphicsManager.DestroyDeviceChildren | src/graphics_manager.rs:474-502 | sync objects, chain, descriptor pool, uniform buffers, mesh buffers, layout and command pool, in that order |
| GraphicsManagerModel.GraphicsManager.DestroyMeshAndPools | src/graphics_manager.rs:493-502 | index buffer and memory, vertex buffer and memory, descriptor-set layout, command pool |
| GraphicsManagerModel.GraphicsManager.DestroyDeviceAndInstance | src/graphics_manager.rs:504-511 | device, surface, the messenger when validation is on, instance |
| GraphicsManagerModel.GraphicsManager.DestroySyncObjects | src/graphics_manager.rs:474-480 | for every slot, its two semaphores and then its fence |
| GraphicsManagerModel.GraphicsManager.DestroyUniformBuffers | src/graphics_manager.rs:487-491 | for every image, its uniform buffer and then its memory |
| FpsLimiterModel.SubsecMicros | src/graphics_manager/fps_limiter.rs:28 | the whole microseconds of the fractional second: below 1_000_000, the floor of the sub-second nanoseconds over 1000 for every elapsed time, and within a microsecond of the elapsed time when under a second |
| FpsLimiterModel.WholeSecondsDropped | src/graphics_manager/fps_limiter.rs:28 | the whole seconds of the elapsed time are dropped: s seconds plus n nanoseconds give the same sample as n nanoseconds alone, n / 1000 |
| FpsLimiterModel.FpsLimiter.constructor | src/graphics_manager/fps_limiter.rs:14-21 | all five samples 0, the cursor 0, the delta 0 |
| FpsLimiterModel.FpsLimiter.TickFrame | src/graphics_manager/fps_limiter.rs:24-31 | the new delta goes into the cursor's slot and the other four slots are unchanged; the cursor advances by one modulo 5, so after N ticks it is N mod 5; every sample stays below one second |
| FpsLimiterModel.FpsLimiter.SampleSum | src/graphics_manager/fps_limiter.rs:35-38 | the u32 sum of the five samples never overflows and equals their sum |
| SceneModel.ModelTransformIsIdentityPlusTranslation | src/scene.rs:122 | the transform of an entity is the identity matrix plus the translation matrix of its position |
| SceneModel.TranslationMovesPoints | src/scene.rs:122 | the translation matrix of a position moves every point by that position |
| SceneModel.ModelTransformMovesByHalf | src/scene.rs:120-128 | the identity-plus-translation transform doubles every homogeneous coordinate, so it moves points by half the entity's position |
| SceneModel.Clamp | src/scene.rs:131-140 | the result lies within [lo, hi], is x when x is inside, and the nearer bound otherwise |
| SceneModel.PaddleVelocity | src/scene.rs:152-157 | Up gives -2, Down gives 2, Stop gives 0 |
| SceneModel.Scene.constructor | src/scene.rs:45-88 | paddles at x = -3.7 and 3.7, walls at y = -3.2 and 3.2, ball at the origin, nothing moving |
| SceneModel.Scene.ModelTransforms | src/scene.rs:120-128 | exactly five transforms, in the order left paddle, right paddle, top wall, bottom wall, ball |
| SceneModel.Scene.ModelDataList | src/scene.rs:90-118 | exactly five entries, with the meshes of the left paddle, right paddle, top wall, bottom wall and ball in that order |
| SceneModel.Scene.ModelDataMatchesTransforms | src/scene.rs:90-128 | get_model_data and get_model_transforms agree entry by entry |
| SceneModel.Scene.IsGameOver | src/scene.rs:145-147 | true exactly when the ball's x is more than 4.7 from the centre line |
| SceneModel.Scene.Update | src/scene.rs:130-143 | each paddle's y moves by delta_time times its velocity and is clamped to [-2, 2]; the ball moves by delta_time times its velocity with no bound; a ball at rest does not move |
| SceneModel.Scene.HandleAction | src/scene.rs:149-178 | each paddle action sets only that paddle's velocity; kickoff sets the ball's velocity to (±1, y) with y in [-0.3, 0.3) and leaves positions alone; game over stops the ball and both paddles in place; reset puts the ball and paddles on the centre line, keeps velocities, and ends the game-over state |
| PongGame.PaddleAction | src/main.rs:111-134 | W, S, I and K give a paddle action: pressing moves that key's paddle (W and I upwards), releasing stops it; no other key gives one |
| PongGame.PongRust.constructor | src/main.rs:140-151 | a new scene in the Start phase: paddles at x = -3.7 and 3.7, walls at y = -3.2 and 3.2, ball at the origin, nothing moving |
| PongGame.PongRust.HandleKeyboardInput | src/main.rs:86-137 | Escape quits in every phase without changing it; Space moves Start to Playing with a kickoff and End to Start with a reset, and does nothing while playing; paddle keys steer in every phase; only a Space press changes the phase; nothing else yields an action |
| PongGame.PongRust.Redraw | src/main.rs:65-73 | when the ball is past a goal line, the game-over action is applied and the phase becomes End before the update: everything stops, the ball stays put, the paddles are only clamped to [-2, 2], and the game stays over; otherwise the phase is kept, the ball moves by delta_time times its velocity and each paddle's y is stepped and clamped; the transforms are those of the new scene |

## Left out

- Vulkan calls are events with opaque handles. Nothing about images, memory contents, shaders or GPU execution is modelled.
- GPU concurrency is not modelled: the order between host calls and GPU work, and what fences and semaphores guarantee on the GPU.
- Allocation and other failures of the Vulkan calls are not modelled. The source `expect`s them, and the model assumes they succeed. The panics of the renderer's own logic are outcomes of the searches and choices that contain them (`FindMemoryType`, `ChooseSwapchainFormat`, `ChooseImageSharing`, `PickPhysicalDevice`, `RecreateSwapchain`), but not of the builders that call those searches.
- `ResourceBuilders.CreateBuffer`, `UploadThroughStaging` and `CreateUniformBuffers` assume that `find_memory_type` finds a memory type. Its panic (`share.rs:638`) is never an outcome of these builders, and the memory index chosen is not recorded.
- `ResourceBuilders.CreateSwapchain` assumes that the format choice and the queue-family `unwrap`s succeed (`share.rs:356-357`, `share.rs:418`). At start-up the device selection guarantees a format and both families. The builder is not tied to `SwapchainPolicy.SwapchainCreateSettings`: the image count is its parameter, and the create-info values are not recorded in the trace.
- Instance, surface, logical-device and debug-messenger creation are single `Created` events. The layer, extension and queue set-up inside them is not modelled. `debug.rs` is not part of this model.
- `query_swapchain_support`, `create_render_pass`, `create_descriptor_pool`, `create_descriptor_set_layout` and `create_command_pool` are single creation events. Their create-info contents are not modelled.
- The memory type chosen by `find_memory_type` is modelled on its own, in `SwapchainPolicy.FindMemoryType`. The trace records only the memory flags asked for, not the index chosen.
- `constants.rs` is not part of this model. `MAX_FRAMES_IN_FLIGHT` and `VALIDATION.is_enable` are constructor parameters, and `WINDOW_WIDTH`/`WINDOW_HEIGHT` are part of the window extent parameter.
- `SwapchainPolicy.RequestedImageCount`: the u32 overflow of `min_image_count + 1` at u32::MAX is not modelled; the count is an unbounded integer.
- `SwapchainPolicy.Clamp`: the nearest-value property is stated only for lo <= hi. The release-mode result for lo > hi is the body itself.
- `ResourceBuilders.CreateCommandBuffers` requires a descriptor set for every image. The out-of-bounds panic of the source is modelled one level up, by `GraphicsManagerModel.GraphicsManager.RecreateSwapchain` returning false.
- `GraphicsManagerModel.GraphicsManager.RecreateSwapchain`: on the panic path, the trace stops after the cleanup. The swapchain, views, pipeline and framebuffers created before the panic are not recorded, and the chain fields are left unspecified.
- The uniform-buffer contents are not modelled: the rotation by `delta_time` of `update_uniform_buffer` is a float matrix product. Only which memory is written, and how often, is recorded.
- `FPSLimiter::fps` and `delta_time` are float divisions and are left out; only the summing loop of `fps` is modelled. The `Instant` clock is replaced by the elapsed time passed to `TickFrame`.
- The suboptimal flag of a successful acquire and of a successful present is not looked at, as in the source.
- `window_request_redraw`, `device_wait_idle`, the event-loop closure of `main_loop`, the close and quit handling, and the FPS print are window and event plumbing and are left out. `PongGame.PongRust.Redraw` stops at the transforms: `draw_frame` and `tick_frame` are modelled by `DrawFrame` and `TickFrame`.
- The camera (`look_at`, `perspective`), the colours, and the vertex data of the paddle, wall and ball meshes are constant data and are left out. `ModelData` records which entity's mesh it carries.
- The randomness of a kickoff is a pair of parameters. `rand` itself is not modelled.
