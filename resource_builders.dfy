/** The resource-building routines of `share.rs`, as sequences of driver
    calls: how many objects each creates, how the objects of parallel lists
    are paired, and in which order the commands are recorded. */
module ResourceBuilders {
  import opened Wrappers
  import opened VkTypes
  import opened GpuTrace

  // ----------------------------------------------------------- buffers

  /** The calls of `create_buffer`: create the buffer, allocate its memory
      (with a memory type carrying `memoryFlags`) and bind the two. */
  function BufferEvents(buffer: Handle, memory: Handle, usage: BufferUsage, memoryFlags: bv32): seq<Event> {
    [CreatedBuffer(buffer, usage, memoryFlags), Created(DeviceMemory, memory), BoundBufferMemory(buffer, memory)]
  }

  /** `create_buffer` */
  method CreateBuffer(driver: Driver, usage: BufferUsage, memoryFlags: bv32) returns (buffer: Handle, memory: Handle)
    requires driver.Valid()
    modifies driver
    ensures driver.Valid()
    ensures buffer == old(driver.nextHandle) && memory == buffer + 1 && driver.nextHandle == memory + 1
    ensures driver.trace == old(driver.trace) + BufferEvents(buffer, memory, usage, memoryFlags)
  {
    var handles := driver.NewHandles(1);
    buffer := handles[0];
    driver.Call(CreatedBuffer(buffer, usage, memoryFlags));
    memory := driver.Create(DeviceMemory);
    driver.Call(BoundBufferMemory(buffer, memory));
  }

  /** The calls of `copy_buffer`: a one-time command buffer that copies
      `source` into `destination`, submitted and waited for before it is
      freed. */
  function OneTimeCopyEvents(pool: Handle, commandBuffer: Handle, source: Handle, destination: Handle): seq<Event> {
    [ AllocatedCommandBuffers(pool, [commandBuffer]),
      BeganCommandBuffer(commandBuffer),
      Recorded(commandBuffer, GpuTrace.CopyBuffer(source, destination)),
      EndedCommandBuffer(commandBuffer),
      Submitted(commandBuffer, [], [], None),
      QueueWaitedIdle,
      FreedCommandBuffers(pool, [commandBuffer]) ]
  }

  /** `copy_buffer` with `begin_single_time_command` and
      `end_single_time_command` */
  method CopyBuffer(driver: Driver, pool: Handle, source: Handle, destination: Handle)
    requires driver.Valid()
    modifies driver
    ensures driver.Valid()
    ensures driver.nextHandle == old(driver.nextHandle) + 1
    ensures driver.trace == old(driver.trace) + OneTimeCopyEvents(pool, old(driver.nextHandle), source, destination)
  {
    var handles := driver.NewHandles(1);
    var commandBuffer := handles[0];
    driver.Call(AllocatedCommandBuffers(pool, [commandBuffer]));
    driver.Call(BeganCommandBuffer(commandBuffer));
    driver.Call(Recorded(commandBuffer, GpuTrace.CopyBuffer(source, destination)));
    driver.Call(EndedCommandBuffer(commandBuffer));
    driver.Call(Submitted(commandBuffer, [], [], None));
    driver.Call(QueueWaitedIdle);
    driver.Call(FreedCommandBuffers(pool, [commandBuffer]));
  }

  /** The calls of a staged upload: a host-visible staging buffer is filled
      through a mapping, copied into a new device-local buffer, and destroyed
      once the copy has completed. */
  function StagedUploadEvents(first: Handle, pool: Handle, usage: BufferUsage): seq<Event> {
    var staging, stagingMemory, buffer, memory, copier := first, first + 1, first + 2, first + 3, first + 4;
    BufferEvents(staging, stagingMemory, TransferSource, MEMORY_HOST_VISIBLE | MEMORY_HOST_COHERENT)
    + [MappedMemory(stagingMemory), CopiedToMemory(stagingMemory), UnmappedMemory(stagingMemory)]
    + BufferEvents(buffer, memory, usage, MEMORY_DEVICE_LOCAL)
    + OneTimeCopyEvents(pool, copier, staging, buffer)
    + [Destroyed(Buffer, staging), Destroyed(DeviceMemory, stagingMemory)]
  }

  /** The common body of `create_vertex_buffer` and `create_index_buffer`. */
  method UploadThroughStaging(driver: Driver, pool: Handle, usage: BufferUsage) returns (buffer: Handle, memory: Handle)
    requires driver.Valid()
    modifies driver
    ensures driver.Valid()
    ensures buffer == old(driver.nextHandle) + 2 && memory == buffer + 1
    ensures driver.nextHandle == old(driver.nextHandle) + 5
    ensures driver.trace == old(driver.trace) + StagedUploadEvents(old(driver.nextHandle), pool, usage)
  {
    var staging, stagingMemory := CreateBuffer(driver, TransferSource, MEMORY_HOST_VISIBLE | MEMORY_HOST_COHERENT);
    driver.Call(MappedMemory(stagingMemory));
    driver.Call(CopiedToMemory(stagingMemory));
    driver.Call(UnmappedMemory(stagingMemory));
    buffer, memory := CreateBuffer(driver, usage, MEMORY_DEVICE_LOCAL);
    CopyBuffer(driver, pool, staging, buffer);
    driver.Destroy(Buffer, staging);
    driver.Destroy(DeviceMemory, stagingMemory);
  }

  /** `create_vertex_buffer` */
  method CreateVertexBuffer(driver: Driver, pool: Handle) returns (buffer: Handle, memory: Handle)
    requires driver.Valid()
    modifies driver
    ensures driver.Valid()
    ensures buffer == old(driver.nextHandle) + 2 && memory == buffer + 1
    ensures driver.nextHandle == old(driver.nextHandle) + 5
    ensures driver.trace == old(driver.trace) + StagedUploadEvents(old(driver.nextHandle), pool, VertexDestination)
  {
    buffer, memory := UploadThroughStaging(driver, pool, VertexDestination);
  }

  /** `create_index_buffer` */
  method CreateIndexBuffer(driver: Driver, pool: Handle) returns (buffer: Handle, memory: Handle)
    requires driver.Valid()
    modifies driver
    ensures driver.Valid()
    ensures buffer == old(driver.nextHandle) + 2 && memory == buffer + 1
    ensures driver.nextHandle == old(driver.nextHandle) + 5
    ensures driver.trace == old(driver.trace) + StagedUploadEvents(old(driver.nextHandle), pool, IndexDestination)
  {
    buffer, memory := UploadThroughStaging(driver, pool, IndexDestination);
  }

  /** A staged upload frees its staging buffer and memory only after the
      queue has gone idle, and never destroys the buffer it returns. */
  lemma StagingReleasedAfterCopy(first: Handle, pool: Handle, usage: BufferUsage)
    ensures var es := StagedUploadEvents(first, pool, usage);
      && |es| == 18
      && es[14] == QueueWaitedIdle
      && es[16] == Destroyed(Buffer, first) && es[17] == Destroyed(DeviceMemory, first + 1)
      && (forall k :: 0 <= k < |es| && es[k].Destroyed? ==> 14 < k && es[k].handle < first + 2)
  {
  }

  // ------------------------------------------------------- sync objects

  /** The calls of one iteration of `create_sync_objects`. */
  function SyncSlotEvents(imageAvailable: Handle, renderFinished: Handle, inFlight: Handle): seq<Event> {
    [Created(Semaphore, imageAvailable), Created(Semaphore, renderFinished), CreatedFence(inFlight, true)]
  }

  function SyncEvents(imageAvailable: seq<Handle>, renderFinished: seq<Handle>, inFlight: seq<Handle>): seq<Event>
    requires |imageAvailable| == |renderFinished| == |inFlight|
  {
    Concat(seq(|imageAvailable|, k requires 0 <= k < |imageAvailable| =>
      SyncSlotEvents(imageAvailable[k], renderFinished[k], inFlight[k])))
  }

  /** `create_sync_objects`: three parallel lists with one entry per frame in
      flight, made of distinct fresh semaphores and fences. */
  method CreateSyncObjects(driver: Driver, maxFramesInFlight: nat)
    returns (imageAvailable: seq<Handle>, renderFinished: seq<Handle>, inFlight: seq<Handle>)
    requires driver.Valid()
    modifies driver
    ensures driver.Valid()
    ensures |imageAvailable| == |renderFinished| == |inFlight| == maxFramesInFlight
    ensures forall k :: 0 <= k < maxFramesInFlight ==>
      && imageAvailable[k] == old(driver.nextHandle) + 3 * k
      && renderFinished[k] == old(driver.nextHandle) + 3 * k + 1
      && inFlight[k] == old(driver.nextHandle) + 3 * k + 2
    ensures driver.nextHandle == old(driver.nextHandle) + 3 * maxFramesInFlight
    ensures driver.trace == old(driver.trace) + SyncEvents(imageAvailable, renderFinished, inFlight)
  {
    imageAvailable, renderFinished, inFlight := [], [], [];
    for i := 0 to maxFramesInFlight
      invariant driver.Valid()
      invariant |imageAvailable| == |renderFinished| == |inFlight| == i
      invariant forall k :: 0 <= k < i ==>
        && imageAvailable[k] == old(driver.nextHandle) + 3 * k
        && renderFinished[k] == old(driver.nextHandle) + 3 * k + 1
        && inFlight[k] == old(driver.nextHandle) + 3 * k + 2
      invariant driver.nextHandle == old(driver.nextHandle) + 3 * i
      invariant driver.trace == old(driver.trace) + SyncEvents(imageAvailable, renderFinished, inFlight)
    {
      ghost var before := SyncEvents(imageAvailable, renderFinished, inFlight);
      var imageAvailableSemaphore, renderFinishedSemaphore, inFlightFence := CreateSyncSlot(driver);
      ghost var slot := SyncSlotEvents(imageAvailableSemaphore, renderFinishedSemaphore, inFlightFence);
      ghost var chunks := seq(|imageAvailable|, k requires 0 <= k < |imageAvailable| =>
        SyncSlotEvents(imageAvailable[k], renderFinished[k], inFlight[k]));
      imageAvailable := imageAvailable + [imageAvailableSemaphore];
      renderFinished := renderFinished + [renderFinishedSemaphore];
      inFlight := inFlight + [inFlightFence];
      assert seq(|imageAvailable|, k requires 0 <= k < |imageAvailable| =>
          SyncSlotEvents(imageAvailable[k], renderFinished[k], inFlight[k]))
        == chunks + [SyncSlotEvents(imageAvailableSemaphore, renderFinishedSemaphore, inFlightFence)];
      ConcatAppend(chunks, slot);
      AppendAssoc(old(driver.trace), before, slot);
    }
  }

  /** One iteration of `create_sync_objects`: two semaphores and a fence. */
  method CreateSyncSlot(driver: Driver) returns (imageAvailable: Handle, renderFinished: Handle, inFlight: Handle)
    requires driver.Valid()
    modifies driver
    ensures driver.Valid()
    ensures imageAvailable == old(driver.nextHandle) && renderFinished == imageAvailable + 1
    ensures inFlight == imageAvailable + 2 && driver.nextHandle == imageAvailable + 3
    ensures driver.trace == old(driver.trace) + SyncSlotEvents(imageAvailable, renderFinished, inFlight)
  {
    imageAvailable := driver.Create(Semaphore);
    renderFinished := driver.Create(Semaphore);
    var fences := driver.NewHandles(1);
    inFlight := fences[0];
    driver.Call(CreatedFence(inFlight, true));
  }

  /** Frame slot `k`'s three objects are created one after the other, at
      positions `3k`, `3k + 1` and `3k + 2` of the calls. */
  lemma SyncSlotAt(imageAvailable: seq<Handle>, renderFinished: seq<Handle>, inFlight: seq<Handle>, k: nat)
    requires |imageAvailable| == |renderFinished| == |inFlight|
    requires k < |imageAvailable|
    ensures |SyncEvents(imageAvailable, renderFinished, inFlight)| == 3 * |imageAvailable|
    ensures SyncEvents(imageAvailable, renderFinished, inFlight)[3 * k .. 3 * k + 3]
      == [Created(Semaphore, imageAvailable[k]), Created(Semaphore, renderFinished[k]), CreatedFence(inFlight[k], true)]
  {
    var chunks := seq(|imageAvailable|, j requires 0 <= j < |imageAvailable| =>
      SyncSlotEvents(imageAvailable[j], renderFinished[j], inFlight[j]));
    ConcatUniform(chunks, 3, k);
    assert k * 3 == 3 * k && |chunks| * 3 == 3 * |imageAvailable|;
  }

  // ---------------------------------------------------- uniform buffers

  function UniformEvents(buffers: seq<Handle>, memories: seq<Handle>): seq<Event>
    requires |buffers| == |memories|
  {
    Concat(seq(|buffers|, k requires 0 <= k < |buffers| =>
      BufferEvents(buffers[k], memories[k], UniformBuffer, MEMORY_HOST_VISIBLE | MEMORY_HOST_COHERENT)))
  }

  /** `create_uniform_buffers`: one host-visible uniform buffer per swapchain
      image, each bound to the memory at the same position of the second
      list. */
  method CreateUniformBuffers(driver: Driver, swapchainImageCount: nat) returns (buffers: seq<Handle>, memories: seq<Handle>)
    requires driver.Valid()
    modifies driver
    ensures driver.Valid()
    ensures |buffers| == |memories| == swapchainImageCount
    ensures forall k :: 0 <= k < swapchainImageCount ==>
      buffers[k] == old(driver.nextHandle) + 2 * k && memories[k] == buffers[k] + 1
    ensures driver.nextHandle == old(driver.nextHandle) + 2 * swapchainImageCount
    ensures driver.trace == old(driver.trace) + UniformEvents(buffers, memories)
  {
    buffers, memories := [], [];
    for i := 0 to swapchainImageCount
      invariant driver.Valid()
      invariant |buffers| == |memories| == i
      invariant forall k :: 0 <= k < i ==> buffers[k] == old(driver.nextHandle) + 2 * k && memories[k] == buffers[k] + 1
      invariant driver.nextHandle == old(driver.nextHandle) + 2 * i
      invariant driver.trace == old(driver.trace) + UniformEvents(buffers, memories)
    {
      ghost var chunks := seq(|buffers|, k requires 0 <= k < |buffers| =>
        BufferEvents(buffers[k], memories[k], UniformBuffer, MEMORY_HOST_VISIBLE | MEMORY_HOST_COHERENT));
      var buffer, memory := CreateBuffer(driver, UniformBuffer, MEMORY_HOST_VISIBLE | MEMORY_HOST_COHERENT);
      buffers := buffers + [buffer];
      memories := memories + [memory];
      assert seq(|buffers|, k requires 0 <= k < |buffers| =>
          BufferEvents(buffers[k], memories[k], UniformBuffer, MEMORY_HOST_VISIBLE | MEMORY_HOST_COHERENT))
        == chunks + [BufferEvents(buffer, memory, UniformBuffer, MEMORY_HOST_VISIBLE | MEMORY_HOST_COHERENT)];
      ConcatAppend(chunks, BufferEvents(buffer, memory, UniformBuffer, MEMORY_HOST_VISIBLE | MEMORY_HOST_COHERENT));
    }
  }

  /** Uniform buffer `k` is bound to uniform memory `k`. */
  lemma UniformPairAt(buffers: seq<Handle>, memories: seq<Handle>, k: nat)
    requires |buffers| == |memories|
    requires k < |buffers|
    ensures |UniformEvents(buffers, memories)| == 3 * |buffers|
    ensures UniformEvents(buffers, memories)[3 * k + 2] == BoundBufferMemory(buffers[k], memories[k])
  {
    var chunks := seq(|buffers|, j requires 0 <= j < |buffers| =>
      BufferEvents(buffers[j], memories[j], UniformBuffer, MEMORY_HOST_VISIBLE | MEMORY_HOST_COHERENT));
    ConcatUniform(chunks, 3, k);
    assert k * 3 == 3 * k && |chunks| * 3 == 3 * |buffers|;
    assert UniformEvents(buffers, memories)[3 * k .. 3 * k + 3][2] == UniformEvents(buffers, memories)[3 * k + 2];
  }

  // ---------------------------------------------------- descriptor sets

  function DescriptorWrites(sets: seq<Handle>, uniformBuffers: seq<Handle>): seq<Event>
    requires |sets| <= |uniformBuffers|
  {
    seq(|sets|, k requires 0 <= k < |sets| => WroteDescriptorSet(sets[k], 0, uniformBuffers[k]))
  }

  /** `create_descriptor_sets`: one set per swapchain image, all with the
      uniform-buffer layout, and set `k` pointed at uniform buffer `k` through
      binding 0.  The source indexes `uniforms_buffers[k]`, so it needs at
      least as many uniform buffers as sets. */
  method CreateDescriptorSets(driver: Driver, pool: Handle, layout: Handle, uniformBuffers: seq<Handle>, swapchainImageCount: nat)
    returns (sets: seq<Handle>)
    requires swapchainImageCount <= |uniformBuffers|
    requires driver.Valid()
    modifies driver
    ensures driver.Valid()
    ensures sets == Handles(old(driver.nextHandle), swapchainImageCount)
    ensures driver.nextHandle == old(driver.nextHandle) + swapchainImageCount
    ensures driver.trace == old(driver.trace) + [AllocatedDescriptorSets(pool, layout, sets)]
      + DescriptorWrites(sets, uniformBuffers)
  {
    sets := driver.NewHandles(swapchainImageCount);
    driver.Call(AllocatedDescriptorSets(pool, layout, sets));
    ghost var start := driver.trace;
    for i := 0 to |sets|
      invariant driver.Valid()
      invariant driver.nextHandle == old(driver.nextHandle) + swapchainImageCount
      invariant driver.trace == start + DescriptorWrites(sets[..i], uniformBuffers)
    {
      driver.Call(WroteDescriptorSet(sets[i], 0, uniformBuffers[i]));
      assert DescriptorWrites(sets[..i + 1], uniformBuffers)
        == DescriptorWrites(sets[..i], uniformBuffers) + [WroteDescriptorSet(sets[i], 0, uniformBuffers[i])];
    }
    assert sets[..|sets|] == sets;
  }

  // ------------------------------------------------ swapchain, pipeline

  /** The driver calls of `create_swapchain` (its create-info is
      `SwapchainPolicy.SwapchainCreateSettings`): the swapchain, then the
      images it owns, as many as the driver decides. */
  method CreateSwapchain(driver: Driver, imageCount: nat) returns (swapchain: Handle, images: seq<Handle>)
    requires driver.Valid()
    modifies driver
    ensures driver.Valid()
    ensures swapchain == old(driver.nextHandle) && images == Handles(swapchain + 1, imageCount)
    ensures driver.nextHandle == old(driver.nextHandle) + 1 + imageCount
    ensures driver.trace == old(driver.trace) + [Created(Swapchain, swapchain), GotSwapchainImages(swapchain, images)]
  {
    swapchain := driver.Create(Swapchain);
    images := driver.NewHandles(imageCount);
    driver.Call(GotSwapchainImages(swapchain, images));
  }

  /** The driver calls of `create_graphics_pipeline`: two shader modules,
      the pipeline layout and the pipeline, after which the shader modules
      are destroyed. */
  function PipelineEvents(first: Handle): seq<Event> {
    [ Created(ShaderModule, first), Created(ShaderModule, first + 1),
      Created(PipelineLayout, first + 2), Created(Pipeline, first + 3),
      Destroyed(ShaderModule, first), Destroyed(ShaderModule, first + 1) ]
  }

  /** `create_graphics_pipeline` */
  method CreateGraphicsPipeline(driver: Driver) returns (pipeline: Handle, pipelineLayout: Handle)
    requires driver.Valid()
    modifies driver
    ensures driver.Valid()
    ensures pipelineLayout == old(driver.nextHandle) + 2 && pipeline == old(driver.nextHandle) + 3
    ensures driver.nextHandle == old(driver.nextHandle) + 4
    ensures driver.trace == old(driver.trace) + PipelineEvents(old(driver.nextHandle))
  {
    var vertShader := driver.Create(ShaderModule);
    var fragShader := driver.Create(ShaderModule);
    pipelineLayout := driver.Create(PipelineLayout);
    pipeline := driver.Create(Pipeline);
    driver.Destroy(ShaderModule, vertShader);
    driver.Destroy(ShaderModule, fragShader);
  }

  // -------------------------------------------------------- framebuffers

  function ImageViewEvents(views: seq<Handle>, images: seq<Handle>): seq<Event>
    requires |views| == |images|
  {
    seq(|images|, k requires 0 <= k < |images| => CreatedImageView(views[k], images[k]))
  }

  function FramebufferEvents(framebuffers: seq<Handle>, renderPass: Handle, imageViews: seq<Handle>): seq<Event>
    requires |framebuffers| == |imageViews|
  {
    seq(|imageViews|, k requires 0 <= k < |imageViews| => CreatedFramebuffer(framebuffers[k], renderPass, imageViews[k]))
  }

  /** `create_image_views`: one view per swapchain image, in order. */
  method CreateImageViews(driver: Driver, images: seq<Handle>) returns (views: seq<Handle>)
    requires driver.Valid()
    modifies driver
    ensures driver.Valid()
    ensures views == Handles(old(driver.nextHandle), |images|)
    ensures driver.nextHandle == old(driver.nextHandle) + |images|
    ensures driver.trace == old(driver.trace) + ImageViewEvents(views, images)
  {
    views := driver.NewHandles(|images|);
    ghost var start := driver.trace;
    for i := 0 to |images|
      invariant driver.Valid()
      invariant driver.nextHandle == old(driver.nextHandle) + |images|
      invariant driver.trace == start + seq(i, k requires 0 <= k < i => CreatedImageView(views[k], images[k]))
    {
      driver.Call(CreatedImageView(views[i], images[i]));
      assert seq(i + 1, k requires 0 <= k < i + 1 => CreatedImageView(views[k], images[k]))
        == seq(i, k requires 0 <= k < i => CreatedImageView(views[k], images[k])) + [CreatedImageView(views[i], images[i])];
    }
  }

  /** `create_framebuffers`: one framebuffer per image view, in order, each
      with that view as its only attachment. */
  method CreateFramebuffers(driver: Driver, renderPass: Handle, imageViews: seq<Handle>) returns (framebuffers: seq<Handle>)
    requires driver.Valid()
    modifies driver
    ensures driver.Valid()
    ensures framebuffers == Handles(old(driver.nextHandle), |imageViews|)
    ensures driver.nextHandle == old(driver.nextHandle) + |imageViews|
    ensures driver.trace == old(driver.trace) + FramebufferEvents(framebuffers, renderPass, imageViews)
  {
    framebuffers := driver.NewHandles(|imageViews|);
    ghost var start := driver.trace;
    for i := 0 to |imageViews|
      invariant driver.Valid()
      invariant driver.nextHandle == old(driver.nextHandle) + |imageViews|
      invariant driver.trace == start
        + seq(i, k requires 0 <= k < i => CreatedFramebuffer(framebuffers[k], renderPass, imageViews[k]))
    {
      driver.Call(CreatedFramebuffer(framebuffers[i], renderPass, imageViews[i]));
      assert seq(i + 1, k requires 0 <= k < i + 1 => CreatedFramebuffer(framebuffers[k], renderPass, imageViews[k]))
        == seq(i, k requires 0 <= k < i => CreatedFramebuffer(framebuffers[k], renderPass, imageViews[k]))
           + [CreatedFramebuffer(framebuffers[i], renderPass, imageViews[i])];
    }
  }

  // ----------------------------------------------------- command buffers

  /** The GPU buffers of one model (`ModelBuffers`). */
  datatype ModelBuffers = ModelBuffers(
    vertexBuffer: Handle,
    indexBuffer: Handle,
    indexCount: nat,
    descriptorSets: seq<Handle>)

  /** Every model has a descriptor set for each of the first `n` images. */
  predicate CoversImages(models: seq<ModelBuffers>, n: nat) {
    forall m :: m in models ==> n <= |m.descriptorSets|
  }

  /** The four commands that draw one model into the image `image`. */
  function ModelDrawCommands(commandBuffer: Handle, layout: Handle, model: ModelBuffers, image: nat): seq<Event>
    requires image < |model.descriptorSets|
  {
    [ Recorded(commandBuffer, BindVertexBuffer(model.vertexBuffer)),
      Recorded(commandBuffer, BindIndexBuffer(model.indexBuffer, Uint32)),
      Recorded(commandBuffer, BindDescriptorSet(layout, model.descriptorSets[image])),
      Recorded(commandBuffer, DrawIndexed(model.indexCount)) ]
  }

  function ModelDrawChunks(commandBuffer: Handle, layout: Handle, models: seq<ModelBuffers>, image: nat): seq<seq<Event>>
    requires CoversImages(models, image + 1)
  {
    seq(|models|, j requires 0 <= j < |models| => ModelDrawCommands(commandBuffer, layout, models[j], image))
  }

  function ModelDraws(commandBuffer: Handle, layout: Handle, models: seq<ModelBuffers>, image: nat): seq<Event>
    requires CoversImages(models, image + 1)
  {
    Concat(ModelDrawChunks(commandBuffer, layout, models, image))
  }

  /** Everything recorded into the command buffer of image `image`. */
  function CommandRecording(
    commandBuffer: Handle, renderPass: Handle, framebuffer: Handle, pipeline: Handle,
    layout: Handle, models: seq<ModelBuffers>, image: nat): seq<Event>
    requires CoversImages(models, image + 1)
  {
    [ BeganCommandBuffer(commandBuffer),
      Recorded(commandBuffer, BeginRenderPass(renderPass, framebuffer)),
      Recorded(commandBuffer, BindPipeline(pipeline)) ]
    + ModelDraws(commandBuffer, layout, models, image)
    + [ Recorded(commandBuffer, EndRenderPass), EndedCommandBuffer(commandBuffer) ]
  }

  function RecordingChunks(
    commandBuffers: seq<Handle>, renderPass: Handle, framebuffers: seq<Handle>, pipeline: Handle,
    layout: Handle, models: seq<ModelBuffers>): seq<seq<Event>>
    requires |commandBuffers| <= |framebuffers|
    requires CoversImages(models, |commandBuffers|)
  {
    seq(|commandBuffers|, i requires 0 <= i < |commandBuffers| =>
      CommandRecording(commandBuffers[i], renderPass, framebuffers[i], pipeline, layout, models, i))
  }

  function Recordings(
    commandBuffers: seq<Handle>, renderPass: Handle, framebuffers: seq<Handle>, pipeline: Handle,
    layout: Handle, models: seq<ModelBuffers>): seq<Event>
    requires |commandBuffers| <= |framebuffers|
    requires CoversImages(models, |commandBuffers|)
  {
    Concat(RecordingChunks(commandBuffers, renderPass, framebuffers, pipeline, layout, models))
  }

  /** One iteration of the outer loop of `create_command_buffers`: records
      the command buffer of image `image`. */
  method RecordCommandBuffer(
    driver: Driver, commandBuffer: Handle, renderPass: Handle, framebuffer: Handle, pipeline: Handle,
    layout: Handle, models: seq<ModelBuffers>, image: nat)
    requires CoversImages(models, image + 1)
    requires driver.Valid()
    modifies driver`trace
    ensures driver.Valid()
    ensures driver.trace == old(driver.trace)
      + CommandRecording(commandBuffer, renderPass, framebuffer, pipeline, layout, models, image)
  {
    driver.Call(BeganCommandBuffer(commandBuffer));
    driver.Call(Recorded(commandBuffer, BeginRenderPass(renderPass, framebuffer)));
    driver.Call(Recorded(commandBuffer, BindPipeline(pipeline)));
    ghost var drawStart := driver.trace;
    for j := 0 to |models|
      invariant driver.Valid()
      invariant driver.trace == drawStart + ModelDraws(commandBuffer, layout, models[..j], image)
    {
      RecordModelDraw(driver, commandBuffer, layout, models[j], image);
      ModelDrawsAppend(commandBuffer, layout, models, j, image);
    }
    assert models[..|models|] == models;
    driver.Call(Recorded(commandBuffer, EndRenderPass));
    driver.Call(EndedCommandBuffer(commandBuffer));
  }

  /** One iteration of the inner loop of `create_command_buffers`. */
  method RecordModelDraw(driver: Driver, commandBuffer: Handle, layout: Handle, model: ModelBuffers, image: nat)
    requires image < |model.descriptorSets|
    requires driver.Valid()
    modifies driver`trace
    ensures driver.Valid()
    ensures driver.trace == old(driver.trace) + ModelDrawCommands(commandBuffer, layout, model, image)
  {
    driver.Call(Recorded(commandBuffer, BindVertexBuffer(model.vertexBuffer)));
    driver.Call(Recorded(commandBuffer, BindIndexBuffer(model.indexBuffer, Uint32)));
    driver.Call(Recorded(commandBuffer, BindDescriptorSet(layout, model.descriptorSets[image])));
    driver.Call(Recorded(commandBuffer, DrawIndexed(model.indexCount)));
  }

  /** `create_command_buffers`: allocates one command buffer per framebuffer
      and records each one: begin the render pass on its framebuffer, bind
      the pipeline, then for each model bind its vertex buffer, its 32-bit
      index buffer and its descriptor set for this image, and draw its
      indices; end the render pass.  The source indexes
      `descriptor_sets[i]` of every model, so each model needs a descriptor
      set per framebuffer. */
  method CreateCommandBuffers(
    driver: Driver, pool: Handle, pipeline: Handle, framebuffers: seq<Handle>, renderPass: Handle,
    layout: Handle, models: seq<ModelBuffers>)
    returns (commandBuffers: seq<Handle>)
    requires CoversImages(models, |framebuffers|)
    requires driver.Valid()
    modifies driver
    ensures driver.Valid()
    ensures commandBuffers == Handles(old(driver.nextHandle), |framebuffers|)
    ensures driver.nextHandle == old(driver.nextHandle) + |framebuffers|
    ensures driver.trace == old(driver.trace) + [AllocatedCommandBuffers(pool, commandBuffers)]
      + Recordings(commandBuffers, renderPass, framebuffers, pipeline, layout, models)
  {
    commandBuffers := driver.NewHandles(|framebuffers|);
    driver.Call(AllocatedCommandBuffers(pool, commandBuffers));
    RecordEach(driver, commandBuffers, renderPass, framebuffers, pipeline, layout, models);
  }

  /** The loop of `create_command_buffers` that records buffer `i` on
      framebuffer `i`. */
  method RecordEach(
    driver: Driver, commandBuffers: seq<Handle>, renderPass: Handle, framebuffers: seq<Handle>, pipeline: Handle,
    layout: Handle, models: seq<ModelBuffers>)
    requires |commandBuffers| <= |framebuffers| && CoversImages(models, |commandBuffers|)
    requires driver.Valid()
    modifies driver`trace
    ensures driver.Valid()
    ensures driver.trace == old(driver.trace) + Recordings(commandBuffers, renderPass, framebuffers, pipeline, layout, models)
  {
    for i := 0 to |commandBuffers|
      invariant driver.Valid()
      invariant driver.trace == old(driver.trace)
        + Recordings(commandBuffers[..i], renderPass, framebuffers, pipeline, layout, models)
    {
      RecordCommandBuffer(driver, commandBuffers[i], renderPass, framebuffers[i], pipeline, layout, models, i);
      RecordingsAppend(commandBuffers, renderPass, framebuffers, pipeline, layout, models, i);
    }
    assert commandBuffers[..|commandBuffers|] == commandBuffers;
  }

  lemma ModelDrawsAppend(commandBuffer: Handle, layout: Handle, models: seq<ModelBuffers>, j: nat, image: nat)
    requires j < |models|
    requires CoversImages(models, image + 1)
    ensures CoversImages(models[..j], image + 1) && CoversImages(models[..j + 1], image + 1)
    ensures ModelDraws(commandBuffer, layout, models[..j + 1], image)
      == ModelDraws(commandBuffer, layout, models[..j], image) + ModelDrawCommands(commandBuffer, layout, models[j], image)
  {
    var prefix := models[..j];
    var chunks := seq(|prefix|, k requires 0 <= k < |prefix| => ModelDrawCommands(commandBuffer, layout, prefix[k], image));
    var longer := models[..j + 1];
    assert seq(|longer|, k requires 0 <= k < |longer| => ModelDrawCommands(commandBuffer, layout, longer[k], image))
      == chunks + [ModelDrawCommands(commandBuffer, layout, models[j], image)];
    ConcatAppend(chunks, ModelDrawCommands(commandBuffer, layout, models[j], image));
  }

  lemma RecordingsAppend(
    commandBuffers: seq<Handle>, renderPass: Handle, framebuffers: seq<Handle>, pipeline: Handle,
    layout: Handle, models: seq<ModelBuffers>, i: nat)
    requires i < |commandBuffers| <= |framebuffers|
    requires CoversImages(models, |commandBuffers|)
    ensures Recordings(commandBuffers[..i + 1], renderPass, framebuffers, pipeline, layout, models)
      == Recordings(commandBuffers[..i], renderPass, framebuffers, pipeline, layout, models)
         + CommandRecording(commandBuffers[i], renderPass, framebuffers[i], pipeline, layout, models, i)
  {
    var prefix := commandBuffers[..i];
    var chunks := seq(|prefix|, k requires 0 <= k < |prefix| =>
      CommandRecording(prefix[k], renderPass, framebuffers[k], pipeline, layout, models, k));
    var longer := commandBuffers[..i + 1];
    var last := CommandRecording(commandBuffers[i], renderPass, framebuffers[i], pipeline, layout, models, i);
    assert seq(|longer|, k requires 0 <= k < |longer| =>
        CommandRecording(longer[k], renderPass, framebuffers[k], pipeline, layout, models, k))
      == chunks + [last];
    ConcatAppend(chunks, last);
  }

  /** In the command buffer of image `image`, model `k` is drawn by the four
      commands at positions `3 + 4k` to `6 + 4k`, with that model's
      descriptor set for `image`; the buffer holds `5 + 4 * |models|`
      calls, ending the render pass and then the buffer. */
  lemma RecordingModelBlock(
    commandBuffer: Handle, renderPass: Handle, framebuffer: Handle, pipeline: Handle,
    layout: Handle, models: seq<ModelBuffers>, image: nat, k: nat)
    requires CoversImages(models, image + 1)
    requires k < |models|
    ensures var r := CommandRecording(commandBuffer, renderPass, framebuffer, pipeline, layout, models, image);
      && |r| == 5 + 4 * |models|
      && r[..3] == [ BeganCommandBuffer(commandBuffer),
                     Recorded(commandBuffer, BeginRenderPass(renderPass, framebuffer)),
                     Recorded(commandBuffer, BindPipeline(pipeline)) ]
      && r[3 + 4 * k .. 7 + 4 * k] == ModelDrawCommands(commandBuffer, layout, models[k], image)
      && r[|r| - 2..] == [Recorded(commandBuffer, EndRenderPass), EndedCommandBuffer(commandBuffer)]
  {
    var chunks := seq(|models|, j requires 0 <= j < |models| => ModelDrawCommands(commandBuffer, layout, models[j], image));
    ConcatUniform(chunks, 4, k);
    assert k * 4 == 4 * k && |chunks| * 4 == 4 * |models|;
  }
}
