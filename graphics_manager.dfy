/** The renderer of `graphics_manager.rs`: the mesh it uploads, the frame
    scheduler of `draw_frame`, and the lifecycle of the swapchain-dependent
    objects (`recreate_swapchain`, `cleanup_swapchain`) and of everything
    else (`Drop`).  Driver calls are events of the `GpuTrace` driver. */
module GraphicsManagerModel {
  import opened Wrappers
  import opened GpuTrace
  import opened ResourceBuilders

  // ------------------------------------------------------------------ mesh

  /** `Vertex`: a 2-D position and an RGB colour. */
  datatype Vertex = Vertex(pos: (real, real), color: (real, real, real))

  /** `VERTICES_DATA`: the corners of a unit quad. */
  const VERTICES_DATA: seq<Vertex> := [
    Vertex((-0.5, -0.5), (1.0, 0.0, 0.0)),
    Vertex((0.5, -0.5), (0.0, 1.0, 0.0)),
    Vertex((0.5, 0.5), (0.0, 0.0, 1.0)),
    Vertex((-0.5, 0.5), (1.0, 1.0, 1.0))
  ]

  /** `INDICES_DATA`: the quad as a 32-bit triangle list. */
  const INDICES_DATA: seq<nat> := [0, 1, 2, 2, 3, 0]

  /** The index list is whole triangles, each naming three different
      vertices of `VERTICES_DATA`, and together they use every vertex. */
  lemma MeshIsTriangleList()
    ensures |INDICES_DATA| % 3 == 0 && |INDICES_DATA| / 3 == 2
    ensures forall i :: 0 <= i < |INDICES_DATA| ==> INDICES_DATA[i] < |VERTICES_DATA|
    ensures forall t :: 0 <= t < |INDICES_DATA| / 3 ==>
      && INDICES_DATA[3 * t] != INDICES_DATA[3 * t + 1]
      && INDICES_DATA[3 * t + 1] != INDICES_DATA[3 * t + 2]
      && INDICES_DATA[3 * t] != INDICES_DATA[3 * t + 2]
    ensures forall v :: 0 <= v < |VERTICES_DATA| ==> v in INDICES_DATA
  {
    assert INDICES_DATA[3] == 2 && INDICES_DATA[4] == 3;
  }

  // ----------------------------------------------- swapchain-dependent set

  /** The objects `cleanup_swapchain` destroys and `recreate_swapchain`
      makes again. */
  datatype SwapchainChain = SwapchainChain(
    swapchain: Handle,
    images: seq<Handle>,
    imageViews: seq<Handle>,
    renderPass: Handle,
    pipelineLayout: Handle,
    pipeline: Handle,
    framebuffers: seq<Handle>,
    commandBuffers: seq<Handle>)

  /** The handles a chain is made of (its images belong to the swapchain and
      are never destroyed on their own). */
  ghost function ChainHandles(c: SwapchainChain): set<Handle> {
    {c.swapchain, c.renderPass, c.pipelineLayout, c.pipeline}
      + (set h | h in c.imageViews) + (set h | h in c.framebuffers)
  }

  /** The chain the driver hands out when it is built starting from handle
      `base` for a swapchain of `n` images. */
  function ChainAt(base: Handle, n: nat): (c: SwapchainChain)
    ensures |c.images| == |c.imageViews| == |c.framebuffers| == |c.commandBuffers| == n
  {
    SwapchainChain(
      base,
      Handles(base + 1, n),
      Handles(base + 1 + n, n),
      base + 1 + 2 * n,
      base + 4 + 2 * n,
      base + 5 + 2 * n,
      Handles(base + 6 + 2 * n, n),
      Handles(base + 6 + 3 * n, n))
  }

  /** One `vkDestroy*` per handle, in order. */
  function DestroyAll(kind: ObjectKind, hs: seq<Handle>): (r: seq<Event>)
    ensures |r| == |hs|
  {
    seq(|hs|, k requires 0 <= k < |hs| => Destroyed(kind, hs[k]))
  }

  /** The calls of `cleanup_swapchain`. */
  function CleanupEvents(c: SwapchainChain, commandPool: Handle): seq<Event> {
    [FreedCommandBuffers(commandPool, c.commandBuffers)]
    + DestroyAll(Framebuffer, c.framebuffers)
    + [Destroyed(Pipeline, c.pipeline), Destroyed(PipelineLayout, c.pipelineLayout), Destroyed(RenderPass, c.renderPass)]
    + DestroyAll(ImageView, c.imageViews)
    + [Destroyed(Swapchain, c.swapchain)]
  }

  /** Where a teardown call stands in the dependency order: an object is
      released before what it was built from.  8 for any other call. */
  function TeardownRank(e: Event): nat {
    match e
    case FreedCommandBuffers(_, _) => 0
    case Destroyed(Framebuffer, _) => 1
    case Destroyed(Pipeline, _) => 2
    case Destroyed(PipelineLayout, _) => 3
    case Destroyed(RenderPass, _) => 4
    case Destroyed(ImageView, _) => 5
    case Destroyed(Swapchain, _) => 6
    case _ => 8
  }

  /** `cleanup_swapchain` only releases things, and in dependency order:
      command buffers, framebuffers, pipeline, pipeline layout, render pass,
      image views, swapchain. */
  lemma CleanupInDependencyOrder(c: SwapchainChain, commandPool: Handle)
    ensures var es := CleanupEvents(c, commandPool);
      && (forall k :: 0 <= k < |es| ==> TeardownRank(es[k]) <= 6)
      && (forall i, j :: 0 <= i < j < |es| ==> TeardownRank(es[i]) <= TeardownRank(es[j]))
  {
    var es := CleanupEvents(c, commandPool);
    var f, v := |c.framebuffers|, |c.imageViews|;
    // the rank of every position, block by block
    assert forall k :: 0 <= k < |es| ==>
      TeardownRank(es[k]) == if k == 0 then 0
      else if k < 1 + f then 1
      else if k == 1 + f then 2
      else if k == 2 + f then 3
      else if k == 3 + f then 4
      else if k < 4 + f + v then 5
      else 6;
  }

  /** `cleanup_swapchain` releases nothing outside the chain. */
  lemma CleanupReleasesOnlyTheChain(c: SwapchainChain, commandPool: Handle)
    ensures var es := CleanupEvents(c, commandPool);
      && (forall k :: 0 <= k < |es| && es[k].Destroyed? ==> es[k].handle in ChainHandles(c))
      && (forall k :: 0 <= k < |es| && es[k].FreedCommandBuffers? ==> es[k].buffers == c.commandBuffers)
  {
    var es := CleanupEvents(c, commandPool);
    var f, v := |c.framebuffers|, |c.imageViews|;
    assert forall k :: 0 <= k < f ==> es[1 + k] == Destroyed(Framebuffer, c.framebuffers[k]);
    assert forall k :: 0 <= k < v ==> es[4 + f + k] == Destroyed(ImageView, c.imageViews[k]);
  }

  /** `cleanup_swapchain` releases the whole chain: its command buffers and
      each of its objects. */
  lemma CleanupReleasesAllTheChain(c: SwapchainChain, commandPool: Handle)
    ensures var es := CleanupEvents(c, commandPool);
      && FreedCommandBuffers(commandPool, c.commandBuffers) in es
      && (forall h :: h in ChainHandles(c) ==> exists k :: 0 <= k < |es| && es[k].Destroyed? && es[k].handle == h)
  {
    var es := CleanupEvents(c, commandPool);
    var f, v := |c.framebuffers|, |c.imageViews|;
    assert es[0] == FreedCommandBuffers(commandPool, c.commandBuffers);
    assert es[1 + f] == Destroyed(Pipeline, c.pipeline);
    assert es[2 + f] == Destroyed(PipelineLayout, c.pipelineLayout);
    assert es[3 + f] == Destroyed(RenderPass, c.renderPass);
    assert es[4 + f + v] == Destroyed(Swapchain, c.swapchain);
    forall h | h in ChainHandles(c)
      ensures exists k :: 0 <= k < |es| && es[k].Destroyed? && es[k].handle == h
    {
      if h in c.framebuffers {
        var k :| 0 <= k < f && c.framebuffers[k] == h;
        assert es[1 + k] == Destroyed(Framebuffer, h);
      } else if h in c.imageViews {
        var k :| 0 <= k < v && c.imageViews[k] == h;
        assert es[4 + f + k] == Destroyed(ImageView, h);
      }
    }
  }

  /** The calls that build a chain from handle `base`, as
      `recreate_swapchain` makes them: swapchain and its images, image
      views, render pass, graphics pipeline, framebuffers, and the recorded
      command buffers. */
  function BuildEvents(base: Handle, n: nat, commandPool: Handle, models: seq<ModelBuffers>): seq<Event>
    requires CoversImages(models, n)
  {
    TargetEvents(base, n) + CommandEvents(base, n, commandPool, models)
  }

  /** The part of `BuildEvents` up to the framebuffers. */
  function TargetEvents(base: Handle, n: nat): seq<Event> {
    PresentationEvents(base, n) + PassEvents(base, n)
  }

  /** The swapchain, its images and their views. */
  function PresentationEvents(base: Handle, n: nat): seq<Event> {
    var c := ChainAt(base, n);
    [Created(Swapchain, c.swapchain), GotSwapchainImages(c.swapchain, c.images)]
    + ImageViewEvents(c.imageViews, c.images)
  }

  /** The render pass, the pipeline and the framebuffers. */
  function PassEvents(base: Handle, n: nat): seq<Event> {
    var c := ChainAt(base, n);
    [Created(RenderPass, c.renderPass)]
    + PipelineEvents(c.renderPass + 1)
    + FramebufferEvents(c.framebuffers, c.renderPass, c.imageViews)
  }

  /** The rest of `BuildEvents`: the command buffers, allocated and recorded. */
  function CommandEvents(base: Handle, n: nat, commandPool: Handle, models: seq<ModelBuffers>): seq<Event>
    requires CoversImages(models, n)
  {
    var c := ChainAt(base, n);
    [AllocatedCommandBuffers(commandPool, c.commandBuffers)]
    + Recordings(c.commandBuffers, c.renderPass, c.framebuffers, c.pipeline, c.pipelineLayout, models)
  }

  /** The calls of a `recreate_swapchain` that completes. */
  function RecreateEvents(
    old_: SwapchainChain, commandPool: Handle, base: Handle, n: nat, models: seq<ModelBuffers>): seq<Event>
    requires CoversImages(models, n)
  {
    [DeviceWaitedIdle] + CleanupEvents(old_, commandPool) + BuildEvents(base, n, commandPool, models)
  }

  /** The calls of `recreate_swapchain` from chain `old_` when the driver
      hands out handles from `base`: all of them when every model has a
      descriptor set for each new image, otherwise those up to the panic in
      the recording of the command buffers. */
  function RecreateCallsFrom(
    old_: SwapchainChain, commandPool: Handle, base: Handle, n: nat, models: seq<ModelBuffers>): seq<Event>
  {
    if CoversImages(models, n) then RecreateEvents(old_, commandPool, base, n, models)
    else [DeviceWaitedIdle] + CleanupEvents(old_, commandPool)
  }

  /** A teardown call: it releases objects. */
  predicate Releases(e: Event) {
    e.Destroyed? || e.FreedCommandBuffers?
  }

  /** Recording a command buffer releases nothing. */
  lemma RecordingReleasesNothing(
    commandBuffer: Handle, renderPass: Handle, framebuffer: Handle, pipeline: Handle,
    layout: Handle, models: seq<ModelBuffers>, image: nat)
    requires CoversImages(models, image + 1)
    ensures forall e :: e in CommandRecording(commandBuffer, renderPass, framebuffer, pipeline, layout, models, image) ==>
      !Releases(e)
  {
    var draws := ModelDrawChunks(commandBuffer, layout, models, image);
    forall e | e in Concat(draws) ensures !Releases(e) {
      ConcatMember(draws, e);
    }
  }

  /** `create_command_buffers` releases nothing. */
  lemma RecordingsReleaseNothing(
    commandBuffers: seq<Handle>, renderPass: Handle, framebuffers: seq<Handle>, pipeline: Handle,
    layout: Handle, models: seq<ModelBuffers>)
    requires |commandBuffers| <= |framebuffers|
    requires CoversImages(models, |commandBuffers|)
    ensures forall e :: e in Recordings(commandBuffers, renderPass, framebuffers, pipeline, layout, models) ==> !Releases(e)
  {
    var chunks := RecordingChunks(commandBuffers, renderPass, framebuffers, pipeline, layout, models);
    forall e | e in Concat(chunks) ensures !Releases(e) {
      ConcatMember(chunks, e);
      var i :| 0 <= i < |chunks| && e in chunks[i];
      RecordingReleasesNothing(commandBuffers[i], renderPass, framebuffers[i], pipeline, layout, models, i);
    }
  }

  /** Building a chain releases nothing but the two shader modules of the
      pipeline, which are fresh. */
  lemma BuildReleasesOnlyShaderModules(base: Handle, n: nat, commandPool: Handle, models: seq<ModelBuffers>)
    requires CoversImages(models, n)
    ensures forall e :: e in BuildEvents(base, n, commandPool, models) && Releases(e) ==>
      e.Destroyed? && e.kind == ShaderModule && e.handle >= base
  {
    var c := ChainAt(base, n);
    var views := ImageViewEvents(c.imageViews, c.images);
    var pipeline := PipelineEvents(c.renderPass + 1);
    var framebuffers := FramebufferEvents(c.framebuffers, c.renderPass, c.imageViews);
    var recordings := Recordings(c.commandBuffers, c.renderPass, c.framebuffers, c.pipeline, c.pipelineLayout, models);
    RecordingsReleaseNothing(c.commandBuffers, c.renderPass, c.framebuffers, c.pipeline, c.pipelineLayout, models);
    forall e | e in views ensures !Releases(e) {
      var k :| 0 <= k < |views| && views[k] == e;
    }
    forall e | e in framebuffers ensures !Releases(e) {
      var k :| 0 <= k < |framebuffers| && framebuffers[k] == e;
    }
    var front := [Created(Swapchain, c.swapchain), GotSwapchainImages(c.swapchain, c.images)] + views
      + [Created(RenderPass, c.renderPass)];
    var back := framebuffers + [AllocatedCommandBuffers(commandPool, c.commandBuffers)] + recordings;
    assert BuildEvents(base, n, commandPool, models) == front + pipeline + back;
    forall e | e in front + pipeline + back && Releases(e)
      ensures e.Destroyed? && e.kind == ShaderModule && e.handle >= base
    {
      assert e !in front && e !in back;
    }
  }

  /** What a release in `[DeviceWaitedIdle] + cleanup + build` may release,
      given what `cleanup` and `build` may release. */
  lemma ReleasesAfterWait(cleanup: seq<Event>, build: seq<Event>, old_: SwapchainChain, base: Handle)
    requires forall k :: 0 <= k < |cleanup| && cleanup[k].Destroyed? ==> cleanup[k].handle in ChainHandles(old_)
    requires forall k :: 0 <= k < |cleanup| && cleanup[k].FreedCommandBuffers? ==> cleanup[k].buffers == old_.commandBuffers
    requires forall e :: e in build && Releases(e) ==> e.Destroyed? && e.kind == ShaderModule && e.handle >= base
    ensures var es := [DeviceWaitedIdle] + cleanup + build;
      forall k :: 0 <= k < |es| && Releases(es[k]) ==>
        && k > 0
        && (es[k].Destroyed? ==>
              es[k].handle in ChainHandles(old_) || (es[k].kind == ShaderModule && es[k].handle >= base))
        && (es[k].FreedCommandBuffers? ==> es[k].buffers == old_.commandBuffers)
  {
    var es := [DeviceWaitedIdle] + cleanup + build;
    forall k | 0 <= k < |es| && Releases(es[k])
      ensures k > 0
      ensures es[k].Destroyed? ==>
        es[k].handle in ChainHandles(old_) || (es[k].kind == ShaderModule && es[k].handle >= base)
      ensures es[k].FreedCommandBuffers? ==> es[k].buffers == old_.commandBuffers
    {
      if k > |cleanup| {
        assert es[k] == build[k - 1 - |cleanup|];
        assert es[k] in build;
      } else if k > 0 {
        assert es[k] == cleanup[k - 1];
      }
    }
  }

  /** `recreate_swapchain` waits for the device to go idle before it
      releases anything; what it releases is exactly the old chain (nothing
      of the vertex, index or uniform buffers, descriptor sets or layout);
      the only other objects released are the new pipeline's shader
      modules. */
  lemma RecreateWaitsThenReleasesOnlyTheChain(
    old_: SwapchainChain, commandPool: Handle, base: Handle, n: nat, models: seq<ModelBuffers>)
    requires CoversImages(models, n)
    ensures var es := RecreateEvents(old_, commandPool, base, n, models);
      && es[0] == DeviceWaitedIdle
      && (forall k :: 0 <= k < |es| && Releases(es[k]) ==> k > 0)
      && (forall k :: 0 <= k < |es| && es[k].Destroyed? ==>
            es[k].handle in ChainHandles(old_) || (es[k].kind == ShaderModule && es[k].handle >= base))
      && (forall k :: 0 <= k < |es| && es[k].FreedCommandBuffers? ==> es[k].buffers == old_.commandBuffers)
  {
    CleanupReleasesOnlyTheChain(old_, commandPool);
    BuildReleasesOnlyShaderModules(base, n, commandPool, models);
    ReleasesAfterWait(CleanupEvents(old_, commandPool), BuildEvents(base, n, commandPool, models), old_, base);
  }

  // -------------------------------------------------------------- teardown

  /** Everything the renderer holds when it is dropped. */
  datatype Resources = Resources(
    instance: Handle,
    surface: Handle,
    debugMessenger: Option<Handle>,
    device: Handle,
    chain: SwapchainChain,
    uboLayout: Handle,
    vertexBuffer: Handle,
    vertexBufferMemory: Handle,
    indexBuffer: Handle,
    indexBufferMemory: Handle,
    uniformBuffers: seq<Handle>,
    uniformBuffersMemory: seq<Handle>,
    descriptorPool: Handle,
    descriptorSets: seq<Handle>,
    commandPool: Handle,
    imageAvailableSemaphores: seq<Handle>,
    renderFinishedSemaphores: seq<Handle>,
    inFlightFences: seq<Handle>)
  {
    ghost predicate WellFormed() {
      && |imageAvailableSemaphores| == |renderFinishedSemaphores| == |inFlightFences|
      && |uniformBuffers| == |uniformBuffersMemory|
    }

    /** Well formed, and the chain as start-up builds it: one view,
        framebuffer and command buffer per image, and a uniform buffer and
        a descriptor set at least for each image. */
    predicate Shaped() {
      && |imageAvailableSemaphores| == |renderFinishedSemaphores| == |inFlightFences|
      && |uniformBuffers| == |uniformBuffersMemory| && |descriptorSets| <= |uniformBuffers|
      && |chain.imageViews| == |chain.images| && |chain.framebuffers| == |chain.imageViews|
      && |chain.commandBuffers| == |chain.framebuffers| && |chain.commandBuffers| <= |descriptorSets|
    }

    /** The one model the command buffers draw: the quad. */
    function Model(): ModelBuffers {
      ModelBuffers(vertexBuffer, indexBuffer, |INDICES_DATA|, descriptorSets)
    }
  }

  /** One iteration of the first loop of `drop`: both semaphores and the
      fence of a frame slot. */
  function SyncSlotTeardown(imageAvailable: Handle, renderFinished: Handle, inFlight: Handle): seq<Event> {
    [Destroyed(Semaphore, imageAvailable), Destroyed(Semaphore, renderFinished), Destroyed(Fence, inFlight)]
  }

  function SyncTeardownChunks(imageAvailable: seq<Handle>, renderFinished: seq<Handle>, inFlight: seq<Handle>)
    : seq<seq<Event>>
    requires |imageAvailable| == |renderFinished| == |inFlight|
  {
    seq(|imageAvailable|, k requires 0 <= k < |imageAvailable| =>
      SyncSlotTeardown(imageAvailable[k], renderFinished[k], inFlight[k]))
  }

  /** The first loop of `drop`, over every frame slot. */
  function SyncTeardown(imageAvailable: seq<Handle>, renderFinished: seq<Handle>, inFlight: seq<Handle>): seq<Event>
    requires |imageAvailable| == |renderFinished| == |inFlight|
  {
    Concat(SyncTeardownChunks(imageAvailable, renderFinished, inFlight))
  }

  /** One iteration of the uniform loop of `drop`: the buffer, then its memory. */
  function UniformPairTeardown(buffer: Handle, memory: Handle): seq<Event> {
    [Destroyed(Buffer, buffer), Destroyed(DeviceMemory, memory)]
  }

  function UniformTeardownChunks(buffers: seq<Handle>, memories: seq<Handle>): seq<seq<Event>>
    requires |buffers| == |memories|
  {
    seq(|buffers|, k requires 0 <= k < |buffers| => UniformPairTeardown(buffers[k], memories[k]))
  }

  /** The uniform loop of `drop`. */
  function UniformTeardown(buffers: seq<Handle>, memories: seq<Handle>): seq<Event>
    requires |buffers| == |memories|
  {
    Concat(UniformTeardownChunks(buffers, memories))
  }

  /** The part of `drop` that releases objects owned by the logical device. */
  function DeviceChildTeardown(r: Resources): seq<Event>
    requires r.WellFormed()
  {
    SyncTeardown(r.imageAvailableSemaphores, r.renderFinishedSemaphores, r.inFlightFences)
    + CleanupEvents(r.chain, r.commandPool)
    + [Destroyed(DescriptorPool, r.descriptorPool)]
    + UniformTeardown(r.uniformBuffers, r.uniformBuffersMemory)
    + MeshAndPoolTeardown(r)
  }

  /** The end of the device-owned part of `drop`: the index and vertex
      buffers with their memory, the descriptor-set layout, the command pool. */
  function MeshAndPoolTeardown(r: Resources): seq<Event> {
    [ Destroyed(Buffer, r.indexBuffer), Destroyed(DeviceMemory, r.indexBufferMemory),
      Destroyed(Buffer, r.vertexBuffer), Destroyed(DeviceMemory, r.vertexBufferMemory),
      Destroyed(DescriptorSetLayout, r.uboLayout), Destroyed(CommandPool, r.commandPool) ]
  }

  /** The rest of `drop`: the device, the surface, the debug messenger when
      validation made one, and the instance. */
  function InstanceTeardown(r: Resources): seq<Event> {
    [Destroyed(LogicalDevice, r.device), Destroyed(Surface, r.surface)]
    + (match r.debugMessenger case Some(m) => [Destroyed(DebugMessenger, m)] case None => [])
    + [Destroyed(Instance, r.instance)]
  }

  /** The calls of `drop`. */
  function DropEvents(r: Resources): seq<Event>
    requires r.WellFormed()
  {
    DeviceChildTeardown(r) + InstanceTeardown(r)
  }

  /** Object kinds owned by the logical device. */
  predicate DeviceChild(kind: ObjectKind) {
    kind != Instance && kind != Surface && kind != DebugMessenger && kind != LogicalDevice
  }

  /** A call that releases an object owned by the logical device. */
  predicate ReleasesDeviceChild(e: Event) {
    e.FreedCommandBuffers? || (e.Destroyed? && DeviceChild(e.kind))
  }

  /** The first part of `drop` releases only device-owned objects. */
  lemma DeviceChildTeardownReleasesOnlyChildren(r: Resources)
    requires r.WellFormed()
    ensures forall e :: e in DeviceChildTeardown(r) ==> ReleasesDeviceChild(e)
  {
    var sync := SyncTeardownChunks(r.imageAvailableSemaphores, r.renderFinishedSemaphores, r.inFlightFences);
    var uniforms := UniformTeardownChunks(r.uniformBuffers, r.uniformBuffersMemory);
    var cleanup := CleanupEvents(r.chain, r.commandPool);
    forall e | e in Concat(sync) ensures ReleasesDeviceChild(e) {
      ConcatMember(sync, e);
    }
    forall e | e in Concat(uniforms) ensures ReleasesDeviceChild(e) {
      ConcatMember(uniforms, e);
    }
    CleanupInDependencyOrder(r.chain, r.commandPool);
    forall e | e in cleanup ensures ReleasesDeviceChild(e) {
      var k :| 0 <= k < |cleanup| && cleanup[k] == e;
      assert TeardownRank(e) <= 6;
    }
  }

  /** `drop` releases every device-owned object before the device, and after
      it only the surface, the debug messenger and the instance; the
      instance is destroyed last and only there. */
  lemma DropReleasesDeviceLastButInstance(r: Resources)
    requires r.WellFormed()
    ensures var es, d := DropEvents(r), |DeviceChildTeardown(r)|;
      && d < |es|
      && es[d] == Destroyed(LogicalDevice, r.device)
      && (forall k :: 0 <= k < d ==> ReleasesDeviceChild(es[k]))
      && (forall k :: d < k < |es| ==>
            es[k].Destroyed? && es[k].kind in {Surface, DebugMessenger, Instance})
      && es[|es| - 1] == Destroyed(Instance, r.instance)
      && (forall k :: 0 <= k < |es| - 1 ==> !(es[k].Destroyed? && es[k].kind == Instance))
  {
    var children := DeviceChildTeardown(r);
    var es := DropEvents(r);
    DeviceChildTeardownReleasesOnlyChildren(r);
    forall k | 0 <= k < |children| ensures ReleasesDeviceChild(es[k]) {
      assert es[k] == children[k];
      assert children[k] in children;
    }
  }

  /** `drop` destroys the debug messenger exactly when validation made one. */
  lemma DropDestroysMessengerIffValidation(r: Resources)
    requires r.WellFormed()
    ensures (exists k :: 0 <= k < |DropEvents(r)| && DropEvents(r)[k].Destroyed? && DropEvents(r)[k].kind == DebugMessenger)
      <==> r.debugMessenger.Some?
    ensures r.debugMessenger.Some? ==> Destroyed(DebugMessenger, r.debugMessenger.value) in DropEvents(r)
  {
    DropReleasesDeviceLastButInstance(r);
    var es, d := DropEvents(r), |DeviceChildTeardown(r)|;
    if r.debugMessenger.Some? {
      assert es[d + 2] == Destroyed(DebugMessenger, r.debugMessenger.value);
    } else {
      assert |es| == d + 3;
      assert es[d + 1] == Destroyed(Surface, r.surface);
    }
  }

  /** `drop` releases everything the renderer holds: every sync object,
      uniform buffer and its memory, the chain, the vertex and index buffers
      and their memory, the descriptor pool and layout, the command pool,
      the device, the surface and the instance. */
  lemma DropReleasesEverything(r: Resources)
    requires r.WellFormed()
    ensures var es := DropEvents(r);
      && (forall k :: 0 <= k < |r.inFlightFences| ==>
            && Destroyed(Semaphore, r.imageAvailableSemaphores[k]) in es
            && Destroyed(Semaphore, r.renderFinishedSemaphores[k]) in es
            && Destroyed(Fence, r.inFlightFences[k]) in es)
      && (forall k :: 0 <= k < |r.uniformBuffers| ==>
            Destroyed(Buffer, r.uniformBuffers[k]) in es && Destroyed(DeviceMemory, r.uniformBuffersMemory[k]) in es)
      && FreedCommandBuffers(r.commandPool, r.chain.commandBuffers) in es
      && (forall h :: h in ChainHandles(r.chain) ==> exists e :: e in es && e.Destroyed? && e.handle == h)
      && Destroyed(Buffer, r.vertexBuffer) in es && Destroyed(DeviceMemory, r.vertexBufferMemory) in es
      && Destroyed(Buffer, r.indexBuffer) in es && Destroyed(DeviceMemory, r.indexBufferMemory) in es
      && Destroyed(DescriptorPool, r.descriptorPool) in es
      && Destroyed(DescriptorSetLayout, r.uboLayout) in es
      && Destroyed(CommandPool, r.commandPool) in es
      && Destroyed(LogicalDevice, r.device) in es
      && Destroyed(Surface, r.surface) in es
      && Destroyed(Instance, r.instance) in es
  {
    var es := DropEvents(r);
    var sync := SyncTeardownChunks(r.imageAvailableSemaphores, r.renderFinishedSemaphores, r.inFlightFences);
    var uniforms := UniformTeardownChunks(r.uniformBuffers, r.uniformBuffersMemory);
    var cleanup := CleanupEvents(r.chain, r.commandPool);
    var tail := MeshAndPoolTeardown(r);
    assert es == Concat(sync) + cleanup + [Destroyed(DescriptorPool, r.descriptorPool)] + Concat(uniforms)
      + tail + InstanceTeardown(r);
    forall k | 0 <= k < |r.inFlightFences|
      ensures Destroyed(Semaphore, r.imageAvailableSemaphores[k]) in es
        && Destroyed(Semaphore, r.renderFinishedSemaphores[k]) in es
        && Destroyed(Fence, r.inFlightFences[k]) in es
    {
      ConcatContains(sync, k, Destroyed(Semaphore, r.imageAvailableSemaphores[k]));
      ConcatContains(sync, k, Destroyed(Semaphore, r.renderFinishedSemaphores[k]));
      ConcatContains(sync, k, Destroyed(Fence, r.inFlightFences[k]));
    }
    forall k | 0 <= k < |r.uniformBuffers|
      ensures Destroyed(Buffer, r.uniformBuffers[k]) in es && Destroyed(DeviceMemory, r.uniformBuffersMemory[k]) in es
    {
      ConcatContains(uniforms, k, Destroyed(Buffer, r.uniformBuffers[k]));
      ConcatContains(uniforms, k, Destroyed(DeviceMemory, r.uniformBuffersMemory[k]));
    }
    CleanupReleasesAllTheChain(r.chain, r.commandPool);
    forall h | h in ChainHandles(r.chain) ensures exists e :: e in es && e.Destroyed? && e.handle == h {
      var k :| 0 <= k < |cleanup| && cleanup[k].Destroyed? && cleanup[k].handle == h;
      assert cleanup[k] in es;
    }
    DropReleasesDeviceLastButInstance(r);
  }

  // ------------------------------------------------------- frame schedule

  /** The error codes `draw_frame` tells apart. */
  datatype VkError = ErrorOutOfDate | SuboptimalKhr | OtherVkError(code: int)

  /** The result of `acquire_next_image`; the suboptimal flag of a success is
      not looked at. */
  datatype AcquireResult = ImageAcquired(imageIndex: nat, suboptimal: bool) | AcquireFailed(acquireError: VkError)

  /** The result of `queue_present`. */
  datatype PresentResult = PresentSucceeded(presentSuboptimal: bool) | PresentFailed(presentError: VkError)

  /** How a call of `draw_frame` ends: it reaches its end, it returns early
      after an out-of-date acquire, or it panics. */
  datatype FrameOutcome = FrameDrawn | FrameSkipped | FramePanicked

  /** After presenting, `draw_frame` recreates the swapchain on OUT_OF_DATE
      or SUBOPTIMAL, or on success when the resize flag is set. */
  predicate PresentCallsForRecreate(present: PresentResult, resized: bool) {
    match present
    case PresentSucceeded(_) => resized
    case PresentFailed(e) => e == ErrorOutOfDate || e == SuboptimalKhr
  }

  /** Any other present error panics. */
  predicate PresentIsFatal(present: PresentResult) {
    present.PresentFailed? && present.presentError.OtherVkError?
  }

  /** The calls of one frame that reaches `queue_present`, for frame slot
      objects `fence`, `imageAvailable`, `renderFinished` and the acquired
      image's uniform memory and command buffer. */
  function FrameEvents(
    fence: Handle, imageAvailable: Handle, renderFinished: Handle, swapchain: Handle,
    imageIndex: nat, uniformMemory: Handle, commandBuffer: Handle): seq<Event>
  {
    AcquireEvents(fence, imageAvailable, swapchain)
    + SubmitEvents(fence, imageAvailable, renderFinished, swapchain, imageIndex, uniformMemory, commandBuffer)
  }

  /** Wait for the slot's fence, then ask for an image. */
  function AcquireEvents(fence: Handle, imageAvailable: Handle, swapchain: Handle): seq<Event> {
    [WaitedForFence(fence), AcquiredImage(swapchain, imageAvailable)]
  }

  /** Write the image's uniforms, reset the fence, submit, present. */
  function SubmitEvents(
    fence: Handle, imageAvailable: Handle, renderFinished: Handle, swapchain: Handle,
    imageIndex: nat, uniformMemory: Handle, commandBuffer: Handle): seq<Event>
  {
    [ MappedMemory(uniformMemory), CopiedToMemory(uniformMemory), UnmappedMemory(uniformMemory),
      ResetFence(fence),
      Submitted(commandBuffer, [imageAvailable], [renderFinished], Some(fence)),
      Presented(swapchain, renderFinished, imageIndex) ]
  }

  /** A product of a positive natural and `m` is at least `m`; kept apart
      so that `DivModUnique` reasons about one product at a time. */
  lemma MulAtLeast(k: nat, m: nat)
    requires k >= 1
    ensures k * m >= m
  {
    assert k * m == (k - 1) * m + m;
  }

  /** The remainder is the only `r < m` with `a == q * m + r`. */
  lemma DivModUnique(a: nat, m: nat, q: nat, r: nat)
    requires m > 0 && r < m && a == q * m + r
    ensures a % m == r
  {
    var q0, r0 := a / m, a % m;
    assert a == q0 * m + r0;
    if q0 < q {
      MulAtLeast(q - q0, m);
    } else if q < q0 {
      MulAtLeast(q0 - q, m);
    }
  }

  /** The slot frame `f` is drawn with when there are `m` slots: the slots
      are used round-robin, starting from slot 0. */
  function FrameSlot(f: nat, m: nat): (r: nat)
    requires m > 0
    ensures r < m
    decreases f
  {
    if f < m then f else FrameSlot(f - m, m)
  }

  /** The round-robin slot is the remainder of the frame count. */
  lemma {:induction false} FrameSlotIsRemainder(f: nat, m: nat)
    requires m > 0
    ensures FrameSlot(f, m) == f % m
    decreases f
  {
    if f < m {
      DivModUnique(f, m, 0, f);
    } else {
      FrameSlotIsRemainder(f - m, m);
      var q, r := (f - m) / m, (f - m) % m;
      assert f - m == q * m + r;
      DivModUnique(f, m, q + 1, r);
    }
  }

  /** `(current_frame + 1) % MAX_FRAMES_IN_FLIGHT` from the slot of frame `f`
      gives the slot of frame `f + 1`. */
  lemma {:induction false} SlotAdvances(f: nat, m: nat)
    requires m > 0
    ensures (FrameSlot(f, m) + 1) % m == FrameSlot(f + 1, m)
    decreases f
  {
    if f + 1 < m {
      DivModUnique(f + 1, m, 0, f + 1);
    } else if f + 1 == m {
      DivModUnique(m, m, 1, 0);
    } else {
      SlotAdvances(f - m, m);
    }
  }

  /** `GraphicsManager`: the GPU objects the renderer holds, the frame slot
      it draws with, and the resize flag.  Objects that `recreate_swapchain`
      never replaces are constants. */
  class GraphicsManager {
    const driver: Driver
    /** `MAX_FRAMES_IN_FLIGHT` */
    const maxFramesInFlight: nat
    /** `VALIDATION.is_enable` */
    const validationEnabled: bool

    const instance: Handle
    const surface: Handle
    /** The null handle when validation is off. */
    const debugMessenger: Handle
    const device: Handle

    var swapchain: Handle
    var swapchainImages: seq<Handle>
    var swapchainImageViews: seq<Handle>
    var swapchainFramebuffers: seq<Handle>

    var renderPass: Handle
    const uboLayout: Handle
    var pipelineLayout: Handle
    var graphicsPipeline: Handle

    const vertexBuffer: Handle
    const vertexBufferMemory: Handle
    const indexBuffer: Handle
    const indexBufferMemory: Handle

    const uniformBuffers: seq<Handle>
    const uniformBuffersMemory: seq<Handle>

    const descriptorPool: Handle
    const descriptorSets: seq<Handle>

    const commandPool: Handle
    var commandBuffers: seq<Handle>

    const imageAvailableSemaphores: seq<Handle>
    const renderFinishedSemaphores: seq<Handle>
    const inFlightFences: seq<Handle>
    var currentFrame: nat

    var isFramebufferResized: bool

    /** How many frames have reached the end of `draw_frame`. */
    ghost var framesDrawn: nat
    /** How many times each uniform buffer has been written. */
    ghost var uniformWrites: seq<nat>

    ghost predicate Valid()
      reads this
    {
      SlotsValid() && ChainValid()
    }

    /** The per-frame objects: one of each per slot, the current slot is the
        round-robin slot of the frames drawn so far, one uniform buffer and
        descriptor set per start-up image, a debug messenger exactly when
        validation is on. */
    ghost predicate SlotsValid()
      reads this`currentFrame, this`framesDrawn, this`uniformWrites
    {
      && maxFramesInFlight > 0
      && |imageAvailableSemaphores| == |renderFinishedSemaphores| == |inFlightFences| == maxFramesInFlight
      && currentFrame == FrameSlot(framesDrawn, maxFramesInFlight)
      && |uniformBuffers| == |uniformBuffersMemory| == |descriptorSets| == |uniformWrites|
      && (debugMessenger != NULL_HANDLE <==> validationEnabled)
    }

    /** The chain: one view, framebuffer and command buffer per image, and
        a descriptor set for each image. */
    ghost predicate ChainValid()
      reads this`swapchainImages, this`swapchainImageViews, this`swapchainFramebuffers, this`commandBuffers
    {
      && |swapchainImageViews| == |swapchainFramebuffers| == |commandBuffers| == |swapchainImages|
      && |swapchainImages| <= |descriptorSets|
    }

    /** The swapchain-dependent objects held now. */
    ghost function Chain(): SwapchainChain
      reads this`swapchain, this`swapchainImages, this`swapchainImageViews, this`renderPass,
        this`pipelineLayout, this`graphicsPipeline, this`swapchainFramebuffers, this`commandBuffers
    {
      SwapchainChain(swapchain, swapchainImages, swapchainImageViews, renderPass, pipelineLayout,
        graphicsPipeline, swapchainFramebuffers, commandBuffers)
    }

    /** The one model the command buffers draw: the quad. */
    function Models(): seq<ModelBuffers> {
      [ModelBuffers(vertexBuffer, indexBuffer, |INDICES_DATA|, descriptorSets)]
    }

    /** Everything held now. */
    ghost function Held(): Resources
      reads this
    {
      Resources(instance, surface, if validationEnabled then Some(debugMessenger) else None, device,
        Chain(), uboLayout, vertexBuffer, vertexBufferMemory, indexBuffer, indexBufferMemory,
        uniformBuffers, uniformBuffersMemory, descriptorPool, descriptorSets, commandPool,
        imageAvailableSemaphores, renderFinishedSemaphores, inFlightFences)
    }

    /** The calls `recreate_swapchain` makes from the current state when the
        new swapchain has `n` images: all of them when the descriptor sets
        made at start-up cover the new images, otherwise those up to the
        panic in the recording of a command buffer. */
    ghost function RecreateCalls(n: nat): seq<Event>
      reads this`swapchain, this`swapchainImages, this`swapchainImageViews, this`renderPass,
        this`pipelineLayout, this`graphicsPipeline, this`swapchainFramebuffers, this`commandBuffers, driver`nextHandle
    {
      RecreateCallsFrom(Chain(), commandPool, driver.nextHandle, n, Models())
    }

    /** The calls of a frame in the current slot that acquires image
        `imageIndex` and presents it. */
    ghost function FrameCalls(imageIndex: nat): seq<Event>
      requires Valid() && imageIndex < |swapchainImages|
      reads this
    {
      FrameEvents(inFlightFences[currentFrame], imageAvailableSemaphores[currentFrame],
        renderFinishedSemaphores[currentFrame], swapchain, imageIndex,
        uniformBuffersMemory[imageIndex], commandBuffers[imageIndex])
    }

    /** The part of `FrameCalls` after the acquire. */
    ghost function SubmitCalls(imageIndex: nat): seq<Event>
      requires Valid() && imageIndex < |swapchainImages|
      reads this
    {
      SubmitEvents(inFlightFences[currentFrame], imageAvailableSemaphores[currentFrame],
        renderFinishedSemaphores[currentFrame], swapchain, imageIndex,
        uniformBuffersMemory[imageIndex], commandBuffers[imageIndex])
    }

    /** The calls `GraphicsManager::new` makes to build what is held, in the
        source's order: instance and device, the swapchain objects, the
        buffers and descriptor sets, the command buffers (buffer `i` recorded
        on framebuffer `i` with descriptor set `i`), and the per-slot
        semaphores and signalled fences. */
    ghost function StartupCalls(): seq<Event>
      requires Valid()
      reads this
    {
      StartupEvents(Held())
    }

    /** `GraphicsManager::new`, for a swapchain the driver gives `imageCount`
        images: every object is made by the calls of `StartupCalls`, in the
        source's order (the shader modules and staging buffers, which are
        not kept, sit right after the layout and the command pool); frame
        slot 0, resize flag clear. */
    constructor (maxFramesInFlight: nat, validationEnabled: bool, imageCount: nat)
      requires maxFramesInFlight > 0
      ensures Valid() && fresh(driver) && driver.Valid()
      ensures driver.trace == StartupCalls()
      ensures pipelineLayout == uboLayout + 3 && graphicsPipeline == uboLayout + 4
      ensures vertexBuffer == commandPool + 3 && vertexBufferMemory == commandPool + 4
      ensures indexBuffer == commandPool + 8 && indexBufferMemory == commandPool + 9
      ensures this.maxFramesInFlight == maxFramesInFlight && this.validationEnabled == validationEnabled
      ensures currentFrame == 0 && !isFramebufferResized
      ensures |swapchainImages| == |descriptorSets| == imageCount
      ensures forall k :: 0 <= k < |uniformWrites| ==> uniformWrites[k] == 0
    {
      var d := new Driver();
      var r := Start(d, maxFramesInFlight, validationEnabled, imageCount);
      driver := d;
      this.maxFramesInFlight := maxFramesInFlight;
      this.validationEnabled := validationEnabled;
      instance, surface, device := r.instance, r.surface, r.device;
      debugMessenger := if validationEnabled then r.debugMessenger.value else NULL_HANDLE;
      swapchain, swapchainImages, swapchainImageViews := r.chain.swapchain, r.chain.images, r.chain.imageViews;
      renderPass, pipelineLayout, graphicsPipeline := r.chain.renderPass, r.chain.pipelineLayout, r.chain.pipeline;
      swapchainFramebuffers, commandBuffers := r.chain.framebuffers, r.chain.commandBuffers;
      uboLayout := r.uboLayout;
      vertexBuffer, vertexBufferMemory := r.vertexBuffer, r.vertexBufferMemory;
      indexBuffer, indexBufferMemory := r.indexBuffer, r.indexBufferMemory;
      uniformBuffers, uniformBuffersMemory := r.uniformBuffers, r.uniformBuffersMemory;
      descriptorPool, descriptorSets, commandPool := r.descriptorPool, r.descriptorSets, r.commandPool;
      imageAvailableSemaphores, renderFinishedSemaphores := r.imageAvailableSemaphores, r.renderFinishedSemaphores;
      inFlightFences := r.inFlightFences;
      currentFrame := 0;
      isFramebufferResized := false;
      framesDrawn := 0;
      uniformWrites := seq(|r.uniformBuffers|, _ => 0);
    }

    /** `update_uniform_buffer`: maps, writes and unmaps the uniform memory
        of image `currentImage` and of no other image. */
    method UpdateUniformBuffer(currentImage: nat)
      requires currentImage < |uniformBuffersMemory| == |uniformWrites|
      requires driver.Valid()
      modifies driver`trace, this`uniformWrites
      ensures driver.Valid()
      ensures driver.trace == old(driver.trace) + [
        MappedMemory(uniformBuffersMemory[currentImage]),
        CopiedToMemory(uniformBuffersMemory[currentImage]),
        UnmappedMemory(uniformBuffersMemory[currentImage])]
      ensures |uniformWrites| == |old(uniformWrites)|
      ensures uniformWrites[currentImage] == old(uniformWrites[currentImage]) + 1
      ensures forall k :: 0 <= k < |uniformWrites| && k != currentImage ==> uniformWrites[k] == old(uniformWrites[k])
    {
      var memory := uniformBuffersMemory[currentImage];
      driver.Call(MappedMemory(memory));
      driver.Call(CopiedToMemory(memory));
      driver.Call(UnmappedMemory(memory));
      uniformWrites := uniformWrites[currentImage := uniformWrites[currentImage] + 1];
    }

    /** `cleanup_swapchain` */
    method CleanupSwapchain()
      requires driver.Valid()
      modifies driver`trace
      ensures driver.Valid()
      ensures driver.trace == old(driver.trace) + CleanupEvents(Chain(), commandPool)
    {
      driver.Call(FreedCommandBuffers(commandPool, commandBuffers));
      DestroyEach(driver, Framebuffer, swapchainFramebuffers);
      driver.Destroy(Pipeline, graphicsPipeline);
      driver.Destroy(PipelineLayout, pipelineLayout);
      driver.Destroy(RenderPass, renderPass);
      DestroyEach(driver, ImageView, swapchainImageViews);
      driver.Destroy(Swapchain, swapchain);
    }

    /** `recreate_swapchain`, for a new swapchain of `imageCount` images:
        waits for the device, tears the chain down and builds it again.
        Only the swapchain-dependent fields change.  The recording of the
        command buffers reads descriptor set `i` for image `i`, and the
        descriptor sets are not recreated, so a new swapchain with more
        images than at start-up panics there. */
    method RecreateSwapchain(imageCount: nat) returns (completed: bool)
      requires Valid()
      requires driver.Valid()
      modifies driver, this`swapchain, this`swapchainImages, this`swapchainImageViews, this`renderPass,
        this`pipelineLayout, this`graphicsPipeline, this`swapchainFramebuffers, this`commandBuffers
      ensures driver.Valid()
      ensures completed <==> imageCount <= |descriptorSets|
      ensures driver.trace == old(driver.trace) + old(RecreateCalls(imageCount))
      ensures completed ==> Valid() && Chain() == ChainAt(old(driver.nextHandle), imageCount)
    {
      ghost var before, base := driver.trace, driver.nextHandle;
      ghost var cleanup := CleanupEvents(Chain(), commandPool);
      driver.Call(DeviceWaitedIdle);
      CleanupSwapchain();
      AppendAssoc(before, [DeviceWaitedIdle], cleanup);
      if imageCount > |descriptorSets| {
        return false;
      }
      ghost var build := BuildEvents(base, imageCount, commandPool, Models());
      Rebuild(imageCount);
      AppendAssoc(before, [DeviceWaitedIdle] + cleanup, build);
      completed := true;
    }

    /** The building half of `recreate_swapchain`. */
    method Rebuild(imageCount: nat)
      requires imageCount <= |descriptorSets|
      requires driver.Valid()
      modifies driver, this`swapchain, this`swapchainImages, this`swapchainImageViews, this`renderPass,
        this`pipelineLayout, this`graphicsPipeline, this`swapchainFramebuffers, this`commandBuffers
      ensures driver.Valid()
      ensures ChainValid() && Chain() == ChainAt(old(driver.nextHandle), imageCount)
      ensures driver.trace == old(driver.trace) + BuildEvents(old(driver.nextHandle), imageCount, commandPool, Models())
    {
      ghost var base := driver.nextHandle;
      BuildTargets(imageCount);
      commandBuffers := CreateCommandBuffers(driver, commandPool, graphicsPipeline, swapchainFramebuffers,
        renderPass, pipelineLayout, Models());
      assert Chain() == ChainAt(base, imageCount);
    }

    /** The swapchain, its image views, the render pass, the pipeline and
        the framebuffers of a new chain. */
    method BuildTargets(imageCount: nat)
      requires driver.Valid()
      modifies driver, this`swapchain, this`swapchainImages, this`swapchainImageViews, this`renderPass,
        this`pipelineLayout, this`graphicsPipeline, this`swapchainFramebuffers
      ensures driver.Valid()
      ensures var c := ChainAt(old(driver.nextHandle), imageCount);
        && swapchain == c.swapchain && swapchainImages == c.images && swapchainImageViews == c.imageViews
        && renderPass == c.renderPass && pipelineLayout == c.pipelineLayout && graphicsPipeline == c.pipeline
        && swapchainFramebuffers == c.framebuffers
      ensures driver.nextHandle == old(driver.nextHandle) + 6 + 3 * imageCount
      ensures driver.trace == old(driver.trace) + TargetEvents(old(driver.nextHandle), imageCount)
    {
      ghost var before, base := driver.trace, driver.nextHandle;
      BuildPresentation(imageCount);
      BuildPass(base, imageCount);
      AppendAssoc(before, PresentationEvents(base, imageCount), PassEvents(base, imageCount));
    }

    /** The swapchain, its images and their views. */
    method BuildPresentation(imageCount: nat)
      requires driver.Valid()
      modifies driver, this`swapchain, this`swapchainImages, this`swapchainImageViews
      ensures driver.Valid()
      ensures var c := ChainAt(old(driver.nextHandle), imageCount);
        swapchain == c.swapchain && swapchainImages == c.images && swapchainImageViews == c.imageViews
      ensures driver.nextHandle == old(driver.nextHandle) + 1 + 2 * imageCount
      ensures driver.trace == old(driver.trace) + PresentationEvents(old(driver.nextHandle), imageCount)
    {
      ghost var before := driver.trace;
      ghost var c := ChainAt(driver.nextHandle, imageCount);
      swapchain, swapchainImages := CreateSwapchain(driver, imageCount);
      assert swapchainImages == c.images;
      swapchainImageViews := CreateImageViews(driver, swapchainImages);
      assert swapchainImageViews == c.imageViews;
    }

    /** The render pass, the pipeline and the framebuffers of the chain built
        from `base`, once its views exist. */
    method BuildPass(ghost base: Handle, imageCount: nat)
      requires driver.nextHandle == base + 1 + 2 * imageCount
      requires swapchainImageViews == ChainAt(base, imageCount).imageViews
      requires driver.Valid()
      modifies driver, this`renderPass, this`pipelineLayout, this`graphicsPipeline, this`swapchainFramebuffers
      ensures driver.Valid()
      ensures var c := ChainAt(base, imageCount);
        renderPass == c.renderPass && pipelineLayout == c.pipelineLayout && graphicsPipeline == c.pipeline
        && swapchainFramebuffers == c.framebuffers
      ensures driver.nextHandle == base + 6 + 3 * imageCount
      ensures driver.trace == old(driver.trace) + PassEvents(base, imageCount)
    {
      ghost var c := ChainAt(base, imageCount);
      renderPass := driver.Create(RenderPass);
      graphicsPipeline, pipelineLayout := CreateGraphicsPipeline(driver);
      swapchainFramebuffers := CreateFramebuffers(driver, renderPass, swapchainImageViews);
      assert swapchainFramebuffers == c.framebuffers;
    }

    /** `draw_frame`, for the results the driver gives for the acquire and
        the present, and the image count of a swapchain it recreates. */
    method DrawFrame(acquire: AcquireResult, present: PresentResult, recreatedImageCount: nat)
      returns (outcome: FrameOutcome)
      requires Valid()
      requires acquire.ImageAcquired? ==> acquire.imageIndex < |swapchainImages|
      requires driver.Valid()
      modifies driver, this`swapchain, this`swapchainImages, this`swapchainImageViews, this`renderPass,
        this`pipelineLayout, this`graphicsPipeline, this`swapchainFramebuffers, this`commandBuffers,
        this`currentFrame, this`isFramebufferResized, this`framesDrawn, this`uniformWrites
      ensures driver.Valid()
      ensures outcome != FramePanicked ==> Valid()
      // the frame slot moves on exactly when the frame reaches the end
      ensures outcome == FrameDrawn <==>
        && acquire.ImageAcquired?
        && !PresentIsFatal(present)
        && (PresentCallsForRecreate(present, old(isFramebufferResized)) ==> recreatedImageCount <= |descriptorSets|)
      ensures outcome == FrameDrawn ==>
        framesDrawn == old(framesDrawn) + 1 && currentFrame == (old(currentFrame) + 1) % maxFramesInFlight
      ensures outcome != FrameDrawn ==> framesDrawn == old(framesDrawn) && currentFrame == old(currentFrame)
      // nothing sets the resize flag
      ensures !old(isFramebufferResized) ==> !isFramebufferResized
      // acquire out of date: recreate and return
      ensures acquire == AcquireFailed(ErrorOutOfDate) ==>
        && (outcome == FrameSkipped <==> recreatedImageCount <= |descriptorSets|)
        && outcome != FrameDrawn
        && uniformWrites == old(uniformWrites)
        && isFramebufferResized == old(isFramebufferResized)
        && driver.trace == old(driver.trace)
          + AcquireEvents(inFlightFences[old(currentFrame)], imageAvailableSemaphores[old(currentFrame)], old(swapchain))
          + old(RecreateCalls(recreatedImageCount))
      // any other acquire error is fatal
      ensures acquire.AcquireFailed? && acquire.acquireError != ErrorOutOfDate ==>
        && outcome == FramePanicked
        && uniformWrites == old(uniformWrites)
        && driver.trace == old(driver.trace)
          + AcquireEvents(inFlightFences[old(currentFrame)], imageAvailableSemaphores[old(currentFrame)], old(swapchain))
      // an acquired image: the slot's calls in order, one uniform write
      ensures acquire.ImageAcquired? ==>
        && |uniformWrites| == |old(uniformWrites)|
        && uniformWrites[acquire.imageIndex] == old(uniformWrites[acquire.imageIndex]) + 1
        && (forall k :: 0 <= k < |uniformWrites| && k != acquire.imageIndex ==> uniformWrites[k] == old(uniformWrites[k]))
        && (PresentCallsForRecreate(present, old(isFramebufferResized)) ==> !isFramebufferResized)
        && (PresentCallsForRecreate(present, old(isFramebufferResized)) ==>
              driver.trace == old(driver.trace) + old(FrameCalls(acquire.imageIndex)) + old(RecreateCalls(recreatedImageCount)))
        && (!PresentCallsForRecreate(present, old(isFramebufferResized)) ==>
              driver.trace == old(driver.trace) + old(FrameCalls(acquire.imageIndex)))
      // the chain: kept unless recreated, and the freshly built one after a recreation
      ensures acquire.ImageAcquired? && !PresentCallsForRecreate(present, old(isFramebufferResized)) ==>
        Chain() == old(Chain())
      ensures acquire.AcquireFailed? && acquire.acquireError != ErrorOutOfDate ==> Chain() == old(Chain())
      ensures acquire == AcquireFailed(ErrorOutOfDate) && outcome != FramePanicked ==>
        Chain() == ChainAt(old(driver.nextHandle), recreatedImageCount)
      ensures && acquire.ImageAcquired?
              && PresentCallsForRecreate(present, old(isFramebufferResized))
              && outcome != FramePanicked
        ==> Chain() == ChainAt(old(driver.nextHandle), recreatedImageCount)
    {
      ghost var before := driver.trace;
      ghost var acquireCalls := AcquireEvents(inFlightFences[currentFrame], imageAvailableSemaphores[currentFrame], swapchain);
      WaitAndAcquire();
      var imageIndex;
      match acquire {
        case ImageAcquired(i, _) =>
          imageIndex := i;
        case AcquireFailed(ErrorOutOfDate) =>
          var completed := RecreateSwapchain(recreatedImageCount);
          return if completed then FrameSkipped else FramePanicked;
        case AcquireFailed(_) =>
          return FramePanicked;
      }
      ghost var submitCalls := SubmitCalls(imageIndex);
      outcome := PresentAcquired(imageIndex, present, recreatedImageCount);
      AppendAssoc(before, acquireCalls, submitCalls);
    }

    /** The start of `draw_frame`: wait for the fence of the current slot,
        then acquire an image signalling the slot's semaphore. */
    method WaitAndAcquire()
      requires Valid()
      requires driver.Valid()
      modifies driver`trace
      ensures driver.Valid()
      ensures driver.trace == old(driver.trace)
        + AcquireEvents(inFlightFences[currentFrame], imageAvailableSemaphores[currentFrame], swapchain)
    {
      driver.Call(WaitedForFence(inFlightFences[currentFrame]));
      driver.Call(AcquiredImage(swapchain, imageAvailableSemaphores[currentFrame]));
    }

    /** `draw_frame` from an acquired image on. */
    method PresentAcquired(imageIndex: nat, present: PresentResult, recreatedImageCount: nat)
      returns (outcome: FrameOutcome)
      requires Valid() && imageIndex < |swapchainImages|
      requires driver.Valid()
      modifies driver, this`swapchain, this`swapchainImages, this`swapchainImageViews, this`renderPass,
        this`pipelineLayout, this`graphicsPipeline, this`swapchainFramebuffers, this`commandBuffers,
        this`currentFrame, this`isFramebufferResized, this`framesDrawn, this`uniformWrites
      ensures driver.Valid()
      ensures outcome != FramePanicked ==> Valid()
      ensures outcome != FrameSkipped
      ensures outcome == FrameDrawn <==>
        !PresentIsFatal(present)
        && (PresentCallsForRecreate(present, old(isFramebufferResized)) ==> recreatedImageCount <= |descriptorSets|)
      ensures outcome == FrameDrawn ==>
        framesDrawn == old(framesDrawn) + 1 && currentFrame == (old(currentFrame) + 1) % maxFramesInFlight
      ensures outcome != FrameDrawn ==> framesDrawn == old(framesDrawn) && currentFrame == old(currentFrame)
      ensures !old(isFramebufferResized) ==> !isFramebufferResized
      ensures PresentCallsForRecreate(present, old(isFramebufferResized)) ==> !isFramebufferResized
      ensures |uniformWrites| == |old(uniformWrites)|
      ensures uniformWrites[imageIndex] == old(uniformWrites[imageIndex]) + 1
      ensures forall k :: 0 <= k < |uniformWrites| && k != imageIndex ==> uniformWrites[k] == old(uniformWrites[k])
      ensures PresentCallsForRecreate(present, old(isFramebufferResized)) ==>
        driver.trace == old(driver.trace) + old(SubmitCalls(imageIndex)) + old(RecreateCalls(recreatedImageCount))
      ensures !PresentCallsForRecreate(present, old(isFramebufferResized)) ==>
        driver.trace == old(driver.trace) + old(SubmitCalls(imageIndex))
      ensures !PresentCallsForRecreate(present, old(isFramebufferResized)) ==> Chain() == old(Chain())
      ensures PresentCallsForRecreate(present, old(isFramebufferResized)) && outcome == FrameDrawn ==>
        Chain() == ChainAt(old(driver.nextHandle), recreatedImageCount)
    {
      SubmitAndPresent(imageIndex);
      outcome := FinishFrame(present, recreatedImageCount);
    }

    /** The part of `draw_frame` between the acquire and the present: the
        uniforms of the acquired image, the fence reset, the submission of
        that image's command buffer and the present. */
    method SubmitAndPresent(imageIndex: nat)
      requires Valid() && imageIndex < |swapchainImages|
      requires driver.Valid()
      modifies driver`trace, this`uniformWrites
      ensures driver.Valid()
      ensures Valid()
      ensures driver.trace == old(driver.trace) + SubmitCalls(imageIndex)
      ensures |uniformWrites| == |old(uniformWrites)|
      ensures uniformWrites[imageIndex] == old(uniformWrites[imageIndex]) + 1
      ensures forall k :: 0 <= k < |uniformWrites| && k != imageIndex ==> uniformWrites[k] == old(uniformWrites[k])
    {
      var fence := inFlightFences[currentFrame];
      UpdateUniformBuffer(imageIndex);
      var waitSemaphore := imageAvailableSemaphores[currentFrame];
      var signalSemaphore := renderFinishedSemaphores[currentFrame];
      driver.Call(ResetFence(fence));
      driver.Call(Submitted(commandBuffers[imageIndex], [waitSemaphore], [signalSemaphore], Some(fence)));
      driver.Call(Presented(swapchain, signalSemaphore, imageIndex));
    }

    /** The end of `draw_frame`, after the present: OUT_OF_DATE and
        SUBOPTIMAL call for a new swapchain, a success calls for one when
        the resize flag is set, any other error panics. */
    method FinishFrame(present: PresentResult, recreatedImageCount: nat) returns (outcome: FrameOutcome)
      requires Valid()
      requires driver.Valid()
      modifies driver, this`swapchain, this`swapchainImages, this`swapchainImageViews, this`renderPass,
        this`pipelineLayout, this`graphicsPipeline, this`swapchainFramebuffers, this`commandBuffers,
        this`currentFrame, this`isFramebufferResized, this`framesDrawn
      ensures driver.Valid()
      ensures outcome != FramePanicked ==> Valid()
      ensures outcome != FrameSkipped
      ensures outcome == FrameDrawn <==>
        !PresentIsFatal(present)
        && (PresentCallsForRecreate(present, old(isFramebufferResized)) ==> recreatedImageCount <= |descriptorSets|)
      ensures outcome == FrameDrawn ==>
        framesDrawn == old(framesDrawn) + 1 && currentFrame == (old(currentFrame) + 1) % maxFramesInFlight
      ensures outcome != FrameDrawn ==> framesDrawn == old(framesDrawn) && currentFrame == old(currentFrame)
      ensures !old(isFramebufferResized) ==> !isFramebufferResized
      ensures PresentCallsForRecreate(present, old(isFramebufferResized)) ==> !isFramebufferResized
      ensures PresentCallsForRecreate(present, old(isFramebufferResized)) ==>
        driver.trace == old(driver.trace) + old(RecreateCalls(recreatedImageCount))
      ensures !PresentCallsForRecreate(present, old(isFramebufferResized)) ==> driver.trace == old(driver.trace)
      ensures !PresentCallsForRecreate(present, old(isFramebufferResized)) ==> Chain() == old(Chain())
      ensures PresentCallsForRecreate(present, old(isFramebufferResized)) && outcome == FrameDrawn ==>
        Chain() == ChainAt(old(driver.nextHandle), recreatedImageCount)
    {
      var isResized;
      match present {
        case PresentSucceeded(_) =>
          isResized := isFramebufferResized;
        case PresentFailed(ErrorOutOfDate) =>
          isResized := true;
        case PresentFailed(SuboptimalKhr) =>
          isResized := true;
        case PresentFailed(_) =>
          return FramePanicked;
      }
      outcome := RecreateIfResized(isResized, recreatedImageCount);
    }

    /** `if is_resized { ... recreate_swapchain() }` and the move to the
        next frame slot. */
    method RecreateIfResized(isResized: bool, recreatedImageCount: nat) returns (outcome: FrameOutcome)
      requires Valid()
      requires driver.Valid()
      modifies driver, this`swapchain, this`swapchainImages, this`swapchainImageViews, this`renderPass,
        this`pipelineLayout, this`graphicsPipeline, this`swapchainFramebuffers, this`commandBuffers,
        this`currentFrame, this`isFramebufferResized, this`framesDrawn
      ensures driver.Valid()
      ensures outcome != FramePanicked ==> Valid()
      ensures outcome != FrameSkipped
      ensures outcome == FrameDrawn <==> (isResized ==> recreatedImageCount <= |descriptorSets|)
      ensures outcome == FrameDrawn ==>
        framesDrawn == old(framesDrawn) + 1 && currentFrame == (old(currentFrame) + 1) % maxFramesInFlight
      ensures outcome != FrameDrawn ==> framesDrawn == old(framesDrawn) && currentFrame == old(currentFrame)
      ensures isResized ==> !isFramebufferResized
      ensures !isResized ==> isFramebufferResized == old(isFramebufferResized)
      ensures isResized ==> driver.trace == old(driver.trace) + old(RecreateCalls(recreatedImageCount))
      ensures !isResized ==> driver.trace == old(driver.trace)
      // the chain is kept, or is the one the recreation built
      ensures !isResized ==> Chain() == old(Chain())
      ensures isResized && outcome == FrameDrawn ==> Chain() == ChainAt(old(driver.nextHandle), recreatedImageCount)
    {
      if isResized {
        isFramebufferResized := false;
        var completed := RecreateSwapchain(recreatedImageCount);
        if !completed {
          return FramePanicked;
        }
      }
      AdvanceFrame();
      outcome := FrameDrawn;
    }

    /** `current_frame = (current_frame + 1) % MAX_FRAMES_IN_FLIGHT`: one
        more frame drawn, and the slot is still its round-robin slot. */
    method AdvanceFrame()
      requires SlotsValid()
      modifies this`currentFrame, this`framesDrawn
      ensures SlotsValid()
      ensures framesDrawn == old(framesDrawn) + 1 && currentFrame == (old(currentFrame) + 1) % maxFramesInFlight
    {
      SlotAdvances(framesDrawn, maxFramesInFlight);
      currentFrame := (currentFrame + 1) % maxFramesInFlight;
      framesDrawn := framesDrawn + 1;
    }

    /** `Drop::drop` */
    method Drop()
      requires Valid()
      requires driver.Valid()
      modifies driver`trace
      ensures driver.Valid()
      ensures driver.trace == old(driver.trace) + DropEvents(Held())
    {
      DestroyDeviceChildren();
      DestroyDeviceAndInstance();
    }

    /** The part of `drop` up to the command pool. */
    method DestroyDeviceChildren()
      requires Held().WellFormed()
      requires driver.Valid()
      modifies driver`trace
      ensures driver.Valid()
      ensures driver.trace == old(driver.trace) + DeviceChildTeardown(Held())
    {
      DestroySyncObjects();
      CleanupSwapchain();
      driver.Destroy(DescriptorPool, descriptorPool);
      DestroyUniformBuffers();
      DestroyMeshAndPools();
    }

    method DestroyMeshAndPools()
      requires driver.Valid()
      modifies driver`trace
      ensures driver.Valid()
      ensures driver.trace == old(driver.trace) + MeshAndPoolTeardown(Held())
    {
      driver.Destroy(Buffer, indexBuffer);
      driver.Destroy(DeviceMemory, indexBufferMemory);
      driver.Destroy(Buffer, vertexBuffer);
      driver.Destroy(DeviceMemory, vertexBufferMemory);
      driver.Destroy(DescriptorSetLayout, uboLayout);
      driver.Destroy(CommandPool, commandPool);
    }

    /** The rest of `drop`: device, surface, debug messenger, instance. */
    method DestroyDeviceAndInstance()
      requires Valid()
      requires driver.Valid()
      modifies driver`trace
      ensures driver.Valid()
      ensures driver.trace == old(driver.trace) + InstanceTeardown(Held())
    {
      driver.Destroy(LogicalDevice, device);
      driver.Destroy(Surface, surface);
      if validationEnabled {
        driver.Destroy(DebugMessenger, debugMessenger);
      }
      driver.Destroy(Instance, instance);
    }

    /** The first loop of `drop`. */
    method DestroySyncObjects()
      requires |imageAvailableSemaphores| == |renderFinishedSemaphores| == |inFlightFences|
      requires driver.Valid()
      modifies driver`trace
      ensures driver.Valid()
      ensures driver.trace == old(driver.trace)
        + SyncTeardown(imageAvailableSemaphores, renderFinishedSemaphores, inFlightFences)
    {
      for i := 0 to |inFlightFences|
        invariant driver.Valid()
        invariant driver.trace == old(driver.trace) + SyncTeardown(
          imageAvailableSemaphores[..i], renderFinishedSemaphores[..i], inFlightFences[..i])
      {
        driver.Destroy(Semaphore, imageAvailableSemaphores[i]);
        driver.Destroy(Semaphore, renderFinishedSemaphores[i]);
        driver.Destroy(Fence, inFlightFences[i]);
        SyncTeardownStep(imageAvailableSemaphores, renderFinishedSemaphores, inFlightFences, i);
      }
      assert imageAvailableSemaphores[..|inFlightFences|] == imageAvailableSemaphores;
      assert renderFinishedSemaphores[..|inFlightFences|] == renderFinishedSemaphores;
      assert inFlightFences[..|inFlightFences|] == inFlightFences;
    }

    /** The uniform loop of `drop`. */
    method DestroyUniformBuffers()
      requires |uniformBuffers| == |uniformBuffersMemory|
      requires driver.Valid()
      modifies driver`trace
      ensures driver.Valid()
      ensures driver.trace == old(driver.trace) + UniformTeardown(uniformBuffers, uniformBuffersMemory)
    {
      for i := 0 to |uniformBuffers|
        invariant driver.Valid()
        invariant driver.trace == old(driver.trace) + UniformTeardown(uniformBuffers[..i], uniformBuffersMemory[..i])
      {
        driver.Destroy(Buffer, uniformBuffers[i]);
        driver.Destroy(DeviceMemory, uniformBuffersMemory[i]);
        UniformTeardownStep(uniformBuffers, uniformBuffersMemory, i);
      }
      assert uniformBuffers[..|uniformBuffers|] == uniformBuffers;
      assert uniformBuffersMemory[..|uniformBuffers|] == uniformBuffersMemory;
    }
  }

  /** The calls of the start of `GraphicsManager::new`: instance, surface,
      the debug messenger when validation is on, and the logical device. */
  function InstanceEvents(
    instance: Handle, surface: Handle, messenger: Option<Handle>, device: Handle): seq<Event>
  {
    [Created(Instance, instance), Created(Surface, surface)]
    + (match messenger case Some(m) => [Created(DebugMessenger, m)] case None => [])
    + [Created(LogicalDevice, device)]
  }

  /** The calls that make the objects of `r`, in the order of
      `GraphicsManager::new`. */
  function StartupEvents(r: Resources): seq<Event>
    requires r.Shaped()
  {
    InstanceEvents(r.instance, r.surface, r.debugMessenger, r.device)
    + StartChainEvents(r.chain.swapchain, r.chain.images, r.chain.imageViews, r.chain.renderPass, r.uboLayout,
      r.chain.framebuffers)
    + StartBufferEvents(r.commandPool, r.uboLayout, r.uniformBuffers, r.uniformBuffersMemory, r.descriptorPool,
      r.descriptorSets)
    + CommandAndSyncEvents(r.commandPool, r.chain, [r.Model()],
      r.imageAvailableSemaphores, r.renderFinishedSemaphores, r.inFlightFences)
  }

  /** The calls of the end of `GraphicsManager::new`: the command buffers,
      buffer `i` recorded on framebuffer `i`, then the synchronisation
      objects of every frame slot. */
  function CommandAndSyncEvents(
    commandPool: Handle, c: SwapchainChain, models: seq<ModelBuffers>,
    imageAvailable: seq<Handle>, renderFinished: seq<Handle>, inFlight: seq<Handle>): seq<Event>
    requires |c.commandBuffers| <= |c.framebuffers| && CoversImages(models, |c.commandBuffers|)
    requires |imageAvailable| == |renderFinished| == |inFlight|
  {
    [AllocatedCommandBuffers(commandPool, c.commandBuffers)]
    + Recordings(c.commandBuffers, c.renderPass, c.framebuffers, c.pipeline, c.pipelineLayout, models)
    + SyncEvents(imageAvailable, renderFinished, inFlight)
  }

  /** The body of `GraphicsManager::new` up to storing the fields. */
  method Start(d: Driver, maxFramesInFlight: nat, validationEnabled: bool, imageCount: nat) returns (r: Resources)
    requires d.Valid()
    modifies d
    ensures d.Valid() && r.Shaped()
    ensures |r.chain.images| == |r.descriptorSets| == |r.uniformBuffers| == imageCount
    ensures |r.imageAvailableSemaphores| == maxFramesInFlight
    ensures r.debugMessenger.Some? <==> validationEnabled
    ensures r.debugMessenger.Some? ==> r.debugMessenger.value != NULL_HANDLE
    ensures r.chain.pipelineLayout == r.uboLayout + 3 && r.chain.pipeline == r.uboLayout + 4
    ensures r.vertexBuffer == r.commandPool + 3 && r.vertexBufferMemory == r.commandPool + 4
    ensures r.indexBuffer == r.commandPool + 8 && r.indexBufferMemory == r.commandPool + 9
    ensures d.trace == old(d.trace) + StartupEvents(r)
  {
    ghost var before := d.trace;
    var instance, surface, messenger, device := StartInstance(d, validationEnabled);
    ghost var done := InstanceEvents(instance, surface, messenger, device);
    var swapchain, images, views, renderPass, uboLayout, pipeline, pipelineLayout, framebuffers :=
      StartChain(d, imageCount);
    ghost var chunk := StartChainEvents(swapchain, images, views, renderPass, uboLayout, framebuffers);
    AppendAssoc(before, done, chunk);
    done := done + chunk;
    var commandPool, vertexBuffer, vertexBufferMemory, indexBuffer, indexBufferMemory,
      uniforms, uniformMemories, descriptorPool, sets := StartBuffers(d, uboLayout, imageCount);
    chunk := StartBufferEvents(commandPool, uboLayout, uniforms, uniformMemories, descriptorPool, sets);
    AppendAssoc(before, done, chunk);
    done := done + chunk;
    var model := ModelBuffers(vertexBuffer, indexBuffer, |INDICES_DATA|, sets);
    var c, imageAvailable, renderFinished, inFlight := StartFrames(d, maxFramesInFlight, commandPool,
      SwapchainChain(swapchain, images, views, renderPass, pipelineLayout, pipeline, framebuffers, []), model);
    AppendAssoc(before, done, CommandAndSyncEvents(commandPool, c, [model], imageAvailable, renderFinished, inFlight));
    r := Resources(instance, surface, messenger, device, c, uboLayout, vertexBuffer, vertexBufferMemory, indexBuffer, indexBufferMemory,
      uniforms, uniformMemories, descriptorPool, sets, commandPool,
      imageAvailable, renderFinished, inFlight);
  }

  /** The command buffers of `GraphicsManager::new`, recorded for the chain
      `c` built so far, and the synchronisation objects. */
  method StartFrames(d: Driver, maxFramesInFlight: nat, commandPool: Handle, c: SwapchainChain, model: ModelBuffers)
    returns (withBuffers: SwapchainChain, imageAvailable: seq<Handle>, renderFinished: seq<Handle>, inFlight: seq<Handle>)
    requires CoversImages([model], |c.framebuffers|)
    requires d.Valid()
    modifies d
    ensures d.Valid()
    ensures withBuffers == c.(commandBuffers := withBuffers.commandBuffers)
    ensures |withBuffers.commandBuffers| == |c.framebuffers|
    ensures |imageAvailable| == |renderFinished| == |inFlight| == maxFramesInFlight
    ensures d.trace == old(d.trace) + CommandAndSyncEvents(commandPool, withBuffers, [model], imageAvailable, renderFinished, inFlight)
  {
    var commandBuffers := CreateCommandBuffers(d, commandPool, c.pipeline, c.framebuffers, c.renderPass,
      c.pipelineLayout, [model]);
    withBuffers := c.(commandBuffers := commandBuffers);
    ghost var done := [AllocatedCommandBuffers(commandPool, commandBuffers)]
      + Recordings(commandBuffers, c.renderPass, c.framebuffers, c.pipeline, c.pipelineLayout, [model]);
    imageAvailable, renderFinished, inFlight := CreateSyncObjects(d, maxFramesInFlight);
  }

  /** The start of `GraphicsManager::new`. */
  method StartInstance(d: Driver, validationEnabled: bool)
    returns (instance: Handle, surface: Handle, messenger: Option<Handle>, device: Handle)
    requires d.Valid()
    modifies d
    ensures d.Valid()
    ensures messenger.Some? <==> validationEnabled
    ensures messenger.Some? ==> messenger.value != NULL_HANDLE
    ensures d.trace == old(d.trace) + InstanceEvents(instance, surface, messenger, device)
  {
    instance := d.Create(Instance);
    surface := d.Create(Surface);
    messenger := None;
    if validationEnabled {
      var m := d.Create(DebugMessenger);
      messenger := Some(m);
    }
    device := d.Create(LogicalDevice);
  }

  /** The calls that make the swapchain objects of `GraphicsManager::new`:
      the swapchain and its images, a view per image, the render pass, the
      descriptor-set layout, the graphics pipeline (whose shader modules
      come right after the layout) and a framebuffer per view. */
  function StartChainEvents(
    swapchain: Handle, images: seq<Handle>, views: seq<Handle>, renderPass: Handle, uboLayout: Handle,
    framebuffers: seq<Handle>): seq<Event>
    requires |views| == |images| && |framebuffers| == |views|
  {
    [Created(Swapchain, swapchain), GotSwapchainImages(swapchain, images)]
    + ImageViewEvents(views, images)
    + [Created(RenderPass, renderPass)]
    + [Created(DescriptorSetLayout, uboLayout)]
    + PipelineEvents(uboLayout + 1)
    + FramebufferEvents(framebuffers, renderPass, views)
  }

  /** The swapchain objects of `GraphicsManager::new`, with the descriptor
      set layout created between the render pass and the pipeline. */
  method StartChain(d: Driver, imageCount: nat)
    returns (swapchain: Handle, images: seq<Handle>, views: seq<Handle>, renderPass: Handle, uboLayout: Handle,
      pipeline: Handle, pipelineLayout: Handle, framebuffers: seq<Handle>)
    requires d.Valid()
    modifies d
    ensures d.Valid()
    ensures |images| == |views| == |framebuffers| == imageCount
    ensures pipelineLayout == uboLayout + 3 && pipeline == uboLayout + 4
    ensures d.trace == old(d.trace) + StartChainEvents(swapchain, images, views, renderPass, uboLayout, framebuffers)
  {
    ghost var before := d.trace;
    swapchain, images := CreateSwapchain(d, imageCount);
    ghost var done := [Created(Swapchain, swapchain), GotSwapchainImages(swapchain, images)];
    views := CreateImageViews(d, images);
    AppendAssoc(before, done, ImageViewEvents(views, images));
    done := done + ImageViewEvents(views, images);
    renderPass := d.Create(RenderPass);
    AppendAssoc(before, done, [Created(RenderPass, renderPass)]);
    done := done + [Created(RenderPass, renderPass)];
    uboLayout := d.Create(DescriptorSetLayout);
    AppendAssoc(before, done, [Created(DescriptorSetLayout, uboLayout)]);
    done := done + [Created(DescriptorSetLayout, uboLayout)];
    pipeline, pipelineLayout := CreateGraphicsPipeline(d);
    AppendAssoc(before, done, PipelineEvents(uboLayout + 1));
    done := done + PipelineEvents(uboLayout + 1);
    framebuffers := CreateFramebuffers(d, renderPass, views);
    AppendAssoc(before, done, FramebufferEvents(framebuffers, renderPass, views));
  }

  /** The calls that make the buffers of `GraphicsManager::new`: the command
      pool, the staged uploads of the vertex and the index data (each from
      the handle after the previous object), one uniform buffer per image,
      the descriptor pool, and the descriptor sets, set `k` writing uniform
      buffer `k`. */
  function StartBufferEvents(
    commandPool: Handle, uboLayout: Handle, uniforms: seq<Handle>, uniformMemories: seq<Handle>,
    descriptorPool: Handle, sets: seq<Handle>): seq<Event>
    requires |uniforms| == |uniformMemories| && |sets| <= |uniforms|
  {
    UploadEvents(commandPool) + DescriptorEvents(uboLayout, uniforms, uniformMemories, descriptorPool, sets)
  }

  /** The command pool, then the vertex and index buffers staged through it. */
  function UploadEvents(commandPool: Handle): seq<Event> {
    [Created(CommandPool, commandPool)]
    + StagedUploadEvents(commandPool + 1, commandPool, VertexDestination)
    + StagedUploadEvents(commandPool + 6, commandPool, IndexDestination)
  }

  /** The uniform buffers, the descriptor pool and the descriptor sets, set
      `k` writing uniform buffer `k`. */
  function DescriptorEvents(
    uboLayout: Handle, uniforms: seq<Handle>, uniformMemories: seq<Handle>,
    descriptorPool: Handle, sets: seq<Handle>): seq<Event>
    requires |uniforms| == |uniformMemories| && |sets| <= |uniforms|
  {
    UniformEvents(uniforms, uniformMemories)
    + [Created(DescriptorPool, descriptorPool)]
    + ([AllocatedDescriptorSets(descriptorPool, uboLayout, sets)] + DescriptorWrites(sets, uniforms))
  }

  /** The command pool, buffers and descriptor sets of `GraphicsManager::new`. */
  method StartBuffers(d: Driver, uboLayout: Handle, imageCount: nat)
    returns (commandPool: Handle, vertexBuffer: Handle, vertexBufferMemory: Handle, indexBuffer: Handle,
      indexBufferMemory: Handle, uniforms: seq<Handle>, uniformMemories: seq<Handle>, descriptorPool: Handle,
      sets: seq<Handle>)
    requires d.Valid()
    modifies d
    ensures d.Valid()
    ensures |uniforms| == |uniformMemories| == |sets| == imageCount
    ensures vertexBuffer == commandPool + 3 && vertexBufferMemory == commandPool + 4
    ensures indexBuffer == commandPool + 8 && indexBufferMemory == commandPool + 9
    ensures d.trace == old(d.trace)
      + StartBufferEvents(commandPool, uboLayout, uniforms, uniformMemories, descriptorPool, sets)
  {
    ghost var before := d.trace;
    commandPool, vertexBuffer, vertexBufferMemory, indexBuffer, indexBufferMemory := StartUploads(d);
    uniforms, uniformMemories, descriptorPool, sets := StartDescriptors(d, uboLayout, imageCount);
    AppendAssoc(before, UploadEvents(commandPool),
      DescriptorEvents(uboLayout, uniforms, uniformMemories, descriptorPool, sets));
  }

  /** The command pool and the staged vertex and index buffers. */
  method StartUploads(d: Driver)
    returns (commandPool: Handle, vertexBuffer: Handle, vertexBufferMemory: Handle, indexBuffer: Handle,
      indexBufferMemory: Handle)
    requires d.Valid()
    modifies d
    ensures d.Valid()
    ensures vertexBuffer == commandPool + 3 && vertexBufferMemory == commandPool + 4
    ensures indexBuffer == commandPool + 8 && indexBufferMemory == commandPool + 9
    ensures d.trace == old(d.trace) + UploadEvents(commandPool)
  {
    ghost var before := d.trace;
    commandPool := d.Create(CommandPool);
    ghost var done := [Created(CommandPool, commandPool)];
    vertexBuffer, vertexBufferMemory := CreateVertexBuffer(d, commandPool);
    AppendAssoc(before, done, StagedUploadEvents(commandPool + 1, commandPool, VertexDestination));
    done := done + StagedUploadEvents(commandPool + 1, commandPool, VertexDestination);
    indexBuffer, indexBufferMemory := CreateIndexBuffer(d, commandPool);
    AppendAssoc(before, done, StagedUploadEvents(commandPool + 6, commandPool, IndexDestination));
  }

  /** One uniform buffer per image, the descriptor pool and the descriptor sets. */
  method StartDescriptors(d: Driver, uboLayout: Handle, imageCount: nat)
    returns (uniforms: seq<Handle>, uniformMemories: seq<Handle>, descriptorPool: Handle, sets: seq<Handle>)
    requires d.Valid()
    modifies d
    ensures d.Valid()
    ensures |uniforms| == |uniformMemories| == |sets| == imageCount
    ensures d.trace == old(d.trace)
      + DescriptorEvents(uboLayout, uniforms, uniformMemories, descriptorPool, sets)
  {
    ghost var before := d.trace;
    uniforms, uniformMemories := CreateUniformBuffers(d, imageCount);
    ghost var done := UniformEvents(uniforms, uniformMemories);
    descriptorPool := d.Create(DescriptorPool);
    AppendAssoc(before, done, [Created(DescriptorPool, descriptorPool)]);
    done := done + [Created(DescriptorPool, descriptorPool)];
    sets := CreateDescriptorSets(d, descriptorPool, uboLayout, uniforms, imageCount);
    AppendAssoc(before + done, [AllocatedDescriptorSets(descriptorPool, uboLayout, sets)], DescriptorWrites(sets, uniforms));
    AppendAssoc(before, done, [AllocatedDescriptorSets(descriptorPool, uboLayout, sets)] + DescriptorWrites(sets, uniforms));
  }

  /** One `vkDestroy*` per handle, in order. */
  method DestroyEach(driver: Driver, kind: ObjectKind, hs: seq<Handle>)
    requires driver.Valid()
    modifies driver`trace
    ensures driver.Valid()
    ensures driver.trace == old(driver.trace) + DestroyAll(kind, hs)
  {
    for i := 0 to |hs|
      invariant driver.Valid()
      invariant driver.trace == old(driver.trace) + DestroyAll(kind, hs[..i])
    {
      driver.Destroy(kind, hs[i]);
      assert DestroyAll(kind, hs[..i + 1]) == DestroyAll(kind, hs[..i]) + [Destroyed(kind, hs[i])];
    }
    assert hs[..|hs|] == hs;
  }

  lemma SyncTeardownStep(imageAvailable: seq<Handle>, renderFinished: seq<Handle>, inFlight: seq<Handle>, i: nat)
    requires i < |imageAvailable| == |renderFinished| == |inFlight|
    ensures SyncTeardown(imageAvailable[..i + 1], renderFinished[..i + 1], inFlight[..i + 1])
      == SyncTeardown(imageAvailable[..i], renderFinished[..i], inFlight[..i])
        + SyncSlotTeardown(imageAvailable[i], renderFinished[i], inFlight[i])
  {
    var before := SyncTeardownChunks(imageAvailable[..i], renderFinished[..i], inFlight[..i]);
    assert SyncTeardownChunks(imageAvailable[..i + 1], renderFinished[..i + 1], inFlight[..i + 1])
      == before + [SyncSlotTeardown(imageAvailable[i], renderFinished[i], inFlight[i])];
    ConcatAppend(before, SyncSlotTeardown(imageAvailable[i], renderFinished[i], inFlight[i]));
  }

  lemma UniformTeardownStep(buffers: seq<Handle>, memories: seq<Handle>, i: nat)
    requires i < |buffers| == |memories|
    ensures UniformTeardown(buffers[..i + 1], memories[..i + 1])
      == UniformTeardown(buffers[..i], memories[..i]) + UniformPairTeardown(buffers[i], memories[i])
  {
    var before := UniformTeardownChunks(buffers[..i], memories[..i]);
    assert UniformTeardownChunks(buffers[..i + 1], memories[..i + 1])
      == before + [UniformPairTeardown(buffers[i], memories[i])];
    ConcatAppend(before, UniformPairTeardown(buffers[i], memories[i]));
  }
}
